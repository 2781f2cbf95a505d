# Macau weather feed to Markdown, modelled in Dafny

`weather_markdown.py` turns the Macau weather service's XML forecast feed
into a Markdown document. A run:

1. chooses a language (Chinese, Portuguese or English) and a feed URL from
   its options;
2. chooses a template file and loads it;
3. fetches and parses the feed;
4. extracts the system fields, today's situation and one record per
   forecast day;
5. fills the per-day fragment template for each forecast and the main
   template for the whole document;
6. prints the result.

A template file holds two `str.format` templates separated by the
`<!-- FORECAST_ITEM -->` marker. Built-in templates exist for each language.

The model is split into modules:

- `Strings` (`strings.dfy`): the parts of Python's `str` the program relies
  on. These are `isspace`, `strip()`, the `in` test, `split(sep)`, and
  `sep.join` as the inverse of `split`.
- `Languages` (`languages.dfy`): the `Language` enumeration, its tables of
  feed URLs and default template files, and `get_language_from_url`.
- `Formatting` (`formatting.dfy`):
  - `str.format` with named fields, written as a left-to-right scanner (`Format`).
  - Beside it, a small language of literal and field segments with its own
    meaning (`Fill`).
  - The proof that a template written out from segments formats exactly
    as the segments are filled.
- `Templates` (`templates.dfy`):
  - `load_template`'s splitting and stripping of a file's content (`SplitTemplate`).
  - `create_default_template`, with the three built-in templates written
    as segments over one shared layout.
- `WeatherXml` (`weather_xml.dfy`):
  - The parsed feed as an element tree.
  - ElementTree's `find`/`findall` for `.//T` (document order, below the
    root) and for a direct child.
  - `parse_weather_xml` on the parsed tree: the function `ExtractWeather`
    and the loop `ParseWeatherXml` proved equal to it.
- `Markdown` (`markdown.dfy`):
  - `generate_markdown`: the loop `GenerateMarkdown`, proved equal to the
    function `Document`.
  - The tide display.
  - The forecasts section as the joined fragments, with the first
    formatting error winning.
- `Cli` (`cli.dfy`):
  - `main` without `--list-templates`.
  - Language and URL selection, and template file selection.
  - The fallback to the built-in template.
  - How each failure ends the run.
  - Reading the template file and fetching the feed are function
    parameters of `Run`. The current time is a string parameter.

Two places where the code is more precise than a summary of it would be, and
the model follows the code:

- The fallbacks "Unknown", "No description", "NIL" and "No data available"
  apply only when the element is absent. An element that is present but
  empty has `.text` None, and `str.format` prints it as `None`. The model
  keeps `.text` as an `Option` and prints None as "None" (`Markdown.Show`).
- The built-in template is used when the template file is missing, when it
  cannot be decoded (a `UnicodeDecodeError` is a `ValueError`), when it has
  no marker, and also when it has more than one marker (the two-name
  unpacking raises `ValueError`). Any other read failure, such as a
  permission error, is re-raised and ends the run as an unexpected error.

## Model

| member | source | states |
|---|---|---|
| Strings.Strip | weather_markdown.py:64-65 | the result has no white space at either end and is the input with only white space removed before and after it |
| Strings.StripPadded | weather_markdown.py:64-65 | any trimmed text with white space on both sides strips back to exactly that text |
| Strings.StripIdempotent | weather_markdown.py:64-65 | stripping a stripped half changes nothing |
| Strings.Contains | weather_markdown.py:61 | the `in` test holds exactly when the text occurs at some index |
| Strings.Split | weather_markdown.py:62 | there is at least one part; no part contains the separator; joining the parts with the separator gives the input back; there is one part exactly when the separator does not occur; otherwise the first part ends at the leftmost occurrence |
| Languages.LanguageFromUrl | weather_markdown.py:262-272 | Portuguese exactly when "c_forecast.xml" is absent and "p_forecast.xml" present; English exactly when both are absent and "e_forecast.xml" present; Chinese otherwise |
| Languages.UrlRoundTrip | weather_markdown.py:31-35 | the language inferred from each configured feed URL is the language that URL is configured for |
| Formatting.FormatEscaped | weather_markdown.py:229-233 | in a format string, doubled braces print as single braces and other characters print as themselves |
| Formatting.FormatRender | weather_markdown.py:238-245 | formatting a template written out from segments gives the same result, or error, as filling the segments |
| Formatting.FillSucceeds | weather_markdown.py:238-245 | filling succeeds exactly when every field the template uses is bound |
| Formatting.FillEmbeds | weather_markdown.py:238-245 | when filling succeeds, every used field is bound and its value appears verbatim in the output |
| Templates.SplitTemplate | weather_markdown.py:61-68 | no marker gives the missing-marker error and nothing else does; success means exactly one marker, with the stripped text before and after it as the two templates |
| Templates.SplitTemplateOneMarker | weather_markdown.py:61-66 | content made of two marker-free halves around one marker splits into the two stripped halves |
| Templates.SplitTemplateSucceeds | weather_markdown.py:61-68 | loading succeeds exactly when the marker occurs once |
| Templates.SplitTemplateTwoMarkers | weather_markdown.py:62 | two marker occurrences give the too-many-values error |
| Templates.MarkersDoNotOverlap | weather_markdown.py:61-62 | two occurrences of the marker never overlap |
| Templates.MainLayoutFields | weather_markdown.py:85-102 | the built-in main templates use only the six fields the generator supplies, and never spell a brace inside a field name |
| Templates.ItemLayoutFields | weather_markdown.py:103-110 | the built-in fragments use date, tide and description, each of them, and no other field |
| Templates.DefaultMainFormats | weather_markdown.py:81-169 | formatting a built-in main template with the six fields bound never fails and equals filling its segments |
| Templates.DefaultItemFormats | weather_markdown.py:81-169 | formatting a built-in fragment with its three fields bound never fails and equals filling its segments |
| Templates.DefaultMainEmbeds | weather_markdown.py:85-102 | the output of a built-in main template contains the author, publication date, language, situation text and forecasts section verbatim |
| Templates.DefaultItemEmbeds | weather_markdown.py:103-110 | the output of a built-in fragment contains the date, tide and description verbatim |
| Templates.DefaultShowsItemValues | weather_markdown.py:132-139 | for every binding of the fragment fields, each language's built-in fragment succeeds and shows the three values |
| Templates.DefaultShowsMainValues | weather_markdown.py:114-131 | for every binding of the main fields, each language's built-in main template succeeds and shows the five values |
| WeatherXml.FirstWithTag | weather_markdown.py:190-192 | None exactly when no element has the tag; otherwise the first element with the tag |
| WeatherXml.FindIsFirstOfFindAll | weather_markdown.py:184-189 | `find(".//T")` is the first element of `findall(".//T")`, and None when that is empty |
| WeatherXml.ForecastFallbacks | weather_markdown.py:190-198 | each forecast field falls back ("Unknown", "No description", "NIL") exactly when its child element is absent, and otherwise is the first such child's text |
| WeatherXml.ForecastsOf | weather_markdown.py:188-200 | one forecast per WeatherForecast block, in document order |
| WeatherXml.ExtractWeather | weather_markdown.py:172-206 | a missing SysAuthor, then SysPubdate, then SysLanguage is an error in that order; success exactly when all three exist; the system fields are their texts; the situation falls back to "No data available" only when absent; one forecast per block in document order |
| WeatherXml.ParseWeatherXml | weather_markdown.py:188-200 | the appending loop yields exactly the record `ExtractWeather` specifies |
| Markdown.TideDisplay | weather_markdown.py:219-227 | the sentinel "NIL" shows as 無資料, Sem dados or No data by language; any other tide shows as itself; the displayed tide is never the sentinel itself |
| Markdown.ItemEnvBinds | weather_markdown.py:229-233 | each fragment is filled with its forecast's date, tide display and description |
| Markdown.MainEnvBinds | weather_markdown.py:238-245 | the main template is filled with the system fields, the situation text and the forecasts section |
| Markdown.GenerateMarkdown | weather_markdown.py:209-247 | the accumulating loop gives exactly `Document`: the joined fragments, then the main template, with the first formatting error raised |
| Markdown.SectionAppend | weather_markdown.py:216-233 | the section for forecasts given one after another is the first run's text followed by the second's, and the first error wins |
| Markdown.SectionSmall | weather_markdown.py:216-233 | no forecasts give an empty section; one forecast gives its fragment |
| Markdown.SectionOutcome | weather_markdown.py:217-233 | the section is built exactly when every fragment is; otherwise the error is that of the first failing forecast |
| Markdown.SectionShows | weather_markdown.py:229-233 | with a fragment template that shows its values, the section shows every forecast's date, tide display and description |
| Markdown.DefaultSectionShows | weather_markdown.py:216-233 | with a built-in template, the section is always built and shows every forecast's date, tide display and description |
| Markdown.DocumentShows | weather_markdown.py:238-245 | with templates that show their values, the document is built and shows the author, publication date, language, situation and the whole section |
| Markdown.DefaultDocumentShows | weather_markdown.py:238-245 | with a built-in template, the document is always built and shows the author, publication date, language and situation text verbatim, and the whole forecasts section |
| Cli.Select | weather_markdown.py:315-324 | an explicit language selects its own feed; otherwise a non-empty URL is used and its language inferred; otherwise Chinese and its feed |
| Cli.SelectAgreesWithUrl | weather_markdown.py:315-324 | whatever the options, the selected language is the one inferred from the selected URL |
| Cli.TemplateFile | weather_markdown.py:327-330 | a non-empty `--template` is used as given; otherwise the language's default file |
| Cli.ResolveTemplate | weather_markdown.py:334-338 | a file that splits gives its two halves; a missing, undecodable or unsplittable file gives the built-in template of the language; only another read failure is an error |
| Cli.FallbackTemplate | weather_markdown.py:334-338 | a missing or undecodable file, or content without exactly one marker, is replaced by the built-in template |
| Cli.RunStages | weather_markdown.py:332-363 | an unreadable template ends the run before the feed is fetched; then a failed request is a fetch error; then a malformed feed is a parse error; otherwise the run prints the output for the parsed feed and the resolved template |
| Cli.MissingSystemElementFails | weather_markdown.py:361-363 | a feed without a system element ends the run with an unexpected error naming the first one missing, whatever the template |
| Cli.PublishShows | weather_markdown.py:350-353 | with templates that show their values, the printed output contains the author, publication date and language verbatim |
| Cli.DefaultPublishShows | weather_markdown.py:350-353 | with the built-in template, the printed output always exists and contains the author, publication date and language verbatim |
| Cli.FallbackRunShows | weather_markdown.py:332-353 | a run that falls back to the built-in template, on a feed with its system elements, succeeds and prints the author, publication date and language verbatim |
| Languages.DataSource | weather_markdown.py:31-35 | the feed URL of each language; `UrlRoundTrip` gives its meaning |
| Languages.DefaultTemplateFile | weather_markdown.py:45-49 | the default template file of each language; `Cli.TemplateFile` uses it when no template is named |
| Formatting.Format | weather_markdown.py:229-233 | `str.format` with named fields as a left-to-right scanner; `FormatEscaped`, `FormatRender`, `FillSucceeds` and `FillEmbeds` give its meaning |
| Templates.CreateDefaultTemplate | weather_markdown.py:81-169 | the built-in main template and fragment of each language, written out from segments; `DefaultMainFormats`, `DefaultItemFormats`, `DefaultMainEmbeds` and `DefaultItemEmbeds` give its meaning |
| WeatherXml.Find | weather_markdown.py:178-185 | `root.find(".//T")`; `FindIsFirstOfFindAll` gives its meaning |
| WeatherXml.FindAll | weather_markdown.py:189 | `root.findall(".//T")`, the elements below the root with the tag in document order; `FindIsFirstOfFindAll` relates it to `Find` |
| WeatherXml.FindChild | weather_markdown.py:190-192 | `block.find("T")`, the first direct child with the tag; `FirstWithTag` gives its meaning |
| WeatherXml.ForecastOf | weather_markdown.py:190-198 | one forecast record from one block; `ForecastFallbacks` gives its meaning |
| Markdown.Show | weather_markdown.py:229-233 | how `str.format` prints a text value, with None printed as "None"; used by `ItemEnvBinds` and `MainEnvBinds` |
| Markdown.Section | weather_markdown.py:216-233 | the accumulated forecasts section; `SectionAppend`, `SectionSmall`, `SectionOutcome` and `SectionShows` give its meaning |
| Markdown.Document | weather_markdown.py:209-247 | the whole document, or the first formatting error; `GenerateMarkdown`, `DocumentShows` and `DefaultDocumentShows` give its meaning |
| Cli.Publish | weather_markdown.py:350-353 | what a run prints for a weather record, the document and a line break; `PublishShows` gives its meaning |
| Cli.Output | weather_markdown.py:346-353 | what a run prints for a parsed feed; `MissingSystemElementFails` gives its error case |
| Cli.Run | weather_markdown.py:332-363 | the whole run after option parsing; `RunStages` and `FallbackRunShows` give its meaning |

## Left out

- Fetching the feed (`requests.get` with its timeout, and `raise_for_status`) is not modelled. `Cli.Run` takes the fetch as a function from URL to outcome: a request failure, malformed XML, or a parsed tree.
- XML parsing (`ET.fromstring`) is not modelled. The feed is given already parsed as an element tree of tags, texts and children. Attributes, tails and namespaces are not represented.
- Reading the template file is not modelled (the path join, `open` and UTF-8 decoding). `Cli.Run` takes it as a function from file name to outcome.
- `list_available_templates` and the `--list-templates` option are not modelled. They only list a directory.
- The language codes of the `Language` enumeration are not modelled. They matter only to option parsing.
- `argparse` is not modelled: option parsing, the `choices` check and its exit status 2. `Cli.Args` holds the options after parsing, with the language already one of the three.
- `LANGUAGE_NAMES` and all messages written to standard error are not modelled. A failed run is a `Cli.RunError` naming the failure, and its exit status 1 is implied.
- The startup check that `requests` can be imported is not modelled.
- `datetime.now().strftime(...)` is not modelled. The current time is a string parameter.
- Formatting.Format: format specifications (`{author:>20}`), conversions (`{author!r}`), attribute and index access (`{author[0]}`) and positional fields are not modelled. Such a field is looked up by its whole text. On a bound name the program formats it (padding, repr, indexing), but the model fails on it as an unknown name, so the model reports an unexpected error for templates the program renders. On an unbound name both fail, with a different error kind.
- Templates.CreateDefaultTemplate: each built-in template is written as segments and rendered with braces escaped. This equals the source's literal text because those literals contain no braces. That absence of braces is not proved.
- Strings.IsSpace: covers the Unicode white space `str.isspace` accepts in the Basic Multilingual Plane. There is no normalisation or case folding.
