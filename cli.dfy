/**
 * The command-line entry point: which language, feed URL and template file
 * a run uses, when it falls back to the built-in template, and how each
 * failure ends the run.
 *
 * Reading the template file and fetching the feed are outside the model:
 * they are given to `Run` as functions from a file name and from a URL to
 * their outcome. The current time is given as already formatted text.
 */
module Cli {
  import opened Wrappers
  import opened Strings
  import opened Languages
  import opened Templates
  import opened WeatherXml
  import opened Markdown
  import opened Formatting

  /** The parsed options `--template`, `--url` and `--language`; absent ones are None. */
  datatype Args = Args(template: Option<string>, url: Option<string>, language: Option<Language>)

  /** Python truthiness of an optional string: present and not empty. */
  predicate Truthy(s: Option<string>) {
    s.Some? && s.value != ""
  }

  /** The language of the run and the feed it reads. */
  datatype Selection = Selection(lang: Language, url: string)

  /** An explicit language wins, then an explicit URL, then Chinese. */
  function Select(args: Args): (s: Selection)
    ensures args.language.Some? ==> s == Selection(args.language.value, DataSource(args.language.value))
    ensures args.language.None? && Truthy(args.url) ==>
      s == Selection(LanguageFromUrl(args.url.value), args.url.value)
    ensures args.language.None? && !Truthy(args.url) ==> s == Selection(Chinese, DataSource(Chinese))
  {
    if args.language.Some? then Selection(args.language.value, DataSource(args.language.value))
    else if Truthy(args.url) then Selection(LanguageFromUrl(args.url.value), args.url.value)
    else Selection(Chinese, DataSource(Chinese))
  }

  /** Whatever the options, the language of a run is the one its feed URL names. */
  lemma SelectAgreesWithUrl(args: Args)
    ensures LanguageFromUrl(Select(args).url) == Select(args).lang
  {
    if args.language.Some? {
      UrlRoundTrip(args.language.value);
    } else if !Truthy(args.url) {
      UrlRoundTrip(Chinese);
    }
  }

  /** The template file named on the command line, or the language's default one. */
  function TemplateFile(args: Args, lang: Language): (file: string)
    ensures Truthy(args.template) ==> file == args.template.value
    ensures !Truthy(args.template) ==> file == DefaultTemplateFile(lang)
  {
    if Truthy(args.template) then args.template.value else DefaultTemplateFile(lang)
  }

  /** What reading a template file gives. */
  datatype ReadOutcome =
    | Read(content: string)  // the file's text
    | NotFound               // FileNotFoundError
    | Undecodable            // UnicodeDecodeError, a ValueError
    | Unreadable             // any other OSError, such as a permission error

  /** What fetching and parsing the feed gives. */
  datatype FeedOutcome =
    | RequestFailed          // a requests.RequestException, including an HTTP error status
    | Malformed              // ET.ParseError
    | Parsed(root: Element)

  /** What an unexpected error was raised by. */
  datatype Cause =
    | TemplateUnreadable
    | MissingSystemElement(tag: string)   // AttributeError on a missing system element
    | FormatFailure(error: FormatError)

  /** How a failed run ends: a message on standard error and exit status 1. */
  datatype RunError =
    | FetchError
    | XmlParseError
    | UnexpectedError(cause: Cause)

  /**
   * The template a run uses: the file's two halves when it splits, the
   * built-in template of the language when the file is missing, cannot be
   * decoded or does not split, and an error for any other read failure.
   */
  function ResolveTemplate(outcome: ReadOutcome, lang: Language): (r: Result<Template, RunError>)
    ensures outcome.Read? && SplitTemplate(outcome.content).Success? ==>
      r == Success(SplitTemplate(outcome.content).value)
    ensures outcome.Read? && SplitTemplate(outcome.content).Failure? ==> r == Success(CreateDefaultTemplate(lang))
    ensures outcome == NotFound || outcome == Undecodable ==> r == Success(CreateDefaultTemplate(lang))
    ensures r.Failure? <==> outcome == Unreadable
  {
    match outcome
    case Read(content) =>
      (match SplitTemplate(content)
       case Success(t) => Success(t)
       case Failure(_) => Success(CreateDefaultTemplate(lang)))
    case NotFound => Success(CreateDefaultTemplate(lang))
    case Undecodable => Success(CreateDefaultTemplate(lang))
    case Unreadable => Failure(UnexpectedError(TemplateUnreadable))
  }

  /** What a run prints for a weather record: the document and a line break. */
  function Publish(doc: WeatherDoc, template: Template, lang: Language, currentTime: string): Result<string, RunError> {
    match Document(doc, template, lang, currentTime)
    case Failure(e) => Failure(UnexpectedError(FormatFailure(e)))
    case Success(markdown) => Success(markdown + "\n")
  }

  /** What a run prints for a parsed feed. */
  function Output(root: Element, template: Template, lang: Language, currentTime: string): Result<string, RunError> {
    match ExtractWeather(root)
    case Failure(MissingElement(tag)) => Failure(UnexpectedError(MissingSystemElement(tag)))
    case Success(doc) => Publish(doc, template, lang, currentTime)
  }

  /**
   * `main` without `--list-templates`: the standard output of a run, or how
   * it fails. The template is resolved before the feed is fetched.
   */
  function Run(args: Args, readTemplate: string -> ReadOutcome, fetch: string -> FeedOutcome, currentTime: string)
    : Result<string, RunError>
  {
    var sel := Select(args);
    match ResolveTemplate(readTemplate(TemplateFile(args, sel.lang)), sel.lang)
    case Failure(e) => Failure(e)
    case Success(template) =>
      match fetch(sel.url)
      case RequestFailed => Failure(FetchError)
      case Malformed => Failure(XmlParseError)
      case Parsed(root) => Output(root, template, sel.lang, currentTime)
  }

  /**
   * The outcome of a run stage by stage: an unreadable template ends it
   * before the feed is fetched, then a failed request, then a malformed
   * feed; otherwise the output of the parsed feed with the resolved template.
   */
  lemma RunStages(args: Args, readTemplate: string -> ReadOutcome, fetch: string -> FeedOutcome, currentTime: string)
    ensures var sel := Select(args);
      var outcome := readTemplate(TemplateFile(args, sel.lang));
      var r := Run(args, readTemplate, fetch, currentTime);
      && (outcome == Unreadable ==> r == Failure(UnexpectedError(TemplateUnreadable)))
      && (outcome != Unreadable && fetch(sel.url) == RequestFailed ==> r == Failure(FetchError))
      && (outcome != Unreadable && fetch(sel.url) == Malformed ==> r == Failure(XmlParseError))
      && (outcome != Unreadable && fetch(sel.url).Parsed? ==>
            r == Output(fetch(sel.url).root, ResolveTemplate(outcome, sel.lang).value, sel.lang, currentTime))
  {
  }

  /**
   * A feed without one of its system elements gives an unexpected error
   * naming the first one missing, whatever the template.
   */
  lemma MissingSystemElementFails(root: Element, template: Template, lang: Language, currentTime: string)
    requires ExtractWeather(root).Failure?
    ensures Output(root, template, lang, currentTime) ==
      Failure(UnexpectedError(MissingSystemElement(ExtractWeather(root).error.tag)))
  {
  }

  /**
   * With a template whose two halves show their values, a weather record
   * is always printed, with its author, publication date and language
   * verbatim.
   */
  lemma PublishShows(doc: WeatherDoc, template: Template, lang: Language, currentTime: string)
    requires forall env :: ShowsItemValues(template.forecastItem, env)
    requires forall env :: ShowsMainValues(template.main, env)
    ensures Publish(doc, template, lang, currentTime).Success?
    ensures var out := Publish(doc, template, lang, currentTime).value;
      && Contains(out, Show(doc.system.author))
      && Contains(out, Show(doc.system.pubdate))
      && Contains(out, Show(doc.system.language))
  {
    DocumentShows(doc, template, lang, currentTime);
    var markdown := Document(doc, template, lang, currentTime).value;
    assert Publish(doc, template, lang, currentTime) == Success(markdown + "\n");
    ContainsExtended(markdown, "\n", Show(doc.system.author));
    ContainsExtended(markdown, "\n", Show(doc.system.pubdate));
    ContainsExtended(markdown, "\n", Show(doc.system.language));
  }

  /** The same for the built-in template of any language. */
  lemma DefaultPublishShows(doc: WeatherDoc, lang: Language, currentTime: string)
    ensures Publish(doc, CreateDefaultTemplate(lang), lang, currentTime).Success?
    ensures var out := Publish(doc, CreateDefaultTemplate(lang), lang, currentTime).value;
      && Contains(out, Show(doc.system.author))
      && Contains(out, Show(doc.system.pubdate))
      && Contains(out, Show(doc.system.language))
  {
    DefaultShowsItemValues(lang);
    DefaultShowsMainValues(lang);
    PublishShows(doc, CreateDefaultTemplate(lang), lang, currentTime);
  }

  /**
   * A template file that is missing, cannot be decoded or does not hold
   * exactly one marker is replaced by the built-in template of the language.
   */
  lemma FallbackTemplate(outcome: ReadOutcome, lang: Language)
    requires outcome == NotFound || outcome == Undecodable || (outcome.Read? && !OccursOnce(outcome.content, Marker))
    ensures ResolveTemplate(outcome, lang) == Success(CreateDefaultTemplate(lang))
  {
    if outcome.Read? {
      SplitTemplateSucceeds(outcome.content);
    }
  }

  /**
   * A run whose template file is missing, cannot be decoded or does not
   * hold exactly one marker, and whose feed carries its system elements,
   * succeeds with the built-in template and prints the author, publication
   * date and language verbatim.
   */
  lemma FallbackRunShows(args: Args, readTemplate: string -> ReadOutcome, fetch: string -> FeedOutcome, currentTime: string)
    requires var outcome := readTemplate(TemplateFile(args, Select(args).lang));
      outcome == NotFound || outcome == Undecodable || (outcome.Read? && !OccursOnce(outcome.content, Marker))
    requires fetch(Select(args).url).Parsed? && ExtractWeather(fetch(Select(args).url).root).Success?
    ensures Run(args, readTemplate, fetch, currentTime).Success?
    ensures var out := Run(args, readTemplate, fetch, currentTime).value;
      var doc := ExtractWeather(fetch(Select(args).url).root).value;
      && Contains(out, Show(doc.system.author))
      && Contains(out, Show(doc.system.pubdate))
      && Contains(out, Show(doc.system.language))
  {
    var sel := Select(args);
    FallbackTemplate(readTemplate(TemplateFile(args, sel.lang)), sel.lang);
    RunStages(args, readTemplate, fetch, currentTime);
    var doc := ExtractWeather(fetch(sel.url).root).value;
    DefaultPublishShows(doc, sel.lang, currentTime);
  }
}
