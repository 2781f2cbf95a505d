/**
 * The three feed languages and the static tables keyed by them: feed URLs
 * and default template file names, plus the inference of a language from a
 * feed URL.
 */
module Languages {
  import opened Wrappers
  import opened Strings

  /** The `Language` enumeration. */
  datatype Language = Chinese | Portuguese | English

  /** `DATA_SOURCES`: the feed URL for each language. */
  function DataSource(l: Language): string {
    match l
    case Chinese => "https://xml.smg.gov.mo/c_forecast.xml"
    case Portuguese => "https://xml.smg.gov.mo/p_forecast.xml"
    case English => "https://xml.smg.gov.mo/e_forecast.xml"
  }

  /** `DEFAULT_TEMPLATES`: the template file used when none is named. */
  function DefaultTemplateFile(l: Language): string {
    match l
    case Chinese => "default_template.md"
    case Portuguese => "default_pt.md"
    case English => "default_en.md"
  }

  /** `get_language_from_url`: the first feed file name found in the URL decides. */
  function LanguageFromUrl(url: string): (l: Language)
    ensures l == Portuguese <==> !Contains(url, "c_forecast.xml") && Contains(url, "p_forecast.xml")
    ensures l == English <==>
      !Contains(url, "c_forecast.xml") && !Contains(url, "p_forecast.xml") && Contains(url, "e_forecast.xml")
  {
    if Contains(url, "c_forecast.xml") then Chinese
    else if Contains(url, "p_forecast.xml") then Portuguese
    else if Contains(url, "e_forecast.xml") then English
    else Chinese
  }

  /**
   * Inferring the language of a configured feed URL gives back the language
   * the URL was configured for.
   */
  lemma UrlRoundTrip(l: Language)
    ensures LanguageFromUrl(DataSource(l)) == l
  {
    match l
    case Chinese => ChineseUrl();
    case Portuguese => PortugueseUrl();
    case English => EnglishUrl();
  }

  lemma ChineseUrl()
    ensures Contains(DataSource(Chinese), "c_forecast.xml")
  {
    var url := DataSource(Chinese);
    assert url[23..] == "c_forecast.xml";
    assert OccursAt(url, "c_forecast.xml", 23);
  }

  lemma PortugueseUrl()
    ensures !Contains(DataSource(Portuguese), "c_forecast.xml")
    ensures Contains(DataSource(Portuguese), "p_forecast.xml")
  {
    var url := DataSource(Portuguese);
    assert url[23..] == "p_forecast.xml";
    assert OccursAt(url, "p_forecast.xml", 23);
    OnlyUnderscoreAt24(Portuguese);
    OccurrenceBeforeUnderscore(url, 'c', 24);
    assert ['c'] + "_forecast.xml" == "c_forecast.xml";
  }

  lemma EnglishUrl()
    ensures !Contains(DataSource(English), "c_forecast.xml")
    ensures !Contains(DataSource(English), "p_forecast.xml")
    ensures Contains(DataSource(English), "e_forecast.xml")
  {
    var url := DataSource(English);
    assert url[23..] == "e_forecast.xml";
    assert OccursAt(url, "e_forecast.xml", 23);
    OnlyUnderscoreAt24(English);
    OccurrenceBeforeUnderscore(url, 'c', 24);
    OccurrenceBeforeUnderscore(url, 'p', 24);
    assert ['c'] + "_forecast.xml" == "c_forecast.xml";
    assert ['p'] + "_forecast.xml" == "p_forecast.xml";
  }

  lemma OnlyUnderscoreAt24(l: Language)
    ensures forall k :: 0 <= k < |DataSource(l)| && DataSource(l)[k] == '_' ==> k == 24
  {
  }

  /**
   * In a URL with a single underscore, a feed file name `c_forecast.xml`
   * can only occur right before that underscore.
   */
  lemma OccurrenceBeforeUnderscore(url: string, c: char, p: nat)
    requires forall k :: 0 <= k < |url| && url[k] == '_' ==> k == p
    ensures forall j :: OccursAt(url, [c] + "_forecast.xml", j) ==> j + 1 == p && url[j] == c
  {
    var name := [c] + "_forecast.xml";
    forall j | OccursAt(url, name, j) ensures j + 1 == p && url[j] == c {
      assert url[j..j + |name|][0] == url[j];
      assert url[j..j + |name|][1] == url[j + 1];
    }
  }
}
