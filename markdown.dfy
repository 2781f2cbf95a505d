/**
 * `generate_markdown`: each forecast fills the fragment template, the
 * fragments are joined in order, and the main template is filled with the
 * system fields, the situation text, the joined fragments and the time.
 */
module Markdown {
  import opened Wrappers
  import opened Strings
  import opened Languages
  import opened Formatting
  import opened Templates
  import opened WeatherXml

  /** The value the feed uses for "no tide reading". */
  const Sentinel := "NIL"

  /** What the forecast shows instead of the sentinel, per language. */
  function NoTideText(lang: Language): string {
    match lang
    case Chinese => "無資料"
    case Portuguese => "Sem dados"
    case English => "No data"
  }

  /** How `str.format` prints a text value: None prints as "None". */
  function Show(t: Text): string {
    match t
    case None => "None"
    case Some(s) => s
  }

  /**
   * The tide shown for a forecast: the per-language "no data" text for the
   * sentinel, the reading itself otherwise; the sentinel never reaches the
   * document.
   */
  function TideDisplay(tide: Text, lang: Language): (r: string)
    ensures tide == Some(Sentinel) ==> r == NoTideText(lang)
    ensures tide != Some(Sentinel) ==> r == Show(tide)
    ensures r != Sentinel
  {
    if tide == Some(Sentinel) then NoTideText(lang) else Show(tide)
  }

  /** The fields a fragment is filled with. */
  function ItemEnv(f: Forecast, lang: Language): Env {
    map["date" := Show(f.date), "tide" := TideDisplay(f.tide, lang), "description" := Show(f.description)]
  }

  /** The fragment fields are bound to the forecast's date, tide display and description. */
  lemma ItemEnvBinds(f: Forecast, lang: Language)
    ensures ItemFields <= ItemEnv(f, lang).Keys
    ensures ItemEnv(f, lang)["date"] == Show(f.date)
    ensures ItemEnv(f, lang)["tide"] == TideDisplay(f.tide, lang)
    ensures ItemEnv(f, lang)["description"] == Show(f.description)
  {
    assert "date"[0] == 'd' && "tide"[0] == 't' && "description"[0] == 'd' && "description"[1] == 'e';
  }

  /** The fields the main template is filled with. */
  function MainEnv(doc: WeatherDoc, forecasts: string, currentTime: string): Env {
    map[
      "today_situation" := Show(doc.todaySituation),
      "author" := Show(doc.system.author),
      "pubdate" := Show(doc.system.pubdate),
      "language" := Show(doc.system.language),
      "forecasts" := forecasts,
      "current_time" := currentTime]
  }

  /** One forecast's fragment: the item template filled with its fields. */
  function Fragment(f: Forecast, item: string, lang: Language): Result<string, FormatError> {
    Format(item, ItemEnv(f, lang))
  }

  /** The fragments of `fs`, in order. */
  function Fragments(fs: seq<Forecast>, item: string, lang: Language): (rs: seq<Result<string, FormatError>>)
    ensures |rs| == |fs|
    ensures forall k :: 0 <= k < |fs| ==> rs[k] == Fragment(fs[k], item, lang)
  {
    seq(|fs|, k requires 0 <= k < |fs| => Fragment(fs[k], item, lang))
  }

  /**
   * Pieces of text appended one after another, as `+=` accumulates them;
   * the first piece that is an error is the outcome.
   */
  function Joined(rs: seq<Result<string, FormatError>>): Result<string, FormatError> {
    if rs == [] then Success("")
    else
      match Joined(rs[..|rs| - 1])
      case Failure(e) => Failure(e)
      case Success(text) => Prepend(text, rs[|rs| - 1])
  }

  /** The forecasts section: the fragments of `fs` joined in order. */
  function Section(fs: seq<Forecast>, item: string, lang: Language): Result<string, FormatError> {
    Joined(Fragments(fs, item, lang))
  }

  /** The whole document, or the first formatting error. */
  function Document(doc: WeatherDoc, t: Template, lang: Language, currentTime: string): Result<string, FormatError> {
    match Section(doc.forecasts, t.forecastItem, lang)
    case Failure(e) => Failure(e)
    case Success(forecasts) => Format(t.main, MainEnv(doc, forecasts, currentTime))
  }

  /** `generate_markdown`: the section is accumulated fragment by fragment. */
  method GenerateMarkdown(doc: WeatherDoc, t: Template, lang: Language, currentTime: string)
    returns (r: Result<string, FormatError>)
    ensures r == Document(doc, t, lang, currentTime)
  {
    ghost var rs := Fragments(doc.forecasts, t.forecastItem, lang);
    var forecastsText := "";
    for i := 0 to |doc.forecasts|
      invariant Joined(rs[..i]) == Success(forecastsText)
    {
      var forecast := doc.forecasts[i];
      var tideDisplay := TideDisplay(forecast.tide, lang);
      var fragment := Format(t.forecastItem,
        map["date" := Show(forecast.date), "tide" := tideDisplay, "description" := Show(forecast.description)]);
      assert fragment == rs[i];
      assert rs[..i + 1][..i] == rs[..i];
      if fragment.Failure? {
        JoinedFailureSticks(rs, i + 1);
        return Failure(fragment.error);
      }
      forecastsText := forecastsText + fragment.value;
    }
    assert rs[..|rs|] == rs;
    r := Format(t.main, MainEnv(doc, forecastsText, currentTime));
  }

  /** Once a prefix of the pieces fails, the whole join fails the same way. */
  lemma {:induction false} JoinedFailureSticks(rs: seq<Result<string, FormatError>>, n: nat)
    requires n <= |rs| && Joined(rs[..n]).Failure?
    ensures Joined(rs) == Joined(rs[..n])
    decreases |rs| - n
  {
    if n < |rs| {
      assert rs[..n + 1][..n] == rs[..n];
      JoinedFailureSticks(rs, n + 1);
    } else {
      assert rs[..n] == rs;
    }
  }

  /** Joining two runs of pieces is joining the first, then appending the second's join. */
  lemma {:induction false} JoinedAppend(a: seq<Result<string, FormatError>>, b: seq<Result<string, FormatError>>)
    ensures Joined(a).Failure? ==> Joined(a + b) == Joined(a)
    ensures Joined(a).Success? ==> Joined(a + b) == Prepend(Joined(a).value, Joined(b))
    decreases |b|
  {
    if b == [] {
      assert a + b == a;
      if Joined(a).Success? {
        assert Joined(a).value + "" == Joined(a).value;
      }
    } else {
      var init, last := b[..|b| - 1], b[|b| - 1];
      assert (a + b)[..|a + b| - 1] == a + init;
      assert (a + b)[|a + b| - 1] == last;
      JoinedAppend(a, init);
      if Joined(a).Success? && Joined(init).Success? && last.Success? {
        var x, y, z := Joined(a).value, Joined(init).value, last.value;
        assert (x + y) + z == x + (y + z);
      }
    }
  }

  /** A join succeeds exactly when every piece does. */
  lemma {:induction false} JoinedSucceeds(rs: seq<Result<string, FormatError>>)
    ensures Joined(rs).Success? <==> forall k :: 0 <= k < |rs| ==> rs[k].Success?
  {
    if rs != [] {
      var init := rs[..|rs| - 1];
      JoinedSucceeds(init);
      assert forall k :: 0 <= k < |init| ==> init[k] == rs[k];
    }
  }

  /** A failing join fails with the first failing piece. */
  lemma JoinedFirstFailure(rs: seq<Result<string, FormatError>>, k: nat)
    requires k < |rs| && rs[k].Failure?
    requires forall j :: 0 <= j < k ==> rs[j].Success?
    ensures Joined(rs) == rs[k]
  {
    var init := rs[..k];
    assert forall j :: 0 <= j < |init| ==> init[j] == rs[j];
    JoinedSucceeds(init);
    assert rs[..k + 1][..k] == init;
    JoinedFailureSticks(rs, k + 1);
  }

  /** When every piece succeeds, each piece's text is found in the join. */
  lemma JoinedShows(rs: seq<Result<string, FormatError>>, k: nat)
    requires k < |rs| && forall j :: 0 <= j < |rs| ==> rs[j].Success?
    ensures Joined(rs).Success? && Contains(Joined(rs).value, rs[k].value)
  {
    var upTo, after := rs[..k + 1], rs[k + 1..];
    assert upTo[..k] == rs[..k];
    JoinedSucceeds(rs[..k]);
    JoinedSucceeds(after);
    var x, y, z := Joined(rs[..k]).value, rs[k].value, Joined(after).value;
    assert Joined(upTo) == Success(x + y);
    assert upTo + after == rs;
    JoinedAppend(upTo, after);
    assert Joined(rs).value == x + y + z;
    assert OccursAt(y, y, 0);
    ContainsInMiddle(x, y, z, y);
  }

  /**
   * The section of forecasts given one after another is the first run's
   * section followed by the second's, and the first error wins.
   */
  lemma SectionAppend(a: seq<Forecast>, b: seq<Forecast>, item: string, lang: Language)
    ensures Section(a, item, lang).Failure? ==> Section(a + b, item, lang) == Section(a, item, lang)
    ensures Section(a, item, lang).Success? ==>
      Section(a + b, item, lang) == Prepend(Section(a, item, lang).value, Section(b, item, lang))
  {
    assert Fragments(a + b, item, lang) == Fragments(a, item, lang) + Fragments(b, item, lang);
    JoinedAppend(Fragments(a, item, lang), Fragments(b, item, lang));
  }

  /** No forecasts give an empty section; a single forecast's section is its fragment. */
  lemma SectionSmall(f: Forecast, item: string, lang: Language)
    ensures Section([], item, lang) == Success("")
    ensures Section([f], item, lang) == Fragment(f, item, lang)
  {
    var rs := Fragments([f], item, lang);
    assert rs[..0] == [];
    if rs[0].Success? {
      assert "" + rs[0].value == rs[0].value;
    }
  }

  /**
   * The section is built exactly when every fragment is; otherwise it fails
   * with the error of the first forecast whose fragment fails.
   */
  lemma SectionOutcome(fs: seq<Forecast>, item: string, lang: Language)
    ensures Section(fs, item, lang).Success? <==> forall k :: 0 <= k < |fs| ==> Fragment(fs[k], item, lang).Success?
    ensures forall k :: (0 <= k < |fs| && Fragment(fs[k], item, lang).Failure? &&
      forall j :: 0 <= j < k ==> Fragment(fs[j], item, lang).Success?) ==>
      Section(fs, item, lang) == Fragment(fs[k], item, lang)
  {
    var rs := Fragments(fs, item, lang);
    JoinedSucceeds(rs);
    forall k | 0 <= k < |fs| && Fragment(fs[k], item, lang).Failure? &&
      (forall j :: 0 <= j < k ==> Fragment(fs[j], item, lang).Success?)
      ensures Section(fs, item, lang) == Fragment(fs[k], item, lang)
    {
      JoinedFirstFailure(rs, k);
    }
  }

  /** The fragment for `f` is filled and shows its date, tide and description. */
  predicate ShowsForecast(item: string, lang: Language, f: Forecast) {
    var r := Fragment(f, item, lang);
    && r.Success?
    && Contains(r.value, Show(f.date))
    && Contains(r.value, TideDisplay(f.tide, lang))
    && Contains(r.value, Show(f.description))
  }

  /** An item template that shows its values shows each forecast's own. */
  lemma ItemShows(item: string, lang: Language, f: Forecast)
    requires ShowsItemValues(item, ItemEnv(f, lang))
    ensures ShowsForecast(item, lang, f)
  {
    ItemEnvBinds(f, lang);
  }

  /** When the item template shows its values, the section shows every forecast. */
  lemma SectionShows(fs: seq<Forecast>, item: string, lang: Language, k: nat)
    requires k < |fs| && forall env :: ShowsItemValues(item, env)
    ensures Section(fs, item, lang).Success?
    ensures var out := Section(fs, item, lang).value;
      && Contains(out, Show(fs[k].date))
      && Contains(out, TideDisplay(fs[k].tide, lang))
      && Contains(out, Show(fs[k].description))
  {
    var rs := Fragments(fs, item, lang);
    forall j | 0 <= j < |fs| ensures ShowsForecast(item, lang, fs[j]) {
      ItemShows(item, lang, fs[j]);
    }
    assert forall j :: 0 <= j < |rs| ==> rs[j].Success?;
    JoinedShows(rs, k);
    var out, mid := Joined(rs).value, rs[k].value;
    assert ShowsForecast(item, lang, fs[k]);
    ContainsTransitive(out, mid, Show(fs[k].date));
    ContainsTransitive(out, mid, TideDisplay(fs[k].tide, lang));
    ContainsTransitive(out, mid, Show(fs[k].description));
  }

  /**
   * With a built-in template every fragment is filled, and the section
   * shows each forecast's date, tide and description.
   */
  lemma DefaultSectionShows(fs: seq<Forecast>, lang: Language, k: nat)
    requires k < |fs|
    ensures Section(fs, CreateDefaultTemplate(lang).forecastItem, lang).Success?
    ensures var out := Section(fs, CreateDefaultTemplate(lang).forecastItem, lang).value;
      && Contains(out, Show(fs[k].date))
      && Contains(out, TideDisplay(fs[k].tide, lang))
      && Contains(out, Show(fs[k].description))
  {
    DefaultShowsItemValues(lang);
    SectionShows(fs, CreateDefaultTemplate(lang).forecastItem, lang, k);
  }

  /** The main fields are bound to the document's values, the section and the time. */
  lemma MainEnvBinds(doc: WeatherDoc, forecasts: string, currentTime: string)
    ensures MainFields <= MainEnv(doc, forecasts, currentTime).Keys
    ensures var env := MainEnv(doc, forecasts, currentTime);
      && env["author"] == Show(doc.system.author)
      && env["pubdate"] == Show(doc.system.pubdate)
      && env["language"] == Show(doc.system.language)
      && env["today_situation"] == Show(doc.todaySituation)
      && env["forecasts"] == forecasts
  {
    assert "today_situation"[0] == 't' && "author"[0] == 'a' && "pubdate"[0] == 'p';
    assert "language"[0] == 'l' && "forecasts"[0] == 'f' && "current_time"[0] == 'c';
  }

  /**
   * When both templates show their values, the document is produced and
   * shows the author, publication date, language and situation text
   * verbatim together with the whole forecasts section.
   */
  lemma DocumentShows(doc: WeatherDoc, t: Template, lang: Language, currentTime: string)
    requires forall env :: ShowsItemValues(t.forecastItem, env)
    requires forall env :: ShowsMainValues(t.main, env)
    ensures Section(doc.forecasts, t.forecastItem, lang).Success?
    ensures Document(doc, t, lang, currentTime).Success?
    ensures var out := Document(doc, t, lang, currentTime).value;
      && Contains(out, Show(doc.system.author))
      && Contains(out, Show(doc.system.pubdate))
      && Contains(out, Show(doc.system.language))
      && Contains(out, Show(doc.todaySituation))
      && Contains(out, Section(doc.forecasts, t.forecastItem, lang).value)
  {
    var rs := Fragments(doc.forecasts, t.forecastItem, lang);
    forall j | 0 <= j < |rs| ensures rs[j].Success? {
      ItemShows(t.forecastItem, lang, doc.forecasts[j]);
    }
    JoinedSucceeds(rs);
    var section := Joined(rs).value;
    MainEnvBinds(doc, section, currentTime);
    assert ShowsMainValues(t.main, MainEnv(doc, section, currentTime));
  }

  /**
   * With a built-in template the document is always produced, and it shows
   * the author, publication date, language and situation text verbatim
   * together with the whole forecasts section.
   */
  lemma DefaultDocumentShows(doc: WeatherDoc, lang: Language, currentTime: string)
    ensures Document(doc, CreateDefaultTemplate(lang), lang, currentTime).Success?
    ensures var out := Document(doc, CreateDefaultTemplate(lang), lang, currentTime).value;
      && Contains(out, Show(doc.system.author))
      && Contains(out, Show(doc.system.pubdate))
      && Contains(out, Show(doc.system.language))
      && Contains(out, Show(doc.todaySituation))
      && Contains(out, Section(doc.forecasts, CreateDefaultTemplate(lang).forecastItem, lang).value)
  {
    DefaultShowsItemValues(lang);
    DefaultShowsMainValues(lang);
    DocumentShows(doc, CreateDefaultTemplate(lang), lang, currentTime);
  }
}
