/**
 * Extraction of the weather record from the parsed feed.
 *
 * The feed is an element tree. `root.find(".//T")` is the first element
 * tagged T below the root in document order, `root.findall(".//T")` all of
 * them in document order, and `block.find("T")` the first direct child
 * tagged T. An element's `.text` is None when it holds no text.
 */
module WeatherXml {
  import opened Wrappers

  /** The `.text` of an element: None when the element holds no text. */
  type Text = Option<string>

  datatype Element = Element(tag: string, text: Text, children: seq<Element>)

  datatype Forecast = Forecast(date: Text, description: Text, tide: Text)

  datatype SystemInfo = SystemInfo(author: Text, pubdate: Text, language: Text)

  datatype WeatherDoc = WeatherDoc(system: SystemInfo, todaySituation: Text, forecasts: seq<Forecast>)

  /** Reading `.text` of a system element that is absent (an AttributeError on None). */
  datatype ExtractError = MissingElement(tag: string)

  /** The given elements, each followed by everything below it: document order. */
  function Preorder(nodes: seq<Element>): seq<Element>
    decreases nodes
  {
    if nodes == [] then []
    else [nodes[0]] + Preorder(nodes[0].children) + Preorder(nodes[1..])
  }

  /** The elements of `es` tagged `tag`, in their order. */
  function WithTag(es: seq<Element>, tag: string): (r: seq<Element>)
    ensures |r| <= |es|
    ensures forall k :: 0 <= k < |r| ==> r[k].tag == tag && r[k] in es
    ensures forall k :: 0 <= k < |es| && es[k].tag == tag ==> es[k] in r
  {
    if es == [] then []
    else if es[0].tag == tag then [es[0]] + WithTag(es[1..], tag)
    else WithTag(es[1..], tag)
  }

  /** The first element of `es` tagged `tag`. */
  function FirstWithTag(es: seq<Element>, tag: string): (r: Option<Element>)
    ensures r.None? <==> forall k :: 0 <= k < |es| ==> es[k].tag != tag
    ensures r.Some? ==> exists k :: IsFirstWithTag(es, tag, k) && r.value == es[k]
  {
    if es == [] then None
    else if es[0].tag == tag then Some(es[0])
    else
      FirstAfterOther(es, tag);
      FirstWithTag(es[1..], tag)
  }

  lemma FirstAfterOther(es: seq<Element>, tag: string)
    requires es != [] && es[0].tag != tag
    ensures forall k :: IsFirstWithTag(es[1..], tag, k) ==> IsFirstWithTag(es, tag, k + 1) && es[1..][k] == es[k + 1]
  {
  }

  /** `es[k]` is the first element of `es` tagged `tag`. */
  predicate IsFirstWithTag(es: seq<Element>, tag: string, k: int) {
    0 <= k < |es| && es[k].tag == tag && forall j :: 0 <= j < k ==> es[j].tag != tag
  }

  /** `root.findall(".//" + tag)`. */
  function FindAll(root: Element, tag: string): seq<Element> {
    WithTag(Preorder(root.children), tag)
  }

  /** `root.find(".//" + tag)`. */
  function Find(root: Element, tag: string): Option<Element> {
    FirstWithTag(Preorder(root.children), tag)
  }

  /** `e.find(tag)`: the first direct child tagged `tag`. */
  function FindChild(e: Element, tag: string): Option<Element> {
    FirstWithTag(e.children, tag)
  }

  /** `find` gives the first element `findall` gives, and None when that finds nothing. */
  lemma {:induction false} FirstOfWithTag(es: seq<Element>, tag: string)
    ensures FirstWithTag(es, tag) == if WithTag(es, tag) == [] then None else Some(WithTag(es, tag)[0])
  {
    if es != [] && es[0].tag != tag {
      FirstOfWithTag(es[1..], tag);
    }
  }

  lemma FindIsFirstOfFindAll(root: Element, tag: string)
    ensures Find(root, tag) == if FindAll(root, tag) == [] then None else Some(FindAll(root, tag)[0])
  {
    FirstOfWithTag(Preorder(root.children), tag);
  }

  /** The text of a found element, or the fallback when the element is absent. */
  function TextOr(found: Option<Element>, fallback: string): Text {
    match found
    case None => Some(fallback)
    case Some(e) => e.text
  }

  /** One forecast block, with a fallback literal for each absent child. */
  function ForecastOf(block: Element): Forecast {
    Forecast(
      TextOr(FindChild(block, "ValidFor"), "Unknown"),
      TextOr(FindChild(block, "WeatherDescription"), "No description"),
      TextOr(FindChild(block, "AstronomicalTide"), "NIL"))
  }

  /**
   * Each field of a forecast is the text of the block's first child with
   * that tag, even when that text is None; only an absent child is replaced
   * by the fallback literal.
   */
  lemma ForecastFallbacks(block: Element)
    ensures (forall k :: 0 <= k < |block.children| ==> block.children[k].tag != "ValidFor") ==>
      ForecastOf(block).date == Some("Unknown")
    ensures forall k :: IsFirstWithTag(block.children, "ValidFor", k) ==>
      ForecastOf(block).date == block.children[k].text
    ensures (forall k :: 0 <= k < |block.children| ==> block.children[k].tag != "WeatherDescription") ==>
      ForecastOf(block).description == Some("No description")
    ensures forall k :: IsFirstWithTag(block.children, "WeatherDescription", k) ==>
      ForecastOf(block).description == block.children[k].text
    ensures (forall k :: 0 <= k < |block.children| ==> block.children[k].tag != "AstronomicalTide") ==>
      ForecastOf(block).tide == Some("NIL")
    ensures forall k :: IsFirstWithTag(block.children, "AstronomicalTide", k) ==>
      ForecastOf(block).tide == block.children[k].text
  {
    FirstIsUnique(block.children, "ValidFor");
    FirstIsUnique(block.children, "WeatherDescription");
    FirstIsUnique(block.children, "AstronomicalTide");
  }

  lemma FirstIsUnique(es: seq<Element>, tag: string)
    ensures forall i, j :: IsFirstWithTag(es, tag, i) && IsFirstWithTag(es, tag, j) ==> i == j
  {
  }

  /** One forecast record per block, in the blocks' order. */
  function ForecastsOf(blocks: seq<Element>): (fs: seq<Forecast>)
    ensures |fs| == |blocks|
    ensures forall i :: 0 <= i < |blocks| ==> fs[i] == ForecastOf(blocks[i])
  {
    if blocks == [] then [] else [ForecastOf(blocks[0])] + ForecastsOf(blocks[1..])
  }

  /**
   * `parse_weather_xml` on an already parsed tree: the system fields are
   * required, the situation falls back to "No data available", and there is
   * one forecast per WeatherForecast element, in document order.
   */
  function ExtractWeather(root: Element): (r: Result<WeatherDoc, ExtractError>)
    ensures Find(root, "SysAuthor").None? ==> r == Failure(MissingElement("SysAuthor"))
    ensures Find(root, "SysAuthor").Some? && Find(root, "SysPubdate").None? ==>
      r == Failure(MissingElement("SysPubdate"))
    ensures Find(root, "SysAuthor").Some? && Find(root, "SysPubdate").Some? && Find(root, "SysLanguage").None? ==>
      r == Failure(MissingElement("SysLanguage"))
    ensures r.Success? <==>
      Find(root, "SysAuthor").Some? && Find(root, "SysPubdate").Some? && Find(root, "SysLanguage").Some?
    ensures r.Success? ==> r.value.system == SystemInfo(
      Find(root, "SysAuthor").value.text, Find(root, "SysPubdate").value.text, Find(root, "SysLanguage").value.text)
    ensures r.Success? && Find(root, "TodaySituation").None? ==> r.value.todaySituation == Some("No data available")
    ensures r.Success? && Find(root, "TodaySituation").Some? ==>
      r.value.todaySituation == Find(root, "TodaySituation").value.text
    ensures r.Success? ==> |r.value.forecasts| == |FindAll(root, "WeatherForecast")|
    ensures r.Success? ==> forall i :: 0 <= i < |r.value.forecasts| ==>
      r.value.forecasts[i] == ForecastOf(FindAll(root, "WeatherForecast")[i])
  {
    match (Find(root, "SysAuthor"), Find(root, "SysPubdate"), Find(root, "SysLanguage"))
    case (None, _, _) => Failure(MissingElement("SysAuthor"))
    case (Some(_), None, _) => Failure(MissingElement("SysPubdate"))
    case (Some(_), Some(_), None) => Failure(MissingElement("SysLanguage"))
    case (Some(author), Some(pubdate), Some(language)) =>
      Success(WeatherDoc(
        SystemInfo(author.text, pubdate.text, language.text),
        TextOr(Find(root, "TodaySituation"), "No data available"),
        ForecastsOf(FindAll(root, "WeatherForecast"))))
  }

  /** `parse_weather_xml`: the forecast list is built by appending, block by block. */
  method ParseWeatherXml(root: Element) returns (r: Result<WeatherDoc, ExtractError>)
    ensures r == ExtractWeather(root)
  {
    var author := Find(root, "SysAuthor");
    var pubdate := Find(root, "SysPubdate");
    var language := Find(root, "SysLanguage");
    if author.None? {
      return Failure(MissingElement("SysAuthor"));
    } else if pubdate.None? {
      return Failure(MissingElement("SysPubdate"));
    } else if language.None? {
      return Failure(MissingElement("SysLanguage"));
    }
    var system := SystemInfo(author.value.text, pubdate.value.text, language.value.text);
    var todaySituation := TextOr(Find(root, "TodaySituation"), "No data available");

    var blocks := FindAll(root, "WeatherForecast");
    var forecasts: seq<Forecast> := [];
    for i := 0 to |blocks|
      invariant |forecasts| == i
      invariant forall k :: 0 <= k < i ==> forecasts[k] == ForecastOf(blocks[k])
    {
      var block := blocks[i];
      var date := FindChild(block, "ValidFor");
      var desc := FindChild(block, "WeatherDescription");
      var tide := FindChild(block, "AstronomicalTide");
      var forecast := Forecast(TextOr(date, "Unknown"), TextOr(desc, "No description"), TextOr(tide, "NIL"));
      forecasts := forecasts + [forecast];
    }
    assert forecasts == ForecastsOf(blocks);
    r := Success(WeatherDoc(system, todaySituation, forecasts));
  }
}
