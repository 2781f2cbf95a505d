/**
 * Templates: a main document and a per-forecast fragment, both format
 * strings. A template file holds the two around a marker line; the built-in
 * templates exist for each language.
 */
module Templates {
  import opened Wrappers
  import opened Strings
  import opened Formatting
  import opened Languages

  datatype Template = Template(main: string, forecastItem: string)

  /** Both are the ValueError a malformed template file raises. */
  datatype TemplateError =
    | MissingMarker    // "Template must contain <!-- FORECAST_ITEM --> separator"
    | TooManyValues    // the two-name unpacking of the split got more than two parts

  const Marker := "<!-- FORECAST_ITEM -->"

  /** `Marker` occurs in `s` once and only once. */
  ghost predicate OccursOnce(s: string, sub: string) {
    exists i :: OccursAt(s, sub, i) && forall j :: OccursAt(s, sub, j) ==> j == i
  }

  /** The marker's first character never recurs in it, so two markers never overlap. */
  lemma MarkerStartIsUnique()
    ensures forall k :: 0 < k < |Marker| ==> Marker[k] != Marker[0]
  {
  }

  lemma MarkersDoNotOverlap(s: string, i: int, j: int)
    requires OccursAt(s, Marker, i) && OccursAt(s, Marker, j) && i < j
    ensures i + |Marker| <= j
  {
    OverlapRepeatsStart(s, Marker, i, j);
    MarkerStartIsUnique();
  }

  /** Where two occurrences overlap, the later one's first character recurs in the earlier. */
  lemma OverlapRepeatsStart(s: string, sub: string, i: int, j: int)
    requires OccursAt(s, sub, i) && OccursAt(s, sub, j) && i < j
    ensures j < i + |sub| ==> sub[j - i] == sub[0]
  {
    if j < i + |sub| {
      assert s[i..i + |sub|][j - i] == s[j] == s[j..j + |sub|][0];
    }
  }

  /** Around a marker, with no marker on either side, there is no other marker. */
  lemma {:induction false} OnlyMarker(a: string, b: string)
    requires !Contains(a, Marker) && !Contains(b, Marker)
    ensures OccursAt(a + Marker + b, Marker, |a|)
    ensures forall j :: OccursAt(a + Marker + b, Marker, j) ==> j == |a|
  {
    var s := a + Marker + b;
    assert s[|a|..|a| + |Marker|] == Marker;
    forall j | OccursAt(s, Marker, j) ensures j == |a| {
      if j < |a| {
        if j + |Marker| <= |a| {
          assert s == [] + a + (Marker + b);
          OccursInside([], a, Marker + b, Marker, j);
        } else {
          MarkersDoNotOverlap(s, j, |a|);
        }
      } else if j > |a| {
        MarkersDoNotOverlap(s, |a|, j);
        assert s == (a + Marker) + b + [];
        OccursInside(a + Marker, b, [], Marker, j);
      }
    }
  }

  /**
   * The split and strip of `load_template`: the text before the marker is
   * the main template and the text after it the forecast fragment, both
   * stripped of surrounding white space.
   */
  function SplitTemplate(content: string): (r: Result<Template, TemplateError>)
    ensures r == Failure(MissingMarker) <==> !Contains(content, Marker)
    ensures r.Success? ==> OccursOnce(content, Marker)
    ensures r.Success? ==>
      exists i :: (OccursAt(content, Marker, i) &&
                   r.value == Template(Strip(content[..i]), Strip(content[i + |Marker|..])))
  {
    if !Contains(content, Marker) then Failure(MissingMarker)
    else
      var parts := Split(content, Marker);
      if |parts| != 2 then Failure(TooManyValues)
      else
        assert content == parts[0] + Marker + parts[1] by {
          assert parts[1..] == [parts[1]];
        }
        OnlyMarker(parts[0], parts[1]);
        assert content[..|parts[0]|] == parts[0];
        assert content[|parts[0]| + |Marker|..] == parts[1];
        Success(Template(Strip(parts[0]), Strip(parts[1])))
  }

  /** A file with exactly one marker loads, split at that marker. */
  lemma SplitTemplateOneMarker(a: string, b: string)
    requires !Contains(a, Marker) && !Contains(b, Marker)
    ensures SplitTemplate(a + Marker + b) == Success(Template(Strip(a), Strip(b)))
  {
    var s := a + Marker + b;
    OnlyMarker(a, b);
    assert IndexOf(s, Marker) == Some(|a|);
    assert s[..|a|] == a;
    assert s[|a| + |Marker|..] == b;
    assert Split(b, Marker) == [b];
    assert Split(s, Marker) == [a, b];
  }

  /** A file loads exactly when it holds the marker once. */
  lemma SplitTemplateSucceeds(content: string)
    ensures SplitTemplate(content).Success? <==> OccursOnce(content, Marker)
  {
    if OccursOnce(content, Marker) {
      var i :| OccursAt(content, Marker, i) && forall j :: OccursAt(content, Marker, j) ==> j == i;
      var a, b := content[..i], content[i + |Marker|..];
      AroundOccurrence(content, Marker, i);
      assert !Contains(a, Marker) by {
        forall j | OccursAt(a, Marker, j) ensures false {
          OccursInPrefix(content, Marker, i, j);
        }
      }
      assert !Contains(b, Marker) by {
        forall j | OccursAt(b, Marker, j) ensures false {
          OccursInSuffix(content, Marker, i + |Marker|, j);
        }
      }
      SplitTemplateOneMarker(a, b);
    }
  }

  /** A file with two markers is refused, as the unpacking gets too many values. */
  lemma SplitTemplateTwoMarkers(content: string, i: int, j: int)
    requires OccursAt(content, Marker, i) && OccursAt(content, Marker, j) && i != j
    ensures SplitTemplate(content) == Failure(TooManyValues)
  {
    SplitTemplateSucceeds(content);
  }

  /** The fields the main template is filled with. */
  const MainFields: set<string> :=
    {"today_situation", "author", "pubdate", "language", "forecasts", "current_time"}

  /** The fields each forecast fragment is filled with. */
  const ItemFields: set<string> := {"date", "tide", "description"}

  /**
   * The language-specific text of a built-in main template: everything
   * before the first field, and the text in front of each further field.
   */
  datatype MainText = MainText(
    beforeSituation: string, beforeAuthor: string, beforePubdate: string,
    beforeLanguage: string, beforeForecasts: string, beforeTime: string)

  function DefaultMainText(lang: Language): MainText {
    match lang
    case Chinese => MainText(
      "\n# 澳門天氣預報 Weather Forecast Macau\n\n## 今日天氣情況 Today's Situation\n",
      "\n\n## 系統資訊 System Information\n- **發布機構**: ",
      "\n- **發布時間**: ",
      "\n- **語言**: ",
      "\n\n## 天氣預報 Weather Forecast\n\n",
      "\n\n---\n*最後更新 Last Updated: ")
    case Portuguese => MainText(
      "\n# Previsão Meteorológica de Macau\n\n## Situação Meteorológica de Hoje\n",
      "\n\n## Informação do Sistema\n- **Entidade**: ",
      "\n- **Data de Publicação**: ",
      "\n- **Idioma**: ",
      "\n\n## Previsão Meteorológica\n\n",
      "\n\n---\n*Última atualização: ")
    case English => MainText(
      "\n# Macau Weather Forecast\n\n## Today's Weather Situation\n",
      "\n\n## System Information\n- **Issuing Authority**: ",
      "\n- **Publication Time**: ",
      "\n- **Language**: ",
      "\n\n## Weather Forecast\n\n",
      "\n\n---\n*Last Updated: ")
  }

  /** The layout the three built-in main templates share. */
  function MainLayout(t: MainText): seq<Segment> {
    [Lit(t.beforeSituation), Field("today_situation"),
     Lit(t.beforeAuthor), Field("author"),
     Lit(t.beforePubdate), Field("pubdate"),
     Lit(t.beforeLanguage), Field("language"),
     Lit(t.beforeForecasts), Field("forecasts"),
     Lit(t.beforeTime), Field("current_time"), Lit("*\n")]
  }

  /** The label of the tide line in a built-in forecast fragment. */
  function DefaultTideLabel(lang: Language): string {
    match lang
    case Chinese => "**潮汐 Astronomical Tide**: "
    case Portuguese => "**Maré Astronómica**: "
    case English => "**Astronomical Tide**: "
  }

  /** The layout the three built-in forecast fragments share. */
  function ItemLayout(tideLabel: string): seq<Segment> {
    [Lit("\n### "), Field("date"), Lit("\n" + tideLabel), Field("tide"),
     Lit("\n\n"), Field("description"), Lit("\n\n---\n")]
  }

  /** The built-in main template of `create_default_template`, as segments. */
  function DefaultMain(lang: Language): seq<Segment> {
    MainLayout(DefaultMainText(lang))
  }

  /** The built-in forecast fragment of `create_default_template`, as segments. */
  function DefaultItem(lang: Language): seq<Segment> {
    ItemLayout(DefaultTideLabel(lang))
  }

  /** `create_default_template`: the built-in template for a language. */
  function CreateDefaultTemplate(lang: Language): Template {
    Template(Render(DefaultMain(lang)), Render(DefaultItem(lang)))
  }

  lemma FieldNamesWithoutBraces()
    ensures forall n :: n in MainFields + ItemFields ==> '{' !in n && '}' !in n
  {
  }

  /** The main layout draws only on the main fields. */
  lemma MainLayoutFields(t: MainText)
    ensures WellFormed(MainLayout(t))
    ensures forall k :: 0 <= k < |MainLayout(t)| && MainLayout(t)[k].Field? ==>
      MainLayout(t)[k].name in MainFields
  {
    FieldNamesWithoutBraces();
  }

  /** The main layout shows the situation text, all three system fields and the forecasts. */
  lemma MainLayoutShows(t: MainText)
    ensures Uses(MainLayout(t), "author")
    ensures Uses(MainLayout(t), "pubdate") && Uses(MainLayout(t), "language")
    ensures Uses(MainLayout(t), "today_situation") && Uses(MainLayout(t), "forecasts")
  {
    var segs := MainLayout(t);
    assert segs[1] == Field("today_situation");
    assert segs[3] == Field("author");
    assert segs[5] == Field("pubdate");
    assert segs[7] == Field("language");
    assert segs[9] == Field("forecasts");
  }

  /** The fragment layout uses the fragment fields and no others. */
  lemma ItemLayoutFields(tideLabel: string)
    ensures WellFormed(ItemLayout(tideLabel))
    ensures forall k :: 0 <= k < |ItemLayout(tideLabel)| && ItemLayout(tideLabel)[k].Field? ==>
      ItemLayout(tideLabel)[k].name in ItemFields
    ensures Uses(ItemLayout(tideLabel), "date") && Uses(ItemLayout(tideLabel), "tide")
    ensures Uses(ItemLayout(tideLabel), "description")
  {
    var segs := ItemLayout(tideLabel);
    FieldNamesWithoutBraces();
    assert segs[1] == Field("date");
    assert segs[3] == Field("tide");
    assert segs[5] == Field("description");
  }

  /**
   * Formatting the built-in main template with the fields the generator
   * supplies never fails on an unknown field.
   */
  lemma DefaultMainFormats(lang: Language, mainEnv: Env)
    requires MainFields <= mainEnv.Keys
    ensures Format(CreateDefaultTemplate(lang).main, mainEnv) == Fill(DefaultMain(lang), mainEnv)
    ensures Format(CreateDefaultTemplate(lang).main, mainEnv).Success?
  {
    var main := DefaultMain(lang);
    MainLayoutFields(DefaultMainText(lang));
    FormatRender(main, mainEnv);
    FillSucceeds(main, mainEnv);
  }

  /**
   * Formatting the built-in forecast fragment with the fields the generator
   * supplies never fails on an unknown field.
   */
  lemma DefaultItemFormats(lang: Language, itemEnv: Env)
    requires ItemFields <= itemEnv.Keys
    ensures Format(CreateDefaultTemplate(lang).forecastItem, itemEnv) == Fill(DefaultItem(lang), itemEnv)
    ensures Format(CreateDefaultTemplate(lang).forecastItem, itemEnv).Success?
  {
    var item := DefaultItem(lang);
    ItemLayoutFields(DefaultTideLabel(lang));
    FormatRender(item, itemEnv);
    FillSucceeds(item, itemEnv);
  }

  /**
   * A document rendered from a built-in main template carries the author,
   * publication date and language values verbatim (no escaping), as well as
   * the situation text and the forecasts section.
   */
  lemma DefaultMainEmbeds(lang: Language, mainEnv: Env)
    requires MainFields <= mainEnv.Keys
    ensures Format(CreateDefaultTemplate(lang).main, mainEnv).Success?
    ensures var out := Format(CreateDefaultTemplate(lang).main, mainEnv).value;
      && Contains(out, mainEnv["author"]) && Contains(out, mainEnv["pubdate"])
      && Contains(out, mainEnv["language"]) && Contains(out, mainEnv["today_situation"])
      && Contains(out, mainEnv["forecasts"])
  {
    var segs := DefaultMain(lang);
    DefaultMainFormats(lang, mainEnv);
    MainLayoutShows(DefaultMainText(lang));
    FillEmbeds(segs, mainEnv, "author");
    FillEmbeds(segs, mainEnv, "pubdate");
    FillEmbeds(segs, mainEnv, "language");
    FillEmbeds(segs, mainEnv, "today_situation");
    FillEmbeds(segs, mainEnv, "forecasts");
  }

  /** A fragment rendered from a built-in template carries its three values verbatim. */
  lemma DefaultItemEmbeds(lang: Language, itemEnv: Env)
    requires ItemFields <= itemEnv.Keys
    ensures Format(CreateDefaultTemplate(lang).forecastItem, itemEnv).Success?
    ensures var out := Format(CreateDefaultTemplate(lang).forecastItem, itemEnv).value;
      && Contains(out, itemEnv["date"]) && Contains(out, itemEnv["tide"])
      && Contains(out, itemEnv["description"])
  {
    var segs := DefaultItem(lang);
    DefaultItemFormats(lang, itemEnv);
    ItemLayoutFields(DefaultTideLabel(lang));
    FillEmbeds(segs, itemEnv, "date");
    FillEmbeds(segs, itemEnv, "tide");
    FillEmbeds(segs, itemEnv, "description");
  }

  /** Filling `item` from `env` succeeds and shows the three fragment values. */
  predicate ShowsItemValues(item: string, env: Env) {
    ItemFields <= env.Keys ==>
      var r := Format(item, env);
      && r.Success?
      && Contains(r.value, env["date"])
      && Contains(r.value, env["tide"])
      && Contains(r.value, env["description"])
  }

  /** Every built-in fragment shows its three fields, whatever values they are bound to. */
  lemma DefaultShowsItemValues(lang: Language)
    ensures forall env :: ShowsItemValues(CreateDefaultTemplate(lang).forecastItem, env)
  {
    forall env ensures ShowsItemValues(CreateDefaultTemplate(lang).forecastItem, env) {
      if ItemFields <= env.Keys {
        DefaultItemEmbeds(lang, env);
      }
    }
  }

  /**
   * Filling `main` from `env` succeeds and shows the author, publication
   * date, language, situation text and forecasts values.
   */
  predicate ShowsMainValues(main: string, env: Env) {
    MainFields <= env.Keys ==>
      var r := Format(main, env);
      && r.Success?
      && Contains(r.value, env["author"])
      && Contains(r.value, env["pubdate"])
      && Contains(r.value, env["language"])
      && Contains(r.value, env["today_situation"])
      && Contains(r.value, env["forecasts"])
  }

  /** Every built-in main template shows those five values, whatever they are. */
  lemma DefaultShowsMainValues(lang: Language)
    ensures forall env :: ShowsMainValues(CreateDefaultTemplate(lang).main, env)
  {
    forall env ensures ShowsMainValues(CreateDefaultTemplate(lang).main, env) {
      if MainFields <= env.Keys {
        DefaultMainEmbeds(lang, env);
      }
    }
  }
}
