/**
 * Python's `str.format(**fields)` restricted to named replacement fields.
 *
 * A format string is scanned left to right: `{{` and `}}` stand for single
 * braces, `{name}` is replaced by the value bound to `name`, and the first
 * problem met (an unknown name, a lone brace, a brace inside a name) is the
 * error raised. Format specifications, conversions, attribute and index
 * access are not modelled: a field written with them is looked up by its
 * whole text.
 *
 * Beside the scanner stands a small template language of literal and field
 * segments with its own meaning, Fill; Render writes segments as a format
 * string, and FormatRender proves that scanning a rendered template means
 * the same as filling it.
 */
module Formatting {
  import opened Wrappers
  import opened Strings

  datatype FormatError =
    | UnknownField(name: string)   // KeyError
    | UnclosedField                // ValueError: lone '{' or missing '}'
    | LoneCloseBrace               // ValueError: single '}' encountered
    | BraceInFieldName             // ValueError: unexpected '{' in field name

  type Env = map<string, string>

  /** Put `t` in front of a successful result; keep an error as it is. */
  function Prepend(t: string, r: Result<string, FormatError>): Result<string, FormatError> {
    match r
    case Success(v) => Success(t + v)
    case Failure(e) => Failure(e)
  }

  lemma PrependPrepend(a: string, b: string, r: Result<string, FormatError>)
    ensures Prepend(a, Prepend(b, r)) == Prepend(a + b, r)
  {
    if r.Success? {
      assert a + (b + r.value) == (a + b) + r.value;
    }
  }

  /** `s.format(**env)`. */
  function Format(s: string, env: Env): Result<string, FormatError>
    decreases |s|
  {
    if s == [] then Success("")
    else if s[0] == '{' then
      if |s| > 1 && s[1] == '{' then Prepend("{", Format(s[2..], env))
      else
        match IndexOf(s[1..], "}")
        case None => Failure(UnclosedField)
        case Some(k) =>
          var name := s[1..k + 1];
          if '{' in name then Failure(BraceInFieldName)
          else if name !in env then Failure(UnknownField(name))
          else Prepend(env[name], Format(s[k + 2..], env))
    else if s[0] == '}' then
      if |s| > 1 && s[1] == '}' then Prepend("}", Format(s[2..], env))
      else Failure(LoneCloseBrace)
    else Prepend([s[0]], Format(s[1..], env))
  }

  /** A template: literal text and named replacement fields. */
  datatype Segment = Lit(text: string) | Field(name: string)

  /** Field names a format string can spell: no braces in them. */
  predicate WellFormed(segs: seq<Segment>) {
    forall k :: 0 <= k < |segs| && segs[k].Field? ==> '{' !in segs[k].name && '}' !in segs[k].name
  }

  predicate Uses(segs: seq<Segment>, name: string) {
    exists k :: 0 <= k < |segs| && segs[k] == Field(name)
  }

  /** The meaning of a template: each field replaced by its value, left to right. */
  function Fill(segs: seq<Segment>, env: Env): Result<string, FormatError> {
    if segs == [] then Success("")
    else match segs[0]
      case Lit(t) => Prepend(t, Fill(segs[1..], env))
      case Field(n) => if n in env then Prepend(env[n], Fill(segs[1..], env)) else Failure(UnknownField(n))
  }

  /** Literal text with its braces doubled. */
  function Escape(t: string): string {
    if t == [] then ""
    else if t[0] == '{' || t[0] == '}' then [t[0], t[0]] + Escape(t[1..])
    else [t[0]] + Escape(t[1..])
  }

  /** A template written out as a format string. */
  function Render(segs: seq<Segment>): string {
    if segs == [] then ""
    else match segs[0]
      case Lit(t) => Escape(t) + Render(segs[1..])
      case Field(n) => "{" + n + "}" + Render(segs[1..])
  }

  lemma {:induction false} FormatEscaped(t: string, rest: string, env: Env)
    ensures Format(Escape(t) + rest, env) == Prepend(t, Format(rest, env))
    decreases |t|
  {
    if t == [] {
      assert Escape(t) + rest == rest;
      assert Prepend(t, Format(rest, env)) == Format(rest, env) by {
        if Format(rest, env).Success? {
          assert t + Format(rest, env).value == Format(rest, env).value;
        }
      }
    } else {
      var s := Escape(t) + rest;
      FormatEscaped(t[1..], rest, env);
      if t[0] == '{' || t[0] == '}' {
        assert s == [t[0], t[0]] + (Escape(t[1..]) + rest);
        assert s[2..] == Escape(t[1..]) + rest;
      } else {
        assert s == [t[0]] + (Escape(t[1..]) + rest);
        assert s[1..] == Escape(t[1..]) + rest;
      }
      PrependPrepend([t[0]], t[1..], Format(rest, env));
      assert [t[0]] + t[1..] == t;
    }
  }

  lemma FormatField(n: string, rest: string, env: Env)
    requires '{' !in n && '}' !in n
    ensures Format("{" + n + "}" + rest, env)
      == if n in env then Prepend(env[n], Format(rest, env)) else Failure(UnknownField(n))
  {
    var s := "{" + n + "}" + rest;
    var tail := s[1..];
    assert tail == n + "}" + rest;
    assert OccursAt(tail, "}", |n|) by {
      assert tail[|n|..|n| + 1] == "}";
    }
    forall j | 0 <= j < |n| ensures !OccursAt(tail, "}", j) {
      assert tail[j] == n[j];
      assert tail[j..j + 1] == [n[j]];
    }
    assert IndexOf(tail, "}") == Some(|n|);
    assert s[1..|n| + 1] == n;
    assert s[|n| + 2..] == rest;
    if n != [] {
      assert s[1] == n[0];
    }
  }

  /** Scanning a rendered template means the same as filling the template. */
  lemma {:induction false} FormatRender(segs: seq<Segment>, env: Env)
    requires WellFormed(segs)
    ensures Format(Render(segs), env) == Fill(segs, env)
    decreases |segs|
  {
    if segs != [] {
      FormatRender(segs[1..], env);
      match segs[0]
      case Lit(t) =>
        FormatEscaped(t, Render(segs[1..]), env);
      case Field(n) =>
        FormatField(n, Render(segs[1..]), env);
    }
  }

  /** Filling succeeds exactly when every field the template uses is bound. */
  lemma {:induction false} FillSucceeds(segs: seq<Segment>, env: Env)
    ensures Fill(segs, env).Success? <==>
      forall k :: 0 <= k < |segs| && segs[k].Field? ==> segs[k].name in env
    decreases |segs|
  {
    if segs != [] {
      FillSucceeds(segs[1..], env);
      assert forall k :: 1 <= k < |segs| ==> segs[k] == segs[1..][k - 1];
    }
  }

  /** Every value a field of the template draws is in the output, as it is. */
  lemma {:induction false} FillEmbeds(segs: seq<Segment>, env: Env, name: string)
    requires Fill(segs, env).Success? && Uses(segs, name)
    ensures name in env && Contains(Fill(segs, env).value, env[name])
    decreases |segs|
  {
    var out := Fill(segs, env).value;
    if segs[0] == Field(name) {
      assert out == env[name] + Fill(segs[1..], env).value;
      assert OccursAt(out, env[name], 0) by {
        assert out[..|env[name]|] == env[name];
      }
    } else {
      var k :| 0 <= k < |segs| && segs[k] == Field(name);
      assert segs[1..][k - 1] == Field(name);
      FillEmbeds(segs[1..], env, name);
      var rest := Fill(segs[1..], env).value;
      var head := if segs[0].Lit? then segs[0].text else env[segs[0].name];
      assert out == head + rest;
      var j :| OccursAt(rest, env[name], j);
      OccursShifted(head, rest, env[name], j);
    }
  }
}
