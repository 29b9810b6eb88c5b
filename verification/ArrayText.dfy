/**
 PostgreSQL text arrays: the printer escapes backslashes and then quotes, the
 parser is a character loop with two flags (section 8.15.6 of the PostgreSQL 14
 documentation).
 */
module ArrayText {
  import opened Scanners

  // ---- pgTextArray ----

  /** value.replaceAll(c, with) for a one-character pattern. */
  function ReplaceAll(s: string, c: char, with: string): string {
    if s == "" then "" else (if s[0] == c then with else [s[0]]) + ReplaceAll(s[1..], c, with)
  }

  function Escape(v: string): string {
    ReplaceAll(ReplaceAll(v, '\\', "\\\\"), '"', "\\\"")
  }

  function Element(v: string): string { "\"" + Escape(v) + "\"" }

  function Elements(vs: seq<string>): string {
    if vs == [] then ""
    else if |vs| == 1 then Element(vs[0])
    else Element(vs[0]) + "," + Elements(vs[1..])
  }

  function Print(vs: seq<string>): string { "{" + Elements(vs) + "}" }

  // ---- parsePgArrayText ----

  datatype State = State(out: seq<string>, token: string, quoted: bool, escaped: bool)

  function Step(st: State, c: char): State {
    if st.escaped then st.(token := st.token + [c], escaped := false)
    else if st.quoted && c == '\\' then st.(escaped := true)
    else if c == '"' then st.(quoted := !st.quoted)
    else if c == ',' && !st.quoted then st.(out := st.out + [Trim(st.token)], token := "")
    else st.(token := st.token + [c])
  }

  function Run(st: State, text: string): State
    decreases |text|
  {
    if text == "" then st else Run(Step(st, text[0]), text[1..])
  }

  /** value.slice(1, -1) */
  function Inner(value: string): string {
    if |value| < 2 then "" else value[1..|value| - 1]
  }

  function Parsed(value: string): seq<string> {
    if Inner(value) == "" then []
    else
      var end := Run(State([], "", false, false), Inner(value));
      end.out + [Trim(end.token)]
  }

  method ParsePgArrayText(value: string) returns (out: seq<string>)
    ensures out == Parsed(value)
  {
    var body := Inner(value);
    if body == "" { return []; }
    out := [];
    var token := "";
    var quoted, escaped := false, false;
    var i := 0;
    assert body[0..] == body;
    while i < |body|
      invariant 0 <= i <= |body|
      invariant Run(State(out, token, quoted, escaped), body[i..]) == Run(State([], "", false, false), body)
    {
      var ch := body[i];
      assert body[i..][1..] == body[i + 1..];
      if escaped {
        token, escaped := token + [ch], false;
      } else if quoted && ch == '\\' {
        escaped := true;
      } else if ch == '"' {
        quoted := !quoted;
      } else if ch == ',' && !quoted {
        out, token := out + [Trim(token)], "";
      } else {
        token := token + [ch];
      }
      i := i + 1;
    }
    assert body[i..] == "";
    out := out + [Trim(token)];
  }

  // ---- round trip ----

  lemma {:induction false} RunConcat(st: State, a: string, b: string)
    ensures Run(st, a + b) == Run(Run(st, a), b)
    decreases |a|
  {
    if a == "" {
      assert a + b == b;
    } else {
      assert (a + b)[1..] == a[1..] + b;
      RunConcat(Step(st, a[0]), a[1..], b);
    }
  }

  function EscapedChar(c: char): string {
    if c == '\\' then "\\\\" else if c == '"' then "\\\"" else [c]
  }

  lemma {:induction false} ReplaceConcat(a: string, b: string, c: char, with: string)
    ensures ReplaceAll(a + b, c, with) == ReplaceAll(a, c, with) + ReplaceAll(b, c, with)
    decreases |a|
  {
    if a == "" {
      assert a + b == b;
    } else {
      ReplaceConcat(a[1..], b, c, with);
      assert (a + b)[1..] == a[1..] + b;
    }
  }

  lemma ReplaceOne(x: char, c: char, with: string)
    ensures ReplaceAll([x], c, with) == if x == c then with else [x]
  {
    assert [x][1..] == "";
  }

  /** Escaping in two passes is escaping each character once. */
  lemma TwoPasses(v: string)
    requires v != ""
    ensures Escape(v) == EscapedChar(v[0]) + Escape(v[1..])
  {
    hide ReplaceAll;
    var once := if v[0] == '\\' then "\\\\" else [v[0]];
    assert v == [v[0]] + v[1..];
    ReplaceConcat([v[0]], v[1..], '\\', "\\\\");
    ReplaceOne(v[0], '\\', "\\\\");
    ReplaceConcat(once, ReplaceAll(v[1..], '\\', "\\\\"), '"', "\\\"");
    ReplaceOne(v[0], '"', "\\\"");
    if v[0] == '\\' {
      assert once == "\\" + "\\";
      ReplaceConcat("\\", "\\", '"', "\\\"");
      ReplaceOne('\\', '"', "\\\"");
    }
  }

  lemma NothingEscaped(st: State)
    ensures Escape("") == "" && Run(st, "") == st
  {
  }

  /** Inside quotes, escaped text is read back as it was. */
  lemma {:induction false} RunEscaped(st: State, v: string)
    requires st.quoted && !st.escaped
    ensures Run(st, Escape(v)) == st.(token := st.token + v)
    decreases |v|
  {
    hide Run, Step, Escape;
    if v == "" {
      NothingEscaped(st);
      assert st.token + v == st.token;
    } else {
      TwoPasses(v);
      RunConcat(st, EscapedChar(v[0]), Escape(v[1..]));
      RunHead(st, v[0]);
      RunEscaped(st.(token := st.token + [v[0]]), v[1..]);
      assert st.token + [v[0]] + v[1..] == st.token + v;
    }
  }

  lemma RunHead(st: State, c: char)
    requires st.quoted && !st.escaped
    ensures Run(st, EscapedChar(c)) == st.(token := st.token + [c])
  {
    var head := EscapedChar(c);
    if c == '\\' || c == '"' {
      assert head[1..] == [c] && head[1..][1..] == "";
      assert Run(Step(Step(st, head[0]), c), "") == st.(token := st.token + [c]);
    } else {
      assert head[1..] == "";
    }
  }

  lemma RunElement(out: seq<string>, v: string)
    ensures Run(State(out, "", false, false), Element(v)) == State(out, v, false, false)
  {
    var e := Escape(v);
    var s0 := State(out, "", false, false);
    RunConcat(s0, "\"" + e, "\"");
    RunConcat(s0, "\"", e);
    RunQuote(s0);
    RunEscaped(s0.(quoted := true), v);
    assert "" + v == v;
    RunQuote(State(out, v, true, false));
  }

  lemma RunQuote(st: State)
    requires !st.escaped
    ensures Run(st, "\"") == st.(quoted := !st.quoted)
  {
    assert "\""[1..] == "";
  }

  function TrimAll(vs: seq<string>): seq<string> {
    if vs == [] then [] else [Trim(vs[0])] + TrimAll(vs[1..])
  }

  lemma {:induction false} TrimAllAt(vs: seq<string>)
    ensures |TrimAll(vs)| == |vs| && forall k :: 0 <= k < |vs| ==> TrimAll(vs)[k] == Trim(vs[k])
  {
    hide Trim;
    if vs != [] { TrimAllAt(vs[1..]); }
  }

  lemma {:induction false} RunElements(out: seq<string>, vs: seq<string>)
    requires vs != []
    ensures var end := Run(State(out, "", false, false), Elements(vs));
      end.out + [Trim(end.token)] == out + TrimAll(vs)
    decreases |vs|
  {
    hide Element, Step, Trim, Run, TrimAll;
    var s0 := State(out, "", false, false);
    var v := vs[0];
    RunElement(out, v);
    if |vs| > 1 {
      var rest := Elements(vs[1..]);
      RunConcat(s0, Element(v) + ",", rest);
      RunConcat(s0, Element(v), ",");
      RunComma(out, v);
      RunElements(out + [Trim(v)], vs[1..]);
      assert Elements(vs) == Element(v) + "," + rest;
    }
    TrimAllStep(out, vs);
  }

  lemma TrimAllFirst(vs: seq<string>)
    requires vs != []
    ensures TrimAll(vs) == [Trim(vs[0])] + TrimAll(vs[1..])
    ensures TrimAll([]) == []
  {
    hide Trim;
  }

  lemma Regroup<T>(a: seq<T>, b: seq<T>, c: seq<T>)
    ensures a + (b + c) == (a + b) + c
  {
  }

  lemma TrimAllStep(out: seq<string>, vs: seq<string>)
    requires vs != []
    ensures out + TrimAll(vs) == (out + [Trim(vs[0])]) + TrimAll(vs[1..])
    ensures |vs| == 1 ==> TrimAll(vs) == [Trim(vs[0])]
  {
    hide Trim, TrimAll;
    TrimAllFirst(vs);
    Regroup(out, [Trim(vs[0])], TrimAll(vs[1..]));
    if |vs| == 1 { assert vs[1..] == []; }
  }

  lemma RunComma(out: seq<string>, v: string)
    ensures Run(State(out, v, false, false), ",") == State(out + [Trim(v)], "", false, false)
  {
    assert ","[1..] == "";
  }

  /** For every list of strings, parsing what was printed gives the list with each element trimmed. */
  lemma ParsePrinted(vs: seq<string>)
    ensures Parsed(Print(vs)) == TrimAll(vs)
  {
    assert Inner(Print(vs)) == Elements(vs);
    if vs != [] {
      assert Elements(vs) != "";
      RunElements([], vs);
    }
  }

  // ---- elements without quotes ----

  function Joined(vs: seq<string>): string {
    if vs == [] then "" else if |vs| == 1 then vs[0] else vs[0] + "," + Joined(vs[1..])
  }

  /** Text that needs no quotes. */
  predicate Bare(v: string) { ',' !in v && '"' !in v }

  lemma {:induction false} RunBare(st: State, v: string)
    requires !st.quoted && !st.escaped && Bare(v)
    ensures Run(st, v) == st.(token := st.token + v)
    decreases |v|
  {
    if v == "" {
      assert st.token + v == st.token;
    } else {
      assert Step(st, v[0]) == st.(token := st.token + [v[0]]);
      RunBare(st.(token := st.token + [v[0]]), v[1..]);
      assert st.token + [v[0]] + v[1..] == st.token + v;
    }
  }

  lemma {:induction false} RunJoined(out: seq<string>, vs: seq<string>)
    requires vs != [] && forall k :: 0 <= k < |vs| ==> Bare(vs[k])
    ensures var end := Run(State(out, "", false, false), Joined(vs));
      end.out + [Trim(end.token)] == out + TrimAll(vs)
    decreases |vs|
  {
    hide Step, Trim, Run, TrimAll;
    var s0 := State(out, "", false, false);
    var v := vs[0];
    RunBare(s0, v);
    assert "" + v == v;
    if |vs| > 1 {
      var rest := Joined(vs[1..]);
      RunConcat(s0, v + ",", rest);
      RunConcat(s0, v, ",");
      RunComma(out, v);
      RunJoined(out + [Trim(v)], vs[1..]);
    }
    TrimAllStep(out, vs);
  }

  /** A list written without quotes is cut at its commas and nowhere else, and each element is trimmed. */
  lemma ParseBare(vs: seq<string>)
    requires vs != [""] && forall k :: 0 <= k < |vs| ==> Bare(vs[k])
    ensures Parsed("{" + Joined(vs) + "}") == TrimAll(vs)
  {
    hide Run, Step, Trim, TrimAll, Joined;
    assert Inner("{" + Joined(vs) + "}") == Joined(vs);
    JoinedEmpty(vs);
    if vs == [] { TrimNothing(); } else { RunJoined([], vs); }
  }

  lemma JoinedEmpty(vs: seq<string>)
    ensures Joined(vs) == "" <==> vs == [] || vs == [""]
  {
  }

  lemma TrimNothing()
    ensures TrimAll([]) == []
  {
  }

  /** So nothing is lost exactly when no element starts or ends with white space. */
  lemma PrintedExact(vs: seq<string>)
    ensures Parsed(Print(vs)) == vs <==> forall k :: 0 <= k < |vs| ==> Trim(vs[k]) == vs[k]
  {
    ParsePrinted(vs);
    TrimAllAt(vs);
  }
}
