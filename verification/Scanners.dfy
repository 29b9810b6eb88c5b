/**
 The hand-written quote and parenthesis scanners, at character level.  The
 reference is Mode: the quoting state before each character when every quote
 simply toggles.  The loops skip doubled quotes in pairs; proving them against
 Mode shows both treatments equivalent.
 */
module Scanners {

  datatype Quoting = Plain | Single | Double

  function Toggle(q: Quoting, c: char): Quoting {
    if c == '\'' && q != Double then (if q == Single then Plain else Single)
    else if c == '"' && q != Single then (if q == Double then Plain else Double)
    else q
  }

  /** The quoting state before character k. */
  function Mode(s: string, k: nat): Quoting
    requires k <= |s|
  {
    if k == 0 then Plain else Toggle(Mode(s, k - 1), s[k - 1])
  }

  /** Character k is neither quoted nor a quote. */
  predicate Visible(s: string, k: nat)
    requires k < |s|
  {
    Mode(s, k) == Plain && s[k] != '\'' && s[k] != '"'
  }

  function Turn(s: string, k: nat): int
    requires k < |s|
  {
    if Visible(s, k) && s[k] == '(' then 1 else if Visible(s, k) && s[k] == ')' then -1 else 0
  }

  /** Parenthesis depth before character k, and the same with excess closers ignored. */
  function Depth(s: string, k: nat): int
    requires k <= |s|
  {
    if k == 0 then 0 else Depth(s, k - 1) + Turn(s, k - 1)
  }

  function Clamped(s: string, k: nat): nat
    requires k <= |s|
  {
    if k == 0 then 0
    else
      var d := Clamped(s, k - 1) + Turn(s, k - 1);
      if d < 0 then 0 else d
  }

  /** Quotes in pairs: two adjacent equal quotes leave the state as it was. */
  lemma PairSkip(s: string, k: nat)
    requires k + 1 < |s| && s[k] == s[k + 1]
    requires (s[k] == '\'' && Mode(s, k) == Single) || (s[k] == '"' && Mode(s, k) == Double)
    ensures Mode(s, k + 2) == Mode(s, k)
    ensures !Visible(s, k) && !Visible(s, k + 1)
    ensures Depth(s, k + 2) == Depth(s, k) && Clamped(s, k + 2) == Clamped(s, k)
  {
    assert Mode(s, k + 1) == Plain;
  }

  // ---- matchingParen ----

  /** The scan that starts at s[0] closes at k. */
  predicate ClosesAt(s: string, k: nat)
    requires k < |s|
  {
    Visible(s, k) && s[k] == ')' && Depth(s, k + 1) == 0
  }

  /** Position, within the text that starts at `open`, of the first closer; -1 when there is none. */
  function MatchIn(s: string, from: nat): (k: int)
    requires from <= |s|
    ensures k == -1 || from <= k < |s|
    ensures k >= 0 ==> ClosesAt(s, k)
    ensures forall j :: from <= j < (if k >= 0 then k else |s|) ==> !ClosesAt(s, j)
    decreases |s| - from
  {
    if from == |s| then -1 else if ClosesAt(s, from) then from else MatchIn(s, from + 1)
  }

  method MatchingParen(sql: string, open: nat) returns (r: int)
    ensures r == (if open > |sql| || MatchIn(sql[open..], 0) < 0 then -1 else open + MatchIn(sql[open..], 0))
  {
    if open > |sql| { return -1; }
    ghost var s := sql[open..];
    var depth: int := 0;
    var inSingle, inDouble := false, false;
    var i := open;
    while i < |sql|
      invariant open <= i <= |sql|
      invariant Mode(s, i - open) == (if inSingle then Single else if inDouble then Double else Plain)
      invariant !(inSingle && inDouble)
      invariant depth == Depth(s, i - open)
      invariant MatchIn(s, 0) == MatchIn(s, i - open)
    {
      var c := sql[i];
      ghost var k := i - open;
      assert s[k] == c && (k + 1 < |s| ==> s[k + 1] == sql[i + 1]);
      if c == '\'' && !inDouble {
        if inSingle && i + 1 < |sql| && sql[i + 1] == '\'' {
          PairSkip(s, k);
          i := i + 2;
          continue;
        }
        inSingle := !inSingle;
      } else if c == '"' && !inSingle {
        if inDouble && i + 1 < |sql| && sql[i + 1] == '"' {
          PairSkip(s, k);
          i := i + 2;
          continue;
        }
        inDouble := !inDouble;
      } else if !inSingle && !inDouble {
        if c == '(' {
          depth := depth + 1;
        } else if c == ')' {
          depth := depth - 1;
          if depth == 0 {
            return i;
          }
        }
      }
      i := i + 1;
    }
    return -1;
  }

  // ---- splitDefinitionList ----

  predicate CutClamped(s: string, k: nat)
    requires k < |s|
  {
    Visible(s, k) && s[k] == ',' && Clamped(s, k) == 0
  }

  predicate CutUnclamped(s: string, k: nat)
    requires k < |s|
  {
    Visible(s, k) && s[k] == ',' && Depth(s, k) == 0
  }

  predicate CutStatement(s: string, k: nat)
    requires k < |s|
  {
    Visible(s, k) && s[k] == ';'
  }

  datatype Rule = ByClamped | ByUnclamped | BySemicolon

  predicate Cut(rule: Rule, s: string, k: nat)
    requires k < |s|
  {
    match rule
    case ByClamped => CutClamped(s, k)
    case ByUnclamped => CutUnclamped(s, k)
    case BySemicolon => CutStatement(s, k)
  }

  /** The pieces between cuts, for the text from `start` on, of which s[start..i] has no cut. */
  function Pieces(rule: Rule, s: string, start: nat, i: nat): (ps: seq<string>)
    requires start <= i <= |s|
    ensures |ps| > 0
    decreases |s| - i
  {
    if i == |s| then [s[start..]]
    else if Cut(rule, s, i) then [s[start..i]] + Pieces(rule, s, i + 1, i + 1)
    else Pieces(rule, s, start, i + 1)
  }

  function Split(rule: Rule, s: string): (ps: seq<string>)
    ensures |ps| > 0
  {
    Pieces(rule, s, 0, 0)
  }

  /** White space and line terminators of ECMAScript, which trim() and \s agree on. */
  predicate IsSpace(c: char) {
    var n := c as int;
    9 <= n <= 13 || n == 0x20 || n == 0xA0 || n == 0x1680 || 0x2000 <= n <= 0x200A
    || n == 0x2028 || n == 0x2029 || n == 0x202F || n == 0x205F || n == 0x3000 || n == 0xFEFF
  }

  function TrimStart(s: string): string {
    if s != [] && IsSpace(s[0]) then TrimStart(s[1..]) else s
  }

  function TrimEnd(s: string): string {
    if s != [] && IsSpace(s[|s| - 1]) then TrimEnd(s[..|s| - 1]) else s
  }

  function Trim(s: string): string { TrimEnd(TrimStart(s)) }

  predicate Blank(s: string) { forall k :: 0 <= k < |s| ==> IsSpace(s[k]) }

  lemma {:induction false} TrimStartCuts(s: string)
    ensures var r := TrimStart(s);
      |r| <= |s| && r == s[|s| - |r|..] && Blank(s[..|s| - |r|]) && (r != "" ==> !IsSpace(r[0]))
  {
    if s != "" && IsSpace(s[0]) {
      var rest := s[1..];
      var r := TrimStart(rest);
      TrimStartCuts(rest);
      assert s[..|s| - |r|] == [s[0]] + rest[..|rest| - |r|];
    }
  }

  lemma {:induction false} TrimEndCuts(s: string)
    ensures var r := TrimEnd(s);
      r <= s && Blank(s[|r|..]) && (r != "" ==> !IsSpace(r[|r| - 1]))
  {
    if s != "" && IsSpace(s[|s| - 1]) {
      var front := s[..|s| - 1];
      TrimEndCuts(front);
      assert s[|TrimEnd(s)|..] == front[|TrimEnd(s)|..] + [s[|s| - 1]];
    }
  }

  /** Trimming cuts white space off both ends, all of it and nothing else. */
  lemma TrimCuts(s: string) returns (i: nat, j: nat)
    ensures i <= j <= |s| && Trim(s) == s[i..j] && Blank(s[..i]) && Blank(s[j..])
    ensures Trim(s) != "" ==> !IsSpace(Trim(s)[0]) && !IsSpace(Trim(s)[|Trim(s)| - 1])
  {
    hide TrimStart, TrimEnd, Blank;
    var t := TrimStart(s);
    TrimStartCuts(s);
    TrimEndCuts(t);
    i := |s| - |t|;
    j := i + |TrimEnd(t)|;
    assert s[i..j] == t[..|TrimEnd(t)|] == TrimEnd(t);
    assert s[j..] == t[|TrimEnd(t)|..];
  }

  /** map(trim).filter(Boolean) */
  function TrimmedNonBlank(ps: seq<string>): seq<string> {
    if ps == [] then []
    else TrimmedNonBlank(ps[..|ps| - 1]) + if Trim(ps[|ps| - 1]) != "" then [Trim(ps[|ps| - 1])] else []
  }

  lemma TrimmedOneMore(ps: seq<string>, p: string)
    ensures TrimmedNonBlank(ps + [p]) == TrimmedNonBlank(ps) + if Trim(p) != "" then [Trim(p)] else []
  {
    assert (ps + [p])[..|ps|] == ps;
    hide Trim;
  }

  lemma NothingTrimmed()
    ensures TrimmedNonBlank([]) == []
  {
  }

  /** splitDefinitionList of the translator and of the foreign-key registry: excess closers are ignored. */
  method SplitDefinitionList(body: string) returns (parts: seq<string>)
    ensures parts == Split(ByClamped, body)
  {
    parts := [];
    var start := 0;
    var depth: int := 0;
    var inSingle, inDouble := false, false;
    var i := 0;
    while i < |body|
      invariant 0 <= start <= i <= |body|
      invariant Mode(body, i) == (if inSingle then Single else if inDouble then Double else Plain)
      invariant !(inSingle && inDouble)
      invariant depth == Clamped(body, i)
      invariant parts + Pieces(ByClamped, body, start, i) == Split(ByClamped, body)
    {
      var c := body[i];
      if c == '\'' && !inDouble {
        if inSingle && i + 1 < |body| && body[i + 1] == '\'' {
          PairSkip(body, i);
          i := i + 2;
          continue;
        }
        inSingle := !inSingle;
      } else if c == '"' && !inSingle {
        if inDouble && i + 1 < |body| && body[i + 1] == '"' {
          PairSkip(body, i);
          i := i + 2;
          continue;
        }
        inDouble := !inDouble;
      } else if !inSingle && !inDouble {
        if c == '(' {
          depth := depth + 1;
        } else if c == ')' {
          depth := if depth - 1 < 0 then 0 else depth - 1;
        } else if c == ',' && depth == 0 {
          parts := parts + [body[start..i]];
          start := i + 1;
        }
      }
      i := i + 1;
    }
    parts := parts + [body[start..]];
  }

  /** .map(trim).filter(Boolean) */
  method KeepNonBlank(raw: seq<string>) returns (parts: seq<string>)
    ensures parts == TrimmedNonBlank(raw)
  {
    hide Trim, TrimmedNonBlank;
    parts := [];
    NothingTrimmed();
    var k := 0;
    while k < |raw|
      invariant 0 <= k <= |raw| && parts == TrimmedNonBlank(raw[..k])
    {
      var part := Trim(raw[k]);
      TrimmedOneMore(raw[..k], raw[k]);
      assert raw[..k + 1] == raw[..k] + [raw[k]];
      if part != "" { parts := parts + [part]; }
      k := k + 1;
    }
    assert raw[..k] == raw;
  }

  /** splitDefinitionList of the column-rename registry: depth may go negative, pieces are trimmed, blanks dropped. */
  method SplitTrimmedDefinitions(body: string) returns (parts: seq<string>)
    ensures parts == TrimmedNonBlank(Split(ByUnclamped, body))
  {
    hide Trim, TrimmedNonBlank;
    var raw: seq<string> := [];
    var start := 0;
    var depth: int := 0;
    var inSingle, inDouble := false, false;
    var i := 0;
    while i < |body|
      invariant 0 <= start <= i <= |body|
      invariant Mode(body, i) == (if inSingle then Single else if inDouble then Double else Plain)
      invariant !(inSingle && inDouble)
      invariant depth == Depth(body, i)
      invariant raw + Pieces(ByUnclamped, body, start, i) == Split(ByUnclamped, body)
    {
      var c := body[i];
      if c == '\'' && !inDouble {
        if inSingle && i + 1 < |body| && body[i + 1] == '\'' {
          PairSkip(body, i);
          i := i + 2;
          continue;
        }
        inSingle := !inSingle;
      } else if c == '"' && !inSingle {
        if inDouble && i + 1 < |body| && body[i + 1] == '"' {
          PairSkip(body, i);
          i := i + 2;
          continue;
        }
        inDouble := !inDouble;
      } else if !inSingle && !inDouble {
        if c == '(' {
          depth := depth + 1;
        } else if c == ')' {
          depth := depth - 1;
        } else if c == ',' && depth == 0 {
          raw := raw + [body[start..i]];
          start := i + 1;
        }
      }
      i := i + 1;
    }
    raw := raw + [body[start..]];
    parts := KeepNonBlank(raw);
  }

  /** splitSimpleStatements */
  method SplitSimpleStatements(sql: string) returns (statements: seq<string>)
    ensures statements == TrimmedNonBlank(Split(BySemicolon, sql))
  {
    hide Trim, TrimmedNonBlank;
    statements := [];
    NothingTrimmed();
    ghost var raw: seq<string> := [];
    var start := 0;
    var inSingle, inDouble := false, false;
    var i := 0;
    while i < |sql|
      invariant 0 <= start <= i <= |sql|
      invariant Mode(sql, i) == (if inSingle then Single else if inDouble then Double else Plain)
      invariant !(inSingle && inDouble)
      invariant raw + Pieces(BySemicolon, sql, start, i) == Split(BySemicolon, sql)
      invariant statements == TrimmedNonBlank(raw)
    {
      var c := sql[i];
      if c == '\'' && !inDouble {
        if inSingle && i + 1 < |sql| && sql[i + 1] == '\'' {
          PairSkip(sql, i);
          i := i + 2;
          continue;
        }
        inSingle := !inSingle;
      } else if c == '"' && !inSingle {
        if inDouble && i + 1 < |sql| && sql[i + 1] == '"' {
          PairSkip(sql, i);
          i := i + 2;
          continue;
        }
        inDouble := !inDouble;
      } else if c == ';' && !inSingle && !inDouble {
        var part := Trim(sql[start..i]);
        TrimmedOneMore(raw, sql[start..i]);
        if part != "" { statements := statements + [part]; }
        raw := raw + [sql[start..i]];
        start := i + 1;
      }
      i := i + 1;
    }
    var tail := Trim(sql[start..]);
    TrimmedOneMore(raw, sql[start..]);
    assert Split(BySemicolon, sql) == raw + [sql[start..]];
    if tail != "" { statements := statements + [tail]; }
  }
}
