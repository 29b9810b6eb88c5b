/** The scanners agree with each other, and with the text they cut. */
module ScannerTheorems {
  import opened Scanners

  // ---- the three splitters ----

  /** Up to the closer that matchingParen finds, the opening parenthesis stays open. */
  lemma {:induction false} StaysOpen(s: string, k: nat)
    requires s != "" && s[0] == '(' && MatchIn(s, 0) >= 0 && 1 <= k <= MatchIn(s, 0)
    ensures Depth(s, k) >= 1
  {
    assert Depth(s, 1) == 1 by { assert Visible(s, 0) && Depth(s, 0) == 0; }
    if k > 1 {
      StaysOpen(s, k - 1);
      assert !ClosesAt(s, k - 1);
    }
  }

  lemma {:induction false} BodyShift(s: string, close: nat, j: nat)
    requires s != "" && s[0] == '(' && 1 <= close <= |s| && j <= close - 1
    ensures Mode(s[1..close], j) == Mode(s, j + 1)
    ensures Depth(s[1..close], j) == Depth(s, j + 1) - 1
  {
    var body := s[1..close];
    if j == 0 {
      assert Visible(s, 0) && Depth(s, 0) == 0 && Mode(s, 1) == Toggle(Mode(s, 0), s[0]);
    } else {
      BodyShift(s, close, j - 1);
      assert body[j - 1] == s[j];
    }
  }

  lemma {:induction false} ClampedIsDepth(s: string, k: nat)
    requires k <= |s| && forall j :: 0 <= j <= k ==> Depth(s, j) >= 0
    ensures Clamped(s, k) == Depth(s, k)
  {
    if k > 0 { ClampedIsDepth(s, k - 1); }
  }

  lemma {:induction false} SameCuts(s: string, start: nat, i: nat)
    requires start <= i <= |s|
    requires forall k :: 0 <= k <= |s| ==> Depth(s, k) >= 0
    ensures Pieces(ByClamped, s, start, i) == Pieces(ByUnclamped, s, start, i)
    decreases |s| - i
  {
    if i < |s| {
      ClampedIsDepth(s, i);
      SameCuts(s, i + 1, i + 1);
      SameCuts(s, start, i + 1);
    }
  }

  function Separator(rule: Rule): char { if rule.BySemicolon? then ';' else ',' }

  function JoinWith(ps: seq<string>, sep: char): string {
    if ps == [] then "" else if |ps| == 1 then ps[0] else ps[0] + [sep] + JoinWith(ps[1..], sep)
  }

  lemma {:induction false} PiecesJoin(rule: Rule, s: string, start: nat, i: nat)
    requires start <= i <= |s|
    ensures JoinWith(Pieces(rule, s, start, i), Separator(rule)) == s[start..]
    decreases |s| - i
  {
    if i < |s| {
      if Cut(rule, s, i) {
        var rest := Pieces(rule, s, i + 1, i + 1);
        PiecesJoin(rule, s, i + 1, i + 1);
        assert ([s[start..i]] + rest)[1..] == rest;
        assert s[start..] == s[start..i] + [s[i]] + s[i + 1..];
      } else {
        PiecesJoin(rule, s, start, i + 1);
      }
    }
  }

  /**
   For every text and every '(' that matchingParen closes: inside, the depth
   never goes negative and every quote is closed; so both splitters cut at the
   same commas, and joining the pieces gives the text between back.
   */
  lemma ScannerAgreement(sql: string, open: nat)
    requires open < |sql| && sql[open] == '(' && MatchIn(sql[open..], 0) >= 0
    ensures MatchIn(sql[open..], 0) >= 1
    ensures var body := sql[open + 1..open + MatchIn(sql[open..], 0)];
      && (forall k :: 0 <= k <= |body| ==> Depth(body, k) >= 0)
      && Depth(body, |body|) == 0 && Mode(body, |body|) == Plain
      && Split(ByUnclamped, body) == Split(ByClamped, body)
      && JoinWith(Split(ByClamped, body), ',') == body
  {
    var s := sql[open..];
    var close := MatchIn(s, 0);
    assert Visible(s, 0) && Depth(s, 0) == 0;
    var body := sql[open + 1..open + close];
    assert body == s[1..close];
    forall k | 0 <= k <= |body| ensures Depth(body, k) >= 0 {
      BodyShift(s, close, k);
      StaysOpen(s, k + 1);
    }
    BodyShift(s, close, |body|);
    StaysOpen(s, close);
    SameCuts(body, 0, 0);
    PiecesJoin(ByClamped, body, 0, 0);
  }

  // ---- joining and splitting ----

  /** Every quote is closed and, where depth matters, every parenthesis is, in order. */
  predicate Level(rule: Rule, s: string) {
    Mode(s, |s|) == Plain
    && (rule.BySemicolon? || (Depth(s, |s|) == 0 && forall k :: 0 <= k <= |s| ==> Depth(s, k) >= 0))
  }

  /** A definition, or a statement, on its own: level, and no separator except between parentheses. */
  predicate Standalone(rule: Rule, s: string) {
    Level(rule, s)
    && forall k :: 0 <= k < |s| && Visible(s, k) && s[k] == Separator(rule) ==> !rule.BySemicolon? && Depth(s, k) > 0
  }

  lemma {:induction false} Before(a: string, b: string, k: nat)
    requires k <= |a|
    ensures Mode(a + b, k) == Mode(a, k) && Depth(a + b, k) == Depth(a, k)
    ensures k < |a| ==> Visible(a + b, k) == Visible(a, k)
  {
    if k > 0 { Before(a, b, k - 1); }
  }

  lemma {:induction false} After(a: string, b: string, k: nat)
    requires k <= |b| && Mode(a, |a|) == Plain
    ensures Mode(a + b, |a| + k) == Mode(b, k) && Depth(a + b, |a| + k) == Depth(a, |a|) + Depth(b, k)
    ensures k < |b| ==> Visible(a + b, |a| + k) == Visible(b, k)
  {
    if k == 0 { Before(a, b, |a|); } else { After(a, b, k - 1); }
  }

  lemma LevelTogether(rule: Rule, a: string, b: string)
    requires Level(rule, a) && Level(rule, b)
    ensures Level(rule, a + b)
  {
    After(a, b, |b|);
    if !rule.BySemicolon? {
      forall k | 0 <= k <= |a + b| ensures Depth(a + b, k) >= 0 {
        if k <= |a| { Before(a, b, k); } else { After(a, b, k - |a|); }
      }
    }
  }

  /** Text that stands alone does so next to other text that does. */
  lemma StandTogether(rule: Rule, a: string, b: string)
    requires Standalone(rule, a) && Standalone(rule, b)
    ensures Standalone(rule, a + b)
  {
    var s := a + b;
    LevelTogether(rule, a, b);
    forall k | 0 <= k < |s| && Visible(s, k) && s[k] == Separator(rule) ensures !rule.BySemicolon? && Depth(s, k) > 0 {
      if k < |a| { Before(a, b, k); } else { After(a, b, k - |a|); }
    }
  }

  lemma Parentheses()
    ensures Visible("(", 0) && Mode("(", 1) == Plain && Depth("(", 1) == 1
    ensures Visible(")", 0) && Mode(")", 1) == Plain && Depth(")", 1) == -1
  {
    assert Depth("(", 0) == 0 && Depth(")", 0) == 0;
  }

  lemma InsideDeep(rule: Rule, s: string)
    requires !rule.BySemicolon? && Level(rule, s)
    ensures var t := "(" + s + ")";
      && (forall k :: 1 <= k <= |s| + 1 ==> Depth(t, k) >= 1)
      && Visible(t, |s| + 1) && Depth(t, |s| + 2) == 0
  {
    var t := "(" + s;
    Parentheses();
    After("(", s, |s|);
    After(t, ")", 0);
    After(t, ")", 1);
    hide Mode, Visible;
    forall k | 1 <= k <= |s| + 1 ensures Depth(t + ")", k) >= 1 {
      Before(t, ")", k);
      After("(", s, k - 1);
    }
  }

  /** A text in parentheses stands alone, whatever commas it holds. */
  lemma ParenthesesProtect(rule: Rule, s: string)
    requires !rule.BySemicolon? && Level(rule, s)
    ensures Standalone(rule, "(" + s + ")")
  {
    InsideDeep(rule, s);
    var t := "(" + s;
    Before(t, ")", 0);
    After("(", s, |s|);
    After(t, ")", 1);
  }

  /** x with every q doubled. */
  function Doubled(x: string, q: char): string {
    if x == "" then ""
    else Doubled(x[..|x| - 1], q) + if x[|x| - 1] == q then [q, q] else [x[|x| - 1]]
  }

  /** The quotes are open, and nothing so far was outside them. */
  predicate Enclosed(s: string, q: char) {
    && Mode(s, |s|) == (if q == '\'' then Single else Double)
    && forall k :: 0 <= k <= |s| ==> Depth(s, k) == 0 && (k < |s| ==> !Visible(s, k))
  }

  lemma QuoteOpens(q: char)
    requires q == '\'' || q == '"'
    ensures Enclosed([q], q)
  {
    var s := [q];
    assert Mode(s, 0) == Plain && Depth(s, 0) == 0 && !Visible(s, 0) && Depth(s, 1) == 0;
  }

  /** One more character inside, a quote being doubled. */
  lemma QuoteGoesOn(s: string, q: char, c: char)
    requires (q == '\'' || q == '"') && Enclosed(s, q)
    ensures Enclosed(s + if c == q then [q, q] else [c], q)
  {
    var more := if c == q then [q, q] else [c];
    var t := s + more;
    forall k | 0 <= k <= |s| ensures Depth(t, k) == 0 && Mode(t, k) == Mode(s, k) && (k < |s| ==> !Visible(t, k)) {
      Before(s, more, k);
    }
    assert t[|s|] == c;
    if c == q {
      assert t[|s| + 1] == q;
      PairSkip(t, |s|);
      assert Depth(t, |s| + 1) == 0;
    } else {
      assert !Visible(t, |s|);
    }
  }

  lemma {:induction false} InsideQuotes(x: string, q: char)
    requires q == '\'' || q == '"'
    ensures Enclosed([q] + Doubled(x, q), q)
  {
    hide Enclosed;
    if x == "" {
      assert [q] + Doubled(x, q) == [q];
      QuoteOpens(q);
    } else {
      var front := x[..|x| - 1];
      InsideQuotes(front, q);
      QuoteGoesOn([q] + Doubled(front, q), q, x[|x| - 1]);
      assert [q] + Doubled(x, q) == [q] + Doubled(front, q) + if x[|x| - 1] == q then [q, q] else [x[|x| - 1]];
    }
  }

  /** Quoted text stands alone, whatever separators and parentheses it holds. */
  lemma QuotesProtect(rule: Rule, x: string, q: char)
    requires q == '\'' || q == '"'
    ensures Standalone(rule, [q] + Doubled(x, q) + [q])
  {
    var was := [q] + Doubled(x, q);
    var s := was + [q];
    InsideQuotes(x, q);
    forall k | 0 <= k <= |was| ensures Depth(s, k) == 0 && (k < |was| ==> !Visible(s, k)) {
      Before(was, [q], k);
    }
    Before(was, [q], |was|);
    assert !Visible(s, |was|);
  }

  /** Any other character stands alone. */
  lemma CharacterStands(rule: Rule, c: char)
    requires c !in {'\'', '"', '(', ')', Separator(rule)}
    ensures Standalone(rule, [c])
  {
    assert Mode([c], 0) == Plain && Depth([c], 0) == 0;
  }

  /** Of pre + p + tail, p is not cut and a separator after it is. */
  lemma CutAfter(rule: Rule, pre: string, p: string, tail: string)
    requires Level(rule, pre) && Standalone(rule, p)
    ensures var s := pre + p + tail;
      && (forall k :: |pre| <= k < |pre| + |p| ==> !Cut(rule, s, k))
      && (tail != "" && tail[0] == Separator(rule) ==> Cut(rule, s, |pre| + |p|))
  {
    var s := pre + p + tail;
    LevelTogether(rule, pre, p);
    if !rule.BySemicolon? {
      forall k | 0 <= k <= |pre + p| ensures Depth(s, k) >= 0 && Clamped(s, k) == Depth(s, k) {
        forall j | 0 <= j <= k ensures Depth(s, j) >= 0 { Before(pre + p, tail, j); }
        ClampedIsDepth(s, k);
      }
    }
    forall k | |pre| <= k < |pre| + |p| ensures !Cut(rule, s, k) {
      Before(pre + p, tail, k);
      After(pre, p, k - |pre|);
    }
    Before(pre + p, tail, |pre + p|);
  }

  lemma {:induction false} NextPiece(rule: Rule, s: string, start: nat, i: nat, e: nat)
    requires start <= i <= e <= |s| && forall k :: i <= k < e ==> !Cut(rule, s, k)
    requires e < |s| ==> Cut(rule, s, e)
    ensures Pieces(rule, s, start, i) ==
      if e == |s| then [s[start..]] else [s[start..e]] + Pieces(rule, s, e + 1, e + 1)
    decreases e - i
  {
    if i < e { NextPiece(rule, s, start, i + 1, e); }
  }

  /** The first of several joined pieces is cut off behind itself. */
  lemma FirstOfJoined(rule: Rule, pre: string, p: string, tail: string)
    requires Level(rule, pre) && Standalone(rule, p) && (tail != "" ==> tail[0] == Separator(rule))
    ensures var s := pre + p + tail; var e := |pre| + |p|;
      Pieces(rule, s, |pre|, |pre|) == if tail == "" then [p] else [p] + Pieces(rule, s, e + 1, e + 1)
  {
    hide Level, Standalone, Cut, Pieces;
    var s := pre + p + tail;
    CutAfter(rule, pre, p, tail);
    NextPiece(rule, s, |pre|, |pre|, |pre| + |p|);
    assert s[|pre|..|pre| + |p|] == p;
    if tail == "" { assert s[|pre|..] == p; }
  }

  lemma JoinFirst(ps: seq<string>, sep: char)
    requires ps != []
    ensures JoinWith(ps, sep) == ps[0] + if |ps| == 1 then "" else [sep] + JoinWith(ps[1..], sep)
  {
    assert ps[0] + "" == ps[0];
  }

  lemma {:induction false} JoinedSplits(rule: Rule, pre: string, ps: seq<string>)
    requires Level(rule, pre) && ps != [] && forall p :: p in ps ==> Standalone(rule, p)
    ensures Pieces(rule, pre + JoinWith(ps, Separator(rule)), |pre|, |pre|) == ps
    decreases |ps|
  {
    hide Level, Standalone, Cut, Pieces, JoinWith;
    var sep := Separator(rule);
    var p := ps[0];
    JoinFirst(ps, sep);
    if |ps| == 1 {
      assert pre + JoinWith(ps, sep) == pre + p + "";
      FirstOfJoined(rule, pre, p, "");
    } else {
      var rest := ps[1..];
      var next := pre + p + [sep];
      var tail := [sep] + JoinWith(rest, sep);
      assert pre + JoinWith(ps, sep) == pre + p + tail == next + JoinWith(rest, sep);
      FirstOfJoined(rule, pre, p, tail);
      SeparatorLevel(rule, pre, p);
      JoinedSplits(rule, next, rest);
      assert ps == [p] + rest;
    }
  }

  lemma SeparatorLevel(rule: Rule, pre: string, p: string)
    requires Level(rule, pre) && Standalone(rule, p)
    ensures Level(rule, pre + p + [Separator(rule)])
  {
    var c := Separator(rule);
    LevelTogether(rule, pre, p);
    assert Mode([c], 0) == Plain && Depth([c], 0) == 0 && Mode([c], 1) == Plain && Depth([c], 1) == 0;
    LevelTogether(rule, pre + p, [c]);
  }

  /**
   Joining definitions, or statements, that stand alone and splitting the text
   again gives them back: every separator between them is cut and none inside.
   */
  lemma SplitJoined(rule: Rule, ps: seq<string>)
    requires ps != [] && forall p :: p in ps ==> Standalone(rule, p)
    ensures Split(rule, JoinWith(ps, Separator(rule))) == ps
  {
    assert "" + JoinWith(ps, Separator(rule)) == JoinWith(ps, Separator(rule));
    JoinedSplits(rule, "", ps);
  }

  lemma {:induction false} NothingLost(ps: seq<string>)
    requires forall p :: p in ps ==> p != "" && Trim(p) == p
    ensures TrimmedNonBlank(ps) == ps
  {
    hide Trim;
    if ps != [] {
      var front := ps[..|ps| - 1];
      forall p | p in front ensures p != "" && Trim(p) == p { assert p in ps; }
      NothingLost(front);
      assert ps == ps[..|ps| - 1] + [ps[|ps| - 1]];
    }
  }

  /** The trimming splitters give trimmed definitions, or statements, back just so. */
  lemma TrimmedJoined(rule: Rule, ps: seq<string>)
    requires ps != [] && forall p :: p in ps ==> Standalone(rule, p) && p != "" && Trim(p) == p
    ensures TrimmedNonBlank(Split(rule, JoinWith(ps, Separator(rule)))) == ps
  {
    hide Trim, Standalone, Split;
    SplitJoined(rule, ps);
    NothingLost(ps);
  }

  /** matchingParen finds the closer of a level text in parentheses, whatever follows. */
  lemma MatchFound(s: string, tail: string)
    requires Level(ByClamped, s)
    ensures MatchIn("(" + s + ")" + tail, 0) == |s| + 1
  {
    var t := "(" + s + ")";
    var all := t + tail;
    ParenthesesProtect(ByClamped, s);
    InsideDeep(ByClamped, s);
    forall j | 0 <= j <= |s| ensures !ClosesAt(all, j) {
      Before(t, tail, j);
      Before(t, tail, j + 1);
    }
    Before(t, tail, |s| + 1);
    Before(t, tail, |t|);
    var k := MatchIn(all, 0);
    assert ClosesAt(all, |s| + 1);
    hide Level, ClosesAt;
  }

  // ---- the multi-statement gate ----

  /** Semicolons outside quotes among the first k characters. */
  function Semicolons(s: string, k: nat): nat
    requires k <= |s|
  {
    if k == 0 then 0 else Semicolons(s, k - 1) + if CutStatement(s, k - 1) then 1 else 0
  }

  predicate Blank(s: string) { forall k :: 0 <= k < |s| ==> IsSpace(s[k]) }

  /** /;\s*$/ */
  predicate EndsWithSemicolon(s: string) {
    s != "" && (s[|s| - 1] == ';' || (IsSpace(s[|s| - 1]) && EndsWithSemicolon(s[..|s| - 1])))
  }

  predicate Multiple(s: string) {
    Semicolons(s, |s|) > 1 || (Semicolons(s, |s|) == 1 && !EndsWithSemicolon(s))
  }

  /** hasMultipleStatements: single quotes are skipped in pairs, double quotes toggle. */
  method HasMultipleStatements(sql: string) returns (r: bool)
    ensures r == Multiple(sql)
  {
    var inSingle, inDouble := false, false;
    var semicolons := 0;
    var i := 0;
    while i < |sql|
      invariant 0 <= i <= |sql|
      invariant Mode(sql, i) == (if inSingle then Single else if inDouble then Double else Plain)
      invariant !(inSingle && inDouble)
      invariant semicolons == Semicolons(sql, i)
    {
      var c := sql[i];
      if c == '\'' && !inDouble {
        if inSingle && i + 1 < |sql| && sql[i + 1] == '\'' {
          PairSkip(sql, i);
          i := i + 2;
          continue;
        }
        inSingle := !inSingle;
      } else if c == '"' && !inSingle {
        inDouble := !inDouble;
      } else if c == ';' && !inSingle && !inDouble {
        semicolons := semicolons + 1;
      }
      i := i + 1;
    }
    return semicolons > 1 || (semicolons == 1 && !EndsWithSemicolon(sql));
  }

  function Statements(s: string): seq<string> { TrimmedNonBlank(Split(BySemicolon, s)) }

  /** The first semicolon outside quotes, or the end. */
  function FirstCut(s: string, i: nat): (k: nat)
    requires i <= |s|
    ensures i <= k <= |s| && (k < |s| ==> CutStatement(s, k))
    ensures forall j :: i <= j < k ==> !CutStatement(s, j)
    decreases |s| - i
  {
    if i == |s| || CutStatement(s, i) then i else FirstCut(s, i + 1)
  }

  lemma {:induction false} TrimBlank(s: string)
    ensures Trim(s) == "" <==> Blank(s)
  {
    TrimStartBlank(s);
    TrimEndBlank(TrimStart(s));
    TrimStartSuffix(s);
  }

  lemma {:induction false} TrimStartBlank(s: string)
    ensures TrimStart(s) == "" <==> Blank(s)
  {
    if s != "" && IsSpace(s[0]) {
      TrimStartBlank(s[1..]);
      assert s == [s[0]] + s[1..];
      if Blank(s[1..]) {
        forall k | 0 <= k < |s| ensures IsSpace(s[k]) { if k > 0 { assert s[k] == s[1..][k - 1]; } }
      }
    }
  }

  lemma {:induction false} TrimStartSuffix(s: string)
    ensures TrimStart(s) != "" ==> !IsSpace(TrimStart(s)[0])
  {
    if s != "" && IsSpace(s[0]) { TrimStartSuffix(s[1..]); }
  }

  lemma {:induction false} TrimEndBlank(s: string)
    ensures TrimEnd(s) == "" <==> Blank(s)
  {
    if s != "" && IsSpace(s[|s| - 1]) {
      TrimEndBlank(s[..|s| - 1]);
      if Blank(s[..|s| - 1]) {
        forall k | 0 <= k < |s| ensures IsSpace(s[k]) { if k < |s| - 1 { assert s[k] == s[..|s| - 1][k]; } }
      }
    }
  }

  lemma {:induction false} SemicolonsSplit(s: string, i: nat, j: nat)
    requires i <= j <= |s|
    ensures Semicolons(s, j) >= Semicolons(s, i)
    ensures Semicolons(s, j) == Semicolons(s, i) <==> forall k :: i <= k < j ==> !CutStatement(s, k)
    decreases j
  {
    if i < j { SemicolonsSplit(s, i, j - 1); }
  }

  lemma {:induction false} NoCutOnePiece(s: string, start: nat, i: nat)
    requires start <= i <= |s| && forall k :: i <= k < |s| ==> !CutStatement(s, k)
    ensures Pieces(BySemicolon, s, start, i) == [s[start..]]
    decreases |s| - i
  {
    if i < |s| { NoCutOnePiece(s, start, i + 1); }
  }

  lemma {:induction false} FirstPiece(s: string, start: nat, i: nat)
    requires start <= i <= |s|
    ensures var q := FirstCut(s, i);
      Pieces(BySemicolon, s, start, i) ==
        if q == |s| then [s[start..]] else [s[start..q]] + Pieces(BySemicolon, s, q + 1, q + 1)
    decreases |s| - i
  {
    if i < |s| && !CutStatement(s, i) { FirstPiece(s, start, i + 1); }
  }

  /** Where /;\s*$/ matches: a semicolon with only white space after it. */
  lemma {:induction false} LastSemicolon(s: string) returns (p: nat)
    requires EndsWithSemicolon(s)
    ensures p < |s| && s[p] == ';' && Blank(s[p + 1..])
    ensures Mode(s, |s|) == Mode(s, p)
  {
    if s[|s| - 1] == ';' {
      p := |s| - 1;
    } else {
      var front := s[..|s| - 1];
      p := LastSemicolon(front);
      assert s[p + 1..] == front[p + 1..] + [s[|s| - 1]];
      ModePrefix(s, |s| - 1, |s| - 1);
      ModePrefix(s, |s| - 1, p);
    }
  }

  lemma BlankAfter(s: string, p: nat, q: nat)
    requires p < |s| && q < |s| && Blank(s[p + 1..])
    ensures p < q ==> IsSpace(s[q])
  {
    if p < q { assert s[p + 1..][q - p - 1] == s[q]; }
  }

  lemma {:induction false} ModePrefix(s: string, n: nat, k: nat)
    requires k <= n <= |s|
    ensures Mode(s[..n], k) == Mode(s, k)
  {
    if k > 0 { ModePrefix(s, n, k - 1); }
  }

  lemma TwoPieces(head: string, tail: string)
    ensures |TrimmedNonBlank([head, tail])| == (if Blank(head) then 0 else 1) + (if Blank(tail) then 0 else 1)
    ensures |TrimmedNonBlank([head])| == if Blank(head) then 0 else 1
  {
    TrimBlank(head);
    TrimBlank(tail);
    hide Trim, Blank;
    assert [head, tail][..1] == [head] && [head][..0] == [];
    assert TrimmedNonBlank([head]) == if Trim(head) != "" then [Trim(head)] else [];
    assert TrimmedNonBlank([head, tail]) == TrimmedNonBlank([head]) + if Trim(tail) != "" then [Trim(tail)] else [];
  }

  /**
   When the gate says "one statement", the splitter finds at most one, except
   for exactly this family: a quote is left open and a semicolon with something
   before it stands outside quotes.
   */
  lemma GateExact(s: string)
    requires !Multiple(s)
    ensures |Statements(s)| <= 1 <==>
      Mode(s, |s|) == Plain || Semicolons(s, |s|) == 0 || Blank(s[..FirstCut(s, 0)])
  {
    var q := FirstCut(s, 0);
    FirstPiece(s, 0, 0);
    TwoPieces(s, s);
    SemicolonsSplit(s, 0, q);
    SemicolonsSplit(s, q, |s|);
    if q < |s| {
      SemicolonsSplit(s, 0, q + 1);
      SemicolonsSplit(s, q + 1, |s|);
      NoCutOnePiece(s, q + 1, q + 1);
      TwoPieces(s[..q], s[q + 1..]);
      var p := LastSemicolon(s);
      if Mode(s, |s|) == Plain {
        assert CutStatement(s, p);
        assert p == q;
      } else {
        BlankAfter(s, p, q);
        assert p > q;
        assert s[q + 1..][p - q - 1] == ';';
        assert !Blank(s[q + 1..]);
      }
    } else {
      assert s[0..] == s;
    }
  }

  /** With every quote closed the gate is sound. */
  lemma GateSound(s: string)
    requires Mode(s, |s|) == Plain && !Multiple(s)
    ensures |Statements(s)| <= 1
  {
    GateExact(s);
  }

  /** And one statement passes it, with or without a semicolon and white space behind. */
  lemma GateAdmits(p: string, blanks: string)
    requires Standalone(BySemicolon, p) && Blank(blanks)
    ensures !Multiple(p + blanks) && !Multiple(p + ";" + blanks)
  {
    NoneIn(p, blanks);
    var s := p + ";" + blanks;
    assert p + (";" + blanks) == s;
    NoneIn(p, ";" + blanks);
    EndsAfterBlanks(p + ";", blanks);
  }

  lemma NoneIn(p: string, tail: string)
    requires Standalone(BySemicolon, p) && forall k :: 0 <= k < |tail| && tail[k] == ';' ==> k == 0
    ensures Semicolons(p + tail, |p + tail|) <= if tail != "" && tail[0] == ';' then 1 else 0
  {
    var s := p + tail;
    assert "" + p + tail == s;
    CutAfter(BySemicolon, "", p, tail);
    forall k | 0 <= k < |p| ensures !CutStatement(s, k) { assert !Cut(BySemicolon, s, k); }
    SemicolonsSplit(s, 0, |p|);
    if tail != "" {
      SemicolonsSplit(s, |p| + 1, |s|);
      assert s[|p|] == tail[0] && forall k :: |p| < k < |s| ==> s[k] == tail[k - |p|];
    }
  }

  lemma {:induction false} EndsAfterBlanks(s: string, blanks: string)
    requires s != "" && s[|s| - 1] == ';' && Blank(blanks)
    ensures EndsWithSemicolon(s + blanks)
    decreases |blanks|
  {
    if blanks == "" {
      assert s + blanks == s;
    } else {
      var front := blanks[..|blanks| - 1];
      EndsAfterBlanks(s, front);
      assert (s + blanks)[..|s + blanks| - 1] == s + front;
      assert IsSpace(blanks[|blanks| - 1]);
    }
  }

  const OPEN_QUOTE_BATCH := "a;';"

  /** Without that, two statements pass as one. */
  lemma GateFooled()
    ensures !Multiple(OPEN_QUOTE_BATCH) && |Statements(OPEN_QUOTE_BATCH)| == 2
  {
    var s := OPEN_QUOTE_BATCH;
    assert Mode(s, 0) == Plain && Mode(s, 1) == Plain && Mode(s, 2) == Plain && Mode(s, 3) == Single && Mode(s, 4) == Single;
    assert CutStatement(s, 1) && !CutStatement(s, 0) && !CutStatement(s, 2) && !CutStatement(s, 3);
    assert Semicolons(s, 0) == 0 && Semicolons(s, 1) == 0 && Semicolons(s, 2) == 1 && Semicolons(s, 3) == 1;
    FirstPiece(s, 0, 0);
    NoCutOnePiece(s, 2, 2);
    TwoPieces(s[..1], s[2..]);
    assert s[..1][0] == 'a' && s[2..][0] == '\'';
  }

  // ---- uppercaseUnquotedRelationIdentifiers ----

  function Upper(c: char): char { if 'a' <= c <= 'z' then c - 'a' + 'A' else c }

  function Uppered(s: string): (r: string)
    ensures |r| == |s|
  {
    seq(|s|, k requires 0 <= k < |s| => if Mode(s, k) == Plain then Upper(s[k]) else s[k])
  }

  method UppercaseUnquoted(chars: array<char>)
    modifies chars
    ensures chars[..] == Uppered(old(chars[..]))
  {
    ghost var s := chars[..];
    var inSingle, inDouble := false, false;
    var i := 0;
    while i < chars.Length
      invariant 0 <= i <= chars.Length
      invariant Mode(s, i) == (if inSingle then Single else if inDouble then Double else Plain)
      invariant !(inSingle && inDouble)
      invariant forall k :: 0 <= k < i ==> chars[k] == Uppered(s)[k]
      invariant forall k :: i <= k < chars.Length ==> chars[k] == s[k]
    {
      var c := chars[i];
      if c == '\'' && !inDouble {
        if inSingle && i + 1 < chars.Length && chars[i + 1] == '\'' {
          PairSkip(s, i);
          i := i + 2;
          continue;
        }
        inSingle := !inSingle;
      } else if c == '"' && !inSingle {
        inDouble := !inDouble;
      } else if !inSingle && !inDouble && 'a' <= c <= 'z' {
        chars[i] := Upper(c);
      }
      i := i + 1;
    }
  }

  /** Quoting is untouched, so quoted text is, and a second pass changes nothing. */
  lemma {:induction false} UpperedMode(s: string, k: nat)
    requires k <= |s|
    ensures Mode(Uppered(s), k) == Mode(s, k)
  {
    if k > 0 {
      UpperedMode(s, k - 1);
      assert Uppered(s)[k - 1] == if Mode(s, k - 1) == Plain then Upper(s[k - 1]) else s[k - 1];
      hide Uppered;
      UpperToggles(Mode(s, k - 1), s[k - 1]);
    }
  }

  /** Folding a letter changes no quoting. */
  lemma UpperToggles(mode: Quoting, ch: char)
    ensures Toggle(mode, Upper(ch)) == Toggle(mode, ch)
  {
  }

  lemma UpperedStable(s: string)
    ensures Uppered(Uppered(s)) == Uppered(s)
    ensures forall k :: 0 <= k < |s| && Mode(s, k) != Plain ==> Uppered(s)[k] == s[k]
    ensures forall k :: 0 <= k < |s| && Visible(s, k) ==> !('a' <= Uppered(s)[k] <= 'z')
  {
    forall k | 0 <= k < |s| ensures Uppered(Uppered(s))[k] == Uppered(s)[k] {
      UpperedMode(s, k);
    }
  }
}
