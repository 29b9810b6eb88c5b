/**
 Renaming a column by rebuilding the stored CREATE TABLE.  Definitions are
 token lists: identifiers, quoted or not, and everything else; blanks between
 tokens are dropped except in the character-level scanner.
 */
module ColumnRename {
  import opened Wrappers
  import opened Identifiers
  import opened Scanners

  datatype Token = Ident(sql: string) | Text(sql: string)

  type Definition = seq<Token>

  // ---- replaceIdentifierReferences ----

  function Renamed(t: Token, wanted: string, newSql: string): Token {
    if t.Ident? && Normalize(t.sql) == wanted then Ident(newSql) else t
  }

  function Rename(d: Definition, wanted: string, newSql: string): (r: Definition)
    ensures |r| == |d| && forall k :: 0 <= k < |d| ==> r[k] == Renamed(d[k], wanted, newSql)
  {
    seq(|d|, k requires 0 <= k < |d| => Renamed(d[k], wanted, newSql))
  }

  function Render(ts: seq<Token>): string {
    if ts == [] then "" else Render(ts[..|ts| - 1]) + ts[|ts| - 1].sql
  }

  predicate WordStart(c: char) { 'A' <= c <= 'Z' || 'a' <= c <= 'z' || c == '_' }

  predicate WordChar(c: char) { WordStart(c) || '0' <= c <= '9' || c == '$' || c == '#' || c == '@' }

  /** Behind the closing quote, doubled quotes passed over; the end when there is none. */
  function QuotedEnd(s: string, k: nat): (e: nat)
    requires k <= |s|
    ensures k <= e <= |s|
    decreases |s| - k
  {
    if k == |s| then k
    else if s[k] != '"' then QuotedEnd(s, k + 1)
    else if k + 1 < |s| && s[k + 1] == '"' then QuotedEnd(s, k + 2)
    else k + 1
  }

  function WordEnd(s: string, k: nat): (e: nat)
    requires k <= |s|
    ensures k <= e <= |s|
    decreases |s| - k
  {
    if k < |s| && WordChar(s[k]) then WordEnd(s, k + 1) else k
  }

  function Lex(s: string, k: nat, inSingle: bool): seq<Token>
    requires k <= |s|
    decreases |s| - k
  {
    if k == |s| then []
    else if s[k] == '\'' then
      if inSingle && k + 1 < |s| && s[k + 1] == '\'' then [Text("''")] + Lex(s, k + 2, true)
      else [Text("'")] + Lex(s, k + 1, !inSingle)
    else if inSingle then [Text([s[k]])] + Lex(s, k + 1, true)
    else if s[k] == '"' then [Ident(s[k..QuotedEnd(s, k + 1)])] + Lex(s, QuotedEnd(s, k + 1), false)
    else if WordStart(s[k]) then [Ident(s[k..WordEnd(s, k + 1)])] + Lex(s, WordEnd(s, k + 1), false)
    else [Text([s[k]])] + Lex(s, k + 1, false)
  }

  lemma {:induction false} RenderConcat(a: seq<Token>, b: seq<Token>)
    ensures Render(a + b) == Render(a) + Render(b)
    decreases |b|
  {
    if b == [] {
      assert a + b == a;
    } else {
      RenderConcat(a, b[..|b| - 1]);
      assert (a + b)[..|a + b| - 1] == a + b[..|b| - 1] && (a + b)[|a + b| - 1] == b[|b| - 1];
    }
  }

  lemma RenderOne(t: Token, rest: seq<Token>)
    ensures Render([t] + rest) == t.sql + Render(rest)
  {
    RenderConcat([t], rest);
    assert [t][..0] == [];
  }

  lemma RenameOne(t: Token, rest: seq<Token>, wanted: string, newSql: string)
    ensures Rename([t] + rest, wanted, newSql) == [Renamed(t, wanted, newSql)] + Rename(rest, wanted, newSql)
  {
  }

  /** Where the token at k ends, and whether a literal is open behind it. */
  function TokenEnd(s: string, k: nat, inSingle: bool): (e: nat)
    requires k < |s|
    ensures k < e <= |s|
  {
    if s[k] == '\'' then (if inSingle && k + 1 < |s| && s[k + 1] == '\'' then k + 2 else k + 1)
    else if inSingle then k + 1
    else if s[k] == '"' then QuotedEnd(s, k + 1)
    else if WordStart(s[k]) then WordEnd(s, k + 1)
    else k + 1
  }

  function TokenQuoting(s: string, k: nat, inSingle: bool): bool
    requires k < |s|
  {
    if s[k] == '\'' then TokenEnd(s, k, inSingle) == k + 2 || !inSingle else inSingle
  }

  lemma LexStep(s: string, k: nat, inSingle: bool)
    requires k < |s|
    ensures var ts := Lex(s, k, inSingle); var e := TokenEnd(s, k, inSingle);
      |ts| > 0 && ts == [ts[0]] + Lex(s, e, TokenQuoting(s, k, inSingle)) && ts[0].sql == s[k..e]
  {
    hide WordChar, WordStart, QuotedEnd, WordEnd;
  }

  /** Lexing loses nothing. */
  lemma {:induction false} LexRender(s: string, k: nat, inSingle: bool)
    requires k <= |s|
    ensures Render(Lex(s, k, inSingle)) == s[k..]
    decreases |s| - k
  {
    if k < |s| {
      hide Render, Lex, TokenEnd, TokenQuoting;
      LexStep(s, k, inSingle);
      var e := TokenEnd(s, k, inSingle);
      LexRender(s, e, TokenQuoting(s, k, inSingle));
      RenderOne(Lex(s, k, inSingle)[0], Lex(s, e, TokenQuoting(s, k, inSingle)));
      assert s[k..] == s[k..e] + s[e..];
    } else {
      assert Render([]) == "";
    }
  }

  // ---- what is an identifier ----

  lemma {:induction false} QuotedEndMode(s: string, k: nat)
    requires k <= |s| && Mode(s, k) == Double
    ensures var e := QuotedEnd(s, k);
      && (e == |s| || Mode(s, e) == Plain)
      && forall p :: k <= p < e ==> Mode(s, p) == Double || s[p] == '"'
    decreases |s| - k
  {
    if k < |s| {
      if s[k] != '"' {
        QuotedEndMode(s, k + 1);
      } else if k + 1 < |s| && s[k + 1] == '"' {
        PairSkip(s, k);
        QuotedEndMode(s, k + 2);
      }
    }
  }

  lemma {:induction false} WordEndMode(s: string, k: nat)
    requires k <= |s| && Mode(s, k) == Plain
    ensures var e := WordEnd(s, k);
      && Mode(s, e) == Plain
      && (forall p :: k <= p < e ==> WordChar(s[p]))
      && (e < |s| ==> !WordChar(s[e]))
    decreases |s| - k
  {
    if k < |s| && WordChar(s[k]) { WordEndMode(s, k + 1); }
  }

  /** Where a literal is open, and nowhere else, the scan thinks so. */
  predicate InStep(s: string, k: nat, inSingle: bool)
    requires k <= |s|
  {
    Mode(s, k) == if inSingle then Single else Plain
  }

  lemma TokenMode(s: string, k: nat, inSingle: bool)
    requires k < |s| && InStep(s, k, inSingle)
    ensures var e := TokenEnd(s, k, inSingle);
      && (e == |s| || InStep(s, e, TokenQuoting(s, k, inSingle)))
      && forall p :: k < p < e && Mode(s, p) == Plain ==> WordChar(s[p - 1]) || s[p] == '"' || s[p] == '\''
  {
    if s[k] == '\'' {
      if inSingle && k + 1 < |s| && s[k + 1] == '\'' { PairSkip(s, k); }
    } else if !inSingle && s[k] == '"' {
      QuotedEndMode(s, k + 1);
    } else if !inSingle && WordStart(s[k]) {
      WordEndMode(s, k + 1);
    }
  }

  /** The token is a quoted name, or a word that goes on to the right as far as words go. */
  predicate WholeName(s: string, p: nat, e: nat)
    requires p < e <= |s|
  {
    s[p] == '"'
    || (WordStart(s[p]) && (forall q :: p <= q < e ==> WordChar(s[q])) && (e < |s| ==> !WordChar(s[e])))
  }

  lemma FirstIdentifier(s: string, k: nat, inSingle: bool)
    requires k < |s| && InStep(s, k, inSingle) && Lex(s, k, inSingle)[0].Ident?
    ensures Mode(s, k) == Plain && WholeName(s, k, TokenEnd(s, k, inSingle))
  {
    if !inSingle && s[k] != '"' { WordEndMode(s, k + 1); }
    hide QuotedEnd, WordEnd;
  }

  /** Where a token of the rest stands in the whole. */
  lemma TokenBehind(ts: seq<Token>, rest: seq<Token>, j: nat)
    requires ts != [] && ts == [ts[0]] + rest && j < |rest|
    ensures |Render(ts[..j + 1])| == |ts[0].sql| + |Render(rest[..j])| && ts[j + 1] == rest[j]
    ensures Render(ts[..0]) == ""
  {
    assert ts[..j + 1] == [ts[0]] + rest[..j];
    RenderOne(ts[0], rest[..j]);
  }

  lemma NothingRendered(ts: seq<Token>)
    ensures Render(ts[..0]) == ""
  {
  }

  /** Token j of the scan from k is this piece of the text. */
  predicate StandsAt(s: string, k: nat, ts: seq<Token>, j: nat, p: nat, e: nat) {
    j < |ts| && k + |Render(ts[..j])| == p && p < e <= |s| && ts[j].sql == s[p..e]
  }

  /**
   Every identifier of the scan stands outside literals and is whole: a quoted
   name, or a word with no word character behind it.  So renaming A leaves A1
   alone, and what a literal says.
   */
  lemma {:induction false} IdentifiersWhole(s: string, k: nat, inSingle: bool, j: nat) returns (p: nat, e: nat)
    requires k <= |s| && InStep(s, k, inSingle) && j < |Lex(s, k, inSingle)| && Lex(s, k, inSingle)[j].Ident?
    ensures StandsAt(s, k, Lex(s, k, inSingle), j, p, e) && Mode(s, p) == Plain && WholeName(s, p, e)
    decreases |s| - k
  {
    hide Lex, TokenEnd, TokenQuoting, WholeName, InStep, Render, Mode;
    var ts := Lex(s, k, inSingle);
    NothingLexed(s, inSingle);
    e := TokenEnd(s, k, inSingle);
    LexStep(s, k, inSingle);
    NothingRendered(ts);
    if j == 0 {
      p := k;
      FirstIdentifier(s, k, inSingle);
    } else {
      var quoting := TokenQuoting(s, k, inSingle);
      var rest := Lex(s, e, quoting);
      TokenMode(s, k, inSingle);
      NothingLexed(s, quoting);
      TokenBehind(ts, rest, j - 1);
      p, e := IdentifiersWhole(s, e, quoting, j - 1);
    }
  }

  lemma NothingLexed(s: string, inSingle: bool)
    ensures Lex(s, |s|, inSingle) == []
  {
  }

  lemma FirstWord(s: string, k: nat, inSingle: bool)
    requires k < |s| && InStep(s, k, inSingle) && Mode(s, k) == Plain && WordStart(s[k])
    ensures Lex(s, k, inSingle)[0] == Ident(s[k..WordEnd(s, k + 1)]) && TokenEnd(s, k, inSingle) == WordEnd(s, k + 1)
  {
  }

  lemma NotInside(s: string, k: nat, inSingle: bool, p: nat)
    requires k < p < |s| && InStep(s, k, inSingle)
    requires Mode(s, p) == Plain && WordStart(s[p]) && !WordChar(s[p - 1])
    ensures TokenEnd(s, k, inSingle) <= p
  {
    TokenMode(s, k, inSingle);
    hide TokenEnd, TokenQuoting, Mode, InStep;
  }

  /** And no word that begins outside literals and quoted names is missed. */
  lemma {:induction false} WordsFound(s: string, k: nat, inSingle: bool, p: nat) returns (j: nat)
    requires k <= p < |s| && InStep(s, k, inSingle)
    requires Mode(s, p) == Plain && WordStart(s[p]) && (p > k ==> !WordChar(s[p - 1]))
    ensures StandsAt(s, k, Lex(s, k, inSingle), j, p, WordEnd(s, p + 1)) && Lex(s, k, inSingle)[j].Ident?
    decreases |s| - k
  {
    hide Lex, TokenEnd, TokenQuoting, InStep, Render, Mode, WordEnd, WordStart, WordChar;
    var ts := Lex(s, k, inSingle);
    LexStep(s, k, inSingle);
    NothingRendered(ts);
    if k == p {
      j := 0;
      FirstWord(s, k, inSingle);
    } else {
      var e, quoting := TokenEnd(s, k, inSingle), TokenQuoting(s, k, inSingle);
      TokenMode(s, k, inSingle);
      NotInside(s, k, inSingle, p);
      var i := WordsFound(s, e, quoting, p);
      TokenBehind(ts, Lex(s, e, quoting), i);
      j := i + 1;
    }
  }

  function RenamedText(s: string, k: nat, inSingle: bool, wanted: string, newSql: string): string
    requires k <= |s|
  {
    Render(Rename(Lex(s, k, inSingle), wanted, newSql))
  }

  function Replaced(token: string, wanted: string, newSql: string): string {
    if Normalize(token) == wanted then newSql else token
  }

  lemma RenamedHead(t: Token, rest: seq<Token>, wanted: string, newSql: string)
    ensures Render(Rename([t] + rest, wanted, newSql)) ==
      (if t.Ident? then Replaced(t.sql, wanted, newSql) else t.sql) + Render(Rename(rest, wanted, newSql))
  {
    hide Rename, Normalize;
    RenameOne(t, rest, wanted, newSql);
    RenderOne(Renamed(t, wanted, newSql), Rename(rest, wanted, newSql));
  }

  /** One token of the scan. */
  lemma RenamedStep(s: string, k: nat, inSingle: bool, wanted: string, newSql: string)
    requires k < |s|
    ensures RenamedText(s, k, inSingle, wanted, newSql) ==
      if s[k] == '\'' then
        if inSingle && k + 1 < |s| && s[k + 1] == '\'' then "''" + RenamedText(s, k + 2, true, wanted, newSql)
        else "'" + RenamedText(s, k + 1, !inSingle, wanted, newSql)
      else if inSingle then [s[k]] + RenamedText(s, k + 1, true, wanted, newSql)
      else if s[k] == '"' then
        Replaced(s[k..QuotedEnd(s, k + 1)], wanted, newSql) + RenamedText(s, QuotedEnd(s, k + 1), false, wanted, newSql)
      else if WordStart(s[k]) then
        Replaced(s[k..WordEnd(s, k + 1)], wanted, newSql) + RenamedText(s, WordEnd(s, k + 1), false, wanted, newSql)
      else [s[k]] + RenamedText(s, k + 1, false, wanted, newSql)
  {
    hide Rename, Normalize, Render;
    var ts := Lex(s, k, inSingle);
    RenamedHead(ts[0], ts[1..], wanted, newSql);
    assert ts == [ts[0]] + ts[1..];
  }

  lemma NothingLeft(s: string, inSingle: bool, wanted: string, newSql: string)
    ensures RenamedText(s, |s|, inSingle, wanted, newSql) == ""
  {
  }

  /** The inner loop over a quoted identifier, doubled quotes passed over. */
  method EndOfQuoted(text: string, start: nat) returns (i: nat)
    requires start <= |text|
    ensures i == QuotedEnd(text, start)
  {
    i := start;
    while i < |text|
      invariant start <= i <= |text|
      invariant QuotedEnd(text, i) == QuotedEnd(text, start)
      decreases |text| - i
    {
      if text[i] == '"' {
        if i + 1 < |text| && text[i + 1] == '"' {
          i := i + 2;
          continue;
        }
        return i + 1;
      }
      i := i + 1;
    }
  }

  /** The inner loop over an unquoted identifier. */
  method EndOfWord(text: string, start: nat) returns (i: nat)
    requires start <= |text|
    ensures i == WordEnd(text, start)
  {
    i := start;
    while i < |text| && WordChar(text[i])
      invariant start <= i <= |text|
      invariant WordEnd(text, i) == WordEnd(text, start)
    {
      i := i + 1;
    }
  }

  /** Appending a piece to the output takes it off the front of what is left to write. */
  lemma Appended(out: string, piece: string, rest: string, whole: string)
    requires out + (piece + rest) == whole
    ensures (out + piece) + rest == whole
  {
  }

  /** The character loop: copy literals, collect identifiers, replace those that name the wanted column. */
  method ReplaceIdentifierReferences(text: string, oldNormalized: string, newSql: string) returns (out: string)
    ensures out == RenamedText(text, 0, false, oldNormalized, newSql)
  {
    hide Rename, Normalize, RenamedText, QuotedEnd, WordEnd, WordStart, Replaced;
    out := "";
    var i: nat := 0;
    var inSingle := false;
    ghost var whole := RenamedText(text, 0, false, oldNormalized, newSql);
    while i < |text|
      invariant 0 <= i <= |text|
      invariant out + RenamedText(text, i, inSingle, oldNormalized, newSql) == whole
      decreases |text| - i
    {
      var ch := text[i];
      var piece := [ch];
      RenamedStep(text, i, inSingle, oldNormalized, newSql);
      if ch == '\'' {
        if inSingle && i + 1 < |text| && text[i + 1] == '\'' {
          piece := "''";
          i := i + 2;
        } else {
          inSingle := !inSingle;
          i := i + 1;
        }
      } else if inSingle {
        i := i + 1;
      } else if ch == '"' {
        var start := i;
        i := EndOfQuoted(text, start + 1);
        piece := Replaced(text[start..i], oldNormalized, newSql);
      } else if WordStart(ch) {
        var start := i;
        i := EndOfWord(text, start + 1);
        piece := Replaced(text[start..i], oldNormalized, newSql);
      } else {
        i := i + 1;
      }
      Appended(out, piece, RenamedText(text, i, inSingle, oldNormalized, newSql), whole);
      out := out + piece;
    }
    NothingLeft(text, inSingle, oldNormalized, newSql);
  }
}
