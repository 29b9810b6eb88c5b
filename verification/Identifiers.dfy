/** SQL identifiers as the DDL registries read them: quoted, or folded to upper case. */
module Identifiers {
  import opened Scanners
  import opened ScannerTheorems
  import ArrayText

  function UpperAll(s: string): (r: string)
    ensures |r| == |s| && forall k :: 0 <= k < |s| ==> r[k] == Upper(s[k])
  {
    seq(|s|, k requires 0 <= k < |s| => Upper(s[k]))
  }

  /** replace(/""/g, '"') */
  function Undouble(s: string): string {
    if |s| < 2 then s
    else if s[0] == '"' && s[1] == '"' then "\"" + Undouble(s[2..])
    else [s[0]] + Undouble(s[1..])
  }

  /** replace(/"/g, '""') */
  function ReplaceQuotes(s: string): string {
    if s == "" then "" else (if s[0] == '"' then "\"\"" else [s[0]]) + ReplaceQuotes(s[1..])
  }

  lemma {:induction false} UndoubledQuotes(s: string)
    ensures Undouble(ReplaceQuotes(s)) == s
  {
    if s != "" {
      UndoubledQuotes(s[1..]);
      var rest := ReplaceQuotes(s[1..]);
      if s[0] == '"' {
        var r := "\"\"" + rest;
        assert r[2..] == rest;
      } else {
        var r := [s[0]] + rest;
        assert r[1..] == rest;
      }
    }
  }

  predicate IsQuoted(s: string) { s != "" && s[0] == '"' && s[|s| - 1] == '"' }

  /** normalizeIdentifier of the column-rename registry: quoted names keep their case. */
  function Normalize(value: string): string {
    var t := Trim(value);
    if IsQuoted(t) then Undouble(ArrayText.Inner(t)) else UpperAll(t)
  }

  /** Normalizing an already normalized name changes nothing. */
  predicate Regular(sql: string) { Normalize(Normalize(sql)) == Normalize(sql) }

  predicate Unquoted(sql: string) {
    forall k :: 0 <= k < |sql| ==> sql[k] != '"' && !IsSpace(sql[k])
  }

  lemma TrimSolid(s: string)
    requires Unquoted(s)
    ensures Trim(s) == s
  {
  }

  lemma QuotedSolid(q: string)
    requires |q| >= 2 && q[0] == '"' && q[|q| - 1] == '"'
    ensures Trim(q) == q
  {
  }

  /** Names written without quotes are regular, whatever their case. */
  lemma UnquotedRegular(sql: string)
    requires Unquoted(sql)
    ensures Normalize(sql) == UpperAll(sql) && Regular(sql)
  {
    TrimSolid(sql);
    TrimSolid(UpperAll(sql));
    assert UpperAll(UpperAll(sql)) == UpperAll(sql);
  }

  /** Quoted names in lower case are not: the second pass folds them. */
  lemma QuotedNotRegular()
    ensures Normalize("\"a\"") == "a" && Normalize("a") == "A" && !Regular("\"a\"")
  {
    var q := "\"a\"";
    assert TrimStart(q) == q && TrimEnd(q) == q;
    assert ArrayText.Inner(q) == "a";
    assert TrimStart("a") == "a" && TrimEnd("a") == "a";
    assert UpperAll("a") == "A";
  }

  // ---- names joined by dots ----

  lemma FirstDot(a: string, b: string)
    requires '.' !in a
    ensures var x := a + "." + b;
      x[|a|] == '.' && (forall k :: 0 <= k < |a| ==> x[k] != '.') && x[..|a|] == a && x[|a| + 1..] == b
  {
  }

  lemma SplitAtDot(a: string, b: string, c: string, d: string)
    requires '.' !in a && '.' !in c && a + "." + b == c + "." + d
    ensures a == c && b == d
  {
    FirstDot(a, b);
    FirstDot(c, d);
  }
}
