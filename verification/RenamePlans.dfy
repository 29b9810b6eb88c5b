/**
 planRename on a stored CREATE TABLE: a list of definitions, each a list of
 tokens without blanks.  Renaming rewrites the column's own definition, gives it
 a FOR COLUMN clause that keeps the system name, and rewrites every reference.
 */
module RenamePlans {
  import opened Wrappers
  import opened Scanners
  import opened ScannerTheorems
  import opened Identifiers
  import opened ColumnRename
  import ArrayText

  const CONSTRAINT_WORDS: set<string> := {"CONSTRAINT", "PRIMARY", "UNIQUE", "FOREIGN", "CHECK", "EXCLUDE"}

  predicate IsWord(t: Token, word: string) { t.Ident? && UpperAll(t.sql) == word }

  predicate IsConstraint(d: Definition) {
    d != [] && d[0].Ident? && UpperAll(d[0].sql) in CONSTRAINT_WORDS
  }

  datatype ColumnParts = ColumnParts(nameSql: string, systemNameSql: Option<string>, rest: Definition)

  predicate HasSystemName(d: Definition) {
    |d| > 4 && IsWord(d[1], "FOR") && IsWord(d[2], "COLUMN") && d[3].Ident?
  }

  /** name [FOR COLUMN system-name] rest, with a rest that is not empty. */
  function ParseColumnDefinition(d: Definition): Option<ColumnParts> {
    if IsConstraint(d) || |d| < 2 || !d[0].Ident? then None
    else if HasSystemName(d) then Some(ColumnParts(d[0].sql, Some(d[3].sql), d[4..]))
    else Some(ColumnParts(d[0].sql, None, d[1..]))
  }

  /** The normalized name of the column a definition defines, if it defines one. */
  function NameOf(d: Definition): Option<string> {
    var column := ParseColumnDefinition(d);
    if column.Some? then Some(Normalize(column.value.nameSql)) else None
  }

  // ---- the plan ----

  /** Both names already normalized once; planRename normalizes them again. */
  datatype Request = Request(oldColumn: string, newColumn: string, newColumnSql: string)

  predicate SystemChar(c: char) { 'A' <= c <= 'Z' || c == '_' || c == '$' || c == '#' || c == '@' }

  predicate OrdinarySystemName(s: string) {
    1 <= |s| <= 10 && SystemChar(s[0]) && forall k :: 0 < k < |s| ==> SystemChar(s[k]) || '0' <= s[k] <= '9'
  }

  function RenderSystemIdentifier(name: string): string {
    if OrdinarySystemName(UpperAll(name)) then UpperAll(name)
    else "\"" + ReplaceQuotes(name) + "\""
  }

  /** FOR COLUMN is left out when the SQL name is the system name. */
  function SystemClause(newSql: string, system: string): Definition {
    if Normalize(newSql) == Normalize(system) then []
    else [Ident("FOR"), Ident("COLUMN"), Ident(RenderSystemIdentifier(system))]
  }

  function RenamedDefinition(d: Definition, wanted: string, newSql: string, system: string): Definition {
    if NameOf(d) == Some(wanted) then
      [Ident(newSql)] + SystemClause(newSql, system) + Rename(ParseColumnDefinition(d).value.rest, wanted, newSql)
    else Rename(d, wanted, newSql)
  }

  /** Position of the last definition of the column, or -1. */
  function Target(ds: seq<Definition>, wanted: string): (k: int)
    ensures -1 <= k < |ds|
    ensures k >= 0 ==> NameOf(ds[k]) == Some(wanted)
    ensures forall j :: k < j < |ds| ==> NameOf(ds[j]) != Some(wanted)
  {
    if ds == [] then -1
    else if NameOf(ds[|ds| - 1]) == Some(wanted) then |ds| - 1
    else Target(ds[..|ds| - 1], wanted)
  }

  predicate Clashes(ds: seq<Definition>, target: int, name: string) {
    exists k :: 0 <= k < |ds| && k != target && NameOf(ds[k]) == Some(name)
  }

  function AllRenamed(ds: seq<Definition>, wanted: string, newSql: string, system: string): (r: seq<Definition>)
    ensures |r| == |ds|
    ensures forall k :: 0 <= k < |ds| ==> r[k] == RenamedDefinition(ds[k], wanted, newSql, system)
  {
    seq(|ds|, k requires 0 <= k < |ds| => RenamedDefinition(ds[k], wanted, newSql, system))
  }

  function Plan(ds: seq<Definition>, request: Request, system: string): Option<seq<Definition>> {
    var target := Target(ds, Normalize(request.oldColumn));
    if target < 0 || Clashes(ds, target, Normalize(request.newColumn)) then None
    else Some(AllRenamed(ds, Normalize(request.oldColumn), request.newColumnSql, system))
  }

  /** planRename: one pass that rewrites and finds the column, one pass that looks for the new name. */
  method PlanRename(ds: seq<Definition>, request: Request, system: string) returns (r: Option<seq<Definition>>)
    ensures r == Plan(ds, request, system)
  {
    hide Normalize, SystemClause, Rename, IsConstraint, HasSystemName;
    var oldNormalized := Normalize(request.oldColumn);
    var newNormalized := Normalize(request.newColumn);
    var target := -1;
    var definitions: seq<Definition> := [];
    var index := 0;
    while index < |ds|
      invariant 0 <= index <= |ds| && |definitions| == index
      invariant forall k :: 0 <= k < index ==>
        definitions[k] == RenamedDefinition(ds[k], oldNormalized, request.newColumnSql, system)
      invariant target == Target(ds[..index], oldNormalized)
    {
      var definition := ds[index];
      assert ds[..index + 1][..index] == ds[..index];
      var column := ParseColumnDefinition(definition);
      if column.None? || Normalize(column.value.nameSql) != oldNormalized {
        definitions := definitions + [Rename(definition, oldNormalized, request.newColumnSql)];
      } else {
        target := index;
        var clause := SystemClause(request.newColumnSql, system);
        definitions := definitions
          + [[Ident(request.newColumnSql)] + clause + Rename(column.value.rest, oldNormalized, request.newColumnSql)];
      }
      index := index + 1;
    }
    assert ds[..index] == ds;
    assert definitions == AllRenamed(ds, oldNormalized, request.newColumnSql, system);
    if target < 0 { return None; }
    var clash := HasOther(ds, target, newNormalized);
    return if clash then None else Some(definitions);
  }

  /** The second pass: is the name already that of another column? */
  method HasOther(ds: seq<Definition>, target: int, name: string) returns (found: bool)
    ensures found == Clashes(ds, target, name)
  {
    hide Normalize, IsConstraint, HasSystemName;
    var i := 0;
    while i < |ds|
      invariant 0 <= i <= |ds|
      invariant forall k :: 0 <= k < i && k != target ==> NameOf(ds[k]) != Some(name)
    {
      if i != target {
        var column := ParseColumnDefinition(ds[i]);
        if column.Some? && Normalize(column.value.nameSql) == name {
          assert NameOf(ds[i]) == Some(name);
          return true;
        }
      }
      i := i + 1;
    }
    return false;
  }

  // ---- every plan keeps the table in shape ----

  /** No two definitions define the same column. */
  ghost predicate DistinctNames(ds: seq<Definition>) {
    forall j, k :: 0 <= j < k < |ds| && NameOf(ds[j]).Some? ==> NameOf(ds[j]) != NameOf(ds[k])
  }

  predicate Reserved(name: string) { name in CONSTRAINT_WORDS || name == "FOR" || name == "COLUMN" }

  /** An SQL name that is no keyword of a definition, neither as written nor as the planner reads it. */
  predicate Nameable(sql: string) {
    !Reserved(UpperAll(sql)) && !Reserved(Normalize(sql)) && !Reserved(Normalize(Normalize(sql)))
  }

  /** And means the same however often it is normalized. */
  predicate Proper(sql: string) { Regular(sql) && Nameable(sql) }

  /** A word of the grammar is written without quotes or blanks, so it normalizes to itself in upper case. */
  lemma WordNormal(t: Token, word: string)
    requires IsWord(t, word) && Unquoted(word)
    ensures Normalize(t.sql) == word
  {
    forall k | 0 <= k < |t.sql| ensures t.sql[k] != '"' && !IsSpace(t.sql[k]) {
      assert word[k] == Upper(t.sql[k]);
    }
    UnquotedRegular(t.sql);
  }

  lemma ConstraintWordNormal(d: Definition)
    requires IsConstraint(d)
    ensures Normalize(d[0].sql) == UpperAll(d[0].sql)
  {
    hide Normalize, UpperAll, Unquoted;
    ConstraintWordUnquoted(UpperAll(d[0].sql));
    WordNormal(d[0], UpperAll(d[0].sql));
  }

  lemma ConstraintWordUnquoted(word: string)
    requires word in CONSTRAINT_WORDS
    ensures Unquoted(word)
  {
  }

  /** A table constraint whose first word is the name looked for: the planner rewrites that word too. */
  predicate KeywordHit(d: Definition, wanted: string) {
    IsConstraint(d) && |d| >= 2 && Normalize(d[0].sql) == wanted
  }

  /** The column a definition defines after the plan. */
  lemma RenamedNameExact(d: Definition, wanted: string, newSql: string, system: string)
    ensures NameOf(RenamedDefinition(d, wanted, newSql, system)) ==
      if NameOf(d) != Some(wanted) && !KeywordHit(d, wanted) then NameOf(d)
      else if UpperAll(newSql) in CONSTRAINT_WORDS then None
      else Some(Normalize(newSql))
  {
    hide Normalize, UpperAll, RenderSystemIdentifier;
  }

  lemma KeywordHitIsWord(d: Definition, wanted: string)
    requires KeywordHit(d, wanted)
    ensures wanted in CONSTRAINT_WORDS
  {
    ConstraintWordNormal(d);
    hide Normalize, UpperAll;
  }

  lemma RenamedName(d: Definition, wanted: string, newSql: string, system: string)
    requires wanted !in CONSTRAINT_WORDS && UpperAll(newSql) !in CONSTRAINT_WORDS
    ensures NameOf(RenamedDefinition(d, wanted, newSql, system)) ==
      if NameOf(d) == Some(wanted) then Some(Normalize(newSql)) else NameOf(d)
  {
    if KeywordHit(d, wanted) { KeywordHitIsWord(d, wanted); }
    RenamedNameExact(d, wanted, newSql, system);
    hide NameOf, RenamedDefinition, KeywordHit, Normalize, UpperAll;
  }

  /** A rename is accepted exactly when the table has the column, and no other column the new name. */
  lemma RenameAccepted(ds: seq<Definition>, request: Request, system: string)
    requires DistinctNames(ds)
    ensures var wanted := Normalize(request.oldColumn); var name := Normalize(request.newColumn);
      Plan(ds, request, system).Some? <==>
        && (exists k :: 0 <= k < |ds| && NameOf(ds[k]) == Some(wanted))
        && (wanted == name || forall k :: 0 <= k < |ds| ==> NameOf(ds[k]) != Some(name))
  {
    hide Normalize, ParseColumnDefinition, RenamedDefinition, NameOf;
  }

  /** The planner rewrites the column that was asked for exactly when its name survives being normalized twice. */
  lemma AskedColumnRenamed(ds: seq<Definition>, oldSql: string, newSql: string, system: string)
    requires Plan(ds, Request(Normalize(oldSql), Normalize(newSql), newSql), system).Some?
    ensures var target := Target(ds, Normalize(Normalize(oldSql)));
      0 <= target < |ds| && (NameOf(ds[target]) == Some(Normalize(oldSql)) <==> Regular(oldSql))
  {
    hide Normalize, ParseColumnDefinition, RenamedDefinition;
  }

  /** A definition other than the target would collide with the new name: it has it already, or gets it as a keyword. */
  predicate Collides(ds: seq<Definition>, k: nat, wanted: string, newSql: string)
    requires k < |ds|
  {
    k != Target(ds, wanted) && (NameOf(ds[k]) == Some(Normalize(newSql)) || KeywordHit(ds[k], wanted))
  }

  /** The plan changes the name of its target to the new one, and no other name. */
  predicate OneNameChanges(ds: seq<Definition>, after: seq<Definition>, target: int, newSql: string) {
    |after| == |ds| && forall k :: 0 <= k < |ds| ==>
      NameOf(after[k]) == if k == target then Some(Normalize(newSql)) else NameOf(ds[k])
  }

  /**
   Every plan keeps the number and the order of the definitions.  It changes
   exactly one name if and only if the new name is no constraint keyword and no
   constraint begins with the word renamed; and it keeps the names apart if and
   only if no other definition has the new name or is such a constraint, or the
   new name is a keyword, so that the column is lost.
   */
  lemma PlanKeeps(ds: seq<Definition>, oldSql: string, newSql: string, system: string)
    requires DistinctNames(ds)
    requires Plan(ds, Request(Normalize(oldSql), Normalize(newSql), newSql), system).Some?
    ensures var after := Plan(ds, Request(Normalize(oldSql), Normalize(newSql), newSql), system).value;
      var wanted := Normalize(Normalize(oldSql));
      && |after| == |ds| && 0 <= Target(ds, wanted) < |ds|
      && (OneNameChanges(ds, after, Target(ds, wanted), newSql) <==>
            UpperAll(newSql) !in CONSTRAINT_WORDS && forall k :: 0 <= k < |ds| ==> !KeywordHit(ds[k], wanted))
      && (DistinctNames(after) <==>
            UpperAll(newSql) in CONSTRAINT_WORDS
            || forall k :: 0 <= k < |ds| ==> !Collides(ds, k, wanted, newSql))
  {
    var wanted := Normalize(Normalize(oldSql));
    var after := AllRenamed(ds, wanted, newSql, system);
    var target := Target(ds, wanted);
    assert forall k :: 0 <= k < |ds| && k != target ==> NameOf(ds[k]) != Some(wanted);
    forall k | 0 <= k < |ds|
      ensures NameOf(after[k]) ==
        if k != target && !KeywordHit(ds[k], wanted) then NameOf(ds[k])
        else if UpperAll(newSql) in CONSTRAINT_WORDS then None
        else Some(Normalize(newSql))
      ensures KeywordHit(ds[k], wanted) ==> NameOf(ds[k]) == None && k != target
    {
      RenamedNameExact(ds[k], wanted, newSql, system);
    }
    hide NameOf, RenamedDefinition, KeywordHit, Normalize, UpperAll;
    NamesApart(ds, after, target, wanted, newSql);
  }

  lemma NamesApart(ds: seq<Definition>, after: seq<Definition>, target: nat, wanted: string, newSql: string)
    requires DistinctNames(ds) && |after| == |ds| && target == Target(ds, wanted) < |ds|
    requires forall k :: 0 <= k < |ds| ==> KeywordHit(ds[k], wanted) ==> NameOf(ds[k]) == None && k != target
    requires forall k :: 0 <= k < |ds| ==>
      NameOf(after[k]) ==
        if k != target && !KeywordHit(ds[k], wanted) then NameOf(ds[k])
        else if UpperAll(newSql) in CONSTRAINT_WORDS then None
        else Some(Normalize(newSql))
    ensures OneNameChanges(ds, after, target, newSql) <==>
      UpperAll(newSql) !in CONSTRAINT_WORDS && forall k :: 0 <= k < |ds| ==> !KeywordHit(ds[k], wanted)
    ensures DistinctNames(after) <==>
      UpperAll(newSql) in CONSTRAINT_WORDS || forall k :: 0 <= k < |ds| ==> !Collides(ds, k, wanted, newSql)
  {
    hide NameOf, KeywordHit, Normalize, UpperAll;
    if UpperAll(newSql) in CONSTRAINT_WORDS || forall k :: 0 <= k < |ds| ==> !Collides(ds, k, wanted, newSql) {
      forall j, k | 0 <= j < k < |ds| && NameOf(after[j]).Some? ensures NameOf(after[j]) != NameOf(after[k]) {
        assert j != target ==> UpperAll(newSql) in CONSTRAINT_WORDS || !Collides(ds, j, wanted, newSql);
        assert k != target ==> UpperAll(newSql) in CONSTRAINT_WORDS || !Collides(ds, k, wanted, newSql);
      }
    }
    if UpperAll(newSql) !in CONSTRAINT_WORDS {
      forall k | 0 <= k < |ds| && Collides(ds, k, wanted, newSql) ensures !DistinctNames(after) {
        assert NameOf(after[k]) == NameOf(after[target]) == Some(Normalize(newSql));
      }
    }
  }

  /** Names that are no keywords and survive being normalized twice keep the table in shape. */
  lemma ProperPlanKeeps(ds: seq<Definition>, oldSql: string, newSql: string, system: string)
    requires DistinctNames(ds) && Proper(oldSql) && Proper(newSql)
    requires Plan(ds, Request(Normalize(oldSql), Normalize(newSql), newSql), system).Some?
    ensures var after := Plan(ds, Request(Normalize(oldSql), Normalize(newSql), newSql), system).value;
      var target := Target(ds, Normalize(oldSql));
      0 <= target && NameOf(ds[target]) == Some(Normalize(oldSql))
      && DistinctNames(after) && OneNameChanges(ds, after, target, newSql)
  {
    PlanKeeps(ds, oldSql, newSql, system);
    AskedColumnRenamed(ds, oldSql, newSql, system);
    forall k | 0 <= k < |ds| ensures !KeywordHit(ds[k], Normalize(oldSql)) {
      if KeywordHit(ds[k], Normalize(oldSql)) { KeywordHitIsWord(ds[k], Normalize(oldSql)); }
    }
    hide NameOf, RenamedDefinition, KeywordHit, Normalize, UpperAll, DistinctNames, OneNameChanges;
  }

  // ---- renaming there and back ----

  /** References to the column are spelled as its rendered name, and nothing is called by the new name. */
  predicate Restorable(d: Definition, oldSql: string, newSql: string) {
    forall k :: 0 <= k < |d| && d[k].Ident? ==>
      && Normalize(d[k].sql) != Normalize(newSql)
      && (Normalize(d[k].sql) == Normalize(oldSql) ==> d[k].sql == oldSql)
  }

  lemma RenameBack(d: Definition, oldSql: string, newSql: string)
    requires Normalize(oldSql) != Normalize(newSql)
    ensures Rename(Rename(d, Normalize(oldSql), newSql), Normalize(newSql), oldSql) == d <==> Restorable(d, oldSql, newSql)
  {
    hide Normalize;
    var once := Rename(d, Normalize(oldSql), newSql);
    var back := Rename(once, Normalize(newSql), oldSql);
    if back == d {
      forall k | 0 <= k < |d| && d[k].Ident?
        ensures Normalize(d[k].sql) != Normalize(newSql)
        ensures Normalize(d[k].sql) == Normalize(oldSql) ==> d[k].sql == oldSql
      {
        assert back[k] == d[k];
      }
    }
  }

  /** A column definition that renaming back restores: clause as the clause rule gives it, references restorable. */
  predicate RestorableColumn(d: Definition, oldSql: string, newSql: string, system: string) {
    var column := ParseColumnDefinition(d);
    && column.Some?
    && d == [Ident(oldSql)] + SystemClause(oldSql, system) + column.value.rest
    && Restorable(column.value.rest, oldSql, newSql)
  }

  predicate RestorableIn(d: Definition, oldSql: string, newSql: string, system: string) {
    if NameOf(d) == Some(Normalize(oldSql)) then RestorableColumn(d, oldSql, newSql, system)
    else Restorable(d, oldSql, newSql)
  }

  /** The type of a column does not begin with the word FOR. */
  predicate PlainType(d: Definition) {
    var column := ParseColumnDefinition(d);
    column.Some? ==> !IsWord(column.value.rest[0], "FOR")
  }

  /** The renamed column, parsed again: the new name, the system name unless it is the same, and the rewritten rest. */
  lemma RenamedParses(d: Definition, wanted: string, newSql: string, system: string)
    requires NameOf(d) == Some(wanted) && PlainType(d) && !Reserved(UpperAll(newSql))
    ensures var column := ParseColumnDefinition(RenamedDefinition(d, wanted, newSql, system));
      column.Some? && column.value.nameSql == newSql
      && column.value.rest == Rename(ParseColumnDefinition(d).value.rest, wanted, newSql)
      && column.value.systemNameSql ==
           if Normalize(newSql) == Normalize(system) then None else Some(RenderSystemIdentifier(system))
  {
    hide Normalize, RenderSystemIdentifier;
    var rest := Rename(ParseColumnDefinition(d).value.rest, wanted, newSql);
    var after := RenamedDefinition(d, wanted, newSql, system);
    assert !IsWord(rest[0], "FOR");
    assert UpperAll("FOR") == "FOR" && UpperAll("COLUMN") == "COLUMN";
    if SystemClause(newSql, system) == [] {
      assert after == [Ident(newSql)] + rest;
      assert after[1..] == rest;
    } else {
      assert after[4..] == rest;
    }
  }

  lemma RestIsSuffix(d: Definition, head: Definition, again: Definition)
    requires ParseColumnDefinition(d).Some?
    ensures var rest := ParseColumnDefinition(d).value.rest;
      |again| == |rest| ==> (head + again == d <==> d == head + rest && again == rest)
  {
    var rest := ParseColumnDefinition(d).value.rest;
    hide IsConstraint, HasSystemName;
    if |again| == |rest| && head + again == d {
      assert d[|d| - |rest|..] == rest;
      assert (head + again)[|head|..] == again;
    }
  }

  lemma DefinitionBack(d: Definition, oldSql: string, newSql: string, system: string)
    requires Proper(oldSql) && Proper(newSql) && Normalize(oldSql) != Normalize(newSql)
    requires PlainType(d) && NameOf(d) != Some(Normalize(newSql))
    ensures var once := RenamedDefinition(d, Normalize(oldSql), newSql, system);
      RenamedDefinition(once, Normalize(newSql), oldSql, system) == d <==> RestorableIn(d, oldSql, newSql, system)
  {
    var once := RenamedDefinition(d, Normalize(oldSql), newSql, system);
    if NameOf(d) == Some(Normalize(oldSql)) {
      var rest := ParseColumnDefinition(d).value.rest;
      var again := Rename(Rename(rest, Normalize(oldSql), newSql), Normalize(newSql), oldSql);
      RenamedParses(d, Normalize(oldSql), newSql, system);
      RenameBack(rest, oldSql, newSql);
      RestIsSuffix(d, [Ident(oldSql)] + SystemClause(oldSql, system), again);
      hide Normalize, RenderSystemIdentifier, SystemClause, Restorable, Rename, ParseColumnDefinition;
    } else {
      RenamedName(d, Normalize(oldSql), newSql, system);
      RenameBack(d, oldSql, newSql);
      hide Normalize, ParseColumnDefinition, NameOf, Restorable, Rename;
    }
  }

  /** With regular names renaming back is always accepted. */
  lemma ProperThereAndBack(ds: seq<Definition>, oldSql: string, newSql: string, system: string)
    requires Proper(oldSql) && Proper(newSql) && Normalize(oldSql) != Normalize(newSql)
    requires forall k :: 0 <= k < |ds| ==> PlainType(ds[k])
    requires Plan(ds, Request(Normalize(oldSql), Normalize(newSql), newSql), system).Some?
    ensures var once := Plan(ds, Request(Normalize(oldSql), Normalize(newSql), newSql), system).value;
      var back := Plan(once, Request(Normalize(newSql), Normalize(oldSql), oldSql), system);
      back.Some? && (back == Some(ds) <==> forall k :: 0 <= k < |ds| ==> RestorableIn(ds[k], oldSql, newSql, system))
  {
    var wanted := Normalize(oldSql);
    var renamed := Normalize(newSql);
    var once := AllRenamed(ds, wanted, newSql, system);
    hide NameOf, RenamedDefinition, RestorableIn, PlainType, Normalize;
    forall k | 0 <= k < |ds|
      ensures NameOf(once[k]) == if NameOf(ds[k]) == Some(wanted) then Some(renamed) else NameOf(ds[k])
    {
      RenamedName(ds[k], wanted, newSql, system);
    }
    var target := Target(ds, wanted);
    assert NameOf(once[target]) == Some(renamed);
    assert forall k :: 0 <= k < |ds| ==> NameOf(ds[k]) != Some(renamed);
    var back := AllRenamed(once, renamed, oldSql, system);
    forall k | 0 <= k < |ds|
      ensures back[k] == ds[k] <==> RestorableIn(ds[k], oldSql, newSql, system)
    {
      DefinitionBack(ds[k], oldSql, newSql, system);
    }
    assert Plan(once, Request(renamed, wanted, oldSql), system) == Some(back);
    if forall k :: 0 <= k < |ds| ==> RestorableIn(ds[k], oldSql, newSql, system) {
      assert back == ds;
    }
  }

  /** The second rename looks for the new name normalized twice, and finds nothing when that is another name. */
  lemma BackRefused(ds: seq<Definition>, oldSql: string, newSql: string, system: string)
    requires Nameable(oldSql) && Nameable(newSql) && !Regular(newSql)
    requires Plan(ds, Request(Normalize(oldSql), Normalize(newSql), newSql), system).Some?
    ensures var once := Plan(ds, Request(Normalize(oldSql), Normalize(newSql), newSql), system).value;
      Plan(once, Request(Normalize(newSql), Normalize(oldSql), oldSql), system) == None
  {
    var wanted := Normalize(Normalize(oldSql));
    var once := AllRenamed(ds, wanted, newSql, system);
    hide NameOf, RenamedDefinition, Normalize, UpperAll;
    forall k | 0 <= k < |ds| ensures NameOf(once[k]) != Some(Normalize(Normalize(newSql))) {
      RenamedName(ds[k], wanted, newSql, system);
    }
  }

  /** The first rename took another column, and the second gives that one the old name. */
  lemma BackElsewhere(ds: seq<Definition>, oldSql: string, newSql: string, system: string)
    requires Nameable(oldSql) && Nameable(newSql) && Regular(newSql) && !Regular(oldSql)
    requires Plan(ds, Request(Normalize(oldSql), Normalize(newSql), newSql), system).Some?
    ensures var once := Plan(ds, Request(Normalize(oldSql), Normalize(newSql), newSql), system).value;
      Plan(once, Request(Normalize(newSql), Normalize(oldSql), oldSql), system) != Some(ds)
  {
    var wanted := Normalize(Normalize(oldSql));
    var once := AllRenamed(ds, wanted, newSql, system);
    var target := Target(ds, wanted);
    RenamedName(ds[target], wanted, newSql, system);
    NamedFirst(ds[target], wanted);
    hide NameOf, Normalize, UpperAll, SystemClause, ParseColumnDefinition;
    var back := AllRenamed(once, Normalize(newSql), oldSql, system);
    assert NameOf(once[target]) == Some(Normalize(newSql));
    assert back[target][0] == Ident(oldSql);
  }

  lemma NamedFirst(d: Definition, name: string)
    requires NameOf(d) == Some(name)
    ensures d != [] && d[0].Ident? && Normalize(d[0].sql) == name
  {
    hide Normalize;
  }

  /**
   Rename, commit, rename back, with names that are no keywords: the stored
   definitions are restored if and only if both names survive being normalized
   twice, the column's own definition has the clause that the rule gives it and,
   everywhere else, references are spelled as the rendered name and the new name
   was unused.
   */
  lemma RenameThereAndBack(ds: seq<Definition>, oldSql: string, newSql: string, system: string)
    requires Nameable(oldSql) && Nameable(newSql) && Normalize(oldSql) != Normalize(newSql)
    requires forall k :: 0 <= k < |ds| ==> PlainType(ds[k])
    requires Plan(ds, Request(Normalize(oldSql), Normalize(newSql), newSql), system).Some?
    ensures var once := Plan(ds, Request(Normalize(oldSql), Normalize(newSql), newSql), system).value;
      var back := Plan(once, Request(Normalize(newSql), Normalize(oldSql), oldSql), system);
      && (Regular(oldSql) && Regular(newSql) ==> back.Some?)
      && (back == Some(ds) <==>
            Regular(oldSql) && Regular(newSql)
            && forall k :: 0 <= k < |ds| ==> RestorableIn(ds[k], oldSql, newSql, system))
  {
    hide Plan, RestorableIn, PlainType, Nameable, Normalize;
    if !Regular(newSql) {
      BackRefused(ds, oldSql, newSql, system);
    } else if !Regular(oldSql) {
      BackElsewhere(ds, oldSql, newSql, system);
    } else {
      ProperThereAndBack(ds, oldSql, newSql, system);
    }
  }

  // ---- the system name ----

  /** The system name a request names: an ordinary one in upper case, any other as it stands. */
  function SystemMeaning(system: string): string {
    if OrdinarySystemName(UpperAll(system)) then UpperAll(system) else system
  }

  /** The system name of a column: the one given by FOR COLUMN, else its SQL name. */
  function SystemNameOf(column: ColumnParts): string {
    Normalize(if column.systemNameSql.Some? then column.systemNameSql.value else column.nameSql)
  }

  /** A rendered system identifier means the name it renders. */
  lemma RenderedMeans(system: string)
    ensures Normalize(RenderSystemIdentifier(system)) == SystemMeaning(system)
  {
    if OrdinarySystemName(UpperAll(system)) {
      var upper := UpperAll(system);
      assert forall k :: 0 <= k < |upper| ==> upper[k] != '"' && !IsSpace(upper[k]);
      UnquotedRegular(upper);
      assert UpperAll(upper) == upper;
    } else {
      var quoted := "\"" + ReplaceQuotes(system) + "\"";
      QuotedSolid(quoted);
      assert ArrayText.Inner(quoted) == ReplaceQuotes(system);
      UndoubledQuotes(system);
      hide ReplaceQuotes, Undouble;
    }
  }

  lemma OrdinaryNormal(system: string)
    requires OrdinarySystemName(UpperAll(system))
    ensures Normalize(system) == UpperAll(system)
  {
    forall k | 0 <= k < |system| ensures system[k] != '"' && !IsSpace(system[k]) {
      assert UpperAll(system)[k] == Upper(system[k]);
    }
    UnquotedRegular(system);
  }

  /**
   A rename keeps the system name: in the definition the plan gives the column,
   read again, the new SQL name stands, FOR COLUMN is absent exactly when that
   is the system name already, and where it stands it gives the system name that
   was asked for.  So for an ordinary system name the column always has it.
   */
  lemma SystemNameKept(ds: seq<Definition>, oldSql: string, newSql: string, system: string)
    requires !Reserved(UpperAll(newSql)) && forall k :: 0 <= k < |ds| ==> PlainType(ds[k])
    requires Plan(ds, Request(Normalize(oldSql), Normalize(newSql), newSql), system).Some?
    ensures var after := Plan(ds, Request(Normalize(oldSql), Normalize(newSql), newSql), system).value;
      var target := Target(ds, Normalize(Normalize(oldSql)));
      && 0 <= target < |after| == |ds|
      && var column := ParseColumnDefinition(after[target]);
      && column.Some? && column.value.nameSql == newSql
      && (column.value.systemNameSql.None? <==> Normalize(newSql) == Normalize(system))
      && (column.value.systemNameSql.Some? ==> SystemNameOf(column.value) == SystemMeaning(system))
      && (OrdinarySystemName(UpperAll(system)) ==> SystemNameOf(column.value) == UpperAll(system))
  {
    var wanted := Normalize(Normalize(oldSql));
    var target := Target(ds, wanted);
    RenamedParses(ds[target], wanted, newSql, system);
    RenderedMeans(system);
    if OrdinarySystemName(UpperAll(system)) { OrdinaryNormal(system); }
    hide Normalize, NameOf, ParseColumnDefinition, RenderSystemIdentifier, RenamedDefinition, PlainType, OrdinarySystemName, UpperAll;
  }

  // ---- names whose case quotes preserve ----

  /** A table with one column named by a quoted lower-case letter. */
  const QUOTED_TABLE: seq<Definition> := [[Ident("A"), Ident("INTEGER")], [Ident("\"a\""), Ident("INTEGER")]]

  lemma PlainWord(word: string)
    requires Unquoted(word) && UpperAll(word) == word
    ensures Normalize(word) == word
  {
    hide Normalize, UpperAll, Unquoted;
    UnquotedRegular(word);
  }

  lemma QuotedTableWords()
    ensures Normalize("INTEGER") == "INTEGER" && Normalize("A") == "A" && Normalize("\"a\"") == "a" && Normalize("a") == "A"
    ensures UpperAll("A") == "A" && UpperAll("\"a\"")[0] == '"'
  {
    hide Normalize;
    QuotedNotRegular();
    assert UpperAll("A") == "A" && UpperAll("INTEGER") == "INTEGER";
    PlainWord("A");
    PlainWord("INTEGER");
  }

  lemma QuotedTableNames()
    ensures NameOf(QUOTED_TABLE[0]) == Some("A") && NameOf(QUOTED_TABLE[1]) == Some("a")
  {
    QuotedTableWords();
    hide Normalize, UpperAll;
  }

  /** Asked to rename the quoted column "a", the planner rewrites the column A instead. */
  lemma QuotedNameMissed(newSql: string, system: string)
    requires Normalize(newSql) == "B" && Normalize("B") == "B"
    ensures var plan := Plan(QUOTED_TABLE, Request(Normalize("\"a\""), "B", newSql), system);
      plan.Some? && plan.value[1] == QUOTED_TABLE[1] && plan.value[0] != QUOTED_TABLE[0]
  {
    QuotedTableWords();
    QuotedTableNames();
    hide Normalize, ParseColumnDefinition, NameOf, SystemClause;
    assert QUOTED_TABLE[..1] == [QUOTED_TABLE[0]];
    assert Target(QUOTED_TABLE[..1], "A") == 0;
    assert RenamedDefinition(QUOTED_TABLE[0], "A", newSql, system)[0] == Ident(newSql);
  }

  /** A table whose second column has the name that the first is to get. */
  const TAKEN_TABLE: seq<Definition> := [[Ident("A"), Ident("INTEGER")], [Ident("\"b\""), Ident("INTEGER")]]

  lemma QuotedB()
    ensures Normalize("\"b\"") == "b" && Normalize("b") == "B"
    ensures UpperAll("\"b\"") !in CONSTRAINT_WORDS
  {
    var q := "\"b\"";
    assert TrimStart(q) == q && TrimEnd(q) == q;
    UnquotedRegular("b");
    assert UpperAll("b") == "B" && UpperAll(q)[0] == '"';
    assert q[1..2] == "b" && Undouble("b") == "b";
  }

  lemma TakenTableNames()
    ensures Normalize("\"b\"") == "b" && Normalize("b") == "B" && Normalize("A") == "A"
    ensures NameOf(TAKEN_TABLE[0]) == Some("A") && NameOf(TAKEN_TABLE[1]) == Some("b")
    ensures UpperAll("\"b\"") !in CONSTRAINT_WORDS
  {
    hide Normalize;
    QuotedB();
    assert UpperAll("A") == "A";
    PlainWord("A");
  }

  /** Renaming A to the quoted "b" is accepted although there is a column "b": the clash test looks for B. */
  lemma DuplicateAccepted(system: string)
    ensures DistinctNames(TAKEN_TABLE)
    ensures var plan := Plan(TAKEN_TABLE, Request(Normalize("A"), Normalize("\"b\""), "\"b\""), system);
      plan.Some? && !DistinctNames(plan.value)
  {
    TakenTableNames();
    hide Normalize, ParseColumnDefinition, NameOf, SystemClause, UpperAll;
    assert TAKEN_TABLE[..1] == [TAKEN_TABLE[0]];
    assert Target(TAKEN_TABLE[..1], "A") == 0;
    assert Collides(TAKEN_TABLE, 1, "A", "\"b\"");
    PlanKeeps(TAKEN_TABLE, "A", "\"b\"", system);
  }
}
