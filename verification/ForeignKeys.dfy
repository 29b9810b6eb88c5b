/**
 Aligning the types of foreign-key columns with the registered types of the
 columns they reference.  A definition is a column, split into name, type and
 the rest, or a foreign key, or anything else.
 */
module ForeignKeys {
  import opened Wrappers
  import opened Scanners
  import opened Identifiers
  import ArrayText

  /** normalizeIdentifier of this registry folds quoted names too. */
  function Folded(value: string): string {
    var t := Trim(value);
    if IsQuoted(t) then UpperAll(Undouble(ArrayText.Inner(t))) else UpperAll(t)
  }

  function TypeKey(schema: string, table: string, column: string): string {
    Folded(schema) + "." + Folded(table) + "." + Folded(column)
  }

  /** trim, one blank for every run of white space, upper case */
  function NormalizeType(s: string): string { UpperAll(Collapse(Trim(s))) }

  function Collapse(s: string): string {
    if s == "" then ""
    else if IsSpace(s[0]) && |s| > 1 && IsSpace(s[1]) then Collapse(s[1..])
    else (if IsSpace(s[0]) then " " else [s[0]]) + Collapse(s[1..])
  }

  predicate Equivalent(a: string, b: string) { NormalizeType(a) == NormalizeType(b) }

  datatype Definition =
    | Column(name: string, ctype: string, rest: string)
    | ForeignKey(constraint: Option<string>, children: seq<string>, schema: string, table: string, parents: seq<string>)
    | Other(text: string)

  type Types = map<string, string>

  predicate Defines(d: Definition, name: string) { d.Column? && Folded(d.name) == name }

  /** columns.get(name): a later definition of the same column replaces an earlier one. */
  function ColumnAt(ds: seq<Definition>, name: string): (k: int)
    ensures -1 <= k < |ds|
    ensures k >= 0 ==> Defines(ds[k], name)
    ensures forall j :: k < j < |ds| ==> !Defines(ds[j], name)
  {
    if ds == [] then -1
    else if Defines(ds[|ds| - 1], name) then |ds| - 1
    else ColumnAt(ds[..|ds| - 1], name)
  }

  // ---- the pairs a CREATE TABLE constrains ----

  /** Definition k is to have the registered type `parent`. */
  datatype Pair = Pair(k: nat, parent: string)

  /** The pair of position i of a foreign key, when child column and parent type are known. */
  function PairOf(ds: seq<Definition>, types: Types, fk: Definition, i: nat): seq<Pair>
    requires fk.ForeignKey? && i < |fk.children| == |fk.parents|
  {
    var k := ColumnAt(ds, Folded(fk.children[i]));
    var key := TypeKey(fk.schema, fk.table, fk.parents[i]);
    if k >= 0 && key in types && types[key] != "" then [Pair(k, types[key])] else []
  }

  function PairsOfKey(ds: seq<Definition>, types: Types, fk: Definition, n: nat): seq<Pair>
    requires fk.ForeignKey? && n <= |fk.children| == |fk.parents|
  {
    if n == 0 then [] else PairsOfKey(ds, types, fk, n - 1) + PairOf(ds, types, fk, n - 1)
  }

  /** All resolvable pairs, in the order of the source; a key with unequal lists is passed over. */
  function Pairs(ds: seq<Definition>, types: Types, n: nat): seq<Pair>
    requires n <= |ds|
  {
    if n == 0 then []
    else
      var d := ds[n - 1];
      Pairs(ds, types, n - 1)
      + if d.ForeignKey? && |d.children| == |d.parents| then PairsOfKey(ds, types, d, |d.children|) else []
  }

  // ---- alignment ----

  datatype Aligned = Aligned(definitions: seq<Definition>, alignments: seq<Pair>)

  /** replaceColumnType: only while the column still has the type it was parsed with. */
  function ReplaceColumnType(d: Definition, previous: string, aligned: string): Definition {
    if d.Column? && Equivalent(d.ctype, previous) then d.(ctype := aligned) else d
  }

  /** One pair: nothing when the types agree; else replace and report. */
  function AlignOne(ds: seq<Definition>, a: Aligned, p: Pair): Aligned
    requires |a.definitions| == |ds|
  {
    if p.k >= |ds| || !ds[p.k].Column? || Equivalent(ds[p.k].ctype, p.parent) then a
    else
      Aligned(a.definitions[p.k := ReplaceColumnType(a.definitions[p.k], ds[p.k].ctype, p.parent)], a.alignments + [p])
  }

  function AlignAll(ds: seq<Definition>, ps: seq<Pair>): (a: Aligned)
    ensures |a.definitions| == |ds|
  {
    if ps == [] then Aligned(ds, [])
    else AlignOne(ds, AlignAll(ds, ps[..|ps| - 1]), ps[|ps| - 1])
  }

  function Align(ds: seq<Definition>, types: Types): (a: Aligned)
    ensures |a.definitions| == |ds|
  {
    AlignAll(ds, Pairs(ds, types, |ds|))
  }

  // ---- what alignment achieves ----

  /** The first parent type in the list that differs from the column's own. */
  function FirstOther(ps: seq<Pair>, k: nat, own: string): Option<string> {
    if ps == [] then None
    else
      var earlier := FirstOther(ps[..|ps| - 1], k, own);
      if earlier.Some? then earlier
      else if ps[|ps| - 1].k == k && !Equivalent(own, ps[|ps| - 1].parent) then Some(ps[|ps| - 1].parent)
      else None
  }

  /** The type alignment gives a column. */
  function TypeAfter(ps: seq<Pair>, k: nat, own: string): string {
    if FirstOther(ps, k, own).Some? then FirstOther(ps, k, own).value else own
  }

  lemma {:induction false} FirstOtherDiffers(ps: seq<Pair>, k: nat, own: string)
    ensures var f := FirstOther(ps, k, own);
      && (f.Some? ==> !Equivalent(own, f.value) && exists j :: 0 <= j < |ps| && ps[j] == Pair(k, f.value))
      && (f.None? <==> forall j :: 0 <= j < |ps| && ps[j].k == k ==> Equivalent(own, ps[j].parent))
  {
    hide NormalizeType;
    if ps != [] {
      var front := ps[..|ps| - 1];
      FirstOtherDiffers(front, k, own);
      var f := FirstOther(front, k, own);
      if f.Some? {
        var j :| 0 <= j < |front| && front[j] == Pair(k, f.value);
        assert ps[j] == Pair(k, f.value);
        assert exists j :: 0 <= j < |front| && front[j].k == k && !Equivalent(own, front[j].parent);
      } else {
        assert forall j :: 0 <= j < |front| && ps[j].k == k ==> Equivalent(own, front[j].parent);
        assert ps[|ps| - 1] == Pair(ps[|ps| - 1].k, ps[|ps| - 1].parent);
      }
    }
  }

  /**
   Column by column: alignment gives the first differing parent type in the
   order of the source, and changes nothing but types.
   */
  lemma {:induction false} AlignGives(ds: seq<Definition>, ps: seq<Pair>, k: nat)
    requires k < |ds|
    ensures AlignAll(ds, ps).definitions[k] ==
      if ds[k].Column? then ds[k].(ctype := TypeAfter(ps, k, ds[k].ctype)) else ds[k]
  {
    hide NormalizeType;
    if ps != [] {
      var front := ps[..|ps| - 1];
      AlignGives(ds, front, k);
      if ds[k].Column? { FirstOtherDiffers(front, k, ds[k].ctype); }
    }
  }

  /** A pair is reported exactly when its types differ beforehand. */
  lemma {:induction false} Reported(ds: seq<Definition>, ps: seq<Pair>)
    ensures AlignAll(ds, ps).alignments == [] <==>
      forall j :: 0 <= j < |ps| && ps[j].k < |ds| && ds[ps[j].k].Column? ==> Equivalent(ds[ps[j].k].ctype, ps[j].parent)
  {
    hide NormalizeType;
    if ps != [] {
      var front := ps[..|ps| - 1];
      Reported(ds, front);
      assert forall j :: 0 <= j < |front| ==> front[j] == ps[j];
    }
  }

  /** Alignment leaves names and foreign keys alone, so the same pairs are found again. */
  lemma {:induction false} SameColumns(ds: seq<Definition>, es: seq<Definition>, name: string)
    requires |es| == |ds| && forall k :: 0 <= k < |ds| ==> SameButType(ds[k], es[k])
    ensures ColumnAt(es, name) == ColumnAt(ds, name)
  {
    hide Folded;
    if ds != [] { SameColumns(ds[..|ds| - 1], es[..|es| - 1], name); }
  }

  predicate SameButType(d: Definition, e: Definition) {
    d == e || (d.Column? && e.Column? && e == d.(ctype := e.ctype))
  }

  lemma {:induction false} SamePairsOfKey(ds: seq<Definition>, es: seq<Definition>, types: Types, fk: Definition, n: nat)
    requires |es| == |ds| && forall k :: 0 <= k < |ds| ==> SameButType(ds[k], es[k])
    requires fk.ForeignKey? && n <= |fk.children| == |fk.parents|
    ensures PairsOfKey(es, types, fk, n) == PairsOfKey(ds, types, fk, n)
  {
    hide Folded, TypeKey;
    if n > 0 {
      SamePairsOfKey(ds, es, types, fk, n - 1);
      SameColumns(ds, es, Folded(fk.children[n - 1]));
    }
  }

  lemma {:induction false} SamePairs(ds: seq<Definition>, es: seq<Definition>, types: Types, n: nat)
    requires |es| == |ds| && forall k :: 0 <= k < |ds| ==> SameButType(ds[k], es[k])
    requires n <= |ds|
    ensures Pairs(es, types, n) == Pairs(ds, types, n)
  {
    hide Folded, TypeKey, PairsOfKey;
    if n > 0 {
      SamePairs(ds, es, types, n - 1);
      var d := ds[n - 1];
      assert SameButType(d, es[n - 1]);
      hide SameButType;
      if d.ForeignKey? && |d.children| == |d.parents| { SamePairsOfKey(ds, es, types, d, |d.children|); }
    }
  }

  lemma {:induction false} PairsAreColumns(ds: seq<Definition>, types: Types, n: nat, j: nat)
    requires n <= |ds| && j < |Pairs(ds, types, n)|
    ensures Pairs(ds, types, n)[j].k < |ds| && ds[Pairs(ds, types, n)[j].k].Column?
  {
    hide Folded, TypeKey;
    var front := Pairs(ds, types, n - 1);
    if j < |front| {
      PairsAreColumns(ds, types, n - 1, j);
    } else {
      PairsOfKeyAreColumns(ds, types, ds[n - 1], |ds[n - 1].children|, j - |front|);
    }
  }

  lemma {:induction false} PairsOfKeyAreColumns(ds: seq<Definition>, types: Types, fk: Definition, n: nat, j: nat)
    requires fk.ForeignKey? && n <= |fk.children| == |fk.parents| && j < |PairsOfKey(ds, types, fk, n)|
    ensures var p := PairsOfKey(ds, types, fk, n)[j]; p.k < |ds| && ds[p.k].Column?
  {
    hide Folded, TypeKey;
    var front := PairsOfKey(ds, types, fk, n - 1);
    if j < |front| { PairsOfKeyAreColumns(ds, types, fk, n - 1, j); }
  }

  /** All parents of each column have one type. */
  ghost predicate ParentsAgree(ps: seq<Pair>) {
    forall i, j :: 0 <= i < |ps| && 0 <= j < |ps| && ps[i].k == ps[j].k ==> Equivalent(ps[i].parent, ps[j].parent)
  }

  /** Every resolvable foreign-key pair has equal types. */
  ghost predicate AllAligned(ds: seq<Definition>, types: Types) {
    var ps := Pairs(ds, types, |ds|);
    forall j :: 0 <= j < |ps| && ps[j].k < |ds| && ds[ps[j].k].Column? ==> Equivalent(ds[ps[j].k].ctype, ps[j].parent)
  }

  /** The result differs from the input in the types of columns that were reported, and nowhere else. */
  lemma OnlyTypesChange(ds: seq<Definition>, types: Types, k: nat)
    requires k < |ds|
    ensures SameButType(ds[k], Align(ds, types).definitions[k])
    ensures Align(ds, types).definitions[k] != ds[k] ==>
      exists p :: p in Align(ds, types).alignments && p.k == k
    ensures Pairs(Align(ds, types).definitions, types, |ds|) == Pairs(ds, types, |ds|)
  {
    var ps := Pairs(ds, types, |ds|);
    var es := Align(ds, types).definitions;
    forall i | 0 <= i < |ds| ensures SameButType(ds[i], es[i]) {
      AlignGives(ds, ps, i);
    }
    SamePairs(ds, es, types, |ds|);
    ChangedReported(ds, ps, k);
  }

  lemma {:induction false} ChangedReported(ds: seq<Definition>, ps: seq<Pair>, k: nat)
    requires k < |ds|
    ensures AlignAll(ds, ps).definitions[k] != ds[k] ==> exists p :: p in AlignAll(ds, ps).alignments && p.k == k
  {
    hide NormalizeType;
    if ps != [] && AlignAll(ds, ps).definitions[k] != ds[k] {
      var front := ps[..|ps| - 1];
      ChangedReported(ds, front, k);
      var a := AlignAll(ds, front);
      if a.definitions[k] != ds[k] {
        var p :| p in a.alignments && p.k == k;
        assert p in AlignAll(ds, ps).alignments;
      } else {
        assert ps[|ps| - 1] in AlignAll(ds, ps).alignments;
      }
    }
  }

  /**
   After alignment every resolvable pair has equal types, and a second alignment
   reports nothing, exactly when the parents of each column agree.
   */
  lemma AlignmentExact(ds: seq<Definition>, types: Types)
    ensures var es := Align(ds, types).definitions;
      && (AllAligned(es, types) <==> ParentsAgree(Pairs(ds, types, |ds|)))
      && (Align(es, types).alignments == [] <==> ParentsAgree(Pairs(ds, types, |ds|)))
  {
    var ps := Pairs(ds, types, |ds|);
    var es := Align(ds, types).definitions;
    if |ds| > 0 { OnlyTypesChange(ds, types, 0); }
    Reported(es, ps);
    forall j | 0 <= j < |ps|
      ensures ps[j].k < |ds| && ds[ps[j].k].Column? && es[ps[j].k].Column?
      ensures es[ps[j].k].ctype == TypeAfter(ps, ps[j].k, ds[ps[j].k].ctype)
    {
      PairsAreColumns(ds, types, |ds|, j);
      AlignGives(ds, ps, ps[j].k);
    }
    AgreeExact(ds, es, ps);
  }

  lemma AgreedType(ps: seq<Pair>, j: nat, own: string)
    requires ParentsAgree(ps) && j < |ps|
    ensures Equivalent(TypeAfter(ps, ps[j].k, own), ps[j].parent)
  {
    FirstOtherDiffers(ps, ps[j].k, own);
    hide NormalizeType, FirstOther;
  }

  lemma AgreeExact(ds: seq<Definition>, es: seq<Definition>, ps: seq<Pair>)
    requires |es| == |ds|
    requires forall j :: 0 <= j < |ps| ==> ps[j].k < |ds| && ds[ps[j].k].Column? && es[ps[j].k].Column?
    requires forall j :: 0 <= j < |ps| ==> es[ps[j].k].ctype == TypeAfter(ps, ps[j].k, ds[ps[j].k].ctype)
    ensures (forall j :: 0 <= j < |ps| ==> Equivalent(es[ps[j].k].ctype, ps[j].parent)) <==> ParentsAgree(ps)
  {
    hide NormalizeType, FirstOther, TypeAfter;
    forall j | 0 <= j < |ps| && ParentsAgree(ps) ensures Equivalent(es[ps[j].k].ctype, ps[j].parent) {
      AgreedType(ps, j, ds[ps[j].k].ctype);
    }
  }

  /** With several parents the first one, in the order of the source, whose type differs decides. */
  lemma {:induction false} FirstParentWins(ps: seq<Pair>, j: nat, own: string)
    requires j < |ps| && !Equivalent(own, ps[j].parent)
    requires forall i :: 0 <= i < j && ps[i].k == ps[j].k ==> Equivalent(own, ps[i].parent)
    ensures TypeAfter(ps, ps[j].k, own) == ps[j].parent
  {
    hide NormalizeType;
    var front := ps[..|ps| - 1];
    if j < |front| {
      FirstParentWins(front, j, own);
    } else {
      FirstOtherDiffers(front, ps[j].k, own);
    }
  }

  /** Two parents of different types for one column: the first stays, the second is asked for again every time. */
  lemma ConflictNeverSettles(ds: seq<Definition>, types: Types, i: nat, j: nat)
    requires var ps := Pairs(ds, types, |ds|);
      i < |ps| && j < |ps| && ps[i].k == ps[j].k && !Equivalent(ps[i].parent, ps[j].parent)
    ensures var es := Align(ds, types).definitions;
      !AllAligned(es, types) && Align(es, types).alignments != []
  {
    AlignmentExact(ds, types);
  }

  // ---- the registry ----

  /** What registering the columns of the first n definitions does. */
  function Registered(types: Types, schema: string, table: string, ds: seq<Definition>, n: nat): Types
    requires n <= |ds|
  {
    if n == 0 then types
    else
      var before := Registered(types, schema, table, ds, n - 1);
      var d := ds[n - 1];
      if d.Column? then before[TypeKey(schema, table, Folded(d.name)) := NormalizeType(d.ctype)] else before
  }

  function RenamedColumn(types: Types, schema: string, table: string, oldColumn: string, newColumn: string): Types {
    var oldKey := TypeKey(schema, table, oldColumn);
    if oldKey !in types || types[oldKey] == "" then types
    else (types - {oldKey})[TypeKey(schema, table, newColumn) := types[oldKey]]
  }

  /** Renaming a registered column back restores the registry when the new name was unknown. */
  lemma RenamedColumnBack(types: Types, schema: string, table: string, oldColumn: string, newColumn: string)
    requires TypeKey(schema, table, newColumn) !in types
    requires TypeKey(schema, table, oldColumn) in types && types[TypeKey(schema, table, oldColumn)] != ""
    ensures RenamedColumn(RenamedColumn(types, schema, table, oldColumn, newColumn), schema, table, newColumn, oldColumn)
            == types
  {
    hide TypeKey;
  }

  datatype Registry = Registry(types: Types, snapshot: Option<Types>)

  datatype Command =
    | RegisterTable(schema: string, table: string, definitions: seq<Definition>)
    | RenameOne(schema: string, table: string, oldColumn: string, newColumn: string)
    | Begin
    | Commit
    | Rollback

  function Apply(r: Registry, c: Command): Registry {
    match c
    case RegisterTable(schema, table, ds) => r.(types := Registered(r.types, schema, table, ds, |ds|))
    case RenameOne(schema, table, oldColumn, newColumn) =>
      r.(types := RenamedColumn(r.types, schema, table, oldColumn, newColumn))
    case Begin => if r.snapshot.Some? then r else r.(snapshot := Some(r.types))
    case Commit => r.(snapshot := None)
    case Rollback => if r.snapshot.None? then r else Registry(r.snapshot.value, None)
  }

  class DdlForeignKeyTypeRegistry {
    var types: Types
    var transactionSnapshot: Option<Types>

    function View(): Registry
      reads this
    {
      Registry(types, transactionSnapshot)
    }

    constructor ()
      ensures View() == Registry(map[], None)
    {
      types, transactionSnapshot := map[], None;
    }

    /** alignCreateTable: every foreign key, every column of it, against a copy of the definitions. */
    method AlignCreateTable(ds: seq<Definition>) returns (definitions: seq<Definition>, alignments: seq<Pair>)
      ensures Aligned(definitions, alignments) == Align(ds, types)
    {
      hide TypeKey, Folded, NormalizeType, Pairs, AlignAll;
      definitions, alignments := ds, [];
      var n := 0;
      NoPairs(ds, types);
      while n < |ds|
        invariant 0 <= n <= |ds|
        invariant Aligned(definitions, alignments) == AlignAll(ds, Pairs(ds, types, n))
      {
        if ds[n].ForeignKey? && |ds[n].children| == |ds[n].parents| {
          definitions, alignments := AlignKey(ds, n, definitions, alignments);
        } else {
          PairsPass(ds, types, n);
        }
        n := n + 1;
      }
    }

    /** The inner loop. */
    method AlignKey(ds: seq<Definition>, n: nat, given: seq<Definition>, reported: seq<Pair>)
      returns (definitions: seq<Definition>, alignments: seq<Pair>)
      requires n < |ds| && ds[n].ForeignKey? && |ds[n].children| == |ds[n].parents|
      requires Aligned(given, reported) == AlignAll(ds, Pairs(ds, types, n))
      ensures Aligned(definitions, alignments) == AlignAll(ds, Pairs(ds, types, n + 1))
    {
      hide TypeKey, Folded, Equivalent, Pairs, PairsOfKey, AlignAll;
      var fk := ds[n];
      ghost var ps := Pairs(ds, types, n);
      definitions, alignments := given, reported;
      var i := 0;
      NoPairsOfKey(ds, types, fk, ps);
      while i < |fk.children|
        invariant 0 <= i <= |fk.children|
        invariant Aligned(definitions, alignments) == AlignAll(ds, ps + PairsOfKey(ds, types, fk, i))
      {
        var k := ColumnAt(ds, Folded(fk.children[i]));
        var key := TypeKey(fk.schema, fk.table, fk.parents[i]);
        AlignNext(ds, types, fk, i, ps);
        if k >= 0 && key in types && types[key] != "" && !Equivalent(ds[k].ctype, types[key]) {
          definitions := definitions[k := ReplaceColumnType(definitions[k], ds[k].ctype, types[key])];
          alignments := alignments + [Pair(k, types[key])];
        }
        i := i + 1;
      }
      PairsUnfold(ds, types, n);
    }

    method RegisterCreateTable(schema: string, table: string, ds: seq<Definition>)
      modifies this`types
      ensures View() == Apply(old(View()), RegisterTable(schema, table, ds))
    {
      hide TypeKey, Folded, NormalizeType;
      var n := 0;
      while n < |ds|
        invariant 0 <= n <= |ds| && types == Registered(old(types), schema, table, ds, n)
      {
        if ds[n].Column? {
          types := types[TypeKey(schema, table, Folded(ds[n].name)) := NormalizeType(ds[n].ctype)];
        }
        n := n + 1;
      }
    }

    method RenameColumn(schema: string, table: string, oldColumn: string, newColumn: string)
      modifies this`types
      ensures View() == Apply(old(View()), RenameOne(schema, table, oldColumn, newColumn))
    {
      var oldKey := TypeKey(schema, table, oldColumn);
      if oldKey !in types || types[oldKey] == "" { return; }
      var ctype := types[oldKey];
      types := types - {oldKey};
      types := types[TypeKey(schema, table, newColumn) := ctype];
    }

    method BeginTransaction()
      modifies this`transactionSnapshot
      ensures View() == Apply(old(View()), Begin)
    {
      if transactionSnapshot.None? { transactionSnapshot := Some(types); }
    }

    method CommitTransaction()
      modifies this`transactionSnapshot
      ensures View() == Apply(old(View()), Commit)
    {
      transactionSnapshot := None;
    }

    method RollbackTransaction()
      modifies this
      ensures View() == Apply(old(View()), Rollback)
    {
      if transactionSnapshot.Some? {
        types := transactionSnapshot.value;
        transactionSnapshot := None;
      }
    }
  }

  // ---- transactions ----

  function RunAll(r: Registry, cs: seq<Command>): Registry {
    if cs == [] then r else Apply(RunAll(r, cs[..|cs| - 1]), cs[|cs| - 1])
  }

  lemma {:induction false} SnapshotKept(r: Registry, cs: seq<Command>)
    requires r.snapshot.Some? && forall k :: 0 <= k < |cs| ==> !cs[k].Commit? && !cs[k].Rollback?
    ensures RunAll(r, cs).snapshot == r.snapshot
  {
    if cs != [] { SnapshotKept(r, cs[..|cs| - 1]); }
  }

  /** Whatever is registered or renamed in between, ROLLBACK brings back the types at BEGIN. */
  lemma RollbackRestores(r: Registry, cs: seq<Command>)
    requires r.snapshot.None? && forall k :: 0 <= k < |cs| ==> !cs[k].Commit? && !cs[k].Rollback?
    ensures Apply(RunAll(Apply(r, Begin), cs), Rollback) == r
  {
    SnapshotKept(Apply(r, Begin), cs);
  }

  // ---- a lookup finds the type of the column asked for ----

  predicate Dotless(name: string) { '.' !in Folded(name) }

  /** Two keys are one exactly when schema, table and column are, for schema and table names without dots. */
  lemma KeyParts(s: string, t: string, c: string, s2: string, t2: string, c2: string)
    requires Dotless(s) && Dotless(t) && Dotless(s2) && Dotless(t2)
    ensures TypeKey(s, t, c) == TypeKey(s2, t2, c2) <==>
      Folded(s) == Folded(s2) && Folded(t) == Folded(t2) && Folded(c) == Folded(c2)
  {
    hide Folded;
    assert TypeKey(s, t, c) == Folded(s) + "." + (Folded(t) + "." + Folded(c));
    assert TypeKey(s2, t2, c2) == Folded(s2) + "." + (Folded(t2) + "." + Folded(c2));
    if TypeKey(s, t, c) == TypeKey(s2, t2, c2) {
      SplitAtDot(Folded(s), Folded(t) + "." + Folded(c), Folded(s2), Folded(t2) + "." + Folded(c2));
      SplitAtDot(Folded(t), Folded(c), Folded(t2), Folded(c2));
    }
  }

  /** Within one table no premise is needed. */
  lemma SameTableKeys(s: string, t: string, c: string, c2: string)
    ensures TypeKey(s, t, c) == TypeKey(s, t, c2) <==> Folded(c) == Folded(c2)
  {
    hide Folded;
    var front := Folded(s) + "." + Folded(t) + ".";
    assert TypeKey(s, t, c)[|front|..] == Folded(c) && TypeKey(s, t, c2)[|front|..] == Folded(c2);
  }

  /** A name written without quotes is read in upper case, and so is one in quotes, its doubled quotes undone. */
  lemma FoldedMeans(name: string)
    ensures Unquoted(name) ==> Folded(name) == UpperAll(name)
    ensures Folded("\"" + ReplaceQuotes(name) + "\"") == UpperAll(name)
  {
    if Unquoted(name) { TrimSolid(name); }
    var quoted := "\"" + ReplaceQuotes(name) + "\"";
    QuotedSolid(quoted);
    assert ArrayText.Inner(quoted) == ReplaceQuotes(name);
    UndoubledQuotes(name);
    hide ReplaceQuotes, Undouble;
  }

  /** The definition whose type ends up under `name`: registering folds the folded name once more. */
  function StoredAt(ds: seq<Definition>, name: string): (k: int)
    ensures -1 <= k < |ds|
    ensures k >= 0 ==> ds[k].Column?
  {
    if ds == [] then -1
    else
      var d := ds[|ds| - 1];
      if d.Column? && Folded(Folded(d.name)) == name then |ds| - 1 else StoredAt(ds[..|ds| - 1], name)
  }

  /** The name means the same when it is folded again. */
  predicate Stable(name: string) { Folded(Folded(name)) == Folded(name) }

  predicate AllStable(ds: seq<Definition>) {
    forall k :: 0 <= k < |ds| && ds[k].Column? ==> Stable(ds[k].name)
  }

  /** For stable names that is the column's own last definition. */
  lemma {:induction false} StoredAsDefined(ds: seq<Definition>, name: string)
    requires AllStable(ds)
    ensures StoredAt(ds, name) == ColumnAt(ds, name)
  {
    hide Folded;
    if ds != [] {
      assert forall k :: 0 <= k < |ds| - 1 ==> ds[..|ds| - 1][k] == ds[k];
      StoredAsDefined(ds[..|ds| - 1], name);
      if ds[|ds| - 1].Column? { assert Stable(ds[|ds| - 1].name); }
    }
  }

  /** A name with a blank inside its quotes is stored under another name, and not found under its own. */
  lemma BlankNameMislaid(types: Types, s: string, t: string, ctype: string)
    ensures var ds := [Column("\" a\"", ctype, "")];
      ColumnAt(ds, Folded("\" a\"")) == 0 && StoredAt(ds, Folded("\" a\"")) == -1
      && Registered(types, s, t, ds, 1) == types[TypeKey(s, t, "a") := NormalizeType(ctype)]
  {
    var ds := [Column("\" a\"", ctype, "")];
    FoldedBlank();
    assert ds[..0] == [];
    hide Folded, NormalizeType;
    assert Registered(types, s, t, ds, 1) == Registered(types, s, t, ds, 0)[TypeKey(s, t, Folded("\" a\"")) := NormalizeType(ctype)];
  }

  lemma FoldedBlank()
    ensures Folded("\" a\"") == " A" && Folded(" A") == "A" && Folded("a") == "A"
  {
    var q := "\" a\"";
    assert TrimStart(q) == q && TrimEnd(q) == q;
    assert ArrayText.Inner(q) == " a";
    assert " a"[1..] == "a" && Undouble("a") == "a" && Undouble(" a") == " a";
    assert UpperAll(" a") == " A" && UpperAll("a") == "A" && UpperAll("A") == "A";
    assert TrimStart(" A") == TrimStart("A") == "A" && TrimEnd("A") == "A" && TrimStart("a") == "a" && TrimEnd("a") == "a";
  }

  /** After a table has been registered, each of its columns is found with its own type, and no other of its columns changes. */
  lemma {:induction false} RegisteredLookup(types: Types, s: string, t: string, ds: seq<Definition>, n: nat, c: string)
    requires n <= |ds|
    ensures var r := Registered(types, s, t, ds, n); var key := TypeKey(s, t, c); var k := StoredAt(ds[..n], Folded(c));
      if k >= 0 then key in r && r[key] == NormalizeType(ds[k].ctype)
      else (key in r <==> key in types) && (key in types ==> r[key] == types[key])
  {
    hide Folded, NormalizeType, TypeKey;
    if n == 0 {
      assert ds[..0] == [];
    } else {
      RegisteredLookup(types, s, t, ds, n - 1, c);
      assert ds[..n][..n - 1] == ds[..n - 1];
      if ds[n - 1].Column? { SameTableKeys(s, t, c, Folded(ds[n - 1].name)); }
    }
  }

  /** And no column of another table changes. */
  lemma {:induction false} OtherTableStays(
    types: Types, s: string, t: string, ds: seq<Definition>, n: nat, s2: string, t2: string, c: string)
    requires n <= |ds| && Dotless(s) && Dotless(t) && Dotless(s2) && Dotless(t2)
    requires Folded(s) != Folded(s2) || Folded(t) != Folded(t2)
    ensures var r := Registered(types, s, t, ds, n); var key := TypeKey(s2, t2, c);
      (key in r <==> key in types) && (key in types ==> r[key] == types[key])
  {
    hide Folded, NormalizeType, TypeKey, Dotless;
    if n > 0 {
      OtherTableStays(types, s, t, ds, n - 1, s2, t2, c);
      if ds[n - 1].Column? { KeyParts(s2, t2, c, s, t, Folded(ds[n - 1].name)); }
    }
  }

  /** After a rename the type is found under the new name and no longer under the old one; other columns keep theirs. */
  lemma RenamedLookup(types: Types, s: string, t: string, oldColumn: string, newColumn: string, c: string)
    requires TypeKey(s, t, oldColumn) in types && types[TypeKey(s, t, oldColumn)] != ""
    ensures var r := RenamedColumn(types, s, t, oldColumn, newColumn); var key := TypeKey(s, t, c);
      if Folded(c) == Folded(newColumn) then key in r && r[key] == types[TypeKey(s, t, oldColumn)]
      else if Folded(c) == Folded(oldColumn) then key !in r
      else (key in r <==> key in types) && (key in types ==> r[key] == types[key])
  {
    SameTableKeys(s, t, c, newColumn);
    SameTableKeys(s, t, c, oldColumn);
    hide TypeKey, Folded;
  }

  /** The command says nothing about the table, and brings back no older types. */
  predicate Spares(c: Command, s: string, t: string) {
    match c
    case RegisterTable(s2, t2, _) =>
      Dotless(s2) && Dotless(t2) && (Folded(s2) != Folded(s) || Folded(t2) != Folded(t))
    case RenameOne(s2, t2, _, _) =>
      Dotless(s2) && Dotless(t2) && (Folded(s2) != Folded(s) || Folded(t2) != Folded(t))
    case Rollback => false
    case _ => true
  }

  lemma {:induction false} TypeStays(r: Registry, cs: seq<Command>, s: string, t: string, c: string)
    requires Dotless(s) && Dotless(t) && forall k :: 0 <= k < |cs| ==> Spares(cs[k], s, t)
    ensures var key := TypeKey(s, t, c); var after := RunAll(r, cs).types;
      (key in after <==> key in r.types) && (key in r.types ==> after[key] == r.types[key])
  {
    hide Folded, TypeKey, Dotless;
    if cs != [] {
      var front, last := cs[..|cs| - 1], cs[|cs| - 1];
      TypeStays(r, front, s, t, c);
      var types := RunAll(r, front).types;
      match last {
        case RegisterTable(s2, t2, ds) => OtherTableStays(types, s2, t2, ds, |ds|, s, t, c);
        case RenameOne(s2, t2, x, y) => KeyParts(s, t, c, s2, t2, x); KeyParts(s, t, c, s2, t2, y);
        case _ =>
      }
    }
  }

  // ---- and alignment goes by it ----

  lemma {:induction false} PairOfKeyListed(ds: seq<Definition>, types: Types, fk: Definition, n: nat, i: nat)
    requires fk.ForeignKey? && i < n <= |fk.children| == |fk.parents|
    ensures forall p :: p in PairOf(ds, types, fk, i) ==> p in PairsOfKey(ds, types, fk, n)
  {
    hide PairOf;
    if i < n - 1 { PairOfKeyListed(ds, types, fk, n - 1, i); }
  }

  lemma {:induction false} PairListed(ds: seq<Definition>, types: Types, n: nat, m: nat, i: nat)
    requires m < n <= |ds| && ds[m].ForeignKey? && i < |ds[m].children| == |ds[m].parents|
    ensures forall p :: p in PairOf(ds, types, ds[m], i) ==> p in Pairs(ds, types, n)
  {
    hide PairOf, PairsOfKey;
    if m < n - 1 {
      PairListed(ds, types, n - 1, m, i);
    } else {
      PairOfKeyListed(ds, types, ds[m], |ds[m].children|, i);
    }
  }

  /** A type as the registry keeps it: upper case, single blanks, and none at the ends. */
  predicate Canonical(s: string) {
    && (forall k :: 0 <= k < |s| ==> !('a' <= s[k] <= 'z'))
    && (forall k :: 0 <= k < |s| && IsSpace(s[k]) ==> s[k] == ' ' && 0 < k < |s| - 1 && !IsSpace(s[k + 1]))
  }

  lemma {:induction false} CollapseFixed(s: string)
    requires forall k :: 0 <= k < |s| && IsSpace(s[k]) ==> s[k] == ' ' && (k + 1 < |s| ==> !IsSpace(s[k + 1]))
    ensures Collapse(s) == s
  {
    if s != "" {
      var rest := s[1..];
      assert forall k :: 0 <= k < |rest| ==> rest[k] == s[k + 1];
      CollapseFixed(rest);
    }
  }

  lemma CanonicalFixed(s: string)
    requires Canonical(s)
    ensures NormalizeType(s) == s
  {
    assert TrimStart(s) == s && TrimEnd(s) == s;
    CollapseFixed(s);
    assert UpperAll(s) == s;
  }

  /** Types written without white space and in upper case are equivalent only if they are equal. */
  lemma DifferentTypes(a: string, b: string)
    requires Canonical(a) && Canonical(b)
    ensures Equivalent(a, b) <==> a == b
  {
    CanonicalFixed(a);
    CanonicalFixed(b);
    hide NormalizeType, Canonical;
  }

  lemma {:induction false} CollapseSingle(s: string)
    ensures var r := Collapse(s);
      && (r == "" <==> s == "")
      && (s != "" ==> IsSpace(r[0]) == IsSpace(s[0]) && IsSpace(r[|r| - 1]) == IsSpace(s[|s| - 1]))
      && forall k :: 0 <= k < |r| && IsSpace(r[k]) ==> r[k] == ' ' && (k + 1 < |r| ==> !IsSpace(r[k + 1]))
  {
    if |s| > 1 {
      var rest := Collapse(s[1..]);
      CollapseSingle(s[1..]);
      if !(IsSpace(s[0]) && IsSpace(s[1])) {
        var r := Collapse(s);
        assert r == [r[0]] + rest;
      }
    }
  }

  lemma NormalizedCanonical(s: string)
    ensures Canonical(NormalizeType(s))
  {
    var r := Collapse(Trim(s));
    var i, j := TrimCuts(s);
    CollapseSingle(Trim(s));
    hide Trim, Collapse;
    assert forall k :: 0 <= k < |r| ==> IsSpace(UpperAll(r)[k]) == IsSpace(r[k]);
  }

  lemma NormalizeTwice(s: string)
    ensures NormalizeType(NormalizeType(s)) == NormalizeType(s)
  {
    NormalizedCanonical(s);
    CanonicalFixed(NormalizeType(s));
    hide NormalizeType;
  }

  /** Foreign key m of the definitions refers with its column i to table (s, t). */
  predicate RefersTo(ds: seq<Definition>, m: nat, i: nat, s: string, t: string) {
    && m < |ds| && ds[m].ForeignKey? && i < |ds[m].children| == |ds[m].parents|
    && Folded(ds[m].schema) == Folded(s) && Folded(ds[m].table) == Folded(t)
  }

  lemma ParentFound(
    r: Registry, s: string, t: string, parents: seq<Definition>, cs: seq<Command>, ds: seq<Definition>, m: nat, i: nat)
    requires Dotless(s) && Dotless(t) && AllStable(parents) && forall k :: 0 <= k < |cs| ==> Spares(cs[k], s, t)
    requires RefersTo(ds, m, i, s, t) && ColumnAt(parents, Folded(ds[m].parents[i])) >= 0
    ensures var types := RunAll(Apply(r, RegisterTable(s, t, parents)), cs).types;
      var key := TypeKey(ds[m].schema, ds[m].table, ds[m].parents[i]);
      key in types && types[key] == NormalizeType(parents[ColumnAt(parents, Folded(ds[m].parents[i]))].ctype)
  {
    var c := ds[m].parents[i];
    var r1 := Apply(r, RegisterTable(s, t, parents));
    assert TypeKey(ds[m].schema, ds[m].table, c) == TypeKey(s, t, c);
    hide Folded, TypeKey, NormalizeType, Dotless, Spares, Stable;
    assert parents[..|parents|] == parents;
    RegisteredLookup(r.types, s, t, parents, |parents|, c);
    StoredAsDefined(parents, Folded(c));
    TypeStays(r1, cs, s, t, c);
  }

  /**
   A child column follows its parent: once the parent table has been registered,
   whatever else has been registered or renamed since, a foreign-key column
   whose parents agree leaves alignment with the type that the referenced column
   was defined with, and a column that had it already is not touched.
   */
  lemma ChildFollowsParent(
    r: Registry, s: string, t: string, parents: seq<Definition>, cs: seq<Command>, ds: seq<Definition>, m: nat, i: nat)
    requires Dotless(s) && Dotless(t) && AllStable(parents) && forall k :: 0 <= k < |cs| ==> Spares(cs[k], s, t)
    requires RefersTo(ds, m, i, s, t) && ColumnAt(parents, Folded(ds[m].parents[i])) >= 0
    requires var types := RunAll(Apply(r, RegisterTable(s, t, parents)), cs).types; ParentsAgree(Pairs(ds, types, |ds|))
    ensures var types := RunAll(Apply(r, RegisterTable(s, t, parents)), cs).types;
      var k := ColumnAt(ds, Folded(ds[m].children[i]));
      var parent := parents[ColumnAt(parents, Folded(ds[m].parents[i]))].ctype;
      k >= 0 && NormalizeType(parent) != "" ==>
        var d := Align(ds, types).definitions[k];
        d.Column? && Equivalent(d.ctype, parent) && (Equivalent(ds[k].ctype, parent) ==> d == ds[k])
  {
    hide RunAll, Folded, TypeKey, NormalizeType, Dotless, Spares, Stable, AllStable, Pairs, AlignAll, ParentsAgree;
    var types := RunAll(Apply(r, RegisterTable(s, t, parents)), cs).types;
    var k := ColumnAt(ds, Folded(ds[m].children[i]));
    var parent := parents[ColumnAt(parents, Folded(ds[m].parents[i]))].ctype;
    ParentFound(r, s, t, parents, cs, ds, m, i);
    if k >= 0 && NormalizeType(parent) != "" {
      PairListed(ds, types, |ds|, m, i);
      assert Pair(k, NormalizeType(parent)) in PairOf(ds, types, ds[m], i);
      AlignedTo(ds, types, k, parent);
    }
  }

  lemma AlignedTo(ds: seq<Definition>, types: Types, k: nat, parent: string)
    requires k < |ds| && ds[k].Column? && ParentsAgree(Pairs(ds, types, |ds|))
    requires Pair(k, NormalizeType(parent)) in Pairs(ds, types, |ds|)
    ensures var d := Align(ds, types).definitions[k];
      d.Column? && Equivalent(d.ctype, parent) && (Equivalent(ds[k].ctype, parent) ==> d == ds[k])
  {
    var ps := Pairs(ds, types, |ds|);
    var j :| 0 <= j < |ps| && ps[j] == Pair(k, NormalizeType(parent));
    NormalizeTwice(parent);
    AlignGives(ds, ps, k);
    AgreedType(ps, j, ds[k].ctype);
    FirstOtherDiffers(ps, k, ds[k].ctype);
    hide NormalizeType, FirstOther, Pairs, AlignAll;
    if Equivalent(ds[k].ctype, parent) {
      assert forall l :: 0 <= l < |ps| && ps[l].k == k ==> Equivalent(ps[l].parent, ps[j].parent);
    }
  }

  lemma AlignPair(ds: seq<Definition>, ps: seq<Pair>, more: seq<Pair>)
    requires |more| <= 1
    ensures AlignAll(ds, ps + more) == if more == [] then AlignAll(ds, ps) else AlignOne(ds, AlignAll(ds, ps), more[0])
  {
    if more == [] {
      assert ps + more == ps;
    } else {
      assert (ps + more)[..|ps + more| - 1] == ps;
    }
  }

  lemma NoPairs(ds: seq<Definition>, types: Types)
    ensures AlignAll(ds, Pairs(ds, types, 0)) == Aligned(ds, [])
  {
  }

  lemma NoPairsOfKey(ds: seq<Definition>, types: Types, fk: Definition, ps: seq<Pair>)
    requires fk.ForeignKey? && |fk.children| == |fk.parents|
    ensures ps + PairsOfKey(ds, types, fk, 0) == ps
  {
  }

  /** Position i of a foreign key is aligned after the pairs before it. */
  lemma AlignNext(ds: seq<Definition>, types: Types, fk: Definition, i: nat, ps: seq<Pair>)
    requires fk.ForeignKey? && i < |fk.children| == |fk.parents|
    ensures var a := AlignAll(ds, ps + PairsOfKey(ds, types, fk, i));
      var k := ColumnAt(ds, Folded(fk.children[i])); var key := TypeKey(fk.schema, fk.table, fk.parents[i]);
      AlignAll(ds, ps + PairsOfKey(ds, types, fk, i + 1)) ==
        if k >= 0 && key in types && types[key] != "" && !Equivalent(ds[k].ctype, types[key]) then
          Aligned(a.definitions[k := ReplaceColumnType(a.definitions[k], ds[k].ctype, types[key])],
                  a.alignments + [Pair(k, types[key])])
        else a
  {
    hide TypeKey, Folded, Equivalent, ReplaceColumnType, PairsOfKey, AlignAll;
    AlignPair(ds, ps + PairsOfKey(ds, types, fk, i), PairOf(ds, types, fk, i));
    PairsOfKeyNext(ds, types, fk, i, ps);
  }

  lemma PairsOfKeyNext(ds: seq<Definition>, types: Types, fk: Definition, i: nat, ps: seq<Pair>)
    requires fk.ForeignKey? && i < |fk.children| == |fk.parents|
    ensures (ps + PairsOfKey(ds, types, fk, i)) + PairOf(ds, types, fk, i) == ps + PairsOfKey(ds, types, fk, i + 1)
  {
    hide PairOf;
  }

  lemma PairsPass(ds: seq<Definition>, types: Types, n: nat)
    requires n < |ds| && !(ds[n].ForeignKey? && |ds[n].children| == |ds[n].parents|)
    ensures Pairs(ds, types, n + 1) == Pairs(ds, types, n)
  {
  }

  lemma PairsUnfold(ds: seq<Definition>, types: Types, n: nat)
    requires n < |ds| && ds[n].ForeignKey? && |ds[n].children| == |ds[n].parents|
    ensures Pairs(ds, types, n + 1) == Pairs(ds, types, n) + PairsOfKey(ds, types, ds[n], |ds[n].children|)
  {
  }
}
