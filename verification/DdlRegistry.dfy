/**
 The registry of stored CREATE TABLE definitions: a map to mutable objects,
 some of them edited in place, with a deep copy taken at BEGIN.  The class is
 proved against a registry of plain values, about which the transaction law is
 then a statement on command sequences.
 */
module DdlRegistry {
  import opened Wrappers
  import opened Identifiers
  import opened ColumnRename
  import opened RenamePlans

  // ---- the registry as a value ----

  datatype Stored = Stored(schema: string, table: string, definitions: seq<Definition>)

  type Tables = map<string, Stored>

  datatype Registry = Registry(tables: Tables, snapshot: Option<Tables>)

  datatype Command =
    | CreateTable(schema: string, table: string, definitions: seq<Definition>)
    | AddColumn(schema: string, table: string, column: Definition)
    | SetDataType(schema: string, table: string)
    | CommitRename(schema: string, table: string, definitions: seq<Definition>)
    | RenameTable(schema: string, table: string, newTable: string)
    | Begin
    | Commit
    | Rollback

  function TableKey(schema: string, table: string): string {
    Normalize(schema) + "." + Normalize(table)
  }

  /** Where a new column goes: before the first table constraint. */
  function FirstConstraint(ds: seq<Definition>): (k: nat)
    ensures k <= |ds|
    ensures k < |ds| ==> IsConstraint(ds[k])
    ensures forall j :: 0 <= j < k ==> !IsConstraint(ds[j])
  {
    if ds == [] || IsConstraint(ds[0]) then 0 else 1 + FirstConstraint(ds[1..])
  }

  lemma FirstConstraintAt(ds: seq<Definition>, k: nat)
    requires k <= |ds| && (k < |ds| ==> IsConstraint(ds[k]))
    requires forall j :: 0 <= j < k ==> !IsConstraint(ds[j])
    ensures k == FirstConstraint(ds)
  {
    hide IsConstraint;
  }

  function WithColumn(ds: seq<Definition>, column: Definition): seq<Definition> {
    ds[..FirstConstraint(ds)] + [column] + ds[FirstConstraint(ds)..]
  }

  function Apply(r: Registry, c: Command): Registry {
    match c
    case CreateTable(schema, table, ds) =>
      r.(tables := r.tables[TableKey(schema, table) := Stored(schema, table, ds)])
    case AddColumn(schema, table, column) =>
      var key := TableKey(schema, table);
      if key !in r.tables then r
      else
        var stored := r.tables[key];
        r.(tables := r.tables[key := stored.(definitions := WithColumn(stored.definitions, column))])
    case SetDataType(schema, table) => r.(tables := r.tables - {TableKey(schema, table)})
    case CommitRename(schema, table, ds) =>
      r.(tables := r.tables[TableKey(schema, table) := Stored(schema, table, ds)])
    case RenameTable(schema, table, newTable) =>
      var key := TableKey(schema, table);
      if key !in r.tables then r
      else
        r.(tables := (r.tables - {key})[TableKey(schema, newTable) := Stored(schema, newTable, r.tables[key].definitions)])
    case Begin => if r.snapshot.Some? then r else r.(snapshot := Some(r.tables))
    case Commit => r.(snapshot := None)
    case Rollback => if r.snapshot.None? then r else Registry(r.snapshot.value, None)
  }

  // ---- the registry on the heap ----

  class StoredTableDefinition {
    const schema: string
    const table: string
    var createSql: seq<Definition>

    constructor (schema: string, table: string, createSql: seq<Definition>)
      ensures this.schema == schema && this.table == table && this.createSql == createSql
    {
      this.schema := schema;
      this.table := table;
      this.createSql := createSql;
    }
  }

  type Heap = map<string, StoredTableDefinition>

  ghost function Contents(m: Heap): (tables: Tables)
    reads m.Values
    ensures tables.Keys == m.Keys
  {
    map key | key in m :: Stored(m[key].schema, m[key].table, m[key].createSql)
  }

  lemma PutContents(m: Heap, key: string, stored: StoredTableDefinition)
    ensures Contents(m[key := stored]) == Contents(m)[key := Stored(stored.schema, stored.table, stored.createSql)]
  {
  }

  /** No object stands under two keys. */
  ghost predicate Injective(m: Heap) {
    forall j, k :: j in m && k in m && j != k ==> m[j] != m[k]
  }

  lemma NewObject(m: Heap, key: string, stored: StoredTableDefinition)
    requires Injective(m) && stored !in m.Values
    ensures Injective(m[key := stored]) && m[key := stored].Values <= m.Values + {stored}
  {
  }

  class DdlTableDefinitionRegistry {
    var tables: Heap
    var transactionSnapshot: Option<Heap>

    constructor ()
      ensures Valid() && View() == Registry(map[], None)
      ensures fresh(Objects())
    {
      tables := map[];
      transactionSnapshot := None;
    }

    ghost function Objects(): set<object>
      reads this
    {
      (set o | o in tables.Values) + (if transactionSnapshot.Some? then (set o | o in transactionSnapshot.value.Values) else {})
    }

    /** Live and saved definitions share no object. */
    ghost predicate Valid()
      reads this
    {
      && Injective(tables)
      && (transactionSnapshot.Some? ==> Injective(transactionSnapshot.value) && tables.Values !! transactionSnapshot.value.Values)
    }

    ghost function View(): Registry
      reads this, Objects()
    {
      Registry(Contents(tables), if transactionSnapshot.Some? then Some(Contents(transactionSnapshot.value)) else None)
    }

    /** Store a definition in a new object. */
    method Put(schema: string, table: string, createSql: seq<Definition>)
      requires Valid()
      modifies this`tables
      ensures Valid() && fresh(Objects() - old(Objects()))
      ensures transactionSnapshot == old(transactionSnapshot)
      ensures View() == old(View()).(tables := old(View()).tables[TableKey(schema, table) := Stored(schema, table, createSql)])
    {
      hide TableKey, Contents, Injective;
      var stored := new StoredTableDefinition(schema, table, createSql);
      ghost var before := Contents(tables);
      var key := TableKey(schema, table);
      PutContents(tables, key, stored);
      NewObject(tables, key, stored);
      tables := tables[key := stored];
    }

    method RegisterCreateTable(schema: string, table: string, createSql: seq<Definition>)
      requires Valid()
      modifies this`tables
      ensures Valid() && fresh(Objects() - old(Objects()))
      ensures View() == Apply(old(View()), CreateTable(schema, table, createSql))
    {
      Put(schema, table, createSql);
    }

    /** Edits the stored object in place. */
    method RegisterAlterAddColumn(schema: string, table: string, column: Definition)
      requires Valid()
      modifies Objects()
      ensures Valid() && Objects() == old(Objects())
      ensures View() == Apply(old(View()), AddColumn(schema, table, column))
    {
      hide TableKey, IsConstraint;
      var key := TableKey(schema, table);
      if key !in tables { return; }
      var stored := tables[key];
      var insertAt := 0;
      while insertAt < |stored.createSql| && !IsConstraint(stored.createSql[insertAt])
        invariant 0 <= insertAt <= |stored.createSql|
        invariant forall j :: 0 <= j < insertAt ==> !IsConstraint(stored.createSql[j])
      {
        insertAt := insertAt + 1;
      }
      assert insertAt == FirstConstraint(stored.createSql) by { FirstConstraintAt(stored.createSql, insertAt); }
      hide FirstConstraint;
      ghost var before := Contents(tables);
      stored.createSql := stored.createSql[..insertAt] + [column] + stored.createSql[insertAt..];
      assert Contents(tables) == before[key := Stored(stored.schema, stored.table, stored.createSql)];
    }

    /** tables.delete(key) */
    method Delete(key: string)
      requires Valid()
      modifies this`tables
      ensures Valid() && Objects() <= old(Objects())
      ensures transactionSnapshot == old(transactionSnapshot) && tables == old(tables) - {key}
      ensures View() == old(View()).(tables := old(View()).tables - {key})
    {
      ghost var before := Contents(tables);
      tables := tables - {key};
      assert Contents(tables) == before - {key};
    }

    method InvalidateAlterSetDataType(schema: string, table: string)
      requires Valid()
      modifies this`tables
      ensures Valid() && Objects() <= old(Objects())
      ensures View() == Apply(old(View()), SetDataType(schema, table))
    {
      hide TableKey, Valid, Contents, Objects;
      Delete(TableKey(schema, table));
    }

    method CommitColumnRename(schema: string, table: string, storedCreateSql: seq<Definition>)
      requires Valid()
      modifies this`tables
      ensures Valid() && fresh(Objects() - old(Objects()))
      ensures View() == Apply(old(View()), CommitRename(schema, table, storedCreateSql))
    {
      Put(schema, table, storedCreateSql);
    }

    method RenameStoredTable(schema: string, table: string, newTable: string) returns (renamed: bool)
      requires Valid()
      modifies this`tables
      ensures Valid() && fresh(Objects() - old(Objects()))
      ensures renamed <==> TableKey(schema, table) in old(tables)
      ensures View() == Apply(old(View()), RenameTable(schema, table, newTable))
    {
      hide TableKey, Injective;
      var oldKey := TableKey(schema, table);
      if oldKey !in tables { return false; }
      var createSql := tables[oldKey].createSql;
      assert Contents(tables)[oldKey].definitions == createSql;
      hide Contents;
      Delete(oldKey);
      Put(schema, newTable, createSql);
      return true;
    }

    /** cloneDefinitions: a new object for every entry. */
    method CloneDefinitions() returns (copy: Heap)
      requires Injective(tables)
      ensures Injective(copy) && Contents(copy) == Contents(tables)
      ensures forall key :: key in copy ==> fresh(copy[key])
    {
      copy := map[];
      var unseen := tables.Keys;
      while unseen != {}
        invariant unseen <= tables.Keys && copy.Keys == tables.Keys - unseen
        invariant Injective(copy) && forall key :: key in copy ==> fresh(copy[key])
        invariant forall key :: key in copy ==>
          copy[key].schema == tables[key].schema && copy[key].table == tables[key].table
          && copy[key].createSql == tables[key].createSql
        decreases |unseen|
      {
        var key :| key in unseen;
        unseen := unseen - {key};
        var value := tables[key];
        var clone := new StoredTableDefinition(value.schema, value.table, value.createSql);
        copy := copy[key := clone];
      }
    }

    method BeginTransaction()
      requires Valid()
      modifies this`transactionSnapshot
      ensures Valid() && fresh(Objects() - old(Objects()))
      ensures View() == Apply(old(View()), Begin)
    {
      hide Contents, Injective;
      if transactionSnapshot.Some? { return; }
      var copy := CloneDefinitions();
      transactionSnapshot := Some(copy);
    }

    method CommitTransaction()
      requires Valid()
      modifies this`transactionSnapshot
      ensures Valid() && Objects() <= old(Objects())
      ensures View() == Apply(old(View()), Commit)
    {
      transactionSnapshot := None;
    }

    method RollbackTransaction()
      requires Valid()
      modifies this
      ensures Valid() && Objects() <= old(Objects())
      ensures View() == Apply(old(View()), Rollback)
    {
      if transactionSnapshot.None? { return; }
      tables := transactionSnapshot.value;
      transactionSnapshot := None;
    }
  }

  // ---- what a transaction means for the registry ----

  function RunAll(r: Registry, cs: seq<Command>): Registry {
    if cs == [] then r else Apply(RunAll(r, cs[..|cs| - 1]), cs[|cs| - 1])
  }

  predicate Inside(cs: seq<Command>) {
    forall k :: 0 <= k < |cs| ==> !cs[k].Commit? && !cs[k].Rollback?
  }

  lemma {:induction false} SnapshotKept(r: Registry, cs: seq<Command>)
    requires r.snapshot.Some? && Inside(cs)
    ensures RunAll(r, cs).snapshot == r.snapshot
  {
    if cs != [] { SnapshotKept(r, cs[..|cs| - 1]); }
  }

  /** Whatever is registered, altered, renamed or dropped in between, ROLLBACK brings back the definitions at BEGIN. */
  lemma RollbackRestores(r: Registry, cs: seq<Command>)
    requires r.snapshot.None? && Inside(cs)
    ensures Apply(RunAll(Apply(r, Begin), cs), Rollback) == r
  {
    SnapshotKept(Apply(r, Begin), cs);
  }

  /** Between BEGIN and the end of the block, the saved copy makes no difference to a command. */
  lemma SnapshotAside(r: Registry, c: Command)
    requires !c.Begin? && !c.Commit? && !c.Rollback?
    ensures Apply(r.(snapshot := None), c) == Apply(r, c).(snapshot := None)
    ensures Apply(r, c).snapshot == r.snapshot
  {
    hide TableKey, WithColumn;
  }

  /** And COMMIT keeps exactly what the commands did. */
  lemma {:induction false} CommitKeeps(r: Registry, cs: seq<Command>)
    requires r.snapshot.None? && forall k :: 0 <= k < |cs| ==> !cs[k].Commit? && !cs[k].Rollback? && !cs[k].Begin?
    ensures Apply(RunAll(Apply(r, Begin), cs), Commit) == RunAll(r, cs)
    ensures RunAll(r, cs).snapshot.None?
  {
    if cs != [] {
      var front, last := cs[..|cs| - 1], cs[|cs| - 1];
      CommitKeeps(r, front);
      var open := RunAll(Apply(r, Begin), front);
      assert open.(snapshot := None) == RunAll(r, front);
      SnapshotAside(open, last);
      assert Apply(Apply(open, last), Commit) == Apply(open, last).(snapshot := None);
      SnapshotAside(RunAll(r, front), last);
      hide Apply;
    }
  }

  // ---- one table at a time ----

  predicate Dotless(name: string) { '.' !in Normalize(name) }

  /** Two tables have one key exactly when their schemas and names agree, for schema names without dots. */
  lemma TableKeyParts(s: string, t: string, s2: string, t2: string)
    requires Dotless(s) && Dotless(s2)
    ensures TableKey(s, t) == TableKey(s2, t2) <==> Normalize(s) == Normalize(s2) && Normalize(t) == Normalize(t2)
  {
    hide Normalize;
    if TableKey(s, t) == TableKey(s2, t2) { SplitAtDot(Normalize(s), Normalize(t), Normalize(s2), Normalize(t2)); }
  }

  predicate Other(s: string, t: string, s2: string, t2: string) {
    Dotless(s2) && (Normalize(s) != Normalize(s2) || Normalize(t) != Normalize(t2))
  }

  /** The command is about other tables than (s, t). */
  predicate Spares(c: Command, s: string, t: string) {
    match c
    case CreateTable(s2, t2, _) => Other(s, t, s2, t2)
    case AddColumn(s2, t2, _) => Other(s, t, s2, t2)
    case SetDataType(s2, t2) => Other(s, t, s2, t2)
    case CommitRename(s2, t2, _) => Other(s, t, s2, t2)
    case RenameTable(s2, t2, newTable) => Other(s, t, s2, t2) && Other(s, t, s2, newTable)
    case Rollback => false
    case _ => true
  }

  /** What is said about one table leaves the others alone. */
  lemma OtherTablesStay(r: Registry, c: Command, s: string, t: string)
    requires Dotless(s) && Spares(c, s, t)
    ensures var key := TableKey(s, t); var after := Apply(r, c).tables;
      (key in after <==> key in r.tables) && (key in r.tables ==> after[key] == r.tables[key])
  {
    hide TableKey, Normalize, WithColumn, Dotless;
    match c {
      case CreateTable(s2, t2, _) => TableKeyParts(s, t, s2, t2);
      case AddColumn(s2, t2, _) => TableKeyParts(s, t, s2, t2);
      case SetDataType(s2, t2) => TableKeyParts(s, t, s2, t2);
      case CommitRename(s2, t2, _) => TableKeyParts(s, t, s2, t2);
      case RenameTable(s2, t2, newTable) => TableKeyParts(s, t, s2, t2); TableKeyParts(s, t, s2, newTable);
      case _ =>
    }
  }

  /** Over any number of commands: a definition stays as it was stored until its own table is spoken of. */
  lemma {:induction false} DefinitionStays(r: Registry, cs: seq<Command>, s: string, t: string)
    requires Dotless(s) && forall k :: 0 <= k < |cs| ==> Spares(cs[k], s, t)
    ensures var key := TableKey(s, t); var after := RunAll(r, cs).tables;
      (key in after <==> key in r.tables) && (key in r.tables ==> after[key] == r.tables[key])
  {
    hide TableKey, Dotless, Apply, Spares;
    if cs != [] {
      DefinitionStays(r, cs[..|cs| - 1], s, t);
      OtherTablesStay(RunAll(r, cs[..|cs| - 1]), cs[|cs| - 1], s, t);
    }
  }

  /** What is found for a table after commands about others. */
  function Found(r: Registry, cs: seq<Command>, s: string, t: string): Option<Stored> {
    var tables := RunAll(r, cs).tables; var key := TableKey(s, t);
    if key in tables then Some(tables[key]) else None
  }

  lemma FoundStays(r: Registry, cs: seq<Command>, s: string, t: string)
    requires Dotless(s) && forall k :: 0 <= k < |cs| ==> Spares(cs[k], s, t)
    ensures Found(r, cs, s, t) == Found(r, [], s, t)
  {
    DefinitionStays(r, cs, s, t);
    hide TableKey, Dotless, Apply, Spares;
  }

  /** Until its table is spoken of again, the definition found is the last one registered or committed. */
  lemma LastDefinitionFound(r: Registry, cs: seq<Command>, s: string, t: string, ds: seq<Definition>)
    requires Dotless(s) && forall k :: 0 <= k < |cs| ==> Spares(cs[k], s, t)
    ensures Found(Apply(r, CreateTable(s, t, ds)), cs, s, t) == Some(Stored(s, t, ds))
    ensures Found(Apply(r, CommitRename(s, t, ds)), cs, s, t) == Some(Stored(s, t, ds))
  {
    FoundStays(Apply(r, CreateTable(s, t, ds)), cs, s, t);
    FoundStays(Apply(r, CommitRename(s, t, ds)), cs, s, t);
    hide TableKey, Dotless, Spares;
  }

  /** An added column stands behind all columns and before all constraints that the table had, which stay as they were. */
  lemma AddedColumnFound(r: Registry, cs: seq<Command>, s: string, t: string, column: Definition) returns (p: nat)
    requires Dotless(s) && Found(r, [], s, t).Some? && forall k :: 0 <= k < |cs| ==> Spares(cs[k], s, t)
    ensures var was := Found(r, [], s, t).value; var now := Found(Apply(r, AddColumn(s, t, column)), cs, s, t);
      && now.Some? && now.value == was.(definitions := now.value.definitions)
      && var ds := now.value.definitions;
      && p < |ds| && ds[p] == column && ds[..p] + ds[p + 1..] == was.definitions
      && (forall k :: 0 <= k < p ==> !IsConstraint(ds[k])) && (p + 1 < |ds| ==> IsConstraint(ds[p + 1]))
  {
    FoundStays(Apply(r, AddColumn(s, t, column)), cs, s, t);
    hide TableKey, Dotless, Spares, IsConstraint;
    p := FirstConstraint(Found(r, [], s, t).value.definitions);
  }

  /** A table whose column types were altered is unknown from then on. */
  lemma AlteredForgotten(r: Registry, cs: seq<Command>, s: string, t: string)
    requires Dotless(s) && forall k :: 0 <= k < |cs| ==> Spares(cs[k], s, t)
    ensures Found(Apply(r, SetDataType(s, t)), cs, s, t) == None
  {
    FoundStays(Apply(r, SetDataType(s, t)), cs, s, t);
    hide TableKey, Dotless, Spares;
  }

  /** A renamed table is found under its new name with the definitions it had, and under the old one no more. */
  lemma RenamedTableFound(r: Registry, cs: seq<Command>, s: string, t: string, newTable: string)
    requires Dotless(s) && Found(r, [], s, t).Some? && Normalize(newTable) != Normalize(t)
    requires forall k :: 0 <= k < |cs| ==> Spares(cs[k], s, t) && Spares(cs[k], s, newTable)
    ensures var after := Apply(r, RenameTable(s, t, newTable));
      && Found(after, cs, s, newTable) == Some(Stored(s, newTable, Found(r, [], s, t).value.definitions))
      && Found(after, cs, s, t) == None
  {
    var after := Apply(r, RenameTable(s, t, newTable));
    FoundStays(after, cs, s, newTable);
    FoundStays(after, cs, s, t);
    TableKeyParts(s, t, s, newTable);
    hide TableKey, Dotless, Spares, Normalize;
  }

  lemma CommitTwice(r: Registry, schema: string, table: string, once: seq<Definition>)
    requires TableKey(schema, table) in r.tables
    requires r.tables[TableKey(schema, table)].schema == schema && r.tables[TableKey(schema, table)].table == table
    ensures var ds := r.tables[TableKey(schema, table)].definitions;
      RunAll(r, [CommitRename(schema, table, once), CommitRename(schema, table, ds)]) == r
  {
    hide TableKey;
    var ds := r.tables[TableKey(schema, table)].definitions;
    var cs := [CommitRename(schema, table, once), CommitRename(schema, table, ds)];
    assert cs[..1] == [cs[0]] && cs[..1][..0] == [];
    assert RunAll(r, cs[..1]) == Apply(r, cs[0]);
    assert Apply(Apply(r, cs[0]), cs[1]).tables == r.tables;
  }

  /** Renaming a column there and back leaves the whole registry as it was, in the cases RenameThereAndBack admits. */
  lemma RegistryRenameBack(r: Registry, schema: string, table: string, oldSql: string, newSql: string, system: string)
    requires Proper(oldSql) && Proper(newSql) && Normalize(oldSql) != Normalize(newSql)
    requires TableKey(schema, table) in r.tables
    requires r.tables[TableKey(schema, table)].schema == schema && r.tables[TableKey(schema, table)].table == table
    requires forall k :: 0 <= k < |r.tables[TableKey(schema, table)].definitions| ==>
      PlainType(r.tables[TableKey(schema, table)].definitions[k])
      && RestorableIn(r.tables[TableKey(schema, table)].definitions[k], oldSql, newSql, system)
    requires Plan(r.tables[TableKey(schema, table)].definitions,
                  Request(Normalize(oldSql), Normalize(newSql), newSql), system).Some?
    ensures var ds := r.tables[TableKey(schema, table)].definitions;
      var once := Plan(ds, Request(Normalize(oldSql), Normalize(newSql), newSql), system).value;
      var back := Plan(once, Request(Normalize(newSql), Normalize(oldSql), oldSql), system);
      back.Some? && RunAll(r, [CommitRename(schema, table, once), CommitRename(schema, table, back.value)]) == r
  {
    var ds := r.tables[TableKey(schema, table)].definitions;
    RenameThereAndBack(ds, oldSql, newSql, system);
    hide Plan, Proper, RestorableIn, PlainType, Normalize, TableKey;
    CommitTwice(r, schema, table, Plan(ds, Request(Normalize(oldSql), Normalize(newSql), newSql), system).value);
  }
}
