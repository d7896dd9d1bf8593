/**
 * The newer DbObjectList: it fills a list of ScriptableObject descriptors,
 * nests each table's triggers right after the table, and bumps the shared
 * queue and max counters once per appended item.
 */
module ObjectList {
  import opened Wrappers
  import opened Smo
  import opened Text
  import opened Categories
  import opened Runtime
  import opened SharedState
  import opened ScriptableObjects
  import Counter
  import Sequences

  /** The descriptor built for one catalog object of category c. */
  function Describe(c: Scriptable, o: CatalogObject): ScriptableObject {
    General(o.handle, if UsesSchema(c) then Some(o.schema) else None, o.name, Extension(c))
  }

  /**
   * The descriptors of the objects category c keeps, in collection order
   * (every category but Tables). The older list in LegacyObjects has the same
   * shape over DbObjectWrapper: the two variants are separate builds of the
   * program with separate descriptor types, so each module states its own.
   */
  function Descriptors(c: Scriptable, objs: seq<CatalogObject>): (r: seq<ScriptableObject>)
    ensures |r| == |Retained(objs, FilterOf(c))|
  {
    if objs == [] then []
    else
      var last := objs[|objs| - 1];
      Descriptors(c, objs[..|objs| - 1]) + (if Keeps(FilterOf(c), last) then [Describe(c, last)] else [])
  }

  /** One more object appends its descriptor if the category keeps it. */
  lemma DescriptorsStep(c: Scriptable, objs: seq<CatalogObject>, i: nat)
    requires i < |objs|
    ensures Descriptors(c, objs[..i + 1])
         == Descriptors(c, objs[..i]) + (if Keeps(FilterOf(c), objs[i]) then [Describe(c, objs[i])] else [])
  {
    assert objs[..i + 1][..i] == objs[..i];
  }

  /** The descriptors are those of the kept objects, one each, in the same order. */
  lemma {:induction false} DescriptorsOfRetained(c: Scriptable, objs: seq<CatalogObject>, i: nat)
    requires i < |Descriptors(c, objs)|
    ensures Descriptors(c, objs)[i] == Describe(c, Retained(objs, FilterOf(c))[i])
  {
    var init := objs[..|objs| - 1];
    if i < |Descriptors(c, init)| {
      DescriptorsOfRetained(c, init, i);
    }
  }

  /** A trigger is filed under its table: the table's schema, "table-trigger" as the name, TRIG. */
  function TriggerDescriptor(table: CatalogObject, trigger: Trigger): ScriptableObject {
    General(trigger.handle, Some(table.schema), table.name + "-" + trigger.name, "TRIG")
  }

  /** The descriptors of a table's triggers, in trigger order. */
  function TriggerDescriptors(table: CatalogObject, triggers: seq<Trigger>): (r: seq<ScriptableObject>)
    ensures |r| == |triggers|
  {
    if triggers == [] then []
    else
      TriggerDescriptors(table, triggers[..|triggers| - 1]) + [TriggerDescriptor(table, triggers[|triggers| - 1])]
  }

  /** What one table contributes: nothing for a system table, else its TAB descriptor and then its triggers. */
  function TableEntry(table: CatalogObject): seq<ScriptableObject> {
    if table.isSystemObject then []
    else [Describe(Tables, table)] + TriggerDescriptors(table, table.triggers)
  }

  /** The descriptors AddTables appends, table by table in collection order. */
  function TableDescriptors(tables: seq<CatalogObject>): seq<ScriptableObject> {
    if tables == [] then []
    else TableDescriptors(tables[..|tables| - 1]) + TableEntry(tables[|tables| - 1])
  }

  /** The j-th trigger descriptor is that of the j-th trigger. */
  lemma {:induction false} TriggerDescriptorsAt(table: CatalogObject, triggers: seq<Trigger>, j: nat)
    requires j < |triggers|
    ensures TriggerDescriptors(table, triggers)[j] == TriggerDescriptor(table, triggers[j])
  {
    var init := triggers[..|triggers| - 1];
    if j < |init| {
      TriggerDescriptorsAt(table, init, j);
    }
  }

  /** Tables concatenate: each table's entry is contiguous and in collection order. */
  lemma {:induction false} TableDescriptorsAppend(a: seq<CatalogObject>, b: seq<CatalogObject>)
    ensures TableDescriptors(a + b) == TableDescriptors(a) + TableDescriptors(b)
  {
    if b == [] {
      assert a + b == a;
    } else {
      var init := b[..|b| - 1];
      var last := b[|b| - 1];
      calc {
        TableDescriptors(a + b);
      == { assert (a + b)[..|a + b| - 1] == a + init; assert (a + b)[|a + b| - 1] == last; }
        TableDescriptors(a + init) + TableEntry(last);
      == { TableDescriptorsAppend(a, init); }
        TableDescriptors(a) + TableDescriptors(init) + TableEntry(last);
      }
    }
  }

  /** One more table appends that table's entry. */
  lemma TableDescriptorsStep(tables: seq<CatalogObject>, i: nat)
    requires i < |tables|
    ensures TableDescriptors(tables[..i + 1]) == TableDescriptors(tables[..i]) + TableEntry(tables[i])
  {
    assert tables[..i + 1][..i] == tables[..i];
  }

  /** One more trigger appends that trigger's descriptor. */
  lemma TriggerDescriptorsStep(table: CatalogObject, triggers: seq<Trigger>, j: nat)
    requires j < |triggers|
    ensures TriggerDescriptors(table, triggers[..j + 1])
         == TriggerDescriptors(table, triggers[..j]) + [TriggerDescriptor(table, triggers[j])]
  {
    assert triggers[..j + 1][..j] == triggers[..j];
  }

  /**
   * Wherever a table stands in the collection, its TAB descriptor is
   * immediately followed by its triggers' descriptors, unless it is a system
   * table, which contributes nothing.
   */
  lemma TableInContext(before: seq<CatalogObject>, table: CatalogObject, after: seq<CatalogObject>)
    ensures TableDescriptors(before + [table] + after)
         == TableDescriptors(before)
          + (if table.isSystemObject then [] else [Describe(Tables, table)] + TriggerDescriptors(table, table.triggers))
          + TableDescriptors(after)
  {
    TableDescriptorsAppend(before + [table], after);
    TableDescriptorsAppend(before, [table]);
    assert [table][..0] == [];
  }

  /** A collection of system tables alone yields nothing, their triggers included. */
  lemma {:induction false} SystemTablesYieldNothing(tables: seq<CatalogObject>)
    requires forall i :: 0 <= i < |tables| ==> tables[i].isSystemObject
    ensures TableDescriptors(tables) == []
  {
    if tables != [] {
      SystemTablesYieldNothing(tables[..|tables| - 1]);
    }
  }

  /** A trigger's file sits beside its table's: schema.table-trigger.TRIG next to schema.table.TAB. */
  lemma TriggerFileName(table: CatalogObject, trigger: Trigger)
    ensures TriggerDescriptor(table, trigger).FullName()
         == table.schema + "." + Replace(table.name, '\\', '-') + "-" + Replace(trigger.name, '\\', '-') + ".TRIG"
    ensures Describe(Tables, table).FullName() == table.schema + "." + Replace(table.name, '\\', '-') + ".TAB"
  {
    ReplaceAppend(table.name + "-", trigger.name, '\\', '-');
    ReplaceAppend(table.name, "-", '\\', '-');
    assert Replace("-", '\\', '-') == "-";
  }

  /** The outcome of an enumerator: it throws at its first check if cancellation was already requested. */
  function Checked(canceled: bool, objs: seq<CatalogObject>): Option<Exception> {
    if canceled && objs != [] then Some(OperationCanceled) else None
  }

  /**
   * A polymorphic list of database objects, filled one category at a time.
   * The queue and max counters are the ones Shared holds for the whole run.
   */
  class DbObjectList {
    var items: seq<ScriptableObject>
    const queueCounter: Counter.SafeCounter
    const maxCounter: Counter.SafeCounter
    const cancellationToken: CancellationTokenSource

    ghost predicate Valid()
      reads this, queueCounter, maxCounter
    {
      queueCounter != maxCounter && queueCounter.Valid() && maxCounter.Valid()
    }

    constructor (shared: Shared, cancellationToken: CancellationTokenSource)
      requires shared.Valid()
      ensures Valid() && items == []
      ensures queueCounter == shared.queueCounter && maxCounter == shared.maxCounter
      ensures this.cancellationToken == cancellationToken
    {
      items := [];
      queueCounter := shared.queueCounter;
      maxCounter := shared.maxCounter;
      this.cancellationToken := cancellationToken;
    }

    /** One more item in the queue, and one more ever enumerated. */
    method UpdateCounters()
      requires Valid()
      modifies queueCounter, maxCounter
      ensures Valid()
      ensures queueCounter.total == old(queueCounter.total) + 1
      ensures maxCounter.total == old(maxCounter.total) + 1
    {
      var _ := queueCounter.Increment();
      var _ := maxCounter.Increment();
    }

    /** Appends the database-settings item. */
    method AddDatabase(db: Handle, databaseName: string)
      requires Valid()
      modifies this, queueCounter, maxCounter
      ensures Valid() && items == old(items) + [DatabaseSettings(db, databaseName)]
      ensures queueCounter.total == old(queueCounter.total) + 1
      ensures maxCounter.total == old(maxCounter.total) + 1
    {
      UpdateCounters();
      items := items + [DatabaseSettings(db, databaseName)];
    }

    /** Each non-system table, then its triggers; cancellation is checked before each table and each trigger. */
    method AddTables(tables: seq<CatalogObject>) returns (thrown: Option<Exception>)
      requires Valid()
      modifies this, queueCounter, maxCounter
      ensures Valid()
      ensures thrown == Checked(cancellationToken.isCancellationRequested, tables)
      ensures items == old(items) + (if thrown.None? then TableDescriptors(tables) else [])
      ensures queueCounter.total == old(queueCounter.total) + |items| - |old(items)|
      ensures maxCounter.total == old(maxCounter.total) + |items| - |old(items)|
    {
      var i := 0;
      while i < |tables|
        invariant 0 <= i <= |tables|
        invariant Valid()
        invariant i > 0 ==> !cancellationToken.isCancellationRequested
        invariant items == old(items) + TableDescriptors(tables[..i])
        invariant queueCounter.total == old(queueCounter.total) + |items| - |old(items)|
        invariant maxCounter.total == old(maxCounter.total) + |items| - |old(items)|
      {
        if cancellationToken.isCancellationRequested {
          return Some(OperationCanceled);
        }
        TableDescriptorsStep(tables, i);
        Sequences.AppendAssociative(old(items), TableDescriptors(tables[..i]), TableEntry(tables[i]));
        AddTable(tables[i]);
        i := i + 1;
      }
      assert tables[..i] == tables;
      thrown := None;
    }

    /** The body of AddTables for one table: unless it is a system table, its TAB descriptor and then one TRIG descriptor per trigger. */
    method AddTable(tab: CatalogObject)
      requires Valid() && !cancellationToken.isCancellationRequested
      modifies this, queueCounter, maxCounter
      ensures Valid()
      ensures items == old(items) + TableEntry(tab)
      ensures queueCounter.total == old(queueCounter.total) + |items| - |old(items)|
      ensures maxCounter.total == old(maxCounter.total) + |items| - |old(items)|
    {
      if tab.isSystemObject {
        return;
      }
      UpdateCounters();
      items := items + [Describe(Tables, tab)];
      var j := 0;
      while j < |tab.triggers|
        invariant 0 <= j <= |tab.triggers|
        invariant Valid()
        invariant items == old(items) + [Describe(Tables, tab)] + TriggerDescriptors(tab, tab.triggers[..j])
        invariant queueCounter.total == old(queueCounter.total) + |items| - |old(items)|
        invariant maxCounter.total == old(maxCounter.total) + |items| - |old(items)|
      {
        // The check before each trigger: in a sequential run nothing can
        // request cancellation after the check before the table passed.
        assert !cancellationToken.isCancellationRequested;
        TriggerDescriptorsStep(tab, tab.triggers, j);
        Sequences.AppendAssociative(old(items) + [Describe(Tables, tab)],
          TriggerDescriptors(tab, tab.triggers[..j]), [TriggerDescriptor(tab, tab.triggers[j])]);
        UpdateCounters();
        items := items + [TriggerDescriptor(tab, tab.triggers[j])];
        j := j + 1;
      }
      assert tab.triggers[..j] == tab.triggers;
    }

    /** The loop every other Add method runs over its collection. */
    method Enumerate(c: Scriptable, objs: seq<CatalogObject>) returns (thrown: Option<Exception>)
      requires Valid()
      modifies this, queueCounter, maxCounter
      ensures Valid()
      ensures thrown == Checked(cancellationToken.isCancellationRequested, objs)
      ensures items == old(items) + (if thrown.None? then Descriptors(c, objs) else [])
      ensures queueCounter.total == old(queueCounter.total) + |items| - |old(items)|
      ensures maxCounter.total == old(maxCounter.total) + |items| - |old(items)|
    {
      var i := 0;
      while i < |objs|
        invariant 0 <= i <= |objs|
        invariant Valid()
        invariant i > 0 ==> !cancellationToken.isCancellationRequested
        invariant items == old(items) + Descriptors(c, objs[..i])
        invariant queueCounter.total == old(queueCounter.total) + |items| - |old(items)|
        invariant maxCounter.total == old(maxCounter.total) + |items| - |old(items)|
      {
        if cancellationToken.isCancellationRequested {
          return Some(OperationCanceled);
        }
        var o := objs[i];
        DescriptorsStep(c, objs, i);
        if Keeps(FilterOf(c), o) {
          Sequences.AppendAssociative(old(items), Descriptors(c, objs[..i]), [Describe(c, o)]);
          UpdateCounters();
          items := items + [Describe(c, o)];
        }
        i := i + 1;
      }
      assert objs[..i] == objs;
      thrown := None;
    }

    method AddViews(views: seq<CatalogObject>) returns (thrown: Option<Exception>)
      requires Valid()
      modifies this, queueCounter, maxCounter
      ensures Valid()
      ensures thrown == Checked(cancellationToken.isCancellationRequested, views)
      ensures items == old(items) + (if thrown.None? then Descriptors(Views, views) else [])
      ensures queueCounter.total == old(queueCounter.total) + |items| - |old(items)|
      ensures maxCounter.total == old(maxCounter.total) + |items| - |old(items)|
    {
      thrown := Enumerate(Views, views);
    }

    method AddStoredProcedures(storedProcedures: seq<CatalogObject>) returns (thrown: Option<Exception>)
      requires Valid()
      modifies this, queueCounter, maxCounter
      ensures Valid()
      ensures thrown == Checked(cancellationToken.isCancellationRequested, storedProcedures)
      ensures items == old(items) + (if thrown.None? then Descriptors(StoredProcedures, storedProcedures) else [])
      ensures queueCounter.total == old(queueCounter.total) + |items| - |old(items)|
      ensures maxCounter.total == old(maxCounter.total) + |items| - |old(items)|
    {
      thrown := Enumerate(StoredProcedures, storedProcedures);
    }

    method AddUserDefinedFunctions(udfs: seq<CatalogObject>) returns (thrown: Option<Exception>)
      requires Valid()
      modifies this, queueCounter, maxCounter
      ensures Valid()
      ensures thrown == Checked(cancellationToken.isCancellationRequested, udfs)
      ensures items == old(items) + (if thrown.None? then Descriptors(UserDefinedFunctions, udfs) else [])
      ensures queueCounter.total == old(queueCounter.total) + |items| - |old(items)|
      ensures maxCounter.total == old(maxCounter.total) + |items| - |old(items)|
    {
      thrown := Enumerate(UserDefinedFunctions, udfs);
    }

    method AddRoles(roles: seq<CatalogObject>) returns (thrown: Option<Exception>)
      requires Valid()
      modifies this, queueCounter, maxCounter
      ensures Valid()
      ensures thrown == Checked(cancellationToken.isCancellationRequested, roles)
      ensures items == old(items) + (if thrown.None? then Descriptors(Roles, roles) else [])
      ensures queueCounter.total == old(queueCounter.total) + |items| - |old(items)|
      ensures maxCounter.total == old(maxCounter.total) + |items| - |old(items)|
    {
      thrown := Enumerate(Roles, roles);
    }

    method AddRules(rules: seq<CatalogObject>) returns (thrown: Option<Exception>)
      requires Valid()
      modifies this, queueCounter, maxCounter
      ensures Valid()
      ensures thrown == Checked(cancellationToken.isCancellationRequested, rules)
      ensures items == old(items) + (if thrown.None? then Descriptors(Rules, rules) else [])
      ensures queueCounter.total == old(queueCounter.total) + |items| - |old(items)|
      ensures maxCounter.total == old(maxCounter.total) + |items| - |old(items)|
    {
      thrown := Enumerate(Rules, rules);
    }

    method AddDatabaseTriggers(triggers: seq<CatalogObject>) returns (thrown: Option<Exception>)
      requires Valid()
      modifies this, queueCounter, maxCounter
      ensures Valid()
      ensures thrown == Checked(cancellationToken.isCancellationRequested, triggers)
      ensures items == old(items) + (if thrown.None? then Descriptors(DatabaseTriggers, triggers) else [])
      ensures queueCounter.total == old(queueCounter.total) + |items| - |old(items)|
      ensures maxCounter.total == old(maxCounter.total) + |items| - |old(items)|
    {
      thrown := Enumerate(DatabaseTriggers, triggers);
    }

    method AddSchemas(schemas: seq<CatalogObject>) returns (thrown: Option<Exception>)
      requires Valid()
      modifies this, queueCounter, maxCounter
      ensures Valid()
      ensures thrown == Checked(cancellationToken.isCancellationRequested, schemas)
      ensures items == old(items) + (if thrown.None? then Descriptors(Schemas, schemas) else [])
      ensures queueCounter.total == old(queueCounter.total) + |items| - |old(items)|
      ensures maxCounter.total == old(maxCounter.total) + |items| - |old(items)|
    {
      thrown := Enumerate(Schemas, schemas);
    }

    method AddUserDefinedDataTypes(types: seq<CatalogObject>) returns (thrown: Option<Exception>)
      requires Valid()
      modifies this, queueCounter, maxCounter
      ensures Valid()
      ensures thrown == Checked(cancellationToken.isCancellationRequested, types)
      ensures items == old(items) + (if thrown.None? then Descriptors(UserDefinedDataTypes, types) else [])
      ensures queueCounter.total == old(queueCounter.total) + |items| - |old(items)|
      ensures maxCounter.total == old(maxCounter.total) + |items| - |old(items)|
    {
      thrown := Enumerate(UserDefinedDataTypes, types);
    }

    method AddUserDefinedTypes(types: seq<CatalogObject>) returns (thrown: Option<Exception>)
      requires Valid()
      modifies this, queueCounter, maxCounter
      ensures Valid()
      ensures thrown == Checked(cancellationToken.isCancellationRequested, types)
      ensures items == old(items) + (if thrown.None? then Descriptors(UserDefinedTypes, types) else [])
      ensures queueCounter.total == old(queueCounter.total) + |items| - |old(items)|
      ensures maxCounter.total == old(maxCounter.total) + |items| - |old(items)|
    {
      thrown := Enumerate(UserDefinedTypes, types);
    }

    method AddSequences(sequences: seq<CatalogObject>) returns (thrown: Option<Exception>)
      requires Valid()
      modifies this, queueCounter, maxCounter
      ensures Valid()
      ensures thrown == Checked(cancellationToken.isCancellationRequested, sequences)
      ensures items == old(items) + (if thrown.None? then Descriptors(Sequences, sequences) else [])
      ensures queueCounter.total == old(queueCounter.total) + |items| - |old(items)|
      ensures maxCounter.total == old(maxCounter.total) + |items| - |old(items)|
    {
      thrown := Enumerate(Sequences, sequences);
    }

    method AddSynonyms(syns: seq<CatalogObject>) returns (thrown: Option<Exception>)
      requires Valid()
      modifies this, queueCounter, maxCounter
      ensures Valid()
      ensures thrown == Checked(cancellationToken.isCancellationRequested, syns)
      ensures items == old(items) + (if thrown.None? then Descriptors(Synonyms, syns) else [])
      ensures queueCounter.total == old(queueCounter.total) + |items| - |old(items)|
      ensures maxCounter.total == old(maxCounter.total) + |items| - |old(items)|
    {
      thrown := Enumerate(Synonyms, syns);
    }
  }
}
