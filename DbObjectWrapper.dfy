/**
 * The older variant of the descriptor and of the object list: the
 * DbObjectWrapper struct, and a DbObjectList that bumps the queue and max
 * counters handed to it.
 */
module LegacyObjects {
  import opened Wrappers
  import opened Smo
  import opened Text
  import opened Categories
  import opened Runtime
  import opened Counter
  import Sequences
  import ScriptableObjects

  /** Descriptor of one scriptable object; Schema and OverrideFilename may be null. */
  datatype DbObjectWrapper = DbObjectWrapper(
    scriptable: Handle,
    schema: Option<string>,
    name: string,
    ext: string,
    overrideFilename: Option<string>)
  {
    /** The output file name: the override, else [schema.]name.ext. */
    function FullName(): string {
      if overrideFilename.Some? then overrideFilename.value
      else if schema.Some? then schema.value + "." + name + "." + ext
      else name + "." + ext
    }
  }

  /** This variant spells the settings file with a lower-case 's'. */
  const SettingsSuffix: string := "-settings.TXT"

  /** The constructor for general objects: a backslash in the name becomes a dash. */
  function General(script: Handle, schema: Option<string>, name: string, extension: string): (o: DbObjectWrapper)
    ensures o.scriptable == script && o.schema == schema && o.ext == extension && o.overrideFilename.None?
    ensures |o.name| == |name| && '\\' !in o.name
    ensures forall i :: 0 <= i < |name| && name[i] != '\\' ==> o.name[i] == name[i]
    ensures forall i :: 0 <= i < |name| && name[i] == '\\' ==> o.name[i] == '-'
  {
    DbObjectWrapper(script, schema, Replace(name, '\\', '-'), extension, None)
  }

  /** The constructor for the database-settings object. */
  function DatabaseSettings(db: Handle, databaseName: string): (o: DbObjectWrapper)
    ensures o.FullName() == databaseName + SettingsSuffix
    ensures o.scriptable == db && o.schema.None? && o.name == "database settings" && o.ext == ""
  {
    DbObjectWrapper(db, None, "database settings", "", Some(databaseName + SettingsSuffix))
  }

  /**
   * The older FullName follows the same rule as the newer one, so without an
   * override and with dot-free fields it splits back into schema, name and
   * extension.
   */
  lemma FullNameRoundTrip(o: DbObjectWrapper)
    requires o.overrideFilename.None?
    requires o.schema.Some? ==> '.' !in o.schema.value
    requires '.' !in o.name && '.' !in o.ext
    ensures ScriptableObjects.SplitFileName(o.FullName()) == (o.schema, o.name, o.ext)
  {
    var n := ScriptableObjects.ScriptableObject(o.scriptable, o.schema, o.name, o.ext, o.overrideFilename);
    assert n.FullName() == o.FullName();
    ScriptableObjects.FullNameRoundTrip(n);
  }

  /** The two variants' settings file names are different strings (a lower-case versus an upper-case 's'). */
  lemma SettingsNamesDiffer(db: Handle, databaseName: string)
    ensures DatabaseSettings(db, databaseName).FullName()
         != ScriptableObjects.DatabaseSettings(db, databaseName).FullName()
  {
    var a := DatabaseSettings(db, databaseName).FullName();
    var b := ScriptableObjects.DatabaseSettings(db, databaseName).FullName();
    assert a[|databaseName| + 1] == 's' != 'S' == b[|databaseName| + 1];
  }

  // ---------------------------------------------------------------------
  // What an enumerator appends for a category.

  /** The descriptor built for one catalog object of category c. */
  function Describe(c: Scriptable, o: CatalogObject): DbObjectWrapper {
    General(o.handle, if UsesSchema(c) then Some(o.schema) else None, o.name, Extension(c))
  }

  /** The descriptors of the objects category c keeps, in collection order. */
  function Descriptors(c: Scriptable, objs: seq<CatalogObject>): (r: seq<DbObjectWrapper>)
    ensures |r| == |Retained(objs, FilterOf(c))|
  {
    if objs == [] then []
    else
      var last := objs[|objs| - 1];
      Descriptors(c, objs[..|objs| - 1]) + (if Keeps(FilterOf(c), last) then [Describe(c, last)] else [])
  }

  /** One more object appends its descriptor if the category keeps it. */
  lemma DescriptorsStep(c: Scriptable, objs: seq<CatalogObject>, i: nat)
    requires i < |objs|
    ensures Descriptors(c, objs[..i + 1])
         == Descriptors(c, objs[..i]) + (if Keeps(FilterOf(c), objs[i]) then [Describe(c, objs[i])] else [])
  {
    assert objs[..i + 1][..i] == objs[..i];
  }

  /** The descriptors are those of the kept objects, one each, in the same order. */
  lemma {:induction false} DescriptorsOfRetained(c: Scriptable, objs: seq<CatalogObject>, i: nat)
    requires i < |Descriptors(c, objs)|
    ensures Descriptors(c, objs)[i] == Describe(c, Retained(objs, FilterOf(c))[i])
  {
    var init := objs[..|objs| - 1];
    if i < |Descriptors(c, init)| {
      DescriptorsOfRetained(c, init, i);
    }
  }

  /** Every descriptor carries its category's extension, and a schema exactly when the category uses one. */
  lemma DescriptorsShape(c: Scriptable, objs: seq<CatalogObject>, i: nat)
    requires i < |Descriptors(c, objs)|
    ensures Descriptors(c, objs)[i].ext == Extension(c)
    ensures Descriptors(c, objs)[i].schema.Some? <==> UsesSchema(c)
    ensures Descriptors(c, objs)[i].overrideFilename.None?
  {
    DescriptorsOfRetained(c, objs, i);
  }

  /** The outcome of an enumerator: it throws at its first check if cancellation was already requested. */
  function Checked(canceled: bool, objs: seq<CatalogObject>): Option<Exception> {
    if canceled && objs != [] then Some(OperationCanceled) else None
  }

  /** A polymorphic list of database objects, filled one category at a time. */
  class DbObjectList {
    var items: seq<DbObjectWrapper>
    const queueCounter: SafeCounter
    const maxCounter: SafeCounter
    const cancellationToken: CancellationTokenSource

    ghost predicate Valid()
      reads this, queueCounter, maxCounter
    {
      queueCounter != maxCounter && queueCounter.Valid() && maxCounter.Valid()
    }

    constructor (queueCounter: SafeCounter, maxCounter: SafeCounter, cancellationToken: CancellationTokenSource)
      requires queueCounter != maxCounter && queueCounter.Valid() && maxCounter.Valid()
      ensures Valid() && items == []
      ensures this.queueCounter == queueCounter && this.maxCounter == maxCounter
      ensures this.cancellationToken == cancellationToken
    {
      items := [];
      this.queueCounter := queueCounter;
      this.maxCounter := maxCounter;
      this.cancellationToken := cancellationToken;
    }

    /** One more item in the queue, and one more ever enumerated. */
    method UpdateCounters()
      requires Valid()
      modifies queueCounter, maxCounter
      ensures Valid()
      ensures queueCounter.total == old(queueCounter.total) + 1
      ensures maxCounter.total == old(maxCounter.total) + 1
    {
      var _ := queueCounter.Increment();
      var _ := maxCounter.Increment();
    }

    /** Appends the database-settings item. */
    method AddDatabase(db: Handle, databaseName: string)
      requires Valid()
      modifies this, queueCounter, maxCounter
      ensures Valid() && items == old(items) + [DatabaseSettings(db, databaseName)]
      ensures queueCounter.total == old(queueCounter.total) + 1
      ensures maxCounter.total == old(maxCounter.total) + 1
    {
      UpdateCounters();
      items := items + [DatabaseSettings(db, databaseName)];
    }

    /** The loop every Add method runs over its collection. */
    method Enumerate(c: Scriptable, objs: seq<CatalogObject>) returns (thrown: Option<Exception>)
      requires Valid()
      modifies this, queueCounter, maxCounter
      ensures Valid()
      ensures thrown == Checked(cancellationToken.isCancellationRequested, objs)
      ensures items == old(items) + (if thrown.None? then Descriptors(c, objs) else [])
      ensures queueCounter.total == old(queueCounter.total) + |items| - |old(items)|
      ensures maxCounter.total == old(maxCounter.total) + |items| - |old(items)|
    {
      ghost var start, q0, m0 := items, queueCounter.total, maxCounter.total;
      var i := 0;
      while i < |objs|
        invariant 0 <= i <= |objs|
        invariant Valid()
        invariant i > 0 ==> !cancellationToken.isCancellationRequested
        invariant items == start + Descriptors(c, objs[..i])
        invariant queueCounter.total == q0 + |Descriptors(c, objs[..i])|
        invariant maxCounter.total == m0 + |Descriptors(c, objs[..i])|
      {
        if cancellationToken.isCancellationRequested {
          return Some(OperationCanceled);
        }
        var o := objs[i];
        ghost var before := Descriptors(c, objs[..i]);
        DescriptorsStep(c, objs, i);
        if Keeps(FilterOf(c), o) {
          Sequences.AppendAssociative(start, before, [Describe(c, o)]);
          UpdateCounters();
          items := items + [Describe(c, o)];
        }
        i := i + 1;
      }
      assert objs[..i] == objs;
      thrown := None;
    }

    method AddTables(tables: seq<CatalogObject>) returns (thrown: Option<Exception>)
      requires Valid()
      modifies this, queueCounter, maxCounter
      ensures Valid()
      ensures thrown == Checked(cancellationToken.isCancellationRequested, tables)
      ensures items == old(items) + (if thrown.None? then Descriptors(Tables, tables) else [])
      ensures queueCounter.total == old(queueCounter.total) + |items| - |old(items)|
      ensures maxCounter.total == old(maxCounter.total) + |items| - |old(items)|
    {
      thrown := Enumerate(Tables, tables);
    }

    method AddViews(views: seq<CatalogObject>) returns (thrown: Option<Exception>)
      requires Valid()
      modifies this, queueCounter, maxCounter
      ensures Valid()
      ensures thrown == Checked(cancellationToken.isCancellationRequested, views)
      ensures items == old(items) + (if thrown.None? then Descriptors(Views, views) else [])
      ensures queueCounter.total == old(queueCounter.total) + |items| - |old(items)|
      ensures maxCounter.total == old(maxCounter.total) + |items| - |old(items)|
    {
      thrown := Enumerate(Views, views);
    }

    method AddStoredProcedures(storedProcedures: seq<CatalogObject>) returns (thrown: Option<Exception>)
      requires Valid()
      modifies this, queueCounter, maxCounter
      ensures Valid()
      ensures thrown == Checked(cancellationToken.isCancellationRequested, storedProcedures)
      ensures items == old(items) + (if thrown.None? then Descriptors(StoredProcedures, storedProcedures) else [])
      ensures queueCounter.total == old(queueCounter.total) + |items| - |old(items)|
      ensures maxCounter.total == old(maxCounter.total) + |items| - |old(items)|
    {
      thrown := Enumerate(StoredProcedures, storedProcedures);
    }

    method AddUserDefinedFunctions(udfs: seq<CatalogObject>) returns (thrown: Option<Exception>)
      requires Valid()
      modifies this, queueCounter, maxCounter
      ensures Valid()
      ensures thrown == Checked(cancellationToken.isCancellationRequested, udfs)
      ensures items == old(items) + (if thrown.None? then Descriptors(UserDefinedFunctions, udfs) else [])
      ensures queueCounter.total == old(queueCounter.total) + |items| - |old(items)|
      ensures maxCounter.total == old(maxCounter.total) + |items| - |old(items)|
    {
      thrown := Enumerate(UserDefinedFunctions, udfs);
    }

    method AddRoles(roles: seq<CatalogObject>) returns (thrown: Option<Exception>)
      requires Valid()
      modifies this, queueCounter, maxCounter
      ensures Valid()
      ensures thrown == Checked(cancellationToken.isCancellationRequested, roles)
      ensures items == old(items) + (if thrown.None? then Descriptors(Roles, roles) else [])
      ensures queueCounter.total == old(queueCounter.total) + |items| - |old(items)|
      ensures maxCounter.total == old(maxCounter.total) + |items| - |old(items)|
    {
      thrown := Enumerate(Roles, roles);
    }

    method AddRules(rules: seq<CatalogObject>) returns (thrown: Option<Exception>)
      requires Valid()
      modifies this, queueCounter, maxCounter
      ensures Valid()
      ensures thrown == Checked(cancellationToken.isCancellationRequested, rules)
      ensures items == old(items) + (if thrown.None? then Descriptors(Rules, rules) else [])
      ensures queueCounter.total == old(queueCounter.total) + |items| - |old(items)|
      ensures maxCounter.total == old(maxCounter.total) + |items| - |old(items)|
    {
      thrown := Enumerate(Rules, rules);
    }

    method AddDatabaseTriggers(triggers: seq<CatalogObject>) returns (thrown: Option<Exception>)
      requires Valid()
      modifies this, queueCounter, maxCounter
      ensures Valid()
      ensures thrown == Checked(cancellationToken.isCancellationRequested, triggers)
      ensures items == old(items) + (if thrown.None? then Descriptors(DatabaseTriggers, triggers) else [])
      ensures queueCounter.total == old(queueCounter.total) + |items| - |old(items)|
      ensures maxCounter.total == old(maxCounter.total) + |items| - |old(items)|
    {
      thrown := Enumerate(DatabaseTriggers, triggers);
    }

    method AddSchemas(schemas: seq<CatalogObject>) returns (thrown: Option<Exception>)
      requires Valid()
      modifies this, queueCounter, maxCounter
      ensures Valid()
      ensures thrown == Checked(cancellationToken.isCancellationRequested, schemas)
      ensures items == old(items) + (if thrown.None? then Descriptors(Schemas, schemas) else [])
      ensures queueCounter.total == old(queueCounter.total) + |items| - |old(items)|
      ensures maxCounter.total == old(maxCounter.total) + |items| - |old(items)|
    {
      thrown := Enumerate(Schemas, schemas);
    }

    method AddUserDefinedDataTypes(types: seq<CatalogObject>) returns (thrown: Option<Exception>)
      requires Valid()
      modifies this, queueCounter, maxCounter
      ensures Valid()
      ensures thrown == Checked(cancellationToken.isCancellationRequested, types)
      ensures items == old(items) + (if thrown.None? then Descriptors(UserDefinedDataTypes, types) else [])
      ensures queueCounter.total == old(queueCounter.total) + |items| - |old(items)|
      ensures maxCounter.total == old(maxCounter.total) + |items| - |old(items)|
    {
      thrown := Enumerate(UserDefinedDataTypes, types);
    }

    method AddUserDefinedTypes(types: seq<CatalogObject>) returns (thrown: Option<Exception>)
      requires Valid()
      modifies this, queueCounter, maxCounter
      ensures Valid()
      ensures thrown == Checked(cancellationToken.isCancellationRequested, types)
      ensures items == old(items) + (if thrown.None? then Descriptors(UserDefinedTypes, types) else [])
      ensures queueCounter.total == old(queueCounter.total) + |items| - |old(items)|
      ensures maxCounter.total == old(maxCounter.total) + |items| - |old(items)|
    {
      thrown := Enumerate(UserDefinedTypes, types);
    }

    method AddSequences(sequences: seq<CatalogObject>) returns (thrown: Option<Exception>)
      requires Valid()
      modifies this, queueCounter, maxCounter
      ensures Valid()
      ensures thrown == Checked(cancellationToken.isCancellationRequested, sequences)
      ensures items == old(items) + (if thrown.None? then Descriptors(Sequences, sequences) else [])
      ensures queueCounter.total == old(queueCounter.total) + |items| - |old(items)|
      ensures maxCounter.total == old(maxCounter.total) + |items| - |old(items)|
    {
      thrown := Enumerate(Sequences, sequences);
    }

    method AddSynonyms(syns: seq<CatalogObject>) returns (thrown: Option<Exception>)
      requires Valid()
      modifies this, queueCounter, maxCounter
      ensures Valid()
      ensures thrown == Checked(cancellationToken.isCancellationRequested, syns)
      ensures items == old(items) + (if thrown.None? then Descriptors(Synonyms, syns) else [])
      ensures queueCounter.total == old(queueCounter.total) + |items| - |old(items)|
      ensures maxCounter.total == old(maxCounter.total) + |items| - |old(items)|
    {
      thrown := Enumerate(Synonyms, syns);
    }
  }
}
