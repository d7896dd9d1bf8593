/**
 * The Scriptable categories and the rules every category enumerator follows:
 * which catalog objects it keeps, whether its files carry the schema, and
 * its file extension.
 */
module Categories {
  import opened Smo

  /** The kinds of database object that are scripted, in declaration order. */
  datatype Scriptable =
    | Roles | Tables | Views | StoredProcedures | Schemas | Sequences | DatabaseTriggers
    | UserDefinedFunctions | UserDefinedDataTypes | UserDefinedTypes | Rules | Synonyms

  /** Enum.GetValues<Scriptable>(): every category once, in declaration order. */
  const DeclarationOrder: seq<Scriptable> := [
    Roles, Tables, Views, StoredProcedures, Schemas, Sequences, DatabaseTriggers,
    UserDefinedFunctions, UserDefinedDataTypes, UserDefinedTypes, Rules, Synonyms]

  lemma DeclarationOrderIsComplete(c: Scriptable)
    ensures c in DeclarationOrder
    ensures |DeclarationOrder| == 12
    ensures forall i, j :: 0 <= i < j < |DeclarationOrder| ==> DeclarationOrder[i] != DeclarationOrder[j]
  {
  }

  /** Which objects of a collection an enumerator keeps. */
  datatype Filter = KeepAll | SkipSystemObjects | SkipFixedRoles

  function FilterOf(c: Scriptable): Filter {
    match c
    case Roles => SkipFixedRoles
    case Tables | Views | StoredProcedures | UserDefinedFunctions | DatabaseTriggers | Schemas =>
      SkipSystemObjects
    case Rules | UserDefinedDataTypes | UserDefinedTypes | Sequences | Synonyms => KeepAll
  }

  /** Roles, database triggers and schemas are named without a schema. */
  predicate UsesSchema(c: Scriptable) {
    !(c.Roles? || c.DatabaseTriggers? || c.Schemas?)
  }

  function Extension(c: Scriptable): string {
    match c
    case Tables => "TAB"
    case Views => "VIW"
    case StoredProcedures => "PRC"
    case UserDefinedFunctions => "UDF"
    case Roles => "ROLE"
    case Rules => "RULE"
    case DatabaseTriggers => "TRIG"
    case Schemas => "SCH"
    case UserDefinedDataTypes => "UDDT"
    case UserDefinedTypes => "TYPE"
    case Sequences => "SEQ"
    case Synonyms => "SYNO"
  }

  /** The database collection a category enumerates. */
  function Objects(db: Database, c: Scriptable): seq<CatalogObject> {
    match c
    case Tables => db.tables
    case Views => db.views
    case StoredProcedures => db.storedProcedures
    case UserDefinedFunctions => db.userDefinedFunctions
    case Roles => db.roles
    case Rules => db.rules
    case DatabaseTriggers => db.triggers
    case Schemas => db.schemas
    case UserDefinedDataTypes => db.userDefinedDataTypes
    case UserDefinedTypes => db.userDefinedTypes
    case Sequences => db.sequences
    case Synonyms => db.synonyms
  }

  predicate Keeps(f: Filter, o: CatalogObject) {
    match f
    case KeepAll => true
    case SkipSystemObjects => !o.isSystemObject
    case SkipFixedRoles => !o.isFixedRole
  }

  /** The objects a filter keeps, in collection order. */
  function Retained(objs: seq<CatalogObject>, f: Filter): (r: seq<CatalogObject>)
    ensures |r| <= |objs|
    ensures forall i :: 0 <= i < |r| ==> Keeps(f, r[i]) && r[i] in objs
  {
    if objs == [] then []
    else
      var last := objs[|objs| - 1];
      Retained(objs[..|objs| - 1], f) + (if Keeps(f, last) then [last] else [])
  }

  /** An object survives filtering exactly when it is in the collection and the filter keeps it. */
  lemma {:induction false} RetainedExactly(objs: seq<CatalogObject>, f: Filter, o: CatalogObject)
    ensures o in Retained(objs, f) <==> o in objs && Keeps(f, o)
  {
    if objs != [] {
      var init := objs[..|objs| - 1];
      RetainedExactly(init, f, o);
      assert objs == init + [objs[|objs| - 1]];
    }
  }

  /** Filtering a concatenation filters each part: survivors keep their order. */
  lemma {:induction false} RetainedAppend(a: seq<CatalogObject>, b: seq<CatalogObject>, f: Filter)
    ensures Retained(a + b, f) == Retained(a, f) + Retained(b, f)
  {
    if b == [] {
      assert a + b == a;
    } else {
      var init := b[..|b| - 1];
      assert (a + b)[..|a + b| - 1] == a + init;
      RetainedAppend(a, init, f);
    }
  }

  /** Unfiltered categories keep every object. */
  lemma {:induction false} RetainedKeepAll(objs: seq<CatalogObject>)
    ensures Retained(objs, KeepAll) == objs
  {
    if objs != [] {
      RetainedKeepAll(objs[..|objs| - 1]);
    }
  }
}
