/**
 * The shapes the dump tool sees of SQL Server Management Objects (SMO): catalog
 * objects with their flags, a database's collections, the result of scripting
 * one object, and the scripting options. SMO itself is not part of this model;
 * the server's catalog and the scripter are inputs.
 */
module Smo {
  /** A reference to an IScriptable object; Null is a null reference. */
  datatype Handle = Null | Object(id: nat)

  /** A trigger attached to a table. */
  datatype Trigger = Trigger(handle: Handle, name: string)

  /**
   * One object of a catalog collection. Each category reads only the members
   * its SMO class has: the flags, the schema, and (for tables) the triggers.
   */
  datatype CatalogObject = CatalogObject(
    handle: Handle,
    schema: string,
    name: string,
    isSystemObject: bool,
    isFixedRole: bool,
    triggers: seq<Trigger>)

  /** The collections of one database, each in SMO's enumeration order. */
  datatype Database = Database(
    handle: Handle,
    tables: seq<CatalogObject>,
    views: seq<CatalogObject>,
    storedProcedures: seq<CatalogObject>,
    userDefinedFunctions: seq<CatalogObject>,
    roles: seq<CatalogObject>,
    rules: seq<CatalogObject>,
    triggers: seq<CatalogObject>,
    schemas: seq<CatalogObject>,
    userDefinedDataTypes: seq<CatalogObject>,
    userDefinedTypes: seq<CatalogObject>,
    sequences: seq<CatalogObject>,
    synonyms: seq<CatalogObject>)

  /** Server.Databases: a lookup by name that yields null for an unknown name. */
  type Server = map<string, Database>

  /**
   * What IScriptable.Script(options) does for one object: the script's
   * fragments, a FailedOperationException, or any other exception.
   */
  datatype ScriptResult = Lines(fragments: seq<string>) | FailedOp | OtherError

  /** The ScriptingOptions properties the tool sets. */
  datatype OptionFlag =
    | DriAll | Indexes | ClusteredIndexes | ColumnStoreIndexes | NonClusteredIndexes
    | FullTextCatalogs | FullTextIndexes | FullTextStopLists | IncludeFullTextCatalogRootPath
    | LoginSid | OptimizerData | Permissions | PrimaryObject | ScriptDataCompression
    | ScriptOwner | ScriptSchema | SpatialIndexes | XmlIndexes | ScriptBatchTerminator
    | Triggers | WithDependencies | ExtendedProperties | ContinueScriptingOnError

  /** IScriptable.Script: the scripter applied to a handle and the options set to true. */
  type Scripter = (Handle, set<OptionFlag>) -> ScriptResult
}
