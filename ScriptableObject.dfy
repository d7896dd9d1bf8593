/**
 * ScriptableObject (the newer descriptor): one object to dump and the name of
 * the file it is written to.
 */
module ScriptableObjects {
  import opened Wrappers
  import opened Smo
  import opened Text

  /** Descriptor of one scriptable object; Schema and OverrideFilename may be null. */
  datatype ScriptableObject = ScriptableObject(
    scriptable: Handle,
    schema: Option<string>,
    name: string,
    ext: string,
    overrideFilename: Option<string>)
  {
    /** The output file name: the override, else [schema.]name.ext. */
    function FullName(): string {
      if overrideFilename.Some? then overrideFilename.value
      else if schema.Some? then schema.value + "." + name + "." + ext
      else name + "." + ext
    }
  }

  const SettingsSuffix: string := "-Settings.TXT"

  /** The constructor for general objects: a backslash in the name becomes a dash. */
  function General(script: Handle, schema: Option<string>, name: string, extension: string): (o: ScriptableObject)
    ensures o.scriptable == script && o.schema == schema && o.ext == extension && o.overrideFilename.None?
    ensures |o.name| == |name| && '\\' !in o.name
    ensures forall i :: 0 <= i < |name| && name[i] != '\\' ==> o.name[i] == name[i]
    ensures forall i :: 0 <= i < |name| && name[i] == '\\' ==> o.name[i] == '-'
  {
    ScriptableObject(script, schema, Replace(name, '\\', '-'), extension, None)
  }

  /** The constructor for the database-settings object. */
  function DatabaseSettings(db: Handle, databaseName: string): (o: ScriptableObject)
    ensures o.FullName() == databaseName + SettingsSuffix
    ensures o.scriptable == db && o.schema.None? && o.name == "database settings" && o.ext == ""
  {
    ScriptableObject(db, None, "database settings", "", Some(databaseName + SettingsSuffix))
  }

  /**
   * Reads a file name back as (schema, name, extension): with two or more
   * dots, the text before the first dot is the schema; the extension is what
   * follows the last dot read.
   */
  function SplitFileName(f: string): (Option<string>, string, string) {
    var k := IndexOfDot(f);
    if k == |f| then (None, f, "")
    else
      var rest := f[k + 1..];
      var j := IndexOfDot(rest);
      if j == |rest| then (None, f[..k], rest)
      else (Some(f[..k]), rest[..j], rest[j + 1..])
  }

  /**
   * Without an override, and with a schema, name and extension free of dots,
   * the file name splits back into exactly the descriptor's schema, name and
   * extension.
   */
  lemma FullNameRoundTrip(o: ScriptableObject)
    requires o.overrideFilename.None?
    requires o.schema.Some? ==> '.' !in o.schema.value
    requires '.' !in o.name && '.' !in o.ext
    ensures SplitFileName(o.FullName()) == (o.schema, o.name, o.ext)
  {
    var tail := o.name + "." + o.ext;
    IndexOfDotAfter(o.name, o.ext);
    assert tail[..|o.name|] == o.name && tail[|o.name| + 1..] == o.ext;
    if o.schema.Some? {
      var f := o.schema.value + "." + tail;
      assert o.FullName() == f;
      IndexOfDotAfter(o.schema.value, tail);
      assert f[..|o.schema.value|] == o.schema.value && f[|o.schema.value| + 1..] == tail;
    } else {
      IndexOfDotNone(o.ext);
    }
  }

  /** An override decides the file name whatever the other fields hold. */
  lemma OverrideIgnoresFields(o: ScriptableObject, databaseName: string)
    requires o.overrideFilename == Some(databaseName + SettingsSuffix)
    ensures o.FullName() == DatabaseSettings(o.scriptable, databaseName).FullName()
  {
  }

  predicate HasSuffix(s: string, suffix: string) {
    |suffix| <= |s| && s[|s| - |suffix|..] == suffix
  }

  /** A general object's file name always ends with "." and its extension. */
  lemma GeneralEndsWithExtension(script: Handle, schema: Option<string>, name: string, extension: string)
    ensures HasSuffix(General(script, schema, name, extension).FullName(), "." + extension)
  {
    var o := General(script, schema, name, extension);
    var prefix := if schema.Some? then schema.value + "." + o.name else o.name;
    assert o.FullName() == prefix + ("." + extension);
  }

  /** With a schema and extension free of backslashes, a general file name has none. */
  lemma GeneralHasNoBackslash(script: Handle, schema: Option<string>, name: string, extension: string)
    requires schema.Some? ==> '\\' !in schema.value
    requires '\\' !in extension
    ensures '\\' !in General(script, schema, name, extension).FullName()
  {
  }

  /**
   * Within one category (same extension, schema always present or always
   * absent), schemas without dots make file names distinct for distinct
   * (schema, cleaned name) pairs.
   */
  lemma GeneralFullNameInjective(
    h1: Handle, s1: Option<string>, n1: string,
    h2: Handle, s2: Option<string>, n2: string, extension: string)
    requires s1.Some? <==> s2.Some?
    requires s1.Some? ==> '.' !in s1.value && '.' !in s2.value
    requires General(h1, s1, n1, extension).FullName() == General(h2, s2, n2, extension).FullName()
    ensures s1 == s2
    ensures Replace(n1, '\\', '-') == Replace(n2, '\\', '-')
  {
    var a := General(h1, s1, n1, extension);
    var b := General(h2, s2, n2, extension);
    var tail := "." + extension;
    var pa := if s1.Some? then s1.value + "." + a.name else a.name;
    var pb := if s2.Some? then s2.value + "." + b.name else b.name;
    assert a.FullName() == pa + tail;
    assert b.FullName() == pb + tail;
    assert pa == (pa + tail)[..|pa|];
    assert pb == (pb + tail)[..|pb|];
    assert pa == pb;
    if s1.Some? {
      DotSplit(s1.value, a.name, s2.value, b.name);
    }
  }

  /** The position of the first dot in s, or |s| if there is none. */
  function IndexOfDot(s: string): (k: nat)
    ensures k <= |s|
  {
    if s == [] || s[0] == '.' then 0 else 1 + IndexOfDot(s[1..])
  }

  lemma {:induction false} IndexOfDotNone(x: string)
    requires '.' !in x
    ensures IndexOfDot(x) == |x|
  {
    if x != [] {
      IndexOfDotNone(x[1..]);
    }
  }

  lemma {:induction false} IndexOfDotAfter(x: string, y: string)
    requires '.' !in x
    ensures IndexOfDot(x + "." + y) == |x|
  {
    if x != [] {
      assert (x + "." + y)[1..] == x[1..] + "." + y;
      IndexOfDotAfter(x[1..], y);
    }
  }

  /** A dot-free prefix ends at the first dot. */
  lemma DotSplit(x1: string, y1: string, x2: string, y2: string)
    requires '.' !in x1 && '.' !in x2
    requires x1 + "." + y1 == x2 + "." + y2
    ensures x1 == x2 && y1 == y2
  {
    var s := x1 + "." + y1;
    IndexOfDotAfter(x1, y1);
    IndexOfDotAfter(x2, y2);
    assert x1 == s[..|x1|] == x2;
    assert y1 == s[|x1| + 1..] == y2;
  }

  /**
   * The settings file never has the name of an object file whose extension is
   * not "TXT" and has at least three characters and no dot, which holds for
   * every category's extension.
   */
  lemma SettingsNameIsDistinct(
    script: Handle, schema: Option<string>, name: string, extension: string,
    db: Handle, databaseName: string)
    requires |extension| >= 3 && '.' !in extension && extension != "TXT"
    ensures General(script, schema, name, extension).FullName() != DatabaseSettings(db, databaseName).FullName()
  {
    var f := General(script, schema, name, extension).FullName();
    var g := DatabaseSettings(db, databaseName).FullName();
    var e := "." + extension;
    GeneralEndsWithExtension(script, schema, name, extension);
    assert g[|g| - 4..] == ".TXT";
    assert f[|f| - |e|..] == e;
    if |extension| == 3 {
      assert e[1..] == extension;
      assert f[|f| - 4..] == e != ".TXT";
    } else {
      assert f[|f| - 4] == e[|e| - 4] == extension[|extension| - 4] != '.';
    }
  }
}
