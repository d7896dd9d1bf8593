/**
 * Shared: the process-wide scripting profiles, the three counters and the
 * bag of object names that failed. Each ScriptingOptions profile is modelled
 * as the set of option flags it sets to true.
 */
module SharedState {
  import opened Smo
  import Counter

  /** The Full profile as first built: everything but WithDependencies and ExtendedProperties. */
  const FullDefaults: set<OptionFlag> := {
    DriAll, Indexes, ClusteredIndexes, ColumnStoreIndexes, NonClusteredIndexes,
    FullTextCatalogs, FullTextIndexes, FullTextStopLists, IncludeFullTextCatalogRootPath,
    LoginSid, OptimizerData, Permissions, PrimaryObject, ScriptDataCompression,
    ScriptOwner, ScriptSchema, SpatialIndexes, XmlIndexes, ScriptBatchTerminator, Triggers}

  /** The Normal and the Minimal profile as first built. */
  const BasicDefaults: set<OptionFlag> := {DriAll, ScriptBatchTerminator, Triggers}

  /** The flags WithDependencies turns on in the Full and Normal profiles. */
  const DependencyFlags: set<OptionFlag> := {WithDependencies, ContinueScriptingOnError}

  /** The three profiles together: Full, Normal and Minimal. */
  datatype Profiles = Profiles(full: set<OptionFlag>, normal: set<OptionFlag>, minimal: set<OptionFlag>)

  /** The profiles after WithExtendedProperties: the flag is on in all three. */
  function ExtendedPropertiesOn(p: Profiles): (r: Profiles)
    ensures ExtendedProperties in r.full && ExtendedProperties in r.normal && ExtendedProperties in r.minimal
    ensures r.full - {ExtendedProperties} == p.full - {ExtendedProperties}
    ensures r.normal - {ExtendedProperties} == p.normal - {ExtendedProperties}
    ensures r.minimal - {ExtendedProperties} == p.minimal - {ExtendedProperties}
  {
    Profiles(p.full + {ExtendedProperties}, p.normal + {ExtendedProperties}, p.minimal + {ExtendedProperties})
  }

  /** The profiles after WithDependencies: both flags on in Full and Normal, Minimal as it was. */
  function DependenciesOn(p: Profiles): (r: Profiles)
    ensures DependencyFlags <= r.full && DependencyFlags <= r.normal && r.minimal == p.minimal
    ensures r.full - DependencyFlags == p.full - DependencyFlags
    ensures r.normal - DependencyFlags == p.normal - DependencyFlags
  {
    Profiles(p.full + DependencyFlags, p.normal + DependencyFlags, p.minimal)
  }

  class Shared {
    var scriptOptionsFull: set<OptionFlag>
    var scriptOptionsNormal: set<OptionFlag>
    var scriptOptionsMinimal: set<OptionFlag>

    /** Items currently queued: goes up while enumerating and down as items are written. */
    const queueCounter: Counter.SafeCounter
    /** Items ever enumerated: only goes up. */
    const maxCounter: Counter.SafeCounter
    /** Files written. */
    const writtenCounter: Counter.SafeCounter
    /** Names of objects that caused errors, in the bag's (unspecified) enumeration order. */
    var errorObjects: seq<string>

    /** The three profiles as they stand. */
    function Options(): Profiles
      reads this
    {
      Profiles(scriptOptionsFull, scriptOptionsNormal, scriptOptionsMinimal)
    }

    ghost predicate Valid()
      reads this, queueCounter, maxCounter, writtenCounter
    {
      && queueCounter != maxCounter && queueCounter != writtenCounter && maxCounter != writtenCounter
      && queueCounter.Valid() && maxCounter.Valid() && writtenCounter.Valid()
    }

    /** The initial state: default profiles, three counters at 0, an empty bag. */
    constructor ()
      ensures Valid()
      ensures scriptOptionsFull == FullDefaults
      ensures scriptOptionsNormal == BasicDefaults && scriptOptionsMinimal == BasicDefaults
      ensures queueCounter.counter == 0 && maxCounter.counter == 0 && writtenCounter.counter == 0
      ensures queueCounter.total == 0 && maxCounter.total == 0 && writtenCounter.total == 0
      ensures errorObjects == []
    {
      scriptOptionsFull := FullDefaults;
      scriptOptionsNormal := BasicDefaults;
      scriptOptionsMinimal := BasicDefaults;
      queueCounter := new Counter.SafeCounter();
      maxCounter := new Counter.SafeCounter();
      writtenCounter := new Counter.SafeCounter();
      errorObjects := [];
    }

    /** Turns ExtendedProperties on in all three profiles. */
    method WithExtendedProperties()
      modifies this
      ensures scriptOptionsFull == old(scriptOptionsFull) + {ExtendedProperties}
      ensures scriptOptionsNormal == old(scriptOptionsNormal) + {ExtendedProperties}
      ensures scriptOptionsMinimal == old(scriptOptionsMinimal) + {ExtendedProperties}
      ensures Options() == ExtendedPropertiesOn(old(Options()))
      ensures errorObjects == old(errorObjects)
    {
      scriptOptionsFull := scriptOptionsFull + {ExtendedProperties};
      scriptOptionsNormal := scriptOptionsNormal + {ExtendedProperties};
      scriptOptionsMinimal := scriptOptionsMinimal + {ExtendedProperties};
    }

    /** Turns WithDependencies and ContinueScriptingOnError on in Full and Normal; Minimal is left alone. */
    method WithDependencies()
      modifies this
      ensures scriptOptionsFull == old(scriptOptionsFull) + DependencyFlags
      ensures scriptOptionsNormal == old(scriptOptionsNormal) + DependencyFlags
      ensures scriptOptionsMinimal == old(scriptOptionsMinimal)
      ensures Options() == DependenciesOn(old(Options()))
      ensures errorObjects == old(errorObjects)
    {
      scriptOptionsFull := scriptOptionsFull + DependencyFlags;
      scriptOptionsNormal := scriptOptionsNormal + DependencyFlags;
    }
  }

  /** What the initial profiles hold: Normal and Minimal agree, and Full has neither optional flag. */
  lemma DefaultProfiles()
    ensures BasicDefaults <= FullDefaults
    ensures WithDependencies !in FullDefaults && ExtendedProperties !in FullDefaults
    ensures ContinueScriptingOnError !in FullDefaults
    ensures |BasicDefaults| == 3
  {
  }

  /** Applying either toggle a second time changes nothing, and the two toggles commute. */
  lemma TogglesAreIdempotent(p: Profiles)
    ensures ExtendedPropertiesOn(ExtendedPropertiesOn(p)) == ExtendedPropertiesOn(p)
    ensures DependenciesOn(DependenciesOn(p)) == DependenciesOn(p)
    ensures DependenciesOn(ExtendedPropertiesOn(p)) == ExtendedPropertiesOn(DependenciesOn(p))
  {
  }
}
