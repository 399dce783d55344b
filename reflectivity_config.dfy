/**
 * ReflectivityConfig itself: the property set read from and written to the
 * configuration file, and the in-memory coefficient map that load, saveSync and
 * setReflectivity update in place.
 */
module Config {
  import opened Wrappers
  import opened NameTable
  import opened NameLookup
  import opened ReflectivityMaps
  import opened ReflectivityLaws

  class ReflectivityConfig {
    /** The key/value text store the configuration library reads the file into and writes it from. */
    var properties: Properties
    /** The coefficient held for each category. */
    var reflectivity: Coefficients

    /** The coefficient map covers the table exactly. */
    ghost predicate Valid()
      reads this
    {
      reflectivity.Keys == TableKeys
    }

    /**
     * Construction: the configuration library reads the file into the properties and
     * runs load, and the constructor then saves, rewriting the properties from the
     * loaded map. stored is what the file held.
     */
    constructor (stored: Properties, dflt: real, parse: string -> Option<real>, show: real -> string)
      ensures Valid()
      ensures reflectivity == Merged(Defaults(dflt), stored, parse)
      ensures properties == Serialized(reflectivity, show)
    {
      properties := stored;
      reflectivity := map[];
      new;
      Load(stored, dflt, parse);
      SaveSync(show);
    }

    /**
     * createDefaultMap: every table category at the configured default, then the
     * built-in constants written over it, in the order the source writes them.
     */
    method CreateDefaultMap(dflt: real) returns (m: Coefficients)
      ensures m == Defaults(dflt)
    {
      m := map[];
      var pending := TableKeys;
      while pending != {}
        invariant pending <= TableKeys
        invariant m == map t | t in TableKeys - pending :: dflt
        decreases pending
      {
        var t :| t in pending;
        m := m[t := dflt];
        pending := pending - {t};
      }
      m := m[STONE := 1.5];
      m := m[NETHERITE_BLOCK := 1.5];
      m := m[TUFF := 1.5];
      m := m[AMETHYST := 1.5];
      m := m[BASALT := 1.5];
      m := m[CALCITE := 1.5];
      m := m[BONE_BLOCK := 1.5];
      m := m[COPPER := 1.25];
      m := m[DEEPSLATE := 1.5];
      m := m[DEEPSLATE_BRICKS := 1.5];
      m := m[DEEPSLATE_TILES := 1.5];
      m := m[POLISHED_DEEPSLATE := 1.5];
      m := m[NETHER_BRICKS := 1.5];
      m := m[NETHERRACK := 1.1];
      m := m[NETHER_GOLD_ORE := 1.1];
      m := m[NETHER_ORE := 1.1];
      m := m[STEM := 0.4];
      m := m[WOOL := 0.1];
      m := m[HONEY_BLOCK := 0.1];
      m := m[MOSS := 0.1];
      m := m[SOUL_SAND := 0.2];
      m := m[SOUL_SOIL := 0.2];
      m := m[CORAL_BLOCK := 0.2];
      m := m[METAL := 1.25];
      m := m[WOOD := 0.4];
      m := m[GRAVEL := 0.3];
      m := m[GRASS := 0.3];
      m := m[GLASS := 0.75];
      m := m[SAND := 0.2];
      m := m[SNOW := 0.15];
    }

    /**
     * load, after the library has read the file into stored: the map is rebuilt from
     * the defaults, whatever it held before, and every entry whose text parses and
     * whose key names a category overrides that category; the others are skipped.
     */
    method Load(stored: Properties, dflt: real, parse: string -> Option<real>)
      modifies this
      ensures Valid()
      ensures properties == stored
      ensures reflectivity == Merged(Defaults(dflt), stored, parse)
    {
      properties := stored;
      reflectivity := CreateDefaultMap(dflt);
      MergeNothing(Defaults(dflt), parse);
      var pending := properties.Keys;
      ghost var done: set<string> := {};
      while pending != {}
        invariant properties == stored
        invariant pending + done == properties.Keys && pending !! done
        invariant reflectivity == Merged(Defaults(dflt), Restrict(properties, done), parse)
        decreases pending
      {
        var key :| key in pending;
        var text := properties[key];
        ghost var before := Restrict(properties, done);
        RestrictStep(properties, done, key);
        MoveKey(pending, done, properties.Keys, key);
        pending := pending - {key};
        done := done + {key};
        var value := parse(text);
        if value.None? {
          MergeIgnoredEntry(Defaults(dflt), before, parse, key, text);
          continue;
        }
        var soundType := FindByName(key);
        if soundType.None? {
          MergeIgnoredEntry(Defaults(dflt), before, parse, key, text);
          continue;
        }
        MergeValidEntry(Defaults(dflt), before, parse, key, text);
        reflectivity := reflectivity[soundType.value := value.value];
      }
      RestrictAll(properties);
      DefaultsContents(dflt);
      MergedKeys(Defaults(dflt), properties, parse);
    }

    /** saveSync: the properties are cleared and then hold exactly one entry per category in the map. */
    method SaveSync(show: real -> string)
      modifies this
      ensures properties == Serialized(reflectivity, show)
      ensures reflectivity == old(reflectivity)
    {
      properties := map[];
      var pending := reflectivity.Keys;
      ghost var done: set<SoundType> := {};
      while pending != {}
        invariant reflectivity == old(reflectivity)
        invariant pending + done == reflectivity.Keys && pending !! done
        invariant properties == Serialized(Restrict(reflectivity, done), show)
        decreases pending
      {
        var t :| t in pending;
        SaveStep(reflectivity, done, t, show);
        MoveKey(pending, done, reflectivity.Keys, t);
        properties := properties[GetName(t) := show(reflectivity[t])];
        pending := pending - {t};
        done := done + {t};
      }
      RestrictAll(reflectivity);
    }

    /** getReflectivity: the coefficient held for a category, or the default when none is held. */
    function GetReflectivity(t: SoundType, dflt: real): (r: real)
      reads this
      ensures t in reflectivity ==> r == reflectivity[t]
      ensures t !in reflectivity ==> r == dflt
      ensures Valid() ==> r == reflectivity[t]
    {
      Lookup(reflectivity, t, dflt)
    }

    /** setReflectivity: sets one category's coefficient and returns the configuration for chaining. */
    method SetReflectivity(t: SoundType, v: real) returns (self: ReflectivityConfig)
      modifies this
      ensures self == this
      ensures reflectivity == old(reflectivity)[t := v]
      ensures properties == old(properties)
      ensures old(Valid()) ==> Valid()
      ensures forall dflt :: GetReflectivity(t, dflt) == v
      ensures forall u, dflt :: u != t ==> GetReflectivity(u, dflt) == old(GetReflectivity(u, dflt))
    {
      reflectivity := reflectivity[t := v];
      self := this;
    }

    /**
     * save followed by load of what it wrote: when parsing gives back every rendered
     * coefficient, the map comes back unchanged.
     */
    method SaveThenLoad(dflt: real, parse: string -> Option<real>, show: real -> string)
      requires Valid()
      requires RoundTrips(reflectivity, show, parse)
      modifies this
      ensures Valid()
      ensures reflectivity == old(reflectivity)
      ensures properties == Serialized(reflectivity, show)
    {
      ghost var saved := reflectivity;
      SaveSync(show);
      Load(properties, dflt, parse);
      RoundTrip(Defaults(dflt), saved, show, parse);
      DefaultsContents(dflt);
      OverrideCovered(Defaults(dflt), saved);
    }
  }
}
