/**
 * Laws of the reflectivity maps: what createDefaultMap, the merge performed by load,
 * the property set written by saveSync and getReflectivity's lookup guarantee, and
 * the round trip from saving to loading.
 */
module ReflectivityLaws {
  import opened Wrappers
  import opened NameTable
  import NameIndex
  import opened NameLookup
  import opened ReflectivityMaps

  /** createDefaultMap covers the table exactly, writes its constants and leaves every other category at the default. */
  lemma DefaultsContents(dflt: real)
    ensures Defaults(dflt).Keys == TableKeys
    ensures Defaults(dflt)[STONE] == 1.5 && Defaults(dflt)[COPPER] == 1.25 && Defaults(dflt)[WOOL] == 0.1
    ensures Defaults(dflt)[NETHERRACK] == 1.1 && Defaults(dflt)[GLASS] == 0.75 && Defaults(dflt)[SNOW] == 0.15
    ensures forall t :: BuiltIn(t).Some? ==> Defaults(dflt)[t] == BuiltIn(t).value
    ensures forall t :: BuiltIn(t).None? ==> Defaults(dflt)[t] == dflt
  {
  }

  /** Merging an empty property set changes nothing. */
  lemma MergeNothing(base: Coefficients, parse: string -> Option<real>)
    ensures Merged(base, map[], parse) == base
  {
  }

  /** An entry that parses and names a category sets that category's coefficient and nothing else. */
  lemma MergeValidEntry(base: Coefficients, props: Properties, parse: string -> Option<real>, key: string, text: string)
    requires key !in props
    requires parse(text).Some? && FindByName(key).Some?
    ensures Merged(base, props[key := text], parse) == Merged(base, props, parse)[FindByName(key).value := parse(text).value]
  {
    var c := FindByName(key).value;
    forall t: SoundType
      ensures Supplied(props[key := text], parse, t) == if t == c then parse(text) else Supplied(props, parse, t)
    {
      FindResolvesOnly(key, t);
    }
  }

  /** An entry whose text does not parse, or whose key names no category, leaves the merge unchanged. */
  lemma MergeIgnoredEntry(base: Coefficients, props: Properties, parse: string -> Option<real>, key: string, text: string)
    requires key !in props
    requires parse(text).None? || FindByName(key).None?
    ensures Merged(base, props[key := text], parse) == Merged(base, props, parse)
  {
    forall t: SoundType
      ensures Supplied(props[key := text], parse, t) == Supplied(props, parse, t)
    {
      if GetName(t) == key {
        FindOfName(t);
      }
    }
  }

  /** Merging into a map over the whole table keeps the key set exactly the table's. */
  lemma MergedKeys(base: Coefficients, props: Properties, parse: string -> Option<real>)
    requires base.Keys == TableKeys
    ensures Merged(base, props, parse).Keys == TableKeys
  {
  }

  /**
   * After a load, a category's coefficient is the one its stored entry gives when that
   * entry parses, else the built-in constant, else the configured default; the
   * getReflectivity fallback is never used.
   */
  lemma LoadedCoefficient(dflt: real, props: Properties, parse: string -> Option<real>, t: SoundType, fallback: real)
    ensures Lookup(Merged(Defaults(dflt), props, parse), t, fallback) == Supplied(props, parse, t).GetOr(BuiltIn(t).GetOr(dflt))
  {
  }

  /** A category's name is a key of the written property set exactly when the category is in the map. */
  lemma SerializedAt(m: Coefficients, show: real -> string, t: SoundType)
    ensures GetName(t) in Serialized(m, show) <==> t in m
    ensures t in m ==> Serialized(m, show)[GetName(t)] == show(m[t])
  {
    if GetName(t) in Serialized(m, show) {
      var u :| u in m && GetName(u) == GetName(t);
      NameIndex.NamesDistinct();
    }
  }

  /** The written property set has one entry per map entry, keyed by its name and holding its rendered value. */
  lemma SerializedEntries(m: Coefficients, show: real -> string)
    ensures forall t :: t in m ==> GetName(t) in Serialized(m, show) && Serialized(m, show)[GetName(t)] == show(m[t])
    ensures forall k :: k in Serialized(m, show) ==> FindByName(k).Some? && FindByName(k).value in m
  {
    forall t | t in m
      ensures GetName(t) in Serialized(m, show) && Serialized(m, show)[GetName(t)] == show(m[t])
    {
      SerializedAt(m, show, t);
    }
    forall k | k in Serialized(m, show)
      ensures FindByName(k).Some? && FindByName(k).value in m
    {
      var t :| t in m && GetName(t) == k;
      FindOfName(t);
    }
  }

  /** Adding a category to the map adds exactly its entry to the written property set. */
  lemma SerializeStep(m: Coefficients, show: real -> string, t: SoundType, v: real)
    requires t !in m
    ensures Serialized(m[t := v], show) == Serialized(m, show)[GetName(t) := show(v)]
  {
    NameIndex.NamesDistinct();
  }

  /** The written property set has exactly as many entries as the map. */
  lemma {:induction false} SerializedSize(m: Coefficients, show: real -> string)
    ensures |Serialized(m, show)| == |m|
    decreases |m|
  {
    if m != map[] {
      var t :| t in m;
      var rest := m - {t};
      assert m == rest[t := m[t]];
      SerializedSize(rest, show);
      SerializeStep(rest, show, t, m[t]);
      SerializedAt(rest, show, t);
    }
  }

  /** Under the round-trip hypothesis, the written property set supplies each category exactly its coefficient in m. */
  lemma SuppliedBySerialized(m: Coefficients, show: real -> string, parse: string -> Option<real>, t: SoundType)
    requires RoundTrips(m, show, parse)
    ensures Supplied(Serialized(m, show), parse, t) == if t in m then Some(m[t]) else None
  {
    SerializedAt(m, show, t);
    if t in m {
      assert parse(show(m[t])) == Some(m[t]);
    }
  }

  /**
   * Round trip: when parsing a rendered coefficient gives it back, merging the property
   * set written for m into any base yields base overridden by m.
   */
  lemma RoundTrip(base: Coefficients, m: Coefficients, show: real -> string, parse: string -> Option<real>)
    requires RoundTrips(m, show, parse)
    ensures Merged(base, Serialized(m, show), parse) == base + m
  {
    forall t: SoundType
      ensures Supplied(Serialized(m, show), parse, t) == if t in m then Some(m[t]) else None
    {
      SuppliedBySerialized(m, show, parse, t);
    }
  }

  /** Setting a coefficient changes what getReflectivity reports for that category only. */
  lemma LookupAfterUpdate(m: Coefficients, t: SoundType, v: real, u: SoundType, dflt: real)
    ensures Lookup(m[t := v], t, dflt) == v
    ensures u != t ==> Lookup(m[t := v], u, dflt) == Lookup(m, u, dflt)
  {
  }

  /** Restricting to one more key adds exactly that key's entry. */
  lemma RestrictStep<K, V>(m: map<K, V>, ks: set<K>, k: K)
    requires k in m && k !in ks
    ensures Restrict(m, ks + {k}) == Restrict(m, ks)[k := m[k]]
  {
  }

  /** Restricting to every key gives the map back. */
  lemma RestrictAll<K, V>(m: map<K, V>)
    ensures Restrict(m, m.Keys) == m
  {
  }

  /** Overriding a map by one that covers all its keys gives the covering map. */
  lemma OverrideCovered(base: Coefficients, m: Coefficients)
    requires base.Keys <= m.Keys
    ensures base + m == m
  {
  }

  /** Saving one more category adds exactly its rendered entry to what has been written so far. */
  lemma SaveStep(m: Coefficients, done: set<SoundType>, t: SoundType, show: real -> string)
    requires t in m && t !in done
    ensures Serialized(Restrict(m, done + {t}), show) == Serialized(Restrict(m, done), show)[GetName(t) := show(m[t])]
  {
    RestrictStep(m, done, t);
    SerializeStep(Restrict(m, done), show, t, m[t]);
  }

  /** Moving one key from the pending part to the done part keeps the two a partition of the keys. */
  lemma MoveKey<K>(pending: set<K>, done: set<K>, keys: set<K>, k: K)
    requires pending + done == keys && pending !! done && k in pending
    ensures (pending - {k}) + (done + {k}) == keys && (pending - {k}) !! (done + {k})
  {
  }

  /**
   * A stored file holding STONE=2.0, NOT_A_CATEGORY=3.0 and WOOL=notanumber loads as
   * the defaults with only STONE changed: the unknown key and the unparsable value
   * are skipped, so WOOL keeps its built-in 0.1.
   */
  lemma ToleranceScenario(dflt: real, parse: string -> Option<real>)
    requires parse("2.0") == Some(2.0) && parse("3.0") == Some(3.0) && parse("notanumber") == None
    ensures var stored := map["STONE" := "2.0", "NOT_A_CATEGORY" := "3.0", "WOOL" := "notanumber"];
            Merged(Defaults(dflt), stored, parse) == Defaults(dflt)[STONE := 2.0]
    ensures FindByName("NOT_A_CATEGORY") == None
    ensures Defaults(dflt)[STONE := 2.0][WOOL] == 0.1
  {
    var base := Defaults(dflt);
    var p0: Properties := map[];
    var p1 := p0["STONE" := "2.0"];
    var p2 := p1["NOT_A_CATEGORY" := "3.0"];
    MergeNothing(base, parse);
    assert GetName(STONE) == "STONE";
    FindOfName(STONE);
    MergeValidEntry(base, p0, parse, "STONE", "2.0");
    UnknownCategory();
    MergeIgnoredEntry(base, p1, parse, "NOT_A_CATEGORY", "3.0");
    MergeIgnoredEntry(base, p2, parse, "WOOL", "notanumber");
    DefaultsContents(dflt);
  }

  /** NOT_A_CATEGORY names no category. */
  lemma UnknownCategory()
    ensures FindByName("NOT_A_CATEGORY") == None
  {
    FindAgreesWithIndex("NOT_A_CATEGORY");
    assert NameIndex.ReverseIndex("NOT_A_CATEGORY") == None;
  }
}
