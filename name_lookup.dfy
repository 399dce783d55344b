module NameLookup {
  import opened Wrappers
  import opened NameTable
  import opened NameIndex

  /**
   * The reverse lookup done while loading: the category whose table entry carries the
   * given name, or none when no entry does. Because the names are distinct, at most
   * one entry matches, so the entry the scan meets first is this one whatever order
   * the table is scanned in (see FindFirstAnyOrder).
   */
  function FindByName(key: string): (r: Option<SoundType>)
    ensures r.Some? ==> GetName(r.value) == key
    ensures r.None? <==> forall t: SoundType :: GetName(t) != key
  {
    if exists t: SoundType :: GetName(t) == key then
      NamesDistinct();
      var t :| GetName(t) == key; Some(t)
    else
      None
  }

  /** Looking up a category's own name gives back that category. */
  lemma FindOfName(t: SoundType)
    ensures FindByName(GetName(t)) == Some(t)
  {
    NamesDistinct();
  }

  /** A name that the reverse lookup resolves is the name of what it resolves to, and of nothing else. */
  lemma FindResolvesOnly(key: string, t: SoundType)
    ensures FindByName(key) == Some(t) <==> GetName(t) == key
  {
    NamesDistinct();
  }

  /** The scan of the table and the explicit reverse index agree on every text. */
  lemma FindAgreesWithIndex(key: string)
    ensures FindByName(key) == ReverseIndex(key)
  {
    match FindByName(key)
    case Some(t) =>
      ReverseIndexOfName(t);
    case None =>
  }

  /**
   * The stream that load runs, over one particular order of the table's entries: filter the
   * entries whose name equals key and keep the first.
   */
  function FindFirst(entries: seq<SoundType>, key: string): (r: Option<SoundType>)
    ensures r.Some? ==> r.value in entries && GetName(r.value) == key
    ensures r.None? <==> forall e :: e in entries ==> GetName(e) != key
  {
    if entries == [] then None
    else if GetName(entries[0]) == key then Some(entries[0])
    else FindFirst(entries[1..], key)
  }

  /** The result of the scan does not depend on the order in which the table is visited. */
  lemma FindFirstAnyOrder(entries: seq<SoundType>, key: string)
    requires forall t: SoundType :: t in entries
    ensures FindFirst(entries, key) == FindByName(key)
  {
    NamesDistinct();
  }
}
