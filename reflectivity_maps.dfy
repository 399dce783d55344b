/**
 * The value-level meaning of ReflectivityConfig: the built-in coefficients that
 * createDefaultMap writes, the merge that load performs over the stored properties,
 * the property set that saveSync writes, and the lookup that getReflectivity does.
 *
 * Coefficients are reals. The library's parsing of a stored text into a number
 * (Double.parseDouble, which may fail) is the parameter `parse`, and its rendering
 * of a number as text (String.valueOf) is the parameter `show`.
 */
module ReflectivityMaps {
  import opened Wrappers
  import opened NameTable
  import opened NameIndex

  /** The flat text store the configuration file is read into and written from. */
  type Properties = map<string, string>

  /** The in-memory coefficient of each category. */
  type Coefficients = map<SoundType, real>

  /** Parsing what show renders for each coefficient of m gives back that coefficient. */
  ghost predicate RoundTrips(m: Coefficients, show: real -> string, parse: string -> Option<real>)
  {
    forall t :: t in m ==> parse(show(m[t])) == Some(m[t])
  }

  /** The constant createDefaultMap writes over the default for a category, if it writes one. */
  function BuiltIn(t: SoundType): Option<real>
  {
    if t == STONE || t == NETHERITE_BLOCK || t == TUFF || t == AMETHYST || t == BASALT ||
       t == CALCITE || t == BONE_BLOCK || t == DEEPSLATE || t == DEEPSLATE_BRICKS ||
       t == DEEPSLATE_TILES || t == POLISHED_DEEPSLATE || t == NETHER_BRICKS then
      Some(1.5)
    else if t == COPPER || t == METAL then
      Some(1.25)
    else if t == NETHERRACK || t == NETHER_GOLD_ORE || t == NETHER_ORE then
      Some(1.1)
    else if t == STEM || t == WOOD then
      Some(0.4)
    else if t == WOOL || t == HONEY_BLOCK || t == MOSS then
      Some(0.1)
    else if t == SOUL_SAND || t == SOUL_SOIL || t == CORAL_BLOCK || t == SAND then
      Some(0.2)
    else if t == GRAVEL || t == GRASS then
      Some(0.3)
    else if t == GLASS then
      Some(0.75)
    else if t == SNOW then
      Some(0.15)
    else
      None
  }

  /** The map createDefaultMap builds when the configured default coefficient is dflt. */
  function Defaults(dflt: real): Coefficients
  {
    map t | t in TableKeys :: BuiltIn(t).GetOr(dflt)
  }

  /**
   * The coefficient the stored properties give a category: the parsed value of the
   * entry keyed by the category's name, if there is such an entry and it parses.
   */
  function Supplied(props: Properties, parse: string -> Option<real>, t: SoundType): Option<real>
  {
    if GetName(t) in props then parse(props[GetName(t)]) else None
  }

  /** base with every category the properties supply a coefficient for set to that coefficient. */
  function Merged(base: Coefficients, props: Properties, parse: string -> Option<real>): Coefficients
  {
    map t | t in TableKeys && (t in base || Supplied(props, parse, t).Some?) ::
      if Supplied(props, parse, t).Some? then Supplied(props, parse, t).value else base[t]
  }

  /** The property set saveSync writes for a map: each category's name keyed to its rendered coefficient. */
  function Serialized(m: Coefficients, show: real -> string): Properties
  {
    NamesDistinct();
    map t | t in m :: GetName(t) := show(m[t])
  }

  /** The entries of m whose keys are among ks. */
  function Restrict<K, V>(m: map<K, V>, ks: set<K>): (r: map<K, V>)
    ensures r.Keys == m.Keys * ks
    ensures forall k :: k in r ==> r[k] == m[k]
  {
    map k | k in m && k in ks :: m[k]
  }

  /** The coefficient getReflectivity reports: the stored one, or the default when there is none. */
  function Lookup(m: Coefficients, t: SoundType, dflt: real): real
  {
    if t in m then m[t] else dflt
  }
}
