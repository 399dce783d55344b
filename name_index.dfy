/**
 * An explicit reverse index for the name table, used to prove that the table is
 * injective and that looking a name up recovers its category.
 */
module NameIndex {
  import opened Wrappers
  import opened NameTable

  /**
   * A reverse index from text to category, written independently of the forward table:
   * a decoding tree that looks at the length of the text and then at a few
   * distinguishing characters, confirmed against GetName so that it never answers with
   * a wrong category.
   */
  function ReverseIndex(name: string): (r: Option<SoundType>)
    ensures r.Some? ==> GetName(r.value) == name
  {
    var c := IndexCandidate(name);
    if c.Some? && GetName(c.value) == name then c else None
  }

  /** The only category whose name could be the given text, judged by its length and a few characters. */
  function IndexCandidate(name: string): Option<SoundType>
  {
    match |name|
    case 4 => Length4(name)
    case 5 => Length5(name)
    case 6 => Length6(name)
    case 7 => Length7(name)
    case 8 => Length8(name)
    case 9 => Length9(name)
    case 10 => Length10(name)
    case 11 => Length11(name)
    case 12 => Length12(name)
    case 13 => Length13(name)
    case 14 => Length14(name)
    case 15 => Length15(name)
    case 16 => Length16(name)
    case 17 => Length17(name)
    case 18 => Length18(name)
    case 19 => Length19(name)
    case _ => None
  }

  /** IndexCandidate for texts of length 4. */
  function Length4(name: string): Option<SoundType>
    requires |name| == 4
  {
    match name[3]
    case 'D' => (match name[0]
      case 'S' => Some(SAND)
      case 'W' => Some(WOOD)
      case _ => None)
    case 'E' => Some(VINE)
    case 'F' => Some(TUFF)
    case 'L' => Some(WOOL)
    case 'M' => Some(STEM)
    case 'P' => Some(CROP)
    case 'S' => Some(MOSS)
    case 'W' => Some(SNOW)
    case _ => None
  }

  /** IndexCandidate for texts of length 5. */
  function Length5(name: string): Option<SoundType>
    requires |name| == 5
  {
    match name[1]
    case 'E' => Some(METAL)
    case 'H' => Some(CHAIN)
    case 'L' => Some(GLASS)
    case 'N' => Some(ANVIL)
    case 'O' => Some(ROOTS)
    case 'R' => Some(GRASS)
    case 'T' => Some(STONE)
    case _ => None
  }

  /** IndexCandidate for texts of length 6. */
  function Length6(name: string): Option<SoundType>
    requires |name| == 6
  {
    match name[3]
    case 'A' => Some(BASALT)
    case 'B' => Some(BAMBOO)
    case 'D' => (match name[0]
      case 'C' => Some(CANDLE)
      case 'L' => Some(LADDER)
      case _ => None)
    case 'G' => Some(FUNGUS)
    case 'I' => Some(NYLIUM)
    case 'L' => Some(AZALEA)
    case 'P' => Some(COPPER)
    case 'V' => Some(GRAVEL)
    case _ => None
  }

  /** IndexCandidate for texts of length 7. */
  function Length7(name: string): Option<SoundType>
    requires |name| == 7
  {
    match name[0]
    case 'C' => Some(CALCITE)
    case 'L' => Some(LANTERN)
    case _ => None
  }

  /** IndexCandidate for texts of length 8. */
  function Length8(name: string): Option<SoundType>
    requires |name| == 8
  {
    match name[0]
    case 'A' => Some(AMETHYST)
    case 'L' => Some(LILY_PAD)
    case _ => None
  }

  /** IndexCandidate for texts of length 9. */
  function Length9(name: string): Option<SoundType>
    requires |name| == 9
  {
    match name[0]
    case 'D' => Some(DEEPSLATE)
    case 'H' => Some(HARD_CROP)
    case 'L' => Some(LODESTONE)
    case 'S' => (match name[6]
      case 'A' => Some(SOUL_SAND)
      case 'O' => Some(SOUL_SOIL)
      case _ => None)
    case 'W' => Some(WET_GRASS)
    case _ => None
  }

  /** IndexCandidate for texts of length 10. */
  function Length10(name: string): Option<SoundType>
    requires |name| == 10
  {
    match name[0]
    case 'B' => Some(BONE_BLOCK)
    case 'C' => Some(CAVE_VINES)
    case 'N' => (match name[6]
      case 'R' => Some(NETHERRACK)
      case '_' => Some(NETHER_ORE)
      case _ => None)
    case 'W' => Some(WART_BLOCK)
    case _ => None
  }

  /** IndexCandidate for texts of length 11. */
  function Length11(name: string): Option<SoundType>
    requires |name| == 11
  {
    match name[3]
    case 'A' => Some(CORAL_BLOCK)
    case 'D' => Some(POWDER_SNOW)
    case 'E' => Some(HONEY_BLOCK)
    case 'F' => Some(SCAFFOLDING)
    case 'H' => Some(NETHER_WART)
    case 'M' => Some(SLIME_BLOCK)
    case 'O' => Some(SHROOMLIGHT)
    case 'S' => Some(MOSS_CARPET)
    case 'T' => Some(ROOTED_DIRT)
    case 'W' => Some(GLOW_LICHEN)
    case _ => None
  }

  /** IndexCandidate for texts of length 12. */
  function Length12(name: string): Option<SoundType>
    requires |name| == 12
  {
    match name[0]
    case 'B' => Some(BIG_DRIPLEAF)
    case 'S' => Some(SCULK_SENSOR)
    case _ => None
  }

  /** IndexCandidate for texts of length 13. */
  function Length13(name: string): Option<SoundType>
    requires |name| == 13
  {
    match name[0]
    case 'A' => Some(AZALEA_LEAVES)
    case 'H' => Some(HANGING_ROOTS)
    case 'N' => Some(NETHER_BRICKS)
    case 'S' => Some(SPORE_BLOSSOM)
    case 'W' => Some(WEEPING_VINES)
    case _ => None
  }

  /** IndexCandidate for texts of length 14. */
  function Length14(name: string): Option<SoundType>
    requires |name| == 14
  {
    match name[0]
    case 'A' => Some(ANCIENT_DEBRIS)
    case 'B' => Some(BAMBOO_SAPLING)
    case 'N' => Some(NETHER_SPROUTS)
    case 'S' => Some(SMALL_DRIPLEAF)
    case 'T' => Some(TWISTING_VINES)
    case _ => None
  }

  /** IndexCandidate for texts of length 15. */
  function Length15(name: string): Option<SoundType>
    requires |name| == 15
  {
    match name[6]
    case 'A' => Some(DEEPSLATE_TILES)
    case 'I' => Some(NETHERITE_BLOCK)
    case 'O' => Some(DRIPSTONE_BLOCK)
    case '_' => Some(NETHER_GOLD_ORE)
    case _ => None
  }

  /** IndexCandidate for texts of length 16. */
  function Length16(name: string): Option<SoundType>
    requires |name| == 16
  {
    match name[0]
    case 'A' => Some(AMETHYST_CLUSTER)
    case 'D' => Some(DEEPSLATE_BRICKS)
    case 'F' => Some(FLOWERING_AZALEA)
    case 'S' => Some(SWEET_BERRY_BUSH)
    case _ => None
  }

  /** IndexCandidate for texts of length 17. */
  function Length17(name: string): Option<SoundType>
    requires |name| == 17
  {
    match name[0]
    case 'G' => Some(GILDED_BLACKSTONE)
    case 'P' => Some(POINTED_DRIPSTONE)
    case _ => None
  }

  /** IndexCandidate for texts of length 18. */
  function Length18(name: string): Option<SoundType>
    requires |name| == 18
  {
    match name[0]
    case 'L' => Some(LARGE_AMETHYST_BUD)
    case 'P' => Some(POLISHED_DEEPSLATE)
    case 'S' => Some(SMALL_AMETHYST_BUD)
    case _ => None
  }

  /** IndexCandidate for texts of length 19. */
  function Length19(name: string): Option<SoundType>
    requires |name| == 19
  {
    Some(MEDIUM_AMETHYST_BUD)
  }

  /** The decoding tree recovers the categories of rows 0 to 12; the table is proved in slices to keep each proof small. */
  lemma DecodeRows0To12(t: SoundType)
    requires 0 <= t as int < 13
    ensures IndexCandidate(GetName(t)) == Some(t)
  {
  }

  /** The decoding tree recovers the categories of rows 13 to 25. */
  lemma DecodeRows13To25(t: SoundType)
    requires 13 <= t as int < 26
    ensures IndexCandidate(GetName(t)) == Some(t)
  {
  }

  /** The decoding tree recovers the categories of rows 26 to 38. */
  lemma DecodeRows26To38(t: SoundType)
    requires 26 <= t as int < 39
    ensures IndexCandidate(GetName(t)) == Some(t)
  {
  }

  /** The decoding tree recovers the categories of rows 39 to 51. */
  lemma DecodeRows39To51(t: SoundType)
    requires 39 <= t as int < 52
    ensures IndexCandidate(GetName(t)) == Some(t)
  {
  }

  /** The decoding tree recovers the categories of rows 52 to 64. */
  lemma DecodeRows52To64(t: SoundType)
    requires 52 <= t as int < 65
    ensures IndexCandidate(GetName(t)) == Some(t)
  {
  }

  /** The decoding tree recovers the categories of rows 65 to 75. */
  lemma DecodeRows65To75(t: SoundType)
    requires 65 <= t as int < 76
    ensures IndexCandidate(GetName(t)) == Some(t)
  {
  }

  /** The decoding tree recovers every category from its name. */
  lemma IndexCandidateOfName(t: SoundType)
    ensures IndexCandidate(GetName(t)) == Some(t)
  {
    if t as int < 13 {
      DecodeRows0To12(t);
    } else if t as int < 26 {
      DecodeRows13To25(t);
    } else if t as int < 39 {
      DecodeRows26To38(t);
    } else if t as int < 52 {
      DecodeRows39To51(t);
    } else if t as int < 65 {
      DecodeRows52To64(t);
    } else {
      DecodeRows65To75(t);
    }
  }

  /** The reverse index recovers every category from its name. */
  lemma ReverseIndexOfName(t: SoundType)
    ensures ReverseIndex(GetName(t)) == Some(t)
  {
    IndexCandidateOfName(t);
  }

  /** No two categories share a name: the table is injective. */
  lemma NamesDistinct()
    ensures forall a: SoundType, b: SoundType :: GetName(a) == GetName(b) ==> a == b
  {
    forall a: SoundType, b: SoundType | GetName(a) == GetName(b)
      ensures a == b
    {
      ReverseIndexOfName(a);
      ReverseIndexOfName(b);
    }
  }
}
