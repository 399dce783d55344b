/**
 * The categories reflectivity is keyed on and the static table of their canonical
 * names (TRANSLATION_MAP in ReflectivityConfig.java) with its forward lookup, getName.
 */
module NameTable {

  /**
   * A block sound category of the table. The table is closed, so a category is a token
   * identified by its row in the table: 0 for WOOD up to 75 for POLISHED_DEEPSLATE.
   */
  newtype SoundType = row: int | 0 <= row < 76

  const WOOD: SoundType := 0
  const GRAVEL: SoundType := 1
  const GRASS: SoundType := 2
  const LILY_PAD: SoundType := 3
  const STONE: SoundType := 4
  const METAL: SoundType := 5
  const GLASS: SoundType := 6
  const WOOL: SoundType := 7
  const SAND: SoundType := 8
  const SNOW: SoundType := 9
  const POWDER_SNOW: SoundType := 10
  const LADDER: SoundType := 11
  const ANVIL: SoundType := 12
  const SLIME_BLOCK: SoundType := 13
  const HONEY_BLOCK: SoundType := 14
  const WET_GRASS: SoundType := 15
  const CORAL_BLOCK: SoundType := 16
  const BAMBOO: SoundType := 17
  const BAMBOO_SAPLING: SoundType := 18
  const SCAFFOLDING: SoundType := 19
  const SWEET_BERRY_BUSH: SoundType := 20
  const CROP: SoundType := 21
  const HARD_CROP: SoundType := 22
  const VINE: SoundType := 23
  const NETHER_WART: SoundType := 24
  const LANTERN: SoundType := 25
  const STEM: SoundType := 26
  const NYLIUM: SoundType := 27
  const FUNGUS: SoundType := 28
  const ROOTS: SoundType := 29
  const SHROOMLIGHT: SoundType := 30
  const WEEPING_VINES: SoundType := 31
  const TWISTING_VINES: SoundType := 32
  const SOUL_SAND: SoundType := 33
  const SOUL_SOIL: SoundType := 34
  const BASALT: SoundType := 35
  const WART_BLOCK: SoundType := 36
  const NETHERRACK: SoundType := 37
  const NETHER_BRICKS: SoundType := 38
  const NETHER_SPROUTS: SoundType := 39
  const NETHER_ORE: SoundType := 40
  const BONE_BLOCK: SoundType := 41
  const NETHERITE_BLOCK: SoundType := 42
  const ANCIENT_DEBRIS: SoundType := 43
  const LODESTONE: SoundType := 44
  const CHAIN: SoundType := 45
  const NETHER_GOLD_ORE: SoundType := 46
  const GILDED_BLACKSTONE: SoundType := 47
  const CANDLE: SoundType := 48
  const AMETHYST: SoundType := 49
  const AMETHYST_CLUSTER: SoundType := 50
  const SMALL_AMETHYST_BUD: SoundType := 51
  const MEDIUM_AMETHYST_BUD: SoundType := 52
  const LARGE_AMETHYST_BUD: SoundType := 53
  const TUFF: SoundType := 54
  const CALCITE: SoundType := 55
  const DRIPSTONE_BLOCK: SoundType := 56
  const POINTED_DRIPSTONE: SoundType := 57
  const COPPER: SoundType := 58
  const CAVE_VINES: SoundType := 59
  const SPORE_BLOSSOM: SoundType := 60
  const AZALEA: SoundType := 61
  const FLOWERING_AZALEA: SoundType := 62
  const MOSS_CARPET: SoundType := 63
  const MOSS: SoundType := 64
  const BIG_DRIPLEAF: SoundType := 65
  const SMALL_DRIPLEAF: SoundType := 66
  const ROOTED_DIRT: SoundType := 67
  const HANGING_ROOTS: SoundType := 68
  const AZALEA_LEAVES: SoundType := 69
  const SCULK_SENSOR: SoundType := 70
  const GLOW_LICHEN: SoundType := 71
  const DEEPSLATE: SoundType := 72
  const DEEPSLATE_BRICKS: SoundType := 73
  const DEEPSLATE_TILES: SoundType := 74
  const POLISHED_DEEPSLATE: SoundType := 75

  /** The key set of the table: every category. */
  const TableKeys: set<SoundType> := set t: SoundType | true

  /** TRANSLATION_MAP.get: the canonical name written for each category. */
  function GetName(t: SoundType): string
  {
    if t == WOOD then "WOOD"
    else if t == GRAVEL then "GRAVEL"
    else if t == GRASS then "GRASS"
    else if t == LILY_PAD then "LILY_PAD"
    else if t == STONE then "STONE"
    else if t == METAL then "METAL"
    else if t == GLASS then "GLASS"
    else if t == WOOL then "WOOL"
    else if t == SAND then "SAND"
    else if t == SNOW then "SNOW"
    else if t == POWDER_SNOW then "POWDER_SNOW"
    else if t == LADDER then "LADDER"
    else if t == ANVIL then "ANVIL"
    else if t == SLIME_BLOCK then "SLIME_BLOCK"
    else if t == HONEY_BLOCK then "HONEY_BLOCK"
    else if t == WET_GRASS then "WET_GRASS"
    else if t == CORAL_BLOCK then "CORAL_BLOCK"
    else if t == BAMBOO then "BAMBOO"
    else if t == BAMBOO_SAPLING then "BAMBOO_SAPLING"
    else if t == SCAFFOLDING then "SCAFFOLDING"
    else if t == SWEET_BERRY_BUSH then "SWEET_BERRY_BUSH"
    else if t == CROP then "CROP"
    else if t == HARD_CROP then "HARD_CROP"
    else if t == VINE then "VINE"
    else if t == NETHER_WART then "NETHER_WART"
    else if t == LANTERN then "LANTERN"
    else if t == STEM then "STEM"
    else if t == NYLIUM then "NYLIUM"
    else if t == FUNGUS then "FUNGUS"
    else if t == ROOTS then "ROOTS"
    else if t == SHROOMLIGHT then "SHROOMLIGHT"
    else if t == WEEPING_VINES then "WEEPING_VINES"
    else if t == TWISTING_VINES then "TWISTING_VINES"
    else if t == SOUL_SAND then "SOUL_SAND"
    else if t == SOUL_SOIL then "SOUL_SOIL"
    else if t == BASALT then "BASALT"
    else if t == WART_BLOCK then "WART_BLOCK"
    else if t == NETHERRACK then "NETHERRACK"
    else if t == NETHER_BRICKS then "NETHER_BRICKS"
    else if t == NETHER_SPROUTS then "NETHER_SPROUTS"
    else if t == NETHER_ORE then "NETHER_ORE"
    else if t == BONE_BLOCK then "BONE_BLOCK"
    else if t == NETHERITE_BLOCK then "NETHERITE_BLOCK"
    else if t == ANCIENT_DEBRIS then "ANCIENT_DEBRIS"
    else if t == LODESTONE then "LODESTONE"
    else if t == CHAIN then "CHAIN"
    else if t == NETHER_GOLD_ORE then "NETHER_GOLD_ORE"
    else if t == GILDED_BLACKSTONE then "GILDED_BLACKSTONE"
    else if t == CANDLE then "CANDLE"
    else if t == AMETHYST then "AMETHYST"
    else if t == AMETHYST_CLUSTER then "AMETHYST_CLUSTER"
    else if t == SMALL_AMETHYST_BUD then "SMALL_AMETHYST_BUD"
    else if t == MEDIUM_AMETHYST_BUD then "MEDIUM_AMETHYST_BUD"
    else if t == LARGE_AMETHYST_BUD then "LARGE_AMETHYST_BUD"
    else if t == TUFF then "TUFF"
    else if t == CALCITE then "CALCITE"
    else if t == DRIPSTONE_BLOCK then "DRIPSTONE_BLOCK"
    else if t == POINTED_DRIPSTONE then "POINTED_DRIPSTONE"
    else if t == COPPER then "COPPER"
    else if t == CAVE_VINES then "CAVE_VINES"
    else if t == SPORE_BLOSSOM then "SPORE_BLOSSOM"
    else if t == AZALEA then "AZALEA"
    else if t == FLOWERING_AZALEA then "FLOWERING_AZALEA"
    else if t == MOSS_CARPET then "MOSS_CARPET"
    else if t == MOSS then "MOSS"
    else if t == BIG_DRIPLEAF then "BIG_DRIPLEAF"
    else if t == SMALL_DRIPLEAF then "SMALL_DRIPLEAF"
    else if t == ROOTED_DIRT then "ROOTED_DIRT"
    else if t == HANGING_ROOTS then "HANGING_ROOTS"
    else if t == AZALEA_LEAVES then "AZALEA_LEAVES"
    else if t == SCULK_SENSOR then "SCULK_SENSOR"
    else if t == GLOW_LICHEN then "GLOW_LICHEN"
    else if t == DEEPSLATE then "DEEPSLATE"
    else if t == DEEPSLATE_BRICKS then "DEEPSLATE_BRICKS"
    else if t == DEEPSLATE_TILES then "DEEPSLATE_TILES"
    else "POLISHED_DEEPSLATE"
  }

  /** From position i on, s holds only upper-case ASCII letters and single underscores, ending in a letter. */
  predicate CanonicalFrom(s: string, i: nat)
    requires 1 <= i <= |s|
    decreases |s| - i
  {
    if i == |s| then 'A' <= s[i - 1] <= 'Z'
    else ('A' <= s[i] <= 'Z' || (s[i] == '_' && s[i - 1] != '_')) && CanonicalFrom(s, i + 1)
  }

  /** A canonical name: non-empty, upper-case ASCII letters separated by single underscores. */
  predicate IsCanonicalName(s: string)
  {
    |s| >= 1 && 'A' <= s[0] <= 'Z' && CanonicalFrom(s, 1)
  }

  /** Every category's name in the translation map is canonical. */
  lemma CanonicalName(t: SoundType)
    ensures IsCanonicalName(GetName(t))
  {
    if t as int < 13 {
      CanonicalRows0To12(t);
    } else if t as int < 26 {
      CanonicalRows13To25(t);
    } else if t as int < 39 {
      CanonicalRows26To38(t);
    } else if t as int < 52 {
      CanonicalRows39To51(t);
    } else if t as int < 65 {
      CanonicalRows52To64(t);
    } else {
      CanonicalRows65To75(t);
    }
  }

  /** The names of rows 0 to 12 are canonical. */
  lemma CanonicalRows0To12(t: SoundType)
    requires 0 <= t as int < 13
    ensures IsCanonicalName(GetName(t))
  {
    if t == WOOD {
      CanonicalWood();
    } else if t == GRAVEL {
      CanonicalGravel();
    } else if t == GRASS {
      CanonicalGrass();
    } else if t == LILY_PAD {
      CanonicalLilyPad();
    } else if t == STONE {
      CanonicalStone();
    } else if t == METAL {
      CanonicalMetal();
    } else if t == GLASS {
      CanonicalGlass();
    } else if t == WOOL {
      CanonicalWool();
    } else if t == SAND {
      CanonicalSand();
    } else if t == SNOW {
      CanonicalSnow();
    } else if t == POWDER_SNOW {
      CanonicalPowderSnow();
    } else if t == LADDER {
      CanonicalLadder();
    } else {
      CanonicalAnvil();
    }
  }

  /** The names of rows 13 to 25 are canonical. */
  lemma CanonicalRows13To25(t: SoundType)
    requires 13 <= t as int < 26
    ensures IsCanonicalName(GetName(t))
  {
    if t == SLIME_BLOCK {
      CanonicalSlimeBlock();
    } else if t == HONEY_BLOCK {
      CanonicalHoneyBlock();
    } else if t == WET_GRASS {
      CanonicalWetGrass();
    } else if t == CORAL_BLOCK {
      CanonicalCoralBlock();
    } else if t == BAMBOO {
      CanonicalBamboo();
    } else if t == BAMBOO_SAPLING {
      CanonicalBambooSapling();
    } else if t == SCAFFOLDING {
      CanonicalScaffolding();
    } else if t == SWEET_BERRY_BUSH {
      CanonicalSweetBerryBush();
    } else if t == CROP {
      CanonicalCrop();
    } else if t == HARD_CROP {
      CanonicalHardCrop();
    } else if t == VINE {
      CanonicalVine();
    } else if t == NETHER_WART {
      CanonicalNetherWart();
    } else {
      CanonicalLantern();
    }
  }

  /** The names of rows 26 to 38 are canonical. */
  lemma CanonicalRows26To38(t: SoundType)
    requires 26 <= t as int < 39
    ensures IsCanonicalName(GetName(t))
  {
    if t == STEM {
      CanonicalStem();
    } else if t == NYLIUM {
      CanonicalNylium();
    } else if t == FUNGUS {
      CanonicalFungus();
    } else if t == ROOTS {
      CanonicalRoots();
    } else if t == SHROOMLIGHT {
      CanonicalShroomlight();
    } else if t == WEEPING_VINES {
      CanonicalWeepingVines();
    } else if t == TWISTING_VINES {
      CanonicalTwistingVines();
    } else if t == SOUL_SAND {
      CanonicalSoulSand();
    } else if t == SOUL_SOIL {
      CanonicalSoulSoil();
    } else if t == BASALT {
      CanonicalBasalt();
    } else if t == WART_BLOCK {
      CanonicalWartBlock();
    } else if t == NETHERRACK {
      CanonicalNetherrack();
    } else {
      CanonicalNetherBricks();
    }
  }

  /** The names of rows 39 to 51 are canonical. */
  lemma CanonicalRows39To51(t: SoundType)
    requires 39 <= t as int < 52
    ensures IsCanonicalName(GetName(t))
  {
    if t == NETHER_SPROUTS {
      CanonicalNetherSprouts();
    } else if t == NETHER_ORE {
      CanonicalNetherOre();
    } else if t == BONE_BLOCK {
      CanonicalBoneBlock();
    } else if t == NETHERITE_BLOCK {
      CanonicalNetheriteBlock();
    } else if t == ANCIENT_DEBRIS {
      CanonicalAncientDebris();
    } else if t == LODESTONE {
      CanonicalLodestone();
    } else if t == CHAIN {
      CanonicalChain();
    } else if t == NETHER_GOLD_ORE {
      CanonicalNetherGoldOre();
    } else if t == GILDED_BLACKSTONE {
      CanonicalGildedBlackstone();
    } else if t == CANDLE {
      CanonicalCandle();
    } else if t == AMETHYST {
      CanonicalAmethyst();
    } else if t == AMETHYST_CLUSTER {
      CanonicalAmethystCluster();
    } else {
      CanonicalSmallAmethystBud();
    }
  }

  /** The names of rows 52 to 64 are canonical. */
  lemma CanonicalRows52To64(t: SoundType)
    requires 52 <= t as int < 65
    ensures IsCanonicalName(GetName(t))
  {
    if t == MEDIUM_AMETHYST_BUD {
      CanonicalMediumAmethystBud();
    } else if t == LARGE_AMETHYST_BUD {
      CanonicalLargeAmethystBud();
    } else if t == TUFF {
      CanonicalTuff();
    } else if t == CALCITE {
      CanonicalCalcite();
    } else if t == DRIPSTONE_BLOCK {
      CanonicalDripstoneBlock();
    } else if t == POINTED_DRIPSTONE {
      CanonicalPointedDripstone();
    } else if t == COPPER {
      CanonicalCopper();
    } else if t == CAVE_VINES {
      CanonicalCaveVines();
    } else if t == SPORE_BLOSSOM {
      CanonicalSporeBlossom();
    } else if t == AZALEA {
      CanonicalAzalea();
    } else if t == FLOWERING_AZALEA {
      CanonicalFloweringAzalea();
    } else if t == MOSS_CARPET {
      CanonicalMossCarpet();
    } else {
      CanonicalMoss();
    }
  }

  /** The names of rows 65 to 75 are canonical. */
  lemma CanonicalRows65To75(t: SoundType)
    requires 65 <= t as int < 76
    ensures IsCanonicalName(GetName(t))
  {
    if t == BIG_DRIPLEAF {
      CanonicalBigDripleaf();
    } else if t == SMALL_DRIPLEAF {
      CanonicalSmallDripleaf();
    } else if t == ROOTED_DIRT {
      CanonicalRootedDirt();
    } else if t == HANGING_ROOTS {
      CanonicalHangingRoots();
    } else if t == AZALEA_LEAVES {
      CanonicalAzaleaLeaves();
    } else if t == SCULK_SENSOR {
      CanonicalSculkSensor();
    } else if t == GLOW_LICHEN {
      CanonicalGlowLichen();
    } else if t == DEEPSLATE {
      CanonicalDeepslate();
    } else if t == DEEPSLATE_BRICKS {
      CanonicalDeepslateBricks();
    } else if t == DEEPSLATE_TILES {
      CanonicalDeepslateTiles();
    } else {
      CanonicalPolishedDeepslate();
    }
  }

  // One lemma per name of the table: each literal is canonical.

  lemma CanonicalWood()
    ensures IsCanonicalName("WOOD")
  {
  }

  lemma CanonicalGravel()
    ensures IsCanonicalName("GRAVEL")
  {
    assert CanonicalFrom("GRAVEL", 3);
  }

  lemma CanonicalGrass()
    ensures IsCanonicalName("GRASS")
  {
    assert CanonicalFrom("GRASS", 2);
  }

  lemma CanonicalLilyPad()
    ensures IsCanonicalName("LILY_PAD")
  {
    assert CanonicalFrom("LILY_PAD", 5);
    assert CanonicalFrom("LILY_PAD", 2);
  }

  lemma CanonicalStone()
    ensures IsCanonicalName("STONE")
  {
    assert CanonicalFrom("STONE", 2);
  }

  lemma CanonicalMetal()
    ensures IsCanonicalName("METAL")
  {
    assert CanonicalFrom("METAL", 2);
  }

  lemma CanonicalGlass()
    ensures IsCanonicalName("GLASS")
  {
    assert CanonicalFrom("GLASS", 2);
  }

  lemma CanonicalWool()
    ensures IsCanonicalName("WOOL")
  {
  }

  lemma CanonicalSand()
    ensures IsCanonicalName("SAND")
  {
  }

  lemma CanonicalSnow()
    ensures IsCanonicalName("SNOW")
  {
  }

  lemma CanonicalPowderSnow()
    ensures IsCanonicalName("POWDER_SNOW")
  {
    assert CanonicalFrom("POWDER_SNOW", 8);
    assert CanonicalFrom("POWDER_SNOW", 5);
    assert CanonicalFrom("POWDER_SNOW", 2);
  }

  lemma CanonicalLadder()
    ensures IsCanonicalName("LADDER")
  {
    assert CanonicalFrom("LADDER", 3);
  }

  lemma CanonicalAnvil()
    ensures IsCanonicalName("ANVIL")
  {
    assert CanonicalFrom("ANVIL", 2);
  }

  lemma CanonicalSlimeBlock()
    ensures IsCanonicalName("SLIME_BLOCK")
  {
    assert CanonicalFrom("SLIME_BLOCK", 8);
    assert CanonicalFrom("SLIME_BLOCK", 5);
    assert CanonicalFrom("SLIME_BLOCK", 2);
  }

  lemma CanonicalHoneyBlock()
    ensures IsCanonicalName("HONEY_BLOCK")
  {
    assert CanonicalFrom("HONEY_BLOCK", 8);
    assert CanonicalFrom("HONEY_BLOCK", 5);
    assert CanonicalFrom("HONEY_BLOCK", 2);
  }

  lemma CanonicalWetGrass()
    ensures IsCanonicalName("WET_GRASS")
  {
    assert CanonicalFrom("WET_GRASS", 6);
    assert CanonicalFrom("WET_GRASS", 3);
  }

  lemma CanonicalCoralBlock()
    ensures IsCanonicalName("CORAL_BLOCK")
  {
    assert CanonicalFrom("CORAL_BLOCK", 8);
    assert CanonicalFrom("CORAL_BLOCK", 5);
    assert CanonicalFrom("CORAL_BLOCK", 2);
  }

  lemma CanonicalBamboo()
    ensures IsCanonicalName("BAMBOO")
  {
    assert CanonicalFrom("BAMBOO", 3);
  }

  lemma CanonicalBambooSapling()
    ensures IsCanonicalName("BAMBOO_SAPLING")
  {
    assert CanonicalFrom("BAMBOO_SAPLING", 11);
    assert CanonicalFrom("BAMBOO_SAPLING", 8);
    assert CanonicalFrom("BAMBOO_SAPLING", 5);
    assert CanonicalFrom("BAMBOO_SAPLING", 2);
  }

  lemma CanonicalScaffolding()
    ensures IsCanonicalName("SCAFFOLDING")
  {
    assert CanonicalFrom("SCAFFOLDING", 8);
    assert CanonicalFrom("SCAFFOLDING", 5);
    assert CanonicalFrom("SCAFFOLDING", 2);
  }

  lemma CanonicalSweetBerryBush()
    ensures IsCanonicalName("SWEET_BERRY_BUSH")
  {
    assert CanonicalFrom("SWEET_BERRY_BUSH", 13);
    assert CanonicalFrom("SWEET_BERRY_BUSH", 10);
    assert CanonicalFrom("SWEET_BERRY_BUSH", 7);
    assert CanonicalFrom("SWEET_BERRY_BUSH", 4);
  }

  lemma CanonicalCrop()
    ensures IsCanonicalName("CROP")
  {
  }

  lemma CanonicalHardCrop()
    ensures IsCanonicalName("HARD_CROP")
  {
    assert CanonicalFrom("HARD_CROP", 6);
    assert CanonicalFrom("HARD_CROP", 3);
  }

  lemma CanonicalVine()
    ensures IsCanonicalName("VINE")
  {
  }

  lemma CanonicalNetherWart()
    ensures IsCanonicalName("NETHER_WART")
  {
    assert CanonicalFrom("NETHER_WART", 8);
    assert CanonicalFrom("NETHER_WART", 5);
    assert CanonicalFrom("NETHER_WART", 2);
  }

  lemma CanonicalLantern()
    ensures IsCanonicalName("LANTERN")
  {
    assert CanonicalFrom("LANTERN", 4);
  }

  lemma CanonicalStem()
    ensures IsCanonicalName("STEM")
  {
  }

  lemma CanonicalNylium()
    ensures IsCanonicalName("NYLIUM")
  {
    assert CanonicalFrom("NYLIUM", 3);
  }

  lemma CanonicalFungus()
    ensures IsCanonicalName("FUNGUS")
  {
    assert CanonicalFrom("FUNGUS", 3);
  }

  lemma CanonicalRoots()
    ensures IsCanonicalName("ROOTS")
  {
    assert CanonicalFrom("ROOTS", 2);
  }

  lemma CanonicalShroomlight()
    ensures IsCanonicalName("SHROOMLIGHT")
  {
    assert CanonicalFrom("SHROOMLIGHT", 8);
    assert CanonicalFrom("SHROOMLIGHT", 5);
    assert CanonicalFrom("SHROOMLIGHT", 2);
  }

  lemma CanonicalWeepingVines()
    ensures IsCanonicalName("WEEPING_VINES")
  {
    assert CanonicalFrom("WEEPING_VINES", 10);
    assert CanonicalFrom("WEEPING_VINES", 7);
    assert CanonicalFrom("WEEPING_VINES", 4);
  }

  lemma CanonicalTwistingVines()
    ensures IsCanonicalName("TWISTING_VINES")
  {
    assert CanonicalFrom("TWISTING_VINES", 11);
    assert CanonicalFrom("TWISTING_VINES", 8);
    assert CanonicalFrom("TWISTING_VINES", 5);
    assert CanonicalFrom("TWISTING_VINES", 2);
  }

  lemma CanonicalSoulSand()
    ensures IsCanonicalName("SOUL_SAND")
  {
    assert CanonicalFrom("SOUL_SAND", 6);
    assert CanonicalFrom("SOUL_SAND", 3);
  }

  lemma CanonicalSoulSoil()
    ensures IsCanonicalName("SOUL_SOIL")
  {
    assert CanonicalFrom("SOUL_SOIL", 6);
    assert CanonicalFrom("SOUL_SOIL", 3);
  }

  lemma CanonicalBasalt()
    ensures IsCanonicalName("BASALT")
  {
    assert CanonicalFrom("BASALT", 3);
  }

  lemma CanonicalWartBlock()
    ensures IsCanonicalName("WART_BLOCK")
  {
    assert CanonicalFrom("WART_BLOCK", 7);
    assert CanonicalFrom("WART_BLOCK", 4);
  }

  lemma CanonicalNetherrack()
    ensures IsCanonicalName("NETHERRACK")
  {
    assert CanonicalFrom("NETHERRACK", 7);
    assert CanonicalFrom("NETHERRACK", 4);
  }

  lemma CanonicalNetherBricks()
    ensures IsCanonicalName("NETHER_BRICKS")
  {
    assert CanonicalFrom("NETHER_BRICKS", 10);
    assert CanonicalFrom("NETHER_BRICKS", 7);
    assert CanonicalFrom("NETHER_BRICKS", 4);
  }

  lemma CanonicalNetherSprouts()
    ensures IsCanonicalName("NETHER_SPROUTS")
  {
    assert CanonicalFrom("NETHER_SPROUTS", 11);
    assert CanonicalFrom("NETHER_SPROUTS", 8);
    assert CanonicalFrom("NETHER_SPROUTS", 5);
    assert CanonicalFrom("NETHER_SPROUTS", 2);
  }

  lemma CanonicalNetherOre()
    ensures IsCanonicalName("NETHER_ORE")
  {
    assert CanonicalFrom("NETHER_ORE", 7);
    assert CanonicalFrom("NETHER_ORE", 4);
  }

  lemma CanonicalBoneBlock()
    ensures IsCanonicalName("BONE_BLOCK")
  {
    assert CanonicalFrom("BONE_BLOCK", 7);
    assert CanonicalFrom("BONE_BLOCK", 4);
  }

  lemma CanonicalNetheriteBlock()
    ensures IsCanonicalName("NETHERITE_BLOCK")
  {
    assert CanonicalFrom("NETHERITE_BLOCK", 12);
    assert CanonicalFrom("NETHERITE_BLOCK", 9);
    assert CanonicalFrom("NETHERITE_BLOCK", 6);
    assert CanonicalFrom("NETHERITE_BLOCK", 3);
  }

  lemma CanonicalAncientDebris()
    ensures IsCanonicalName("ANCIENT_DEBRIS")
  {
    assert CanonicalFrom("ANCIENT_DEBRIS", 11);
    assert CanonicalFrom("ANCIENT_DEBRIS", 8);
    assert CanonicalFrom("ANCIENT_DEBRIS", 5);
    assert CanonicalFrom("ANCIENT_DEBRIS", 2);
  }

  lemma CanonicalLodestone()
    ensures IsCanonicalName("LODESTONE")
  {
    assert CanonicalFrom("LODESTONE", 6);
    assert CanonicalFrom("LODESTONE", 3);
  }

  lemma CanonicalChain()
    ensures IsCanonicalName("CHAIN")
  {
    assert CanonicalFrom("CHAIN", 2);
  }

  lemma CanonicalNetherGoldOre()
    ensures IsCanonicalName("NETHER_GOLD_ORE")
  {
    assert CanonicalFrom("NETHER_GOLD_ORE", 12);
    assert CanonicalFrom("NETHER_GOLD_ORE", 9);
    assert CanonicalFrom("NETHER_GOLD_ORE", 6);
    assert CanonicalFrom("NETHER_GOLD_ORE", 3);
  }

  lemma CanonicalGildedBlackstone()
    ensures IsCanonicalName("GILDED_BLACKSTONE")
  {
    assert CanonicalFrom("GILDED_BLACKSTONE", 14);
    assert CanonicalFrom("GILDED_BLACKSTONE", 11);
    assert CanonicalFrom("GILDED_BLACKSTONE", 8);
    assert CanonicalFrom("GILDED_BLACKSTONE", 5);
    assert CanonicalFrom("GILDED_BLACKSTONE", 2);
  }

  lemma CanonicalCandle()
    ensures IsCanonicalName("CANDLE")
  {
    assert CanonicalFrom("CANDLE", 3);
  }

  lemma CanonicalAmethyst()
    ensures IsCanonicalName("AMETHYST")
  {
    assert CanonicalFrom("AMETHYST", 5);
    assert CanonicalFrom("AMETHYST", 2);
  }

  lemma CanonicalAmethystCluster()
    ensures IsCanonicalName("AMETHYST_CLUSTER")
  {
    assert CanonicalFrom("AMETHYST_CLUSTER", 13);
    assert CanonicalFrom("AMETHYST_CLUSTER", 10);
    assert CanonicalFrom("AMETHYST_CLUSTER", 7);
    assert CanonicalFrom("AMETHYST_CLUSTER", 4);
  }

  lemma CanonicalSmallAmethystBud()
    ensures IsCanonicalName("SMALL_AMETHYST_BUD")
  {
    assert CanonicalFrom("SMALL_AMETHYST_BUD", 15);
    assert CanonicalFrom("SMALL_AMETHYST_BUD", 12);
    assert CanonicalFrom("SMALL_AMETHYST_BUD", 9);
    assert CanonicalFrom("SMALL_AMETHYST_BUD", 6);
    assert CanonicalFrom("SMALL_AMETHYST_BUD", 3);
  }

  lemma CanonicalMediumAmethystBud()
    ensures IsCanonicalName("MEDIUM_AMETHYST_BUD")
  {
    assert CanonicalFrom("MEDIUM_AMETHYST_BUD", 16);
    assert CanonicalFrom("MEDIUM_AMETHYST_BUD", 13);
    assert CanonicalFrom("MEDIUM_AMETHYST_BUD", 10);
    assert CanonicalFrom("MEDIUM_AMETHYST_BUD", 7);
    assert CanonicalFrom("MEDIUM_AMETHYST_BUD", 4);
  }

  lemma CanonicalLargeAmethystBud()
    ensures IsCanonicalName("LARGE_AMETHYST_BUD")
  {
    assert CanonicalFrom("LARGE_AMETHYST_BUD", 15);
    assert CanonicalFrom("LARGE_AMETHYST_BUD", 12);
    assert CanonicalFrom("LARGE_AMETHYST_BUD", 9);
    assert CanonicalFrom("LARGE_AMETHYST_BUD", 6);
    assert CanonicalFrom("LARGE_AMETHYST_BUD", 3);
  }

  lemma CanonicalTuff()
    ensures IsCanonicalName("TUFF")
  {
  }

  lemma CanonicalCalcite()
    ensures IsCanonicalName("CALCITE")
  {
    assert CanonicalFrom("CALCITE", 4);
  }

  lemma CanonicalDripstoneBlock()
    ensures IsCanonicalName("DRIPSTONE_BLOCK")
  {
    assert CanonicalFrom("DRIPSTONE_BLOCK", 12);
    assert CanonicalFrom("DRIPSTONE_BLOCK", 9);
    assert CanonicalFrom("DRIPSTONE_BLOCK", 6);
    assert CanonicalFrom("DRIPSTONE_BLOCK", 3);
  }

  lemma CanonicalPointedDripstone()
    ensures IsCanonicalName("POINTED_DRIPSTONE")
  {
    assert CanonicalFrom("POINTED_DRIPSTONE", 14);
    assert CanonicalFrom("POINTED_DRIPSTONE", 11);
    assert CanonicalFrom("POINTED_DRIPSTONE", 8);
    assert CanonicalFrom("POINTED_DRIPSTONE", 5);
    assert CanonicalFrom("POINTED_DRIPSTONE", 2);
  }

  lemma CanonicalCopper()
    ensures IsCanonicalName("COPPER")
  {
    assert CanonicalFrom("COPPER", 3);
  }

  lemma CanonicalCaveVines()
    ensures IsCanonicalName("CAVE_VINES")
  {
    assert CanonicalFrom("CAVE_VINES", 7);
    assert CanonicalFrom("CAVE_VINES", 4);
  }

  lemma CanonicalSporeBlossom()
    ensures IsCanonicalName("SPORE_BLOSSOM")
  {
    assert CanonicalFrom("SPORE_BLOSSOM", 10);
    assert CanonicalFrom("SPORE_BLOSSOM", 7);
    assert CanonicalFrom("SPORE_BLOSSOM", 4);
  }

  lemma CanonicalAzalea()
    ensures IsCanonicalName("AZALEA")
  {
    assert CanonicalFrom("AZALEA", 3);
  }

  lemma CanonicalFloweringAzalea()
    ensures IsCanonicalName("FLOWERING_AZALEA")
  {
    assert CanonicalFrom("FLOWERING_AZALEA", 13);
    assert CanonicalFrom("FLOWERING_AZALEA", 10);
    assert CanonicalFrom("FLOWERING_AZALEA", 7);
    assert CanonicalFrom("FLOWERING_AZALEA", 4);
  }

  lemma CanonicalMossCarpet()
    ensures IsCanonicalName("MOSS_CARPET")
  {
    assert CanonicalFrom("MOSS_CARPET", 8);
    assert CanonicalFrom("MOSS_CARPET", 5);
    assert CanonicalFrom("MOSS_CARPET", 2);
  }

  lemma CanonicalMoss()
    ensures IsCanonicalName("MOSS")
  {
  }

  lemma CanonicalBigDripleaf()
    ensures IsCanonicalName("BIG_DRIPLEAF")
  {
    assert CanonicalFrom("BIG_DRIPLEAF", 9);
    assert CanonicalFrom("BIG_DRIPLEAF", 6);
    assert CanonicalFrom("BIG_DRIPLEAF", 3);
  }

  lemma CanonicalSmallDripleaf()
    ensures IsCanonicalName("SMALL_DRIPLEAF")
  {
    assert CanonicalFrom("SMALL_DRIPLEAF", 11);
    assert CanonicalFrom("SMALL_DRIPLEAF", 8);
    assert CanonicalFrom("SMALL_DRIPLEAF", 5);
    assert CanonicalFrom("SMALL_DRIPLEAF", 2);
  }

  lemma CanonicalRootedDirt()
    ensures IsCanonicalName("ROOTED_DIRT")
  {
    assert CanonicalFrom("ROOTED_DIRT", 8);
    assert CanonicalFrom("ROOTED_DIRT", 5);
    assert CanonicalFrom("ROOTED_DIRT", 2);
  }

  lemma CanonicalHangingRoots()
    ensures IsCanonicalName("HANGING_ROOTS")
  {
    assert CanonicalFrom("HANGING_ROOTS", 10);
    assert CanonicalFrom("HANGING_ROOTS", 7);
    assert CanonicalFrom("HANGING_ROOTS", 4);
  }

  lemma CanonicalAzaleaLeaves()
    ensures IsCanonicalName("AZALEA_LEAVES")
  {
    assert CanonicalFrom("AZALEA_LEAVES", 10);
    assert CanonicalFrom("AZALEA_LEAVES", 7);
    assert CanonicalFrom("AZALEA_LEAVES", 4);
  }

  lemma CanonicalSculkSensor()
    ensures IsCanonicalName("SCULK_SENSOR")
  {
    assert CanonicalFrom("SCULK_SENSOR", 9);
    assert CanonicalFrom("SCULK_SENSOR", 6);
    assert CanonicalFrom("SCULK_SENSOR", 3);
  }

  lemma CanonicalGlowLichen()
    ensures IsCanonicalName("GLOW_LICHEN")
  {
    assert CanonicalFrom("GLOW_LICHEN", 8);
    assert CanonicalFrom("GLOW_LICHEN", 5);
    assert CanonicalFrom("GLOW_LICHEN", 2);
  }

  lemma CanonicalDeepslate()
    ensures IsCanonicalName("DEEPSLATE")
  {
    assert CanonicalFrom("DEEPSLATE", 6);
    assert CanonicalFrom("DEEPSLATE", 3);
  }

  lemma CanonicalDeepslateBricks()
    ensures IsCanonicalName("DEEPSLATE_BRICKS")
  {
    assert CanonicalFrom("DEEPSLATE_BRICKS", 13);
    assert CanonicalFrom("DEEPSLATE_BRICKS", 10);
    assert CanonicalFrom("DEEPSLATE_BRICKS", 7);
    assert CanonicalFrom("DEEPSLATE_BRICKS", 4);
  }

  lemma CanonicalDeepslateTiles()
    ensures IsCanonicalName("DEEPSLATE_TILES")
  {
    assert CanonicalFrom("DEEPSLATE_TILES", 12);
    assert CanonicalFrom("DEEPSLATE_TILES", 9);
    assert CanonicalFrom("DEEPSLATE_TILES", 6);
    assert CanonicalFrom("DEEPSLATE_TILES", 3);
  }

  lemma CanonicalPolishedDeepslate()
    ensures IsCanonicalName("POLISHED_DEEPSLATE")
  {
    assert CanonicalFrom("POLISHED_DEEPSLATE", 15);
    assert CanonicalFrom("POLISHED_DEEPSLATE", 12);
    assert CanonicalFrom("POLISHED_DEEPSLATE", 9);
    assert CanonicalFrom("POLISHED_DEEPSLATE", 6);
    assert CanonicalFrom("POLISHED_DEEPSLATE", 3);
  }
}
