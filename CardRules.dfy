/** The card rules of modules/mtg_generator.py that do not depend on pixels:
    the card-type lists, the type-to-colour table, the six `is_*_card`
    predicates that drive `generate_card`, the creature stat ranges, the
    mana-icon strip, the land legendary roll and title normalisation.

    Randomness: `random.choice(range(lo, hi))` and `random.randint(lo, hi - 1)`
    are modelled by `Pick(lo, hi, d)` over a raw draw `d`; every value of the
    range is the pick of some draw (`PickCovers`), so a property proved for
    every `d` holds for every outcome of the random call. */
module CardRules {
  import opened Wrappers

  // ---------------------------------------------------------------------------
  // Random choice
  // ---------------------------------------------------------------------------

  function Pick(lo: int, hi: int, d: nat): (r: int)
    requires lo < hi
    ensures lo <= r < hi
  {
    lo + d % (hi - lo)
  }

  lemma PickCovers(lo: int, hi: int, v: int)
    requires lo <= v < hi
    ensures Pick(lo, hi, (v - lo) as nat) == v
  {
  }

  /** `random.choice(range(lo, hi))`, which raises on an empty range. */
  function PickIn(lo: int, hi: int, d: nat): (r: Option<int>)
    ensures r.Some? <==> lo < hi
    ensures r.Some? ==> lo <= r.value < hi
  {
    if lo < hi then Some(Pick(lo, hi, d)) else None
  }

  // ---------------------------------------------------------------------------
  // Card types and colours (choose_card_type)
  // ---------------------------------------------------------------------------

  /** The base categories `random.sample` draws from, in the source's order. */
  const Categories: seq<string> := ["instant", "sorcery", "land", "creature", "artifact", "enchant"]

  /** The list `choose_card_type` draws the concrete type from, per category. */
  function ChoiceList(category: string): seq<string>
  {
    if category == "instant" then ["black_instant", "blue_instant", "green_instant", "red_instant", "white_instant"]
    else if category == "sorcery" then ["black_sorcery", "blue_sorcery", "green_sorcery", "red_sorcery", "white_sorcery"]
    else if category == "land" then ["artifact_land", "black_land", "blue_land", "green_land", "red_land", "white_land"]
    else if category == "creature" then
      ["artifact_creature", "black_creature", "blue_creature", "gold_creature", "green_creature", "red_creature", "white_creature"]
    else if category == "artifact" then ["artifact"]
    else if category == "enchant" then ["black_enchant", "blue_enchant", "green_enchant", "red_enchant", "white_enchant"]
    else []
  }

  /** `card_color_mapping`. */
  const ColorTable: map<string, string> := map[
    "artifact_creature" := "artifact", "black_creature" := "black", "blue_creature" := "blue",
    "gold_creature" := "gold", "green_creature" := "green", "red_creature" := "red",
    "white_creature" := "white",
    "artifact_land" := "artifact", "black_land" := "black", "blue_land" := "blue",
    "green_land" := "green", "red_land" := "red", "white_land" := "white",
    "black_instant" := "black", "blue_instant" := "blue", "green_instant" := "green",
    "red_instant" := "red", "white_instant" := "white",
    "black_sorcery" := "black", "blue_sorcery" := "blue", "green_sorcery" := "green",
    "red_sorcery" := "red", "white_sorcery" := "white",
    "artifact" := "artifact",
    "black_enchant" := "black", "blue_enchant" := "blue", "green_enchant" := "green",
    "red_enchant" := "red", "white_enchant" := "white"
  ]

  /** `card_color_mapping.get(card_type, 'error')`. */
  function ColorOf(cardType: string): string
  {
    if cardType in ColorTable then ColorTable[cardType] else "error"
  }

  /** The category `random.sample` picks for draw `d`. */
  function ChosenCategory(d: nat): (c: string)
    ensures c in Categories
  {
    Categories[Pick(0, |Categories|, d)]
  }

  /** The concrete type `choose_card_type` assigns for the two draws. */
  function ChosenType(categoryDraw: nat, typeDraw: nat): string
  {
    var list := ChoiceList(ChosenCategory(categoryDraw));
    assert |list| >= 1;
    list[Pick(0, |list|, typeDraw)]
  }

  // ---------------------------------------------------------------------------
  // The is_*_card predicates (their own lists, separate from the choice lists)
  // ---------------------------------------------------------------------------

  const ArtifactTypes: seq<string> := ["artifact"]
  const SorceryTypes: seq<string> := ["black_sorcery", "blue_sorcery", "green_sorcery", "red_sorcery", "white_sorcery"]
  const InstantTypes: seq<string> := ["black_instant", "blue_instant", "green_instant", "red_instant", "white_instant"]
  const CreatureTypes: seq<string> :=
    ["artifact_creature", "black_creature", "blue_creature", "gold_creature", "green_creature", "red_creature", "white_creature"]
  const LandTypes: seq<string> := ["artifact_land", "black_land", "blue_land", "green_land", "red_land", "white_land"]
  const EnchantTypes: seq<string> := ["black_enchant", "blue_enchant", "green_enchant", "red_enchant", "white_enchant"]

  predicate IsArtifactCard(t: string) { t in ArtifactTypes }
  predicate IsSorceryCard(t: string) { t in SorceryTypes }
  predicate IsInstantCard(t: string) { t in InstantTypes }
  predicate IsCreatureCard(t: string) { t in CreatureTypes }
  predicate IsLandCard(t: string) { t in LandTypes }
  predicate IsEnchantCard(t: string) { t in EnchantTypes }

  /** The build paths of `generate_card`, in the order its `if`s test them. */
  datatype Build = BuildCreature | BuildLand | BuildInstant | BuildSorcery | BuildArtifact | BuildEnchant

  /** The build paths `generate_card` runs for a card type: each `if` that holds adds one. */
  function BuildsFor(t: string): seq<Build>
  {
    (if IsCreatureCard(t) then [BuildCreature] else [])
    + (if IsLandCard(t) then [BuildLand] else [])
    + (if IsInstantCard(t) then [BuildInstant] else [])
    + (if IsSorceryCard(t) then [BuildSorcery] else [])
    + (if IsArtifactCard(t) then [BuildArtifact] else [])
    + (if IsEnchantCard(t) then [BuildEnchant] else [])
  }

  predicate Disjoint(a: seq<string>, b: seq<string>)
  {
    forall i, j :: 0 <= i < |a| && 0 <= j < |b| ==> a[i] != b[j]
  }

  /** The six lists of the `is_*_card` predicates are pairwise disjoint. */
  lemma TypeListsDisjoint()
    ensures Disjoint(ArtifactTypes, SorceryTypes) && Disjoint(ArtifactTypes, InstantTypes)
    ensures Disjoint(ArtifactTypes, CreatureTypes) && Disjoint(ArtifactTypes, LandTypes)
    ensures Disjoint(ArtifactTypes, EnchantTypes)
    ensures Disjoint(SorceryTypes, InstantTypes) && Disjoint(SorceryTypes, CreatureTypes)
    ensures Disjoint(SorceryTypes, LandTypes) && Disjoint(SorceryTypes, EnchantTypes)
    ensures Disjoint(InstantTypes, CreatureTypes) && Disjoint(InstantTypes, LandTypes)
    ensures Disjoint(InstantTypes, EnchantTypes)
    ensures Disjoint(CreatureTypes, LandTypes) && Disjoint(CreatureTypes, EnchantTypes)
    ensures Disjoint(LandTypes, EnchantTypes)
  {
  }

  /** Every type `choose_card_type` can produce has a colour other than
      `'error'`, and `generate_card` runs exactly one build path for it:
      the one of the category it was drawn from. */
  lemma ChosenTypeSpec(categoryDraw: nat, typeDraw: nat)
    ensures var t := ChosenType(categoryDraw, typeDraw);
            t in ChoiceList(ChosenCategory(categoryDraw))
            && ColorOf(t) != "error" && KnownColor(ColorOf(t))
            && (ColorOf(t) == "gold" ==> BuildsFor(t) == [BuildCreature])
            && |BuildsFor(t)| == 1
            && BuildsFor(t)[0] == CategoryBuild(ChosenCategory(categoryDraw))
  {
    var c := ChosenCategory(categoryDraw);
    var list := ChoiceList(c);
    var t := ChosenType(categoryDraw, typeDraw);
    var k := Pick(0, |list|, typeDraw);
    assert t == list[k];
    TypeListsDisjoint();
    ChoiceListMatchesPredicate(c, k);
  }

  /** No string of the list contains a '/'. */
  predicate NoSlashIn(list: seq<string>)
  {
    forall j :: 0 <= j < |list| ==> '/' !in list[j]
  }

  lemma InstantSorceryNoSlash()
    ensures NoSlashIn(ChoiceList("instant")) && NoSlashIn(ChoiceList("sorcery"))
  {
  }

  lemma LandNoSlash()
    ensures NoSlashIn(ChoiceList("land"))
  {
  }

  lemma CreatureNoSlash()
    ensures NoSlashIn(ChoiceList("creature"))
  {
  }

  lemma ArtifactEnchantNoSlash()
    ensures NoSlashIn(ChoiceList("artifact")) && NoSlashIn(ChoiceList("enchant"))
  {
  }

  /** No type `choose_card_type` can draw contains a '/', so a type used in a
      file name never adds a directory level. */
  lemma ChoiceListHasNoSlash(c: string, k: nat)
    requires c in Categories && k < |ChoiceList(c)|
    ensures '/' !in ChoiceList(c)[k]
  {
    InstantSorceryNoSlash();
    LandNoSlash();
    CreatureNoSlash();
    ArtifactEnchantNoSlash();
  }

  lemma ChosenTypeHasNoSlash(categoryDraw: nat, typeDraw: nat)
    ensures '/' !in ChosenType(categoryDraw, typeDraw)
  {
    var c := ChosenCategory(categoryDraw);
    ChoiceListHasNoSlash(c, Pick(0, |ChoiceList(c)|, typeDraw));
  }

  /** The build path that belongs to a category. */
  function CategoryBuild(category: string): Build
  {
    if category == "instant" then BuildInstant
    else if category == "sorcery" then BuildSorcery
    else if category == "land" then BuildLand
    else if category == "creature" then BuildCreature
    else if category == "artifact" then BuildArtifact
    else BuildEnchant
  }

  lemma ChoiceListMatchesPredicate(c: string, k: nat)
    requires c in Categories && k < |ChoiceList(c)|
    ensures ColorOf(ChoiceList(c)[k]) != "error" && KnownColor(ColorOf(ChoiceList(c)[k]))
    ensures ColorOf(ChoiceList(c)[k]) == "gold" ==> c == "creature"
    ensures BuildsFor(ChoiceList(c)[k]) == [CategoryBuild(c)]
  {
    if c == "instant" {
      OneBuild(InstantTypes, k, BuildInstant);
    } else if c == "sorcery" {
      OneBuild(SorceryTypes, k, BuildSorcery);
    } else if c == "land" {
      OneBuild(LandTypes, k, BuildLand);
    } else if c == "creature" {
      OneBuild(CreatureTypes, k, BuildCreature);
    } else if c == "artifact" {
      OneBuild(ArtifactTypes, k, BuildArtifact);
    } else {
      OneBuild(EnchantTypes, k, BuildEnchant);
    }
  }

  /** The predicate list a build path belongs to. */
  function BuildTypes(b: Build): seq<string>
  {
    match b
    case BuildCreature => CreatureTypes
    case BuildLand => LandTypes
    case BuildInstant => InstantTypes
    case BuildSorcery => SorceryTypes
    case BuildArtifact => ArtifactTypes
    case BuildEnchant => EnchantTypes
  }

  lemma OneBuild(list: seq<string>, k: nat, b: Build)
    requires list == BuildTypes(b) && k < |list|
    ensures ColorOf(list[k]) != "error" && KnownColor(ColorOf(list[k]))
    ensures ColorOf(list[k]) == "gold" ==> b == BuildCreature
    ensures BuildsFor(list[k]) == [b]
  {
    TypeListsDisjoint();
    var t := list[k];
    assert t in ColorTable;
    assert IsCreatureCard(t) <==> b == BuildCreature;
    assert IsLandCard(t) <==> b == BuildLand;
    assert IsInstantCard(t) <==> b == BuildInstant;
    assert IsSorceryCard(t) <==> b == BuildSorcery;
    assert IsArtifactCard(t) <==> b == BuildArtifact;
    assert IsEnchantCard(t) <==> b == BuildEnchant;
  }


  // ---------------------------------------------------------------------------
  // Mana and creature stats (__init__, paste_creature_card_atk_def)
  // ---------------------------------------------------------------------------

  /** `random.choice(range(1, 5))`: the primary mana of a new generator. */
  function PrimaryManaDraw(d: nat): (m: int)
    ensures 1 <= m <= 4
  {
    Pick(1, 5, d)
  }

  /** `random.choice(range(0, 5))`: the secondary mana of a new generator. */
  function SecondaryManaDraw(d: nat): (m: int)
    ensures 0 <= m <= 4
  {
    Pick(0, 5, d)
  }

  /** The colours `paste_creature_card_atk_def` and `paste_mana` list by name. */
  predicate IsPlainColor(color: string)
  {
    color in ["green", "red", "black", "white", "blue"]
  }

  /** The colours the card-building code handles: the five plain ones, gold and artifact. */
  predicate KnownColor(color: string)
  {
    IsPlainColor(color) || color == "gold" || color == "artifact"
  }

  datatype Stats = Stats(attack: int, defence: int)

  /** `paste_creature_card_atk_def` for a colour and mana, with the defence
      and attack draws. `None` stands for the exceptions the source would
      raise: `random.choice` on an empty range, or a colour outside the two
      branches (the stats are then never assigned). */
  function CreatureStats(color: string, primary: int, secondary: int, defDraw: nat, atkDraw: nat): Option<Stats>
  {
    if color == "gold" then
      var def := PickIn(1, primary * 2, defDraw);
      var atk := PickIn(0, primary * 2, atkDraw);
      if def.None? || atk.None? then None else Some(Stats(atk.value, def.value))
    else if IsPlainColor(color) || color == "artifact" then
      var total := primary + secondary;
      var minimumDef := if total / 2 > 1 then total / 2 else 1;
      var def := if minimumDef == total then Some(total) else PickIn(minimumDef, total, defDraw);
      var atk := PickIn(0, total, atkDraw);
      if def.None? || atk.None? then None else Some(Stats(atk.value, def.value))
    else None
  }

  /** For the mana a new generator can hold, every creature colour gets stats
      for every draw, within the ranges the code draws from: non-gold cards with
      t = primary + secondary have max(1, t // 2) <= defence <= t, defence == t
      only when max(1, t // 2) == t, and 0 <= attack < t; gold cards have
      1 <= defence < 2 * primary and 0 <= attack < 2 * primary. */
  lemma CreatureStatsRanges(color: string, primary: int, secondary: int, defDraw: nat, atkDraw: nat)
    requires 1 <= primary <= 4 && 0 <= secondary <= 4
    requires KnownColor(color)
    ensures CreatureStats(color, primary, secondary, defDraw, atkDraw).Some?
    ensures var st := CreatureStats(color, primary, secondary, defDraw, atkDraw).value;
            var t := primary + secondary;
            var minimumDef := if t / 2 > 1 then t / 2 else 1;
            if color == "gold" then
              1 <= st.defence < 2 * primary && 0 <= st.attack < 2 * primary
            else
              minimumDef <= st.defence <= t && (st.defence == t ==> minimumDef == t)
              && 0 <= st.attack < t
  {
    var t := primary + secondary;
    var minimumDef := if t / 2 > 1 then t / 2 else 1;
    if color != "gold" {
      assert minimumDef <= t;
    }
  }

  /** On a one-mana creature with no secondary mana the stats are fixed at defence 1. */
  lemma OneManaCreatureDefence(color: string, defDraw: nat, atkDraw: nat)
    requires color == "artifact" || IsPlainColor(color)
    ensures CreatureStats(color, 1, 0, defDraw, atkDraw) == Some(Stats(0, 1))
  {
  }

  // ---------------------------------------------------------------------------
  // Mana icons (paste_mana)
  // ---------------------------------------------------------------------------

  /** An icon of assets/icons: a colour symbol (`{color}mana.png`), a number
      (`{n}mana.png`) or, on legendary lands, a counted colour
      (`{n}{color}mana.png`). */
  datatype ManaIcon = ColorIcon(color: string) | NumberIcon(n: int) | CountedColorIcon(n: int, color: string)

  /** One icon pasted into the strip at horizontal offset `x`. */
  datatype Placed = Placed(icon: ManaIcon, x: int)

  /** The strip `paste_mana` builds: its width, the x at which it is pasted on
      the card (`676 - width`, y = 49), the icons in paste order, and the
      secondary mana the card holds afterwards. */
  datatype ManaStrip = ManaStrip(width: int, left: int, icons: seq<Placed>, secondaryAfter: int)

  /** The colours a gold card's primary icons are drawn from, in `image_paths` order. */
  const GoldColors: seq<string> := ["red", "black", "white", "green", "blue"]

  /** The icon of the i-th primary mana for a colour (gold cards draw one per icon). */
  function PrimaryIcon(color: string, goldDraw: nat): (icon: ManaIcon)
    ensures color == "gold" ==> icon.ColorIcon? && icon.color in GoldColors
  {
    if color == "gold" then ColorIcon(GoldColors[Pick(0, |GoldColors|, goldDraw)]) else ColorIcon(color)
  }

  /** The primary icons of a coloured or gold card: the i-th at `width + i * width`. */
  function PrimaryRow(color: string, primary: nat, width: int, goldDraws: seq<nat>): (row: seq<Placed>)
    requires |goldDraws| >= primary
    ensures |row| == primary
    ensures forall i :: 0 <= i < primary ==> row[i] == Placed(PrimaryIcon(color, goldDraws[i]), width + i * width)
  {
    seq(primary, i requires 0 <= i < primary => Placed(PrimaryIcon(color, goldDraws[i]), width + i * width))
  }

  /** The secondary icon at x = 0, used when the `random.randint(0, 2)` draw is 1 and there is secondary mana. */
  function SecondaryIcons(secondary: int, secondaryRoll: nat): seq<Placed>
  {
    if Pick(0, 3, secondaryRoll) == 1 && secondary >= 1 then [Placed(NumberIcon(secondary), 0)] else []
  }

  /** `paste_mana`. `iconWidth` is the width of the image opened as the primary
      icon; `secondaryRoll` is the `random.randint(0, 2)` draw (the secondary
      icon is used when it is 1); `goldDraws` are the colour draws of a gold
      card's icons. `None`: for a colour outside the three branches the source
      uses an unassigned image and raises. */
  function PasteManaStrip(color: string, primary: nat, secondary: int, iconWidth: int,
                          secondaryRoll: nat, goldDraws: seq<nat>): Option<ManaStrip>
    requires |goldDraws| >= primary
  {
    if IsPlainColor(color) || color == "gold" then
      var width := iconWidth + iconWidth * primary;
      Some(ManaStrip(width, 676 - width,
                     SecondaryIcons(secondary, secondaryRoll) + PrimaryRow(color, primary, iconWidth, goldDraws), secondary))
    else if color == "artifact" then
      Some(ManaStrip(iconWidth, 676 - iconWidth, [Placed(NumberIcon(secondary + primary), 0)], 0))
    else None
  }

  /** The strip is (1 + primary) icons wide for coloured and gold cards and one
      icon wide for artifacts, and it ends at x = 676. An artifact shows its
      whole cost as one number icon and holds no secondary mana afterwards.
      Other cards keep their secondary mana, show it as a number icon at x = 0
      only when it was rolled and is at least 1, and show the i-th primary
      icon (their colour, or a drawn colour on gold cards) at (i + 1) icon widths. */
  lemma ManaStripSpec(color: string, primary: nat, secondary: int, iconWidth: int,
                      secondaryRoll: nat, goldDraws: seq<nat>)
    requires |goldDraws| >= primary
    requires KnownColor(color)
    ensures var r := PasteManaStrip(color, primary, secondary, iconWidth, secondaryRoll, goldDraws);
            r.Some? && r.value.left + r.value.width == 676
            && (color == "artifact" ==>
                  r.value.width == iconWidth && r.value.secondaryAfter == 0
                  && r.value.icons == [Placed(NumberIcon(secondary + primary), 0)])
            && (color != "artifact" ==>
                  var k := if Pick(0, 3, secondaryRoll) == 1 && secondary >= 1 then 1 else 0;
                  r.value.width == (1 + primary) * iconWidth && r.value.secondaryAfter == secondary
                  && |r.value.icons| == k + primary
                  && (k == 1 ==> r.value.icons[0] == Placed(NumberIcon(secondary), 0))
                  && forall i :: 0 <= i < primary ==>
                       r.value.icons[k + i] == Placed(PrimaryIcon(color, goldDraws[i]), (i + 1) * iconWidth))
  {
    if color != "artifact" {
      var second := SecondaryIcons(secondary, secondaryRoll);
      var row := PrimaryRow(color, primary, iconWidth, goldDraws);
      assert PasteManaStrip(color, primary, secondary, iconWidth, secondaryRoll, goldDraws)
             == Some(ManaStrip(iconWidth + iconWidth * primary, 676 - (iconWidth + iconWidth * primary), second + row, secondary));
      OneMoreIcon(iconWidth, primary);
      PrimaryIconsAfter(second, color, primary, iconWidth, goldDraws);
    }
  }

  /** n + 1 icon widths are one icon width more than n. */
  lemma OneMoreIcon(w: int, n: int)
    ensures w + w * n == (1 + n) * w && w + n * w == (n + 1) * w
  {
  }

  /** The primary icons tile the strip: the first starts one icon width in,
      each next one starts where the one before it ends, and the last ends
      at the strip's width, so no two overlap and none is cut off. */
  lemma PrimaryRowTiles(color: string, primary: nat, iconWidth: int, goldDraws: seq<nat>)
    requires |goldDraws| >= primary && primary >= 1
    ensures var row := PrimaryRow(color, primary, iconWidth, goldDraws);
            row[0].x == iconWidth
            && (forall i :: 0 <= i < primary - 1 ==> row[i + 1].x == row[i].x + iconWidth)
            && row[primary - 1].x + iconWidth == iconWidth + iconWidth * primary
  {
    var row := PrimaryRow(color, primary, iconWidth, goldDraws);
    forall i | 0 <= i < primary - 1
      ensures row[i + 1].x == row[i].x + iconWidth
    {
      OneMoreIcon(iconWidth, i);
      OneMoreIcon(iconWidth, i + 1);
    }
    OneMoreIcon(iconWidth, primary - 1);
    OneMoreIcon(iconWidth, primary);
  }

  /** After the secondary icons, the i-th primary icon sits at (i + 1) icon widths. */
  lemma PrimaryIconsAfter(second: seq<Placed>, color: string, primary: nat, iconWidth: int, goldDraws: seq<nat>)
    requires |goldDraws| >= primary
    ensures var icons := second + PrimaryRow(color, primary, iconWidth, goldDraws);
            forall i :: 0 <= i < primary ==>
              icons[|second| + i] == Placed(PrimaryIcon(color, goldDraws[i]), (i + 1) * iconWidth)
  {
    var row := PrimaryRow(color, primary, iconWidth, goldDraws);
    forall i | 0 <= i < primary
      ensures (second + row)[|second| + i] == Placed(PrimaryIcon(color, goldDraws[i]), (i + 1) * iconWidth)
    {
      assert (second + row)[|second| + i] == row[i];
      OneMoreIcon(iconWidth, i);
    }
  }

  // ---------------------------------------------------------------------------
  // Lands (paste_land_abilities, build_land_card)
  // ---------------------------------------------------------------------------

  /** The icon `paste_land_abilities` shows and whether its roll made the land
      legendary: `random.randint(1, 10) == 1` (draw `roll`), then for artifact
      lands a `random.randint(2, 4)` number icon, for the others a
      `random.randint(1, 4)` counted colour icon (draw `count`). */
  function LandIcon(color: string, roll: nat, count: nat): (ManaIcon, bool)
  {
    var legendary := Pick(1, 11, roll) == 1;
    if color == "artifact" then
      (if legendary then NumberIcon(Pick(2, 5, count)) else NumberIcon(1), legendary)
    else
      (if legendary then CountedColorIcon(Pick(1, 5, count), color) else ColorIcon(color), legendary)
  }

  /** The type line `build_land_card` writes. */
  function LandLabel(isLegendary: bool): string
  {
    if isLegendary then "Legendary Land" else "Land"
  }

  /** A land icon is a multi-mana icon exactly when the roll made the land
      legendary: 2 to 4 mana for artifact lands, 1 to 4 of the colour otherwise. */
  lemma LandIconSpec(color: string, roll: nat, count: nat)
    ensures var (icon, legendary) := LandIcon(color, roll, count);
            legendary == (Pick(1, 11, roll) == 1)
            && (color == "artifact" ==>
                  icon.NumberIcon? && (legendary <==> 2 <= icon.n <= 4) && (!legendary <==> icon.n == 1))
            && (color != "artifact" ==>
                  (legendary <==> icon.CountedColorIcon? && 1 <= icon.n <= 4 && icon.color == color)
                  && (!legendary <==> icon == ColorIcon(color)))
  {
  }

  // ---------------------------------------------------------------------------
  // Foil (roll_foil)
  // ---------------------------------------------------------------------------

  /** `foil_mapping`: the foil texture of each card type that has one. */
  const FoilTable: map<string, string> := map[
    "artifact_creature" := "assets/foils/foil1.png", "black_creature" := "assets/foils/foil1.png",
    "green_creature" := "assets/foils/foil1.png", "blue_creature" := "assets/foils/foil2.png",
    "gold_creature" := "assets/foils/foil3.png", "red_creature" := "assets/foils/foil4.png",
    "white_creature" := "assets/foils/foil5.png",
    "artifact_land" := "assets/foils/foil1.png", "black_land" := "assets/foils/foil1.png",
    "green_land" := "assets/foils/foil1.png", "blue_land" := "assets/foils/foil2.png",
    "red_land" := "assets/foils/foil4.png", "white_land" := "assets/foils/foil5.png",
    "black_instant" := "assets/foils/foil1.png", "green_instant" := "assets/foils/foil1.png",
    "blue_instant" := "assets/foils/foil2.png", "red_instant" := "assets/foils/foil4.png",
    "white_instant" := "assets/foils/foil5.png",
    "black_sorcery" := "assets/foils/foil1.png", "green_sorcery" := "assets/foils/foil1.png",
    "blue_sorcery" := "assets/foils/foil2.png", "red_sorcery" := "assets/foils/foil4.png",
    "white_sorcery" := "assets/foils/foil5.png",
    "black_enchant" := "assets/foils/foil1.png", "green_enchant" := "assets/foils/foil1.png",
    "blue_enchant" := "assets/foils/foil2.png", "red_enchant" := "assets/foils/foil4.png",
    "white_enchant" := "assets/foils/foil5.png"
  ]

  /** `random.randint(1, 50) == 1`: the card is foil. */
  predicate FoilHit(roll: nat)
  {
    Pick(1, 51, roll) == 1
  }

  /** A foil card whose type has no texture opens the path 'error', which raises. */
  predicate FoilRaises(cardType: string, roll: nat)
  {
    FoilHit(roll) && cardType !in FoilTable
  }

  /** Of the types `choose_card_type` can draw, only the plain artifact has
      no foil texture. */
  lemma FoilTextureOfChoice(c: string, k: nat)
    requires c in Categories && k < |ChoiceList(c)|
    ensures ChoiceList(c)[k] !in FoilTable <==> c == "artifact"
  {
    var list := ChoiceList(c);
    if c == "artifact" {
      assert list[k] == "artifact";
    } else {
      assert list[k] in FoilTable by {
        if c == "instant" { assert k < 5; }
        else if c == "sorcery" { assert k < 5; }
        else if c == "land" { assert k < 6; }
        else if c == "creature" { assert k < 7; }
        else { assert c == "enchant" && k < 5; }
      }
    }
  }

  /** A card built from the two type draws raises in `roll_foil` exactly when
      it is a plain artifact and the foil roll hits; a foil hit happens for
      one draw in fifty. */
  lemma ChosenFoilRaises(categoryDraw: nat, typeDraw: nat, foilRoll: nat)
    ensures FoilRaises(ChosenType(categoryDraw, typeDraw), foilRoll)
            <==> ChosenCategory(categoryDraw) == "artifact" && FoilHit(foilRoll)
    ensures FoilHit(foilRoll) <==> foilRoll % 50 == 0
  {
    var c := ChosenCategory(categoryDraw);
    FoilTextureOfChoice(c, Pick(0, |ChoiceList(c)|, typeDraw));
  }

  // ---------------------------------------------------------------------------
  // Titles (generate_text)
  // ---------------------------------------------------------------------------

  /** Replace every occurrence of `c` by a space. */
  function ReplaceWithSpace(s: string, c: char): string
  {
    if s == [] then [] else [if s[0] == c then ' ' else s[0]] + ReplaceWithSpace(s[1..], c)
  }

  /** `prompt1.replace('\n', ' ').replace('\r', ' ')[:25]`. */
  function NormalizeTitle(raw: string): string
  {
    var flat := ReplaceWithSpace(ReplaceWithSpace(raw, '\n'), '\r');
    if |flat| <= 25 then flat else flat[..25]
  }

  lemma {:induction false} ReplaceWithSpaceAt(s: string, c: char)
    ensures |ReplaceWithSpace(s, c)| == |s|
    ensures forall i :: 0 <= i < |s| ==> ReplaceWithSpace(s, c)[i] == if s[i] == c then ' ' else s[i]
  {
    if s != [] {
      ReplaceWithSpaceAt(s[1..], c);
    }
  }

  /** The title is the first min(25, |raw|) characters of the generated text
      with every line break turned into a space: at most 25 characters long,
      with no `\n` and no `\r`. */
  lemma NormalizeTitleSpec(raw: string)
    ensures |NormalizeTitle(raw)| == if |raw| <= 25 then |raw| else 25
    ensures forall i :: 0 <= i < |NormalizeTitle(raw)| ==>
      NormalizeTitle(raw)[i] == if raw[i] == '\n' || raw[i] == '\r' then ' ' else raw[i]
    ensures '\n' !in NormalizeTitle(raw) && '\r' !in NormalizeTitle(raw)
  {
    ReplaceWithSpaceAt(raw, '\n');
    ReplaceWithSpaceAt(ReplaceWithSpace(raw, '\n'), '\r');
  }
}
