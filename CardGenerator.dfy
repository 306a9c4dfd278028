/** `MTGCardGenerator` (modules/mtg_generator.py): the object a card request
    carries through the queue. Its fields are assigned step by step while a
    card is built, and one object builds all three cards of a pack, so what
    one card leaves in the fields (the legendary flag, an artifact's zeroed
    secondary mana) is seen by the next. Pixels, fonts, foil and signature
    rolls and the image subprocess are outside the model; the text
    subprocess is represented by its exit code and the JSON it leaves. */
module CardGenerator {
  import opened Wrappers
  import opened CardRules
  import Requests

  /** The random draws and external results one `generate_card` call consumes. */
  datatype CardDraws = CardDraws(
    category: nat, typeDraw: nat,                       // choose_card_type
    creatureType: string,                               // generate_abilities('type_creature')
    textExit: int, textOutput: map<string, string>,     // modules/generate_text.py
    defDraw: nat, atkDraw: nat,                         // paste_creature_card_atk_def
    iconWidth: int, secondaryRoll: nat, goldDraws: seq<nat>, // paste_mana
    landRoll: nat, landCount: nat,                      // paste_land_abilities
    foilRoll: nat)                                      // roll_foil

  /** What a finished card shows, beyond its pixels. */
  datatype CardFace = CardFace(build: Build, title: string, typeLine: string,
                               stats: Option<Stats>, mana: Option<ManaStrip>, landIcon: Option<ManaIcon>)

  /** The type line of the non-creature, non-land build paths. */
  function TypeLine(b: Build): string
  {
    match b
    case BuildInstant => "Instant"
    case BuildSorcery => "Sorcery"
    case BuildArtifact => "Artifact"
    case BuildEnchant => "Enchantment"
    case _ => ""
  }

  class Generator {
    const action: Requests.Action
    const prompt: string
    const user: string
    var cardType: Option<string>
    var cardColor: Option<string>
    var primaryMana: int
    var secondaryMana: int
    var creatureType: Option<string>
    var isLegendary: bool
    var title: Option<string>
    var flavorText: Option<string>

    /** The mana stays in the ranges `__init__` draws from, and a chosen colour
        is one the card-building code handles. */
    predicate Valid()
      reads this
    {
      1 <= primaryMana <= 4 && 0 <= secondaryMana <= 4
      && (cardColor.Some? ==> KnownColor(cardColor.value))
    }

    /** `__init__`, with the action passed in as the call sites in lighty_mtg.py do. */
    constructor(action: Requests.Action, prompt: string, user: string, primaryDraw: nat, secondaryDraw: nat)
      ensures Valid()
      ensures this.action == action && this.prompt == prompt && this.user == user
      ensures primaryMana == PrimaryManaDraw(primaryDraw) && secondaryMana == SecondaryManaDraw(secondaryDraw)
      ensures cardType == None && cardColor == None && creatureType == None
      ensures !isLegendary && title == None && flavorText == None
    {
      this.action := action;
      this.prompt := prompt;
      this.user := user;
      cardType := None;
      cardColor := None;
      primaryMana := PrimaryManaDraw(primaryDraw);
      secondaryMana := SecondaryManaDraw(secondaryDraw);
      creatureType := None;
      isLegendary := false;
      title := None;
      flavorText := None;
    }

    /** `choose_card_type`: the type is drawn from the list of the drawn
        category and the colour is looked up in the table. */
    method ChooseCardType(categoryDraw: nat, typeDraw: nat)
      requires Valid()
      modifies this
      ensures Valid()
      ensures cardType == Some(ChosenType(categoryDraw, typeDraw))
      ensures cardType.value in ChoiceList(ChosenCategory(categoryDraw))
      ensures cardColor == Some(ColorOf(cardType.value)) && cardColor.value != "error"
      ensures primaryMana == old(primaryMana) && secondaryMana == old(secondaryMana)
      ensures creatureType == old(creatureType) && isLegendary == old(isLegendary)
      ensures title == old(title) && flavorText == old(flavorText)
    {
      var category := ChosenCategory(categoryDraw);
      var list := ChoiceList(category);
      var k := Pick(0, |list|, typeDraw);
      cardType := Some(list[k]);
      ChosenTypeSpec(categoryDraw, typeDraw);
      cardColor := Some(ColorOf(list[k]));
    }

    /** `generate_text` after the subprocess: a non-zero exit code raises
        before anything is assigned; otherwise the title is the normalised
        `prompt1` and the flavour text is `prompt2`. A missing key raises
        where it is read, so a missing `prompt2` leaves the new title in place. */
    method GenerateText(exitCode: int, output: map<string, string>) returns (ok: bool)
      requires Valid()
      modifies this
      ensures Valid()
      ensures ok <==> exitCode == 0 && "prompt1" in output && "prompt2" in output
      ensures exitCode == 0 && "prompt1" in output ==> title == Some(NormalizeTitle(output["prompt1"]))
      ensures !(exitCode == 0 && "prompt1" in output) ==> title == old(title)
      ensures flavorText == if ok then Some(output["prompt2"]) else old(flavorText)
      ensures cardType == old(cardType) && cardColor == old(cardColor)
      ensures primaryMana == old(primaryMana) && secondaryMana == old(secondaryMana)
      ensures creatureType == old(creatureType) && isLegendary == old(isLegendary)
    {
      if exitCode != 0 {
        return false;
      }
      if "prompt1" !in output {
        return false;
      }
      title := Some(NormalizeTitle(output["prompt1"]));
      if "prompt2" !in output {
        return false;
      }
      flavorText := Some(output["prompt2"]);
      ok := true;
    }

    /** `paste_creature_card_atk_def`: the stats for the current colour and
        mana (`None` where the source raises). */
    method CreatureAttackDefence(defDraw: nat, atkDraw: nat) returns (stats: Option<Stats>)
      requires Valid() && cardColor.Some?
      ensures stats == CreatureStats(cardColor.value, primaryMana, secondaryMana, defDraw, atkDraw)
      ensures stats.Some?
    {
      CreatureStatsRanges(cardColor.value, primaryMana, secondaryMana, defDraw, atkDraw);
      stats := CreatureStats(cardColor.value, primaryMana, secondaryMana, defDraw, atkDraw);
    }

    /** `paste_mana`: the strip for the current colour and mana; an artifact
        card's secondary mana is zero afterwards, other cards keep theirs. */
    method PasteMana(iconWidth: int, secondaryRoll: nat, goldDraws: seq<nat>) returns (strip: ManaStrip)
      requires Valid() && cardColor.Some? && |goldDraws| >= primaryMana
      modifies this
      ensures Valid() && cardColor == old(cardColor)
      ensures Some(strip) == PasteManaStrip(cardColor.value, old(primaryMana), old(secondaryMana), iconWidth, secondaryRoll, goldDraws)
      ensures secondaryMana == if cardColor.value == "artifact" then 0 else old(secondaryMana)
      ensures cardType == old(cardType) && cardColor == old(cardColor) && primaryMana == old(primaryMana)
      ensures creatureType == old(creatureType) && isLegendary == old(isLegendary)
      ensures title == old(title) && flavorText == old(flavorText)
    {
      ManaStripSpec(cardColor.value, primaryMana, secondaryMana, iconWidth, secondaryRoll, goldDraws);
      strip := PasteManaStrip(cardColor.value, primaryMana, secondaryMana, iconWidth, secondaryRoll, goldDraws).value;
      secondaryMana := strip.secondaryAfter;
    }

    /** `paste_land_abilities`: the mana icon of the land. A roll of 1 in 10
        sets the legendary flag, and nothing ever clears it. */
    method PasteLandAbilities(roll: nat, count: nat) returns (icon: ManaIcon)
      requires Valid() && cardColor.Some?
      modifies this
      ensures Valid() && cardColor == old(cardColor)
      ensures icon == LandIcon(cardColor.value, roll, count).0
      ensures isLegendary == (old(isLegendary) || Pick(1, 11, roll) == 1)
      ensures cardType == old(cardType) && cardColor == old(cardColor)
      ensures primaryMana == old(primaryMana) && secondaryMana == old(secondaryMana)
      ensures creatureType == old(creatureType) && title == old(title) && flavorText == old(flavorText)
    {
      var legendary;
      icon, legendary := LandIcon(cardColor.value, roll, count).0, LandIcon(cardColor.value, roll, count).1;
      if legendary {
        isLegendary := true;
      }
    }

    /** `generate_card`: choose a type, then run the build path of each
        `is_*_card` test that holds (exactly one). An exception inside is
        swallowed (`@logger.catch`) and leaves no face: the text step failing,
        or `roll_foil` opening the path 'error' for a foil card whose type has
        no texture, which happens before the title and the mana are pasted. */
    method GenerateCard(d: CardDraws) returns (face: Option<CardFace>)
      requires Valid() && |d.goldDraws| >= primaryMana
      modifies this
      ensures Valid()
      ensures var t := ChosenType(d.category, d.typeDraw);
              var b := CategoryBuild(ChosenCategory(d.category));
              var textOk := d.textExit == 0 && "prompt1" in d.textOutput && "prompt2" in d.textOutput;
              var built := textOk && !FoilRaises(t, d.foilRoll);
              cardType == Some(t) && cardColor == Some(ColorOf(t)) && BuildsFor(t) == [b]
              && (face.Some? <==> built)
              && creatureType == (if b == BuildCreature then Some(d.creatureType) else old(creatureType))
              && title == (if d.textExit == 0 && "prompt1" in d.textOutput
                           then Some(NormalizeTitle(d.textOutput["prompt1"])) else old(title))
              && flavorText == (if textOk then Some(d.textOutput["prompt2"]) else old(flavorText))
              && primaryMana == old(primaryMana)
              && secondaryMana == (if built && ColorOf(t) == "artifact" && b != BuildLand then 0 else old(secondaryMana))
              && isLegendary == (old(isLegendary) || (built && b == BuildLand && Pick(1, 11, d.landRoll) == 1))
      ensures face.Some? ==>
        var f := face.value;
        var color := ColorOf(cardType.value);
        f.build == CategoryBuild(ChosenCategory(d.category))
        && |f.title| <= 25 && '\n' !in f.title && '\r' !in f.title
        && f.title == NormalizeTitle(d.textOutput["prompt1"])
        && f.stats == (if f.build == BuildCreature
                       then CreatureStats(color, old(primaryMana), old(secondaryMana), d.defDraw, d.atkDraw) else None)
        && f.mana == (if f.build == BuildLand then None
                      else PasteManaStrip(color, old(primaryMana), old(secondaryMana), d.iconWidth, d.secondaryRoll, d.goldDraws))
        && f.landIcon == (if f.build == BuildLand then Some(LandIcon(color, d.landRoll, d.landCount).0) else None)
        && (f.build == BuildCreature <==> f.stats.Some?)
        && (f.build == BuildLand <==> f.mana.None?)
        && (f.build == BuildLand ==> f.typeLine == LandLabel(isLegendary))
        && (f.build == BuildCreature ==> f.typeLine == d.creatureType)
        && (f.build != BuildLand && f.build != BuildCreature ==> f.typeLine == TypeLine(f.build))
    {
      ChooseCardType(d.category, d.typeDraw);
      ChosenTypeSpec(d.category, d.typeDraw);
      var build := BuildsFor(cardType.value)[0];
      if build == BuildCreature {
        creatureType := Some(d.creatureType);
      }
      var ok := GenerateText(d.textExit, d.textOutput);
      if !ok {
        return None;
      }
      if FoilRaises(cardType.value, d.foilRoll) {
        return None;
      }
      NormalizeTitleSpec(d.textOutput["prompt1"]);
      face := BuildFace(build, d);
    }

    /** The build path after the text and the foil roll: stats, mana strip or
        land icon, and the type line. */
    method BuildFace(build: Build, d: CardDraws) returns (face: Option<CardFace>)
      requires Valid() && cardColor.Some? && title.Some? && |d.goldDraws| >= primaryMana
      modifies this
      ensures Valid()
      ensures cardType == old(cardType) && cardColor == old(cardColor) && primaryMana == old(primaryMana)
      ensures creatureType == old(creatureType) && title == old(title) && flavorText == old(flavorText)
      ensures face.Some? && face.value.build == build && face.value.title == old(title).value
      ensures var f := face.value;
              var color := cardColor.value;
              f.stats == (if build == BuildCreature
                          then CreatureStats(color, old(primaryMana), old(secondaryMana), d.defDraw, d.atkDraw) else None)
              && f.mana == (if build == BuildLand then None
                            else PasteManaStrip(color, old(primaryMana), old(secondaryMana), d.iconWidth, d.secondaryRoll, d.goldDraws))
              && f.landIcon == (if build == BuildLand then Some(LandIcon(color, d.landRoll, d.landCount).0) else None)
              && (build == BuildCreature <==> f.stats.Some?)
              && (build == BuildLand <==> f.mana.None?)
              && (build == BuildLand ==> f.typeLine == LandLabel(isLegendary))
              && (build == BuildCreature ==> f.typeLine == d.creatureType)
              && (build != BuildLand && build != BuildCreature ==> f.typeLine == TypeLine(build))
      ensures secondaryMana == (if cardColor.value == "artifact" && build != BuildLand then 0 else old(secondaryMana))
      ensures isLegendary == (old(isLegendary) || (build == BuildLand && Pick(1, 11, d.landRoll) == 1))
    {
      var stats: Option<Stats> := None;
      var mana: Option<ManaStrip> := None;
      var landIcon: Option<ManaIcon> := None;
      var typeLine: string;
      if build == BuildCreature {
        stats := CreatureAttackDefence(d.defDraw, d.atkDraw);
        var strip := PasteMana(d.iconWidth, d.secondaryRoll, d.goldDraws);
        mana := Some(strip);
        typeLine := d.creatureType;
      } else if build == BuildLand {
        var icon := PasteLandAbilities(d.landRoll, d.landCount);
        landIcon := Some(icon);
        typeLine := LandLabel(isLegendary);
      } else {
        var strip := PasteMana(d.iconWidth, d.secondaryRoll, d.goldDraws);
        mana := Some(strip);
        typeLine := TypeLine(build);
      }
      face := Some(CardFace(build, title.value, typeLine, stats, mana, landIcon));
    }
  }

  /** Two cards of one pack: a land whose own roll is not 1 is still labelled
      "Legendary Land" when an earlier card of the pack was a legendary land. */
  method LegendaryFlagCarriesOver(g: Generator, d: CardDraws) returns (face: Option<CardFace>)
    requires g.Valid() && |d.goldDraws| >= g.primaryMana && g.isLegendary
    modifies g
    ensures face.Some? && face.value.build == BuildLand ==> face.value.typeLine == "Legendary Land"
  {
    face := g.GenerateCard(d);
  }
}
