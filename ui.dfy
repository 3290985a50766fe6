/**
 * The screens: which screen and navigation button are active, the
 * criteria the selector buttons collect for the generator, and the text
 * the statistics panel shows for a record.
 *
 * The page's elements are reduced to what the logic reads and writes:
 * one active flag per screen and per navigation button.
 */
module Ui {
  import opened Common
  import opened NpcRecord
  import opened Generator

  // ---------------------------------------------------------------------
  // Text helpers

  /** Text written by FormatSigned: a sign followed by decimal digits. */
  predicate IsSignedText(s: string) {
    |s| >= 2 && (s[0] == '+' || s[0] == '-') && AllDigits(s[1..])
  }

  /** `formatSigned(value)`: "+" before a non-negative number, its own "-" otherwise. */
  function FormatSigned(value: int): (s: string)
    ensures IsSignedText(s)
    ensures s[0] == '+' <==> value >= 0
    ensures value >= 0 ==> s == "+" + Decimal(value)
    ensures value < 0 ==> s == Decimal(value)
  {
    if value >= 0 then "+" + Decimal(value) else Decimal(value)
  }

  /** Reads signed text back as a number. */
  function ParseSigned(s: string): int
    requires IsSignedText(s)
  {
    if s[0] == '+' then ParseNat(s[1..]) else -(ParseNat(s[1..]) as int)
  }

  /** Signed text is faithful: reading it back gives the number. */
  lemma FormatSignedRoundTrip(value: int)
    ensures ParseSigned(FormatSigned(value)) == value
  {
    var s := FormatSigned(value);
    if value >= 0 {
      assert s[1..] == NatDigits(value);
      ParseNatDigits(value);
    } else {
      assert s[1..] == NatDigits(-value);
      ParseNatDigits(-value);
    }
  }

  /** `formatSigned(m[key])`, where a missing key reads as `undefined`. */
  function SignedOrUndefined(m: map<string, int>, key: string): string {
    if key in m then FormatSigned(m[key]) else "undefined"
  }

  /** `c.toUpperCase()` for one character, on ASCII letters. */
  function UpperAscii(c: char): char {
    if 'a' <= c <= 'z' then (c as int - 32) as char else c
  }

  /** `formatLabel(value)`: '' for an empty value, else the first character upper-cased. */
  function FormatLabel(value: string): (r: string)
    ensures |r| == |value|
    ensures value != "" ==> r[0] == UpperAscii(value[0]) && !('a' <= r[0] <= 'z')
    ensures value != "" ==> r[1..] == value[1..]
  {
    if value == "" then "" else [UpperAscii(value[0])] + value[1..]
  }

  /** Formatting a label twice changes nothing more. */
  lemma FormatLabelIdempotent(value: string)
    ensures FormatLabel(FormatLabel(value)) == FormatLabel(value)
  {
  }

  /** `parts.join(sep)`. */
  function Join(parts: seq<string>, sep: string): string
    decreases |parts|
  {
    if |parts| == 0 then ""
    else if |parts| == 1 then parts[0]
    else parts[0] + sep + Join(parts[1..], sep)
  }

  // ---------------------------------------------------------------------
  // Statistics panel

  const AbilityKeys: seq<string> := ["STR", "DEX", "CON", "INT", "WIS", "CHA"]
  const DefaultSaveProfs: seq<string> := ["STR", "CON"]
  const DefaultTier: string := "Novice"
  const DefaultArchetypeLabel: string := "Generalist"

  /** The ability modifiers to show: the stored ones, else those derived from the scores, else all zero. */
  function GetAbilityMods(stats: StatFields, modsFromScores: map<string, int> -> map<string, int>): (mods: map<string, int>)
    ensures stats.abilityMods.Some? ==> mods == stats.abilityMods.value
    ensures stats.abilityMods.None? && stats.abilityScores.Some? ==> mods == modsFromScores(stats.abilityScores.value)
    ensures stats.abilityMods.None? && stats.abilityScores.None? ==>
      && mods.Keys == {"STR", "DEX", "CON", "INT", "WIS", "CHA"}
      && forall key :: key in mods ==> mods[key] == 0
  {
    if stats.abilityMods.Some? then stats.abilityMods.value
    else if stats.abilityScores.Some? then modsFromScores(stats.abilityScores.value)
    else map key | key in AbilityKeys :: 0
  }

  /** The saving throw of each ability: its modifier, plus `pb` when the save is proficient. */
  function SavingThrows(mods: map<string, int>, saveProfs: seq<string>, pb: int): (saves: map<string, int>)
    ensures saves.Keys == mods.Keys
    ensures forall key :: key in mods && key in saveProfs ==> saves[key] == mods[key] + pb
    ensures forall key :: key in mods && key !in saveProfs ==> saves[key] == mods[key]
  {
    map key | key in mods :: mods[key] + (if key in saveProfs then pb else 0)
  }

  /** `computeSavingThrows`: fills the result one ability at a time. */
  method ComputeSavingThrows(mods: map<string, int>, saveProfs: seq<string>, pb: int) returns (saves: map<string, int>)
    ensures saves == SavingThrows(mods, saveProfs, pb)
  {
    saves := map[];
    var todo := mods.Keys;
    while todo != {}
      invariant todo <= mods.Keys
      invariant saves.Keys == mods.Keys - todo
      invariant forall key :: key in saves ==> saves[key] == mods[key] + (if key in saveProfs then pb else 0)
      decreases todo
    {
      var key :| key in todo;
      var isProficient := key in saveProfs;
      saves := saves[key := mods[key] + (if isProficient then pb else 0)];
      todo := todo - {key};
    }
  }

  /** With a non-zero bonus, a saving throw differs from its modifier exactly when the save is proficient. */
  lemma SavingThrowProficient(mods: map<string, int>, saveProfs: seq<string>, pb: int, key: string)
    requires key in mods && pb != 0
    ensures key in SavingThrows(mods, saveProfs, pb)
    ensures SavingThrows(mods, saveProfs, pb)[key] != mods[key] <==> key in saveProfs
  {
  }

  /** What `Generator.getTierInfo(tier)` supplies. */
  datatype TierInfo = TierInfo(cr: string, pb: int)

  /** The text the statistics panel shows, and the values it was computed from. */
  datatype StatsView = StatsView(
    abilityTexts: seq<string>,
    tier: string,
    cr: string,
    pb: int,
    archetypeLabel: string,
    statline: string,
    saveProfs: seq<string>,
    savingThrows: map<string, int>,
    saveEntries: seq<string>,
    savesText: string)

  /** `o || fallback` for a string: the empty string and a missing value are falsy. */
  function OrText(o: Option<string>, fallback: string): (r: string)
    ensures o.Some? && o.value != "" ==> r == o.value
    ensures o.None? || o.value == "" ==> r == fallback
  {
    if o.Some? && o.value != "" then o.value else fallback
  }

  /** `formatSigned(m[key])` for each key in turn. */
  function SignedTexts(keys: seq<string>, m: map<string, int>): (texts: seq<string>)
    ensures |texts| == |keys|
    ensures forall i :: 0 <= i < |keys| ==> texts[i] == SignedOrUndefined(m, keys[i])
  {
    seq(|keys|, i requires 0 <= i < |keys| => SignedOrUndefined(m, keys[i]))
  }

  /** `${key} ${formatSigned(savingThrows[key])}` for each listed save. */
  function SaveEntries(saveProfs: seq<string>, savingThrows: map<string, int>): (entries: seq<string>)
    ensures |entries| == |saveProfs|
    ensures forall i :: 0 <= i < |saveProfs| ==>
      entries[i] == saveProfs[i] + " " + SignedOrUndefined(savingThrows, saveProfs[i])
  {
    seq(|saveProfs|, i requires 0 <= i < |saveProfs| => saveProfs[i] + " " + SignedOrUndefined(savingThrows, saveProfs[i]))
  }

  function Statline(archetypeLabel: string, tier: string, cr: string, pb: int): string {
    "Archetype: " + archetypeLabel + " · Tier: " + tier + " · CR " + cr + " · PB " + FormatSigned(pb)
  }

  /**
   * `renderStats`: the modifier under each ability element (keys in page
   * order), the archetype/tier/CR/PB line and the saving-throw line, with
   * JavaScript's `||` defaults for every missing or falsy field.
   */
  function RenderStats(abilityElements: seq<string>, stats: StatFields,
                       tierInfo: string -> TierInfo,
                       modsFromScores: map<string, int> -> map<string, int>): (view: StatsView)
    ensures view.abilityTexts == SignedTexts(abilityElements, GetAbilityMods(stats, modsFromScores))
    ensures view.tier == OrText(stats.tier, DefaultTier)
    ensures view.cr == OrText(stats.cr, tierInfo(view.tier).cr)
    ensures stats.proficiencyBonus.Some? && stats.proficiencyBonus.value != 0 ==> view.pb == stats.proficiencyBonus.value
    ensures stats.proficiencyBonus.None? || stats.proficiencyBonus.value == 0 ==> view.pb == tierInfo(view.tier).pb
    ensures view.archetypeLabel ==
      OrText(stats.archetypeLabel, OrText(Some(FormatLabel(stats.archetype.GetOr(""))), DefaultArchetypeLabel))
    ensures view.statline == Statline(view.archetypeLabel, view.tier, view.cr, view.pb)
    ensures view.saveProfs == stats.savingThrowProficiencies.GetOr(DefaultSaveProfs)
    ensures stats.savingThrows.Some? ==> view.savingThrows == stats.savingThrows.value
    ensures stats.savingThrows.None? ==>
      view.savingThrows == SavingThrows(GetAbilityMods(stats, modsFromScores), view.saveProfs, view.pb)
    ensures view.saveEntries == SaveEntries(view.saveProfs, view.savingThrows)
    ensures view.savesText == "Saving Throws: " + Join(view.saveEntries, ", ")
  {
    var mods := GetAbilityMods(stats, modsFromScores);
    var tier := OrText(stats.tier, DefaultTier);
    var info := tierInfo(tier);
    var cr := OrText(stats.cr, info.cr);
    var pb := if stats.proficiencyBonus.Some? && stats.proficiencyBonus.value != 0 then stats.proficiencyBonus.value else info.pb;
    var archetypeLabel := OrText(stats.archetypeLabel, OrText(Some(FormatLabel(stats.archetype.GetOr(""))), DefaultArchetypeLabel));
    var saveProfs := stats.savingThrowProficiencies.GetOr(DefaultSaveProfs);
    var savingThrows := if stats.savingThrows.Some? then stats.savingThrows.value else SavingThrows(mods, saveProfs, pb);
    var saveEntries := SaveEntries(saveProfs, savingThrows);
    StatsView(SignedTexts(abilityElements, mods), tier, cr, pb, archetypeLabel, Statline(archetypeLabel, tier, cr, pb),
              saveProfs, savingThrows, saveEntries, "Saving Throws: " + Join(saveEntries, ", "))
  }

  /**
   * Each listed save names its ability and shows a value that reads back
   * as that ability's saving throw.
   */
  lemma SaveEntryReadsBack(saveProfs: seq<string>, savingThrows: map<string, int>, i: nat)
    requires i < |saveProfs|
    ensures var key := saveProfs[i];
      var entry := SaveEntries(saveProfs, savingThrows)[i];
      && entry[..|key| + 1] == key + " "
      && (key in savingThrows ==>
            IsSignedText(entry[|key| + 1..]) && ParseSigned(entry[|key| + 1..]) == savingThrows[key])
  {
    var key := saveProfs[i];
    var entry := SaveEntries(saveProfs, savingThrows)[i];
    if key in savingThrows {
      assert entry[|key| + 1..] == FormatSigned(savingThrows[key]);
      FormatSignedRoundTrip(savingThrows[key]);
    }
  }

  /**
   * A record the generator builds carries no statistics, so the panel
   * shows the Novice tier, the "Generalist" archetype, modifiers of +0, and
   * proficient STR and CON saves equal to the tier's proficiency bonus.
   */
  lemma RenderStatsOfBareRecord(abilityElements: seq<string>, tierInfo: string -> TierInfo,
                                modsFromScores: map<string, int> -> map<string, int>)
    ensures var view := RenderStats(abilityElements, NoStats, tierInfo, modsFromScores);
      var info := tierInfo(DefaultTier);
      && view.tier == "Novice"
      && view.pb == info.pb
      && view.archetypeLabel == "Generalist"
      && view.saveEntries == ["STR " + FormatSigned(info.pb), "CON " + FormatSigned(info.pb)]
      && (forall i :: 0 <= i < |abilityElements| && abilityElements[i] in AbilityKeys ==> view.abilityTexts[i] == "+0")
  {
    var view := RenderStats(abilityElements, NoStats, tierInfo, modsFromScores);
    var info := tierInfo(DefaultTier);
    assert FormatLabel("") == "";
    var mods := GetAbilityMods(NoStats, modsFromScores);
    ZeroModsShowZero(abilityElements, mods);
    DefaultSaveEntries(view.savingThrows, info.pb);
  }

  /** Zero modifiers show as "+0". */
  lemma ZeroModsShowZero(abilityElements: seq<string>, mods: map<string, int>)
    requires forall key :: key in AbilityKeys ==> key in mods && mods[key] == 0
    ensures forall i :: 0 <= i < |abilityElements| && abilityElements[i] in AbilityKeys ==>
      SignedTexts(abilityElements, mods)[i] == "+0"
  {
  }

  /** The default saves list STR and CON with their saving throws. */
  lemma DefaultSaveEntries(savingThrows: map<string, int>, pb: int)
    requires "STR" in savingThrows && savingThrows["STR"] == pb
    requires "CON" in savingThrows && savingThrows["CON"] == pb
    ensures SaveEntries(DefaultSaveProfs, savingThrows) == ["STR " + FormatSigned(pb), "CON " + FormatSigned(pb)]
  {
    var entries := SaveEntries(DefaultSaveProfs, savingThrows);
    assert "STR" + " " == "STR " && "CON" + " " == "CON ";
    assert entries[0] == "STR " + FormatSigned(pb);
    assert entries[1] == "CON " + FormatSigned(pb);
  }

  // ---------------------------------------------------------------------
  // Navigation

  const ScreenNames: seq<string> := ["generator", "result", "library", "libraryDetail"]

  /** The navigation item of each screen. */
  const NavMap: map<string, string> :=
    map["generator" := "generator", "result" := "generator", "library" := "library", "libraryDetail" := "library"]

  /** `navMap[activeScreen] || activeScreen`. */
  function NavTarget(screen: string): (target: string)
    ensures screen == "result" ==> target == "generator"
    ensures screen == "libraryDetail" ==> target == "library"
    ensures screen != "result" && screen != "libraryDetail" ==> target == screen
  {
    if screen in NavMap then NavMap[screen] else screen
  }

  /** Every screen belongs to one of the two navigation items, and mapping twice maps once. */
  lemma NavTargetProperties(screen: string)
    ensures screen in ScreenNames ==> NavTarget(screen) in {"generator", "library"}
    ensures NavTarget(NavTarget(screen)) == NavTarget(screen)
  {
  }

  // ---------------------------------------------------------------------
  // Selector criteria

  /** `generatorCriteria` before any click. */
  const InitialCriteria: map<string, Selection> := map[
    "sex" := Text(RandomSentinel),
    "race" := Text(RandomSentinel),
    "alignment" := Text(RandomSentinel),
    "archetype" := Text(RandomSentinel),
    "tier" := Text("Novice")]

  /** The value a click on an option of `selector` stores. */
  function ClickedValue(selector: string, value: string, optionLabel: string): (v: Selection)
    ensures value == RandomSentinel ==> v == Text(RandomSentinel)
    ensures value != RandomSentinel && selector == "race" ==> v == RaceRef(value, optionLabel)
    ensures value != RandomSentinel && selector != "race" ==> v == Text(value)
    ensures IsUnset(Some(v)) <==> value == RandomSentinel || (selector != "race" && value == "")
  {
    if value == RandomSentinel then Text(RandomSentinel)
    else if selector == "race" then RaceRef(value, optionLabel)
    else Text(value)
  }

  /** The selectors the generator screen renders. */
  predicate IsSelector(selector: string) {
    selector in {"sex", "race", "alignment", "archetype", "tier"}
  }

  /** The criteria the selectors collect are always of the shapes the generator documents. */
  lemma ClickKeepsCriteriaWellFormed(criteria: map<string, Selection>, selector: string, value: string, optionLabel: string)
    requires WellFormedCriteria(criteria) && IsSelector(selector)
    ensures WellFormedCriteria(InitialCriteria)
    ensures WellFormedCriteria(criteria[selector := ClickedValue(selector, value, optionLabel)])
  {
  }

  /**
   * What a click stores is what generation uses: a concrete choice
   * resolves to itself, the "Random" option to a drawn value.
   */
  lemma ClickedValueResolves(selector: string, value: string, optionLabel: string,
                             options: Option<seq<string>>, races: seq<Race>, draw: nat)
    ensures value != RandomSentinel && value != "" ==>
      ResolveSelection(Some(ClickedValue(selector, value, optionLabel)), options, selector == "race", races, draw)
        == Ok(Some(ClickedValue(selector, value, optionLabel)))
    ensures value == RandomSentinel ==> IsUnset(Some(ClickedValue(selector, value, optionLabel)))
    ensures selector == "race" && value != RandomSentinel ==> ClickedValue(selector, value, optionLabel).RaceRef?
    ensures selector != "race" && value in GetSexOptions() + GetAlignmentOptions() ==>
      ResolveSelection(Some(ClickedValue(selector, value, optionLabel)), options, false, races, draw) == Ok(Some(Text(value)))
  {
    OptionsAreConcrete();
  }

  // ---------------------------------------------------------------------
  // Screen state

  class Screens {
    var currentScreen: string
    var criteria: map<string, Selection>
    /** `elements.screens`: one active flag per name in ScreenNames. */
    const screenActive: array<bool>
    /** The `data-screen` of each navigation button, and its active flag. */
    const navScreens: seq<string>
    const navActive: array<bool>

    ghost predicate Valid()
      reads this
    {
      screenActive.Length == |ScreenNames| && navActive.Length == |navScreens| && screenActive != navActive
    }

    constructor (navScreens: seq<string>)
      ensures Valid() && fresh(screenActive) && fresh(navActive)
      ensures currentScreen == "generator" && criteria == InitialCriteria && this.navScreens == navScreens
    {
      currentScreen := "generator";
      criteria := InitialCriteria;
      screenActive := new bool[|ScreenNames|];
      this.navScreens := navScreens;
      navActive := new bool[|navScreens|];
    }

    /** `updateNavigation(activeScreen)`: exactly the buttons of its navigation item are active. */
    method UpdateNavigation(activeScreen: string)
      requires Valid()
      modifies navActive
      ensures forall i :: 0 <= i < navActive.Length ==> navActive[i] == (navScreens[i] == NavTarget(activeScreen))
    {
      var navTarget := NavTarget(activeScreen);
      for i := 0 to navActive.Length
        invariant forall j :: 0 <= j < i ==> navActive[j] == (navScreens[j] == navTarget)
      {
        navActive[i] := navScreens[i] == navTarget;
      }
    }

    /** `showScreen(screenName)`: only that screen is active, if it exists. */
    method ShowScreen(screenName: string)
      requires Valid()
      modifies this`currentScreen, screenActive, navActive
      ensures Valid() && currentScreen == screenName
      ensures forall i :: 0 <= i < screenActive.Length ==> screenActive[i] == (ScreenNames[i] == screenName)
      ensures screenName !in ScreenNames ==> forall i :: 0 <= i < screenActive.Length ==> !screenActive[i]
      ensures forall i :: 0 <= i < navActive.Length ==> navActive[i] == (navScreens[i] == NavTarget(screenName))
    {
      for i := 0 to screenActive.Length
        invariant forall j :: 0 <= j < i ==> !screenActive[j]
      {
        screenActive[i] := false;
      }
      var k := IndexOf(ScreenNames, screenName);
      if k >= 0 {
        screenActive[k] := true;
      }
      UpdateNavigation(screenName);
      currentScreen := screenName;
    }

    /** The criteria update of `handleSelectorClick`: only `selector` changes. */
    method SelectorClick(selector: string, value: string, optionLabel: string)
      modifies this`criteria
      ensures criteria == old(criteria)[selector := ClickedValue(selector, value, optionLabel)]
      ensures forall key :: key in old(criteria) && key != selector ==> key in criteria && criteria[key] == old(criteria)[key]
      ensures old(WellFormedCriteria(criteria)) && IsSelector(selector) ==> WellFormedCriteria(criteria)
    {
      if value == RandomSentinel {
        criteria := criteria[selector := Text(RandomSentinel)];
      } else if selector == "race" {
        criteria := criteria[selector := RaceRef(value, optionLabel)];
      } else {
        criteria := criteria[selector := Text(value)];
      }
    }
  }
}
