/**
 * NPC generation: resolving the user's criteria (a concrete choice or the
 * "random" sentinel), drawing a name and two descriptions from loaded
 * word lists, and assembling the record.
 *
 * Randomness is supplied by the caller: every `Math.random()` draw is a
 * natural number `draw` and a pick from a list of length n takes the
 * element at `draw % n`, so every element can be picked. The loaded data
 * files are the World parameter.
 */
module Generator {
  import opened Common
  import opened NpcRecord

  const SexOptions: seq<string> := ["Male", "Female"]
  const AlignmentOptions: seq<string> := ["Good", "Neutral", "Evil"]

  /** The value the selectors store for "let the generator choose". */
  const RandomSentinel: string := "random"

  /** A criteria value: a plain string, or a race as `{ id, label }` (`labelText` is `label`, a Dafny keyword). */
  datatype Selection = Text(s: string) | RaceRef(id: string, labelText: string)

  /** `!value || value === 'random'`: missing, empty or the sentinel. */
  predicate IsUnset(value: Option<Selection>)
    ensures value.None? ==> IsUnset(value)
    ensures value.Some? && value.value.RaceRef? ==> !IsUnset(value)
    ensures value.Some? && value.value.Text? ==> (IsUnset(value) <==> value.value.s == "" || value.value.s == "random")
  {
    value.None? || value == Some(Text("")) || value == Some(Text(RandomSentinel))
  }

  /** A copy of the sex options. */
  function GetSexOptions(): (r: seq<string>)
    ensures r == ["Male", "Female"]
  {
    SexOptions
  }

  /** A copy of the alignment options. */
  function GetAlignmentOptions(): (r: seq<string>)
    ensures r == ["Good", "Neutral", "Evil"]
  {
    AlignmentOptions
  }

  /** No option can be mistaken for "not chosen", and no option is listed twice. */
  lemma OptionsAreConcrete()
    ensures forall o :: o in GetSexOptions() + GetAlignmentOptions() ==> !IsUnset(Some(Text(o)))
    ensures forall i, j :: 0 <= i < j < |GetSexOptions()| ==> GetSexOptions()[i] != GetSexOptions()[j]
    ensures forall i, j :: 0 <= i < j < |GetAlignmentOptions()| ==>
      GetAlignmentOptions()[i] != GetAlignmentOptions()[j]
  {
  }

  // ---------------------------------------------------------------------
  // randomPick

  /** `randomPick(array)`: null for a missing or empty list, else one of its elements. */
  function RandomPick<T>(items: Option<seq<T>>, draw: nat): (r: Option<T>)
    ensures r.None? <==> items.None? || |items.value| == 0
    ensures r.Some? ==> r.value in items.value
  {
    if items.None? || |items.value| == 0 then None
    else Some(items.value[draw % |items.value|])
  }

  /** Every element of a non-empty list is the pick of some draw. */
  lemma RandomPickReachesEvery<T>(a: seq<T>, i: nat)
    requires i < |a|
    ensures RandomPick(Some(a), i) == Some(a[i])
  {
  }

  // ---------------------------------------------------------------------
  // generateId, fallback branch

  const UuidTemplate: string := "xxxxxxxx-xxxx-4xxx-yxxx-xxxxxxxxxxxx"

  const HexDigits: string := "0123456789abcdef"

  type Nibble = n: int | 0 <= n < 16

  /** One `Math.random() * 16 | 0` draw per template position; the draws at fixed characters go unused. */
  type UuidDraws = s: seq<Nibble> | |s| == |UuidTemplate| witness seq(36, _ => 0)

  predicate IsLowerHex(c: char) {
    '0' <= c <= '9' || 'a' <= c <= 'f'
  }

  /** `v.toString(16)` for a single hex digit. */
  function HexChar(v: Nibble): (c: char)
    ensures IsLowerHex(c)
  {
    HexDigits[v]
  }

  function HexValue(c: char): (v: Nibble)
    requires IsLowerHex(c)
    ensures HexChar(v) == c
  {
    if c <= '9' then (c as int) - ('0' as int) else (c as int) - ('a' as int) + 10
  }

  /** `r & 0x3 | 0x8`: the RFC 4122 variant bits. */
  function VariantNibble(r: Nibble): (v: Nibble)
    ensures 8 <= v <= 11
    ensures 8 <= r <= 11 ==> v == r
  {
    ((r as bv8 & 0x3) | 0x8) as int
  }

  /** The `replace` callback: an `x` becomes a random digit, a `y` a variant digit. */
  function ReplaceChar(c: char, r: Nibble): (h: char)
    ensures c == 'x' || c == 'y' ==> IsLowerHex(h)
    ensures c == 'x' ==> HexValue(h) == r
    ensures c == 'y' ==> 8 <= HexValue(h) <= 11 && (8 <= r <= 11 ==> HexValue(h) == r)
    ensures c != 'x' && c != 'y' ==> h == c
  {
    if c == 'x' then HexChar(r)
    else if c == 'y' then HexChar(VariantNibble(r))
    else c
  }

  /** Positions of the template that are not `x`. */
  predicate IsFixedPosition(p: int) {
    p == 8 || p == 13 || p == 14 || p == 18 || p == 19 || p == 23
  }

  /** The text layout of a version-4 UUID (RFC 4122, section 4.4), lower-case. */
  predicate IsV4Shape(s: string) {
    && |s| == 36
    && s[8] == '-' && s[13] == '-' && s[18] == '-' && s[23] == '-'
    && s[14] == '4'
    && s[19] in "89ab"
    && forall p :: 0 <= p < 36 && !IsFixedPosition(p) ==> IsLowerHex(s[p])
  }

  lemma TemplateLayout()
    ensures |UuidTemplate| == 36
    ensures forall p :: 0 <= p < 36 && !IsFixedPosition(p) ==> UuidTemplate[p] == 'x'
    ensures UuidTemplate[8] == '-' && UuidTemplate[13] == '-' && UuidTemplate[18] == '-' && UuidTemplate[23] == '-'
    ensures UuidTemplate[14] == '4' && UuidTemplate[19] == 'y'
  {
  }

  /** The fallback identifier: the template with every `x` and `y` replaced. */
  function GenerateIdFallback(draws: UuidDraws): (id: string)
    ensures IsV4Shape(id)
    ensures forall p :: 0 <= p < 36 && !IsFixedPosition(p) ==> HexValue(id[p]) == draws[p]
  {
    TemplateLayout();
    seq(|UuidTemplate|, p requires 0 <= p < |UuidTemplate| => ReplaceChar(UuidTemplate[p], draws[p]))
  }

  /** The fallback can produce every lower-case version-4 UUID. */
  lemma GenerateIdFallbackCovers(s: string)
    requires IsV4Shape(s)
    ensures exists draws: UuidDraws :: GenerateIdFallback(draws) == s
  {
    TemplateLayout();
    var draws: UuidDraws := seq(36, p requires 0 <= p < 36 => if IsLowerHex(s[p]) then HexValue(s[p]) else 0);
    var id := GenerateIdFallback(draws);
    forall p | 0 <= p < 36 ensures id[p] == s[p] {
      if p == 19 {
        assert IsLowerHex(s[19]);
        assert 8 <= HexValue(s[19]) <= 11;
      }
    }
    assert id == s;
  }

  /** `generateId()`: the platform's UUID when there is one, else the fallback. */
  function GenerateId(platformUuid: Option<string>, draws: UuidDraws): (id: string)
    ensures platformUuid.None? ==> IsV4Shape(id)
    ensures platformUuid.Some? ==> id == platformUuid.value
  {
    if platformUuid.Some? then platformUuid.value else GenerateIdFallback(draws)
  }

  // ---------------------------------------------------------------------
  // generateName

  /** A race record (`labelText` is its `label`): `nameFormat` selects the dwarf-style nickname layout. */
  datatype Race = Race(id: string, labelText: string, nameFormat: Option<string>)

  /** A race's name file; any list may be missing. */
  datatype NameLists = NameLists(
    maleFirst: Option<seq<string>>,
    femaleFirst: Option<seq<string>>,
    last: Option<seq<string>>,
    nicknames: Option<seq<string>>)

  const NicknameFormat: string := "first_nickname_last"

  /** `${x}` of a value that may be null. */
  function Show(o: Option<string>): string {
    if o.Some? then o.value else "null"
  }

  /** The first-name list for `sex`: male names exactly for "Male". */
  function FirstNameList(names: NameLists, sex: string): (r: Option<seq<string>>)
    ensures sex == "Male" ==> r == names.maleFirst
    ensures sex != "Male" ==> r == names.femaleFirst
  {
    if sex == "Male" then names.maleFirst else names.femaleFirst
  }

  /** Draws for a name: first name, last name, then nickname (drawn only when used). */
  datatype NameDraws = NameDraws(first: nat, last: nat, nickname: nat)

  /**
   * `generateName`: the first name drawn from the list chosen by sex, then
   * the nickname in double quotes for the nickname layout or a single space
   * for every other layout, then the last name; a missing pick shows as "null".
   */
  function GenerateName(race: Race, names: NameLists, sex: string, d: NameDraws): (name: string)
    ensures var first := Show(RandomPick(FirstNameList(names, sex), d.first));
      var last := Show(RandomPick(names.last, d.last));
      var middle := if race.nameFormat == Some(NicknameFormat)
        then " \"" + Show(RandomPick(names.nicknames, d.nickname)) + "\" "
        else " ";
      && |name| == |first| + |middle| + |last|
      && name[..|first|] == first
      && name[|first|..|first| + |middle|] == middle
      && name[|first| + |middle|..] == last
  {
    var firstName := RandomPick(FirstNameList(names, sex), d.first);
    var lastName := RandomPick(names.last, d.last);
    if race.nameFormat == Some(NicknameFormat) then
      var nickname := RandomPick(names.nicknames, d.nickname);
      Show(firstName) + " \"" + Show(nickname) + "\" " + Show(lastName)
    else
      Show(firstName) + " " + Show(lastName)
  }

  // ---------------------------------------------------------------------
  // Descriptions

  /** The physical sentence file: per-race lists and a generic list. */
  datatype Physical = Physical(byRace: Option<map<string, seq<string>>>, generic: Option<seq<string>>)

  /** Race-specific sentences when the race has some, else a generic one. */
  function PhysicalDescription(physical: Physical, raceLabel: string, draw: nat): (r: Option<string>)
    ensures HasRaceSentences(physical, raceLabel) ==> r.Some? && r.value in physical.byRace.value[raceLabel]
    ensures !HasRaceSentences(physical, raceLabel) ==> r == RandomPick(physical.generic, draw)
  {
    if HasRaceSentences(physical, raceLabel) then RandomPick(Some(physical.byRace.value[raceLabel]), draw)
    else RandomPick(physical.generic, draw)
  }

  predicate HasRaceSentences(physical: Physical, raceLabel: string) {
    physical.byRace.Some? && raceLabel in physical.byRace.value && |physical.byRace.value[raceLabel]| > 0
  }

  /** `toLowerCase()` on ASCII: each upper-case letter becomes its lower-case one, every other character stays. */
  function LowerAscii(s: string): (r: string)
    ensures |r| == |s|
    ensures forall i :: 0 <= i < |s| && 'A' <= s[i] <= 'Z' ==> r[i] == (s[i] as int + 32) as char && 'a' <= r[i] <= 'z'
    ensures forall i :: 0 <= i < |s| && !('A' <= s[i] <= 'Z') ==> r[i] == s[i]
    ensures forall i :: 0 <= i < |r| ==> !('A' <= r[i] <= 'Z')
  {
    seq(|s|, i requires 0 <= i < |s| => if 'A' <= s[i] <= 'Z' then (s[i] as int + 32) as char else s[i])
  }

  // ---------------------------------------------------------------------
  // resolveSelection

  /** The message of the TypeError thrown when an unset race finds no race to draw. */
  const TypeErrorNoRace: string := "Cannot read properties of null (reading 'id')"

  /**
   * `resolveSelection(value, options, getRaceLabel)`: a chosen value is kept;
   * an unset one is drawn from the options, or from the races as `{ id, label }`.
   */
  function ResolveSelection(value: Option<Selection>, options: Option<seq<string>>, getRaceLabel: bool,
                            races: seq<Race>, draw: nat): (r: Result<Option<Selection>>)
    ensures !IsUnset(value) ==> r == Ok(value)
    ensures IsUnset(value) && getRaceLabel ==> (r.Err? <==> |races| == 0)
    ensures IsUnset(value) && getRaceLabel && r.Ok? ==>
      exists i :: 0 <= i < |races| && r.value == Some(RaceRef(races[i].id, races[i].labelText))
    ensures IsUnset(value) && !getRaceLabel ==> r.Ok?
    ensures IsUnset(value) && !getRaceLabel ==>
      (r.value.None? <==> options.None? || |options.value| == 0)
    ensures IsUnset(value) && !getRaceLabel && r.value.Some? ==>
      r.value.value.Text? && r.value.value.s in options.value
  {
    if IsUnset(value) then
      if getRaceLabel then
        match RandomPick(Some(races), draw)
        case None => Err(TypeErrorNoRace)
        case Some(race) => Ok(Some(RaceRef(race.id, race.labelText)))
      else
        match RandomPick(options, draw)
        case None => Ok(None)
        case Some(o) => Ok(Some(Text(o)))
    else
      Ok(value)
  }

  // ---------------------------------------------------------------------
  // generate

  /**
   * The loaded data files: the race list, each race's name file, the
   * physical sentences and each alignment's psychological sentences (keyed
   * by lower-case alignment). A missing entry is a file that failed to load.
   */
  datatype World = World(
    races: seq<Race>,
    names: map<string, NameLists>,
    physical: Option<Physical>,
    psych: map<string, Option<seq<string>>>)

  datatype Draws = Draws(
    sex: nat, race: nat, alignment: nat, name: NameDraws,
    physical: nat, psych: nat, uuid: UuidDraws)

  function Lookup(criteria: map<string, Selection>, key: string): Option<Selection> {
    if key in criteria then Some(criteria[key]) else None
  }

  /** The criteria shapes `generate` documents: strings for sex and alignment, a race object or "random". */
  predicate WellFormedCriteria(criteria: map<string, Selection>) {
    && ("sex" in criteria ==> criteria["sex"].Text?)
    && ("alignment" in criteria ==> criteria["alignment"].Text?)
    && ("race" in criteria ==> criteria["race"].RaceRef? || IsUnset(Some(criteria["race"])))
  }

  /** `races.find(r => r.id === id)`: the first race with the id. */
  function FindRace(races: seq<Race>, id: string): (r: Option<Race>)
    ensures r.None? <==> forall i :: 0 <= i < |races| ==> races[i].id != id
    ensures r.Some? ==> r.value.id == id
    ensures r.Some? ==>
      exists k :: 0 <= k < |races| && races[k] == r.value && forall i :: 0 <= i < k ==> races[i].id != id
  {
    var ids := seq(|races|, i requires 0 <= i < |races| => races[i].id);
    assert forall i :: 0 <= i < |races| ==> ids[i] == races[i].id;
    var k := IndexOf(ids, id);
    if k < 0 then None else Some(races[k])
  }

  /** A sex or alignment value after resolution (always a string for well-formed criteria). */
  function ResolveText(value: Option<Selection>, options: seq<string>, races: seq<Race>, draw: nat): (s: string)
    requires value.Some? ==> value.value.Text?
    requires |options| > 0
    ensures !IsUnset(value) ==> Some(Text(s)) == value
    ensures IsUnset(value) ==> s in options
  {
    match ResolveSelection(value, Some(options), false, races, draw)
    case Ok(Some(Text(s))) => s
    case _ => assert false; ""
  }

  /** The sex `generate` uses: the chosen one, or one drawn from the options. */
  function ResolvedSex(criteria: map<string, Selection>, world: World, d: Draws): (sex: string)
    requires WellFormedCriteria(criteria)
    ensures !IsUnset(Lookup(criteria, "sex")) ==> Lookup(criteria, "sex") == Some(Text(sex))
    ensures IsUnset(Lookup(criteria, "sex")) ==> sex in SexOptions
  {
    ResolveText(Lookup(criteria, "sex"), SexOptions, world.races, d.sex)
  }

  /** The alignment `generate` uses: the chosen one, or one drawn from the options. */
  function ResolvedAlignment(criteria: map<string, Selection>, world: World, d: Draws): (alignment: string)
    requires WellFormedCriteria(criteria)
    ensures !IsUnset(Lookup(criteria, "alignment")) ==> Lookup(criteria, "alignment") == Some(Text(alignment))
    ensures IsUnset(Lookup(criteria, "alignment")) ==> alignment in AlignmentOptions
  {
    ResolveText(Lookup(criteria, "alignment"), AlignmentOptions, world.races, d.alignment)
  }

  /** The race `generate` uses, as `{ id, label }`; none when it is unset and there are no races. */
  function ResolvedRace(criteria: map<string, Selection>, world: World, d: Draws): (race: Option<Selection>)
    requires WellFormedCriteria(criteria)
    ensures race.None? <==> IsUnset(Lookup(criteria, "race")) && |world.races| == 0
    ensures race.Some? ==> race.value.RaceRef?
    ensures !IsUnset(Lookup(criteria, "race")) ==> race == Lookup(criteria, "race")
    ensures race.Some? && IsUnset(Lookup(criteria, "race")) ==>
      exists i :: 0 <= i < |world.races| && race.value == RaceRef(world.races[i].id, world.races[i].labelText)
  {
    match ResolveSelection(Lookup(criteria, "race"), None, true, world.races, d.race)
    case Err(_) => None
    case Ok(sel) => sel
  }

  /** Every file `generate` reads for this race and alignment is loaded, and the race is known. */
  predicate Loaded(world: World, raceId: string, alignment: string) {
    && FindRace(world.races, raceId).Some?
    && raceId in world.names
    && world.physical.Some?
    && LowerAscii(alignment) in world.psych
  }

  /**
   * `generate(criteria)`: a complete record, or the error that aborts
   * generation (the first of: no race to draw, an unknown race, a missing
   * name file, a missing physical file, a missing psych file).
   */
  function Generate(criteria: map<string, Selection>, world: World, d: Draws,
                    platformUuid: Option<string>, createdAt: string): (r: Result<Npc>)
    requires WellFormedCriteria(criteria)
    ensures r.Ok? <==>
      ResolvedRace(criteria, world, d).Some? &&
      Loaded(world, ResolvedRace(criteria, world, d).value.id, ResolvedAlignment(criteria, world, d))
    ensures ResolvedRace(criteria, world, d).None? ==> r == Err(TypeErrorNoRace)
    ensures ResolvedRace(criteria, world, d).Some? ==>
      var id := ResolvedRace(criteria, world, d).value.id;
      var key := LowerAscii(ResolvedAlignment(criteria, world, d));
      && (FindRace(world.races, id).None? ==> r == Err("Unknown race: " + id))
      && (FindRace(world.races, id).Some? && id !in world.names ==> r == Err("Failed to load the name file of " + id))
      && (FindRace(world.races, id).Some? && id in world.names && world.physical.None? ==>
            r == Err("Failed to load physical_sentences.json"))
      && (FindRace(world.races, id).Some? && id in world.names && world.physical.Some? && key !in world.psych ==>
            r == Err("Failed to load psych_" + key + ".json"))
    ensures r.Ok? ==>
      && r.value.sex == ResolvedSex(criteria, world, d)
      && Some(RaceRef(r.value.raceId, r.value.race)) == ResolvedRace(criteria, world, d)
      && r.value.alignment == ResolvedAlignment(criteria, world, d)
      && Loaded(world, r.value.raceId, r.value.alignment)
      && r.value.name == GenerateName(FindRace(world.races, r.value.raceId).value, world.names[r.value.raceId], r.value.sex, d.name)
      && r.value.physicalDescription == PhysicalDescription(world.physical.value, r.value.race, d.physical)
      && r.value.psychDescription == RandomPick(world.psych[LowerAscii(r.value.alignment)], d.psych)
      && r.value.id == GenerateId(platformUuid, d.uuid)
      && r.value.npcClass.None? && r.value.level.None? && r.value.notes == "" && r.value.version == 1
      && r.value.stats == NoStats && r.value.createdAt == createdAt
  {
    var sex := ResolvedSex(criteria, world, d);
    var raceSel := ResolvedRace(criteria, world, d);
    if raceSel.None? then Err(TypeErrorNoRace)
    else
      var race := raceSel.value;
      var alignment := ResolvedAlignment(criteria, world, d);
      var raceRecord := FindRace(world.races, race.id);
      if raceRecord.None? then Err("Unknown race: " + race.id)
      else if race.id !in world.names then Err("Failed to load the name file of " + race.id)
      else
        var name := GenerateName(raceRecord.value, world.names[race.id], sex, d.name);
        if world.physical.None? then Err("Failed to load physical_sentences.json")
        else
          var physical := PhysicalDescription(world.physical.value, race.labelText, d.physical);
          var key := LowerAscii(alignment);
          if key !in world.psych then Err("Failed to load psych_" + key + ".json")
          else
            var psych := RandomPick(world.psych[key], d.psych);
            Ok(Npc(
              id := GenerateId(platformUuid, d.uuid),
              createdAt := createdAt,
              sex := sex,
              race := race.labelText,
              raceId := race.id,
              alignment := alignment,
              npcClass := None,
              level := None,
              name := name,
              physicalDescription := physical,
              psychDescription := psych,
              notes := "",
              version := 1,
              stats := NoStats))
  }

  /**
   * The record's choices, in terms of the criteria: a chosen race, sex or
   * alignment is kept, an unset one is drawn from the races or options;
   * without a platform UUID the id has the version-4 layout.
   */
  lemma GenerateKeepsChoices(criteria: map<string, Selection>, world: World, d: Draws,
                             platformUuid: Option<string>, createdAt: string)
    requires WellFormedCriteria(criteria)
    requires Generate(criteria, world, d, platformUuid, createdAt).Ok?
    ensures var npc := Generate(criteria, world, d, platformUuid, createdAt).value;
      && (!IsUnset(Lookup(criteria, "race")) ==> Lookup(criteria, "race") == Some(RaceRef(npc.raceId, npc.race)))
      && (IsUnset(Lookup(criteria, "race")) ==>
            exists i :: 0 <= i < |world.races| && npc.raceId == world.races[i].id && npc.race == world.races[i].labelText)
      && (!IsUnset(Lookup(criteria, "sex")) ==> Lookup(criteria, "sex") == Some(Text(npc.sex)))
      && (IsUnset(Lookup(criteria, "sex")) ==> npc.sex in SexOptions)
      && (!IsUnset(Lookup(criteria, "alignment")) ==> Lookup(criteria, "alignment") == Some(Text(npc.alignment)))
      && (IsUnset(Lookup(criteria, "alignment")) ==> npc.alignment in AlignmentOptions)
      && (platformUuid.None? ==> IsV4Shape(npc.id))
  {
  }

  /**
   * With every data file loaded, at least one race, a chosen race that is
   * known and a chosen alignment that has sentences, generation succeeds.
   */
  lemma GenerateSucceeds(criteria: map<string, Selection>, world: World, d: Draws,
                         platformUuid: Option<string>, createdAt: string)
    requires WellFormedCriteria(criteria)
    requires |world.races| > 0
    requires forall i :: 0 <= i < |world.races| ==> world.races[i].id in world.names
    requires world.physical.Some?
    requires forall a :: a in AlignmentOptions ==> LowerAscii(a) in world.psych
    requires "race" in criteria && criteria["race"].RaceRef? ==>
      exists i :: 0 <= i < |world.races| && world.races[i].id == criteria["race"].id
    requires "alignment" in criteria && !IsUnset(Some(criteria["alignment"])) ==>
      LowerAscii(criteria["alignment"].s) in world.psych
    ensures Generate(criteria, world, d, platformUuid, createdAt).Ok?
  {
  }

  // ---------------------------------------------------------------------
  // formatForClipboard

  /**
   * `formatForClipboard(npc)`: name, summary, physical and psychological
   * lines. When no field holds a newline, the text splits back into exactly
   * those four lines.
   */
  function FormatForClipboard(npc: Npc): (text: string)
    ensures OneLine(npc.name) && OneLine(npc.sex) && OneLine(npc.race) && OneLine(npc.alignment) &&
            OneLine(Show(npc.physicalDescription)) && OneLine(Show(npc.psychDescription)) ==>
      Lines(text) == [npc.name, SummaryLine(npc), PhysicalLine(npc), PsychLine(npc)]
  {
    var a, b, c, d := npc.name, SummaryLine(npc), PhysicalLine(npc), PsychLine(npc);
    if OneLine(a) && OneLine(b) && OneLine(c) && OneLine(d) then
      FourLines(a, b, c, d);
      a + "\n" + b + "\n" + c + "\n" + d
    else
      a + "\n" + b + "\n" + c + "\n" + d
  }

  function SummaryLine(npc: Npc): string {
    "Sex: " + npc.sex + " | Race: " + npc.race + " | Alignment: " + npc.alignment
  }

  function PhysicalLine(npc: Npc): string {
    "Physical: " + Show(npc.physicalDescription)
  }

  function PsychLine(npc: Npc): string {
    "Psych: " + Show(npc.psychDescription)
  }
}
