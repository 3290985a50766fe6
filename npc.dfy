/**
 * The NPC record: what the generator builds, the library stores and the
 * screens display. Every field that a JavaScript object may lack or hold
 * as `null` is an Option.
 */
module NpcRecord {
  import opened Common

  /**
   * The statistics fields the display reads from a record when they are
   * present. The generator shown here never sets them, so the display's
   * defaults apply to every record it builds.
   */
  datatype StatFields = StatFields(
    tier: Option<string>,
    cr: Option<string>,
    proficiencyBonus: Option<int>,
    archetype: Option<string>,
    archetypeLabel: Option<string>,
    savingThrowProficiencies: Option<seq<string>>,
    savingThrows: Option<map<string, int>>,
    abilityMods: Option<map<string, int>>,
    abilityScores: Option<map<string, int>>)

  /** A record with none of the statistics fields. */
  const NoStats := StatFields(None, None, None, None, None, None, None, None, None)

  /** The record; `npcClass` is the source's `class` field (a Dafny keyword). */
  datatype Npc = Npc(
    id: string,
    createdAt: string,
    sex: string,
    race: string,
    raceId: string,
    alignment: string,
    npcClass: Option<string>,
    level: Option<int>,
    name: string,
    physicalDescription: Option<string>,
    psychDescription: Option<string>,
    notes: string,
    version: int,
    stats: StatFields)
}
