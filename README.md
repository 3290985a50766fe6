# D&D NPC Generator — a Dafny model of its core

The D&D NPC Generator is a browser application that builds non-player
characters for tabletop games. The user picks a sex, a race and an
alignment (or leaves each on "Random"); the generator draws a name and two
descriptions from word lists and builds a record; the record can be copied
as text and saved to a library kept in the browser's local storage, at most
100 entries, newest first, keyed by id.

This project models three parts of it:

- `storage.dfy` (module `Storage`): the library. `Library` is a class whose
  one field is what local storage holds under the library key (nothing,
  unreadable text, or a list of records); writing to storage may fail, which
  the class carries as a flag. `save` checks capacity first and then either
  replaces the record with the same id in place or puts the new record in
  front; `remove` filters every record with the id out.
- `generator.dfy` (module `Generator`): resolving each criterion (a chosen
  value is kept, an unset one is drawn), the fallback UUID, the name layout,
  the descriptions, the record `generate` builds, and the clipboard text.
  Every `Math.random()` draw is a natural number supplied by the caller, and
  a pick from a list of length n takes the element at `draw % n`; the loaded
  data files are a `World` value.
- `ui.dfy` (module `Ui`): the signed-number and label formatting, the
  statistics panel's text with its defaults, saving throws, which screen
  and navigation button are active (`Screens`, a class whose arrays hold one
  active flag per screen and per navigation button), and the criteria the
  selector buttons collect.

`common.dfy` holds `Option` (a value or `null`/`undefined`), `Result` (a
value or the error thrown), and the decimal text JavaScript writes for an
integer, with its round trip. `npc.dfy` holds the record.

Where the repository's documentation and its code disagree, the model
follows the code. The statistics panel (`renderStats`, js/ui.js:609-636)
reads `tier`, `cr`, `proficiencyBonus`, `abilityMods`, `abilityScores`,
`archetype`, `archetypeLabel`, `savingThrowProficiencies` and `savingThrows`
from the record, but `generate` (js/generator.js:129-143) sets none of them,
so every generated record reaches the panel without them. The panel also
calls `Generator.getTierInfo` and `Generator.getAbilityModsFromScores`,
which `js/generator.js` does not export: as written, the call at
js/ui.js:614 throws before the statline is written. The model takes both
as function parameters; given a `getTierInfo`, a bare record shows the
panel's defaults (`Ui.RenderStatsOfBareRecord`).

## Model

| member | source | states |
|---|---|---|
| Common.Decimal | js/storage.js:58 | `${n}` of an integer: a leading '-' exactly for negative numbers, digits otherwise, never a leading zero except for 0 itself |
| Common.DecimalRoundTrip | js/ui.js:647-652 | the decimal text of any integer reads back as that integer |
| Common.DecimalInjective | js/ui.js:647-652 | different integers are written differently |
| Storage.IndexOfId | js/storage.js:63 | `findIndex` by id: -1 exactly when no record has the id, otherwise the first position holding it |
| Storage.Upsert | js/storage.js:62-70 | an existing id is replaced at its position with every other entry kept; a new id is put in front of the unchanged list |
| Storage.Without | js/storage.js:85 | the filter keeps exactly the records with another id; it shrinks exactly when the id was present |
| Storage.UpsertFinds | js/storage.js:63-69 | after an upsert, looking up the record's id finds that record first |
| Storage.UpsertKeepsUnique | js/storage.js:62-70 | an upsert never creates a second record with the same id |
| Storage.WithoutAppend | js/storage.js:85 | filtering keeps the relative order of the remaining records |
| Storage.WithoutKeepsUnique | js/storage.js:85 | filtering a list with unique ids leaves unique ids |
| Storage.WithoutUniqueDropsOne | js/storage.js:85-90 | with unique ids, removing a present id drops exactly one record |
| Storage.Library.GetAll | js/storage.js:13-24 | the stored list, or [] when nothing is stored or it does not parse |
| Storage.Library.GetById | js/storage.js:42-45 | a record exactly when one has the id; it carries the id and is the first such record |
| Storage.Library.Exists | js/storage.js:98-100 | true exactly when some stored record has the id |
| Storage.Library.Count | js/storage.js:105-107 | the length of the stored list, 0 when nothing readable is stored |
| Storage.Library.IsFull | js/storage.js:112-114 | full exactly when the count reaches 100 |
| Storage.Library.GetMaxCapacity | js/storage.js:119-121 | the capacity is 100 |
| Storage.Library.SaveAll | js/storage.js:29-37 | writes the list and reports true, or changes nothing and reports false when storage throws |
| Storage.Library.Save | js/storage.js:51-77 | full library: refused with the "Library is full" message, nothing changed; failed write: refused with the write error, nothing changed; otherwise the list becomes the upsert and the record is found by id; capacity and unique ids are preserved |
| Storage.Library.Remove | js/storage.js:83-93 | no such id: false, nothing changed; otherwise true exactly when the write succeeds, the list becomes the filtered list and the id is gone; unique ids and capacity preserved |
| Storage.Library.ClearAll | js/storage.js:126-134 | removes the key (library empty) unless storage throws, in which case nothing changes |
| Generator.IsUnset | js/generator.js:90 | `!value \|\| value === 'random'`: a missing value is unset; a race object is never unset; a string is unset exactly when it is empty or "random" |
| Generator.GetSexOptions | js/generator.js:161-163 | the options Male and Female, in that order |
| Generator.GetAlignmentOptions | js/generator.js:168-170 | the options Good, Neutral and Evil, in that order |
| Generator.OptionsAreConcrete | js/generator.js:8-9 | no option reads as unset and no option is listed twice |
| Generator.RandomPick | js/generator.js:14-20 | null exactly for a missing or empty list, otherwise an element of the list |
| Generator.RandomPickReachesEvery | js/generator.js:18-19 | every element of a non-empty list is picked by some draw |
| Generator.HexChar | js/generator.js:34 | `v.toString(16)` of a nibble is a lower-case hex digit |
| Generator.HexValue | js/generator.js:34 | reading a lower-case hex digit back gives its nibble and writes back to the same digit |
| Generator.VariantNibble | js/generator.js:33 | `r & 0x3 \| 0x8` lies in 8..11 and leaves 8..11 unchanged |
| Generator.TemplateLayout | js/generator.js:31 | the template has 36 characters, dashes at 8, 13, 18 and 23, the version '4' at 14, 'y' at 19, 'x' elsewhere |
| Generator.ReplaceChar | js/generator.js:31-35 | the `replace` callback: an `x` becomes the hex digit of its draw, a `y` a digit in 8..11 (the draw itself when already there), other characters stay |
| Generator.GenerateIdFallback | js/generator.js:31-35 | the result has the RFC 4122 version-4 layout in lower case, and each random position shows its draw |
| Generator.GenerateIdFallbackCovers | js/generator.js:31-35 | every lower-case version-4 UUID is produced by some draws |
| Generator.GenerateId | js/generator.js:25-36 | the platform UUID when available, otherwise a version-4-shaped fallback |
| Generator.FirstNameList | js/generator.js:46 | male first names exactly for "Male", female first names for every other value |
| Generator.GenerateName | js/generator.js:41-61 | the name is the drawn first name, then ` "nickname" ` for the nickname format or one space otherwise, then the drawn last name; a missing pick shows as "null" |
| Generator.PhysicalDescription | js/generator.js:66-76 | a sentence of the race's own list when it has a non-empty one, otherwise a pick from the generic list |
| Generator.LowerAscii | js/data-loader.js:143 | the psych file's key: same length, every ASCII upper-case letter lowered, every other character kept, so no ASCII upper-case letter remains |
| Generator.FindRace | js/data-loader.js:198-201 | none exactly when no race has the id, otherwise the first race with the id |
| Generator.ResolveSelection | js/generator.js:89-106 | a set value is returned unchanged; an unset race is drawn from the races (throws a TypeError, whose message `Err` carries, when there are none); any other unset value is drawn from the options, null exactly when they are missing or empty |
| Generator.ResolveText | js/generator.js:117-119 | a chosen sex or alignment is kept, an unset one is one of the options |
| Generator.ResolvedSex | js/generator.js:117 | the chosen sex is kept, an unset one is one of Male and Female |
| Generator.ResolvedRace | js/generator.js:118 | a chosen race object is kept; an unset race is `{ id, label }` of one of the races, and there is none exactly when the race list is empty |
| Generator.ResolvedAlignment | js/generator.js:119 | the chosen alignment is kept, an unset one is one of Good, Neutral and Evil |
| Generator.Generate | js/generator.js:115-146 | fails exactly when there is no race to draw or a file for the resolved race or alignment is missing, with the message of the first failure (no race, unknown race, name file, physical file, psych file); a built record carries the resolved sex, race and alignment, the name from the race's name file, the physical and psych picks, the platform UUID or the fallback id, no class or level, empty notes, version 1 and the given timestamp |
| Generator.GenerateKeepsChoices | js/generator.js:115-143 | in terms of the criteria: a chosen race, sex or alignment is kept in the record, an unset one is drawn from the races or options; without a platform UUID the id has the version-4 layout |
| Generator.GenerateSucceeds | js/generator.js:115-146 | with every data file loaded, a known chosen race and a known chosen alignment, generation does not throw |
| Generator.FormatForClipboard | js/generator.js:151-156 | when no field holds a newline, the text splits into exactly four lines: the name, the sex/race/alignment summary, the physical line and the psychological line |
| Ui.FormatSigned | js/ui.js:647-652 | a sign and decimal digits, '+' exactly for non-negative values |
| Ui.FormatSignedRoundTrip | js/ui.js:647-652 | the signed text reads back as the number |
| Ui.FormatLabel | js/ui.js:654-657 | '' for '', otherwise the same length with the first character upper-cased and the rest unchanged |
| Ui.FormatLabelIdempotent | js/ui.js:654-657 | formatting a label twice gives the same as once |
| Ui.GetAbilityMods | js/ui.js:627-636 | stored modifiers first, then those derived from the scores, else 0 for each of the six abilities |
| Ui.SavingThrows | js/ui.js:638-645 | a saving throw for exactly the abilities with modifiers: the modifier plus the bonus when proficient, the modifier alone otherwise |
| Ui.ComputeSavingThrows | js/ui.js:638-645 | the loop over the modifiers builds exactly SavingThrows |
| Ui.SavingThrowProficient | js/ui.js:638-645 | with a non-zero bonus, a saving throw differs from its modifier exactly when the save is proficient |
| Ui.OrText | js/ui.js:613-617 | JavaScript's `\|\|` on a string: the value when present and non-empty, the fallback otherwise |
| Ui.SignedTexts | js/ui.js:609-611 | one signed text per ability element, "undefined" for a missing modifier |
| Ui.SaveEntries | js/ui.js:622 | one `KEY ±n` entry per listed save, in order |
| Ui.RenderStats | js/ui.js:607-624 | tier defaults to Novice, CR and PB to the tier's, the archetype label to the formatted archetype and then Generalist, saves to STR and CON, saving throws to the computed ones; the statline and saves line are built from those |
| Ui.SaveEntryReadsBack | js/ui.js:622-623 | each save entry starts with its ability and its value reads back as that ability's saving throw |
| Ui.RenderStatsOfBareRecord | js/ui.js:613-623 | a generated record shows the Novice tier, the Generalist archetype, +0 modifiers, and STR and CON saves equal to the tier's bonus |
| Ui.NavTarget | js/ui.js:122-130 | result maps to the generator button, library detail to the library button, every other screen to itself |
| Ui.NavTargetProperties | js/ui.js:122-130 | every screen belongs to the generator or library button, and mapping twice equals mapping once |
| Ui.ClickedValue | js/ui.js:245-253 | "random" for the Random option, `{ id, label }` for a race, the value otherwise; the stored value is unset exactly for Random or an empty non-race value |
| Ui.ClickKeepsCriteriaWellFormed | js/ui.js:245-253 | the initial criteria and every click leave the criteria in the shapes `generate` documents |
| Ui.ClickedValueResolves | js/ui.js:245-253 | a concrete clicked value, and in particular every sex or alignment option, is what generation uses; the Random option leaves the criterion unset; a race click stores `{ id, label }` |
| Ui.Screens.constructor | js/ui.js:8-16 | starts on the generator screen with the initial criteria |
| Ui.Screens.UpdateNavigation | js/ui.js:122-133 | exactly the navigation buttons whose screen is the mapped target are active |
| Ui.Screens.ShowScreen | js/ui.js:139-150 | records the screen; exactly the named screen is active (none when the name is unknown); navigation updated |
| Ui.Screens.SelectorClick | js/ui.js:245-253 | only the clicked selector's criterion changes: "random", `{ id, label }` for a race, the value otherwise |

## Left out

- The page itself: element lookup, `innerHTML` rendering, event listeners, the selected-option styling, the modal, toasts, debouncing and the clipboard API.
- `js/data-loader.js` (fetching and caching the data files), `service-worker.js` and `js/app.js` are not part of this model; the loaded files are the `World` parameter.
- JSON encoding and local storage themselves: the stored text is modelled by what it parses to, and text that parses to something other than a list of records is not modelled.
- `Math.random()` and `crypto.randomUUID()` are parameters (draws and an optional platform UUID); `new Date().toISOString()` is the `createdAt` parameter.
- `Generator.getTierInfo` and `Generator.getAbilityModsFromScores` are parameters of `Ui.RenderStats`, because `js/generator.js` does not define them (as written, those calls would throw); the tier options the selectors list come from the same missing function and are left out.
- Generator.Generate: the error thrown when a name file fails to load is given as "Failed to load the name file of <id>", not the fetch message with the file name and HTTP status, because fetching is outside the model.
- Generator.Generate: requires the criteria to have the documented shapes (strings for sex and alignment, a race object or "random" for race); a string race id or an object for sex is not modelled.
- Common.Decimal: integers are unbounded. JavaScript numbers are doubles, so `${n}` switches to exponent form from 1e21 and sums above 2^53 round; the model holds only for values in the exactly representable range.
- Ui.FormatSigned: the same double-precision limits as Common.Decimal are not modelled.
- Ui.SavingThrows: modifier plus bonus is exact integer addition; double rounding above 2^53 is not modelled.
- Generator.LowerAscii: `toLowerCase()` is modelled on ASCII letters only; other scripts' case mapping is not modelled.
- Generator.Generate: the physical and psych load errors are given without the `: <status>` suffix of the fetch message, because the HTTP status is outside the model.
- Generator.Generate: a failed load of `races.json` (which throws) is not modelled; the race list is always present.
- Ui.FormatLabel: upper-cases only ASCII letters; other scripts' case mapping is not modelled.
- Ui.NavTarget: keys inherited from `Object.prototype` (such as "constructor") are not modelled as map entries.
- Ui.RenderStats: CR is modelled as text and the proficiency bonus as an integer; `NaN` and other falsy non-integer values are not modelled.
- `handleGenerate` (disabling the button, carrying notes over), `saveCurrentNpc`, the library list rendering and the detail screen's editing are page flow around the modelled operations and are left out.
