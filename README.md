# saxguide — a verified model of the fingering and transposition core

saxguide is a single-screen reference for saxophonists. A fingering tab lists 33
notes from low Si♭ (Bb3) to high Fa♯ (F#6), grouped into four registers (Grave,
Médium, Aigu, Sur-aigu). It draws the chosen note's fingering on a flat key
schematic. A note may have several alternative fingerings ("variants"). A
transposition tab takes a played pitch class, a source instrument and a target
instrument. It shows the pitch class to finger on the target instrument and draws a
fingering for it.

This project models, in Dafny:

- `Types` (types.ts): the 23 key names, fingering variants, note definitions and the
  four registers.
- `Constants` (constants.ts): the chromatic scale, the five instruments with their
  transposing offsets, and the schematic coordinates of every key.
- `Catalogue` (constants.ts): the 33 notes of the fingering catalogue, one named
  constant per note. Its lemmas state the catalogue's properties:
  - every note has a variant, and no variant presses a key twice;
  - the octave key is pressed exactly in the Aigu and Sur-aigu registers;
  - the notes ascend by one semitone each and are ordered by register;
  - ids are unique;
  - each Aigu note is the note an octave below plus the octave key;
  - every pressed key can be drawn.

  Each catalogue lemma is assembled from per-note lemmas (`<Note>Checked`,
  `<Note>IdFresh`, `<Note>OctaveAbove`), one register block at a time
  (`GraveBlockChecked`, `GraveIdsFresh`, …). Those steps are helpers and have no
  row below.
- `Pitch`: readers for scientific pitch names ("C#5") and chromatic-scale
  identifiers ("c_sharp"). They are not part of the application. They are the
  independent reference against which the tables and the transposition lookup are
  checked.
- `Transposition` (App.tsx):
  - the transposition arithmetic, with JavaScript's truncating `%` written out;
  - the pitch-class-to-note map;
  - `Array.prototype.find` over the catalogue, with its fallback to the first note.
- `Selection` (App.tsx):
  - the screen's state as a class `AppState`, whose fields the handlers update;
  - the grouping of the note list, as a method with a loop building a map;
  - the values derived on each render: the current variant, the description shown,
    and the keys handed to the renderer.
- `Saxophone` (components/Saxophone3D.tsx): the schematic as a list of drawn keys.
  Each drawn key keeps its table position, radius and caption. Its colours, outline,
  inner ring and caption size follow the source's rules.

## Model

| member | source | states |
|---|---|---|
| Types.AllKeyNamesComplete | types.ts:1-15 | the key-name union has exactly 23 members, each listed once |
| Types.GroupsClosed | types.ts:27 | there are four registers, listed once each in the sidebar order, and their labels tell them apart |
| Constants.ChromaticScaleAscends | constants.ts:11-24 | the scale has 12 entries starting at Do; every identifier of entry k names pitch class k |
| Constants.ChromaticScaleNamesDistinct | constants.ts:11-24 | the twelve scale names are distinct |
| Constants.InstrumentOffsets | constants.ts:26-32 | there are five instruments, each offset is a pitch class, and the offsets are 0, 9, 2, 2, 7 |
| Constants.CoordinateIndex | constants.ts:35-76 | every key name has an entry in the coordinate record |
| Constants.KeyCoordinatesComplete | constants.ts:35-76 | the coordinate record has one entry per key: 23 entries, none repeated, none missing |
| Constants.KeyRadiiExceedRing | constants.ts:35-76 | every key's radius exceeds 4, so an open key's inner ring has a positive radius |
| Catalogue.NotesChecked | constants.ts:78-279 | 33 notes. Note i sounds i semitones above Bb3. Its register is determined by its position. It has a variant, no variant presses a key twice, and the octave key is pressed exactly in the Aigu and Sur-aigu registers |
| Catalogue.NoteIdsDistinct | constants.ts:78-279 | no two catalogue notes share an id |
| Catalogue.GroupsContiguous | constants.ts:78-279 | the catalogue starts in Grave, ends in Sur-aigu, and never goes down a register |
| Catalogue.AiguIsOctaveAboveLower | constants.ts:78-244 | each Aigu note from high_d to high_c_sharp has the same variants as the note an octave below, with the octave key added to each |
| Catalogue.FingeringKeysDrawable | constants.ts:35-279 | every key pressed by any fingering has a place on the schematic |
| Catalogue.MemberWellFormed | constants.ts:78-279 | any note taken from the catalogue is well formed and has a first variant |
| Transposition.JsRem12 | App.tsx:52 | JavaScript's `%` by 12: the result has the dividend's sign, its magnitude is below 12, and it differs from the dividend by a multiple of 12 |
| Transposition.LiftedRemainderIsEuclidean | App.tsx:52-53 | adding 12 to a negative remainder gives the Euclidean remainder, for every sum including negative ones |
| Transposition.Transpose | App.tsx:48-55 | the transposed index is always a pitch class in 0..11 |
| Transposition.TransposeIdentity | App.tsx:48-55 | transposing between instruments with equal offsets changes nothing |
| Transposition.TransposeInverse | App.tsx:48-55 | transposing from A to B and back returns the played pitch class |
| Transposition.TransposeCompose | App.tsx:48-55 | transposing from A to B and then from B to C equals transposing from A to C |
| Transposition.DefaultTranspositions | App.tsx:43-55 | with the defaults (piano to tenor), concert Do is fingered as Ré; piano to alto gives La |
| Transposition.NoteIdMap | App.tsx:63-78 | the map defines an id exactly for the indices 0..11 |
| Transposition.FindById | App.tsx:79 | find returns a note with the id that comes before every other note with that id; it returns nothing only when no note has the id |
| Transposition.FindByIdLocates | App.tsx:79 | in a list with unique ids, looking up a note's own id finds that note |
| Transposition.TransposedNoteDef | App.tsx:61-80 | the fingering shown always comes from the catalogue, through the lookup or the fallback to the first note |
| Transposition.MappedIdsAtPositions | App.tsx:63-76 | each mapped id is the id of a catalogue note, at a stated position |
| Transposition.TransposedNoteFound | App.tsx:61-80 | for every pitch class the lookup succeeds, so the fallback is never taken; the note found has that pitch class and a first variant |
| Selection.ShownDescription | App.tsx:290 | the variant's description is shown when it is present and non-empty; otherwise the note's description is shown |
| Selection.TransposedKeys | App.tsx:340 | the transposition tab draws the first variant of the looked-up note, which always exists |
| Selection.TransposedNoteName | App.tsx:58 | the name shown for a transposed pitch class belongs to no other pitch class |
| Selection.TransposedNameMatchesFingering | App.tsx:57-58 | the name shown on the transposition tab is that of the scale entry whose identifiers read as the pitch class of the fingering drawn there |
| Selection.AppState.constructor | App.tsx:30-45 | the initial state: fingering tab, high_d at variant 0, piano to tenor, concert Do; the invariant holds |
| Selection.AppState.SetActiveTab | App.tsx:131-138 | switching tabs changes only the tab and keeps the invariant |
| Selection.AppState.HandleNoteSelect | App.tsx:84-101 | corrected handler: selecting a different note resets the variant index with it, so the invariant holds after every step; selecting the note already shown keeps the index, as the source does |
| Selection.AppState.HandleNoteSelectAsWritten | App.tsx:100-101 | handler as written: only the note changes, and the old variant index is kept |
| Selection.AppState.ResetVariantEffect | App.tsx:84-87 | the reset effect sets the index to 0, which restores the invariant, and changes nothing else |
| Selection.AppState.SelectVariant | App.tsx:293-298 | a variant button sets the index to one of the note's variants and changes nothing else |
| Selection.AppState.SetSourceInstIndex | App.tsx:184-189 | the source instrument menu sets an instrument index and changes nothing else |
| Selection.AppState.SetSourceNoteIndex | App.tsx:198-202 | a played-note button sets a pitch class and changes nothing else |
| Selection.AppState.SetTargetInstIndex | App.tsx:218-222 | the target instrument menu sets an instrument index and changes nothing else |
| Selection.AppState.CurrentVariant | App.tsx:89 | under the invariant, the current variant is one of the selected note's variants |
| Selection.AppState.TransposedNoteIndex | App.tsx:48-55 | the source's computation (truncating `%`, then +12) returns exactly the transposition of the played pitch class, a value in 0..11 |
| Selection.AppState.DisplayedKeys | App.tsx:316-340 | the renderer always gets a fingering of the catalogue: the current variant on the fingering tab, and on the transposition tab the first fingering of a catalogue note whose pitch class is the transposed one |
| Selection.StaleVariantIndex | App.tsx:84-89 | mid_bb has a third variant and mid_b has only one variant |
| Selection.StaleIndexScenario | App.tsx:84-101 | picking mid_bb, its third variant, then mid_b with the as-written handler leaves index 2 on a one-variant note: the invariant is broken when the next render reads the current variant |
| Selection.GroupNotes | App.tsx:92-96 | the reduce yields a bucket exactly for each register that occurs; each bucket holds that register's notes in list order |
| Selection.BucketMembers | App.tsx:92-96 | a note is in a register's bucket exactly when it is in the list and belongs to that register |
| Selection.BucketSizes | App.tsx:92-96 | the four buckets together hold as many notes as the list, so none is dropped or duplicated |
| Selection.ListingOfOrderedList | App.tsx:150-157 | for a list ordered by register, listing the buckets in register order gives the list back |
| Selection.SideListIsCatalogue | App.tsx:150-157 | the sidebar shows the whole catalogue in catalogue order, and every register heading has notes under it |
| Saxophone.FontSizeTiers | components/Saxophone3D.tsx:74 | the caption size grows with the radius, with "8" below 10 and "12" from 15 |
| Saxophone.Render | components/Saxophone3D.tsx:47-79 | one drawn key per coordinate entry, in entry order, keeping position, radius and caption; a key is engaged exactly when the fingering lists it |
| Saxophone.RenderIgnoresOrderAndRepeats | components/Saxophone3D.tsx:10 | only the set of listed keys matters; their order and repetitions do not |
| Saxophone.RenderExtremes | components/Saxophone3D.tsx:10 | with no keys pressed every key is open; with all keys pressed every key is engaged |
| Saxophone.StyleDependsOnlyOnEngaged | components/Saxophone3D.tsx:55-76 | two keys share fill, outline, outline width and caption colour exactly when they share the engaged flag |
| Saxophone.InnerRingOnOpenKeys | components/Saxophone3D.tsx:64-67 | an inner ring is drawn exactly for open keys, 4 inside the circle, with a positive radius |
| Saxophone.EveryKeyDrawnOnce | components/Saxophone3D.tsx:47-49 | the schematic draws each of the 23 keys exactly once, whatever is pressed |
| Saxophone.SchematicFontSizes | components/Saxophone3D.tsx:74 | no key of the schematic is small enough for the "8" caption size |

## Left out

- Layout, styling, icons, the guide lines, section captions and glow filter of the
  schematic, and the mobile list/view toggle with its window-width test (App.tsx:33-36,
  102-105): these are presentation only and change no modelled value.
- React's render and effect scheduling is not modelled. The `useEffect` reset
  (App.tsx:84-87) is the explicit method `ResetVariantEffect`, which a caller runs
  after a note change.
- `SaxType` (types.ts:32-35) is not used by the core.
- Key names are datatype constructors, not strings. The renderer's
  `keyName as KeyName` (components/Saxophone3D.tsx:48) is a type assertion with no run-time
  effect, so the string spellings are not modelled.
- The variant field `label` is named `caption`, because `label` is a Dafny keyword.
- Selection.GroupNotes: the grouping record is keyed by the `Group` datatype, not by
  label strings. `Types.GroupsClosed` shows that labels and groups correspond one to one.
- JavaScript numbers are modelled as unbounded integers. Every index and offset here is
  a small integer, so no rounding can occur.
- Selection.AppState.SetSourceInstIndex, Selection.AppState.SetTargetInstIndex,
  Selection.AppState.SetSourceNoteIndex and Selection.AppState.SelectVariant require the
  index ranges that the menus and buttons offer (App.tsx:184-222, 295-298). The
  source's setters accept any number, but the screen passes only these.
- Display strings such as headings and button texts are not modelled, apart from the
  description fallback and the transposed note's name.

## Findings

| source | as written | input that shows it | evidently intended | confidence | as-written member | corrected member |
|---|---|---|---|---|---|---|
| App.tsx:84-101 | `handleNoteSelect` changes only the note. The variant index is reset by an effect that runs after the next render, but that render already reads `selectedNote.variants[selectedVariantIndex]` (App.tsx:89) and its `description` (App.tsx:290) | on the fingering tab, show mid_bb at its third variant (index 2), then pick mid_b, which has only one variant | selecting a note shows its first variant, so the index is always in range when read | not executed | Selection.StaleIndexScenario (through Selection.AppState.HandleNoteSelectAsWritten) | Selection.AppState.HandleNoteSelect |
