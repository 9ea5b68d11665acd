/** The fingering catalogue: 33 notes from Bb3 to F#6, lowest first. Each note is a
    named constant so that the facts about it can be checked one note at a time; the
    catalogue itself is the sequence of those constants in the source's order. */
module Catalogue {
  import opened Types
  import Pitch
  import Constants

  // The Grave register: Bb3 up to G#4, fingered without the octave key.

  const LowBbNote: NoteDefinition :=
    NoteDefinition("low_bb", "Si♭ Grave", "Bb3", Grave,
      [NoteVariant("Standard", [L1, L2, L3, R1, R2, R3, LPinkyLowBb, RPinkyLowC], None)],
      "Doigtez le Do grave (7) et ajoutez la clé de Sib (Bb).")

  const LowBNote: NoteDefinition :=
    NoteDefinition("low_b", "Si Grave", "B3", Grave,
      [NoteVariant("Standard", [L1, L2, L3, R1, R2, R3, LPinkyLowB, RPinkyLowC], None)],
      "Doigtez le Do grave (7) et ajoutez la clé de Si (B).")

  const LowCNote: NoteDefinition :=
    NoteDefinition("low_c", "Do Grave", "C4", Grave,
      [NoteVariant("Standard", [L1, L2, L3, R1, R2, R3, RPinkyLowC], None)],
      "Tous les doigts principaux + la clé 7.")

  const LowCSharpNote: NoteDefinition :=
    NoteDefinition("low_c_sharp", "Do# Grave", "C#4", Grave,
      [NoteVariant("Standard", [L1, L2, L3, R1, R2, R3, LPinkyLowCsharp], None)],
      "Tous les doigts principaux + la clé C# (auriculaire gauche).")

  const LowDNote: NoteDefinition :=
    NoteDefinition("low_d", "Ré Grave", "D4", Grave,
      [NoteVariant("Standard", [L1, L2, L3, R1, R2, R3], None)],
      "Les 6 doigts principaux fermés.")

  const LowEbNote: NoteDefinition :=
    NoteDefinition("low_eb", "Mi♭ Grave", "Eb4", Grave,
      [NoteVariant("Standard", [L1, L2, L3, R1, R2, R3, RPinkyEb], None)],
      "Les 6 doigts + la clé Eb.")

  const LowENote: NoteDefinition :=
    NoteDefinition("low_e", "Mi Grave", "E4", Grave,
      [NoteVariant("Standard", [L1, L2, L3, R1, R2], None)],
      "5 doigts fermés.")

  const LowFNote: NoteDefinition :=
    NoteDefinition("low_f", "Fa Grave", "F4", Grave,
      [NoteVariant("Standard", [L1, L2, L3, R1], None)],
      "4 doigts fermés.")

  const LowFSharpNote: NoteDefinition :=
    NoteDefinition("low_f_sharp", "Fa# Grave", "F#4", Grave,
      [NoteVariant("Standard", [L1, L2, L3, R2], Some("Doigté classique 123 + 5")),
       NoteVariant("Chromatique", [L1, L2, L3, R1, SideFsharp], Some("Utilise la clé de côté TF"))],
      "Deux options principales pour le Fa#.")

  const LowGNote: NoteDefinition :=
    NoteDefinition("low_g", "Sol Grave", "G4", Grave,
      [NoteVariant("Standard", [L1, L2, L3], None)],
      "Main gauche fermée.")

  const LowGSharpNote: NoteDefinition :=
    NoteDefinition("low_g_sharp", "Sol# Grave", "G#4", Grave,
      [NoteVariant("Standard", [L1, L2, L3, LPinkyGsharp], None)],
      "1, 2, 3 + clé G#.")

  // The Medium register: A4 up to C#5, fingered without the octave key.

  const MidANote: NoteDefinition :=
    NoteDefinition("mid_a", "La", "A4", Medium,
      [NoteVariant("Standard", [L1, L2], None)],
      "1 et 2.")

  const MidBbNote: NoteDefinition :=
    NoteDefinition("mid_bb", "Si♭ / La#", "Bb4", Medium,
      [NoteVariant("Côté", [L1, L2, SideBb], Some("1 + 2 + Clé de côté TA")),
       NoteVariant("Bis (P)", [L1, Bis], Some("Index MG roule sur la clé P")),
       NoteVariant("Fourchette", [L1, R1], Some("1 + 4 (Doigté \"1 et 1\")"))],
      "Trois façons principales de jouer le Si bémol.")

  const MidBNote: NoteDefinition :=
    NoteDefinition("mid_b", "Si", "B4", Medium,
      [NoteVariant("Standard", [L1], None)],
      "Doigt 1 uniquement.")

  const MidCNote: NoteDefinition :=
    NoteDefinition("mid_c", "Do", "C5", Medium,
      [NoteVariant("Standard", [L2], Some("Majeur MG uniquement")),
       NoteVariant("Côté", [L1, SideC], Some("Index MG + Clé de côté TC"))],
      "Le Do central.")

  const MidCSharpNote: NoteDefinition :=
    NoteDefinition("mid_c_sharp", "Do#", "C#5", Medium,
      [NoteVariant("Standard", [], None)],
      "Aucun doigt (ouvert).")

  // The Aigu register: D5 up to C#6, each fingering the one an octave below with the octave key added.

  const HighDNote: NoteDefinition :=
    NoteDefinition("high_d", "Ré Aigu", "D5", Aigu,
      [NoteVariant("Standard", [Octave, L1, L2, L3, R1, R2, R3], None)],
      "Comme le Ré grave + Octave.")

  const HighEbNote: NoteDefinition :=
    NoteDefinition("high_eb", "Mi♭ Aigu", "Eb5", Aigu,
      [NoteVariant("Standard", [Octave, L1, L2, L3, R1, R2, R3, RPinkyEb], None)],
      "Comme le Mib grave + Octave.")

  const HighENote: NoteDefinition :=
    NoteDefinition("high_e", "Mi Aigu", "E5", Aigu,
      [NoteVariant("Standard", [Octave, L1, L2, L3, R1, R2], None)],
      "Comme le Mi grave + Octave.")

  const HighFNote: NoteDefinition :=
    NoteDefinition("high_f", "Fa Aigu", "F5", Aigu,
      [NoteVariant("Standard", [Octave, L1, L2, L3, R1], None)],
      "Comme le Fa grave + Octave.")

  const HighFSharpNote: NoteDefinition :=
    NoteDefinition("high_f_sharp", "Fa# Aigu", "F#5", Aigu,
      [NoteVariant("Standard", [Octave, L1, L2, L3, R2], Some("Classique")),
       NoteVariant("Chromatique", [Octave, L1, L2, L3, R1, SideFsharp], Some("Avec clé de côté"))],
      "Comme le Fa# grave + Octave.")

  const HighGNote: NoteDefinition :=
    NoteDefinition("high_g", "Sol Aigu", "G5", Aigu,
      [NoteVariant("Standard", [Octave, L1, L2, L3], None)],
      "Comme le Sol grave + Octave.")

  const HighGSharpNote: NoteDefinition :=
    NoteDefinition("high_g_sharp", "Sol# Aigu", "G#5", Aigu,
      [NoteVariant("Standard", [Octave, L1, L2, L3, LPinkyGsharp], None)],
      "Comme le Sol# grave + Octave.")

  const HighANote: NoteDefinition :=
    NoteDefinition("high_a", "La Aigu", "A5", Aigu,
      [NoteVariant("Standard", [Octave, L1, L2], None)],
      "1, 2 + Octave.")

  const HighBbNote: NoteDefinition :=
    NoteDefinition("high_bb", "Si♭ Aigu", "Bb5", Aigu,
      [NoteVariant("Côté", [Octave, L1, L2, SideBb], None),
       NoteVariant("Bis", [Octave, L1, Bis], None),
       NoteVariant("Fourchette", [Octave, L1, R1], None)],
      "Les mêmes variantes qu'au médium + Octave.")

  const HighBNote: NoteDefinition :=
    NoteDefinition("high_b", "Si Aigu", "B5", Aigu,
      [NoteVariant("Standard", [Octave, L1], None)],
      "1 + Octave.")

  const HighCNote: NoteDefinition :=
    NoteDefinition("high_c", "Do Aigu", "C6", Aigu,
      [NoteVariant("Standard", [Octave, L2], None),
       NoteVariant("Côté", [Octave, L1, SideC], None)],
      "2 + Octave.")

  const HighCSharpNote: NoteDefinition :=
    NoteDefinition("high_c_sharp", "Do# Aigu", "C#6", Aigu,
      [NoteVariant("Standard", [Octave], None)],
      "Octave seule.")

  // The Sur-aigu register: D6 up to F#6, on the palm keys and the front F key.

  const PalmDNote: NoteDefinition :=
    NoteDefinition("palm_d", "Ré Sur-aigu", "D6", SurAigu,
      [NoteVariant("Standard", [Octave, PalmD], None)],
      "Octave + C1.")

  const PalmEbNote: NoteDefinition :=
    NoteDefinition("palm_eb", "Mi♭ Sur-aigu", "Eb6", SurAigu,
      [NoteVariant("Standard", [Octave, PalmD, PalmEb], None)],
      "Octave + C1, C2.")

  const PalmENote: NoteDefinition :=
    NoteDefinition("palm_e", "Mi Sur-aigu", "E6", SurAigu,
      [NoteVariant("Standard", [Octave, PalmD, PalmEb, SideHighE], Some("Octave + C1, C2 + C3 (Clé de côté).")),
       NoteVariant("Front F", [Octave, FrontF, L2, L3], Some("Doigté harmonique : Octave + X + 2 + 3."))],
      "Le Mi sur-aigu.")

  const PalmFNote: NoteDefinition :=
    NoteDefinition("palm_f", "Fa Sur-aigu", "F6", SurAigu,
      [NoteVariant("Standard", [Octave, PalmD, PalmEb, PalmF, SideHighE], Some("Octave + C1, C2, C3 + C4 (Clés de paume + Côté).")),
       NoteVariant("Front F", [Octave, FrontF, L2], Some("Doigté harmonique : Octave + X + 2 (Majeur main gauche)."))],
      "Le Fa sur-aigu.")

  const HighFsNote: NoteDefinition :=
    NoteDefinition("high_fs", "Fa# Sur-aigu", "F#6", SurAigu,
      [NoteVariant("Standard", [Octave, PalmD, PalmEb, PalmF, SideHighE, HighFsharp], Some("Tous les palm keys + Côté C3 + C5.")),
       NoteVariant("Front F", [Octave, FrontF, L2, SideBb], Some("Octave + X + 2 + Clé de côté Ta (Bb)."))],
      "Le Fa# sur-aigu.")

  /** The catalogue, lowest note first. */
  const Notes: seq<NoteDefinition> :=
    [LowBbNote, LowBNote, LowCNote, LowCSharpNote,
     LowDNote, LowEbNote, LowENote, LowFNote,
     LowFSharpNote, LowGNote, LowGSharpNote, MidANote,
     MidBbNote, MidBNote, MidCNote, MidCSharpNote,
     HighDNote, HighEbNote, HighENote, HighFNote,
     HighFSharpNote, HighGNote, HighGSharpNote, HighANote,
     HighBbNote, HighBNote, HighCNote, HighCSharpNote,
     PalmDNote, PalmEbNote, PalmENote, PalmFNote,
     HighFsNote]


  /** Whether a group's fingerings use the octave key. */
  predicate UpperRegister(g: Group) {
    g == Aigu || g == SurAigu
  }

  /** A variant's key list names no key twice, and contains the octave key exactly
      when `upper` holds. */
  predicate WellFormedKeys(keys: seq<KeyName>, upper: bool) {
    NoDuplicates(keys) && (Octave in keys <==> upper)
  }

  /** What every catalogue entry satisfies: at least one variant, no key listed twice
      in a variant, and the octave key pressed in a variant exactly when the note lies
      in an upper register. */
  predicate WellFormedNote(n: NoteDefinition) {
    && |n.variants| > 0
    && forall v | 0 <= v < |n.variants| :: WellFormedKeys(n.variants[v].keys, UpperRegister(n.group))
  }

  /** `hi` is fingered as `lo` an octave up: the same number of variants, and each
      variant's keys are the octave key followed by the keys of `lo`'s variant. */
  predicate OctaveAbove(hi: NoteDefinition, lo: NoteDefinition) {
    && |hi.variants| == |lo.variants|
    && forall v | 0 <= v < |hi.variants| :: hi.variants[v].keys == [Octave] + lo.variants[v].keys
  }

  /** The group a catalogue position belongs to: 11 Grave notes, 5 Medium, 12 Aigu,
      then Sur-aigu. */
  function BlockGroup(i: nat): Group {
    if i < 11 then Grave else if i < 16 then Medium else if i < 28 then Aigu else SurAigu
  }

  /** No note before position i of the catalogue has the id of `n`. */
  predicate IdFresh(n: NoteDefinition, i: nat) {
    forall j | 0 <= j < i && j < |Notes| :: Notes[j].id != n.id
  }

  /** What is checked of the note at catalogue position i: it is well formed, lies in
      the block's group, and sounds `46 + i` semitones above C0 (so Bb3 is first). */
  predicate EntryChecked(n: NoteDefinition, i: nat) {
    && n.group == BlockGroup(i)
    && WellFormedNote(n)
    && Pitch.ScientificSemitone(n.scientificName) == Some(46 + i)
  }

  lemma LowBbChecked() ensures EntryChecked(LowBbNote, 0) { }
  lemma LowBChecked() ensures EntryChecked(LowBNote, 1) { }
  lemma LowCChecked() ensures EntryChecked(LowCNote, 2) { }
  lemma LowCSharpChecked() ensures EntryChecked(LowCSharpNote, 3) { }
  lemma LowDChecked() ensures EntryChecked(LowDNote, 4) { }
  lemma LowEbChecked() ensures EntryChecked(LowEbNote, 5) { }
  lemma LowEChecked() ensures EntryChecked(LowENote, 6) { }
  lemma LowFChecked() ensures EntryChecked(LowFNote, 7) { }
  lemma LowFSharpChecked() ensures EntryChecked(LowFSharpNote, 8) { }
  lemma LowGChecked() ensures EntryChecked(LowGNote, 9) { }
  lemma LowGSharpChecked() ensures EntryChecked(LowGSharpNote, 10) { }
  lemma MidAChecked() ensures EntryChecked(MidANote, 11) { }
  lemma MidBbChecked() ensures EntryChecked(MidBbNote, 12) { }
  lemma MidBChecked() ensures EntryChecked(MidBNote, 13) { }
  lemma MidCChecked() ensures EntryChecked(MidCNote, 14) { }
  lemma MidCSharpChecked() ensures EntryChecked(MidCSharpNote, 15) { }
  lemma HighDChecked() ensures EntryChecked(HighDNote, 16) { }
  lemma HighEbChecked() ensures EntryChecked(HighEbNote, 17) { }
  lemma HighEChecked() ensures EntryChecked(HighENote, 18) { }
  lemma HighFChecked() ensures EntryChecked(HighFNote, 19) { }
  lemma HighFSharpChecked() ensures EntryChecked(HighFSharpNote, 20) { }
  lemma HighGChecked() ensures EntryChecked(HighGNote, 21) { }
  lemma HighGSharpChecked() ensures EntryChecked(HighGSharpNote, 22) { }
  lemma HighAChecked() ensures EntryChecked(HighANote, 23) { }
  lemma HighBbChecked() ensures EntryChecked(HighBbNote, 24) { }
  lemma HighBChecked() ensures EntryChecked(HighBNote, 25) { }
  lemma HighCChecked() ensures EntryChecked(HighCNote, 26) { }
  lemma HighCSharpChecked() ensures EntryChecked(HighCSharpNote, 27) { }
  lemma PalmDChecked() ensures EntryChecked(PalmDNote, 28) { }
  lemma PalmEbChecked() ensures EntryChecked(PalmEbNote, 29) { }
  lemma PalmEChecked() ensures EntryChecked(PalmENote, 30) { }
  lemma PalmFChecked() ensures EntryChecked(PalmFNote, 31) { }
  lemma HighFsChecked() ensures EntryChecked(HighFsNote, 32) { }

  lemma GraveBlockChecked()
    ensures forall i | 0 <= i < 11 :: EntryChecked(Notes[i], i)
  {
    LowBbChecked();
    LowBChecked();
    LowCChecked();
    LowCSharpChecked();
    LowDChecked();
    LowEbChecked();
    LowEChecked();
    LowFChecked();
    LowFSharpChecked();
    LowGChecked();
    LowGSharpChecked();
  }

  lemma MediumBlockChecked()
    ensures forall i | 11 <= i < 16 :: EntryChecked(Notes[i], i)
  {
    MidAChecked();
    MidBbChecked();
    MidBChecked();
    MidCChecked();
    MidCSharpChecked();
  }

  lemma AiguBlockChecked()
    ensures forall i | 16 <= i < 28 :: EntryChecked(Notes[i], i)
  {
    HighDChecked();
    HighEbChecked();
    HighEChecked();
    HighFChecked();
    HighFSharpChecked();
    HighGChecked();
    HighGSharpChecked();
    HighAChecked();
    HighBbChecked();
    HighBChecked();
    HighCChecked();
    HighCSharpChecked();
  }

  lemma SurAiguBlockChecked()
    ensures forall i | 28 <= i < 33 :: EntryChecked(Notes[i], i)
  {
    PalmDChecked();
    PalmEbChecked();
    PalmEChecked();
    PalmFChecked();
    HighFsChecked();
  }

  lemma LowBbIdFresh() ensures IdFresh(LowBbNote, 0) { }
  lemma LowBIdFresh() ensures IdFresh(LowBNote, 1) { }
  lemma LowCIdFresh() ensures IdFresh(LowCNote, 2) { }
  lemma LowCSharpIdFresh() ensures IdFresh(LowCSharpNote, 3) { }
  lemma LowDIdFresh() ensures IdFresh(LowDNote, 4) { }
  lemma LowEbIdFresh() ensures IdFresh(LowEbNote, 5) { }
  lemma LowEIdFresh() ensures IdFresh(LowENote, 6) { }
  lemma LowFIdFresh() ensures IdFresh(LowFNote, 7) { }
  lemma LowFSharpIdFresh() ensures IdFresh(LowFSharpNote, 8) { }
  lemma LowGIdFresh() ensures IdFresh(LowGNote, 9) { }
  lemma LowGSharpIdFresh() ensures IdFresh(LowGSharpNote, 10) { }
  lemma MidAIdFresh() ensures IdFresh(MidANote, 11) { }
  lemma MidBbIdFresh() ensures IdFresh(MidBbNote, 12) { }
  lemma MidBIdFresh() ensures IdFresh(MidBNote, 13) { }
  lemma MidCIdFresh() ensures IdFresh(MidCNote, 14) { }
  lemma MidCSharpIdFresh() ensures IdFresh(MidCSharpNote, 15) { }
  lemma HighDIdFresh() ensures IdFresh(HighDNote, 16) { }
  lemma HighEbIdFresh() ensures IdFresh(HighEbNote, 17) { }
  lemma HighEIdFresh() ensures IdFresh(HighENote, 18) { }
  lemma HighFIdFresh() ensures IdFresh(HighFNote, 19) { }
  lemma HighFSharpIdFresh() ensures IdFresh(HighFSharpNote, 20) { }
  lemma HighGIdFresh() ensures IdFresh(HighGNote, 21) { }
  lemma HighGSharpIdFresh() ensures IdFresh(HighGSharpNote, 22) { }
  lemma HighAIdFresh() ensures IdFresh(HighANote, 23) { }
  lemma HighBbIdFresh() ensures IdFresh(HighBbNote, 24) { }
  lemma HighBIdFresh() ensures IdFresh(HighBNote, 25) { }
  lemma HighCIdFresh() ensures IdFresh(HighCNote, 26) { }
  lemma HighCSharpIdFresh() ensures IdFresh(HighCSharpNote, 27) { }
  lemma PalmDIdFresh() ensures IdFresh(PalmDNote, 28) { }
  lemma PalmEbIdFresh() ensures IdFresh(PalmEbNote, 29) { }
  lemma PalmEIdFresh() ensures IdFresh(PalmENote, 30) { }
  lemma PalmFIdFresh() ensures IdFresh(PalmFNote, 31) { }
  lemma HighFsIdFresh() ensures IdFresh(HighFsNote, 32) { }

  lemma GraveIdsFresh()
    ensures forall i | 0 <= i < 11 :: IdFresh(Notes[i], i)
  {
    LowBbIdFresh();
    LowBIdFresh();
    LowCIdFresh();
    LowCSharpIdFresh();
    LowDIdFresh();
    LowEbIdFresh();
    LowEIdFresh();
    LowFIdFresh();
    LowFSharpIdFresh();
    LowGIdFresh();
    LowGSharpIdFresh();
  }

  lemma MediumIdsFresh()
    ensures forall i | 11 <= i < 16 :: IdFresh(Notes[i], i)
  {
    MidAIdFresh();
    MidBbIdFresh();
    MidBIdFresh();
    MidCIdFresh();
    MidCSharpIdFresh();
  }

  lemma AiguIdsFresh()
    ensures forall i | 16 <= i < 28 :: IdFresh(Notes[i], i)
  {
    HighDIdFresh();
    HighEbIdFresh();
    HighEIdFresh();
    HighFIdFresh();
    HighFSharpIdFresh();
    HighGIdFresh();
    HighGSharpIdFresh();
    HighAIdFresh();
    HighBbIdFresh();
    HighBIdFresh();
    HighCIdFresh();
    HighCSharpIdFresh();
  }

  lemma SurAiguIdsFresh()
    ensures forall i | 28 <= i < 33 :: IdFresh(Notes[i], i)
  {
    PalmDIdFresh();
    PalmEbIdFresh();
    PalmEIdFresh();
    PalmFIdFresh();
    HighFsIdFresh();
  }

  /** Every entry of the catalogue passes the per-note checks at its position. */
  lemma NotesChecked()
    ensures |Notes| == 33
    ensures forall i | 0 <= i < |Notes| :: EntryChecked(Notes[i], i)
  {
    GraveBlockChecked();
    MediumBlockChecked();
    AiguBlockChecked();
    SurAiguBlockChecked();
  }

  lemma HighDOctaveAbove() ensures OctaveAbove(HighDNote, LowDNote) { }
  lemma HighEbOctaveAbove() ensures OctaveAbove(HighEbNote, LowEbNote) { }
  lemma HighEOctaveAbove() ensures OctaveAbove(HighENote, LowENote) { }
  lemma HighFOctaveAbove() ensures OctaveAbove(HighFNote, LowFNote) { }
  lemma HighFSharpOctaveAbove() ensures OctaveAbove(HighFSharpNote, LowFSharpNote) { }
  lemma HighGOctaveAbove() ensures OctaveAbove(HighGNote, LowGNote) { }
  lemma HighGSharpOctaveAbove() ensures OctaveAbove(HighGSharpNote, LowGSharpNote) { }
  lemma HighAOctaveAbove() ensures OctaveAbove(HighANote, MidANote) { }
  lemma HighBbOctaveAbove() ensures OctaveAbove(HighBbNote, MidBbNote) { }
  lemma HighBOctaveAbove() ensures OctaveAbove(HighBNote, MidBNote) { }
  lemma HighCOctaveAbove() ensures OctaveAbove(HighCNote, MidCNote) { }
  lemma HighCSharpOctaveAbove() ensures OctaveAbove(HighCSharpNote, MidCSharpNote) { }

  /** Each Aigu note, from high_d to high_c_sharp, is the note twelve places (one
      octave) below it with the octave key added to every variant. */
  lemma AiguIsOctaveAboveLower()
    ensures forall i | 16 <= i < 28 :: OctaveAbove(Notes[i], Notes[i - 12])
  {
    HighDOctaveAbove();
    HighEbOctaveAbove();
    HighEOctaveAbove();
    HighFOctaveAbove();
    HighFSharpOctaveAbove();
    HighGOctaveAbove();
    HighGSharpOctaveAbove();
    HighAOctaveAbove();
    HighBbOctaveAbove();
    HighBOctaveAbove();
    HighCOctaveAbove();
    HighCSharpOctaveAbove();
  }

  /** No two notes share an id. */
  predicate UniqueIds(notes: seq<NoteDefinition>) {
    forall i, j | 0 <= i < j < |notes| :: notes[i].id != notes[j].id
  }

  /** The 33 ids of the catalogue are pairwise distinct, so a lookup by id can find at
      most one note. */
  lemma NoteIdsDistinct()
    ensures |Notes| == 33 && UniqueIds(Notes)
  {
    GraveIdsFresh();
    MediumIdsFresh();
    AiguIdsFresh();
    SurAiguIdsFresh();
    forall i, j | 0 <= i < j < |Notes| ensures Notes[i].id != Notes[j].id {
      assert IdFresh(Notes[j], j);
    }
  }

  /** The notes are listed by register: every Grave note before every Medium note, and
      so on up to Sur-aigu, with the catalogue starting in Grave and ending in
      Sur-aigu. */
  lemma GroupsContiguous()
    ensures Notes[0].group == Grave && Notes[|Notes| - 1].group == SurAigu
    ensures forall i, j | 0 <= i <= j < |Notes| :: GroupRank(Notes[i].group) <= GroupRank(Notes[j].group)
  {
    NotesChecked();
    forall i, j | 0 <= i <= j < |Notes| ensures GroupRank(Notes[i].group) <= GroupRank(Notes[j].group) {
      assert EntryChecked(Notes[i], i) && EntryChecked(Notes[j], j);
    }
  }

  /** Every key a fingering presses has a place on the schematic, so the renderer can
      draw every fingering of the catalogue. */
  lemma FingeringKeysDrawable()
    ensures forall i, v, k | 0 <= i < |Notes| && 0 <= v < |Notes[i].variants| && k in Notes[i].variants[v].keys ::
      k in Constants.TableKeys(Constants.KeyCoordinates)
  {
    Constants.KeyCoordinatesComplete();
  }

  /** Any note taken from the catalogue is well formed; in particular it has a first
      variant. */
  lemma MemberWellFormed(n: NoteDefinition)
    requires n in Notes
    ensures WellFormedNote(n) && |n.variants| > 0
  {
    NotesChecked();
    var i :| 0 <= i < |Notes| && Notes[i] == n;
    assert EntryChecked(Notes[i], i);
  }
}
