/** The static reference tables: the chromatic scale, the instruments with their
    transposing offsets and the schematic position of every key. All of them are
    immutable values; the fingering catalogue has a module of its own. */
module Constants {
  import opened Types
  import Pitch

  datatype ScaleEntry = ScaleEntry(name: string, ids: seq<string>)

  datatype Instrument = Instrument(name: string, offset: int)

  /** Placement of one key on the flat schematic (`caption` is the source's `label`). */
  datatype SchematicKey = SchematicKey(x: int, y: int, r: int, caption: string)

  /** The twelve pitch classes, from Do upwards by semitone. */
  const ChromaticScale: seq<ScaleEntry> := [
    ScaleEntry("Do", ["c"]),
    ScaleEntry("Do♯ / Ré♭", ["c_sharp", "db"]),
    ScaleEntry("Ré", ["d"]),
    ScaleEntry("Mi♭ / Ré♯", ["eb", "d_sharp"]),
    ScaleEntry("Mi", ["e"]),
    ScaleEntry("Fa", ["f"]),
    ScaleEntry("Fa♯ / Sol♭", ["f_sharp", "gb"]),
    ScaleEntry("Sol", ["g"]),
    ScaleEntry("Sol♯ / La♭", ["g_sharp", "ab"]),
    ScaleEntry("La", ["a"]),
    ScaleEntry("Si♭ / La♯", ["bb", "a_sharp"]),
    ScaleEntry("Si", ["b"])
  ]

  /** The instruments offered for transposition; the offset is the number of
      semitones from concert pitch to the written pitch. */
  const Instruments: seq<Instrument> := [
    Instrument("Piano / Flûte / Ut", 0),
    Instrument("Saxophone Alto / Baryton (Mi♭)", 9),
    Instrument("Saxophone Ténor / Soprano (Si♭)", 2),
    Instrument("Trompette / Clarinette (Si♭)", 2),
    Instrument("Cor en Fa", 7)
  ]

  /** The coordinate record, as its entries in declaration order (the order in which
      the renderer walks it). */
  const KeyCoordinates: seq<(KeyName, SchematicKey)> := [
    // top section (left hand)
    (Octave, SchematicKey(280, 80, 12, "Oct")),
    (FrontF, SchematicKey(240, 90, 14, "X")),
    (L1, SchematicKey(240, 130, 20, "1")),
    (Bis, SchematicKey(240, 155, 10, "P")),
    (L2, SchematicKey(240, 190, 20, "2")),
    (L3, SchematicKey(240, 230, 20, "3")),
    (PalmF, SchematicKey(150, 90, 16, "C4")),
    (PalmEb, SchematicKey(140, 130, 16, "C2")),
    (PalmD, SchematicKey(150, 170, 16, "C1")),
    (LPinkyGsharp, SchematicKey(290, 190, 18, "G#")),
    (LPinkyLowCsharp, SchematicKey(300, 220, 18, "C#")),
    (LPinkyLowB, SchematicKey(290, 250, 18, "B")),
    (LPinkyLowBb, SchematicKey(280, 280, 18, "Bb")),
    // bottom section (right hand)
    (R1, SchematicKey(240, 330, 20, "4")),
    (R2, SchematicKey(240, 370, 20, "5")),
    (R3, SchematicKey(240, 410, 20, "6")),
    (SideHighE, SchematicKey(130, 330, 16, "C3")),
    (SideC, SchematicKey(130, 370, 16, "TC")),
    (SideBb, SchematicKey(130, 410, 16, "TA")),
    (SideFsharp, SchematicKey(185, 350, 14, "TF")),
    (HighFsharp, SchematicKey(185, 390, 14, "C5")),
    (RPinkyEb, SchematicKey(220, 460, 18, "Eb")),
    (RPinkyLowC, SchematicKey(260, 460, 18, "7"))
  ]

  /** The chromatic scale has twelve entries starting at Do, and entry k names pitch
      class k: the scale ascends by one semitone per entry. */
  lemma ChromaticScaleAscends()
    ensures |ChromaticScale| == 12 && ChromaticScale[0].name == "Do"
    ensures forall k | 0 <= k < |ChromaticScale| :: |ChromaticScale[k].ids| > 0
    ensures forall k, m | 0 <= k < |ChromaticScale| && 0 <= m < |ChromaticScale[k].ids| ::
      Pitch.PitchIdClass(ChromaticScale[k].ids[m]) == Some(k)
  {
  }

  /** The twelve names of the scale are distinct. */
  lemma ChromaticScaleNamesDistinct()
    ensures |ChromaticScale| == 12
    ensures forall i, j | 0 <= i < j < |ChromaticScale| :: ChromaticScale[i].name != ChromaticScale[j].name
  {
  }

  /** Five instruments, each offset a pitch class; the concrete offsets. */
  lemma InstrumentOffsets()
    ensures |Instruments| == 5
    ensures forall i | 0 <= i < |Instruments| :: 0 <= Instruments[i].offset < 12
    ensures Instruments[0].offset == 0 && Instruments[1].offset == 9
    ensures Instruments[2].offset == 2 && Instruments[3].offset == 2 && Instruments[4].offset == 7
  {
  }

  /** Where a key's entry sits in the coordinate table: every key has one. */
  function CoordinateIndex(k: KeyName): (i: nat)
    ensures i < |KeyCoordinates| && KeyCoordinates[i].0 == k
  {
    match k
    case Octave => 0
    case FrontF => 1
    case L1 => 2
    case Bis => 3
    case L2 => 4
    case L3 => 5
    case PalmF => 6
    case PalmEb => 7
    case PalmD => 8
    case LPinkyGsharp => 9
    case LPinkyLowCsharp => 10
    case LPinkyLowB => 11
    case LPinkyLowBb => 12
    case R1 => 13
    case R2 => 14
    case R3 => 15
    case SideHighE => 16
    case SideC => 17
    case SideBb => 18
    case SideFsharp => 19
    case HighFsharp => 20
    case RPinkyEb => 21
    case RPinkyLowC => 22
  }

  /** The key column of a coordinate table, in entry order. */
  function TableKeys(table: seq<(KeyName, SchematicKey)>): (keys: seq<KeyName>)
    ensures |keys| == |table| && forall i | 0 <= i < |table| :: keys[i] == table[i].0
  {
    seq(|table|, i requires 0 <= i < |table| => table[i].0)
  }

  /** One entry per key: 23 entries, no key twice, none missing. */
  lemma KeyCoordinatesComplete()
    ensures |KeyCoordinates| == |AllKeyNames|
    ensures NoDuplicates(TableKeys(KeyCoordinates))
    ensures forall k: KeyName :: k in TableKeys(KeyCoordinates)
  {
    var keys := TableKeys(KeyCoordinates);
    forall k: KeyName ensures k in keys {
      var i := CoordinateIndex(k);
      assert keys[i] == k;
    }
  }

  /** Every radius exceeds 4, so the inner ring drawn inside an open key has a
      positive radius. */
  lemma KeyRadiiExceedRing()
    ensures forall i | 0 <= i < |KeyCoordinates| :: KeyCoordinates[i].1.r > 4
  {
  }
}
