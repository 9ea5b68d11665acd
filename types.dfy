/** The domain vocabulary of the fingering chart: the closed set of physical keys,
    the four register groups, and the note / variant records. */
module Types {

  datatype Option<T> = None | Some(value: T)

  /** The 23 physical keys (and key mechanisms) drawn on the schematic. */
  datatype KeyName =
    // main stack
    | Octave | L1 | L2 | L3 | Bis | R1 | R2 | R3
    // pinky clusters
    | LPinkyGsharp | LPinkyLowB | LPinkyLowBb | LPinkyLowCsharp | RPinkyLowC | RPinkyEb
    // palm keys (left hand)
    | PalmD | PalmEb | PalmF
    // side keys (right hand)
    | SideBb | SideC | SideHighE | SideFsharp
    // top / alternate
    | FrontF | HighFsharp

  /** Every key, in declaration order. */
  const AllKeyNames: seq<KeyName> :=
    [Octave, L1, L2, L3, Bis, R1, R2, R3,
     LPinkyGsharp, LPinkyLowB, LPinkyLowBb, LPinkyLowCsharp, RPinkyLowC, RPinkyEb,
     PalmD, PalmEb, PalmF,
     SideBb, SideC, SideHighE, SideFsharp,
     FrontF, HighFsharp]

  predicate NoDuplicates<T(==)>(s: seq<T>) {
    forall i, j | 0 <= i < j < |s| :: s[i] != s[j]
  }

  /** The position of a key in AllKeyNames. */
  function KeyIndex(k: KeyName): (i: nat)
    ensures i < |AllKeyNames| && AllKeyNames[i] == k
  {
    match k
    case Octave => 0
    case L1 => 1
    case L2 => 2
    case L3 => 3
    case Bis => 4
    case R1 => 5
    case R2 => 6
    case R3 => 7
    case LPinkyGsharp => 8
    case LPinkyLowB => 9
    case LPinkyLowBb => 10
    case LPinkyLowCsharp => 11
    case RPinkyLowC => 12
    case RPinkyEb => 13
    case PalmD => 14
    case PalmEb => 15
    case PalmF => 16
    case SideBb => 17
    case SideC => 18
    case SideHighE => 19
    case SideFsharp => 20
    case FrontF => 21
    case HighFsharp => 22
  }

  /** The key set is closed: exactly 23 distinct keys, and every key is listed. */
  lemma AllKeyNamesComplete()
    ensures |AllKeyNames| == 23
    ensures NoDuplicates(AllKeyNames)
    ensures forall k: KeyName :: k in AllKeyNames
  {
    forall k: KeyName ensures k in AllKeyNames {
      var i := KeyIndex(k);
    }
  }

  /** The register a note belongs to: exactly four values. */
  datatype Group = Grave | Medium | Aigu | SurAigu

  /** The label under which a group is listed (and the record key of the grouping). */
  function GroupLabel(g: Group): string {
    match g
    case Grave => "Grave"
    case Medium => "Médium"
    case Aigu => "Aigu"
    case SurAigu => "Sur-aigu"
  }

  /** The listing order of the groups, lowest register first. */
  function GroupRank(g: Group): (rank: nat)
    ensures rank < 4
  {
    match g
    case Grave => 0
    case Medium => 1
    case Aigu => 2
    case SurAigu => 3
  }

  /** The order in which the sidebar lists the groups. */
  const Groups: seq<Group> := [Grave, Medium, Aigu, SurAigu]

  /** Four groups, listed once each; every group has its place in the listing order,
      and the labels tell the groups apart. */
  lemma GroupsClosed(g: Group)
    ensures |Groups| == 4 && NoDuplicates(Groups)
    ensures Groups[GroupRank(g)] == g
    ensures forall h: Group :: GroupLabel(h) == GroupLabel(g) <==> h == g
  {
  }

  /** One alternative fingering (`caption` is the source's `label`, a Dafny keyword).
      `keys` is the complete set of pressed keys (possibly empty); `description` is
      optional. */
  datatype NoteVariant = NoteVariant(caption: string, keys: seq<KeyName>, description: Option<string>)

  datatype NoteDefinition = NoteDefinition(
    id: string,
    name: string,
    scientificName: string,
    group: Group,
    variants: seq<NoteVariant>,
    description: string)
}
