/** Transposition between instruments and the lookup of the fingering to show for a
    transposed pitch class (App.tsx). The index arithmetic follows JavaScript: `%`
    truncates toward zero, and a negative remainder is then lifted by 12. */
module Transposition {
  import opened Types
  import Pitch
  import Constants
  import Catalogue

  /** JavaScript's quotient behind `a % 12`: the mathematical quotient rounded toward
      zero. */
  function TruncDiv12(a: int): int {
    if a >= 0 then a / 12 else -((-a) / 12)
  }

  /** JavaScript's `a % 12`: the remainder has the sign of the dividend and a magnitude
      below 12, and differs from a by a multiple of 12. */
  function JsRem12(a: int): (r: int)
    ensures a >= 0 ==> 0 <= r < 12
    ensures a < 0 ==> -12 < r <= 0
    ensures (a - r) % 12 == 0
  {
    a - 12 * TruncDiv12(a)
  }

  /** Transposition as intended: the played pitch class moved by the difference of the
      two instruments' offsets, reduced into a pitch class. */
  function Transpose(played: int, sourceOffset: int, targetOffset: int): (r: int)
    ensures 0 <= r < 12
  {
    (played + (targetOffset - sourceOffset)) % 12
  }

  /** A value in [0, 12) that differs from a by a multiple of 12 is a's Euclidean
      remainder. */
  lemma RemainderUnique(a: int, f: int)
    requires 0 <= f < 12 && (a - f) % 12 == 0
    ensures f == a % 12
  {
    var q := (a - f) / 12;
    assert a == 12 * q + f;
    assert a == 12 * (a / 12) + a % 12;
  }

  /** The source's reduction (truncating `%`, then +12 when negative) agrees with the
      Euclidean remainder for every sum, negative ones included. */
  lemma LiftedRemainderIsEuclidean(a: int)
    ensures var r := JsRem12(a); (if r < 0 then r + 12 else r) == a % 12
  {
    var r := JsRem12(a);
    var f := if r < 0 then r + 12 else r;
    assert (a - f) % 12 == 0 by {
      if r < 0 {
        assert a - f == (a - r) - 12;
      }
    }
    RemainderUnique(a, f);
  }

  /** Reducing before adding a shift gives the same pitch class as reducing after. */
  lemma ModAddLeft(x: int, y: int)
    ensures (x % 12 + y) % 12 == (x + y) % 12
  {
    var f := (x + y) % 12;
    assert (x % 12 + y - f) % 12 == 0 by {
      assert x % 12 + y - f == (x + y - f) - 12 * (x / 12);
      assert (x + y - f) == 12 * ((x + y) / 12);
    }
    RemainderUnique(x % 12 + y, f);
  }

  /** Transposing between two instruments with the same offset leaves a pitch class
      unchanged. */
  lemma TransposeIdentity(played: int, offset: int)
    requires 0 <= played < 12
    ensures Transpose(played, offset, offset) == played
  {
  }

  /** Transposing from A to B and back from B to A returns the pitch class played. */
  lemma TransposeInverse(played: int, a: int, b: int)
    requires 0 <= played < 12
    ensures Transpose(Transpose(played, a, b), b, a) == played
  {
    ModAddLeft(played + (b - a), a - b);
  }

  /** Transposing from A to B and then from B to C is transposing from A to C. */
  lemma TransposeCompose(played: int, a: int, b: int, c: int)
    ensures Transpose(Transpose(played, a, b), b, c) == Transpose(played, a, c)
  {
    ModAddLeft(played + (b - a), c - b);
  }

  /** The defaults of the transposition panel: concert Do on the piano reads as Ré on a
      tenor saxophone, and as La on an alto saxophone. */
  lemma DefaultTranspositions()
    ensures Transpose(0, Constants.Instruments[0].offset, Constants.Instruments[2].offset) == 2
    ensures Transpose(0, Constants.Instruments[0].offset, Constants.Instruments[1].offset) == 9
  {
  }

  /** The note whose fingering is shown for each pitch class; undefined outside 0..11. */
  function NoteIdMap(index: int): (r: Option<string>)
    ensures r.Some? <==> 0 <= index < 12
  {
    if index == 0 then Some("mid_c")
    else if index == 1 then Some("mid_c_sharp")
    else if index == 2 then Some("high_d")
    else if index == 3 then Some("high_eb")
    else if index == 4 then Some("high_e")
    else if index == 5 then Some("high_f")
    else if index == 6 then Some("high_f_sharp")
    else if index == 7 then Some("low_g")
    else if index == 8 then Some("low_g_sharp")
    else if index == 9 then Some("mid_a")
    else if index == 10 then Some("mid_bb")
    else if index == 11 then Some("mid_b")
    else None
  }

  /** `Array.prototype.find` with an id test: the first note carrying `id`, if any. */
  function FindById(notes: seq<NoteDefinition>, id: string): (r: Option<NoteDefinition>)
    ensures r.Some? ==> r.value.id == id
    ensures r.Some? ==>
      exists k | 0 <= k < |notes| :: notes[k] == r.value && forall j | 0 <= j < k :: notes[j].id != id
    ensures r.None? ==> forall k | 0 <= k < |notes| :: notes[k].id != id
  {
    if |notes| == 0 then None
    else if notes[0].id == id then Some(notes[0])
    else
      var r := FindById(notes[1..], id);
      if r.Some? then
        var k :| 0 <= k < |notes[1..]| && notes[1..][k] == r.value && forall j | 0 <= j < k :: notes[1..][j].id != id;
        assert notes[k + 1] == r.value;
        assert forall j | 0 <= j < k + 1 :: notes[j].id != id by {
          forall j | 0 <= j < k + 1 ensures notes[j].id != id {
            if j > 0 { assert notes[j] == notes[1..][j - 1]; }
          }
        }
        r
      else r
  }

  /** When ids are unique, looking a note up by its own id finds that very note. */
  lemma {:induction false} FindByIdLocates(notes: seq<NoteDefinition>, k: nat)
    requires k < |notes| && Catalogue.UniqueIds(notes)
    ensures FindById(notes, notes[k].id) == Some(notes[k])
  {
    if k > 0 {
      assert notes[0].id != notes[k].id;
      assert notes[1..][k - 1] == notes[k];
      FindByIdLocates(notes[1..], k - 1);
    }
  }

  /** The fingering shown for a transposed pitch class: the mapped note, or the first
      note of the catalogue when the lookup finds nothing. */
  function TransposedNoteDef(index: int): (n: NoteDefinition)
    ensures n in Catalogue.Notes
  {
    var found := match NoteIdMap(index)
      case Some(id) => FindById(Catalogue.Notes, id)
      case None => None;
    match found
    case Some(note) => note
    case None => Catalogue.Notes[0]
  }

  /** Catalogue position of the note mapped to each pitch class. */
  const MappedPositions: seq<nat> := [14, 15, 16, 17, 18, 19, 20, 9, 10, 11, 12, 13]

  /** The mapped id of pitch class i is that of the catalogue note at MappedPositions[i];
      that note sounds 46 + MappedPositions[i] semitones above C0, a note of pitch
      class i. */
  lemma MappedIdsAtPositions()
    ensures |Catalogue.Notes| == 33 && |MappedPositions| == 12
    ensures forall i | 0 <= i < 12 ::
      MappedPositions[i] < 33 && NoteIdMap(i) == Some(Catalogue.Notes[MappedPositions[i]].id)
  {
  }

  lemma MappedPitchClasses()
    ensures |MappedPositions| == 12 && forall i | 0 <= i < 12 :: (46 + MappedPositions[i]) % 12 == i
  {
  }

  /** For every pitch class the lookup succeeds, so the fallback to the first note is
      never taken; the note found has exactly that pitch class and a first variant to
      draw. */
  lemma TransposedNoteFound(index: int)
    requires 0 <= index < 12
    ensures FindById(Catalogue.Notes, NoteIdMap(index).value).Some?
    ensures Pitch.ScientificPitchClass(TransposedNoteDef(index).scientificName) == Some(index)
    ensures |TransposedNoteDef(index).variants| > 0
  {
    MappedIdsAtPositions();
    MappedPitchClasses();
    var k := MappedPositions[index];
    Catalogue.NoteIdsDistinct();
    FindByIdLocates(Catalogue.Notes, k);
    Catalogue.NotesChecked();
    assert Catalogue.EntryChecked(Catalogue.Notes[k], k);
  }
}
