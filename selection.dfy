/** The state of the application screen (App.tsx): which tab is open, the note and
    fingering variant shown, and the transposition panel's choices; the handlers that
    change it; and the values the screen derives from it on every render. */
module Selection {
  import opened Types
  import Pitch
  import Constants
  import Catalogue
  import Transposition

  /** The two tabs of the screen. */
  datatype Tab = Fingering | Transpose

  /** The text shown under a fingering: the variant's own description when it has a
      non-empty one, otherwise the note's (JavaScript's `||` treats "" as absent). */
  function ShownDescription(v: NoteVariant, n: NoteDefinition): (d: string)
    ensures v.description.Some? && v.description.value != "" ==> d == v.description.value
    ensures v.description.None? || v.description.value == "" ==> d == n.description
  {
    match v.description
    case Some(text) => if text != "" then text else n.description
    case None => n.description
  }

  /** The keys drawn on the transposition tab for a pitch class: the first variant of
      the note the lookup chose. */
  function TransposedKeys(index: int): (keys: seq<KeyName>)
    requires 0 <= index < 12
    ensures |Transposition.TransposedNoteDef(index).variants| > 0
    ensures keys == Transposition.TransposedNoteDef(index).variants[0].keys
  {
    Transposition.TransposedNoteFound(index);
    Transposition.TransposedNoteDef(index).variants[0].keys
  }

  /** The name shown above the transposed fingering: the chromatic-scale entry of the
      pitch class. The scale's names are distinct, so the name shown tells the pitch
      class. */
  function TransposedNoteName(index: int): (name: string)
    requires 0 <= index < 12
    ensures forall k | 0 <= k < |Constants.ChromaticScale| && Constants.ChromaticScale[k].name == name :: k == index
  {
    Constants.ChromaticScaleNamesDistinct();
    Constants.ChromaticScale[index].name
  }

  /** The name shown and the fingering drawn on the transposition tab agree: the name
      is that of the scale entry whose identifiers all read as the pitch class of the
      note whose fingering is drawn. */
  lemma TransposedNameMatchesFingering(index: int)
    requires 0 <= index < 12
    ensures exists k | 0 <= k < |Constants.ChromaticScale| ::
      && Constants.ChromaticScale[k].name == TransposedNoteName(index)
      && |Constants.ChromaticScale[k].ids| > 0
      && forall m | 0 <= m < |Constants.ChromaticScale[k].ids| ::
        Pitch.PitchIdClass(Constants.ChromaticScale[k].ids[m])
          == Pitch.ScientificPitchClass(Transposition.TransposedNoteDef(index).scientificName)
  {
    Constants.ChromaticScaleAscends();
    Transposition.TransposedNoteFound(index);
    assert Constants.ChromaticScale[index].name == TransposedNoteName(index);
  }

  class AppState {
    var activeTab: Tab
    var selectedNote: NoteDefinition
    var selectedVariantIndex: int
    var sourceInstIndex: int
    var targetInstIndex: int
    var sourceNoteIndex: int

    /** Everything but the variant index is in range: the note comes from the
        catalogue, the instruments from the instrument list, the played pitch from the
        chromatic scale. */
    predicate ChoicesValid()
      reads this
    {
      && selectedNote in Catalogue.Notes
      && 0 <= sourceInstIndex < |Constants.Instruments|
      && 0 <= targetInstIndex < |Constants.Instruments|
      && 0 <= sourceNoteIndex < 12
    }

    /** The invariant the screen needs whenever it reads the current variant: the
        variant index points into the selected note's variants. */
    predicate Valid()
      reads this
    {
      ChoicesValid() && 0 <= selectedVariantIndex < |selectedNote.variants|
    }

    /** The initial screen: the fingering tab on high_d (catalogue position 16),
        variant 0; piano to tenor saxophone, concert Do played. */
    constructor ()
      ensures Valid()
      ensures activeTab == Fingering && selectedNote == Catalogue.Notes[16] && selectedNote.id == "high_d"
      ensures selectedVariantIndex == 0
      ensures sourceInstIndex == 0 && targetInstIndex == 2 && sourceNoteIndex == 0
    {
      activeTab := Fingering;
      selectedNote := Catalogue.Notes[16];
      selectedVariantIndex := 0;
      sourceInstIndex := 0;
      targetInstIndex := 2;
      sourceNoteIndex := 0;
      new;
      Catalogue.MemberWellFormed(selectedNote);
    }

    method SetActiveTab(tab: Tab)
      requires Valid()
      modifies this
      ensures Valid() && activeTab == tab
      ensures selectedNote == old(selectedNote) && selectedVariantIndex == old(selectedVariantIndex)
      ensures sourceInstIndex == old(sourceInstIndex) && targetInstIndex == old(targetInstIndex)
      ensures sourceNoteIndex == old(sourceNoteIndex)
    {
      activeTab := tab;
    }

    /** Picking a note in the list shows it from its first variant on: the index is
        reset together with the note, so the invariant holds at once. Picking the note
        already shown changes nothing, as in the source, where neither the state nor
        the reset effect's dependency changes. */
    method HandleNoteSelect(note: NoteDefinition)
      requires Valid() && note in Catalogue.Notes
      modifies this
      ensures Valid() && selectedNote == note
      ensures selectedVariantIndex == if note == old(selectedNote) then old(selectedVariantIndex) else 0
      ensures activeTab == old(activeTab)
      ensures sourceInstIndex == old(sourceInstIndex) && targetInstIndex == old(targetInstIndex)
      ensures sourceNoteIndex == old(sourceNoteIndex)
    {
      Catalogue.MemberWellFormed(note);
      if note != selectedNote {
        selectedNote := note;
        selectedVariantIndex := 0;
      }
    }

    /** The handler as written: only the note changes; the variant index keeps its old
        value until the reset effect runs after the next render. */
    method HandleNoteSelectAsWritten(note: NoteDefinition)
      requires Valid() && note in Catalogue.Notes
      modifies this
      ensures ChoicesValid() && selectedNote == note
      ensures selectedVariantIndex == old(selectedVariantIndex)
      ensures activeTab == old(activeTab)
      ensures sourceInstIndex == old(sourceInstIndex) && targetInstIndex == old(targetInstIndex)
      ensures sourceNoteIndex == old(sourceNoteIndex)
    {
      selectedNote := note;
    }

    /** The effect that runs after a render in which the note changed: it restores the
        invariant by going back to the first variant. */
    method ResetVariantEffect()
      requires ChoicesValid()
      modifies this
      ensures Valid() && selectedVariantIndex == 0
      ensures selectedNote == old(selectedNote) && activeTab == old(activeTab)
      ensures sourceInstIndex == old(sourceInstIndex) && targetInstIndex == old(targetInstIndex)
      ensures sourceNoteIndex == old(sourceNoteIndex)
    {
      Catalogue.MemberWellFormed(selectedNote);
      selectedVariantIndex := 0;
    }

    /** A variant button: the buttons offer exactly the indices of the note's variants. */
    method SelectVariant(index: int)
      requires Valid() && 0 <= index < |selectedNote.variants|
      modifies this
      ensures Valid() && selectedVariantIndex == index
      ensures selectedNote == old(selectedNote) && activeTab == old(activeTab)
      ensures sourceInstIndex == old(sourceInstIndex) && targetInstIndex == old(targetInstIndex)
      ensures sourceNoteIndex == old(sourceNoteIndex)
    {
      selectedVariantIndex := index;
    }

    /** The source instrument menu offers the indices of the instrument list. */
    method SetSourceInstIndex(index: int)
      requires Valid() && 0 <= index < |Constants.Instruments|
      modifies this
      ensures Valid() && sourceInstIndex == index
      ensures selectedNote == old(selectedNote) && selectedVariantIndex == old(selectedVariantIndex)
      ensures activeTab == old(activeTab) && targetInstIndex == old(targetInstIndex)
      ensures sourceNoteIndex == old(sourceNoteIndex)
    {
      sourceInstIndex := index;
    }

    /** The target instrument menu offers the indices of the instrument list. */
    method SetTargetInstIndex(index: int)
      requires Valid() && 0 <= index < |Constants.Instruments|
      modifies this
      ensures Valid() && targetInstIndex == index
      ensures selectedNote == old(selectedNote) && selectedVariantIndex == old(selectedVariantIndex)
      ensures activeTab == old(activeTab) && sourceInstIndex == old(sourceInstIndex)
      ensures sourceNoteIndex == old(sourceNoteIndex)
    {
      targetInstIndex := index;
    }

    /** The played-note buttons offer the twelve pitch classes of the chromatic scale. */
    method SetSourceNoteIndex(index: int)
      requires Valid() && 0 <= index < 12
      modifies this
      ensures Valid() && sourceNoteIndex == index
      ensures selectedNote == old(selectedNote) && selectedVariantIndex == old(selectedVariantIndex)
      ensures activeTab == old(activeTab)
      ensures sourceInstIndex == old(sourceInstIndex) && targetInstIndex == old(targetInstIndex)
    {
      sourceNoteIndex := index;
    }

    /** The fingering variant the screen shows. */
    function CurrentVariant(): (v: NoteVariant)
      reads this
      requires Valid()
      ensures v in selectedNote.variants
    {
      selectedNote.variants[selectedVariantIndex]
    }

    /** The pitch class to finger on the target instrument, computed as the source does
        (truncating `%`, then +12 when negative); it is the intended transposition. */
    method TransposedNoteIndex() returns (result: int)
      requires Valid()
      ensures 0 <= result < 12
      ensures result == Transposition.Transpose(sourceNoteIndex,
        Constants.Instruments[sourceInstIndex].offset, Constants.Instruments[targetInstIndex].offset)
    {
      var sourceOffset := Constants.Instruments[sourceInstIndex].offset;
      var targetOffset := Constants.Instruments[targetInstIndex].offset;
      var diff := targetOffset - sourceOffset;
      result := Transposition.JsRem12(sourceNoteIndex + diff);
      if result < 0 {
        result := result + 12;
      }
      Transposition.LiftedRemainderIsEuclidean(sourceNoteIndex + diff);
    }

    /** The keys handed to the renderer: the current variant's on the fingering tab;
        on the transposition tab, the first fingering of a catalogue note of the
        transposed pitch class. Either way a fingering of the catalogue is drawn. */
    function DisplayedKeys(): (keys: seq<KeyName>)
      reads this
      requires Valid()
      ensures exists n, v | n in Catalogue.Notes && 0 <= v < |n.variants| :: keys == n.variants[v].keys
      ensures activeTab == Fingering ==> keys == CurrentVariant().keys
      ensures activeTab == Transpose ==>
        exists n | n in Catalogue.Notes ::
          && Pitch.ScientificPitchClass(n.scientificName) == Some(Transposition.Transpose(sourceNoteIndex,
            Constants.Instruments[sourceInstIndex].offset, Constants.Instruments[targetInstIndex].offset))
          && |n.variants| > 0
          && keys == n.variants[0].keys
    {
      if activeTab == Fingering then
        assert selectedNote.variants[selectedVariantIndex].keys == CurrentVariant().keys;
        CurrentVariant().keys
      else
        var index := Transposition.Transpose(sourceNoteIndex,
          Constants.Instruments[sourceInstIndex].offset, Constants.Instruments[targetInstIndex].offset);
        Transposition.TransposedNoteFound(index);
        var n := Transposition.TransposedNoteDef(index);
        assert n.variants[0].keys == TransposedKeys(index);
        TransposedKeys(index)
    }
  }

  /** The render in which the as-written handler lets a stale index through: with mid_bb
      shown at its third variant, picking mid_b (one variant) keeps index 2, which is
      past the end of mid_b's variants, so the current variant is undefined and reading
      its description fails. */
  method StaleIndexScenario() returns (s: AppState)
    ensures s.ChoicesValid() && !s.Valid()
    ensures s.selectedNote == Catalogue.MidBNote && s.selectedVariantIndex == 2
    ensures |s.selectedNote.variants| <= s.selectedVariantIndex
  {
    StaleVariantIndex();
    s := new AppState();
    s.HandleNoteSelect(Catalogue.MidBbNote);
    s.SelectVariant(2);
    s.HandleNoteSelectAsWritten(Catalogue.MidBNote);
  }

  /** The data behind the stale index: mid_bb has a third variant, mid_b has not. */
  lemma StaleVariantIndex()
    ensures Catalogue.MidBbNote in Catalogue.Notes && Catalogue.MidBNote in Catalogue.Notes
    ensures 2 < |Catalogue.MidBbNote.variants|
    ensures 2 >= |Catalogue.MidBNote.variants|
  {
    assert Catalogue.Notes[12] == Catalogue.MidBbNote;
    assert Catalogue.Notes[13] == Catalogue.MidBNote;
  }

  /** The notes of a group, in catalogue order: the bucket the grouping builds. */
  function Bucket(notes: seq<NoteDefinition>, g: Group): seq<NoteDefinition>
  {
    if |notes| == 0 then []
    else Bucket(notes[..|notes| - 1], g) + (if notes[|notes| - 1].group == g then [notes[|notes| - 1]] else [])
  }

  /** The grouping of the note list: one bucket per group that occurs, each note
      appended to the bucket of its own group in list order. */
  method GroupNotes(notes: seq<NoteDefinition>) returns (acc: map<Group, seq<NoteDefinition>>)
    ensures forall g: Group :: g in acc <==> Bucket(notes, g) != []
    ensures forall g | g in acc :: acc[g] == Bucket(notes, g)
  {
    acc := map[];
    for i := 0 to |notes|
      invariant forall g: Group :: g in acc <==> Bucket(notes[..i], g) != []
      invariant forall g | g in acc :: acc[g] == Bucket(notes[..i], g)
    {
      var note := notes[i];
      assert notes[..i + 1][..i] == notes[..i];
      if note.group !in acc {
        acc := acc[note.group := []];
      }
      acc := acc[note.group := acc[note.group] + [note]];
    }
    assert notes[..|notes|] == notes;
  }

  /** A note lands in a bucket exactly when it is in the list and has that group. */
  lemma {:induction false} BucketMembers(notes: seq<NoteDefinition>, g: Group, n: NoteDefinition)
    ensures n in Bucket(notes, g) <==> n in notes && n.group == g
  {
    if |notes| > 0 {
      var init := notes[..|notes| - 1];
      BucketMembers(init, g, n);
      assert notes == init + [notes[|notes| - 1]];
    }
  }

  /** The four buckets together hold as many notes as the list: no note is dropped or
      counted twice. */
  lemma {:induction false} BucketSizes(notes: seq<NoteDefinition>)
    ensures |Bucket(notes, Grave)| + |Bucket(notes, Medium)| + |Bucket(notes, Aigu)| + |Bucket(notes, SurAigu)| == |notes|
  {
    if |notes| > 0 {
      BucketSizes(notes[..|notes| - 1]);
    }
  }

  /** The side list: the buckets in the order of the groups. */
  function Listing(notes: seq<NoteDefinition>): seq<NoteDefinition> {
    Bucket(notes, Grave) + Bucket(notes, Medium) + Bucket(notes, Aigu) + Bucket(notes, SurAigu)
  }

  /** A list in which no note has group g has an empty bucket for g. */
  lemma {:induction false} BucketOfAbsentGroup(notes: seq<NoteDefinition>, g: Group)
    requires forall k | 0 <= k < |notes| :: notes[k].group != g
    ensures Bucket(notes, g) == []
  {
    if |notes| > 0 {
      BucketOfAbsentGroup(notes[..|notes| - 1], g);
    }
  }

  /** When a list is ordered by group, listing it bucket by bucket gives back the list. */
  lemma {:induction false} ListingOfOrderedList(notes: seq<NoteDefinition>)
    requires forall i, j | 0 <= i <= j < |notes| :: GroupRank(notes[i].group) <= GroupRank(notes[j].group)
    ensures Listing(notes) == notes
  {
    if |notes| > 0 {
      var init := notes[..|notes| - 1];
      var last := notes[|notes| - 1];
      ListingOfOrderedList(init);
      forall g | GroupRank(g) > GroupRank(last.group)
        ensures Bucket(init, g) == []
      {
        BucketOfAbsentGroup(init, g);
      }
      assert notes == init + [last];
    }
  }

  /** The side list shows the whole catalogue in catalogue order, and every group has a
      non-empty bucket. */
  lemma SideListIsCatalogue()
    ensures Listing(Catalogue.Notes) == Catalogue.Notes
    ensures forall g: Group :: Bucket(Catalogue.Notes, g) != []
  {
    Catalogue.GroupsContiguous();
    ListingOfOrderedList(Catalogue.Notes);
    Catalogue.NotesChecked();
    var witnesses := [0, 11, 16, 28];
    forall g: Group ensures Bucket(Catalogue.Notes, g) != [] {
      var i := witnesses[GroupRank(g)];
      assert Catalogue.EntryChecked(Catalogue.Notes[i], i);
      BucketMembers(Catalogue.Notes, g, Catalogue.Notes[i]);
    }
  }
}
