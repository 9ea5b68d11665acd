/** The key schematic (components/Saxophone3D.tsx): for every entry of the coordinate
    table, one drawn key whose look depends only on whether the key is pressed in the
    fingering being shown. Guide lines, section captions and the glow filter are fixed
    decoration and are not modelled. */
module Saxophone {
  import opened Types
  import Constants

  /** A key is drawn engaged exactly when the fingering lists it. */
  predicate IsKeyActive(activeKeys: seq<KeyName>, key: KeyName) {
    key in activeKeys
  }

  /** Everything the schematic draws for one key: its circle (position, radius, fill,
      outline), the inner ring of an open key, and its caption. */
  datatype DrawnKey = DrawnKey(
    name: KeyName,
    x: int, y: int, r: int,
    caption: string,
    engaged: bool,
    fill: string,
    stroke: string,
    strokeWidth: real,
    innerRingRadius: Option<int>,
    fontSize: string,
    captionFill: string)

  /** Caption size tier by radius. */
  function FontSize(r: int): string {
    if r < 10 then "8" else if r < 15 then "10" else "12"
  }

  /** The tier as a number, for comparing tiers. */
  function FontPoints(size: string): int {
    if size == "8" then 8 else if size == "10" then 10 else 12
  }

  /** Larger keys never get a smaller caption, and the three tiers sit at 10 and 15. */
  lemma FontSizeTiers(r1: int, r2: int)
    requires r1 <= r2
    ensures FontPoints(FontSize(r1)) <= FontPoints(FontSize(r2))
    ensures FontSize(r1) == "8" <==> r1 < 10
    ensures FontSize(r1) == "12" <==> r1 >= 15
  {
  }

  /** One key of the schematic. */
  function DrawKey(activeKeys: seq<KeyName>, name: KeyName, coords: Constants.SchematicKey): DrawnKey {
    var active := IsKeyActive(activeKeys, name);
    DrawnKey(
      name, coords.x, coords.y, coords.r, coords.caption, active,
      if active then "#1e293b" else "#ffffff",
      if active then "#0f172a" else "#94a3b8",
      if active then 0.0 else 1.5,
      if active then None else Some(coords.r - 4),
      FontSize(coords.r),
      if active then "#ffffff" else "#475569")
  }

  /** The schematic: the table's entries in order, each drawn once with its position,
      radius and caption unchanged and engaged exactly when the fingering lists it. */
  function Render(activeKeys: seq<KeyName>, table: seq<(KeyName, Constants.SchematicKey)>): (drawn: seq<DrawnKey>)
    ensures |drawn| == |table|
    ensures forall i | 0 <= i < |table| ::
      && drawn[i].name == table[i].0
      && drawn[i].x == table[i].1.x && drawn[i].y == table[i].1.y && drawn[i].r == table[i].1.r
      && drawn[i].caption == table[i].1.caption
      && (drawn[i].engaged <==> table[i].0 in activeKeys)
  {
    seq(|table|, i requires 0 <= i < |table| => DrawKey(activeKeys, table[i].0, table[i].1))
  }

  /** Only which keys are listed matters, not their order or repetitions. */
  lemma RenderIgnoresOrderAndRepeats(a1: seq<KeyName>, a2: seq<KeyName>, table: seq<(KeyName, Constants.SchematicKey)>)
    requires forall k: KeyName :: k in a1 <==> k in a2
    ensures Render(a1, table) == Render(a2, table)
  {
    var d1, d2 := Render(a1, table), Render(a2, table);
    forall i | 0 <= i < |table| ensures d1[i] == d2[i] {
      assert d1[i] == DrawKey(a1, table[i].0, table[i].1);
      assert d2[i] == DrawKey(a2, table[i].0, table[i].1);
    }
  }

  /** With no key pressed every key is drawn open; with all 23 pressed every key is
      drawn engaged. */
  lemma RenderExtremes(table: seq<(KeyName, Constants.SchematicKey)>)
    ensures forall i | 0 <= i < |table| :: !Render([], table)[i].engaged
    ensures forall i | 0 <= i < |table| :: Render(AllKeyNames, table)[i].engaged
  {
    AllKeyNamesComplete();
  }

  /** The look of a drawn key depends on the engaged flag alone: two keys with the same
      flag share fill, outline, outline width and caption colour, and an engaged key
      never looks like an open one. */
  lemma StyleDependsOnlyOnEngaged(
    a1: seq<KeyName>, n1: KeyName, c1: Constants.SchematicKey,
    a2: seq<KeyName>, n2: KeyName, c2: Constants.SchematicKey)
    ensures var d1, d2 := DrawKey(a1, n1, c1), DrawKey(a2, n2, c2);
      (d1.engaged == d2.engaged <==>
        d1.fill == d2.fill && d1.stroke == d2.stroke && d1.strokeWidth == d2.strokeWidth && d1.captionFill == d2.captionFill)
  {
  }

  /** An inner ring is drawn exactly for open keys, four units inside the circle, and
      it has a positive radius for every key of the schematic. */
  lemma InnerRingOnOpenKeys(activeKeys: seq<KeyName>)
    ensures var drawn := Render(activeKeys, Constants.KeyCoordinates);
      forall i | 0 <= i < |drawn| ::
        && (drawn[i].innerRingRadius.Some? <==> !drawn[i].engaged)
        && (drawn[i].innerRingRadius.Some? ==> 0 < drawn[i].innerRingRadius.value == drawn[i].r - 4)
  {
    Constants.KeyRadiiExceedRing();
  }

  /** The names of the drawn keys, in drawing order. */
  function DrawnNames(drawn: seq<DrawnKey>): (names: seq<KeyName>)
    ensures |names| == |drawn| && forall i | 0 <= i < |drawn| :: names[i] == drawn[i].name
  {
    seq(|drawn|, i requires 0 <= i < |drawn| => drawn[i].name)
  }

  /** The schematic draws each of the 23 keys exactly once, whatever is pressed. */
  lemma EveryKeyDrawnOnce(activeKeys: seq<KeyName>)
    ensures var names := DrawnNames(Render(activeKeys, Constants.KeyCoordinates));
      |names| == 23 && NoDuplicates(names) && forall k: KeyName :: k in names
  {
    Constants.KeyCoordinatesComplete();
    AllKeyNamesComplete();
    var names := DrawnNames(Render(activeKeys, Constants.KeyCoordinates));
    assert names == Constants.TableKeys(Constants.KeyCoordinates);
  }

  /** No key of the schematic is small enough for the smallest caption size: radii
      10 to 14 get "10", larger ones "12". */
  lemma SchematicFontSizes(activeKeys: seq<KeyName>)
    ensures var drawn := Render(activeKeys, Constants.KeyCoordinates);
      forall i | 0 <= i < |drawn| :: drawn[i].fontSize != "8"
  {
    Constants.KeyRadiiExceedRing();
    var drawn := Render(activeKeys, Constants.KeyCoordinates);
    forall i | 0 <= i < |drawn| ensures drawn[i].fontSize != "8" {
      assert drawn[i] == DrawKey(activeKeys, Constants.KeyCoordinates[i].0, Constants.KeyCoordinates[i].1);
    }
  }
}
