/**
 Three small patch lists worked through the mapper's specification: two
 fixtures side by side, an extras fixture overlapping a VRSL fixture, and a
 fixture patched to a universe the mapper does not fill.
 */
module Scenarios {
  import opened Dmx
  import opened Occupancy
  import opened ChannelSort

  /** Table `t` holds slot `s` at channel `c`. */
  ghost predicate Holds(t: map<int, Slot>, c: int, s: Slot) {
    c in t && t[c] == s
  }

  /** A one-channel VRSL dimmer at 1 and a three-channel extras fixture at 5,
      both in universe 1. */
  lemma SideBySide()
    ensures var dim := Fixture(1, 1, ["dim"]);
            var rgb := Fixture(1, 5, ["r", "g", "b"]);
            && SortByChannel(InUniverse([dim] + [rgb], 1)) == [dim, rgb]
            && Holds(Table([dim] + [rgb], 1), 1, Primary)
            && (forall c :: 2 <= c <= 4 ==> Holds(Table([dim] + [rgb], 1), c, Unused))
            && Holds(Table([dim] + [rgb], 1), 5, Primary)
            && Holds(Table([dim] + [rgb], 1), 6, Secondary)
            && Holds(Table([dim] + [rgb], 1), 7, Secondary)
            && (forall c :: 8 <= c < MaxDmxChannels ==> Holds(Table([dim] + [rgb], 1), c, Unused))
  {
    var dim := Fixture(1, 1, ["dim"]);
    var rgb := Fixture(1, 5, ["r", "g", "b"]);
    var fs := [dim] + [rgb];
    assert [dim][..0] == [];
    assert InUniverse([dim], 1) == [dim];
    assert fs[..1] == [dim];
    assert InUniverse(fs, 1) == InUniverse([dim], 1) + [rgb];
    assert [dim, rgb][1..] == [rgb] && [rgb][1..] == [];
    assert SortByChannel([rgb]) == [rgb];
    assert SortByChannel([dim, rgb]) == Insert(dim, [rgb]) == [dim, rgb];
    TableLastWriter(fs, 1, 1, 0);
    TableLastWriter(fs, 1, 5, 1);
    TableLastWriter(fs, 1, 6, 1);
    TableLastWriter(fs, 1, 7, 1);
    forall c | 2 <= c <= 4 || 8 <= c < MaxDmxChannels ensures Holds(Table(fs, 1), c, Unused) {
      TableDense(fs, 1, c);
    }
  }

  /** A VRSL fixture on 10..12 and an extras fixture on 11, universe 2: the
      extras fixture takes channel 11 as its primary, the VRSL fixture keeps
      10 as primary and 12 as secondary. */
  lemma Overlap()
    ensures var a := Fixture(2, 10, ["a", "b", "c"]);
            var x := Fixture(2, 11, ["x"]);
            && Holds(Table([a] + [x], 2), 10, Primary)
            && Holds(Table([a] + [x], 2), 11, Primary)
            && Holds(Table([a] + [x], 2), 12, Secondary)
  {
    var a := Fixture(2, 10, ["a", "b", "c"]);
    var x := Fixture(2, 11, ["x"]);
    var fs := [a] + [x];
    TableLastWriter(fs, 2, 10, 0);
    TableLastWriter(fs, 2, 11, 1);
    TableLastWriter(fs, 2, 12, 0);
  }

  /** A fixture patched to universe 15 is in no universe's list and leaves
      every table as pre-filled. */
  lemma ForeignUniverse(u: int)
    requires IsUniverse(u)
    ensures var f := Fixture(15, 1, ["dim"]);
            && InUniverse([f], u) == []
            && Table([f], u) == Table([], u)
  {
    var f := Fixture(15, 1, ["dim"]);
    ForeignFixtureIgnored([], f, [], u);
    assert [] + [f] + [] == [f];
  }
}
