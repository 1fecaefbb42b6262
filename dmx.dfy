/**
 The data the occupancy mapper works on: fixture records as loaded from the
 VRSL fixture file and the extras file, one occupancy slot per channel, the
 VRSL domain constants, and the selection of the fixtures of one universe.
 */
module Dmx {

  /** The VRSL limits, kept as the exclusive upper bounds the mapper's
      `range(1, …)` loops use: universes 1..9, channels 1..512. */
  const MaxDmxUniverses: int := 9 + 1
  const MaxDmxChannels: int := 512 + 1

  /** One fixture record. `channel` is its start (primary) address and the
      length of `channelNames` its footprint. The loaders do not check either
      value, so both are arbitrary here. */
  datatype Fixture = Fixture(universe: int, channel: int, channelNames: seq<string>)

  /** One occupancy table entry, `{'used': …, 'main_channel': …}`. */
  datatype Slot = Slot(used: bool, main: bool)

  /** The pre-filled entry; its `main` flag carries no meaning. */
  const Unused: Slot := Slot(false, true)
  /** The entry written at a fixture's start channel. */
  const Primary: Slot := Slot(true, true)
  /** The entry written at the other channels of a fixture's footprint. */
  const Secondary: Slot := Slot(true, false)

  predicate IsUniverse(u: int) {
    1 <= u < MaxDmxUniverses
  }

  predicate IsChannel(c: int) {
    1 <= c < MaxDmxChannels
  }

  /** The fixtures of `fs` whose universe is `u`, in list order: what the
      mapper appends to `fixtures_in_universe` while it walks `fs`. */
  function InUniverse(fs: seq<Fixture>, u: int): seq<Fixture>
  {
    if fs == [] then []
    else InUniverse(fs[..|fs| - 1], u) + (if fs[|fs| - 1].universe == u then [fs[|fs| - 1]] else [])
  }

  /** Selecting from a concatenation selects from each part. */
  lemma {:induction false} InUniverseAppend(a: seq<Fixture>, b: seq<Fixture>, u: int)
    ensures InUniverse(a + b, u) == InUniverse(a, u) + InUniverse(b, u)
  {
    if b != [] {
      var b' := b[..|b| - 1];
      assert (a + b)[..|a + b| - 1] == a + b';
      InUniverseAppend(a, b', u);
    } else {
      assert a + b == a;
    }
  }

  /** The selection holds exactly the records of `fs` whose universe is `u`,
      each as often as `fs` holds it. */
  lemma {:induction false} InUniverseCounts(fs: seq<Fixture>, u: int, x: Fixture)
    ensures multiset(InUniverse(fs, u))[x] == if x.universe == u then multiset(fs)[x] else 0
  {
    if fs != [] {
      var p := fs[..|fs| - 1];
      assert fs == p + [fs[|fs| - 1]];
      InUniverseCounts(p, u, x);
    }
  }

  /** Membership form of InUniverseCounts. */
  lemma InUniverseMembers(fs: seq<Fixture>, u: int, x: Fixture)
    ensures x in InUniverse(fs, u) <==> x in fs && x.universe == u
  {
    InUniverseCounts(fs, u, x);
    assert x in InUniverse(fs, u) <==> multiset(InUniverse(fs, u))[x] > 0;
    assert x in fs <==> multiset(fs)[x] > 0;
  }
}
