/**
 The occupancy table of one universe, as a specification: the pre-filled
 table, the marks one fixture writes into it, the fold of those writes over
 a list of fixtures, and what the folded table says about each channel
 (dense over 1..512, last writer wins, nothing but the universe's own
 fixtures matters).
 */
module Occupancy {
  import opened Dmx

  /** The channels fixture `f` writes: its start channel, and the
      `|channelNames| - 1` channels after it. The start channel is written
      even when the footprint is empty. */
  predicate Covers(f: Fixture, c: int) {
    c == f.channel || f.channel < c < f.channel + |f.channelNames|
  }

  /** The integers `lo`, …, `hi - 1`: the channels `range(lo, hi)` visits. */
  ghost function Span(lo: int, hi: int): (r: set<int>)
    ensures forall c :: c in r <==> lo <= c < hi
    decreases hi - lo
  {
    if hi <= lo then {} else {lo} + Span(lo + 1, hi)
  }

  /** The channels fixture `f` writes, as a set. */
  ghost function Footprint(f: Fixture): set<int> {
    {f.channel} + Span(f.channel + 1, f.channel + |f.channelNames|)
  }

  /** Fixture `f` writes channel `c` of universe `u`'s table. */
  predicate Touches(f: Fixture, u: int, c: int) {
    f.universe == u && Covers(f, c)
  }

  /** The slot a fixture writes at a channel it covers. */
  function Mark(f: Fixture, c: int): Slot {
    if c == f.channel then Primary else Secondary
  }

  /** The table as pre-filled before any fixture is seen. (The bound is
      spelled out beside IsChannel so that Dafny sees the map is finite.) */
  ghost function Initial(): map<int, Slot> {
    map c | 1 <= c < MaxDmxChannels && IsChannel(c) :: Unused
  }

  /** The table after fixture `f` has written its marks into `t`: covered
      channels take `f`'s marks (new keys appear for covered channels `t`
      lacks), every other entry is kept. */
  ghost function Apply(t: map<int, Slot>, f: Fixture): map<int, Slot> {
    map c | c in t.Keys + Footprint(f) :: if Covers(f, c) then Mark(f, c) else t[c]
  }

  /** Table `t` after the fixtures of `fs` whose universe is `u` have
      written their marks, in list order. */
  ghost function Replay(t: map<int, Slot>, fs: seq<Fixture>, u: int): map<int, Slot>
  {
    if fs == [] then t
    else
      var t' := Replay(t, fs[..|fs| - 1], u);
      var f := fs[|fs| - 1];
      if f.universe == u then Apply(t', f) else t'
  }

  /** Universe `u`'s occupancy table built from the fixture list `fs`. */
  ghost function Table(fs: seq<Fixture>, u: int): map<int, Slot> {
    Replay(Initial(), fs, u)
  }

  /** `i` is the last position of `fs` whose fixture writes channel `c` of
      universe `u`. */
  ghost predicate IsLastWriter(fs: seq<Fixture>, u: int, c: int, i: int) {
    && 0 <= i < |fs|
    && Touches(fs[i], u, c)
    && forall j :: i < j < |fs| ==> !Touches(fs[j], u, c)
  }

  ghost predicate Untouched(fs: seq<Fixture>, u: int, c: int) {
    forall j :: 0 <= j < |fs| ==> !Touches(fs[j], u, c)
  }

  /** Replaying on a concatenation replays the second part on the result of
      the first: the VRSL list, then the extras list. */
  lemma {:induction false} ReplayAppend(t: map<int, Slot>, a: seq<Fixture>, b: seq<Fixture>, u: int)
    ensures Replay(t, a + b, u) == Replay(Replay(t, a, u), b, u)
  {
    if b == [] {
      assert a + b == a;
    } else {
      assert (a + b)[..|a + b| - 1] == a + b[..|b| - 1];
      ReplayAppend(t, a, b[..|b| - 1], u);
    }
  }

  /** A channel no fixture of `fs` writes keeps whatever `t` had there,
      including being absent. */
  lemma {:induction false} ReplayUntouched(t: map<int, Slot>, fs: seq<Fixture>, u: int, c: int)
    requires Untouched(fs, u, c)
    ensures c in Replay(t, fs, u) <==> c in t
    ensures c in t ==> Replay(t, fs, u)[c] == t[c]
  {
    if fs != [] {
      var p := fs[..|fs| - 1];
      assert !Touches(fs[|fs| - 1], u, c);
      assert Untouched(p, u, c) by {
        forall j | 0 <= j < |p| ensures !Touches(p[j], u, c) {
          assert p[j] == fs[j];
        }
      }
      ReplayUntouched(t, p, u, c);
    }
  }

  /** Last writer wins: the entry at a written channel is the mark of the
      last fixture that writes it, whatever the table held before. */
  lemma {:induction false} ReplayLastWriter(t: map<int, Slot>, fs: seq<Fixture>, u: int, c: int, i: int)
    requires IsLastWriter(fs, u, c, i)
    ensures c in Replay(t, fs, u)
    ensures Replay(t, fs, u)[c] == Mark(fs[i], c)
  {
    var p := fs[..|fs| - 1];
    if i < |fs| - 1 {
      assert !Touches(fs[|fs| - 1], u, c);
      assert IsLastWriter(p, u, c, i) by {
        forall j | i < j < |p| ensures !Touches(p[j], u, c) {
          assert p[j] == fs[j];
        }
      }
      ReplayLastWriter(t, p, u, c, i);
    }
  }

  /** A channel some fixture writes has a last writer. */
  lemma {:induction false} LastWriterExists(fs: seq<Fixture>, u: int, c: int, j: int)
    requires 0 <= j < |fs| && Touches(fs[j], u, c)
    ensures exists i :: IsLastWriter(fs, u, c, i)
    decreases |fs| - j
  {
    if !IsLastWriter(fs, u, c, j) {
      var k :| j < k < |fs| && Touches(fs[k], u, c);
      LastWriterExists(fs, u, c, k);
    }
  }

  /** Density: every channel 1..512 of every universe has an entry, which
      stays the pre-filled unused slot unless a fixture of that universe
      writes it. */
  lemma TableDense(fs: seq<Fixture>, u: int, c: int)
    requires IsChannel(c)
    ensures c in Table(fs, u)
    ensures Untouched(fs, u, c) ==> Table(fs, u)[c] == Unused
  {
    if Untouched(fs, u, c) {
      ReplayUntouched(Initial(), fs, u, c);
    } else {
      var j :| 0 <= j < |fs| && Touches(fs[j], u, c);
      LastWriterExists(fs, u, c, j);
      var i :| IsLastWriter(fs, u, c, i);
      ReplayLastWriter(Initial(), fs, u, c, i);
    }
  }

  /** Last writer wins, on the mapper's table: a written channel is
      `{used: True, main_channel: True}` exactly when it is the last
      writer's start channel, else `{used: True, main_channel: False}`. */
  lemma TableLastWriter(fs: seq<Fixture>, u: int, c: int, i: int)
    requires IsLastWriter(fs, u, c, i)
    ensures c in Table(fs, u)
    ensures Table(fs, u)[c] == Slot(true, c == fs[i].channel)
  {
    ReplayLastWriter(Initial(), fs, u, c, i);
  }

  /** The key set: channels 1..512, plus every channel a fixture of the
      universe writes, including channels past 512 or below 1. */
  lemma TableKeys(fs: seq<Fixture>, u: int, c: int)
    ensures c in Table(fs, u) <==> IsChannel(c) || exists j :: 0 <= j < |fs| && Touches(fs[j], u, c)
  {
    if Untouched(fs, u, c) {
      ReplayUntouched(Initial(), fs, u, c);
    } else {
      var j :| 0 <= j < |fs| && Touches(fs[j], u, c);
      LastWriterExists(fs, u, c, j);
      var i :| IsLastWriter(fs, u, c, i);
      ReplayLastWriter(Initial(), fs, u, c, i);
    }
  }

  /** Primary always marked: right after a fixture has been processed its
      start channel is `{True, True}`, and a fixture with at most one
      channel name writes nothing else. */
  lemma PrimaryMarked(fs: seq<Fixture>, f: Fixture)
    ensures Table(fs + [f], f.universe)[f.channel] == Primary
    ensures |f.channelNames| <= 1 ==>
      Table(fs + [f], f.universe) == Table(fs, f.universe)[f.channel := Primary]
  {
    assert (fs + [f])[..|fs + [f]| - 1] == fs;
  }

  /** Extras override VRSL: on a channel some extras fixture writes, the
      VRSL fixtures make no difference; on any other channel the extras
      make none. */
  lemma ExtrasOverride(vrsl: seq<Fixture>, extras: seq<Fixture>, u: int, c: int)
    ensures !Untouched(extras, u, c) ==>
      c in Table(vrsl + extras, u) && c in Table(extras, u) &&
      Table(vrsl + extras, u)[c] == Table(extras, u)[c]
    ensures Untouched(extras, u, c) ==>
      (c in Table(vrsl + extras, u) <==> c in Table(vrsl, u)) &&
      (c in Table(vrsl, u) ==> Table(vrsl + extras, u)[c] == Table(vrsl, u)[c])
  {
    ReplayAppend(Initial(), vrsl, extras, u);
    if Untouched(extras, u, c) {
      ReplayUntouched(Table(vrsl, u), extras, u, c);
    } else {
      var j :| 0 <= j < |extras| && Touches(extras[j], u, c);
      LastWriterExists(extras, u, c, j);
      var i :| IsLastWriter(extras, u, c, i);
      ReplayLastWriter(Table(vrsl, u), extras, u, c, i);
      ReplayLastWriter(Initial(), extras, u, c, i);
    }
  }

  /** Isolation: replaying a list gives the same table as replaying only
      that universe's fixtures. */
  lemma {:induction false} ReplayIsolated(t: map<int, Slot>, fs: seq<Fixture>, u: int)
    ensures Replay(t, fs, u) == Replay(t, InUniverse(fs, u), u)
  {
    if fs != [] {
      var p := fs[..|fs| - 1];
      var f := fs[|fs| - 1];
      ReplayIsolated(t, p, u);
      if f.universe == u {
        var s := InUniverse(p, u) + [f];
        assert InUniverse(fs, u) == s;
        assert s[..|s| - 1] == InUniverse(p, u);
        assert Replay(t, s, u) == Apply(Replay(t, InUniverse(p, u), u), f);
      } else {
        assert InUniverse(fs, u) == InUniverse(p, u);
      }
    }
  }

  /** Isolation: a fixture of another universe, wherever it stands in the
      list, changes neither universe `u`'s table nor its fixture list. In
      particular a fixture whose universe is outside 1..9 changes no
      universe's output. */
  lemma ForeignFixtureIgnored(a: seq<Fixture>, f: Fixture, b: seq<Fixture>, u: int)
    requires f.universe != u
    ensures Table(a + [f] + b, u) == Table(a + b, u)
    ensures InUniverse(a + [f] + b, u) == InUniverse(a + b, u)
  {
    InUniverseAppend(a + [f], b, u);
    InUniverseAppend(a, [f], u);
    InUniverseAppend(a, b, u);
    assert InUniverse([f], u) == [] by {
      assert [f][..0] == [];
    }
    assert InUniverse(a + [f], u) == InUniverse(a, u);
    assert InUniverse(a + [f] + b, u) == InUniverse(a + b, u);
    ReplayIsolated(Initial(), a + [f] + b, u);
    ReplayIsolated(Initial(), a + b, u);
  }
}
