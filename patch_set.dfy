/**
 The per-universe fill loop of the patch-set generator: for each universe
 1..9 it pre-fills a dense occupancy table, walks the VRSL fixture list and
 then the extras (`gpu_readback_fixtures`) list, collects the fixtures of
 that universe and writes their marks into the table, then sorts the
 collected fixtures by start channel.
 */
module PatchSet {
  import opened Dmx
  import opened Occupancy
  import opened ChannelSort

  /** Writes one fixture's marks: `{True, True}` at its start channel, then
      `{True, False}` at each channel of `range(channel + 1, channel +
      len(channelNames))`, which is empty for a footprint of 0 or 1. */
  method MarkFixture(table0: map<int, Slot>, fixture: Fixture) returns (table: map<int, Slot>)
    ensures table == Apply(table0, fixture)
  {
    table := table0[fixture.channel := Primary];
    var channelId := fixture.channel + 1;
    var end := fixture.channel + |fixture.channelNames|;
    while channelId < end
      invariant fixture.channel + 1 <= channelId
      invariant channelId <= end || channelId == fixture.channel + 1
      invariant forall c :: c in table <==> c in table0 || c == fixture.channel || fixture.channel < c < channelId
      invariant forall c :: c in table ==>
        table[c] == if c == fixture.channel || fixture.channel < c < channelId then Mark(fixture, c) else table0[c]
      decreases end - channelId
    {
      table := table[channelId := Secondary];
      channelId := channelId + 1;
    }
    assert forall c :: Covers(fixture, c) <==> c == fixture.channel || fixture.channel < c < channelId;
  }

  /** One pass over a fixture list for universe `u`: every matching fixture
      is appended to `list` and its start channel, then its other footprint
      channels, are written into `table`. The mapper runs this pass over the
      VRSL list and then, on the result, over the extras list. */
  method ScanFixtures(fs: seq<Fixture>, u: int, list0: seq<Fixture>, table0: map<int, Slot>)
    returns (list: seq<Fixture>, table: map<int, Slot>)
    ensures list == list0 + InUniverse(fs, u)
    ensures table == Replay(table0, fs, u)
  {
    list, table := list0, table0;
    for k := 0 to |fs|
      invariant list == list0 + InUniverse(fs[..k], u)
      invariant table == Replay(table0, fs[..k], u)
    {
      var fixture := fs[k];
      assert fs[..k + 1][..k] == fs[..k];
      if fixture.universe == u {
        list := list + [fixture];
        table := MarkFixture(table, fixture);
      }
    }
    assert fs[..|fs|] == fs;
  }

  /** The body of the universe loop: pre-fill universe `u`'s table, run
      the VRSL pass and then the extras pass, sort the collected fixtures. */
  method FillUniverse(vrsl: seq<Fixture>, extras: seq<Fixture>, u: int)
    returns (fixturesInUniverse: seq<Fixture>, fixturesOccupancyInUniverse: map<int, Slot>)
    ensures fixturesInUniverse == SortByChannel(InUniverse(vrsl + extras, u))
    ensures fixturesOccupancyInUniverse == Table(vrsl + extras, u)
  {
    fixturesInUniverse := [];
    fixturesOccupancyInUniverse := map[];
    for i := 1 to MaxDmxChannels
      invariant forall c :: c in fixturesOccupancyInUniverse <==> 1 <= c < i
      invariant forall c :: c in fixturesOccupancyInUniverse ==> fixturesOccupancyInUniverse[c] == Unused
    {
      fixturesOccupancyInUniverse := fixturesOccupancyInUniverse[i := Unused];
    }
    assert fixturesOccupancyInUniverse == Initial();
    fixturesInUniverse, fixturesOccupancyInUniverse :=
      ScanFixtures(vrsl, u, fixturesInUniverse, fixturesOccupancyInUniverse);
    fixturesInUniverse, fixturesOccupancyInUniverse :=
      ScanFixtures(extras, u, fixturesInUniverse, fixturesOccupancyInUniverse);
    assert [] + InUniverse(vrsl, u) == InUniverse(vrsl, u);
    InUniverseAppend(vrsl, extras, u);
    ReplayAppend(Initial(), vrsl, extras, u);
    fixturesInUniverse := SortByChannel(fixturesInUniverse);
  }

  /** `dmx_universes` once universes 1 .. n-1 have been filled. */
  ghost function ListsUpTo(vrsl: seq<Fixture>, extras: seq<Fixture>, n: int): map<int, seq<Fixture>>
    decreases n
  {
    if n <= 1 then map[]
    else ListsUpTo(vrsl, extras, n - 1)[n - 1 := SortByChannel(InUniverse(vrsl + extras, n - 1))]
  }

  /** `dmx_universes_occupancy` once universes 1 .. n-1 have been filled. */
  ghost function TablesUpTo(vrsl: seq<Fixture>, extras: seq<Fixture>, n: int): map<int, map<int, Slot>>
    decreases n
  {
    if n <= 1 then map[]
    else TablesUpTo(vrsl, extras, n - 1)[n - 1 := Table(vrsl + extras, n - 1)]
  }

  /** After universes 1 .. n-1, `dmx_universes` is keyed by exactly those
      universes, each holding its sorted list. */
  lemma {:induction false} ListsUpToAt(vrsl: seq<Fixture>, extras: seq<Fixture>, n: int, u: int)
    ensures u in ListsUpTo(vrsl, extras, n) <==> 1 <= u < n
    ensures 1 <= u < n ==> ListsUpTo(vrsl, extras, n)[u] == SortByChannel(InUniverse(vrsl + extras, u))
    decreases n
  {
    if n > 1 {
      ListsUpToAt(vrsl, extras, n - 1, u);
      var v := SortByChannel(InUniverse(vrsl + extras, n - 1));
      assert ListsUpTo(vrsl, extras, n) == ListsUpTo(vrsl, extras, n - 1)[n - 1 := v];
    }
  }

  /** After universes 1 .. n-1, `dmx_universes_occupancy` is keyed by
      exactly those universes, each holding its table. */
  lemma {:induction false} TablesUpToAt(vrsl: seq<Fixture>, extras: seq<Fixture>, n: int, u: int)
    ensures u in TablesUpTo(vrsl, extras, n) <==> 1 <= u < n
    ensures 1 <= u < n ==> TablesUpTo(vrsl, extras, n)[u] == Table(vrsl + extras, u)
    decreases n
  {
    if n > 1 {
      TablesUpToAt(vrsl, extras, n - 1, u);
      var v := Table(vrsl + extras, n - 1);
      assert TablesUpTo(vrsl, extras, n) == TablesUpTo(vrsl, extras, n - 1)[n - 1 := v];
    }
  }

  /** The universe loop: fills universes 1..9 in turn, inserting each
      universe's sorted list into `dmx_universes` and its table into
      `dmx_universes_occupancy`. */
  method FillUniverses(vrsl: seq<Fixture>, extras: seq<Fixture>)
    returns (dmxUniverses: map<int, seq<Fixture>>, dmxUniversesOccupancy: map<int, map<int, Slot>>)
    ensures dmxUniverses == ListsUpTo(vrsl, extras, MaxDmxUniverses)
    ensures dmxUniversesOccupancy == TablesUpTo(vrsl, extras, MaxDmxUniverses)
  {
    dmxUniverses, dmxUniversesOccupancy := map[], map[];
    for universe := 1 to MaxDmxUniverses
      invariant dmxUniverses == ListsUpTo(vrsl, extras, universe)
      invariant dmxUniversesOccupancy == TablesUpTo(vrsl, extras, universe)
    {
      var fixturesInUniverse, fixturesOccupancyInUniverse := FillUniverse(vrsl, extras, universe);
      dmxUniverses := dmxUniverses[universe := fixturesInUniverse];
      dmxUniversesOccupancy := dmxUniversesOccupancy[universe := fixturesOccupancyInUniverse];
    }
  }

  /** The whole mapper: both dicts are keyed by exactly the universes 1..9;
      each universe's list is its fixtures from VRSL then extras, sorted by
      start channel, and its table is those fixtures' marks over the
      pre-filled channels 1..512. */
  method ComputeOccupancy(vrsl: seq<Fixture>, extras: seq<Fixture>)
    returns (dmxUniverses: map<int, seq<Fixture>>, dmxUniversesOccupancy: map<int, map<int, Slot>>)
    ensures forall u :: u in dmxUniverses <==> IsUniverse(u)
    ensures forall u :: u in dmxUniversesOccupancy <==> IsUniverse(u)
    ensures forall u :: u in dmxUniverses ==>
      dmxUniverses[u] == SortByChannel(InUniverse(vrsl + extras, u))
    ensures forall u :: u in dmxUniversesOccupancy ==>
      dmxUniversesOccupancy[u] == Table(vrsl + extras, u)
  {
    dmxUniverses, dmxUniversesOccupancy := FillUniverses(vrsl, extras);
    forall u
      ensures u in dmxUniverses <==> IsUniverse(u)
      ensures u in dmxUniverses ==> dmxUniverses[u] == SortByChannel(InUniverse(vrsl + extras, u))
    {
      ListsUpToAt(vrsl, extras, MaxDmxUniverses, u);
    }
    forall u
      ensures u in dmxUniversesOccupancy <==> IsUniverse(u)
      ensures u in dmxUniversesOccupancy ==> dmxUniversesOccupancy[u] == Table(vrsl + extras, u)
    {
      TablesUpToAt(vrsl, extras, MaxDmxUniverses, u);
    }
  }

  /** What `dmx_universes[u]` holds: ordered by start channel; exactly the
      fixtures of both lists whose universe is `u`, each as often as the
      lists hold it, VRSL ones counted before extras ones; and, among
      fixtures with the same start channel, VRSL ones first and each list's
      own order kept. */
  lemma UniverseList(vrsl: seq<Fixture>, extras: seq<Fixture>, u: int)
    ensures SortedByChannel(SortByChannel(InUniverse(vrsl + extras, u)))
    ensures multiset(SortByChannel(InUniverse(vrsl + extras, u))) ==
      multiset(InUniverse(vrsl, u)) + multiset(InUniverse(extras, u))
    ensures forall x :: x in SortByChannel(InUniverse(vrsl + extras, u)) <==>
      (x in vrsl || x in extras) && x.universe == u
    ensures forall k ::
              WithChannel(SortByChannel(InUniverse(vrsl + extras, u)), k) ==
              WithChannel(InUniverse(vrsl, u) + InUniverse(extras, u), k)
  {
    var sel := InUniverse(vrsl + extras, u);
    InUniverseAppend(vrsl, extras, u);
    SortSorted(sel);
    SortPermutes(sel);
    forall x ensures x in SortByChannel(sel) <==> (x in vrsl || x in extras) && x.universe == u {
      InUniverseMembers(vrsl + extras, u, x);
      assert x in multiset(SortByChannel(sel)) <==> x in multiset(sel);
    }
    forall k ensures WithChannel(SortByChannel(sel), k) == WithChannel(sel, k) {
      SortStable(sel, k);
    }
  }
}
