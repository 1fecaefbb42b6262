/**
 The ordering step of the mapper: `sorted(fixtures_in_universe,
 key=lambda x: x['channel'])`. Python's `sorted` is a stable sort, modelled
 as an insertion sort on the `channel` key; the lemmas state what a stable
 sort promises: the result is ordered by channel, is a permutation of the
 input, and keeps the input order among fixtures with the same channel.
 */
module ChannelSort {
  import opened Dmx

  predicate SortedByChannel(s: seq<Fixture>) {
    forall i, j :: 0 <= i < j < |s| ==> s[i].channel <= s[j].channel
  }

  /** The fixtures of `s` whose start channel is `k`, in order. */
  function WithChannel(s: seq<Fixture>, k: int): seq<Fixture> {
    if s == [] then []
    else (if s[0].channel == k then [s[0]] else []) + WithChannel(s[1..], k)
  }

  /** Puts `x` in front of the first element whose channel is not below
      `x`'s, so `x` precedes every equal-channel element of `s`. */
  function Insert(x: Fixture, s: seq<Fixture>): seq<Fixture> {
    if s == [] || x.channel <= s[0].channel then [x] + s
    else [s[0]] + Insert(x, s[1..])
  }

  /** Python's `sorted(s, key=channel)`. */
  function SortByChannel(s: seq<Fixture>): seq<Fixture> {
    if s == [] then [] else Insert(s[0], SortByChannel(s[1..]))
  }

  lemma {:induction false} InsertPermutes(x: Fixture, s: seq<Fixture>)
    ensures multiset(Insert(x, s)) == multiset{x} + multiset(s)
  {
    if s != [] && x.channel > s[0].channel {
      InsertPermutes(x, s[1..]);
      assert s == [s[0]] + s[1..];
    }
  }

  lemma {:induction false} InsertSorted(x: Fixture, s: seq<Fixture>)
    requires SortedByChannel(s)
    ensures SortedByChannel(Insert(x, s))
  {
    if s != [] && x.channel > s[0].channel {
      InsertSorted(x, s[1..]);
      InsertPermutes(x, s[1..]);
      var r := Insert(x, s[1..]);
      forall j | 0 <= j < |r| ensures s[0].channel <= r[j].channel {
        assert r[j] in multiset(r);
        assert r[j] == x || r[j] in s[1..];
      }
    }
  }

  /** Inserting `x` adds it at the head of its own channel's run and
      changes no other channel's run. */
  lemma {:induction false} InsertWithChannel(x: Fixture, s: seq<Fixture>, k: int)
    ensures WithChannel(Insert(x, s), k) ==
      (if x.channel == k then [x] else []) + WithChannel(s, k)
  {
    var r := Insert(x, s);
    var mine := if x.channel == k then [x] else [];
    if s != [] && x.channel > s[0].channel {
      var head := if s[0].channel == k then [s[0]] else [];
      InsertWithChannel(x, s[1..], k);
      assert r[0] == s[0] && r[1..] == Insert(x, s[1..]);
      assert WithChannel(r, k) == head + (mine + WithChannel(s[1..], k));
      assert x.channel == k ==> head == [];
      assert WithChannel(s, k) == head + WithChannel(s[1..], k);
    } else {
      assert r[0] == x && r[1..] == s;
      assert WithChannel(r, k) == mine + WithChannel(s, k);
    }
  }

  /** The sorted list is ordered by start channel. */
  lemma {:induction false} SortSorted(s: seq<Fixture>)
    ensures SortedByChannel(SortByChannel(s))
  {
    if s != [] {
      SortSorted(s[1..]);
      InsertSorted(s[0], SortByChannel(s[1..]));
    }
  }

  /** The sorted list holds the same records, each as often. */
  lemma {:induction false} SortPermutes(s: seq<Fixture>)
    ensures multiset(SortByChannel(s)) == multiset(s)
  {
    if s != [] {
      SortPermutes(s[1..]);
      InsertPermutes(s[0], SortByChannel(s[1..]));
      assert s == [s[0]] + s[1..];
    }
  }

  /** Stability: the fixtures sharing a start channel come out in the
      order they went in. */
  lemma {:induction false} SortStable(s: seq<Fixture>, k: int)
    ensures WithChannel(SortByChannel(s), k) == WithChannel(s, k)
  {
    if s != [] {
      SortStable(s[1..], k);
      InsertWithChannel(s[0], SortByChannel(s[1..]), k);
    }
  }
}
