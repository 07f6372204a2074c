/** A map with a cap: the oldest entry makes room for a new key. The victim is the least key under
    (last_seen, key), so the order in which the map is walked does not matter. */
module Bounded {
  import opened Basics

  predicate Older(seenA: nat, a: PeerId, seenB: nat, b: PeerId) {
    seenA < seenB || (seenA == seenB && TextLess(a, b))
  }

  lemma OlderTotal(seenA: nat, a: PeerId, seenB: nat, b: PeerId)
    requires a != b
    ensures Older(seenA, a, seenB, b) <==> !Older(seenB, b, seenA, a)
  {
    TextLessTotal(a, b);
    if TextLess(a, b) && TextLess(b, a) { TextLessTransitive(a, b, a); TextLessIrreflexive(a); }
  }

  lemma OlderTransitive(seenA: nat, a: PeerId, seenB: nat, b: PeerId, seenC: nat, c: PeerId)
    requires Older(seenA, a, seenB, b) && Older(seenB, b, seenC, c)
    ensures Older(seenA, a, seenC, c)
  {
    if TextLess(a, b) && TextLess(b, c) { TextLessTransitive(a, b, c); }
  }

  // ----- the oldest entry -----

  ghost predicate OlderIn<V>(m: map<PeerId, V>, lastSeen: V -> nat, a: PeerId, b: PeerId)
    requires a in m && b in m
  {
    Older(lastSeen(m[a]), a, lastSeen(m[b]), b)
  }

  ghost predicate IsOldest<V>(m: map<PeerId, V>, lastSeen: V -> nat, k: PeerId) {
    k in m && forall j | j in m && j != k :: OlderIn(m, lastSeen, k, j)
  }

  lemma OldestUnique<V>(m: map<PeerId, V>, lastSeen: V -> nat, k1: PeerId, k2: PeerId)
    requires IsOldest(m, lastSeen, k1) && IsOldest(m, lastSeen, k2)
    ensures k1 == k2
  {
    if k1 != k2 {
      assert OlderIn(m, lastSeen, k1, k2) && OlderIn(m, lastSeen, k2, k1);
      OlderTotal(lastSeen(m[k1]), k1, lastSeen(m[k2]), k2);
    }
  }

  lemma {:induction false} OldestExists<V>(m: map<PeerId, V>, lastSeen: V -> nat)
    requires m != map[]
    ensures exists k :: IsOldest(m, lastSeen, k)
    decreases |m|
  {
    var k :| k in m;
    var rest := m - {k};
    assert rest.Keys == m.Keys - {k};
    if rest == map[] {
      assert forall j | j in m :: j == k || j in rest;
      assert IsOldest(m, lastSeen, k);
    } else {
      OldestExists(rest, lastSeen);
      var r :| IsOldest(rest, lastSeen, r);
      forall j | j in rest && j != r ensures OlderIn(m, lastSeen, r, j) {
        assert OlderIn(rest, lastSeen, r, j);
      }
      OlderTotal(lastSeen(m[k]), k, lastSeen(m[r]), r);
      if OlderIn(m, lastSeen, r, k) {
        assert IsOldest(m, lastSeen, r);
      } else {
        forall j | j in m && j != k ensures OlderIn(m, lastSeen, k, j) {
          if j != r {
            assert OlderIn(m, lastSeen, r, j);
            OlderTransitive(lastSeen(m[k]), k, lastSeen(m[r]), r, lastSeen(m[j]), j);
          }
        }
        assert IsOldest(m, lastSeen, k);
      }
    }
  }

  ghost function OldestKey<V>(m: map<PeerId, V>, lastSeen: V -> nat): (k: PeerId)
    requires m != map[]
    ensures IsOldest(m, lastSeen, k)
  {
    OldestExists(m, lastSeen);
    var k :| IsOldest(m, lastSeen, k);
    k
  }

  ghost function Evicted<V>(m: map<PeerId, V>, lastSeen: V -> nat): map<PeerId, V> {
    if m == map[] then m else m - {OldestKey(m, lastSeen)}
  }

  /** Exactly the entry that every other one is later than, by number and then by key, is gone. */
  ghost predicate LostOldest<V>(m: map<PeerId, V>, lastSeen: V -> nat, r: map<PeerId, V>) {
    exists gone ::
      && gone in m && r == m - {gone}
      && forall j | j in m && j != gone ::
           lastSeen(m[gone]) < lastSeen(m[j]) || (lastSeen(m[gone]) == lastSeen(m[j]) && Alphabetical(gone, j))
  }

  lemma EvictedIsOldest<V>(m: map<PeerId, V>, lastSeen: V -> nat)
    ensures if m == map[] then Evicted(m, lastSeen) == m else LostOldest(m, lastSeen, Evicted(m, lastSeen))
  {
    if m != map[] {
      var gone := OldestKey(m, lastSeen);
      forall j | j in m && j != gone
        ensures lastSeen(m[gone]) < lastSeen(m[j]) || (lastSeen(m[gone]) == lastSeen(m[j]) && Alphabetical(gone, j))
      {
        assert OlderIn(m, lastSeen, gone, j);
        TextLessIsAlphabetical(gone, j);
      }
    }
  }

  method EvictOldest<V>(m: map<PeerId, V>, lastSeen: V -> nat) returns (r: map<PeerId, V>)
    ensures r == Evicted(m, lastSeen)
    ensures if m == map[] then r == m else LostOldest(m, lastSeen, r)
  {
    EvictedIsOldest(m, lastSeen);
    if m == map[] { return m; }
    var oldest :| oldest in m;
    var todo := m.Keys - {oldest};
    while todo != {}
      invariant oldest in m && oldest !in todo && todo <= m.Keys
      invariant forall j | j in m && j !in todo && j != oldest :: OlderIn(m, lastSeen, oldest, j)
      decreases |todo|
    {
      var k :| k in todo;
      OlderTotal(lastSeen(m[k]), k, lastSeen(m[oldest]), oldest);
      if Older(lastSeen(m[k]), k, lastSeen(m[oldest]), oldest) {
        forall j | j in m && j !in todo && j != oldest ensures OlderIn(m, lastSeen, k, j) {
          assert OlderIn(m, lastSeen, oldest, j);
          OlderTransitive(lastSeen(m[k]), k, lastSeen(m[oldest]), oldest, lastSeen(m[j]), j);
        }
        oldest := k;
      }
      todo := todo - {k};
    }
    OldestUnique(m, lastSeen, oldest, OldestKey(m, lastSeen));
    r := m - {oldest};
  }

  // ----- bounded insertion -----

  ghost function BoundedInsert<V>(m: map<PeerId, V>, lastSeen: V -> nat, cap: nat, id: PeerId, v: V): map<PeerId, V> {
    (if id !in m && |m| >= cap then Evicted(m, lastSeen) else m)[id := v]
  }

  lemma BoundedInsertSize<V>(m: map<PeerId, V>, lastSeen: V -> nat, cap: nat, id: PeerId, v: V)
    requires 0 < cap && |m| <= cap
    ensures var r := BoundedInsert(m, lastSeen, cap, id, v);
            && |r| == Min(cap, |m.Keys + {id}|)
            && r.Keys <= m.Keys + {id}
            && id in r && r[id] == v
            && (forall j | j in r && j != id :: j in m && r[j] == m[j])
            && (id in m || |m| < cap ==> r == m[id := v])
  {
    var kept := if id !in m && |m| >= cap then Evicted(m, lastSeen) else m;
    if id !in m && |m| >= cap {
      assert kept.Keys == m.Keys - {OldestKey(m, lastSeen)};
    }
    assert kept[id := v].Keys == kept.Keys + {id};
    if id in m { assert kept.Keys + {id} == m.Keys; }
  }

  // ----- a stream of arrivals -----

  datatype Arrival = Arrival(id: PeerId, lastSeen: nat)

  function Seen(n: nat): nat { n }

  /** The map without a cap: every arrival. */
  function Everything(xs: seq<Arrival>): map<PeerId, nat> {
    if xs == [] then map[]
    else Everything(xs[..|xs| - 1])[xs[|xs| - 1].id := xs[|xs| - 1].lastSeen]
  }

  /** The capped map, filled one arrival at a time. */
  ghost function Fill(cap: nat, xs: seq<Arrival>): map<PeerId, nat> {
    if xs == [] then map[]
    else
      var x := xs[|xs| - 1];
      BoundedInsert(Fill(cap, xs[..|xs| - 1]), Seen, cap, x.id, x.lastSeen)
  }

  predicate DistinctArrivals(xs: seq<Arrival>) {
    xs == [] || (xs[|xs| - 1].id !in Everything(xs[..|xs| - 1]) && DistinctArrivals(xs[..|xs| - 1]))
  }

  ghost predicate SubMap(m: map<PeerId, nat>, all: map<PeerId, nat>) {
    forall id | id in m :: id in all && m[id] == all[id]
  }

  /** What was lost is older than what was kept, the exempt id aside. */
  ghost predicate LosesOlder(all: map<PeerId, nat>, m: map<PeerId, nat>, exempt: set<PeerId>) {
    forall lost, kept | lost in all && lost !in m && kept in all && kept in m && kept !in exempt ::
      OlderIn(all, Seen, lost, kept)
  }

  /** The same in numbers: what was lost has a lesser date than what was kept, or the same date and a key
      that comes before. */
  ghost predicate KeepsGreatest(all: map<PeerId, nat>, m: map<PeerId, nat>, exempt: set<PeerId>) {
    forall lost, kept | lost in all && lost !in m && kept in all && kept in m && kept !in exempt ::
      all[lost] < all[kept] || (all[lost] == all[kept] && Alphabetical(lost, kept))
  }

  lemma OlderInNumbers(all: map<PeerId, nat>, m: map<PeerId, nat>, exempt: set<PeerId>)
    ensures LosesOlder(all, m, exempt) <==> KeepsGreatest(all, m, exempt)
  {
    hide TextLess, Alphabetical;
    forall lost, kept | lost in all && kept in all
      ensures OlderIn(all, Seen, lost, kept)
              <==> all[lost] < all[kept] || (all[lost] == all[kept] && Alphabetical(lost, kept))
    {
      TextLessIsAlphabetical(lost, kept);
    }
  }

  function Latest(xs: seq<Arrival>): set<PeerId> {
    if xs == [] then {} else {xs[|xs| - 1].id}
  }

  /** Offline view of what survives: everything while there is room; once full, the latest arrival
      and, among all the earlier ones, the `cap - 1` greatest under (last_seen, key). */
  ghost predicate IsTopK(cap: nat, xs: seq<Arrival>, m: map<PeerId, nat>) {
    && |m| == Min(cap, |xs|)
    && SubMap(m, Everything(xs))
    && Latest(xs) <= m.Keys
    && KeepsGreatest(Everything(xs), m, Latest(xs))
  }

  lemma {:induction false} EverythingSize(xs: seq<Arrival>)
    requires DistinctArrivals(xs)
    ensures |Everything(xs)| == |xs|
  {
    if xs != [] {
      EverythingSize(xs[..|xs| - 1]);
      assert Everything(xs).Keys == Everything(xs[..|xs| - 1]).Keys + {xs[|xs| - 1].id};
    }
  }

  /** Inserting one at a time with eviction equals choosing offline. */
  lemma {:induction false} FillIsTopK(cap: nat, xs: seq<Arrival>)
    requires 0 < cap && DistinctArrivals(xs)
    ensures IsTopK(cap, xs, Fill(cap, xs))
  {
    if xs != [] {
      var ys, x := xs[..|xs| - 1], xs[|xs| - 1];
      FillIsTopK(cap, ys);
      OlderInNumbers(Everything(ys), Fill(cap, ys), Latest(ys));
      EverythingSize(ys);
      var m, all := Fill(cap, ys), Everything(ys);
      var r := BoundedInsert(m, Seen, cap, x.id, x.lastSeen);
      InsertSubMap(cap, m, all, x);
      assert Everything(xs) == all[x.id := x.lastSeen] && Latest(xs) == {x.id} && Fill(cap, xs) == r;
      hide BoundedInsert, LosesOlder, KeepsGreatest, SubMap, Everything, Fill, DistinctArrivals;
      OneMoreSteps(cap, m, all, Latest(ys), |ys|, x);
      OlderInNumbers(all[x.id := x.lastSeen], r, {x.id});
    }
  }

  lemma OneMoreSteps(cap: nat, m: map<PeerId, nat>, all: map<PeerId, nat>, latest: set<PeerId>, n: nat, x: Arrival)
    requires 0 < cap && |m| == Min(cap, n) && |all| == n && x.id !in all && SubMap(m, all)
    requires latest <= m.Keys && LosesOlder(all, m, latest) && (n > 0 ==> exists id :: latest == {id})
    ensures var r := BoundedInsert(m, Seen, cap, x.id, x.lastSeen);
            |r| == Min(cap, n + 1) && LosesOlder(all[x.id := x.lastSeen], r, {x.id})
  {
    hide BoundedInsert, LosesOlder, SubMap;
    if |m| < cap {
      RoomStep(cap, m, all, x);
    } else {
      var id :| latest == {id};
      EvictionStep(cap, m, all, id, x);
    }
  }

  lemma InsertSubMap(cap: nat, m: map<PeerId, nat>, all: map<PeerId, nat>, x: Arrival)
    requires 0 < cap && |m| <= cap && SubMap(m, all) && x.id !in all
    ensures var r := BoundedInsert(m, Seen, cap, x.id, x.lastSeen);
            SubMap(r, all[x.id := x.lastSeen]) && x.id in r
  {
    hide BoundedInsert;
    BoundedInsertSize(m, Seen, cap, x.id, x.lastSeen);
  }

  /** With room to spare, nothing has been lost yet. */
  lemma RoomStep(cap: nat, m: map<PeerId, nat>, all: map<PeerId, nat>, x: Arrival)
    requires |m| < cap && |m| == |all| && x.id !in all && SubMap(m, all)
    ensures var r := BoundedInsert(m, Seen, cap, x.id, x.lastSeen);
            |r| == |m| + 1 && LosesOlder(all[x.id := x.lastSeen], r, {x.id})
  {
    SubsetSize(m.Keys, all.Keys);
    assert m[x.id := x.lastSeen].Keys == m.Keys + {x.id};
  }

  /** One eviction from a full map: whatever is gone is older than whatever stays. */
  lemma EvictionStep(cap: nat, m: map<PeerId, nat>, all: map<PeerId, nat>, latest: PeerId, x: Arrival)
    requires 0 < cap == |m| && x.id !in all
    requires SubMap(m, all) && latest in m && LosesOlder(all, m, {latest})
    ensures var r := BoundedInsert(m, Seen, cap, x.id, x.lastSeen);
            |r| == cap && LosesOlder(all[x.id := x.lastSeen], r, {x.id})
  {
    var r := BoundedInsert(m, Seen, cap, x.id, x.lastSeen);
    var o := OldestKey(m, Seen);
    var stay := m - {o};
    assert stay.Keys == m.Keys - {o};
    assert r.Keys == stay.Keys + {x.id};
    forall lost, kept | lost in all && lost !in r && kept in m && kept != o
      ensures OlderIn(all, Seen, lost, kept)
    {
      assert OlderIn(m, Seen, o, kept);
      if lost != o && kept == latest {
        assert OlderIn(all, Seen, lost, o);
        OlderTransitive(all[lost], lost, all[o], o, all[kept], kept);
      }
    }
  }

  /** The offline choice is unique: no other map can satisfy it. */
  lemma TopKUnique(cap: nat, xs: seq<Arrival>, m1: map<PeerId, nat>, m2: map<PeerId, nat>)
    requires DistinctArrivals(xs) && IsTopK(cap, xs, m1) && IsTopK(cap, xs, m2)
    ensures m1 == m2
  {
    var all := Everything(xs);
    OlderInNumbers(all, m1, Latest(xs));
    OlderInNumbers(all, m2, Latest(xs));
    hide KeepsGreatest;
    if m1.Keys != m2.Keys {
      if m1.Keys <= m2.Keys { SubsetSize(m1.Keys, m2.Keys); }
      if m2.Keys <= m1.Keys { SubsetSize(m2.Keys, m1.Keys); }
      var a :| a in m1 && a !in m2;
      var b :| b in m2 && b !in m1;
      assert OlderIn(all, Seen, a, b) && OlderIn(all, Seen, b, a);
      OlderTotal(all[a], a, all[b], b);
    }
  }
}
