/** What a participant advertises: the fresh first-hand entries in one canonical order, and the delta
    that brings a link's told-state towards them. */
module Advertise {
  import opened Basics
  import opened Caps
  import Sorting
  import opened Entry

  type Known = map<PeerId, PeerEntry>
  type Told = map<PeerId, u64>

  /** The fingerprint of an entry's content. */
  type Print = PeerEntry -> u64

  predicate Keyed(known: Known) { forall id | id in known :: known[id].peerId == id }

  predicate IsFresh(e: PeerEntry, nowSecs: nat) {
    e.lastSeen >= nowSecs || nowSecs - e.lastSeen <= PEX_MAX_ENTRY_AGE
  }

  /** The ids advertised on no particular link. */
  function AdvertisableIds(known: Known, self: PeerId, nowSecs: nat): set<PeerId> {
    set id | id in known && known[id].peerId != self && IsFresh(known[id], nowSecs)
  }

  /** The ids advertised to `partner`. */
  function AdvertisableTo(known: Known, self: PeerId, partner: PeerId, nowSecs: nat): set<PeerId> {
    AdvertisableIds(known, self, nowSecs) - {partner}
  }

  // ----- the canonical arrangement of a set of known ids -----

  function Ids(entries: seq<PeerEntry>): set<PeerId> { set e | e in entries :: e.peerId }

  /** Freshest first, ties by ascending `peer_id`. */
  predicate Before(a: PeerEntry, b: PeerEntry) {
    a.lastSeen > b.lastSeen || (a.lastSeen == b.lastSeen && TextLess(a.peerId, b.peerId))
  }

  ghost predicate Ordered(entries: seq<PeerEntry>) {
    forall i, j | 0 <= i < j < |entries| :: Before(entries[i], entries[j])
  }

  ghost predicate IsArrangement(entries: seq<PeerEntry>, known: Known, ids: set<PeerId>) {
    && Ordered(entries)
    && Ids(entries) == ids
    && (forall e | e in entries :: e.peerId in known && e == known[e.peerId])
  }

  lemma BeforeTransitive(a: PeerEntry, b: PeerEntry, c: PeerEntry)
    requires Before(a, b) && Before(b, c)
    ensures Before(a, c)
  {
    if TextLess(a.peerId, b.peerId) && TextLess(b.peerId, c.peerId) {
      TextLessTransitive(a.peerId, b.peerId, c.peerId);
    }
  }

  lemma BeforeTotal(a: PeerEntry, b: PeerEntry)
    ensures !(Before(a, b) && Before(b, a))
    ensures a.peerId != b.peerId ==> Before(a, b) || Before(b, a)
  {
    TextLessTotal(a.peerId, b.peerId);
    TextLessIrreflexive(a.peerId);
    if TextLess(a.peerId, b.peerId) && TextLess(b.peerId, a.peerId) {
      TextLessTransitive(a.peerId, b.peerId, a.peerId);
    }
  }

  lemma InIds(entries: seq<PeerEntry>, id: PeerId) returns (i: nat)
    requires id in Ids(entries)
    ensures i < |entries| && entries[i].peerId == id
  {
    var e :| e in entries && e.peerId == id;
    i :| 0 <= i < |entries| && entries[i] == e;
  }

  lemma ArrangementTail(entries: seq<PeerEntry>, known: Known, ids: set<PeerId>)
    requires IsArrangement(entries, known, ids) && entries != []
    ensures entries[0].peerId in ids
    ensures IsArrangement(entries[1..], known, ids - {entries[0].peerId})
  {
    var id := entries[0].peerId;
    assert entries[0] in entries;
    forall e | e in entries[1..] ensures e.peerId != id && e in entries {
      var j :| 1 <= j < |entries| && entries[j] == e;
      assert Before(entries[0], entries[j]);
      BeforeTotal(entries[0], e);
      assert e in entries;
    }
    forall x | x in ids - {id} ensures x in Ids(entries[1..]) {
      var j := InIds(entries, x);
      assert entries[j] in entries[1..];
    }
  }

  lemma {:induction false} ArrangementSize(entries: seq<PeerEntry>, known: Known, ids: set<PeerId>)
    requires IsArrangement(entries, known, ids)
    ensures |entries| == |ids|
  {
    if entries != [] {
      ArrangementTail(entries, known, ids);
      ArrangementSize(entries[1..], known, ids - {entries[0].peerId});
    } else {
      assert ids == {};
    }
  }

  /** Any two arrangements of the same ids are the same list, however they were computed. */
  lemma {:induction false} ArrangementUnique(l1: seq<PeerEntry>, l2: seq<PeerEntry>, known: Known, ids: set<PeerId>)
    requires IsArrangement(l1, known, ids) && IsArrangement(l2, known, ids)
    ensures l1 == l2
  {
    ArrangementSize(l1, known, ids);
    ArrangementSize(l2, known, ids);
    if l1 != [] {
      var i := InIds(l1, l2[0].peerId);
      var j := InIds(l2, l1[0].peerId);
      assert l1[i] in l1 && l2[j] in l2 && l1[0] in l1 && l2[0] in l2;
      assert l1[i] == l2[0] && l2[j] == l1[0];
      BeforeTotal(l1[0], l2[0]);
      assert l1[0] == l2[0];
      ArrangementTail(l1, known, ids);
      ArrangementTail(l2, known, ids);
      ArrangementUnique(l1[1..], l2[1..], known, ids - {l1[0].peerId});
      assert l1 == [l1[0]] + l1[1..] && l2 == [l2[0]] + l2[1..];
    }
  }

  /** The library sort under `Before`. */
  function SortFreshestFirst(entries: seq<PeerEntry>): seq<PeerEntry> { Sorting.Sort(Before, entries) }

  lemma {:induction false} InsertArranges(e: PeerEntry, entries: seq<PeerEntry>, known: Known, ids: set<PeerId>)
    requires IsArrangement(entries, known, ids)
    requires e.peerId in known && known[e.peerId] == e && e.peerId !in ids
    ensures IsArrangement(Sorting.Insert(Before, e, entries), known, ids + {e.peerId})
    ensures forall x | x in Sorting.Insert(Before, e, entries) :: x == e || x in entries
  {
    var r := Sorting.Insert(Before, e, entries);
    if entries == [] || Before(e, entries[0]) {
      forall j | 1 <= j < |r| ensures Before(r[0], r[j]) {
        if j > 1 { BeforeTransitive(e, entries[0], entries[j - 1]); }
      }
      assert Ordered(r);
      assert forall x | x in r :: x == e || x in entries;
      assert forall x | x in entries :: x in r;
      assert e in r;
    } else {
      var head, tail := entries[0], Sorting.Insert(Before, e, entries[1..]);
      ArrangementTail(entries, known, ids);
      InsertArranges(e, entries[1..], known, ids - {head.peerId});
      assert head in entries;
      BeforeTotal(e, head);
      forall j | 1 <= j < |r| ensures Before(r[0], r[j]) {
        assert r[j] in tail;
        if r[j] != e {
          var k :| 0 <= k < |entries[1..]| && entries[1..][k] == r[j];
          assert Before(entries[0], entries[k + 1]);
        }
      }
      assert Ordered(r);
      assert forall x | x in r :: x == head || x in tail;
      assert head in r && forall x | x in tail :: x in r;
      assert Ids(r) == {head.peerId} + Ids(tail);
    }
  }

  lemma {:induction false} SortArranges(entries: seq<PeerEntry>, known: Known, ids: set<PeerId>)
    requires Ids(entries) == ids && |ids| == |entries|
    requires forall e | e in entries :: e.peerId in known && known[e.peerId] == e
    ensures IsArrangement(SortFreshestFirst(entries), known, ids)
  {
    if entries != [] {
      var first, rest := entries[0], entries[1..];
      assert entries == [first] + rest;
      assert ids == Ids(rest) + {first.peerId};
      IdsSize(rest);
      assert first.peerId in Ids(rest) ==> ids == Ids(rest);
      SortArranges(rest, known, Ids(rest));
      InsertArranges(first, SortFreshestFirst(rest), known, Ids(rest));
    }
  }

  lemma {:induction false} IdsSize(entries: seq<PeerEntry>)
    ensures |Ids(entries)| <= |entries|
  {
    if entries != [] {
      var init, last := entries[..|entries| - 1], entries[|entries| - 1];
      assert entries == init + [last];
      IdsSize(init);
      assert Ids(entries) == Ids(init) + {last.peerId};
    }
  }

  lemma {:induction false} ArrangementExists(known: Known, ids: set<PeerId>)
    requires Keyed(known) && ids <= known.Keys
    ensures exists l :: IsArrangement(l, known, ids)
  {
    if ids == {} {
      assert IsArrangement([], known, ids);
    } else {
      var id :| id in ids;
      ArrangementExists(known, ids - {id});
      var l :| IsArrangement(l, known, ids - {id});
      InsertArranges(known[id], l, known, ids - {id});
      assert ids - {id} + {id} == ids;
    }
  }

  /** The entries of `ids`, freshest first. */
  ghost function Arrange(known: Known, ids: set<PeerId>): (l: seq<PeerEntry>)
    requires Keyed(known) && ids <= known.Keys
    ensures IsArrangement(l, known, ids)
  {
    ArrangementExists(known, ids);
    var l :| IsArrangement(l, known, ids);
    l
  }

  lemma AppendArranges(entries: seq<PeerEntry>, e: PeerEntry, known: Known, ids: set<PeerId>)
    requires IsArrangement(entries, known, ids)
    requires e.peerId in known && known[e.peerId] == e
    requires forall x | x in entries :: Before(x, e)
    ensures IsArrangement(entries + [e], known, ids + {e.peerId})
  {
    var r := entries + [e];
    forall i, j | 0 <= i < j < |r| ensures Before(r[i], r[j]) {
      if j == |entries| { assert r[i] in entries; }
    }
    assert forall x | x in r :: x == e || x in entries;
    assert e in r && forall x | x in entries :: x in r;
  }

  lemma PrefixArranges(entries: seq<PeerEntry>, n: nat, known: Known, ids: set<PeerId>)
    requires IsArrangement(entries, known, ids) && n <= |entries|
    ensures IsArrangement(entries[..n], known, Ids(entries[..n]))
    ensures Ids(entries[..n]) <= ids && |Ids(entries[..n])| == n
    ensures forall i | n <= i < |entries| :: entries[i].peerId !in Ids(entries[..n])
  {
    assert forall e | e in entries[..n] :: e in entries;
    ArrangementSize(entries[..n], known, Ids(entries[..n]));
    forall i | n <= i < |entries| ensures entries[i].peerId !in Ids(entries[..n]) {
      if entries[i].peerId in Ids(entries[..n]) {
        var j := InIds(entries[..n], entries[i].peerId);
        assert entries[i] in entries && entries[j] in entries;
        assert entries[j] == entries[i];
        assert Before(entries[j], entries[i]);
        BeforeTotal(entries[j], entries[i]);
      }
    }
  }

  // ----- the delta -----

  predicate NeedsTelling(fp: Print, told: Told, e: PeerEntry) {
    e.peerId !in told || told[e.peerId] != fp(e)
  }

  /** Advertisable but not told, or told with other content. */
  function PendingIds(fp: Print, known: Known, adv: set<PeerId>, told: Told): set<PeerId> {
    set id | id in adv && id in known && NeedsTelling(fp, told, known[id])
  }

  /** Told but no longer advertisable. */
  function StaleIds(adv: set<PeerId>, told: Told): set<PeerId> { told.Keys - adv }

  function Set<T>(xs: seq<T>): set<T> { set x | x in xs }

  predicate Ascending(ids: seq<PeerId>) { forall i, j | 0 <= i < j < |ids| :: TextLess(ids[i], ids[j]) }

  /** `added` is the freshest-first prefix of all that is pending; `dropped` is any choice of stale
      ids, as many as the cap allows, listed in order. */
  ghost predicate IsDelta(fp: Print, known: Known, adv: set<PeerId>, told: Told,
                          added: seq<PeerEntry>, dropped: seq<PeerId>)
    requires Keyed(known) && adv <= known.Keys
  {
    && added == Take(Arrange(known, PendingIds(fp, known, adv, told)), PEX_MAX_ADDED)
    && Ascending(dropped)
    && Set(dropped) <= StaleIds(adv, told)
    && |dropped| == Min(PEX_MAX_DROPPED, |StaleIds(adv, told)|)
  }

  function Fingerprints(fp: Print, known: Known, ids: set<PeerId>): Told {
    map id | id in ids && id in known :: fp(known[id])
  }

  lemma FingerprintKeys(fp: Print, known: Known, ids: set<PeerId>)
    requires ids <= known.Keys
    ensures Fingerprints(fp, known, ids).Keys == ids
  {
  }

  function Commit(fp: Print, known: Known, told: Told, sent: set<PeerId>, gone: set<PeerId>): Told {
    (told + Fingerprints(fp, known, sent)) - gone
  }

  function ToldAfter(fp: Print, known: Known, told: Told, added: seq<PeerEntry>, dropped: seq<PeerId>): Told {
    Commit(fp, known, told, Ids(added), Set(dropped))
  }

  lemma {:induction false} AscendingSize(ids: seq<PeerId>)
    requires Ascending(ids)
    ensures |Set(ids)| == |ids|
  {
    if ids != [] {
      var init, last := ids[..|ids| - 1], ids[|ids| - 1];
      AscendingSize(init);
      forall i | 0 <= i < |init| ensures init[i] != last {
        assert TextLess(ids[i], ids[|ids| - 1]);
        TextLessIrreflexive(last);
      }
      assert ids == init + [last];
      assert Set(ids) == Set(init) + {last};
    }
  }

  /** What a delta says about the ids it carries, before anything is committed. */
  lemma DeltaShape(fp: Print, known: Known, adv: set<PeerId>, told: Told,
                   added: seq<PeerEntry>, dropped: seq<PeerId>)
    requires Keyed(known) && adv <= known.Keys && IsDelta(fp, known, adv, told, added, dropped)
    ensures IsArrangement(added, known, Ids(added))
    ensures Ids(added) <= PendingIds(fp, known, adv, told) && Set(dropped) <= StaleIds(adv, told)
    ensures |Ids(added)| == |added| == Min(PEX_MAX_ADDED, |PendingIds(fp, known, adv, told)|)
    ensures |Set(dropped)| == |dropped| == Min(PEX_MAX_DROPPED, |StaleIds(adv, told)|)
    ensures Ids(added) !! Set(dropped)
  {
    var pending := PendingIds(fp, known, adv, told);
    var all := Arrange(known, pending);
    ArrangementSize(all, known, pending);
    PrefixArranges(all, |added|, known, pending);
    assert added == all[..|added|];
    AscendingSize(dropped);
  }

  lemma BeforeInNumbers(a: PeerEntry, b: PeerEntry)
    ensures Before(a, b)
            <==> a.lastSeen > b.lastSeen || (a.lastSeen == b.lastSeen && Alphabetical(a.peerId, b.peerId))
  {
    TextLessIsAlphabetical(a.peerId, b.peerId);
  }

  /** An arrangement goes from the latest date to the earliest, ids in alphabetical order within one. */
  lemma ArrangementDescends(entries: seq<PeerEntry>, known: Known, ids: set<PeerId>)
    requires IsArrangement(entries, known, ids)
    ensures forall i, j | 0 <= i < j < |entries| ::
              entries[i].lastSeen > entries[j].lastSeen
              || (entries[i].lastSeen == entries[j].lastSeen && Alphabetical(entries[i].peerId, entries[j].peerId))
  {
    forall i, j | 0 <= i < j < |entries|
      ensures entries[i].lastSeen > entries[j].lastSeen
              || (entries[i].lastSeen == entries[j].lastSeen && Alphabetical(entries[i].peerId, entries[j].peerId))
    {
      assert Before(entries[i], entries[j]);
      BeforeInNumbers(entries[i], entries[j]);
    }
  }

  /** What comes after a prefix of an arrangement is later in it than all of the prefix. */
  lemma PrefixOutranks(all: seq<PeerEntry>, n: nat, known: Known, ids: set<PeerId>, first: PeerEntry, left: PeerId)
    requires IsArrangement(all, known, ids) && n <= |all| && first in all[..n] && left in ids - Ids(all[..n])
    ensures left in known && Before(first, known[left])
  {
    var j := InIds(all, left);
    assert all[j] in all;
    var i :| 0 <= i < n && all[i] == first;
    forall k | 0 <= k < n ensures all[k].peerId in Ids(all[..n]) { assert all[k] in all[..n]; }
    assert Before(all[i], all[j]);
  }

  /** Priority: nothing left for later is fresher than anything sent now. */
  lemma DeltaSendsFreshest(fp: Print, known: Known, adv: set<PeerId>, told: Told,
                           added: seq<PeerEntry>, dropped: seq<PeerId>, sent: PeerEntry, left: PeerId)
    requires Keyed(known) && adv <= known.Keys && IsDelta(fp, known, adv, told, added, dropped)
    requires sent in added && left in PendingIds(fp, known, adv, told) - Ids(added)
    ensures sent.lastSeen > known[left].lastSeen
            || (sent.lastSeen == known[left].lastSeen && Alphabetical(sent.peerId, left))
    ensures |added| == 50
  {
    var pending := PendingIds(fp, known, adv, told);
    var all := Arrange(known, pending);
    ArrangementSize(all, known, pending);
    assert added == all[..|added|];
    assert |added| < 50 ==> added == all;
    PrefixOutranks(all, |added|, known, pending, sent, left);
    BeforeInNumbers(sent, known[left]);
  }

  /** Committing a delta removes from the backlog exactly what it carried. */
  lemma CommitClears(fp: Print, known: Known, adv: set<PeerId>, told: Told, sent: set<PeerId>, gone: set<PeerId>)
    requires Keyed(known) && adv <= known.Keys
    requires sent <= PendingIds(fp, known, adv, told) && gone <= StaleIds(adv, told)
    ensures var after := Commit(fp, known, told, sent, gone);
            && after.Keys == told.Keys + sent - gone
            && PendingIds(fp, known, adv, after) == PendingIds(fp, known, adv, told) - sent
            && StaleIds(adv, after) == StaleIds(adv, told) - gone
  {
    var after := Commit(fp, known, told, sent, gone);
    assert Fingerprints(fp, known, sent).Keys == sent;
    forall id | id in adv
      ensures NeedsTelling(fp, after, known[id]) <==> NeedsTelling(fp, told, known[id]) && id !in sent
    {
      assert known[id].peerId == id && id !in gone;
    }
  }

  /** Nothing pending and nothing stale means the link has been told the advertisable set, content and
      all, and no more. */
  lemma ClearIffToldAll(fp: Print, known: Known, adv: set<PeerId>, told: Told)
    requires Keyed(known) && adv <= known.Keys
    ensures PendingIds(fp, known, adv, told) == {} && StaleIds(adv, told) == {}
            <==> told == Fingerprints(fp, known, adv)
  {
    var target := Fingerprints(fp, known, adv);
    assert target.Keys == adv;
    var pending, stale := PendingIds(fp, known, adv, told), StaleIds(adv, told);
    if pending == {} && stale == {} {
      forall id | id in adv ensures id in told && told[id] == target[id] {
        assert id !in pending;
        assert known[id].peerId == id;
      }
      forall id | id in told ensures id in adv { assert id !in stale; }
      assert told.Keys == adv;
    }
    if told == target {
      forall id | id in adv ensures id !in pending { assert known[id].peerId == id; }
    }
  }

  lemma QuiescentIffToldAll(fp: Print, known: Known, adv: set<PeerId>, told: Told,
                            added: seq<PeerEntry>, dropped: seq<PeerId>)
    requires Keyed(known) && adv <= known.Keys && IsDelta(fp, known, adv, told, added, dropped)
    ensures added == [] && dropped == [] <==> told == Fingerprints(fp, known, adv)
  {
    DeltaShape(fp, known, adv, told, added, dropped);
    ClearIffToldAll(fp, known, adv, told);
    assert PendingIds(fp, known, adv, told) == {} <==> |PendingIds(fp, known, adv, told)| == 0;
    assert StaleIds(adv, told) == {} <==> |StaleIds(adv, told)| == 0;
  }

  // ----- termination -----

  /** One for every id advertisable or told, one more for every id pending. */
  ghost function Potential(fp: Print, known: Known, adv: set<PeerId>, told: Told): nat {
    |adv + told.Keys| + |PendingIds(fp, known, adv, told)|
  }

  lemma UnionAfter(adv: set<PeerId>, told: set<PeerId>, sent: set<PeerId>, gone: set<PeerId>)
    requires sent <= adv && gone <= told - adv
    ensures |adv + (told + sent - gone)| == |adv + told| - |gone|
  {
    assert adv + (told + sent - gone) == (adv + told) - gone;
    DifferenceSize(adv + told, gone);
  }

  lemma CommitLowersPotential(fp: Print, known: Known, adv: set<PeerId>, told: Told,
                              sent: set<PeerId>, gone: set<PeerId>)
    requires Keyed(known) && adv <= known.Keys
    requires sent <= PendingIds(fp, known, adv, told) && gone <= StaleIds(adv, told)
    ensures Potential(fp, known, adv, Commit(fp, known, told, sent, gone))
         == Potential(fp, known, adv, told) - |sent| - |gone|
  {
    CommitClears(fp, known, adv, told, sent, gone);
    UnionAfter(adv, told.Keys, sent, gone);
    DifferenceSize(PendingIds(fp, known, adv, told), sent);
  }

  /** Every delta sent lowers the potential by the number of ids it carries. */
  lemma DeltaLowersPotential(fp: Print, known: Known, adv: set<PeerId>, told: Told,
                             added: seq<PeerEntry>, dropped: seq<PeerId>)
    requires Keyed(known) && adv <= known.Keys && IsDelta(fp, known, adv, told, added, dropped)
    ensures Potential(fp, known, adv, ToldAfter(fp, known, told, added, dropped))
         == Potential(fp, known, adv, told) - |added| - |dropped|
  {
    DeltaShape(fp, known, adv, told, added, dropped);
    CommitLowersPotential(fp, known, adv, told, Ids(added), Set(dropped));
  }

  /** Entries only ever age out, and ageing out never adds to the work left. */
  lemma AgeingNeverRaisesPotential(fp: Print, known: Known, self: PeerId, partner: PeerId, told: Told,
                                   earlier: nat, later: nat)
    requires earlier <= later
    ensures AdvertisableTo(known, self, partner, later) <= AdvertisableTo(known, self, partner, earlier)
    ensures Potential(fp, known, AdvertisableTo(known, self, partner, later), told)
         <= Potential(fp, known, AdvertisableTo(known, self, partner, earlier), told)
  {
    var a, b := AdvertisableTo(known, self, partner, earlier), AdvertisableTo(known, self, partner, later);
    SubsetSize(b + told.Keys, a + told.Keys);
    SubsetSize(PendingIds(fp, known, b, told), PendingIds(fp, known, a, told));
  }

  lemma PotentialBound(fp: Print, known: Known, adv: set<PeerId>, told: Told)
    requires adv <= known.Keys
    ensures Potential(fp, known, adv, told) <= 2 * |known| + |told|
  {
    UnionSize(adv, told.Keys);
    SubsetSize(adv, known.Keys);
    SubsetSize(PendingIds(fp, known, adv, told), known.Keys);
  }

  // ----- how many deltas a backlog takes -----

  datatype Delta = Delta(added: seq<PeerEntry>, dropped: seq<PeerId>)

  ghost predicate Commits(fp: Print, known: Known, adv: set<PeerId>, told: Told, d: Delta, after: Told)
    requires Keyed(known) && adv <= known.Keys
  {
    IsDelta(fp, known, adv, told, d.added, d.dropped) && after == ToldAfter(fp, known, told, d.added, d.dropped)
  }

  ghost function PendingCount(fp: Print, known: Known, adv: set<PeerId>, told: Told): nat {
    |PendingIds(fp, known, adv, told)|
  }

  ghost function StaleCount(adv: set<PeerId>, told: Told): nat { |StaleIds(adv, told)| }

  ghost predicate CountsDown(fp: Print, known: Known, adv: set<PeerId>, told: Told, d: Delta, after: Told) {
    var p, s := PendingCount(fp, known, adv, told), StaleCount(adv, told);
    && PendingCount(fp, known, adv, after) == SaturatingSub(p, PEX_MAX_ADDED)
    && StaleCount(adv, after) == SaturatingSub(s, PEX_MAX_DROPPED)
    && |d.added| == Min(PEX_MAX_ADDED, p) && |d.dropped| == Min(PEX_MAX_DROPPED, s)
  }

  lemma BacklogStep(fp: Print, known: Known, adv: set<PeerId>, told: Told, d: Delta, after: Told)
    requires Keyed(known) && adv <= known.Keys && Commits(fp, known, adv, told, d, after)
    ensures CountsDown(fp, known, adv, told, d, after)
  {
    DeltaShape(fp, known, adv, told, d.added, d.dropped);
    CommitClears(fp, known, adv, told, Ids(d.added), Set(d.dropped));
    DifferenceSize(PendingIds(fp, known, adv, told), Ids(d.added));
    DifferenceSize(StaleIds(adv, told), Set(d.dropped));
  }
}
