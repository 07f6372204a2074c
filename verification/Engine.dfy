/** The engine itself: a mutable object whose methods are proved to do what `Protocol` says. */
module Engine {
  import opened Basics
  import opened Caps
  import opened Timer
  import opened Entry
  import opened Wire
  import opened Bounded
  import opened Advertise
  import opened State
  import opened Protocol
  import opened Invariant
  import Sorting

  datatype CachedBase = CachedBase(epoch: nat, nowSecs: nat, base: seq<PeerEntry>)

  // ----- functions of the first-hand set, computed by loops -----

  /** `found` lists the known entries of `ids`, once each, in some order. */
  ghost predicate Collected(found: seq<PeerEntry>, known: Known, ids: set<PeerId>) {
    && Ids(found) == ids && |found| == |ids|
    && forall e | e in found :: e.peerId in known && known[e.peerId] == e
  }

  lemma CollectOne(found: seq<PeerEntry>, known: Known, ids: set<PeerId>, e: PeerEntry)
    requires Collected(found, known, ids)
    requires e.peerId !in ids && e.peerId in known && known[e.peerId] == e
    ensures Collected(found + [e], known, ids + {e.peerId})
  {
    assert forall x :: x in found + [e] <==> x in found || x == e;
  }

  /** The fresh entries, in whatever order the map yields them. */
  method CollectFresh(known: Known, self: PeerId, nowSecs: nat) returns (found: seq<PeerEntry>)
    requires Keyed(known)
    ensures Collected(found, known, AdvertisableIds(known, self, nowSecs))
  {
    found := [];
    var todo := known.Keys;
    ghost var ids := AdvertisableIds(known, self, nowSecs);
    ghost var got: set<PeerId> := {};
    while todo != {}
      invariant todo <= known.Keys
      invariant forall id :: id in got <==> id in ids && id !in todo
      invariant Collected(found, known, got)
      decreases |todo|
    {
      var id :| id in todo;
      var e := known[id];
      todo := todo - {id};
      if e.peerId != self && (e.lastSeen >= nowSecs || nowSecs - e.lastSeen <= PEX_MAX_ENTRY_AGE) {
        CollectOne(found, known, got, e);
        found := found + [e];
        got := got + {id};
      }
    }
    assert got == ids;
  }

  method AdvertisableBase(known: Known, self: PeerId, nowSecs: nat) returns (out: seq<PeerEntry>)
    requires Keyed(known)
    ensures out == Arrange(known, AdvertisableIds(known, self, nowSecs))
  {
    var found := CollectFresh(known, self, nowSecs);
    out := SortFreshestFirst(found);
    SortArranges(found, known, Ids(found));
    ArrangementUnique(out, Arrange(known, Ids(found)), known, Ids(found));
  }

  /** The base list without the partner. */
  method ExcludePartner(base: seq<PeerEntry>, partner: PeerId, ghost known: Known, ghost ids: set<PeerId>)
    returns (out: seq<PeerEntry>)
    requires Keyed(known) && ids <= known.Keys && base == Arrange(known, ids)
    ensures out == Arrange(known, ids - {partner})
  {
    out := [];
    for i := 0 to |base|
      invariant IsArrangement(out, known, Ids(base[..i]) - {partner})
      invariant forall e | e in out :: e in base[..i]
    {
      NextInArrangement(base, i, known, ids);
      if base[i].peerId != partner {
        AppendArranges(out, base[i], known, Ids(base[..i]) - {partner});
        assert Ids(base[..i]) - {partner} + {base[i].peerId} == Ids(base[..i + 1]) - {partner};
        out := out + [base[i]];
      } else {
        assert Ids(base[..i]) - {partner} == Ids(base[..i + 1]) - {partner};
      }
    }
    assert base[..|base|] == base;
    ArrangementUnique(out, Arrange(known, ids - {partner}), known, ids - {partner});
  }

  lemma NextInArrangement(entries: seq<PeerEntry>, i: nat, known: Known, ids: set<PeerId>)
    requires IsArrangement(entries, known, ids) && i < |entries|
    ensures Ids(entries[..i + 1]) == Ids(entries[..i]) + {entries[i].peerId}
    ensures entries[i].peerId in ids && entries[i].peerId in known && known[entries[i].peerId] == entries[i]
    ensures entries[i].peerId !in Ids(entries[..i])
    ensures forall e | e in entries[..i] :: Before(e, entries[i])
  {
    assert entries[i] in entries;
    PrefixArranges(entries, i, known, ids);
    assert entries[..i + 1] == entries[..i] + [entries[i]];
    forall e | e in entries[..i] ensures Before(e, entries[i]) {
      var j :| 0 <= j < i && entries[j] == e;
    }
  }

  /** One pass over the base list: the ids advertised to `partner`, and the first of the pending ones. */
  method ScanAdvertised(hasher: Hasher, base: seq<PeerEntry>, partner: PeerId, told: Told,
                        ghost fp: Print, ghost known: Known, ghost ids: set<PeerId>)
    returns (added: seq<PeerEntry>, advertIds: set<PeerId>)
    requires Keyed(known) && ids <= known.Keys && base == Arrange(known, ids)
    requires forall e :: fp(e) == Fingerprint(hasher, e)
    ensures advertIds == ids - {partner}
    ensures added == Take(Arrange(known, PendingIds(fp, known, ids - {partner}, told)), PEX_MAX_ADDED)
  {
    added, advertIds := [], {};
    ghost var all: seq<PeerEntry>, pending: set<PeerId> := [], {};
    for i := 0 to |base|
      invariant forall id :: id in advertIds <==> id in Ids(base[..i]) && id != partner
      invariant forall id :: id in pending <==> id in advertIds && NeedsTelling(fp, told, known[id])
      invariant IsArrangement(all, known, pending) && forall e | e in all :: e in base[..i]
      invariant added == Take(all, PEX_MAX_ADDED)
    {
      var e := base[i];
      NextInArrangement(base, i, known, ids);
      if e.peerId != partner {
        advertIds := advertIds + {e.peerId};
        var changed := true;
        if |added| < PEX_MAX_ADDED && e.peerId in told {
          var hash := FingerprintHash(hasher, e);
          changed := told[e.peerId] != hash;
        }
        if |added| < PEX_MAX_ADDED && changed {
          added := added + [e];
        }
        if NeedsTelling(fp, told, e) {
          AppendArranges(all, e, known, pending);
          all, pending := all + [e], pending + {e.peerId};
        }
      }
    }
    assert base[..|base|] == base;
    assert advertIds == ids - {partner};
    assert pending == PendingIds(fp, known, ids - {partner}, told);
    ArrangementUnique(all, Arrange(known, pending), known, pending);
  }

  lemma {:induction false} SetSize(xs: seq<PeerId>)
    ensures |Set(xs)| <= |xs|
  {
    if xs != [] {
      SetSize(xs[..|xs| - 1]);
      assert xs == xs[..|xs| - 1] + [xs[|xs| - 1]];
      assert Set(xs) == Set(xs[..|xs| - 1]) + {xs[|xs| - 1]};
    }
  }

  lemma NoDuplicates(xs: seq<PeerId>, i: nat, j: nat)
    requires |Set(xs)| == |xs| && i < j < |xs|
    ensures xs[i] != xs[j]
  {
    var without := xs[..j] + xs[j + 1..];
    SetSize(without);
    assert xs == xs[..j] + [xs[j]] + xs[j + 1..];
    assert forall x :: x in xs <==> x in without || x == xs[j];
    assert Set(xs) == Set(without) + {xs[j]};
    assert xs[i] == without[i] && without[i] in without;
    assert xs[i] == xs[j] ==> Set(xs) == Set(without);
  }

  /** Sorting distinct ids lists them in strictly ascending order. */
  lemma SortAscends(xs: seq<PeerId>)
    requires |Set(xs)| == |xs|
    ensures var ys := Sorting.Sort(TextLeq, xs);
            Ascending(ys) && Set(ys) == Set(xs) && |ys| == |xs|
  {
    var ys := Sorting.Sort(TextLeq, xs);
    TextTotalOrder();
    Sorting.SortSorts(TextLeq, xs);
    assert |multiset(ys)| == |ys| && |multiset(xs)| == |xs|;
    assert forall x :: x in ys <==> x in multiset(ys);
    assert forall x :: x in xs <==> x in multiset(xs);
    assert Set(ys) == Set(xs);
    forall i, j | 0 <= i < j < |ys| ensures TextLess(ys[i], ys[j]) {
      NoDuplicates(ys, i, j);
    }
  }

  /** As many stale ids as the cap allows, in whatever order the map yields them, then sorted. */
  method ChooseStale(told: Told, advertIds: set<PeerId>) returns (dropped: seq<PeerId>)
    ensures Ascending(dropped) && Set(dropped) <= StaleIds(advertIds, told)
    ensures |dropped| == Min(PEX_MAX_DROPPED, |StaleIds(advertIds, told)|)
  {
    dropped := [];
    var todo := told.Keys;
    while todo != {}
      invariant todo <= told.Keys
      invariant |Set(dropped)| == |dropped| <= PEX_MAX_DROPPED
      invariant forall id :: id in Set(dropped) <==> id in told && id !in todo && id !in advertIds
      decreases |todo|
    {
      if |dropped| >= PEX_MAX_DROPPED { break; }
      var id :| id in todo;
      if id !in advertIds {
        assert Set(dropped + [id]) == Set(dropped) + {id};
        dropped := dropped + [id];
      }
      todo := todo - {id};
    }
    SubsetSize(Set(dropped), StaleIds(advertIds, told));
    assert todo == {} ==> Set(dropped) == StaleIds(advertIds, told);
    SortAscends(dropped);
    dropped := Sorting.Sort(TextLeq, dropped);
  }

  lemma FingerprintsExtend(fp: Print, known: Known, told: Told, ids: set<PeerId>, id: PeerId)
    requires id in known
    ensures (told + Fingerprints(fp, known, ids))[id := fp(known[id])] == told + Fingerprints(fp, known, ids + {id})
  {
  }

  lemma SharedId(ids: set<PeerId>, dropped: seq<PeerId>)
    ensures (exists d :: d in dropped && d in ids) <==> ids * Set(dropped) != {}
  {
    if ids * Set(dropped) != {} { var d :| d in ids * Set(dropped); }
    assert forall d | d in dropped && d in ids :: d in ids * Set(dropped);
  }

  lemma Overwrite<K, V>(m: map<K, V>, k: K, a: V, b: V)
    ensures m[k := a][k := b] == m[k := b]
  {
  }

  lemma UpDone(s: Pex, p: PeerId, nowMs: nat, s': Pex, peers: seq<PeerEntry>, jitter: nat)
    requires Keyed(s.known) && IsSnapshot(s, p, nowMs, peers)
    requires JitterDraw(s.cfg, EffectiveIntervalSecs(s.cfg.interval, LinkOr(s, p).remoteDeclaredSecs), jitter)
    requires s' == s.(links := s.links[p := LinkAfterUp(s.cfg, s.known, LinkOr(s, p), peers, nowMs, jitter)])
    ensures Protocol.LinkUp(s, p, nowMs, s', [Handshake(s.cfg), PexSnapshot(peers)])
  {
  }

  /** What one link's turn relates: the id, the link before and after, and what was sent. */
  type Turn = (PeerId, Link, Link, Option<PexMessage>) -> bool

  type SentBy = map<PeerId, Option<PexMessage>>

  /** How far a walk over the links has got: those in `todo` are untouched, each of the others has had
      its turn. */
  ghost predicate Walked(turn: Turn, before: map<PeerId, Link>, todo: set<PeerId>, links: map<PeerId, Link>,
                         sentBy: SentBy) {
    && (forall p :: p in links <==> p in before)
    && (forall p :: p in todo ==> p in links && links[p] == before[p])
    && (forall p :: p in sentBy <==> p in links && p !in todo)
    && (forall p :: p in sentBy ==> turn(p, before[p], links[p], sentBy[p]))
  }

  /** `out` holds what each link sent on its turn. */
  ghost predicate Holds(out: seq<(PeerId, PexMessage)>, sentBy: SentBy) {
    forall p :: SentTo(out, p) == if p in sentBy then AsSeq(sentBy[p]) else []
  }

  lemma WalkStep(turn: Turn, before: map<PeerId, Link>, todo: set<PeerId>, links: map<PeerId, Link>, sentBy: SentBy,
                 peerId: PeerId, l: Link, sent: Option<PexMessage>)
    requires Walked(turn, before, todo, links, sentBy) && peerId in todo
    requires turn(peerId, before[peerId], l, sent)
    ensures Walked(turn, before, todo - {peerId}, links[peerId := l], sentBy[peerId := sent])
    ensures peerId !in sentBy
  {
  }

  lemma HoldsStep(out: seq<(PeerId, PexMessage)>, sentBy: SentBy, peerId: PeerId, sent: Option<PexMessage>)
    requires Holds(out, sentBy) && peerId !in sentBy
    ensures Holds(if sent.Some? then out + [(peerId, sent.value)] else out, sentBy[peerId := sent])
  {
    if sent.Some? {
      forall p
        ensures SentTo(out + [(peerId, sent.value)], p) == SentTo(out, p) + (if p == peerId then [sent.value] else [])
      {
        assert (out + [(peerId, sent.value)])[..|out|] == out;
      }
    }
  }

  ghost function TickTurn(s: Pex, nowMs: nat): Turn {
    (p, l, l', sent) => LinkTick(s, p, nowMs, l, l', sent)
  }

  /** The turn of an eligible link, given the delta that was computed for it. */
  lemma SilentTurn(s: Pex, p: PeerId, nowMs: nat, l: Link)
    requires Keyed(s.known)
    requires Eligible(l, nowMs) ==> IsDelta(s.cfg.Print(), s.known, AdvertisedTo(s, p, nowMs), l.told, [], [])
    ensures TickTurn(s, nowMs)(p, l, l, None)
  {
    if Eligible(l, nowMs) {
      var d := Delta([], []);
      assert IsDelta(s.cfg.Print(), s.known, AdvertisedTo(s, p, nowMs), l.told, d.added, d.dropped);
    }
  }

  lemma SendingTurn(s: Pex, p: PeerId, nowMs: nat, l: Link, d: Delta, jitter: nat)
    requires Keyed(s.known) && Eligible(l, nowMs) && JitterDraw(s.cfg, Effective(l), jitter)
    requires IsDelta(s.cfg.Print(), s.known, AdvertisedTo(s, p, nowMs), l.told, d.added, d.dropped)
    requires d != Delta([], [])
    ensures TickTurn(s, nowMs)(p, l, LinkAfterDelta(s.cfg, s.known, l, d, nowMs, jitter),
                               Some(PexDelta(d.added, d.dropped)))
  {
  }

  lemma TickDone(s: Pex, nowMs: nat, s': Pex, out: seq<(PeerId, PexMessage)>, sentBy: SentBy)
    requires Walked(TickTurn(s, nowMs), s.links, {}, s'.links, sentBy) && Holds(out, sentBy)
    requires Keyed(s.known) && s' == s.(links := s'.links)
    ensures Protocol.Tick(s, nowMs, s', out)
  {
    assert s'.links.Keys == s.links.Keys;
    forall p | p in s.links ensures LinkTicked(s, nowMs, s', out, p) {
      assert TickTurn(s, nowMs)(p, s.links[p], s'.links[p], sentBy[p]);
    }
  }

  class PexEngine {
    const cfg: Config
    var known: Known
    var links: map<PeerId, LinkState>
    var hints: Hints
    var knownEpoch: nat
    var advertisableCache: Option<CachedBase>
    var advertisableRebuilds: nat
    ghost var Repr: set<LinkState>  // the records of the links

    // ----- abstraction -----

    ghost function LinkValues(): map<PeerId, Link>
      requires Separate()
      reads this, Repr
    {
      map p | p in links :: links[p].Value()
    }

    /** The value of the whole engine; the cache is not part of it. */
    ghost function Value(): Pex
      requires Separate()
      reads this, Repr
    {
      Pex(cfg, known, LinkValues(), hints)
    }

    /** No two links share a record. */
    ghost predicate Separate()
      reads this
    {
      && (forall p | p in links :: links[p] in Repr)
      && (forall p, q | p in links && q in links && p != q :: links[p] != links[q])
    }

    /** A cached list is either out of date or exactly the advertisable base for the second it names. */
    ghost predicate CacheOk()
      reads this
    {
      && Keyed(known)
      && (advertisableCache.Some? ==>
            var c := advertisableCache.value;
            && c.epoch <= knownEpoch
            && (c.epoch == knownEpoch ==>
                  c.base == Arrange(known, AdvertisableIds(known, cfg.localPeerId, c.nowSecs))))
    }

    ghost predicate CachedFor(nowSecs: nat)
      reads this
    {
      && advertisableCache.Some?
      && advertisableCache.value.epoch == knownEpoch
      && advertisableCache.value.nowSecs == nowSecs
    }

    ghost predicate Consistent()
      reads this, Repr
    {
      Separate() && CacheOk()
    }

    /** What every public method keeps. */
    ghost predicate Valid()
      reads this, Repr
    {
      Consistent() && Inv(Value())
    }

    constructor (cfg: Config)
      ensures Valid() && fresh(Repr)
      ensures Value() == Pex(cfg, map[], map[], map[])
    {
      this.cfg := cfg;
      known, links, hints, knownEpoch := map[], map[], map[], 0;
      advertisableCache, advertisableRebuilds, Repr := None, 0, {};
    }

    /** Nothing but the record of `p` changed among the links. */
    twostate lemma OneLinkChanged(p: PeerId)
      requires old(Separate()) && links == old(links) && Repr == old(Repr) && p in links
      requires forall q | q in links && q != p :: unchanged(links[q])
      ensures Separate() && LinkValues() == old(LinkValues())[p := links[p].Value()]
    {
    }

    // ----- first-hand set -----

    method UpsertKnown(entry: PeerEntry)
      requires Valid()
      modifies this
      ensures Valid() && Repr == old(Repr)
      ensures Value() == Protocol.UpsertKnown(old(Value()), entry)
    {
      hide Inv;
      if entry.peerId == cfg.localPeerId { return; }
      known := known[entry.peerId := entry];
      knownEpoch := knownEpoch + 1;
      assert LinkValues() == old(LinkValues());
      UpsertInv(old(Value()), entry);
    }

    method RemoveKnown(peerId: PeerId)
      requires Valid()
      modifies this
      ensures Valid() && Repr == old(Repr)
      ensures Value() == Protocol.RemoveKnown(old(Value()), peerId)
    {
      hide Inv;
      known := known - {peerId};
      knownEpoch := knownEpoch + 1;
      assert LinkValues() == old(LinkValues());
      RemoveInv(old(Value()), peerId);
    }

    // ----- advertisable lists -----

    method AdvertisableCached(nowSecs: nat) returns (base: seq<PeerEntry>)
      requires CacheOk()
      modifies this`advertisableCache, this`advertisableRebuilds
      ensures CacheOk() && CachedFor(nowSecs)
      ensures base == Arrange(known, AdvertisableIds(known, cfg.localPeerId, nowSecs))
      ensures advertisableRebuilds == old(advertisableRebuilds) + (if old(CachedFor(nowSecs)) then 0 else 1)
    {
      if advertisableCache.Some? {
        var c := advertisableCache.value;
        if c.epoch == knownEpoch && c.nowSecs == nowSecs {
          return c.base;
        }
      }
      base := AdvertisableBase(known, cfg.localPeerId, nowSecs);
      advertisableRebuilds := advertisableRebuilds + 1;
      advertisableCache := Some(CachedBase(knownEpoch, nowSecs, base));
    }

    method AdvertisableFor(partner: PeerId, nowSecs: nat) returns (out: seq<PeerEntry>)
      requires CacheOk()
      modifies this`advertisableCache, this`advertisableRebuilds
      ensures CacheOk() && CachedFor(nowSecs)
      ensures out == Arrange(known, AdvertisableTo(known, cfg.localPeerId, partner, nowSecs))
      ensures advertisableRebuilds == old(advertisableRebuilds) + (if old(CachedFor(nowSecs)) then 0 else 1)
    {
      var base := AdvertisableCached(nowSecs);
      out := ExcludePartner(base, partner, known, AdvertisableIds(known, cfg.localPeerId, nowSecs));
    }

    method DrawJitter(effectiveSecs: u32) returns (jitter: nat)
      ensures JitterDraw(cfg, effectiveSecs, jitter)
    {
      if cfg.jitter {
        jitter := JitterMs(effectiveSecs);
      } else {
        jitter := 0;
      }
    }

    // ----- link lifecycle -----

    /** The record of `peerId`, created if it is not there yet. */
    method EnsureLink(peerId: PeerId) returns (link: LinkState)
      requires Separate()
      modifies this`links, this`Repr
      ensures Separate() && fresh(Repr - old(Repr)) && peerId in links && links[peerId] == link
      ensures link.Value() == LinkOr(old(Value()), peerId)
      ensures LinkValues() == old(LinkValues())[peerId := link.Value()]
    {
      if peerId !in links {
        link := new LinkState(cfg.interval);
        links := links[peerId := link];
        Repr := Repr + {link};
      } else {
        link := links[peerId];
      }
    }

    method HashOf(e: PeerEntry) returns (hash: u64)
      ensures hash == cfg.Print()(e)
    {
      hash := FingerprintHash(cfg.hasher, e);
    }

    /** Record on the link that `peers` have been told. */
    method Tell(link: LinkState, peers: seq<PeerEntry>)
      requires Keyed(known) && IsArrangement(peers, known, Ids(peers))
      modifies link`told
      ensures link.told == old(link.told) + Fingerprints(cfg.Print(), known, Ids(peers))
    {
      for i := 0 to |peers|
        invariant link.told == old(link.told) + Fingerprints(cfg.Print(), known, Ids(peers[..i]))
      {
        NextInArrangement(peers, i, known, Ids(peers));
        FingerprintsExtend(cfg.Print(), known, old(link.told), Ids(peers[..i]), peers[i].peerId);
        var hash := HashOf(peers[i]);
        link.told := link.told[peers[i].peerId := hash];
      }
      assert peers[..|peers|] == peers;
    }

    /** The link's record after its handshake and snapshot went out. */
    method RaiseLink(link: LinkState, peers: seq<PeerEntry>, nowMs: nat, jitter: nat)
      requires Keyed(known) && IsArrangement(peers, known, Ids(peers))
      modifies link
      ensures link.Value() == LinkAfterUp(cfg, known, old(link.Value()), peers, nowMs, jitter)
    {
      link.selfIntervalSecs := cfg.interval;
      link.handshakeSent := true;
      Tell(link, peers);
      link.snapshotSent := true;
      link.lastDataSendMs := Some(nowMs);
      link.sendJitterMs := jitter;
    }

    method MarkUp(peerId: PeerId, peers: seq<PeerEntry>, nowMs: nat, jitter: nat)
      requires Separate() && Keyed(known) && IsArrangement(peers, known, Ids(peers))
      modifies this`links, this`Repr, Repr
      ensures Separate() && fresh(Repr - old(Repr))
      ensures LinkValues() == old(LinkValues())[peerId :=
                LinkAfterUp(cfg, known, LinkOr(old(Value()), peerId), peers, nowMs, jitter)]
    {
      hide LinkAfterUp, LinkOr, Keyed, IsArrangement, Ids;
      var link := EnsureLink(peerId);
      label ensured:
      RaiseLink(link, peers, nowMs, jitter);
      OneLinkChanged@ensured(peerId);
    }

    /** The jitter drawn when the link comes up. */
    method JitterFor(peerId: PeerId) returns (jitter: nat)
      requires Separate()
      ensures JitterDraw(cfg, EffectiveIntervalSecs(cfg.interval, LinkOr(Value(), peerId).remoteDeclaredSecs), jitter)
    {
      var remoteDeclared := if peerId in links then links[peerId].remoteDeclaredSecs else None;
      jitter := DrawJitter(EffectiveIntervalSecs(cfg.interval, remoteDeclared));
    }

    /** The freshest entries for the partner that fit a snapshot. */
    method SnapshotFor(peerId: PeerId, nowMs: nat) returns (peers: seq<PeerEntry>)
      requires CacheOk()
      modifies this`advertisableCache, this`advertisableRebuilds
      ensures CacheOk() && CachedFor(nowMs / 1000)
      ensures IsTrimmed(cfg.encoder, Take(Arrange(known, AdvertisableTo(known, cfg.localPeerId, peerId, nowMs / 1000)),
                                          PEX_MAX_SNAPSHOT), peers)
      ensures advertisableRebuilds == old(advertisableRebuilds) + (if old(CachedFor(nowMs / 1000)) then 0 else 1)
    {
      var all := AdvertisableFor(peerId, nowMs / 1000);
      peers := TrimToFrameBudget(cfg.encoder, Take(all, PEX_MAX_SNAPSHOT));
    }

    method LinkUp(peerId: PeerId, nowMs: nat) returns (sent: seq<PexMessage>)
      requires Valid()
      modifies this, Repr
      ensures Valid() && fresh(Repr - old(Repr))
      ensures Protocol.LinkUp(old(Value()), peerId, nowMs, Value(), sent)
      ensures advertisableRebuilds == old(advertisableRebuilds) + (if old(CachedFor(nowMs / 1000)) then 0 else 1)
    {
      hide Inv, Protocol.LinkUp, LinkAfterUp, JitterDraw, IsTrimmed, IsArrangement, Ids, Keyed;
      ghost var s := Value();
      var handshake := PexHandshake(PEX_VERSION, cfg.networkId, cfg.interval, cfg.flags);
      var peers := SnapshotFor(peerId, nowMs);
      SnapshotIds(s, peerId, nowMs, peers);

      assert Value() == s;
      var jitter := JitterFor(peerId);
      MarkUp(peerId, peers, nowMs, jitter);
      sent := [handshake, PexSnapshot(peers)];
      UpDone(s, peerId, nowMs, Value(), peers, jitter);
      LinkUpInv(s, peerId, nowMs, Value(), sent);
    }

    // ----- clock -----

    method BuildDelta(peerId: PeerId, nowSecs: nat) returns (added: seq<PeerEntry>, dropped: seq<PeerId>)
      requires Consistent() && peerId in links
      modifies this`advertisableCache, this`advertisableRebuilds
      ensures CacheOk() && CachedFor(nowSecs)
      ensures IsDelta(cfg.Print(), known, AdvertisableTo(known, cfg.localPeerId, peerId, nowSecs),
                      links[peerId].told, added, dropped)
      ensures advertisableRebuilds == old(advertisableRebuilds) + (if old(CachedFor(nowSecs)) then 0 else 1)
    {
      var base := AdvertisableCached(nowSecs);
      var advertIds;
      added, advertIds := ScanAdvertised(cfg.hasher, base, peerId, links[peerId].told,
                                         cfg.Print(), known, AdvertisableIds(known, cfg.localPeerId, nowSecs));
      dropped := ChooseStale(links[peerId].told, advertIds);
    }

    /** Record on the link that `ids` are no longer told. */
    method Untell(link: LinkState, ids: seq<PeerId>)
      modifies link`told
      ensures link.told == old(link.told) - Set(ids)
    {
      for i := 0 to |ids|
        invariant link.told == old(link.told) - Set(ids[..i])
      {
        assert ids[..i + 1] == ids[..i] + [ids[i]];
        assert Set(ids[..i + 1]) == Set(ids[..i]) + {ids[i]};
        link.told := link.told - {ids[i]};
      }
      assert ids[..|ids|] == ids;
    }

    /** Commit the told-state for exactly what was sent. */
    method CommitDelta(link: LinkState, added: seq<PeerEntry>, dropped: seq<PeerId>, nowMs: nat, jitter: nat)
      requires Keyed(known) && IsArrangement(added, known, Ids(added))
      modifies link
      ensures link.Value() == LinkAfterDelta(cfg, known, old(link.Value()), Delta(added, dropped), nowMs, jitter)
    {
      Tell(link, added);
      Untell(link, dropped);
      link.lastDataSendMs := Some(nowMs);
      link.sendJitterMs := jitter;
    }

    /** One link's turn, on its record. */
    method TickRecord(link: LinkState, peerId: PeerId, nowMs: nat, ghost s: Pex) returns (sent: Option<PexMessage>)
      requires Consistent() && peerId in links && links[peerId] == link && s.cfg == cfg && s.known == known
      modifies this`advertisableCache, this`advertisableRebuilds, link
      ensures CacheOk()
      ensures TickTurn(s, nowMs)(peerId, old(link.Value()), link.Value(), sent)
      ensures advertisableRebuilds == old(advertisableRebuilds)
           || (advertisableRebuilds == old(advertisableRebuilds) + 1 && !old(CachedFor(nowMs / 1000)))
      ensures old(CachedFor(nowMs / 1000)) || advertisableRebuilds > old(advertisableRebuilds) ==>
                CachedFor(nowMs / 1000)
    {
      if !link.snapshotSent { return None; }
      var effective := EffectiveIntervalSecs(link.selfIntervalSecs, link.remoteDeclaredSecs);
      var base := link.lastDataSendMs.GetOr(0);
      if !(nowMs >= base + effective * 1000 + link.sendJitterMs) { return None; }

      ghost var l := link.Value();
      var added, dropped := BuildDelta(peerId, nowMs / 1000);
      if added == [] && dropped == [] {
        SilentTurn(s, peerId, nowMs, l);
        return None;
      }
      var jitter := DrawJitter(effective);
      SendingTurn(s, peerId, nowMs, l, Delta(added, dropped), jitter);
      DeltaShape(cfg.Print(), known, AdvertisedTo(s, peerId, nowMs), l.told, added, dropped);
      CommitDelta(link, added, dropped, nowMs, jitter);
      sent := Some(PexDelta(added, dropped));
    }

    method TickLink(peerId: PeerId, nowMs: nat, ghost s: Pex) returns (sent: Option<PexMessage>)
      requires Consistent() && peerId in links && s.cfg == cfg && s.known == known
      modifies this`advertisableCache, this`advertisableRebuilds, links[peerId]
      ensures Consistent()
      ensures TickTurn(s, nowMs)(peerId, old(LinkValues())[peerId], LinkValues()[peerId], sent)
      ensures LinkValues() == old(LinkValues())[peerId := LinkValues()[peerId]]
      ensures advertisableRebuilds == old(advertisableRebuilds)
           || (advertisableRebuilds == old(advertisableRebuilds) + 1 && !old(CachedFor(nowMs / 1000)))
      ensures old(CachedFor(nowMs / 1000)) || advertisableRebuilds > old(advertisableRebuilds) ==>
                CachedFor(nowMs / 1000)
    {
      sent := TickRecord(links[peerId], peerId, nowMs, s);
      OneLinkChanged(peerId);
    }

    method Tick(nowMs: nat) returns (out: seq<(PeerId, PexMessage)>)
      requires Valid()
      modifies this`advertisableCache, this`advertisableRebuilds, Repr
      ensures Valid()
      ensures Protocol.Tick(old(Value()), nowMs, Value(), out)
      ensures advertisableRebuilds <= old(advertisableRebuilds) + 1
    {
      hide Inv;
      ghost var s := Value();
      out := [];
      var todo := links.Keys;
      ghost var sentBy: SentBy := map[];
      while todo != {}
        invariant Consistent() && Walked(TickTurn(s, nowMs), s.links, todo, LinkValues(), sentBy) && Holds(out, sentBy)
        invariant advertisableRebuilds == old(advertisableRebuilds)
               || (advertisableRebuilds == old(advertisableRebuilds) + 1 && CachedFor(nowMs / 1000))
        decreases todo
      {
        var peerId :| peerId in todo;
        ghost var before := LinkValues();
        var sent := TickLink(peerId, nowMs, s);
        WalkStep(TickTurn(s, nowMs), s.links, todo, before, sentBy, peerId, LinkValues()[peerId], sent);
        HoldsStep(out, sentBy, peerId, sent);
        if sent.Some? { out := out + [(peerId, sent.value)]; }
        sentBy := sentBy[peerId := sent];
        todo := todo - {peerId};
      }
      TickDone(s, nowMs, Value(), out, sentBy);
      TickInv(s, nowMs, Value(), out);
    }

    method LinkDown(peerId: PeerId)
      requires Valid()
      modifies this
      ensures Valid() && Repr == old(Repr)
      ensures Value() == Protocol.LinkDown(old(Value()), peerId)
    {
      hide Inv;
      links := links - {peerId};
      hints := map id | id in hints && hints[id].source != peerId :: hints[id];
      assert LinkValues() == old(LinkValues()) - {peerId};
      LinkDownInv(old(Value()), peerId);
    }

    // ----- inbound, on the record of the link the message came on -----

    ghost function LocalOf(link: LinkState): Local
      reads this, link
    {
      Local(link.Value(), hints)
    }

    method FreeMutedLinkState(link: LinkState, peerId: PeerId)
      modifies link`received, this`hints
      ensures link.received == map[] && hints == WithoutSource(old(hints), peerId)
    {
      link.received := map[];
      hints := map id | id in hints && hints[id].source != peerId :: hints[id];
    }

    method Strike(link: LinkState, peerId: PeerId, code: ErrorCode) returns (o: Outcome)
      modifies link, this`hints
      ensures (LocalOf(link), o) == Protocol.Strike(old(LocalOf(link)), peerId, code)
    {
      link.strikes := link.strikes + 1;
      var mute := link.strikes >= PEX_VIOLATION_LIMIT;
      if mute {
        link.muted := true;
        FreeMutedLinkState(link, peerId);
      }
      o := Outcome([PexError(code.AsU16())], [Violation(code.AsU16(), mute)]);
    }

    method MuteMismatch(link: LinkState, peerId: PeerId, code: ErrorCode) returns (o: Outcome)
      modifies link, this`hints
      ensures (LocalOf(link), o) == Protocol.MuteMismatch(old(LocalOf(link)), peerId, code)
    {
      link.muted := true;
      FreeMutedLinkState(link, peerId);
      o := Outcome([PexError(code.AsU16())], [Violation(code.AsU16(), true)]);
    }

    method OnPexError(link: LinkState, code: u16, nowMs: nat) returns (o: Outcome)
      modifies link
      ensures (LocalOf(link), o) == Protocol.OnPexError(old(LocalOf(link)), code, nowMs)
    {
      if code == RateViolation.AsU16() {
        var plausible := link.lastDataSendMs.Some?
          && SaturatingSub(nowMs, link.lastDataSendMs.value) < ArrivalFloorMs(link.selfIntervalSecs);
        var effectiveMs := link.selfIntervalSecs * 1000;
        var rateLimited := link.lastBackoffAppliedMs.Some?
          && SaturatingSub(nowMs, link.lastBackoffAppliedMs.value) < effectiveMs;
        if plausible && !rateLimited {
          link.selfIntervalSecs := ClampInterval(Min(SaturatingDouble(link.selfIntervalSecs), PEX_MAX_INTERVAL));
          link.lastBackoffAppliedMs := Some(nowMs);
        }
      }
      o := NoOutcome;
    }

    method OnHandshake(link: LinkState, peerId: PeerId, version: u32, networkId: Text,
                       declared: u32) returns (o: Outcome)
      modifies link, this`hints
      ensures (LocalOf(link), o) == Protocol.OnHandshake(cfg, old(LocalOf(link)), peerId, version, networkId, declared)
    {
      if link.phase != AwaitingHandshake {
        o := Strike(link, peerId, ProtocolViolation);
      } else if version != PEX_VERSION {
        o := MuteMismatch(link, peerId, UnsupportedVersion);
      } else if networkId != cfg.networkId {
        o := MuteMismatch(link, peerId, ErrorCode.NetworkMismatch);
      } else {
        link.remoteDeclaredSecs := Some(ClampInterval(declared));
        link.phase := AwaitingSnapshot;
        o := NoOutcome;
      }
    }

    method OnSnapshot(link: LinkState, peerId: PeerId, peers: seq<PeerEntry>, nowMs: nat) returns (o: Outcome)
      modifies link, this`hints
      ensures (LocalOf(link), o) == Protocol.OnSnapshot(cfg, old(LocalOf(link)), peerId, peers, nowMs)
    {
      match link.phase {
        case AwaitingHandshake => o := Strike(link, peerId, ProtocolViolation);
        case Streaming => o := Strike(link, peerId, ProtocolViolation);
        case AwaitingSnapshot =>
          if |peers| > PEX_MAX_SNAPSHOT {
            o := Strike(link, peerId, Oversized);
          } else {
            link.phase := Streaming;
            link.lastArrivalMs := Some(nowMs);
            o := IngestAdded(link, peerId, peers, nowMs);
          }
      }
    }

    method OnDelta(link: LinkState, peerId: PeerId, added: seq<PeerEntry>, dropped: seq<PeerId>, nowMs: nat)
      returns (o: Outcome)
      modifies link, this`hints
      ensures (LocalOf(link), o) == Protocol.OnDelta(cfg, old(LocalOf(link)), peerId, added, dropped, nowMs)
    {
      if link.phase != Streaming {
        o := Strike(link, peerId, ProtocolViolation);
        return;
      }
      var floor := ArrivalFloorMs(link.remoteDeclaredSecs.GetOr(0));
      if link.lastArrivalMs.Some? && SaturatingSub(nowMs, link.lastArrivalMs.value) < floor {
        o := Strike(link, peerId, RateViolation);
        return;
      }
      if |added| > PEX_MAX_ADDED || |dropped| > PEX_MAX_DROPPED {
        o := Strike(link, peerId, Oversized);
        return;
      }
      var addedIds := Ids(added);
      SharedId(addedIds, dropped);
      if exists d :: d in dropped && d in addedIds {
        o := Strike(link, peerId, BadMessage);
        return;
      }
      link.lastArrivalMs := Some(nowMs);
      var o1 := IngestAdded(link, peerId, added, nowMs);
      var o2 := IngestDropped(link, peerId, dropped);
      o := Outcome(o1.replies, o1.events + o2.events);
    }

    /** One entry of a batch: skipped silently, or attributed to the link and possibly surfaced. */
    method IngestEntry(link: LinkState, peerId: PeerId, e: PeerEntry, nowMs: nat) returns (surfaced: seq<PeerEntry>)
      modifies link`received, this`hints
      ensures (Inbox(link.received, hints), surfaced)
           == IngestOne(cfg, old(Inbox(link.received, hints)), peerId, e, nowMs)
    {
      var nowSecs := nowMs / 1000;
      if Validate(e, ValidateCtx(cfg.localPeerId, peerId, cfg.networkId, nowSecs)).Some? {
        return [];
      }
      var ce := e.Clamped(nowSecs);
      if ce.peerId !in link.received && |link.received| >= PEX_MAX_RECEIVED_PER_LINK {
        var evicted := EvictOldest(link.received, Seen);
        link.received := evicted;
      }
      link.received := link.received[ce.peerId := ce.lastSeen];
      var fresher := if ce.peerId in hints then ce.lastSeen > hints[ce.peerId].lastSeen else true;
      surfaced := [];
      if fresher {
        if ce.peerId !in hints && |hints| >= PEX_MAX_HINTS {
          var evicted := EvictOldest(hints, HintAge);
          hints := evicted;
        }
        hints := hints[ce.peerId := Hint(peerId, ce.lastSeen)];
        surfaced := [ce];
      }
    }

    method IngestAdded(link: LinkState, peerId: PeerId, entries: seq<PeerEntry>, nowMs: nat) returns (o: Outcome)
      modifies link`received, this`hints
      ensures (LocalOf(link), o) == Protocol.IngestAdded(cfg, old(LocalOf(link)), peerId, entries, nowMs)
    {
      var candidates := [];
      ghost var box := Inbox(link.received, hints);
      for i := 0 to |entries|
        invariant (Inbox(link.received, hints), candidates) == IngestAll(cfg, box, peerId, entries[..i], nowMs)
      {
        assert entries[..i + 1][..i] == entries[..i];
        var more := IngestEntry(link, peerId, entries[i], nowMs);
        candidates := candidates + more;
      }
      assert entries[..|entries|] == entries;
      o := Outcome([], CandidateEvents(candidates));
    }

    /** One dropped id: ignored unless this link told us it. */
    method DropEntry(link: LinkState, peerId: PeerId, id: PeerId) returns (attributed: seq<PeerId>)
      modifies link`received, this`hints
      ensures (Inbox(link.received, hints), attributed) == DropOne(old(Inbox(link.received, hints)), peerId, id)
    {
      var toldUs := id in link.received;
      if !toldUs { return []; }
      link.received := link.received - {id};
      if id in hints && hints[id].source == peerId {
        hints := hints - {id};
      }
      attributed := [id];
    }

    method IngestDropped(link: LinkState, peerId: PeerId, dropped: seq<PeerId>) returns (o: Outcome)
      modifies link`received, this`hints
      ensures (LocalOf(link), o) == Protocol.IngestDropped(old(LocalOf(link)), peerId, dropped)
    {
      var attributed := [];
      ghost var box := Inbox(link.received, hints);
      for i := 0 to |dropped|
        invariant (Inbox(link.received, hints), attributed) == DropAll(box, peerId, dropped[..i])
      {
        assert dropped[..i + 1][..i] == dropped[..i];
        var more := DropEntry(link, peerId, dropped[i]);
        attributed := attributed + more;
      }
      assert dropped[..|dropped|] == dropped;
      o := Outcome([], DroppedEvents(attributed));
    }

    // ----- inbound -----

    method Dispatch(link: LinkState, peerId: PeerId, msg: PexMessage, nowMs: nat) returns (o: Outcome)
      modifies link, this`hints
      ensures (LocalOf(link), o) == Protocol.Dispatch(cfg, old(LocalOf(link)), peerId, msg, nowMs)
    {
      if link.muted { return NoOutcome; }
      match msg {
        case PexError(code) => o := OnPexError(link, code, nowMs);
        case PexHandshake(version, networkId, declared, _) =>
          o := OnHandshake(link, peerId, version, networkId, declared);
        case PexSnapshot(peers) => o := OnSnapshot(link, peerId, peers, nowMs);
        case PexDelta(added, dropped) => o := OnDelta(link, peerId, added, dropped, nowMs);
      }
    }

    method OnMessage(peerId: PeerId, msg: PexMessage, nowMs: nat) returns (o: Outcome)
      requires Valid()
      modifies this, Repr
      ensures Valid() && fresh(Repr - old(Repr))
      ensures (Value(), o) == Protocol.OnMessage(old(Value()), peerId, msg, nowMs)
    {
      hide Inv, Protocol.Dispatch, LinkOr;
      var link := EnsureLink(peerId);
      label ensured:
      o := Dispatch(link, peerId, msg, nowMs);
      OneLinkChanged@ensured(peerId);
      Overwrite(old(LinkValues()), peerId, old@ensured(link.Value()), link.Value());
      OnMessageInv(old(Value()), peerId, msg, nowMs);
    }

    method RecordViolation(peerId: PeerId, code: ErrorCode, nowMs: nat) returns (o: Outcome)
      requires Valid()
      modifies this, Repr
      ensures Valid() && fresh(Repr - old(Repr))
      ensures (Value(), o) == Protocol.RecordViolation(old(Value()), peerId, code)
    {
      hide Inv, Protocol.Strike, LinkOr;
      var link := EnsureLink(peerId);
      label ensured:
      o := Strike(link, peerId, code);
      OneLinkChanged@ensured(peerId);
      Overwrite(old(LinkValues()), peerId, old@ensured(link.Value()), link.Value());
      RecordViolationInv(old(Value()), peerId, code);
    }
  }
}
