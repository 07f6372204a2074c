/** What the operations do, said of fields, dates, bytes and numbers alone: nothing here leans on what is
    elsewhere called fresh, before, plausible or a handshake. */
module Operations {
  import opened Basics
  import opened Timer
  import opened Entry
  import opened Wire
  import opened Advertise
  import opened State
  import opened Protocol
  import opened Invariant
  import opened Sides

  // ----- what is told -----

  /** A known third party, dated no more than 1800 s before the clock. */
  predicate Tellable(s: Pex, p: PeerId, at: nat, id: PeerId) {
    id in s.known && id != s.cfg.localPeerId && id != p && at / 1000 <= s.known[id].lastSeen + 1800
  }

  lemma TellableIffAdvertised(s: Pex, p: PeerId, at: nat, id: PeerId)
    requires Keyed(s.known)
    ensures Tellable(s, p, at, id) <==> id in AdvertisedTo(s, p, at)
  {
  }

  /** The entries as they are known, from the latest date to the earliest, ids in alphabetical order within
      one date. */
  ghost predicate FreshestFirst(s: Pex, entries: seq<PeerEntry>) {
    && (forall e | e in entries :: e.peerId in s.known && s.known[e.peerId] == e)
    && forall i, j | 0 <= i < j < |entries| ::
         entries[i].lastSeen > entries[j].lastSeen
         || (entries[i].lastSeen == entries[j].lastSeen && Alphabetical(entries[i].peerId, entries[j].peerId))
  }

  ghost predicate Lists(entries: seq<PeerEntry>, id: PeerId) { exists e :: e in entries && e.peerId == id }

  /** Every entry of the list is of a later date than what is known of `left`, or of the same date and its id
      comes first. */
  ghost predicate AllBefore(s: Pex, entries: seq<PeerEntry>, left: PeerId)
    requires left in s.known
  {
    forall e | e in entries ::
      e.lastSeen > s.known[left].lastSeen || (e.lastSeen == s.known[left].lastSeen && Alphabetical(e.peerId, left))
  }

  lemma ListsIds(entries: seq<PeerEntry>, id: PeerId)
    ensures Lists(entries, id) <==> id in Ids(entries)
  {
  }

  lemma ArrangedFreshestFirst(s: Pex, entries: seq<PeerEntry>, ids: set<PeerId>)
    requires IsArrangement(entries, s.known, ids)
    ensures FreshestFirst(s, entries)
  {
    ArrangementDescends(entries, s.known, ids);
  }

  /** A prefix of an arrangement outranks whatever it leaves out. */
  lemma PrefixBefore(s: Pex, all: seq<PeerEntry>, n: nat, ids: set<PeerId>, left: PeerId)
    requires IsArrangement(all, s.known, ids) && n <= |all| && left in ids && !Lists(all[..n], left)
    ensures left in s.known && AllBefore(s, all[..n], left)
  {
    ListsIds(all[..n], left);
    var j := InIds(all, left);
    assert all[j] in all;
    forall e | e in all[..n]
      ensures e.lastSeen > s.known[left].lastSeen
              || (e.lastSeen == s.known[left].lastSeen && Alphabetical(e.peerId, left))
    {
      PrefixOutranks(all, n, s.known, ids, e, left);
      assert e in all;
      BeforeInNumbers(e, s.known[left]);
    }
  }

  // ----- raising a link -----

  /** The snapshot holds the freshest of all that may be told. It stops at 200 entries, or where the next
      freshest would take the frame past its budget, or at the end. */
  ghost predicate SnapshotSays(s: Pex, p: PeerId, at: nat, peers: seq<PeerEntry>) {
    && FreshestFirst(s, peers) && |peers| <= 200
    && (forall e | e in peers :: Tellable(s, p, at, e.peerId))
    && (forall left | Tellable(s, p, at, left) && !Lists(peers, left) :: AllBefore(s, peers, left))
    && (|peers| == 200
        || (forall id | Tellable(s, p, at, id) :: Lists(peers, id))
        || exists next :: NextTooLong(s, p, at, peers, next))
  }

  /** The next freshest after `peers`, which the frame budget has no room for. */
  ghost predicate NextTooLong(s: Pex, p: PeerId, at: nat, peers: seq<PeerEntry>, next: PeerEntry) {
    && Tellable(s, p, at, next.peerId) && !Lists(peers, next.peerId) && FreshestFirst(s, peers + [next])
    && !WithinBudget(s.cfg.encoder, peers + [next])
    && forall left | Tellable(s, p, at, left) && !Lists(peers + [next], left) :: AllBefore(s, peers + [next], left)
  }

  lemma SnapshotTells(s: Pex, p: PeerId, at: nat, peers: seq<PeerEntry>)
    requires Keyed(s.known) && IsSnapshot(s, p, at, peers)
    ensures SnapshotSays(s, p, at, peers)
  {
    var all := Arrange(s.known, AdvertisedTo(s, p, at));
    assert peers == all[..|peers|] && IsTrimmed(s.cfg.encoder, Take(all, 200), peers) && |peers| <= 200;
    hide IsSnapshot, IsTrimmed, AdvertisedTo, IsArrangement, FreshestFirst, AllBefore, Tellable, Lists, NextTooLong;
    SnapshotLists(s, p, at, all, |peers|);
    if |peers| < 200 && |peers| < |all| {
      NextIsTooLong(s, p, at, all, |peers|);
      assert NextTooLong(s, p, at, peers, all[|peers|]);
    } else if |peers| < 200 {
      assert peers == all;
      AllListed(s, p, at, all);
    }
  }

  /** Any prefix of the arrangement lists the freshest of all that may be told. */
  lemma SnapshotLists(s: Pex, p: PeerId, at: nat, all: seq<PeerEntry>, n: nat)
    requires Keyed(s.known) && IsArrangement(all, s.known, AdvertisedTo(s, p, at)) && n <= |all|
    ensures FreshestFirst(s, all[..n])
    ensures forall e | e in all[..n] :: Tellable(s, p, at, e.peerId)
    ensures forall left | Tellable(s, p, at, left) && !Lists(all[..n], left) ::
              left in s.known && AllBefore(s, all[..n], left)
  {
    var adv := AdvertisedTo(s, p, at);
    PrefixArranges(all, n, s.known, adv);
    ArrangedFreshestFirst(s, all[..n], Ids(all[..n]));
    hide IsArrangement, AdvertisedTo, FreshestFirst, AllBefore, Tellable;
    forall e | e in all[..n] ensures Tellable(s, p, at, e.peerId) {
      assert e.peerId in Ids(all[..n]);
      TellableIffAdvertised(s, p, at, e.peerId);
    }
    forall left | Tellable(s, p, at, left) && !Lists(all[..n], left)
      ensures left in s.known && AllBefore(s, all[..n], left)
    {
      TellableIffAdvertised(s, p, at, left);
      PrefixBefore(s, all, n, adv, left);
    }
  }

  lemma AllListed(s: Pex, p: PeerId, at: nat, all: seq<PeerEntry>)
    requires Keyed(s.known) && IsArrangement(all, s.known, AdvertisedTo(s, p, at))
    ensures forall id | Tellable(s, p, at, id) :: Lists(all, id)
  {
    hide AdvertisedTo, Tellable, Lists, Ids;
    forall id | Tellable(s, p, at, id) ensures Lists(all, id) {
      TellableIffAdvertised(s, p, at, id);
      ListsIds(all, id);
    }
  }

  /** The entry the budget cut first. */
  lemma NextCut(s: Pex, p: PeerId, at: nat, all: seq<PeerEntry>, n: nat)
    requires Keyed(s.known) && IsArrangement(all, s.known, AdvertisedTo(s, p, at)) && n < 200 && n < |all|
    requires IsTrimmed(s.cfg.encoder, Take(all, 200), all[..n])
    ensures var next := all[n];
            && Tellable(s, p, at, next.peerId) && !Lists(all[..n], next.peerId)
            && !WithinBudget(s.cfg.encoder, all[..n] + [next])
  {
    var next, adv := all[n], AdvertisedTo(s, p, at);
    assert next in all && next.peerId in Ids(all);
    TellableIffAdvertised(s, p, at, next.peerId);
    PrefixArranges(all, n, s.known, adv);
    ListsIds(all[..n], next.peerId);
    hide IsArrangement, AdvertisedTo, Tellable, Lists, WithinBudget, Ids;
    CutAfter(s.cfg.encoder, all, n);
  }

  lemma NextIsTooLong(s: Pex, p: PeerId, at: nat, all: seq<PeerEntry>, n: nat)
    requires Keyed(s.known) && IsArrangement(all, s.known, AdvertisedTo(s, p, at)) && n < 200 && n < |all|
    requires IsTrimmed(s.cfg.encoder, Take(all, 200), all[..n])
    ensures NextTooLong(s, p, at, all[..n], all[n])
  {
    hide IsTrimmed, AdvertisedTo, IsArrangement, FreshestFirst, AllBefore, Lists, WithinBudget, Keyed, Tellable;
    NextCut(s, p, at, all, n);
    SnapshotLists(s, p, at, all, n + 1);
    assert all[..n + 1] == all[..n] + [all[n]];
  }

  lemma CutAfter(encoder: Encoder, all: seq<PeerEntry>, n: nat)
    requires n < 200 && n < |all| && IsTrimmed(encoder, Take(all, 200), all[..n])
    ensures !WithinBudget(encoder, all[..n] + [all[n]])
  {
    hide WithinBudget;
    assert |all[..n]| == n;
    assert Take(all, 200)[..n + 1] == all[..n + 1] == all[..n] + [all[n]];
    assert all[..n] < Take(all, 200);
  }

  /** What the link has been told is what it had been, overwritten by the content of these entries. */
  ghost predicate ToldThese(cfg: Config, told: Told, peers: seq<PeerEntry>, dropped: seq<PeerId>, told': Told) {
    && (forall id :: id in told' <==> (id in told || Lists(peers, id)) && id !in dropped)
    && forall id | id in told' ::
         if Lists(peers, id) then exists e: PeerEntry :: e in peers && e.peerId == id && told'[id] == cfg.Print()(e)
         else told'[id] == told[id]
  }

  lemma CommitTells(s: Pex, told: Told, peers: seq<PeerEntry>, dropped: seq<PeerId>)
    requires forall e | e in peers :: e.peerId in s.known && s.known[e.peerId] == e
    ensures ToldThese(s.cfg, told, peers, dropped, ToldAfter(s.cfg.Print(), s.known, told, peers, dropped))
  {
    hide FingerprintStream;
  }

  /** The link after it was raised: both flags set, our own interval back to the configured one, the clock
      read, a jitter of at most a tenth of the interval in force, or none where jitter is off, and the rest as
      it was. */
  ghost predicate RaisedTo(cfg: Config, l: Link, at: nat, peers: seq<PeerEntry>, l': Link) {
    && l'.handshakeSent && l'.snapshotSent && l'.selfIntervalSecs == cfg.interval && l'.lastDataSendMs == Some(at)
    && ToldThese(cfg, l.told, peers, [], l'.told)
    && l'.sendJitterMs <= (if cfg.jitter then EffectiveIntervalSecs(cfg.interval, l.remoteDeclaredSecs) * 100 else 0)
    && l'.lastBackoffAppliedMs == l.lastBackoffAppliedMs && ReceiverOf(l') == ReceiverOf(l)
  }

  /** A link comes up with two messages: a handshake that carries version 1 and the network, the interval and
      the flags configured, and a snapshot of the freshest; and nothing moves but the link. */
  lemma LinkUpSays(s: Pex, p: PeerId, at: nat, s': Pex, effect: Effect)
    requires Keyed(s.known) && Step(s, DoLinkUp(p, at), s', effect)
    ensures exists peers: seq<PeerEntry> ::
              && effect == Effect([(p, PexHandshake(1, s.cfg.networkId, s.cfg.interval, s.cfg.flags)),
                                   (p, PexSnapshot(peers))], [])
              && SnapshotSays(s, p, at, peers) && p in s'.links
              && RaisedTo(s.cfg, LinkOr(s, p), at, peers, s'.links[p]) && s' == s.(links := s.links[p := s'.links[p]])
  {
    var sent: seq<PexMessage> :| LinkUp(s, p, at, s', sent) && effect == Effect(Addressed(p, sent), []);
    var peers := sent[1].peers;
    SnapshotTells(s, p, at, peers);
    RaisedLink(s, p, at, s', sent);
    assert sent == [sent[0], PexSnapshot(peers)];
    assert effect.sends
        == [(p, PexHandshake(1, s.cfg.networkId, s.cfg.interval, s.cfg.flags)), (p, PexSnapshot(peers))];
    hide SnapshotSays, RaisedTo, IsSnapshot;
  }

  lemma NothingDropped(fp: Print, known: Known, told: Told, peers: seq<PeerEntry>)
    ensures ToldAfter(fp, known, told, peers, []) == told + Fingerprints(fp, known, Ids(peers))
  {
    assert Set<PeerId>([]) == {};
  }

  lemma SnapshotKnown(s: Pex, p: PeerId, at: nat, peers: seq<PeerEntry>)
    requires Keyed(s.known) && IsSnapshot(s, p, at, peers)
    ensures forall e | e in peers :: e.peerId in s.known && s.known[e.peerId] == e
  {
    SnapshotIds(s, p, at, peers);
  }

  lemma RaisedLink(s: Pex, p: PeerId, at: nat, s': Pex, sent: seq<PexMessage>)
    requires Keyed(s.known) && LinkUp(s, p, at, s', sent)
    ensures RaisedTo(s.cfg, LinkOr(s, p), at, sent[1].peers, s'.links[p])
  {
    hide Fingerprints, IsSnapshot, ToldAfter, LinkOr;
    var l, peers := LinkOr(s, p), sent[1].peers;
    SnapshotKnown(s, p, at, peers);
    CommitTells(s, l.told, peers, []);
    NothingDropped(s.cfg.Print(), s.known, l.told, peers);
    hide ToldThese, Keyed;
  }

  // ----- a clock tick -----

  /** To be told: not told yet, or told with other content. */
  predicate Unsaid(s: Pex, p: PeerId, at: nat, told: Told, id: PeerId) {
    Tellable(s, p, at, id) && (id !in told || told[id] != s.cfg.Print()(s.known[id]))
  }

  /** To be taken back: told, and no longer to be told. */
  predicate Outdated(s: Pex, p: PeerId, at: nat, told: Told, id: PeerId) { id in told && !Tellable(s, p, at, id) }

  /** A delta adds the freshest of what is still unsaid, fifty at most and fewer only if that is all; and it
      drops outdated ids, in alphabetical order, fifty at most and fewer only if that is all. */
  ghost predicate DeltaSays(s: Pex, p: PeerId, at: nat, told: Told, d: Delta) {
    && FreshestFirst(s, d.added) && |d.added| <= 50
    && (forall e | e in d.added :: Unsaid(s, p, at, told, e.peerId))
    && (forall left | Unsaid(s, p, at, told, left) && !Lists(d.added, left) ::
          |d.added| == 50 && AllBefore(s, d.added, left))
    && |d.dropped| <= 50
    && (forall i, j | 0 <= i < j < |d.dropped| :: Alphabetical(d.dropped[i], d.dropped[j]))
    && (forall id | id in d.dropped :: Outdated(s, p, at, told, id))
    && (forall id | Outdated(s, p, at, told, id) && id !in d.dropped :: |d.dropped| == 50)
  }

  lemma UnsaidIffPending(s: Pex, p: PeerId, at: nat, told: Told, id: PeerId)
    requires Keyed(s.known)
    ensures Unsaid(s, p, at, told, id) <==> id in PendingIds(s.cfg.Print(), s.known, AdvertisedTo(s, p, at), told)
    ensures Outdated(s, p, at, told, id) <==> id in StaleIds(AdvertisedTo(s, p, at), told)
  {
    TellableIffAdvertised(s, p, at, id);
    hide AdvertisedTo, Tellable;
  }

  lemma DeltaTells(s: Pex, p: PeerId, at: nat, told: Told, d: Delta)
    requires Keyed(s.known) && IsDelta(s.cfg.Print(), s.known, AdvertisedTo(s, p, at), told, d.added, d.dropped)
    ensures DeltaSays(s, p, at, told, d)
  {
    AddedSays(s, p, at, told, d);
    DroppedSays(s, p, at, told, d);
    hide FreshestFirst, AllBefore, IsDelta;
  }

  lemma AddedSays(s: Pex, p: PeerId, at: nat, told: Told, d: Delta)
    requires Keyed(s.known) && IsDelta(s.cfg.Print(), s.known, AdvertisedTo(s, p, at), told, d.added, d.dropped)
    ensures FreshestFirst(s, d.added) && |d.added| <= 50
    ensures forall e | e in d.added :: Unsaid(s, p, at, told, e.peerId)
    ensures forall left | Unsaid(s, p, at, told, left) && !Lists(d.added, left) ::
              |d.added| == 50 && left in s.known && AllBefore(s, d.added, left)
  {
    var pending := PendingIds(s.cfg.Print(), s.known, AdvertisedTo(s, p, at), told);
    var all := Arrange(s.known, pending);
    var n := |d.added|;
    assert d.added == all[..n] && (n < 50 ==> d.added == all) && n <= 50;
    forall id ensures Unsaid(s, p, at, told, id) <==> id in pending { UnsaidIffPending(s, p, at, told, id); }
    hide IsDelta, AdvertisedTo, PendingIds, Unsaid;
    PrefixArranges(all, n, s.known, pending);
    ArrangedFreshestFirst(s, d.added, Ids(d.added));
    forall e | e in d.added ensures Unsaid(s, p, at, told, e.peerId) { assert e.peerId in Ids(d.added); }
    forall left | Unsaid(s, p, at, told, left) && !Lists(d.added, left)
      ensures n == 50 && left in s.known && AllBefore(s, d.added, left)
    {
      ListsIds(d.added, left);
      PrefixBefore(s, all, n, pending, left);
    }
  }

  lemma DroppedSays(s: Pex, p: PeerId, at: nat, told: Told, d: Delta)
    requires Keyed(s.known) && IsDelta(s.cfg.Print(), s.known, AdvertisedTo(s, p, at), told, d.added, d.dropped)
    ensures |d.dropped| <= 50
    ensures forall i, j | 0 <= i < j < |d.dropped| :: Alphabetical(d.dropped[i], d.dropped[j])
    ensures forall id | id in d.dropped :: Outdated(s, p, at, told, id)
    ensures forall id | Outdated(s, p, at, told, id) && id !in d.dropped :: |d.dropped| == 50
  {
    var stale := StaleIds(AdvertisedTo(s, p, at), told);
    forall id ensures Outdated(s, p, at, told, id) <==> id in stale { UnsaidIffPending(s, p, at, told, id); }
    forall i, j | 0 <= i < j < |d.dropped| ensures Alphabetical(d.dropped[i], d.dropped[j]) {
      TextLessIsAlphabetical(d.dropped[i], d.dropped[j]);
    }
    DeltaShape(s.cfg.Print(), s.known, AdvertisedTo(s, p, at), told, d.added, d.dropped);
    hide AdvertisedTo, Outdated, StaleIds;
    assert forall id | id in d.dropped :: id in Set(d.dropped);
    SubsetSize(Set(d.dropped), stale);
  }

  /** When the largest of our interval, the remote's declaration and 30 s has gone by since the last data
      message, and the jitter on top; never on a link without a snapshot. */
  predicate IsDue(l: Link, at: nat) {
    l.snapshotSent
    && at >= l.lastDataSendMs.GetOr(0) + EffectiveIntervalSecs(l.selfIntervalSecs, l.remoteDeclaredSecs) * 1000
             + l.sendJitterMs
  }

  /** The link after a delta: the clock read, a new jitter, and told what the delta says. */
  ghost predicate ToldBy(cfg: Config, l: Link, at: nat, d: Delta, l': Link) {
    && l' == l.(told := l'.told, lastDataSendMs := Some(at), sendJitterMs := l'.sendJitterMs)
    && ToldThese(cfg, l.told, d.added, d.dropped, l'.told)
    && l'.sendJitterMs
       <= (if cfg.jitter then EffectiveIntervalSecs(l.selfIntervalSecs, l.remoteDeclaredSecs) * 100 else 0)
  }

  ghost predicate NothingToSay(s: Pex, p: PeerId, at: nat, told: Told) {
    forall id :: !Unsaid(s, p, at, told, id) && !Outdated(s, p, at, told, id)
  }

  /** One delta if the link is due and there is something to say, and otherwise nothing, and the link as it
      was. */
  ghost predicate TurnTaken(s: Pex, p: PeerId, at: nat, l: Link, l': Link, sent: seq<PexMessage>) {
    if IsDue(l, at) && !NothingToSay(s, p, at, l.told)
    then exists d: Delta :: sent == [PexDelta(d.added, d.dropped)] && DeltaSays(s, p, at, l.told, d)
                            && ToldBy(s.cfg, l, at, d, l')
    else sent == [] && l' == l
  }

  /** A tick gives every link its turn, reports nothing and moves nothing else. */
  lemma TickSays(s: Pex, p: PeerId, at: nat, s': Pex, effect: Effect)
    requires Keyed(s.known) && Step(s, DoTick(at), s', effect)
    ensures TurnTaken(s, p, at, LinkOr(s, p), LinkOr(s', p), SentTo(effect.sends, p))
    ensures effect.events == [] && s' == s.(links := s'.links) && s'.links.Keys == s.links.Keys
  {
    hide TurnTaken, SentTo, LinkOr, LinkTicked;
    TurnOf(s, p, at, s', effect.sends);
  }

  lemma TurnOf(s: Pex, p: PeerId, at: nat, s': Pex, out: seq<(PeerId, PexMessage)>)
    requires Keyed(s.known) && Tick(s, at, s', out)
    ensures TurnTaken(s, p, at, LinkOr(s, p), LinkOr(s', p), SentTo(out, p))
  {
    hide Tick, LinkTick, TurnTaken, SentTo, LinkOr, Keyed;
    var sent := TickOneLink(s, at, s', out, p);
    TurnSays(s, p, at, LinkOr(s, p), LinkOr(s', p), sent);
  }

  /** One link's turn. */
  lemma TurnSays(s: Pex, p: PeerId, at: nat, l: Link, l': Link, sent: Option<PexMessage>)
    requires Keyed(s.known) && LinkTick(s, p, at, l, l', sent)
    ensures TurnTaken(s, p, at, l, l', AsSeq(sent))
  {
    assert Eligible(l, at) <==> IsDue(l, at);
    if IsDue(l, at) {
      hide IsDue, Eligible, IsDelta, JitterDraw, LinkAfterDelta, NothingToSay, DeltaSays, ToldBy;
      var d: Delta :| IsDelta(s.cfg.Print(), s.known, AdvertisedTo(s, p, at), l.told, d.added, d.dropped)
        && (if d == Delta([], []) then l' == l && sent == None
            else sent == Some(PexDelta(d.added, d.dropped)) && JitterDraw(s.cfg, Effective(l), l'.sendJitterMs)
                 && l' == LinkAfterDelta(s.cfg, s.known, l, d, at, l'.sendJitterMs));
      hide LinkTick;
      DeltaTells(s, p, at, l.told, d);
      SilentIffEmpty(s, p, at, l.told, d);
      if d != Delta([], []) { DeltaTold(s, p, at, l, d, l'); }
    }
  }

  lemma DeltaTold(s: Pex, p: PeerId, at: nat, l: Link, d: Delta, l': Link)
    requires DeltaSays(s, p, at, l.told, d) && JitterDraw(s.cfg, Effective(l), l'.sendJitterMs)
    requires l' == LinkAfterDelta(s.cfg, s.known, l, d, at, l'.sendJitterMs)
    ensures ToldBy(s.cfg, l, at, d, l')
  {
    AddedKnown(s, p, at, l.told, d);
    hide DeltaSays, ToldAfter;
    CommitTells(s, l.told, d.added, d.dropped);
    hide ToldThese;
  }

  lemma AddedKnown(s: Pex, p: PeerId, at: nat, told: Told, d: Delta)
    requires DeltaSays(s, p, at, told, d)
    ensures forall e | e in d.added :: e.peerId in s.known && s.known[e.peerId] == e
  {
  }

  lemma SilentIffEmpty(s: Pex, p: PeerId, at: nat, told: Told, d: Delta)
    requires DeltaSays(s, p, at, told, d)
    ensures d == Delta([], []) <==> NothingToSay(s, p, at, told)
  {
    if d == Delta([], []) {
      forall id ensures !Unsaid(s, p, at, told, id) && !Outdated(s, p, at, told, id) {
        assert !Lists(d.added, id) && id !in d.dropped;
      }
    } else if d.added != [] {
      assert Unsaid(s, p, at, told, d.added[0].peerId);
    } else {
      assert Outdated(s, p, at, told, d.dropped[0]);
    }
  }

  // ----- jitter -----

  function Rejittered(s: Pex, p: PeerId, jitter: nat): Pex
    requires p in s.links
  {
    s.(links := s.links[p := s.links[p].(sendJitterMs := jitter)])
  }

  /** Where jitter is on, any of the values up to a tenth of the interval in force may be drawn: when a link
      comes up, and when a tick sends a delta on it. */
  lemma AnyJitterOnLinkUp(s: Pex, p: PeerId, at: nat, s': Pex, effect: Effect, jitter: nat)
    requires Keyed(s.known) && Step(s, DoLinkUp(p, at), s', effect) && s.cfg.jitter && p in s'.links
    requires jitter <= EffectiveIntervalSecs(s.cfg.interval, LinkOr(s, p).remoteDeclaredSecs) * 100
    ensures Step(s, DoLinkUp(p, at), Rejittered(s', p, jitter), effect)
  {
    hide LinkUp, Rejittered;
    var sent: seq<PexMessage> :| LinkUp(s, p, at, s', sent) && effect == Effect(Addressed(p, sent), []);
    UpRejittered(s, p, at, s', sent, jitter);
  }

  lemma UpRejittered(s: Pex, p: PeerId, at: nat, s': Pex, sent: seq<PexMessage>, jitter: nat)
    requires Keyed(s.known) && LinkUp(s, p, at, s', sent) && s.cfg.jitter
    requires jitter <= EffectiveIntervalSecs(s.cfg.interval, LinkOr(s, p).remoteDeclaredSecs) * 100
    ensures p in s'.links && LinkUp(s, p, at, Rejittered(s', p, jitter), sent)
  {
    hide IsSnapshot, Fingerprints, EffectiveIntervalSecs, LinkOr, Keyed;
    var l := LinkAfterUp(s.cfg, s.known, LinkOr(s, p), sent[1].peers, at, s'.links[p].sendJitterMs);
    PutTwice(s.links, p, l, l.(sendJitterMs := jitter));
  }

  lemma PutTwice(links: map<PeerId, Link>, p: PeerId, l: Link, l': Link)
    ensures links[p := l][p := l'] == links[p := l']
  {
  }

  lemma AnyJitterOnTick(s: Pex, p: PeerId, at: nat, s': Pex, effect: Effect, jitter: nat)
    requires Keyed(s.known) && Step(s, DoTick(at), s', effect) && s.cfg.jitter && p in s'.links
    requires SentTo(effect.sends, p) != []
    requires jitter <= EffectiveIntervalSecs(LinkOr(s, p).selfIntervalSecs, LinkOr(s, p).remoteDeclaredSecs) * 100
    ensures Step(s, DoTick(at), Rejittered(s', p, jitter), effect)
  {
    hide LinkTicked, SentTo, EffectiveIntervalSecs;
    var t, out := Rejittered(s', p, jitter), effect.sends;
    assert p in s.links && LinkOr(s, p) == s.links[p] && t.links.Keys == s.links.Keys;
    TurnRejittered(s, p, at, s', out, jitter);
    forall q | q in s.links ensures LinkTicked(s, at, t, out, q) {
      if q != p { TurnKept(s, q, at, s', t, out); }
    }
  }

  lemma TurnKept(s: Pex, q: PeerId, at: nat, s': Pex, t: Pex, out: seq<(PeerId, PexMessage)>)
    requires Keyed(s.known) && q in s.links && q in s'.links && q in t.links && t.links[q] == s'.links[q]
    requires LinkTicked(s, at, s', out, q)
    ensures LinkTicked(s, at, t, out, q)
  {
    hide LinkTick, SentTo, Keyed;
  }

  lemma TurnRejittered(s: Pex, p: PeerId, at: nat, s': Pex, out: seq<(PeerId, PexMessage)>, jitter: nat)
    requires Keyed(s.known) && p in s.links && p in s'.links && LinkTicked(s, at, s', out, p) && SentTo(out, p) != []
    requires s.cfg.jitter && jitter <= Effective(s.links[p]) * 100
    ensures LinkTicked(s, at, Rejittered(s', p, jitter), out, p)
  {
    hide SentTo, LinkTick;
    var sent :| LinkTick(s, p, at, s.links[p], s'.links[p], sent) && SentTo(out, p) == AsSeq(sent);
    TickRejittered(s, p, at, s.links[p], s'.links[p], sent, jitter);
    assert Rejittered(s', p, jitter).links[p] == s'.links[p].(sendJitterMs := jitter);
  }

  lemma TickRejittered(s: Pex, p: PeerId, at: nat, l: Link, l': Link, sent: Option<PexMessage>, jitter: nat)
    requires Keyed(s.known) && LinkTick(s, p, at, l, l', sent) && sent.Some?
    requires s.cfg.jitter && jitter <= Effective(l) * 100
    ensures LinkTick(s, p, at, l, l'.(sendJitterMs := jitter), sent)
  {
    hide IsDelta, ToldAfter, Effective, Eligible, AdvertisedTo, Keyed;
  }
}
