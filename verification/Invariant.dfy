/** The global invariant: what every input keeps true of a participant, and what never goes back
    while a link lives. */
module Invariant {
  import opened Basics
  import opened Caps
  import opened Timer
  import opened Payment
  import opened Entry
  import opened Wire
  import opened Bounded
  import opened Advertise
  import opened State
  import opened Protocol

  predicate InRange(secs: u32) { PEX_MIN_INTERVAL <= secs <= PEX_MAX_INTERVAL }

  /** Our interval on a link is the declared one or one a back-off left, and counts for no less. */
  predicate IntervalInv(declared: u32, own: u32) {
    (own == declared || InRange(own)) && ClampInterval(declared) <= ClampInterval(own)
  }

  ghost predicate SenderInv(cfg: Config, p: PeerId, l: Link) {
    && IntervalInv(cfg.interval, l.selfIntervalSecs)
    && (l.snapshotSent <==> l.handshakeSent)
    && (l.snapshotSent <==> l.lastDataSendMs.Some?)
    && (!l.snapshotSent ==> l.told == map[])
    && cfg.localPeerId !in l.told && p !in l.told
  }

  /** Ids that may be attributed to the link to `p`. */
  ghost predicate Attributable(cfg: Config, p: PeerId, id: PeerId) {
    IsHex64(id) && id != cfg.localPeerId && id != p
  }

  ghost predicate ReceivedInv(cfg: Config, p: PeerId, received: map<PeerId, nat>) {
    && |received| <= PEX_MAX_RECEIVED_PER_LINK
    && forall id | id in received :: Attributable(cfg, p, id)
  }

  ghost predicate ReceiverInv(cfg: Config, p: PeerId, l: Link) {
    && (l.strikes >= PEX_VIOLATION_LIMIT ==> l.muted)
    && (l.received != map[] ==> CanSource(l))
    && (l.phase == Streaming <==> l.lastArrivalMs.Some?)
    && (l.phase == AwaitingHandshake <==> l.remoteDeclaredSecs.None?)
    && (l.remoteDeclaredSecs.Some? ==> InRange(l.remoteDeclaredSecs.value))
    && ReceivedInv(cfg, p, l.received)
  }

  /** A live link whose hints and attributions may be held. */
  predicate CanSource(l: Link) { !l.muted && l.phase == Streaming }

  ghost predicate HintInv(cfg: Config, links: map<PeerId, Link>, id: PeerId, h: Hint) {
    && h.source in links && CanSource(links[h.source])
    && Attributable(cfg, h.source, id)
  }

  ghost predicate Inv(s: Pex) {
    && Keyed(s.known) && s.cfg.localPeerId !in s.known
    && (forall p | p in s.links :: SenderInv(s.cfg, p, s.links[p]) && ReceiverInv(s.cfg, p, s.links[p]))
    && |s.hints| <= PEX_MAX_HINTS
    && (forall id | id in s.hints :: HintInv(s.cfg, s.links, id, s.hints[id]))
  }

  /** What never goes back while the link to `p` lives. */
  ghost predicate Advances(l: Link, l': Link) {
    && (l.muted ==> l'.muted)
    && l.phase.Rank() <= l'.phase.Rank()
    && l.strikes <= l'.strikes
    && (l.snapshotSent ==> l'.snapshotSent)
  }

  // ----- intake -----

  /** What an ingest from `p` can do to the hints: keep one as it was, or make `p` its source. */
  ghost predicate HintsFrom(cfg: Config, p: PeerId, before: Hints, after: Hints) {
    && |after| <= PEX_MAX_HINTS
    && forall id | id in after ::
         (id in before && after[id] == before[id]) || (after[id].source == p && Attributable(cfg, p, id))
  }

  lemma ReceivedBounds(cfg: Config, received: map<PeerId, nat>, p: PeerId, id: PeerId, seen: nat)
    requires ReceivedInv(cfg, p, received) && Attributable(cfg, p, id)
    ensures ReceivedInv(cfg, p, BoundedInsert(received, Seen, PEX_MAX_RECEIVED_PER_LINK, id, seen))
  {
    hide BoundedInsert, Attributable;
    BoundedInsertSize(received, Seen, PEX_MAX_RECEIVED_PER_LINK, id, seen);
  }

  lemma HintBounds(cfg: Config, hints: Hints, p: PeerId, id: PeerId, seen: nat, before: Hints)
    requires HintsFrom(cfg, p, before, hints) && Attributable(cfg, p, id)
    ensures HintsFrom(cfg, p, before, BoundedInsert(hints, HintAge, PEX_MAX_HINTS, id, Hint(p, seen)))
  {
    hide BoundedInsert, Attributable;
    BoundedInsertSize(hints, HintAge, PEX_MAX_HINTS, id, Hint(p, seen));
  }

  lemma IngestOneBounds(cfg: Config, box: Inbox, p: PeerId, e: PeerEntry, nowMs: nat, before: Hints)
    requires HintsFrom(cfg, p, before, box.hints) && ReceivedInv(cfg, p, box.received)
    ensures var r := IngestOne(cfg, box, p, e, nowMs).0;
            HintsFrom(cfg, p, before, r.hints) && ReceivedInv(cfg, p, r.received)
  {
    hide BoundedInsert, HintsFrom, ReceivedInv;
    var c := e.Clamped(nowMs / 1000);
    if IsKept(e, IngestCtx(cfg, p, nowMs)) {
      assert Attributable(cfg, p, c.peerId);
      ReceivedBounds(cfg, box.received, p, c.peerId, c.lastSeen);
      HintBounds(cfg, box.hints, p, c.peerId, c.lastSeen, before);
    }
  }

  lemma {:induction false} IngestAllBounds(cfg: Config, box: Inbox, p: PeerId, entries: seq<PeerEntry>, nowMs: nat)
    requires |box.hints| <= PEX_MAX_HINTS && ReceivedInv(cfg, p, box.received)
    ensures var r := IngestAll(cfg, box, p, entries, nowMs).0;
            HintsFrom(cfg, p, box.hints, r.hints) && ReceivedInv(cfg, p, r.received)
  {
    if entries != [] {
      var init, e := entries[..|entries| - 1], entries[|entries| - 1];
      IngestAllBounds(cfg, box, p, init, nowMs);
      IngestOneBounds(cfg, IngestAll(cfg, box, p, init, nowMs).0, p, e, nowMs, box.hints);
    }
  }

  lemma {:induction false} DropAllBounds(cfg: Config, box: Inbox, p: PeerId, ids: seq<PeerId>)
    requires |box.hints| <= PEX_MAX_HINTS && ReceivedInv(cfg, p, box.received)
    ensures var r := DropAll(box, p, ids).0;
            && |r.hints| <= PEX_MAX_HINTS && ReceivedInv(cfg, p, r.received)
            && forall id | id in r.hints :: id in box.hints && r.hints[id] == box.hints[id]
  {
    if ids != [] {
      var init, id := ids[..|ids| - 1], ids[|ids| - 1];
      DropAllBounds(cfg, box, p, init);
      var mid := DropAll(box, p, init).0;
      SubsetSize((mid.received - {id}).Keys, mid.received.Keys);
      SubsetSize((mid.hints - {id}).Keys, mid.hints.Keys);
    }
  }

  // ----- one input -----

  lemma FreshLinkInv(cfg: Config, p: PeerId)
    ensures SenderInv(cfg, p, FreshLink(cfg.interval)) && ReceiverInv(cfg, p, FreshLink(cfg.interval))
  {
  }

  /** What the invariant says of one link, raised or not. */
  lemma LinkInv(s: Pex, p: PeerId)
    requires Inv(s)
    ensures Keyed(s.known)
    ensures SenderInv(s.cfg, p, LinkOr(s, p)) && ReceiverInv(s.cfg, p, LinkOr(s, p))
  {
    FreshLinkInv(s.cfg, p);
  }

  /** Where a hint can come from once the link to `p` has become `x.link`: unchanged from another
      link, or from `p` itself if it still can source. */
  ghost predicate LocalHints(s: Pex, p: PeerId, x: Local) {
    && |x.hints| <= PEX_MAX_HINTS
    && forall id | id in x.hints ::
         if x.hints[id].source == p then CanSource(x.link) && Attributable(s.cfg, p, id)
         else id in s.hints && x.hints[id] == s.hints[id]
  }

  /** What an inbound message has to establish about the link it came on. */
  ghost predicate LocalInv(s: Pex, p: PeerId, x: Local) {
    SenderInv(s.cfg, p, x.link) && ReceiverInv(s.cfg, p, x.link) && LocalHints(s, p, x)
  }

  lemma AtInv(s: Pex, p: PeerId)
    requires Inv(s)
    ensures LocalInv(s, p, At(s, p))
  {
    FreshLinkInv(s.cfg, p);
    forall id | id in s.hints
      ensures s.hints[id].source == p ==> CanSource(LinkOr(s, p)) && Attributable(s.cfg, p, id)
    {
      assert HintInv(s.cfg, s.links, id, s.hints[id]);
    }
  }

  lemma PutInv(s: Pex, p: PeerId, x: Local)
    requires Inv(s) && LocalInv(s, p, x)
    ensures Inv(Put(s, p, x))
  {
    forall id | id in x.hints ensures HintInv(s.cfg, s.links[p := x.link], id, x.hints[id]) {
      if x.hints[id].source != p { assert HintInv(s.cfg, s.links, id, s.hints[id]); }
    }
  }

  lemma MuteInv(s: Pex, p: PeerId, x: Local)
    requires LocalHints(s, p, x) && SenderInv(s.cfg, p, x.link)
    requires ReceiverInv(s.cfg, p, x.link.(muted := true, received := map[]))
    ensures LocalInv(s, p, Mute(x, p))
  {
    SubsetSize(WithoutSource(x.hints, p).Keys, x.hints.Keys);
  }

  lemma StrikeInv(s: Pex, p: PeerId, x: Local, code: ErrorCode)
    requires LocalInv(s, p, x)
    ensures LocalInv(s, p, Strike(x, p, code).0)
  {
    var struck := x.(link := x.link.(strikes := x.link.strikes + 1));
    if struck.link.strikes >= PEX_VIOLATION_LIMIT { MuteInv(s, p, struck); }
  }

  lemma IngestAddedInv(s: Pex, p: PeerId, x: Local, entries: seq<PeerEntry>, nowMs: nat)
    requires LocalInv(s, p, x) && CanSource(x.link)
    ensures LocalInv(s, p, IngestAdded(s.cfg, x, p, entries, nowMs).0)
  {
    IngestAllBounds(s.cfg, InboxOf(x), p, entries, nowMs);
  }

  lemma IngestDroppedInv(s: Pex, p: PeerId, x: Local, ids: seq<PeerId>)
    requires LocalInv(s, p, x) && CanSource(x.link)
    ensures LocalInv(s, p, IngestDropped(x, p, ids).0)
  {
    DropAllBounds(s.cfg, InboxOf(x), p, ids);
  }

  lemma ArriveInv(s: Pex, p: PeerId, x: Local, nowMs: nat)
    requires LocalInv(s, p, x) && !x.link.muted && x.link.phase != AwaitingHandshake
    ensures LocalInv(s, p, Arrive(x, nowMs)) && CanSource(Arrive(x, nowMs).link)
  {
  }

  lemma DispatchInv(s: Pex, p: PeerId, x: Local, msg: PexMessage, nowMs: nat)
    requires LocalInv(s, p, x)
    ensures LocalInv(s, p, Dispatch(s.cfg, x, p, msg, nowMs).0)
  {
    if !x.link.muted {
      match msg
      case PexError(code) =>
      case PexHandshake(version, networkId, declared, _) =>
        StrikeInv(s, p, x, ProtocolViolation);
        if x.link.phase == AwaitingHandshake { MuteInv(s, p, x); }
      case PexSnapshot(peers) =>
        if SnapshotFault(x.link, peers).Some? { StrikeInv(s, p, x, SnapshotFault(x.link, peers).value); }
        else {
          ArriveInv(s, p, x, nowMs);
          IngestAddedInv(s, p, Arrive(x, nowMs), peers, nowMs);
        }
      case PexDelta(added, dropped) =>
        if DeltaFault(x.link, added, dropped, nowMs).Some? {
          StrikeInv(s, p, x, DeltaFault(x.link, added, dropped, nowMs).value);
        } else {
          ArriveInv(s, p, x, nowMs);
          IngestAddedInv(s, p, Arrive(x, nowMs), added, nowMs);
          IngestDroppedInv(s, p, IngestAdded(s.cfg, Arrive(x, nowMs), p, added, nowMs).0, dropped);
        }
    }
  }

  lemma OnMessageInv(s: Pex, p: PeerId, msg: PexMessage, nowMs: nat)
    requires Inv(s)
    ensures Inv(OnMessage(s, p, msg, nowMs).0)
  {
    AtInv(s, p);
    DispatchInv(s, p, At(s, p), msg, nowMs);
    PutInv(s, p, Dispatch(s.cfg, At(s, p), p, msg, nowMs).0);
  }

  lemma RecordViolationInv(s: Pex, p: PeerId, code: ErrorCode)
    requires Inv(s)
    ensures Inv(RecordViolation(s, p, code).0)
  {
    AtInv(s, p);
    StrikeInv(s, p, At(s, p), code);
    PutInv(s, p, Strike(At(s, p), p, code).0);
  }

  lemma LinkDownInv(s: Pex, p: PeerId)
    requires Inv(s)
    ensures Inv(LinkDown(s, p))
  {
    var kept := WithoutSource(s.hints, p);
    SubsetSize(kept.Keys, s.hints.Keys);
    forall id | id in kept ensures HintInv(s.cfg, s.links - {p}, id, kept[id]) {
      assert HintInv(s.cfg, s.links, id, s.hints[id]);
    }
  }

  lemma LinkUpInv(s: Pex, p: PeerId, nowMs: nat, s': Pex, sent: seq<PexMessage>)
    requires Inv(s) && LinkUp(s, p, nowMs, s', sent)
    ensures Inv(s')
  {
    AtInv(s, p);
    SnapshotIds(s, p, nowMs, sent[1].peers);
    PutInv(s, p, Local(s'.links[p], s.hints));
  }

  /** A snapshot lists known, advertisable entries only, in the canonical order. */
  lemma SnapshotIds(s: Pex, p: PeerId, nowMs: nat, peers: seq<PeerEntry>)
    requires Keyed(s.known) && IsSnapshot(s, p, nowMs, peers)
    ensures IsArrangement(peers, s.known, Ids(peers))
    ensures Ids(peers) <= AdvertisedTo(s, p, nowMs) && |peers| <= PEX_MAX_SNAPSHOT
  {
    var adv := AdvertisedTo(s, p, nowMs);
    var all := Arrange(s.known, adv);
    assert peers == all[..|peers|];
    PrefixArranges(all, |peers|, s.known, adv);
  }

  lemma LinkTickInv(s: Pex, p: PeerId, nowMs: nat, l': Link, sent: Option<PexMessage>)
    requires Inv(s) && p in s.links && LinkTick(s, p, nowMs, s.links[p], l', sent)
    ensures SenderInv(s.cfg, p, l') && ReceiverInv(s.cfg, p, l') && l'.phase == s.links[p].phase
    ensures l'.muted == s.links[p].muted && l'.strikes == s.links[p].strikes
    ensures l'.snapshotSent == s.links[p].snapshotSent
  {
    var l := s.links[p];
    if Eligible(l, nowMs) && sent.Some? {
      var adv := AdvertisedTo(s, p, nowMs);
      var d: Delta :| IsDelta(s.cfg.Print(), s.known, adv, l.told, d.added, d.dropped)
        && l' == LinkAfterDelta(s.cfg, s.known, l, d, nowMs, l'.sendJitterMs);
      DeltaShape(s.cfg.Print(), s.known, adv, l.told, d.added, d.dropped);
      CommitClears(s.cfg.Print(), s.known, adv, l.told, Ids(d.added), Set(d.dropped));
    }
  }

  lemma TickInv(s: Pex, nowMs: nat, s': Pex, out: seq<(PeerId, PexMessage)>)
    requires Inv(s) && Tick(s, nowMs, s', out)
    ensures Inv(s')
    ensures forall p | p in s.links :: p in s'.links && Advances(s.links[p], s'.links[p])
  {
    forall p | p in s.links
      ensures SenderInv(s.cfg, p, s'.links[p]) && ReceiverInv(s.cfg, p, s'.links[p])
      ensures CanSource(s.links[p]) == CanSource(s'.links[p]) && Advances(s.links[p], s'.links[p])
    {
      assert LinkTicked(s, nowMs, s', out, p);
      var sent :| LinkTick(s, p, nowMs, s.links[p], s'.links[p], sent);
      LinkTickInv(s, p, nowMs, s'.links[p], sent);
    }
    forall id | id in s'.hints ensures HintInv(s'.cfg, s'.links, id, s'.hints[id]) {
      assert HintInv(s.cfg, s.links, id, s.hints[id]);
    }
  }

  lemma UpsertInv(s: Pex, e: PeerEntry)
    requires Inv(s)
    ensures Inv(UpsertKnown(s, e))
  {
    hide HintInv;
  }

  lemma RemoveInv(s: Pex, id: PeerId)
    requires Inv(s)
    ensures Inv(RemoveKnown(s, id))
  {
    hide HintInv;
  }

  /** Every input keeps the invariant. */
  lemma StepInv(s: Pex, input: Input, s': Pex, effect: Effect)
    requires Inv(s) && Step(s, input, s', effect)
    ensures Inv(s')
  {
    match input
    case DoUpsert(e) => UpsertInv(s, e);
    case DoRemove(id) => RemoveInv(s, id);
    case DoLinkUp(p, at) =>
      var sent :| LinkUp(s, p, at, s', sent) && effect == Effect(Addressed(p, sent), []);
      LinkUpInv(s, p, at, s', sent);
    case DoLinkDown(p) => LinkDownInv(s, p);
    case DoMessage(p, msg, at) => OnMessageInv(s, p, msg, at);
    case DoViolation(p, code, at) => RecordViolationInv(s, p, code);
    case DoTick(at) => TickInv(s, at, s', effect.sends);
  }

  lemma StrikeAdvances(x: Local, p: PeerId, code: ErrorCode)
    ensures Advances(x.link, Strike(x, p, code).0.link)
  {
  }

  lemma DispatchAdvances(cfg: Config, x: Local, p: PeerId, msg: PexMessage, nowMs: nat)
    ensures Advances(x.link, Dispatch(cfg, x, p, msg, nowMs).0.link)
  {
    hide IngestAll, DropAll, Strike, SnapshotFault, DeltaFault, AppliesBackoff, ClampInterval;
    forall code ensures Advances(x.link, Strike(x, p, code).0.link) { StrikeAdvances(x, p, code); }
  }

  lemma PutAdvances(s: Pex, q: PeerId, x: Local, p: PeerId)
    requires p in s.links && Advances(LinkOr(s, q), x.link)
    ensures p in Put(s, q, x).links && Advances(s.links[p], Put(s, q, x).links[p])
  {
  }

  lemma LinkUpAdvances(s: Pex, q: PeerId, nowMs: nat, s': Pex, effect: Effect, p: PeerId)
    requires Keyed(s.known) && Step(s, DoLinkUp(q, nowMs), s', effect) && p in s.links
    ensures p in s'.links && Advances(s.links[p], s'.links[p])
  {
    var sent :| LinkUp(s, q, nowMs, s', sent);
  }

  lemma InboundAdvances(s: Pex, input: Input, s': Pex, effect: Effect, p: PeerId)
    requires Keyed(s.known) && Step(s, input, s', effect) && p in s.links && (input.DoMessage? || input.DoViolation?)
    ensures p in s'.links && Advances(s.links[p], s'.links[p])
  {
    hide Dispatch, Strike, Advances;
    var q := input.peer;
    if input.DoMessage? {
      DispatchAdvances(s.cfg, At(s, q), q, input.msg, input.at);
      PutAdvances(s, q, Dispatch(s.cfg, At(s, q), q, input.msg, input.at).0, p);
    } else {
      StrikeAdvances(At(s, q), q, input.code);
      PutAdvances(s, q, Strike(At(s, q), q, input.code).0, p);
    }
  }

  /** While a link lives, mute is final, the phase only moves forward and strikes are never forgiven. */
  lemma StepAdvances(s: Pex, input: Input, s': Pex, effect: Effect, p: PeerId)
    requires Inv(s) && Step(s, input, s', effect) && p in s.links && input != DoLinkDown(p)
    ensures p in s'.links && Advances(s.links[p], s'.links[p])
  {
    assert Keyed(s.known);
    hide Inv, Dispatch, Strike, LinkUp, Tick, Advances, OnMessage, RecordViolation, UpsertKnown, RemoveKnown, LinkDown;
    match input
    case DoLinkUp(q, at) => LinkUpAdvances(s, q, at, s', effect, p);
    case DoTick(at) => TickInv(s, at, s', effect.sends);
    case DoMessage(_, _, _) => InboundAdvances(s, input, s', effect, p);
    case DoViolation(_, _, _) => InboundAdvances(s, input, s', effect, p);
    case _ => HostLeavesLink(s, input, s', effect, p);
  }

  lemma HostLeavesLink(s: Pex, input: Input, s': Pex, effect: Effect, p: PeerId)
    requires Keyed(s.known) && Step(s, input, s', effect) && p in s.links && input != DoLinkDown(p)
    requires input.DoUpsert? || input.DoRemove? || input.DoLinkDown?
    ensures p in s'.links && Advances(s.links[p], s'.links[p])
  {
  }

  /** The invariant holds in every state a run reaches. */
  lemma {:induction false} RunInv(run: Trace, n: nat)
    requires run.IsRun() && n <= |run.inputs| && Inv(run.states[0])
    ensures Inv(run.states[n])
  {
    hide Inv, Step;
    if n > 0 {
      RunInv(run, n - 1);
      RunStep(run, n);
      StepInv(run.states[n - 1], run.inputs[n - 1], run.states[n], run.effects[n - 1]);
    }
  }

  /** Over a stretch of a run in which the link is not torn down, mute is final and so on. */
  lemma {:induction false} RunAdvances(run: Trace, p: PeerId, m: nat, n: nat)
    requires run.IsRun() && m <= n <= |run.inputs| && Inv(run.states[0])
    requires p in run.states[m].links && forall i | m <= i < n :: run.inputs[i] != DoLinkDown(p)
    ensures p in run.states[n].links && Advances(run.states[m].links[p], run.states[n].links[p])
  {
    hide Inv, Step;
    if m < n {
      RunAdvances(run, p, m, n - 1);
      RunInv(run, n - 1);
      RunStep(run, n);
      StepAdvances(run.states[n - 1], run.inputs[n - 1], run.states[n], run.effects[n - 1], p);
    }
  }

  // ----- what a violation event says -----

  /** The event reports the direction as muted exactly when it is, except for a transport violation on a
      direction already muted for a version or network mismatch and still short of the strike limit:
      there the event says `mute: false` of a muted direction. */
  lemma ViolationReportsMute(s: Pex, p: PeerId, code: ErrorCode)
    requires Inv(s)
    ensures var (r, o) := RecordViolation(s, p, code);
            && o.replies == [PexError(code.AsU16())]
            && (o.events == [Violation(code.AsU16(), r.links[p].muted)]
                <==> !(LinkOr(s, p).muted && LinkOr(s, p).strikes + 1 < PEX_VIOLATION_LIMIT))
  {
    FreshLinkInv(s.cfg, p);
  }

  /** Such a direction exists: one handshake from another network, then one undecodable frame. */
  lemma MutedDirectionReportedUnmuted(cfg: Config, p: PeerId, other: Text, nowMs: nat)
    requires other != cfg.networkId
    ensures var s := OnMessage(Pex(cfg, map[], map[], map[]), p, PexHandshake(PEX_VERSION, other, 60, []), nowMs).0;
            var (r, o) := RecordViolation(s, p, BadMessage);
            r.links[p].muted && o.events == [Violation(1, false)]
  {
  }
}
