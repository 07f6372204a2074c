/** What a batch of entries or ids amounts to: the junk in it counts for nothing, what is surfaced is
    recent and third-party, and an id can be reported dropped only as often as it was brought in. */
module Attribution {
  import opened Basics
  import opened Caps
  import opened Payment
  import opened Entry
  import opened Wire
  import opened Bounded
  import opened Advertise
  import opened Protocol
  import opened Invariant
  import opened Sides

  // ----- junk -----

  function KeptOnly(entries: seq<PeerEntry>, ctx: ValidateCtx): seq<PeerEntry> {
    if entries == [] then []
    else
      var e := entries[|entries| - 1];
      KeptOnly(entries[..|entries| - 1], ctx) + (if IsKept(e, ctx) then [e] else [])
  }

  /** A batch does what it would do with every entry that fails validation left out. */
  lemma {:induction false} JunkIsTransparent(cfg: Config, box: Inbox, p: PeerId, entries: seq<PeerEntry>, nowMs: nat)
    ensures IngestAll(cfg, box, p, entries, nowMs)
         == IngestAll(cfg, box, p, KeptOnly(entries, IngestCtx(cfg, p, nowMs)), nowMs)
  {
    hide IsKept, IngestKept;
    if entries != [] {
      var ctx := IngestCtx(cfg, p, nowMs);
      var init, e := entries[..|entries| - 1], entries[|entries| - 1];
      JunkIsTransparent(cfg, box, p, init, nowMs);
      var before := KeptOnly(init, ctx);
      if IsKept(e, ctx) {
        assert (before + [e])[..|before|] == before;
      } else {
        var surfaced := IngestAll(cfg, box, p, init, nowMs).1;
        assert before + [] == before && surfaced + [] == surfaced;
      }
    }
  }

  // ----- candidates -----

  /** Dated within the last half hour, and about neither end of the link. */
  ghost predicate Surfaceable(cfg: Config, p: PeerId, nowMs: nat, e: PeerEntry) {
    && e.lastSeen <= nowMs / 1000 <= e.lastSeen + PEX_MAX_ENTRY_AGE
    && Attributable(cfg, p, e.peerId)
  }

  lemma {:induction false} SurfacedAreRecent(cfg: Config, box: Inbox, p: PeerId, entries: seq<PeerEntry>, nowMs: nat)
    ensures forall e | e in IngestAll(cfg, box, p, entries, nowMs).1 :: Surfaceable(cfg, p, nowMs, e)
  {
    hide IsKept, BoundedInsert;
    if entries != [] {
      var e := entries[|entries| - 1];
      SurfacedAreRecent(cfg, box, p, entries[..|entries| - 1], nowMs);
      if IsKept(e, IngestCtx(cfg, p, nowMs)) {
        KeptEntryIsBounded(e, IngestCtx(cfg, p, nowMs), PaymentClaim([], [], []));
      }
    }
  }

  /** Every candidate a step reports is recent and third-party, and came in on an unmuted link. */
  lemma CandidatesAreRecent(s: Pex, input: Input, s': Pex, effect: Effect, peers: seq<PeerEntry>, e: PeerEntry)
    requires Keyed(s.known) && Step(s, input, s', effect) && Candidates(peers) in effect.events && e in peers
    ensures input.DoMessage? && IsData(input.msg) && !LinkOr(s, input.peer).muted
    ensures Surfaceable(s.cfg, input.peer, input.at, e)
  {
    hide IngestAll, DropAll, Surfaceable;
    if input.DoMessage? && IsData(input.msg) {
      var box := InboxOf(At(s, input.peer));
      SurfacedAreRecent(s.cfg, box, input.peer, EntriesIn(input.msg), input.at);
    }
  }

  // ----- drops -----

  /** The ids of a list that are attributed to the link, each at its first mention. */
  function FirstMentions(ids: seq<PeerId>, received: set<PeerId>): seq<PeerId> {
    if ids == [] then []
    else
      var init, id := ids[..|ids| - 1], ids[|ids| - 1];
      FirstMentions(init, received) + (if id in received && id !in init then [id] else [])
  }

  lemma {:induction false} FirstMentionsListed(ids: seq<PeerId>, received: set<PeerId>)
    ensures var listed := FirstMentions(ids, received);
            && (forall id :: id in listed <==> id in ids && id in received)
            && (forall i, j | 0 <= i < j < |listed| :: listed[i] != listed[j])
  {
    if ids != [] {
      var init, id := ids[..|ids| - 1], ids[|ids| - 1];
      FirstMentionsListed(init, received);
      assert ids == init + [id];
    }
  }

  /** A list of drops takes away exactly the ids it names, forgets the hints of the attributed ones
      exactly where this link is the source, and reports each attributed id once. */
  lemma {:induction false} DropsAttributed(box: Inbox, p: PeerId, ids: seq<PeerId>)
    ensures var (after, listed) := DropAll(box, p, ids);
            && (forall id :: id in after.received <==> id in box.received && id !in ids)
            && (forall id | id in after.received :: after.received[id] == box.received[id])
            && (forall id :: id in after.hints <==>
                  id in box.hints && !(id in ids && id in box.received && box.hints[id].source == p))
            && (forall id | id in after.hints :: after.hints[id] == box.hints[id])
            && listed == FirstMentions(ids, box.received.Keys)
  {
    if ids != [] {
      var init, id := ids[..|ids| - 1], ids[|ids| - 1];
      DropsAttributed(box, p, init);
      assert ids == init + [id];
    }
  }

  // ----- drops over runs -----

  /** The step brings a valid entry about `id` in from `p`. */
  ghost predicate BringsIn(s: Pex, input: Input, p: PeerId, id: PeerId) {
    && input.DoMessage? && input.peer == p
    && (AdmitsSnapshot(LinkOr(s, p), input, p) || AdmitsDelta(LinkOr(s, p), input, p))
    && exists e: PeerEntry :: e in EntriesIn(input.msg) && e.peerId == id && IsKept(e, IngestCtx(s.cfg, p, input.at))
  }

  lemma {:induction false} IngestAttributes(cfg: Config, box: Inbox, p: PeerId, entries: seq<PeerEntry>,
                                            nowMs: nat, id: PeerId)
    requires |box.received| <= PEX_MAX_RECEIVED_PER_LINK
    requires id in IngestAll(cfg, box, p, entries, nowMs).0.received
    ensures |IngestAll(cfg, box, p, entries, nowMs).0.received| <= PEX_MAX_RECEIVED_PER_LINK
    ensures id in box.received || exists e :: e in entries && e.peerId == id && IsKept(e, IngestCtx(cfg, p, nowMs))
  {
    hide IsKept, BoundedInsert;
    if entries != [] {
      var init, e := entries[..|entries| - 1], entries[|entries| - 1];
      IngestSize(cfg, box, p, init, nowMs);
      var mid := IngestAll(cfg, box, p, init, nowMs).0;
      var c := e.Clamped(nowMs / 1000);
      BoundedInsertSize(mid.received, Seen, PEX_MAX_RECEIVED_PER_LINK, c.peerId, c.lastSeen);
      if id in mid.received { IngestAttributes(cfg, box, p, init, nowMs, id); }
    }
  }

  lemma {:induction false} IngestSize(cfg: Config, box: Inbox, p: PeerId, entries: seq<PeerEntry>, nowMs: nat)
    requires |box.received| <= PEX_MAX_RECEIVED_PER_LINK
    ensures |IngestAll(cfg, box, p, entries, nowMs).0.received| <= PEX_MAX_RECEIVED_PER_LINK
  {
    hide IsKept, BoundedInsert;
    if entries != [] {
      var init, e := entries[..|entries| - 1], entries[|entries| - 1];
      IngestSize(cfg, box, p, init, nowMs);
      var c := e.Clamped(nowMs / 1000);
      BoundedInsertSize(IngestAll(cfg, box, p, init, nowMs).0.received, Seen, PEX_MAX_RECEIVED_PER_LINK,
                        c.peerId, c.lastSeen);
    }
  }

  /** Only bringing an id in attributes it to a link. */
  lemma NewlyReceived(s: Pex, input: Input, s': Pex, effect: Effect, p: PeerId, id: PeerId)
    requires Inv(s) && Step(s, input, s', effect)
    ensures id in LinkOr(s', p).received ==> id in LinkOr(s, p).received || BringsIn(s, input, p, id)
  {
    hide Inv, Dispatch, SenderInv, BringsIn;
    LinkInv(s, p);
    match input
    case DoMessage(q, msg, at) =>
      if q == p { ReceivedOnMessage(s, p, msg, at, id); } else { StepKeepsReceiver(s, input, s', effect, p); }
    case DoViolation(q, _, _) =>
      if q != p { StepKeepsReceiver(s, input, s', effect, p); }
    case DoLinkDown(q) =>
      if q != p { StepKeepsReceiver(s, input, s', effect, p); }
    case _ => StepKeepsReceiver(s, input, s', effect, p);
  }

  lemma ReceivedOnMessage(s: Pex, p: PeerId, msg: PexMessage, nowMs: nat, id: PeerId)
    requires |LinkOr(s, p).received| <= PEX_MAX_RECEIVED_PER_LINK
    ensures id in LinkOr(OnMessage(s, p, msg, nowMs).0, p).received ==>
              id in LinkOr(s, p).received || BringsIn(s, DoMessage(p, msg, nowMs), p, id)
  {
    hide OnMessage, BringsIn;
    match msg
    case PexSnapshot(peers) => SnapshotBrings(s, p, peers, nowMs, id);
    case PexDelta(added, dropped) => DeltaBrings(s, p, added, dropped, nowMs, id);
    case _ => ControlBringsNone(s, p, msg, nowMs, id);
  }

  lemma ControlBringsNone(s: Pex, p: PeerId, msg: PexMessage, nowMs: nat, id: PeerId)
    requires !IsData(msg)
    ensures id in LinkOr(OnMessage(s, p, msg, nowMs).0, p).received ==> id in LinkOr(s, p).received
  {
    hide WithoutSource, AppliesBackoff, Strike;
    forall code ensures id in Strike(At(s, p), p, code).0.link.received ==> id in LinkOr(s, p).received {
      StrikeBringsNone(At(s, p), p, code, id);
    }
  }

  lemma StrikeBringsNone(x: Local, p: PeerId, code: ErrorCode, id: PeerId)
    ensures id in Strike(x, p, code).0.link.received ==> id in x.link.received
  {
  }

  lemma SnapshotBrings(s: Pex, p: PeerId, peers: seq<PeerEntry>, nowMs: nat, id: PeerId)
    requires |LinkOr(s, p).received| <= PEX_MAX_RECEIVED_PER_LINK
    ensures id in LinkOr(OnMessage(s, p, PexSnapshot(peers), nowMs).0, p).received ==>
              id in LinkOr(s, p).received || BringsIn(s, DoMessage(p, PexSnapshot(peers), nowMs), p, id)
  {
    hide IngestAll, IsKept;
    var box := InboxOf(At(s, p));
    if id in IngestAll(s.cfg, box, p, peers, nowMs).0.received { IngestAttributes(s.cfg, box, p, peers, nowMs, id); }
  }

  lemma DeltaBrings(s: Pex, p: PeerId, added: seq<PeerEntry>, dropped: seq<PeerId>, nowMs: nat, id: PeerId)
    requires |LinkOr(s, p).received| <= PEX_MAX_RECEIVED_PER_LINK
    ensures id in LinkOr(OnMessage(s, p, PexDelta(added, dropped), nowMs).0, p).received ==>
              id in LinkOr(s, p).received || BringsIn(s, DoMessage(p, PexDelta(added, dropped), nowMs), p, id)
  {
    hide IngestAll, DropAll, IsKept, DeltaFault;
    var box := InboxOf(At(s, p));
    var after := IngestAll(s.cfg, box, p, added, nowMs).0;
    DropsAttributed(after, p, dropped);
    if id in after.received { IngestAttributes(s.cfg, box, p, added, nowMs, id); }
  }

  /** The step reports `id` dropped by `p`. */
  ghost predicate ReportsDrop(input: Input, effect: Effect, p: PeerId, id: PeerId) {
    input.DoMessage? && input.peer == p && exists ids :: Dropped(ids) in effect.events && id in ids
  }

  lemma NotNamedTwice(added: seq<PeerEntry>, dropped: seq<PeerId>, id: PeerId)
    requires Ids(added) * Set(dropped) == {} && id in dropped
    ensures forall e | e in added :: e.peerId != id
  {
    forall e | e in added ensures e.peerId != id {
      assert e.peerId in Ids(added);
      assert e.peerId == id ==> id in Ids(added) * Set(dropped);
    }
  }

  /** A drop is reported only of an id attributed to the link before the message, not named again in
      it, and gone after it. */
  lemma DropIsAttributed(s: Pex, input: Input, s': Pex, effect: Effect, p: PeerId, id: PeerId)
    requires Inv(s) && Step(s, input, s', effect) && ReportsDrop(input, effect, p, id)
    ensures id in LinkOr(s, p).received && id !in LinkOr(s', p).received && !BringsIn(s, input, p, id)
  {
    hide Inv, Addressed, SenderInv;
    LinkInv(s, p);
    DropOnMessage(s, p, input.msg, input.at, id);
  }

  lemma DropOnMessage(s: Pex, p: PeerId, msg: PexMessage, nowMs: nat, id: PeerId)
    requires |LinkOr(s, p).received| <= PEX_MAX_RECEIVED_PER_LINK
    requires exists ids :: Dropped(ids) in OnMessage(s, p, msg, nowMs).1.events && id in ids
    ensures id in LinkOr(s, p).received && id !in LinkOr(OnMessage(s, p, msg, nowMs).0, p).received
    ensures !BringsIn(s, DoMessage(p, msg, nowMs), p, id)
  {
    OnlyDeltasDrop(s.cfg, At(s, p), p, msg, nowMs);
    DeltaDrops(s, p, msg.added, msg.dropped, nowMs, id);
    assert msg == PexDelta(msg.added, msg.dropped);
    hide OnMessage, BringsIn, DeltaFault;
  }

  lemma DeltaDrops(s: Pex, p: PeerId, added: seq<PeerEntry>, dropped: seq<PeerId>, nowMs: nat, id: PeerId)
    requires |LinkOr(s, p).received| <= PEX_MAX_RECEIVED_PER_LINK
    requires !LinkOr(s, p).muted && DeltaFault(LinkOr(s, p), added, dropped, nowMs) == None
    ensures var (s', o) := OnMessage(s, p, PexDelta(added, dropped), nowMs);
            (exists ids :: Dropped(ids) in o.events && id in ids) ==>
              && id in LinkOr(s, p).received && id !in LinkOr(s', p).received
              && !BringsIn(s, DoMessage(p, PexDelta(added, dropped), nowMs), p, id)
  {
    DeltaLetIn(s, p, added, dropped, nowMs);
    DeltaBoxes(s.cfg, InboxOf(At(s, p)), p, added, dropped, nowMs, id);
    hide OnMessage, IngestAll, DropAll, IsKept, DeltaFault, Ids;
  }

  /** What a delta that is let in does to `received`, and the one list of drops it can report. */
  lemma DeltaLetIn(s: Pex, p: PeerId, added: seq<PeerEntry>, dropped: seq<PeerId>, nowMs: nat)
    requires !LinkOr(s, p).muted && DeltaFault(LinkOr(s, p), added, dropped, nowMs) == None
    ensures var (s', o) := OnMessage(s, p, PexDelta(added, dropped), nowMs);
            var (after, listed) := DropAll(IngestAll(s.cfg, InboxOf(At(s, p)), p, added, nowMs).0, p, dropped);
            LinkOr(s', p).received == after.received && forall ids | Dropped(ids) in o.events :: ids == listed
  {
    hide IngestAll, DropAll, DeltaFault;
  }

  lemma DeltaBoxes(cfg: Config, box: Inbox, p: PeerId, added: seq<PeerEntry>, dropped: seq<PeerId>, nowMs: nat,
                   id: PeerId)
    requires |box.received| <= PEX_MAX_RECEIVED_PER_LINK && Ids(added) * Set(dropped) == {}
    ensures var (after, listed) := DropAll(IngestAll(cfg, box, p, added, nowMs).0, p, dropped);
            id in listed ==>
              id in box.received && id !in after.received && forall e | e in added :: e.peerId != id
  {
    hide IngestAll, DropAll, IsKept, Ids, Set;
    var mid := IngestAll(cfg, box, p, added, nowMs).0;
    DropsAttributed(mid, p, dropped);
    FirstMentionsListed(dropped, mid.received.Keys);
    if id in dropped && id in mid.received {
      NotNamedTwice(added, dropped, id);
      IngestAttributes(cfg, box, p, added, nowMs, id);
    }
  }

  lemma OnlyDeltasDrop(cfg: Config, x: Local, p: PeerId, msg: PexMessage, nowMs: nat)
    requires exists ids :: Dropped(ids) in Dispatch(cfg, x, p, msg, nowMs).1.events
    ensures msg.PexDelta? && !x.link.muted && DeltaFault(x.link, msg.added, msg.dropped, nowMs) == None
  {
    hide IngestAll, DropAll;
  }

  lemma {:induction false} AttributedBetween(run: Trace, p: PeerId, m: nat, n: nat, id: PeerId)
    requires run.IsRun() && m <= n <= |run.inputs| && Inv(run.states[0])
    requires id !in LinkOr(run.states[m], p).received && id in LinkOr(run.states[n], p).received
    ensures exists k: nat :: m <= k < n && BringsIn(run.states[k], run.inputs[k], p, id)
  {
    hide Inv, Step, BringsIn;
    if id in LinkOr(run.states[n - 1], p).received {
      AttributedBetween(run, p, m, n - 1, id);
    } else {
      RunInv(run, n - 1);
      RunStep(run, n);
      NewlyReceived(run.states[n - 1], run.inputs[n - 1], run.states[n], run.effects[n - 1], p, id);
    }
  }

  /** Between any two reports that a link dropped an id, the link brought the id in again. */
  lemma DropsAlternate(run: Trace, p: PeerId, i: nat, j: nat, id: PeerId)
    requires run.IsRun() && i < j < |run.inputs| && Inv(run.states[0])
    requires ReportsDrop(run.inputs[i], run.effects[i], p, id) && ReportsDrop(run.inputs[j], run.effects[j], p, id)
    ensures exists k: nat :: i < k < j && BringsIn(run.states[k], run.inputs[k], p, id)
  {
    hide Inv, Step, BringsIn, ReportsDrop;
    RunInv(run, i);
    RunStep(run, i + 1);
    DropIsAttributed(run.states[i], run.inputs[i], run.states[i + 1], run.effects[i], p, id);
    RunInv(run, j);
    RunStep(run, j + 1);
    DropIsAttributed(run.states[j], run.inputs[j], run.states[j + 1], run.effects[j], p, id);
    AttributedBetween(run, p, i + 1, j, id);
  }
}
