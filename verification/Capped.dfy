/** The two capped accumulators over runs: what a link's `received` and the hints across all links come to,
    seen offline. */
module Capped {
  import opened Basics
  import opened Caps
  import opened Entry
  import opened Wire
  import opened Bounded
  import opened Advertise
  import opened Protocol
  import opened Invariant
  import opened Sides
  import opened History
  import opened Attribution

  // ----- one batch -----

  /** What a batch inserts: the kept entries, dated as clamped. */
  function ArrivalsOf(entries: seq<PeerEntry>, ctx: ValidateCtx): seq<Arrival> {
    if entries == [] then []
    else
      var e := entries[|entries| - 1];
      ArrivalsOf(entries[..|entries| - 1], ctx)
      + (if IsKept(e, ctx) then [Arrival(e.peerId, e.Clamped(ctx.nowSecs).lastSeen)] else [])
  }

  lemma FillOne(cap: nat, xs: seq<Arrival>, x: Arrival)
    ensures Fill(cap, xs + [x]) == BoundedInsert(Fill(cap, xs), Seen, cap, x.id, x.lastSeen)
  {
    assert (xs + [x])[..|xs|] == xs;
  }

  /** `received` is filled one arrival at a time, across batches. */
  lemma {:induction false} ReceivedFills(cfg: Config, box: Inbox, p: PeerId, entries: seq<PeerEntry>, nowMs: nat,
                                         xs: seq<Arrival>)
    requires box.received == Fill(PEX_MAX_RECEIVED_PER_LINK, xs)
    ensures IngestAll(cfg, box, p, entries, nowMs).0.received
         == Fill(PEX_MAX_RECEIVED_PER_LINK, xs + ArrivalsOf(entries, IngestCtx(cfg, p, nowMs)))
  {
    hide IsKept, Fill, BoundedInsert, Fresher;
    var ctx := IngestCtx(cfg, p, nowMs);
    if entries != [] {
      var init, e := entries[..|entries| - 1], entries[|entries| - 1];
      ReceivedFills(cfg, box, p, init, nowMs, xs);
      if IsKept(e, ctx) {
        var x := Arrival(e.peerId, e.Clamped(ctx.nowSecs).lastSeen);
        FillOne(PEX_MAX_RECEIVED_PER_LINK, xs + ArrivalsOf(init, ctx), x);
        assert xs + ArrivalsOf(entries, ctx) == xs + ArrivalsOf(init, ctx) + [x];
      } else {
        assert xs + ArrivalsOf(entries, ctx) == xs + ArrivalsOf(init, ctx);
      }
    } else {
      assert xs + ArrivalsOf([], ctx) == xs;
    }
  }

  function Ages(hints: Hints): map<PeerId, nat> { map id | id in hints :: hints[id].lastSeen }

  lemma SameOldest(hints: Hints)
    requires hints != map[]
    ensures Ages(hints) != map[] && OldestKey(Ages(hints), Seen) == OldestKey(hints, HintAge)
  {
    assert Ages(hints).Keys == hints.Keys;
    var k := OldestKey(hints, HintAge);
    assert k in Ages(hints);
    forall j | j in Ages(hints) && j != k ensures OlderIn(Ages(hints), Seen, k, j) {
      assert OlderIn(hints, HintAge, k, j);
    }
    OldestUnique(Ages(hints), Seen, k, OldestKey(Ages(hints), Seen));
  }

  lemma AgesOfInsert(hints: Hints, gone: set<PeerId>, id: PeerId, h: Hint)
    ensures Ages((hints - gone)[id := h]) == (Ages(hints) - gone)[id := h.lastSeen]
    ensures Ages(hints).Keys == hints.Keys && |Ages(hints)| == |hints|
  {
    assert Ages(hints).Keys == hints.Keys;
    assert |hints| == |hints.Keys|;
    assert |Ages(hints)| == |Ages(hints).Keys|;
  }

  /** Evicting by the date a hint carries is evicting by date. */
  lemma InsertAges(hints: Hints, id: PeerId, h: Hint)
    ensures Ages(BoundedInsert(hints, HintAge, PEX_MAX_HINTS, id, h))
         == BoundedInsert(Ages(hints), Seen, PEX_MAX_HINTS, id, h.lastSeen)
  {
    hide OldestKey, Ages;
    if id !in hints && |hints| >= PEX_MAX_HINTS {
      AgesOfInsert(hints, {OldestKey(hints, HintAge)}, id, h);
      SameOldest(hints);
    } else {
      AgesOfInsert(hints, {}, id, h);
      assert hints - {} == hints && Ages(hints) - {} == Ages(hints);
    }
  }

  lemma {:induction false} HintsFill(cfg: Config, box: Inbox, p: PeerId, entries: seq<PeerEntry>, nowMs: nat,
                                     xs: seq<Arrival>)
    requires Ages(box.hints) == Fill(PEX_MAX_HINTS, xs)
    requires DistinctArrivals(xs + ArrivalsOf(entries, IngestCtx(cfg, p, nowMs)))
    ensures Ages(IngestAll(cfg, box, p, entries, nowMs).0.hints)
         == Fill(PEX_MAX_HINTS, xs + ArrivalsOf(entries, IngestCtx(cfg, p, nowMs)))
  {
    var ctx := IngestCtx(cfg, p, nowMs);
    if entries != [] {
      var init, e := entries[..|entries| - 1], entries[|entries| - 1];
      var before := xs + ArrivalsOf(init, ctx);
      if IsKept(e, ctx) {
        var x := Arrival(e.peerId, e.Clamped(ctx.nowSecs).lastSeen);
        assert xs + ArrivalsOf(entries, ctx) == before + [x];
        assert (before + [x])[..|before|] == before;
        assert DistinctArrivals(before) && x.id !in Everything(before);
        hide IsKept, Fill, BoundedInsert, DistinctArrivals, Everything, IsTopK;
        HintsFill(cfg, box, p, init, nowMs, xs);
        var mid := IngestAll(cfg, box, p, init, nowMs).0.hints;
        Unseen(before, mid, x.id);
        FillOne(PEX_MAX_HINTS, before, x);
        InsertAges(mid, x.id, Hint(p, x.lastSeen));
      } else {
        assert xs + ArrivalsOf(entries, ctx) == before;
        hide IsKept, Fill, BoundedInsert, DistinctArrivals;
        HintsFill(cfg, box, p, init, nowMs, xs);
      }
    } else {
      assert xs + ArrivalsOf([], ctx) == xs;
    }
  }

  lemma Unseen(xs: seq<Arrival>, hints: Hints, id: PeerId)
    requires DistinctArrivals(xs) && Ages(hints) == Fill(PEX_MAX_HINTS, xs) && id !in Everything(xs)
    ensures id !in hints
  {
    hide Fill;
    FillIsTopK(PEX_MAX_HINTS, xs);
    assert id in hints ==> id in Ages(hints);
  }

  lemma {:induction false} DistinctBefore(xs: seq<Arrival>, ys: seq<Arrival>)
    requires DistinctArrivals(xs + ys)
    ensures DistinctArrivals(xs)
  {
    hide Everything;
    if ys == [] {
      assert xs + ys == xs;
    } else {
      assert (xs + ys)[..|xs + ys| - 1] == xs + ys[..|ys| - 1];
      DistinctBefore(xs, ys[..|ys| - 1]);
    }
  }

  // ----- runs -----

  /** What a step brings in; from `p`, if a link is given. */
  ghost function Brought(s: Pex, input: Input, from: Option<PeerId>): seq<Arrival> {
    match Batch(s, input)
    case None => []
    case Some((p, entries, at)) =>
      if from == None || from == Some(p) then ArrivalsOf(entries, IngestCtx(s.cfg, p, at)) else []
  }

  /** What steps `m` to `n` bring in. */
  ghost function BroughtIn(run: Trace, from: Option<PeerId>, m: nat, n: nat): seq<Arrival>
    requires run.IsRun() && m <= n <= |run.inputs|
  {
    if m == n then []
    else BroughtIn(run, from, m, n - 1) + Brought(run.states[n - 1], run.inputs[n - 1], from)
  }

  predicate ReportsNoDrop(effect: Effect) { forall e | e in effect.events :: !e.Dropped? }

  /** What is let in is ingested whole, and a delta that reports no drop takes nothing away. */
  lemma BatchTaken(s: Pex, input: Input, s': Pex, effect: Effect)
    requires Keyed(s.known) && Step(s, input, s', effect) && ReportsNoDrop(effect) && Batch(s, input).Some?
    ensures var (p, entries, at) := Batch(s, input).value;
            InboxOf(At(s', p)) == IngestAll(s.cfg, InboxOf(At(s, p)), p, entries, at).0
  {
    var (p, entries, at) := Batch(s, input).value;
    assert input == DoMessage(p, input.msg, at);
    var (x, o) := Dispatch(s.cfg, At(s, p), p, input.msg, at);
    assert At(s', p) == x && effect.events == o.events;
    if input.msg.PexSnapshot? {
      SnapshotTaken(s.cfg, At(s, p), p, entries, at);
    } else {
      hide Batch, Step, Dispatch;
      DeltaTaken(s.cfg, At(s, p), p, entries, input.msg.dropped, at);
    }
  }

  lemma SnapshotTaken(cfg: Config, x: Local, p: PeerId, peers: seq<PeerEntry>, at: nat)
    requires !x.link.muted && SnapshotFault(x.link, peers) == None
    ensures InboxOf(Dispatch(cfg, x, p, PexSnapshot(peers), at).0) == IngestAll(cfg, InboxOf(x), p, peers, at).0
  {
    hide IngestAll, SnapshotFault;
  }

  lemma DeltaTaken(cfg: Config, x: Local, p: PeerId, added: seq<PeerEntry>, dropped: seq<PeerId>, at: nat)
    requires !x.link.muted && DeltaFault(x.link, added, dropped, at) == None
    requires forall e | e in Dispatch(cfg, x, p, PexDelta(added, dropped), at).1.events :: !e.Dropped?
    ensures InboxOf(Dispatch(cfg, x, p, PexDelta(added, dropped), at).0) == IngestAll(cfg, InboxOf(x), p, added, at).0
  {
    hide IngestAll, DropAll, DeltaFault;
    var (box, surfaced) := IngestAll(cfg, InboxOf(x), p, added, at);
    var (after, listed) := DropAll(box, p, dropped);
    assert DroppedEvents(listed) != [] ==> Dropped(listed) in CandidateEvents(surfaced) + DroppedEvents(listed);
    NothingDropped(box, p, dropped);
  }

  lemma NothingDropped(box: Inbox, p: PeerId, ids: seq<PeerId>)
    requires DropAll(box, p, ids).1 == []
    ensures DropAll(box, p, ids).0 == box
  {
    hide DropAll;
    DropsAttributed(box, p, ids);
    FirstMentionsListed(ids, box.received.Keys);
  }

  // ----- received -----

  /** Whatever else comes in, a link that is neither torn down nor muted keeps what it told us. */
  lemma ReceivedKept(s: Pex, input: Input, s': Pex, effect: Effect, p: PeerId)
    requires Inv(s) && Step(s, input, s', effect) && input != DoLinkDown(p) && !LinkOr(s', p).muted
    requires Batch(s, input).None? || Batch(s, input).value.0 != p
    ensures LinkOr(s', p).received == LinkOr(s, p).received
  {
    assert Keyed(s.known);
    hide Inv, Step, Batch;
    if (input.DoMessage? || input.DoViolation?) && input.peer == p {
      InboundKeeps(s, input, s', effect, p);
    } else {
      OthersKeep(s, input, s', effect, p);
    }
  }

  lemma OthersKeep(s: Pex, input: Input, s': Pex, effect: Effect, p: PeerId)
    requires Keyed(s.known) && Step(s, input, s', effect) && input != DoLinkDown(p)
    requires input.DoMessage? || input.DoViolation? ==> input.peer != p
    ensures LinkOr(s', p).received == LinkOr(s, p).received
  {
    hide Step;
    StepKeepsReceiver(s, input, s', effect, p);
    assert ReceiverOf(LinkOr(s', p)).received == ReceiverOf(LinkOr(s, p)).received;
  }

  lemma InboundKeeps(s: Pex, input: Input, s': Pex, effect: Effect, p: PeerId)
    requires Keyed(s.known) && Step(s, input, s', effect) && !LinkOr(s', p).muted
    requires (input.DoMessage? || input.DoViolation?) && input.peer == p
    requires Batch(s, input).None? || Batch(s, input).value.0 != p
    ensures LinkOr(s', p).received == LinkOr(s, p).received
  {
    hide Dispatch, Strike;
    if input.DoMessage? {
      FaultKeeps(s, p, input.msg, input.at);
    } else {
      StrikeKeeps(At(s, p), p, input.code);
    }
  }

  lemma StrikeKeeps(x: Local, p: PeerId, code: ErrorCode)
    ensures Strike(x, p, code).0.link.muted || Strike(x, p, code).0.link.received == x.link.received
  {
  }

  lemma FaultKeeps(s: Pex, p: PeerId, msg: PexMessage, at: nat)
    requires Batch(s, DoMessage(p, msg, at)) == None
    ensures var l' := Dispatch(s.cfg, At(s, p), p, msg, at).0.link;
            l'.muted || l'.received == LinkOr(s, p).received
  {
    hide Strike, IngestAll, DropAll, DeltaFault, SnapshotFault, AppliesBackoff;
    forall code
      ensures Strike(At(s, p), p, code).0.link.muted
              || Strike(At(s, p), p, code).0.link.received == LinkOr(s, p).received
    {
      StrikeKeeps(At(s, p), p, code);
    }
  }

  lemma StaysUnmuted(s: Pex, input: Input, s': Pex, effect: Effect, p: PeerId)
    requires Inv(s) && Step(s, input, s', effect) && input != DoLinkDown(p) && !LinkOr(s', p).muted
    ensures !LinkOr(s, p).muted
  {
    hide Inv, Step;
    if p in s.links { StepAdvances(s, input, s', effect, p); }
  }

  /** Steps `m` to `n` leave the link to `p` up, report no drop by it, and end with it unmuted. */
  ghost predicate Undropped(run: Trace, p: PeerId, m: nat, n: nat)
    requires run.IsRun()
  {
    && Inv(run.states[0]) && m <= n <= |run.inputs| && !LinkOr(run.states[n], p).muted
    && (forall i | m <= i < n :: run.inputs[i] != DoLinkDown(p))
    && (forall i | m <= i < n && run.inputs[i].DoMessage? && run.inputs[i].peer == p :: ReportsNoDrop(run.effects[i]))
  }

  lemma UndroppedStep(run: Trace, p: PeerId, m: nat, n: nat)
    requires run.IsRun() && Undropped(run, p, m, n) && m < n
    ensures Undropped(run, p, m, n - 1) && run.inputs[n - 1] != DoLinkDown(p)
    ensures run.inputs[n - 1].DoMessage? && run.inputs[n - 1].peer == p ==> ReportsNoDrop(run.effects[n - 1])
    ensures Inv(run.states[n - 1]) && !LinkOr(run.states[n], p).muted
  {
    hide Inv, Step, ReportsNoDrop;
    RunInv(run, n - 1);
    RunStep(run, n);
    StaysUnmuted(run.states[n - 1], run.inputs[n - 1], run.states[n], run.effects[n - 1], p);
  }

  lemma {:induction false} RunFillsReceived(run: Trace, p: PeerId, m: nat, n: nat)
    requires run.IsRun() && m <= n <= |run.inputs|
    requires Undropped(run, p, m, n) && LinkOr(run.states[m], p).received == map[]
    ensures LinkOr(run.states[n], p).received == Fill(PEX_MAX_RECEIVED_PER_LINK, BroughtIn(run, Some(p), m, n))
  {
    hide Inv, Step, Undropped, Brought, LinkOr;
    if m < n {
      UndroppedStep(run, p, m, n);
      RunStep(run, n);
      RunFillsReceived(run, p, m, n - 1);
      hide Fill;
      StepFillsReceived(run.states[n - 1], run.inputs[n - 1], run.states[n], run.effects[n - 1], p,
                        BroughtIn(run, Some(p), m, n - 1));
    }
  }

  lemma BatchIsMessage(s: Pex, input: Input)
    requires Batch(s, input).Some?
    ensures input.DoMessage? && Batch(s, input).value.0 == input.peer
  {
  }

  lemma StepFillsReceived(s: Pex, input: Input, s': Pex, effect: Effect, p: PeerId, xs: seq<Arrival>)
    requires Inv(s) && Step(s, input, s', effect) && input != DoLinkDown(p) && !LinkOr(s', p).muted
    requires input.DoMessage? && input.peer == p ==> ReportsNoDrop(effect)
    requires LinkOr(s, p).received == Fill(PEX_MAX_RECEIVED_PER_LINK, xs)
    ensures LinkOr(s', p).received == Fill(PEX_MAX_RECEIVED_PER_LINK, xs + Brought(s, input, Some(p)))
  {
    assert Keyed(s.known);
    hide Inv, Step, Fill, Batch, ReportsNoDrop, LinkOr, Brought;
    if Batch(s, input).Some? && Batch(s, input).value.0 == p {
      BatchIsMessage(s, input);
      BatchFillsReceived(s, input, s', effect, p, xs);
    } else {
      ReceivedKept(s, input, s', effect, p);
      BroughtNothing(s, input, p, xs);
    }
  }

  lemma BroughtNothing(s: Pex, input: Input, p: PeerId, xs: seq<Arrival>)
    requires Batch(s, input).None? || Batch(s, input).value.0 != p
    ensures xs + Brought(s, input, Some(p)) == xs
  {
    hide Batch, ArrivalsOf;
  }

  lemma BatchFillsReceived(s: Pex, input: Input, s': Pex, effect: Effect, p: PeerId, xs: seq<Arrival>)
    requires Keyed(s.known) && Step(s, input, s', effect) && ReportsNoDrop(effect)
    requires Batch(s, input).Some? && Batch(s, input).value.0 == p
    requires LinkOr(s, p).received == Fill(PEX_MAX_RECEIVED_PER_LINK, xs)
    ensures LinkOr(s', p).received == Fill(PEX_MAX_RECEIVED_PER_LINK, xs + Brought(s, input, Some(p)))
  {
    hide Step, Fill, Batch, ReportsNoDrop, LinkOr, IngestAll, ArrivalsOf;
    var (_, entries, at) := Batch(s, input).value;
    BatchTaken(s, input, s', effect);
    ReceivedFills(s.cfg, InboxOf(At(s, p)), p, entries, at, xs);
  }

  /** Over any stretch of a run in which a link that starts with nothing stays up, unmuted and undropped
      and no id comes twice, its `received` is the latest arrival and the 4095 greatest of all earlier
      ones. */
  lemma ReceivedIsTopK(run: Trace, p: PeerId, m: nat, n: nat)
    requires run.IsRun() && Undropped(run, p, m, n) && LinkOr(run.states[m], p).received == map[]
    requires DistinctArrivals(BroughtIn(run, Some(p), m, n))
    ensures IsTopK(4096, BroughtIn(run, Some(p), m, n), LinkOr(run.states[n], p).received)
  {
    hide Fill, DistinctArrivals, IsTopK, BroughtIn, Inv;
    RunFillsReceived(run, p, m, n);
    FillIsTopK(PEX_MAX_RECEIVED_PER_LINK, BroughtIn(run, Some(p), m, n));
  }

  // ----- hints -----

  /** Steps `m` to `n` take hints away only to make room: no drop is reported, and a step that brings
      nothing in (a teardown, a mute) frees none. */
  ghost predicate Unfreed(run: Trace, m: nat, n: nat)
    requires run.IsRun()
  {
    && m <= n <= |run.inputs|
    && (forall i | m <= i < n :: ReportsNoDrop(run.effects[i]))
    && (forall i, id | m <= i < n && Batch(run.states[i], run.inputs[i]).None? && id in run.states[i].hints ::
          id in run.states[i + 1].hints)
  }

  lemma {:induction false} RunFillsHints(run: Trace, m: nat, n: nat)
    requires run.IsRun() && m <= n <= |run.inputs| && Unfreed(run, m, n) && run.states[m].hints == map[]
    requires DistinctArrivals(BroughtIn(run, None, m, n))
    ensures Ages(run.states[n].hints) == Fill(PEX_MAX_HINTS, BroughtIn(run, None, m, n))
  {
    hide Step, DistinctArrivals, Unfreed, Brought;
    if m < n {
      RunStep(run, n);
      UnfreedStep(run, m, n);
      var s, input, s', effect := run.states[n - 1], run.inputs[n - 1], run.states[n], run.effects[n - 1];
      DistinctBefore(BroughtIn(run, None, m, n - 1), Brought(s, input, None));
      RunFillsHints(run, m, n - 1);
      hide Fill, Ages;
      StepFillsHints(s, input, s', effect, BroughtIn(run, None, m, n - 1));
    }
  }

  lemma UnfreedStep(run: Trace, m: nat, n: nat)
    requires run.IsRun() && Unfreed(run, m, n) && m < n
    ensures Unfreed(run, m, n - 1) && ReportsNoDrop(run.effects[n - 1])
    ensures Batch(run.states[n - 1], run.inputs[n - 1]).None? ==>
              forall id | id in run.states[n - 1].hints :: id in run.states[n].hints
  {
    hide Batch, Step;
  }

  lemma StepFillsHints(s: Pex, input: Input, s': Pex, effect: Effect, xs: seq<Arrival>)
    requires Keyed(s.known) && Step(s, input, s', effect) && ReportsNoDrop(effect)
    requires Batch(s, input).None? ==> forall id | id in s.hints :: id in s'.hints
    requires Ages(s.hints) == Fill(PEX_MAX_HINTS, xs) && DistinctArrivals(xs + Brought(s, input, None))
    ensures Ages(s'.hints) == Fill(PEX_MAX_HINTS, xs + Brought(s, input, None))
  {
    hide Step, Fill, Ages, IngestAll, DistinctArrivals;
    if Batch(s, input).Some? {
      var (p, entries, at) := Batch(s, input).value;
      BatchTaken(s, input, s', effect);
      HintsFill(s.cfg, InboxOf(At(s, p)), p, entries, at, xs);
    } else {
      QuietHints(s, input, s', effect);
      assert s'.hints == s.hints && xs + [] == xs;
    }
  }

  /** Over any stretch of a run that starts without hints, frees none, and in which no id comes twice on
      any link, the hints across all links are the latest arrival and the 16383 greatest of all earlier
      ones. */
  lemma HintsAreTopK(run: Trace, m: nat, n: nat)
    requires run.IsRun() && Unfreed(run, m, n) && run.states[m].hints == map[]
    requires DistinctArrivals(BroughtIn(run, None, m, n))
    ensures IsTopK(16_384, BroughtIn(run, None, m, n), Ages(run.states[n].hints))
  {
    hide Fill, DistinctArrivals, IsTopK, BroughtIn;
    RunFillsHints(run, m, n);
    FillIsTopK(PEX_MAX_HINTS, BroughtIn(run, None, m, n));
  }
}
