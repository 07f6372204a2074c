/** Timing over runs: how closely data messages can follow one another, how much one remote can make
    a participant examine, and how far a flood of rate errors can slow a sender down. */
module Pacing {
  import opened Basics
  import opened Caps
  import opened Timer
  import opened Entry
  import opened Wire
  import opened Advertise
  import opened State
  import opened Protocol
  import opened Invariant
  import opened Sides

  /** Between steps `m` and `n` the link to `p` is neither raised again nor torn down. */
  ghost predicate Session(run: Trace, p: PeerId, m: nat, n: nat) {
    && run.IsRun() && m <= n <= |run.inputs| && Inv(run.states[0])
    && forall i | m <= i < n :: !IsLifecycle(run.inputs[i], p)
  }

  function LinkAt(run: Trace, p: PeerId, i: nat): Link
    requires i < |run.states|
  {
    LinkOr(run.states[i], p)
  }

  /** The last step of a session, as a move of the sending half, in a state that meets the invariant. */
  lemma SessionStep(run: Trace, p: PeerId, m: nat, n: nat)
    requires Session(run, p, m, n) && m < n
    ensures Keyed(run.states[n - 1].known) && run.states[n - 1].cfg == run.states[0].cfg
    ensures SenderInv(run.states[0].cfg, p, LinkAt(run, p, n - 1))
    ensures SenderMoves(run.states[n - 1], run.inputs[n - 1], LinkAt(run, p, n - 1), LinkAt(run, p, n),
                        run.effects[n - 1].sends, p)
    ensures !DeltaSent(run.effects[n - 1], run.inputs[n - 1], p) ==>
              && LinkAt(run, p, n).lastDataSendMs == LinkAt(run, p, n - 1).lastDataSendMs
              && LinkAt(run, p, n).told == LinkAt(run, p, n - 1).told
    ensures DeltaSent(run.effects[n - 1], run.inputs[n - 1], p) ==> SendsOn(run, p, n)
  {
    hide Inv, Step, SenderInv, ReceiverInv, SenderMoves, SenderSends;
    RunInv(run, n - 1);
    RunConfig(run, n - 1);
    LinkInv(run.states[n - 1], p);
    RunStep(run, n);
    StepMovesSender(run.states[n - 1], run.inputs[n - 1], run.states[n], run.effects[n - 1], p);
  }

  /** The step that reaches state `n` sends a delta to `p`. */
  ghost predicate SendsOn(run: Trace, p: PeerId, n: nat)
    requires 0 < n < |run.states| && n <= |run.inputs|
  {
    var s, input, l, l' := run.states[n - 1], run.inputs[n - 1], LinkAt(run, p, n - 1), LinkAt(run, p, n);
    input.DoTick? && exists d: Delta :: SenderSends(s, p, l, l', d, input.at)
  }

  /** `k * unit`, added up one step at a time. */
  function Times(k: nat, unit: nat): nat { if k == 0 then 0 else Times(k - 1, unit) + unit }

  lemma {:induction false} TimesIsProduct(k: nat, unit: nat)
    ensures Times(k, unit) == k * unit
  {
    if k > 0 {
      TimesIsProduct(k - 1, unit);
      assert k * unit == (k - 1) * unit + unit;
    }
  }

  // ----- spacing of sends -----

  /** The interval the participant declares, as any receiver counts it. */
  function DeclaredMs(run: Trace): nat
    requires run.states != []
  {
    ClampInterval(run.states[0].cfg.interval) * 1000
  }

  /** Deltas sent to `p` on steps `m` to `n`. */
  ghost function DeltasSent(run: Trace, p: PeerId, m: nat, n: nat): nat
    requires m <= n <= |run.inputs| && |run.effects| == |run.inputs|
  {
    if n == m then 0
    else DeltasSent(run, p, m, n - 1) + (if DeltaSent(run.effects[n - 1], run.inputs[n - 1], p) then 1 else 0)
  }

  /** A delta goes out no sooner after the previous data message than the largest of our own interval,
      the remote's declaration and the floor, as known when it goes out, with the jitter drawn for it on
      top; and the next jitter is at most a tenth of that interval. */
  lemma DeltaIsSpaced(s: Pex, nowMs: nat, s': Pex, out: seq<(PeerId, PexMessage)>, p: PeerId)
    requires Inv(s) && Tick(s, nowMs, s', out) && SentTo(out, p) != []
    ensures var l, l' := LinkOr(s, p), LinkOr(s', p);
            && l.lastDataSendMs.Some? && l'.lastDataSendMs == Some(nowMs)
            && nowMs >= l.lastDataSendMs.value + PEX_MIN_INTERVAL * 1000 + l.sendJitterMs
            && nowMs >= l.lastDataSendMs.value + ClampInterval(l.selfIntervalSecs) * 1000 + l.sendJitterMs
            && (l.remoteDeclaredSecs.Some? ==>
                  nowMs >= l.lastDataSendMs.value + ClampInterval(l.remoteDeclaredSecs.value) * 1000 + l.sendJitterMs)
            && l'.sendJitterMs * 10 <= Effective(l) * 1000 && (!s.cfg.jitter ==> l'.sendJitterMs == 0)
  {
    LinkInv(s, p);
    TickMovesSender(s, nowMs, s', out, p);
  }

  lemma SpacedStep(run: Trace, p: PeerId, m: nat, n: nat)
    requires Session(run, p, m, n) && m < n && LinkAt(run, p, n - 1).snapshotSent
    ensures LinkAt(run, p, n).snapshotSent
    ensures LinkAt(run, p, n - 1).lastDataSendMs.Some? && LinkAt(run, p, n).lastDataSendMs.Some?
    ensures LinkAt(run, p, n).lastDataSendMs.value >= LinkAt(run, p, n - 1).lastDataSendMs.value
              + (if DeltaSent(run.effects[n - 1], run.inputs[n - 1], p) then DeclaredMs(run) else 0)
  {
    hide Inv, Step;
    SessionStep(run, p, m, n);
  }

  lemma {:induction false} SendsAddUp(run: Trace, p: PeerId, m: nat, n: nat)
    requires Session(run, p, m, n) && LinkAt(run, p, m).snapshotSent && LinkAt(run, p, m).lastDataSendMs.Some?
    ensures LinkAt(run, p, n).snapshotSent && LinkAt(run, p, n).lastDataSendMs.Some?
    ensures LinkAt(run, p, n).lastDataSendMs.value
         >= LinkAt(run, p, m).lastDataSendMs.value + Times(DeltasSent(run, p, m, n), DeclaredMs(run))
  {
    hide Inv, DeltaSent;
    if n > m {
      SendsAddUp(run, p, m, n - 1);
      SpacedStep(run, p, m, n);
    }
  }

  /** The `k`-th delta leaves no sooner than `k` declared intervals after the snapshot. */
  lemma SendsSpaced(run: Trace, p: PeerId, m: nat, n: nat)
    requires Session(run, p, m, n) && LinkAt(run, p, m).snapshotSent && LinkAt(run, p, m).lastDataSendMs.Some?
    ensures LinkAt(run, p, n).lastDataSendMs.Some?
    ensures LinkAt(run, p, n).lastDataSendMs.value
         >= LinkAt(run, p, m).lastDataSendMs.value + DeltasSent(run, p, m, n) * DeclaredMs(run)
  {
    SendsAddUp(run, p, m, n);
    TimesIsProduct(DeltasSent(run, p, m, n), DeclaredMs(run));
  }

  // ----- intake -----

  ghost predicate DeltaAdmitted(run: Trace, p: PeerId, i: nat)
    requires i < |run.inputs| && i < |run.states|
  {
    AdmitsDelta(LinkAt(run, p, i), run.inputs[i], p)
  }

  /** Deltas from `p` let in on steps `m` to `n`, and the entries in them. */
  ghost function DeltasAdmitted(run: Trace, p: PeerId, m: nat, n: nat): nat
    requires m <= n <= |run.inputs| < |run.states|
  {
    if n == m then 0
    else DeltasAdmitted(run, p, m, n - 1) + (if DeltaAdmitted(run, p, n - 1) then 1 else 0)
  }

  ghost function EntriesAdmitted(run: Trace, p: PeerId, m: nat, n: nat): nat
    requires m <= n <= |run.inputs| < |run.states|
  {
    if n == m then 0
    else
      EntriesAdmitted(run, p, m, n - 1)
      + (if DeltaAdmitted(run, p, n - 1) then |run.inputs[n - 1].msg.added| else 0)
  }

  lemma IntakeStep(run: Trace, p: PeerId, n: nat)
    requires run.IsRun() && 0 < n <= |run.inputs| && Inv(run.states[0]) && run.inputs[n - 1] != DoLinkDown(p)
    requires LinkAt(run, p, n - 1).phase == Streaming
    ensures var l, l' := LinkAt(run, p, n - 1), LinkAt(run, p, n);
            && l'.phase == Streaming && l'.remoteDeclaredSecs == l.remoteDeclaredSecs
            && l.lastArrivalMs.Some? && l'.lastArrivalMs.Some? && l.remoteDeclaredSecs.Some?
            && (if DeltaAdmitted(run, p, n - 1)
                then l'.lastArrivalMs.value >= l.lastArrivalMs.value + ArrivalFloorMs(l.remoteDeclaredSecs.value)
                     && |run.inputs[n - 1].msg.added| <= PEX_MAX_ADDED
                else l'.lastArrivalMs == l.lastArrivalMs)
  {
    hide Inv, Step;
    RunInv(run, n - 1);
    LinkInv(run.states[n - 1], p);
    RunStep(run, n);
    StepMovesArrival(run.states[n - 1], run.inputs[n - 1], run.states[n], run.effects[n - 1], p);
  }

  /** The stretch of a run after a link started streaming and before it is torn down. */
  ghost predicate Stream(run: Trace, p: PeerId, m: nat, n: nat) {
    && run.IsRun() && m <= n <= |run.inputs| && Inv(run.states[0])
    && (forall i | m <= i < n :: run.inputs[i] != DoLinkDown(p))
    && LinkAt(run, p, m).phase == Streaming
    && LinkAt(run, p, m).lastArrivalMs.Some? && LinkAt(run, p, m).remoteDeclaredSecs.Some?
  }

  lemma {:induction false} ArrivalsSpaced(run: Trace, p: PeerId, m: nat, n: nat)
    requires Stream(run, p, m, n)
    ensures var l, l' := LinkAt(run, p, m), LinkAt(run, p, n);
            && l'.phase == Streaming && l'.remoteDeclaredSecs == l.remoteDeclaredSecs && l'.lastArrivalMs.Some?
            && l'.lastArrivalMs.value >= l.lastArrivalMs.value
                 + Times(DeltasAdmitted(run, p, m, n), ArrivalFloorMs(l.remoteDeclaredSecs.value))
    ensures EntriesAdmitted(run, p, m, n) <= PEX_MAX_ADDED * DeltasAdmitted(run, p, m, n)
  {
    hide Inv, DeltaAdmitted, ArrivalFloorMs;
    if n > m {
      ArrivalsSpaced(run, p, m, n - 1);
      IntakeStep(run, p, n);
    }
  }

  /** How many whole units fit in a span. */
  function Whole(span: nat, unit: nat): nat
    requires 0 < unit
  {
    span / unit
  }

  /** One delta per arrival floor between `from` and `upTo`; and with the `first` entries of the
      snapshot, at most 200 entries and 50 more for every 25 seconds. */
  ghost predicate IntakeWithin(run: Trace, p: PeerId, m: nat, n: nat, from: nat, upTo: nat, floor: nat, first: nat)
    requires m <= n <= |run.inputs| < |run.states| && 0 < floor
  {
    && from <= upTo && DeltasAdmitted(run, p, m, n) <= Whole(upTo - from, floor)
    && first + EntriesAdmitted(run, p, m, n) <= PEX_MAX_SNAPSHOT + PEX_MAX_ADDED * Whole(upTo - from, 25_000)
  }

  /** Step `m` lets in the snapshot from `p`, and the link is not torn down before step `n`. */
  ghost predicate Opened(run: Trace, p: PeerId, m: nat, n: nat) {
    && run.IsRun() && m < n <= |run.inputs| && Inv(run.states[0])
    && AdmitsSnapshot(LinkAt(run, p, m), run.inputs[m], p)
    && forall i | m < i < n :: run.inputs[i] != DoLinkDown(p)
  }

  /** What one remote can make us examine, from its snapshot, let in at step `m`, to any later point at
      which the last delta was let in by `upTo`, whatever the clock did in between. */
  lemma IntakeBound(run: Trace, p: PeerId, m: nat, n: nat, upTo: nat)
    requires Opened(run, p, m, n)
    requires LinkAt(run, p, n).lastArrivalMs.Some? && LinkAt(run, p, n).lastArrivalMs.value <= upTo
    ensures LinkAt(run, p, m).remoteDeclaredSecs.Some?
    ensures IntakeWithin(run, p, m + 1, n, run.inputs[m].at, upTo,
                         ArrivalFloorMs(LinkAt(run, p, m).remoteDeclaredSecs.value), |run.inputs[m].msg.peers|)
  {
    hide Inv;
    assert m < |run.inputs| && run.inputs[m].DoMessage? && run.inputs[m].msg.PexSnapshot?;
    hide Opened, Stream, IntakeWithin, ArrivalFloorMs;
    StreamOpens(run, p, m, n);
    StreamIntake(run, p, m + 1, n, upTo, |run.inputs[m].msg.peers|);
  }

  lemma StreamIntake(run: Trace, p: PeerId, m: nat, n: nat, upTo: nat, first: nat)
    requires Stream(run, p, m, n) && first <= PEX_MAX_SNAPSHOT
    requires LinkAt(run, p, n).lastArrivalMs.Some? && LinkAt(run, p, n).lastArrivalMs.value <= upTo
    ensures IntakeWithin(run, p, m, n, LinkAt(run, p, m).lastArrivalMs.value, upTo,
                         ArrivalFloorMs(LinkAt(run, p, m).remoteDeclaredSecs.value), first)
  {
    hide Inv, Step, Whole, ArrivalFloorMs, DeltasAdmitted, EntriesAdmitted, Times;
    ArrivalsSpaced(run, p, m, n);
    var l := LinkAt(run, p, m);
    IntakeArithmetic(DeltasAdmitted(run, p, m, n), ArrivalFloorMs(l.remoteDeclaredSecs.value),
                     l.lastArrivalMs.value, upTo, first, EntriesAdmitted(run, p, m, n));
  }

  lemma IntakeArithmetic(k: nat, floor: nat, from: nat, upTo: nat, first: nat, later: nat)
    requires 25_000 <= floor && from + Times(k, floor) <= upTo
    requires first <= PEX_MAX_SNAPSHOT && later <= PEX_MAX_ADDED * k
    ensures from <= upTo && k <= Whole(upTo - from, floor)
    ensures first + later <= PEX_MAX_SNAPSHOT + PEX_MAX_ADDED * Whole(upTo - from, 25_000)
  {
    var span := upTo - from;
    TimesIsProduct(k, floor);
    Quotient(k, floor, span);
    SlowerUnit(k, floor, 25_000);
    Quotient(k, 25_000, span);
  }

  lemma StreamOpens(run: Trace, p: PeerId, m: nat, n: nat)
    requires Opened(run, p, m, n)
    ensures Stream(run, p, m + 1, n) && |run.inputs[m].msg.peers| <= PEX_MAX_SNAPSHOT
    ensures LinkAt(run, p, m + 1).lastArrivalMs == Some(run.inputs[m].at)
    ensures LinkAt(run, p, m).remoteDeclaredSecs.Some?
    ensures LinkAt(run, p, m).remoteDeclaredSecs == LinkAt(run, p, m + 1).remoteDeclaredSecs
  {
    hide Inv, OnMessage;
    RunInv(run, m);
    LinkInv(run.states[m], p);
    RunStep(run, m + 1);
    SnapshotOpensStream(run.states[m], p, run.inputs[m].msg.peers, run.inputs[m].at);
  }

  lemma SnapshotOpensStream(s: Pex, p: PeerId, peers: seq<PeerEntry>, at: nat)
    requires !LinkOr(s, p).muted && SnapshotFault(LinkOr(s, p), peers) == None
    ensures var l' := LinkOr(OnMessage(s, p, PexSnapshot(peers), at).0, p);
            l'.phase == Streaming && l'.lastArrivalMs == Some(at)
            && l'.remoteDeclaredSecs == LinkOr(s, p).remoteDeclaredSecs
  {
  }

  lemma Quotient(k: nat, unit: nat, span: nat)
    requires 0 < unit && k * unit <= span
    ensures k <= span / unit
  {
    var q := span / unit;
    assert span < (q + 1) * unit;
    assert k * unit < (q + 1) * unit;
    assert k < q + 1 by {
      if k >= q + 1 { SlowerUnit(unit, k, q + 1); }
    }
  }

  lemma SlowerUnit(k: nat, unit: nat, smaller: nat)
    requires smaller <= unit
    ensures k * smaller <= k * unit
  {
    assert k * unit - k * smaller == k * (unit - smaller);
  }

  ghost predicate DataLetIn(run: Trace, p: PeerId, i: nat)
    requires i < |run.inputs| && i < |run.states|
  {
    AdmitsDelta(LinkAt(run, p, i), run.inputs[i], p) || AdmitsSnapshot(LinkAt(run, p, i), run.inputs[i], p)
  }

  /** Steps `m` and `n` of one life of the link let in a data message and, later, a delta. */
  ghost predicate TwoLetIn(run: Trace, p: PeerId, m: nat, n: nat) {
    && run.IsRun() && Inv(run.states[0]) && m < n < |run.inputs|
    && (forall i | m < i < n :: run.inputs[i] != DoLinkDown(p))
    && DataLetIn(run, p, m) && DeltaAdmitted(run, p, n)
  }

  lemma DataOpens(run: Trace, p: PeerId, m: nat)
    requires run.IsRun() && Inv(run.states[0]) && m < |run.inputs| && DataLetIn(run, p, m)
    ensures var l, l' := LinkAt(run, p, m), LinkAt(run, p, m + 1);
            && l'.phase == Streaming && l'.lastArrivalMs == Some(run.inputs[m].at)
            && l.remoteDeclaredSecs.Some? && l'.remoteDeclaredSecs == l.remoteDeclaredSecs
  {
    hide Inv, OnMessage, DeltaFault;
    RunInv(run, m);
    LinkInv(run.states[m], p);
    RunStep(run, m + 1);
    DataArrives(run.states[m], p, run.inputs[m].msg, run.inputs[m].at);
  }

  lemma DataArrives(s: Pex, p: PeerId, msg: PexMessage, at: nat)
    requires var l, input := LinkOr(s, p), DoMessage(p, msg, at);
             AdmitsDelta(l, input, p) || AdmitsSnapshot(l, input, p)
    ensures var l' := LinkOr(OnMessage(s, p, msg, at).0, p);
            && l'.phase == Streaming && l'.lastArrivalMs == Some(at)
            && l'.remoteDeclaredSecs == LinkOr(s, p).remoteDeclaredSecs && LinkOr(s, p).phase != AwaitingHandshake
  {
    hide IngestAll, DropAll;
  }

  /** Any two data messages let in on one life of a link are an arrival floor apart. */
  lemma LetInSpaced(run: Trace, p: PeerId, m: nat, n: nat)
    requires TwoLetIn(run, p, m, n)
    ensures LinkAt(run, p, m).remoteDeclaredSecs.Some?
    ensures run.inputs[n].at >= run.inputs[m].at + ArrivalFloorMs(LinkAt(run, p, m).remoteDeclaredSecs.value)
  {
    hide Inv, Step, DataLetIn;
    DataOpens(run, p, m);
    assert Stream(run, p, m + 1, n);
    ArrivalsSpaced(run, p, m + 1, n);
    RunInv(run, n);
    LinkInv(run.states[n], p);
  }

  // ----- back-off -----

  /** A rate error was honoured on the step that reaches state `n`. */
  ghost predicate BackoffApplied(run: Trace, p: PeerId, n: nat)
    requires 0 < n < |run.states|
  {
    LinkAt(run, p, n).lastBackoffAppliedMs != LinkAt(run, p, n - 1).lastBackoffAppliedMs
  }

  ghost function Backoffs(run: Trace, p: PeerId, m: nat, n: nat): nat
    requires m <= n < |run.states|
  {
    if n == m then 0
    else Backoffs(run, p, m, n - 1) + (if BackoffApplied(run, p, n) then 1 else 0)
  }

  /** When the first back-off of the session was applied. */
  ghost function FirstBackoff(run: Trace, p: PeerId, m: nat, n: nat): Option<nat>
    requires m <= n < |run.states|
  {
    if n == m then None
    else if FirstBackoff(run, p, m, n - 1).Some? then FirstBackoff(run, p, m, n - 1)
    else if BackoffApplied(run, p, n) then LinkAt(run, p, n).lastBackoffAppliedMs
    else None
  }

  /** A session on a raised link on which no back-off has been applied yet. */
  ghost predicate Unslowed(run: Trace, p: PeerId, m: nat, n: nat) {
    Session(run, p, m, n) && LinkAt(run, p, m).snapshotSent && LinkAt(run, p, m).lastBackoffAppliedMs == None
  }

  /** Once a back-off has been applied the interval is a legal one, however it was configured. */
  predicate Settled(l: Link) { l.lastBackoffAppliedMs.Some? ==> InRange(l.selfIntervalSecs) }

  lemma BackoffStep(run: Trace, p: PeerId, m: nat, n: nat)
    requires Session(run, p, m, n) && m < n
    ensures var l, l', input := LinkAt(run, p, n - 1), LinkAt(run, p, n), run.inputs[n - 1];
            var sent := DeltaSent(run.effects[n - 1], input, p);
            && (if BackoffApplied(run, p, n)
                then && input.DoMessage? && l'.lastBackoffAppliedMs == Some(input.at) && AppliesBackoff(l, 3, input.at)
                     && l'.selfIntervalSecs == ClampInterval(Min(2 * l.selfIntervalSecs, PEX_MAX_INTERVAL))
                     && !sent
                else Settled(l) ==> l'.selfIntervalSecs == l.selfIntervalSecs)
            && (Settled(l) || BackoffApplied(run, p, n) ==> Settled(l'))
            && l'.lastDataSendMs == (if sent then Some(input.at) else l.lastDataSendMs)
  {
    hide Inv, Step, IsDelta, DeltaSent;
    SessionStep(run, p, m, n);
    var l, l', input := LinkAt(run, p, n - 1), LinkAt(run, p, n), run.inputs[n - 1];
    if at: nat :| input == DoMessage(p, PexError(3), at) && SenderBacksOff(l, l', at) {
      assert !BackoffRateLimited(l, at);
    }
  }

  /** The interval of a link that started at `start` and first backed off at `first`. */
  ghost predicate GrownWithTime(l: Link, first: Option<nat>, start: u32) {
    && (l.lastBackoffAppliedMs.Some? <==> first.Some?)
    && if first.None? then l.selfIntervalSecs == start
       else && InRange(l.selfIntervalSecs) && first.value <= l.lastBackoffAppliedMs.value
            && l.selfIntervalSecs * 1000
                 <= (l.lastBackoffAppliedMs.value - first.value) + 2 * ClampInterval(start) * 1000
  }

  lemma GrowthStep(l: Link, l': Link, first: Option<nat>, start: u32, at: nat)
    requires GrownWithTime(l, first, start) && AppliesBackoff(l, 3, at) && l'.lastBackoffAppliedMs == Some(at)
    requires l'.selfIntervalSecs == ClampInterval(Min(2 * l.selfIntervalSecs, PEX_MAX_INTERVAL))
    ensures GrownWithTime(l', if first.Some? then first else Some(at), start)
  {
  }

  /** The interval can grow no faster than time passes: after any flood of rate errors it is at most
      the time between the first and the last one honoured, plus twice the interval it started at. */
  lemma {:induction false} BackoffGrowth(run: Trace, p: PeerId, m: nat, n: nat)
    requires Unslowed(run, p, m, n)
    ensures GrownWithTime(LinkAt(run, p, n), FirstBackoff(run, p, m, n), LinkAt(run, p, m).selfIntervalSecs)
  {
    hide Inv, Step;
    if n > m {
      BackoffGrowth(run, p, m, n - 1);
      BackoffStep(run, p, m, n);
      if BackoffApplied(run, p, n) {
        GrowthStep(LinkAt(run, p, n - 1), LinkAt(run, p, n), FirstBackoff(run, p, m, n - 1),
                   LinkAt(run, p, m).selfIntervalSecs, run.inputs[n - 1].at);
      }
    }
  }

  /** The clock of a step, for the inputs that carry one. */
  function Clock(input: Input): Option<nat> {
    match input
    case DoLinkUp(_, at) => Some(at)
    case DoMessage(_, _, at) => Some(at)
    case DoViolation(_, _, at) => Some(at)
    case DoTick(at) => Some(at)
    case _ => None
  }

  /** `t` is no later than any clock reading from step `n` on. */
  ghost predicate NoLater(run: Trace, n: nat, t: Option<nat>) {
    t.Some? ==> forall j | n <= j < |run.inputs| && Clock(run.inputs[j]).Some? :: t.value <= Clock(run.inputs[j]).value
  }

  ghost predicate ClockIsMonotone(run: Trace, m: nat) {
    forall i | m <= i < |run.inputs| :: NoLater(run, i, Clock(run.inputs[i]))
  }

  /** Whether a data message has gone out since the last back-off, by the clock. */
  predicate SentSinceBackoff(l: Link) {
    && l.lastDataSendMs.Some?
    && (l.lastBackoffAppliedMs.Some? ==> l.lastDataSendMs.value > l.lastBackoffAppliedMs.value)
  }

  /** Clock readings held by the link are in the past. */
  ghost predicate LinkInPast(run: Trace, p: PeerId, n: nat)
    requires n < |run.states|
  {
    NoLater(run, n, LinkAt(run, p, n).lastDataSendMs) && NoLater(run, n, LinkAt(run, p, n).lastBackoffAppliedMs)
  }

  lemma PastStep(run: Trace, p: PeerId, m: nat, n: nat)
    requires Session(run, p, m, n) && m < n && ClockIsMonotone(run, m) && LinkInPast(run, p, n - 1)
    ensures LinkInPast(run, p, n)
    ensures var l, l' := LinkAt(run, p, n - 1), LinkAt(run, p, n);
            var sent := DeltaSent(run.effects[n - 1], run.inputs[n - 1], p);
            && (Settled(l) || BackoffApplied(run, p, n) ==> Settled(l'))
            && (BackoffApplied(run, p, n) && Settled(l) ==> SentSinceBackoff(l))
            && (BackoffApplied(run, p, n) ==> !SentSinceBackoff(l') && !sent)
            && (!BackoffApplied(run, p, n) && !sent ==> SentSinceBackoff(l') == SentSinceBackoff(l))
  {
    hide Inv, Step;
    BackoffStep(run, p, m, n);
    assert NoLater(run, n - 1, Clock(run.inputs[n - 1]));
  }

  /** Every back-off is paid for by a data message of our own: with a clock that does not run
      backwards, there are never more back-offs than data messages sent, the snapshot among them. */
  lemma {:induction false} BackoffsArePaidFor(run: Trace, p: PeerId, m: nat, n: nat)
    requires Unslowed(run, p, m, n) && ClockIsMonotone(run, m) && LinkInPast(run, p, m)
    ensures Backoffs(run, p, m, n) + (if SentSinceBackoff(LinkAt(run, p, n)) then 1 else 0)
         <= 1 + DeltasSent(run, p, m, n)
    ensures LinkInPast(run, p, n) && Settled(LinkAt(run, p, n))
  {
    hide Inv, DeltaSent, BackoffApplied;
    if n > m {
      BackoffsArePaidFor(run, p, m, n - 1);
      PastStep(run, p, m, n);
    }
  }

  lemma {:induction false} StillUnsent(run: Trace, p: PeerId, m: nat, i: nat, n: nat)
    requires Session(run, p, m, n) && ClockIsMonotone(run, m) && LinkInPast(run, p, m)
    requires m < i <= n && BackoffApplied(run, p, i)
    ensures LinkInPast(run, p, n) && Settled(LinkAt(run, p, n))
    ensures DeltasSent(run, p, i, n) == 0 ==> !SentSinceBackoff(LinkAt(run, p, n))
    decreases n
  {
    hide Inv, DeltaSent, BackoffApplied, LinkInPast, SentSinceBackoff;
    if i < n { StillUnsent(run, p, m, i, n - 1); } else { PastAlong(run, p, m, n - 1); }
    PastStep(run, p, m, n);
  }

  lemma {:induction false} PastAlong(run: Trace, p: PeerId, m: nat, n: nat)
    requires Session(run, p, m, n) && ClockIsMonotone(run, m) && LinkInPast(run, p, m)
    ensures LinkInPast(run, p, n)
  {
    hide Inv, LinkInPast;
    if n > m {
      PastAlong(run, p, m, n - 1);
      PastStep(run, p, m, n);
    }
  }

  /** Between any two back-offs of a session the participant sent at least one delta of its own. */
  lemma SendBetweenBackoffs(run: Trace, p: PeerId, m: nat, i: nat, j: nat)
    requires Session(run, p, m, j) && ClockIsMonotone(run, m) && LinkInPast(run, p, m)
    requires m < i < j && BackoffApplied(run, p, i) && BackoffApplied(run, p, j)
    ensures DeltasSent(run, p, i, j) > 0
  {
    hide Inv, BackoffApplied, LinkInPast, SentSinceBackoff, DeltaSent;
    StillUnsent(run, p, m, i, j - 1);
    PastStep(run, p, m, j);
  }

  // ----- the documented rate limit -----

  /** The documentation: after a back-off, another only once the effective interval has passed. */
  ghost predicate LimitedByEffectiveInterval(l: Link) {
    forall nowMs: nat | l.lastBackoffAppliedMs.Some? && AppliesBackoff(l, 3, nowMs) ::
      nowMs >= l.lastBackoffAppliedMs.value + Effective(l) * 1000
  }

  /** The code waits for our own interval only, so when the remote has declared a longer one a second
      back-off can come early. It keeps the documented limit exactly when nothing was sent or backed off
      yet, or our own interval is not zero and either governs, or runs out no sooner than the arrival floor
      since the last data message does. (An interval out of range, zero included, is one the host
      configured; a back-off leaves one in range.) */
  lemma RateLimitVersusDocumentation(l: Link)
    ensures LimitedByEffectiveInterval(l)
            <==> || l.lastBackoffAppliedMs.None? || l.lastDataSendMs.None?
                 || (l.selfIntervalSecs > 0
                     && (l.selfIntervalSecs >= Effective(l)
                         || l.lastDataSendMs.value + ArrivalFloorMs(l.selfIntervalSecs)
                            <= l.lastBackoffAppliedMs.value + l.selfIntervalSecs * 1000))
    ensures InRange(l.selfIntervalSecs) && l.lastBackoffAppliedMs.Some? && l.lastDataSendMs.Some? ==>
              (LimitedByEffectiveInterval(l)
               <==> Effective(l) == l.selfIntervalSecs
                    || l.lastDataSendMs.value <= l.lastBackoffAppliedMs.value + PEX_ARRIVAL_GRACE * 1000)
  {
    if l.lastBackoffAppliedMs.Some? && l.lastDataSendMs.Some? {
      var own, last := l.selfIntervalSecs, l.lastBackoffAppliedMs.value;
      var early := if own == 0 then 0 else last + own * 1000;
      if own == 0 || (own < Effective(l) && early < l.lastDataSendMs.value + ArrivalFloorMs(own)) {
        assert AppliesBackoff(l, 3, early);
      }
    }
  }
}
