/** With the first-hand set left alone, the deltas on a link come to an end, and when they do the link
    has been told exactly what is advertised on it, even though entries age out meanwhile. */
module Convergence {
  import opened Basics
  import opened Caps
  import opened Entry
  import opened Wire
  import opened Advertise
  import opened State
  import opened Protocol
  import opened Invariant
  import opened Sides
  import opened Pacing

  // ----- the snapshot's remainder -----

  /** A snapshot settles what it lists and nothing else: whatever the caps or the frame budget cut off
      stays pending for the deltas, and nothing becomes stale by it. */
  lemma SnapshotLeavesRest(s: Pex, p: PeerId, nowMs: nat, s': Pex, sent: seq<PexMessage>)
    requires Inv(s) && LinkUp(s, p, nowMs, s', sent)
    ensures var adv, fp, told := AdvertisedTo(s, p, nowMs), s.cfg.Print(), LinkOr(s, p).told;
            var told' := LinkOr(s', p).told;
            && Ids(sent[1].peers) <= adv
            && PendingIds(fp, s.known, adv, told') == PendingIds(fp, s.known, adv, told) - Ids(sent[1].peers)
            && StaleIds(adv, told') == StaleIds(adv, told)
            && (told == map[] ==> PendingIds(fp, s.known, adv, told') == adv - Ids(sent[1].peers))
  {
    SnapshotIds(s, p, nowMs, sent[1].peers);
    SettleSome(s.cfg.Print(), s.known, AdvertisedTo(s, p, nowMs), LinkOr(s, p).told, Ids(sent[1].peers));
  }

  lemma SettleSome(fp: Print, known: Known, adv: set<PeerId>, told: Told, sent: set<PeerId>)
    requires Keyed(known) && sent <= adv <= known.Keys
    ensures var told' := told + Fingerprints(fp, known, sent);
            && PendingIds(fp, known, adv, told') == PendingIds(fp, known, adv, told) - sent
            && StaleIds(adv, told') == StaleIds(adv, told)
  {
    assert Fingerprints(fp, known, sent).Keys == sent;
    var told' := told + Fingerprints(fp, known, sent);
    forall id | id in adv
      ensures NeedsTelling(fp, told', known[id]) <==> NeedsTelling(fp, told, known[id]) && id !in sent
    {
      assert known[id].peerId == id;
    }
  }

  ghost predicate NamesOthers(cfg: Config, p: PeerId, msg: PexMessage) {
    && (msg.PexSnapshot? ==> cfg.localPeerId !in Ids(msg.peers) && p !in Ids(msg.peers))
    && (msg.PexDelta? ==>
          && cfg.localPeerId !in Ids(msg.added) && p !in Ids(msg.added)
          && cfg.localPeerId !in msg.dropped && p !in msg.dropped)
  }

  lemma DeltaNamesOthers(s: Pex, p: PeerId, l': Link, d: Delta, at: nat)
    requires Inv(s) && SenderSends(s, p, LinkOr(s, p), l', d, at)
    ensures NamesOthers(s.cfg, p, PexDelta(d.added, d.dropped))
  {
    hide Inv, ReceiverInv, JitterDraw, Eligible, LinkAfterDelta;
    LinkInv(s, p);
    var self, adv := s.cfg.localPeerId, AdvertisedTo(s, p, at);
    assert self !in adv && p !in adv && adv <= s.known.Keys;
    DeltaShape(s.cfg.Print(), s.known, adv, LinkOr(s, p).told, d.added, d.dropped);
    assert self !in Ids(d.added) && p !in Ids(d.added);
    assert self !in Set(d.dropped) && p !in Set(d.dropped);
  }

  lemma SnapshotNamesOthers(s: Pex, p: PeerId, at: nat, s': Pex, sent: seq<PexMessage>)
    requires Keyed(s.known) && LinkUp(s, p, at, s', sent)
    ensures forall msg | msg in sent :: NamesOthers(s.cfg, p, msg)
  {
    SnapshotIds(s, p, at, sent[1].peers);
  }

  /** Nothing sent on a link names either of its ends. */
  lemma MessagesNameOthers(s: Pex, input: Input, s': Pex, effect: Effect, p: PeerId, msg: PexMessage)
    requires Inv(s) && Step(s, input, s', effect) && msg in SentTo(effect.sends, p)
    ensures NamesOthers(s.cfg, p, msg)
  {
    assert Keyed(s.known);
    hide Inv, Dispatch, LinkUp, Tick, SenderSends;
    match input
    case DoLinkUp(q, at) =>
      var sent: seq<PexMessage> :| LinkUp(s, q, at, s', sent) && effect == Effect(Addressed(q, sent), []);
      SentToAddressed(q, sent, p);
      SnapshotNamesOthers(s, q, at, s', sent);
    case DoTick(at) =>
      TickMovesSender(s, at, s', effect.sends, p);
      var d: Delta :| SentTo(effect.sends, p) == [PexDelta(d.added, d.dropped)]
        && SenderSends(s, p, LinkOr(s, p), LinkOr(s', p), d, at);
      DeltaNamesOthers(s, p, LinkOr(s', p), d, at);
    case DoMessage(q, m, at) => InboundAnswers(s, input, s', effect, p);
    case DoViolation(q, code, at) => InboundAnswers(s, input, s', effect, p);
    case _ =>
  }

  // ----- changes of the first-hand set -----

  /** What the host changes, a link hears of exactly when it has to. An entry put in is pending exactly when
      it may be advertised there and its content is not what the link was told: one that differs from the
      one told only in the order of its lists, its date or its provenance stays silent, and one about the
      participant itself is ignored. An entry removed is stale exactly where it was told. */
  lemma HostChangesSurface(s: Pex, e: PeerEntry, p: PeerId, nowMs: nat)
    ensures var s', l := UpsertKnown(s, e), LinkOr(s, p);
            var pending := PendingIds(s.cfg.Print(), s'.known, AdvertisedTo(s', p, nowMs), LinkOr(s', p).told);
            if e.peerId == s.cfg.localPeerId then s' == s
            else
              && (e.peerId in pending
                  <==> e.peerId != p && IsFresh(e, nowMs / 1000) && NeedsTelling(s.cfg.Print(), l.told, e))
              && forall told: PeerEntry | SameContent(e, told) && e.peerId in l.told ::
                   l.told[e.peerId] == s.cfg.Print()(told) ==> e.peerId !in pending
    ensures var s', l := RemoveKnown(s, e.peerId), LinkOr(s, p);
            e.peerId in StaleIds(AdvertisedTo(s', p, nowMs), LinkOr(s', p).told) <==> e.peerId in l.told
  {
    hide SameContent;
    forall told: PeerEntry | SameContent(e, told) ensures s.cfg.Print()(told) == s.cfg.Print()(e) {
      FingerprintCanonical(e, told);
    }
  }

  // ----- runs -----

  /** The ids a delta carries. */
  function Load(msgs: seq<PexMessage>): nat {
    if msgs == [] || !msgs[0].PexDelta? then 0 else |msgs[0].added| + |msgs[0].dropped|
  }

  /** The ids carried to `p` on steps `m` to `n`. */
  ghost function Carried(run: Trace, p: PeerId, m: nat, n: nat): nat
    requires m <= n <= |run.inputs| && |run.effects| == |run.inputs|
  {
    if n == m then 0
    else
      Carried(run, p, m, n - 1)
      + (if DeltaSent(run.effects[n - 1], run.inputs[n - 1], p) then Load(SentTo(run.effects[n - 1].sends, p)) else 0)
  }

  /** No tick before step `n` reads the clock later than `t`. */
  ghost predicate TicksUpTo(run: Trace, m: nat, n: nat, t: nat)
    requires n <= |run.inputs|
  {
    forall i | m <= i < n && run.inputs[i].DoTick? :: run.inputs[i].at <= t
  }

  ghost predicate TicksInOrder(run: Trace, m: nat, n: nat)
    requires n <= |run.inputs|
  {
    forall i | m <= i < n && run.inputs[i].DoTick? :: TicksUpTo(run, m, i, run.inputs[i].at)
  }

  /** A session in which the host leaves its first-hand set alone and its clock does not run back. */
  ghost predicate Frozen(run: Trace, p: PeerId, m: nat, n: nat) {
    && Session(run, p, m, n) && TicksInOrder(run, m, n)
    && forall i | m <= i < n :: !run.inputs[i].DoUpsert? && !run.inputs[i].DoRemove?
  }

  /** The work left on a link, at time `t`. */
  ghost function WorkLeft(s: Pex, p: PeerId, t: nat): nat {
    Potential(s.cfg.Print(), s.known, AdvertisedTo(s, p, t), LinkOr(s, p).told)
  }

  lemma DeltaDoesWork(s: Pex, p: PeerId, s': Pex, d: Delta, at: nat)
    requires s'.cfg == s.cfg && s'.known == s.known
    requires SenderSends(s, p, LinkOr(s, p), LinkOr(s', p), d, at)
    ensures WorkLeft(s', p, at) + |d.added| + |d.dropped| == WorkLeft(s, p, at)
    ensures |d.added| + |d.dropped| > 0
  {
    DeltaLowersPotential(s.cfg.Print(), s.known, AdvertisedTo(s, p, at), LinkOr(s, p).told, d.added, d.dropped);
  }

  lemma WorkAges(s: Pex, p: PeerId, earlier: nat, later: nat)
    requires earlier <= later
    ensures WorkLeft(s, p, later) <= WorkLeft(s, p, earlier)
  {
    AgeingNeverRaisesPotential(s.cfg.Print(), s.known, s.cfg.localPeerId, p, LinkOr(s, p).told,
                              earlier / 1000, later / 1000);
  }

  /** One input: a delta takes the ids it carries off the work left, anything else leaves it. */
  lemma StepWork(s: Pex, input: Input, s': Pex, effect: Effect, p: PeerId)
    requires Keyed(s.known) && Step(s, input, s', effect)
    requires !IsLifecycle(input, p) && !input.DoUpsert? && !input.DoRemove?
    ensures if DeltaSent(effect, input, p)
            then Load(SentTo(effect.sends, p)) > 0
                 && WorkLeft(s', p, input.at) + Load(SentTo(effect.sends, p)) == WorkLeft(s, p, input.at)
            else forall t: nat :: WorkLeft(s', p, t) == WorkLeft(s, p, t)
  {
    assert DeltaSent(effect, input, p) ==> Tick(s, input.at, s', effect.sends);
    hide Step, Tick, WorkLeft, SenderSends, SenderMoves, Keyed, Load;
    StepFrame(s, input, s', effect);
    if DeltaSent(effect, input, p) {
      TickWork(s, input.at, s', effect.sends, p);
    } else {
      StepMovesSender(s, input, s', effect, p);
      forall t: nat ensures WorkLeft(s', p, t) == WorkLeft(s, p, t) { SameWork(s, p, s', t); }
    }
  }

  lemma TickWork(s: Pex, nowMs: nat, s': Pex, out: seq<(PeerId, PexMessage)>, p: PeerId)
    requires Keyed(s.known) && Tick(s, nowMs, s', out) && SentTo(out, p) != []
    ensures Load(SentTo(out, p)) > 0
    ensures WorkLeft(s', p, nowMs) + Load(SentTo(out, p)) == WorkLeft(s, p, nowMs)
  {
    assert s'.cfg == s.cfg && s'.known == s.known;
    hide Tick, WorkLeft, SenderSends, LinkOr, SentTo, ReceiverOf, Keyed, Load;
    TickMovesSender(s, nowMs, s', out, p);
    var d: Delta :| SentTo(out, p) == [PexDelta(d.added, d.dropped)]
      && SenderSends(s, p, LinkOr(s, p), LinkOr(s', p), d, nowMs);
    DeltaDoesWork(s, p, s', d, nowMs);
    LoadOfOne(d);
  }

  lemma LoadOfOne(d: Delta)
    ensures Load([PexDelta(d.added, d.dropped)]) == |d.added| + |d.dropped|
  {
  }

  lemma SameWork(s: Pex, p: PeerId, s': Pex, t: nat)
    requires s'.cfg == s.cfg && s'.known == s.known && LinkOr(s', p).told == LinkOr(s, p).told
    ensures WorkLeft(s', p, t) == WorkLeft(s, p, t)
  {
  }

  /** Every delta uses up work, and time passing never makes more. */
  lemma {:induction false} WorkIsUsedUp(run: Trace, p: PeerId, m: nat, n: nat, from: nat, upTo: nat)
    requires Frozen(run, p, m, n) && from <= upTo && TicksUpTo(run, m, n, upTo)
    requires forall i | m <= i < n && run.inputs[i].DoTick? :: from <= run.inputs[i].at
    ensures DeltasSent(run, p, m, n) <= Carried(run, p, m, n)
    ensures Carried(run, p, m, n) + WorkLeft(run.states[n], p, upTo) <= WorkLeft(run.states[m], p, from)
  {
    hide Inv, Step, WorkLeft, Load;
    if n == m {
      WorkAges(run.states[m], p, from, upTo);
    } else {
      var s, input, s' := run.states[n - 1], run.inputs[n - 1], run.states[n];
      var sent := DeltaSent(run.effects[n - 1], input, p);
      var t := if sent then input.at else upTo;
      WorkIsUsedUp(run, p, m, n - 1, from, t);
      RunStep(run, n);
      StepWork(s, input, s', run.effects[n - 1], p);
      if sent { WorkAges(s', p, t, upTo); }
    }
  }

  /** A frozen first-hand set is told in a bounded number of deltas: all together they carry at most
      twice the known entries plus the entries told before. */
  lemma DeltasEnd(run: Trace, p: PeerId, m: nat, n: nat)
    requires Frozen(run, p, m, n)
    ensures DeltasSent(run, p, m, n) <= Carried(run, p, m, n)
    ensures Carried(run, p, m, n) <= 2 * |run.states[m].known| + |LinkAt(run, p, m).told|
  {
    var latest := LatestTick(run, m, n);
    WorkIsUsedUp(run, p, m, n, 0, latest);
    var s := run.states[m];
    PotentialBound(s.cfg.Print(), s.known, AdvertisedTo(s, p, 0), LinkOr(s, p).told);
  }

  lemma {:induction false} LatestTick(run: Trace, m: nat, n: nat) returns (latest: nat)
    requires n <= |run.inputs|
    ensures TicksUpTo(run, m, n, latest)
  {
    if n == 0 {
      latest := 0;
    } else {
      latest := LatestTick(run, m, n - 1);
      if run.inputs[n - 1].DoTick? { latest := Max(latest, run.inputs[n - 1].at); }
    }
  }

  // ----- quiescence -----

  /** An eligible link is sent nothing exactly when it has been told the advertised entries, content
      and all, and nothing else. */
  lemma QuietIffToldAll(s: Pex, nowMs: nat, s': Pex, out: seq<(PeerId, PexMessage)>, p: PeerId)
    requires Keyed(s.known) && Tick(s, nowMs, s', out) && Eligible(LinkOr(s, p), nowMs)
    ensures SentTo(out, p) == []
            <==> LinkOr(s, p).told == Fingerprints(s.cfg.Print(), s.known, AdvertisedTo(s, p, nowMs))
  {
    var sent := TickOneLink(s, nowMs, s', out, p);
    var l, adv := LinkOr(s, p), AdvertisedTo(s, p, nowMs);
    var d: Delta :| IsDelta(s.cfg.Print(), s.known, adv, l.told, d.added, d.dropped)
      && (if d == Delta([], []) then sent == None else sent.Some?);
    QuiescentIffToldAll(s.cfg.Print(), s.known, adv, l.told, d.added, d.dropped);
  }

  /** A tick that finds the link to `p` eligible. */
  ghost predicate EligibleTick(run: Trace, p: PeerId, i: nat)
    requires i < |run.inputs| && i < |run.states|
  {
    run.inputs[i].DoTick? && Eligible(LinkAt(run, p, i), run.inputs[i].at)
  }

  ghost function EligibleTicks(run: Trace, p: PeerId, m: nat, n: nat): nat
    requires m <= n <= |run.inputs| < |run.states|
  {
    if n == m then 0 else EligibleTicks(run, p, m, n - 1) + (if EligibleTick(run, p, n - 1) then 1 else 0)
  }

  /** The link has been told exactly what is advertised on it when tick `i` looks. */
  ghost predicate ToldAllAt(run: Trace, p: PeerId, i: nat)
    requires i < |run.inputs| && i < |run.states|
  {
    var s := run.states[i];
    && EligibleTick(run, p, i)
    && LinkOr(s, p).told == Fingerprints(s.cfg.Print(), s.known, AdvertisedTo(s, p, run.inputs[i].at))
  }

  lemma BusyTickSends(run: Trace, p: PeerId, n: nat)
    requires run.IsRun() && 0 < n <= |run.inputs|
    requires EligibleTick(run, p, n - 1) && !ToldAllAt(run, p, n - 1)
    ensures DeltaSent(run.effects[n - 1], run.inputs[n - 1], p)
  {
    hide Tick, Eligible;
    RunStep(run, n);
    QuietIffToldAll(run.states[n - 1], run.inputs[n - 1].at, run.states[n], run.effects[n - 1].sends, p);
  }

  lemma {:induction false} BusyTicksSend(run: Trace, p: PeerId, m: nat, n: nat)
    requires Session(run, p, m, n) && forall i: nat | m <= i < n :: !ToldAllAt(run, p, i)
    ensures EligibleTicks(run, p, m, n) <= DeltasSent(run, p, m, n)
  {
    hide Inv, EligibleTick, ToldAllAt, DeltaSent;
    if n > m {
      BusyTicksSend(run, p, m, n - 1);
      if EligibleTick(run, p, n - 1) { BusyTickSends(run, p, n); }
    }
  }

  /** So a frozen first-hand set is fully told after a bounded number of eligible ticks. */
  lemma EventuallyToldAll(run: Trace, p: PeerId, m: nat, n: nat)
    requires Frozen(run, p, m, n)
    requires EligibleTicks(run, p, m, n) > 2 * |run.states[m].known| + |LinkAt(run, p, m).told|
    ensures exists i: nat :: m <= i < n && ToldAllAt(run, p, i)
  {
    hide Inv, ToldAllAt;
    DeltasEnd(run, p, m, n);
    if forall i: nat | m <= i < n :: !ToldAllAt(run, p, i) { BusyTicksSend(run, p, m, n); }
  }

  // ----- how many ticks a backlog takes -----

  /** The two backlogs of a link against the set `adv`. */
  ghost function PendingOn(s: Pex, p: PeerId, adv: set<PeerId>): nat {
    PendingCount(s.cfg.Print(), s.known, adv, LinkOr(s, p).told)
  }

  ghost function StaleOn(s: Pex, p: PeerId, adv: set<PeerId>): nat { StaleCount(adv, LinkOr(s, p).told) }

  /** An eligible tick takes fifty off each backlog, or all of it. */
  lemma TickBacklog(s: Pex, nowMs: nat, s': Pex, out: seq<(PeerId, PexMessage)>, p: PeerId)
    requires Keyed(s.known) && Tick(s, nowMs, s', out) && Eligible(LinkOr(s, p), nowMs)
    ensures var adv := AdvertisedTo(s, p, nowMs);
            && PendingOn(s', p, adv) == SaturatingSub(PendingOn(s, p, adv), PEX_MAX_ADDED)
            && StaleOn(s', p, adv) == SaturatingSub(StaleOn(s, p, adv), PEX_MAX_DROPPED)
            && (SentTo(out, p) == [] <==> PendingOn(s, p, adv) == 0 && StaleOn(s, p, adv) == 0)
  {
    var sent := TickOneLink(s, nowMs, s', out, p);
    var l, l', adv := LinkOr(s, p), LinkOr(s', p), AdvertisedTo(s, p, nowMs);
    var d: Delta :| IsDelta(s.cfg.Print(), s.known, adv, l.told, d.added, d.dropped)
      && (if d == Delta([], []) then l' == l && sent == None
          else sent.Some? && l'.told == ToldAfter(s.cfg.Print(), s.known, l.told, d.added, d.dropped));
    BacklogStep(s.cfg.Print(), s.known, adv, l.told, d, ToldAfter(s.cfg.Print(), s.known, l.told, d.added, d.dropped));
  }

  /** A session in which every tick sees the same advertised set. */
  ghost predicate Steady(run: Trace, p: PeerId, m: nat, n: nat, adv: set<PeerId>) {
    && Session(run, p, m, n)
    && forall i | m <= i < n ::
         && !run.inputs[i].DoUpsert? && !run.inputs[i].DoRemove?
         && (run.inputs[i].DoTick? ==> AdvertisedTo(run.states[i], p, run.inputs[i].at) == adv)
  }

  lemma SteadyStep(run: Trace, p: PeerId, m: nat, n: nat, adv: set<PeerId>)
    requires Steady(run, p, m, n, adv) && m < n
    ensures var s, s' := run.states[n - 1], run.states[n];
            var gone := if EligibleTick(run, p, n - 1) then 50 else 0;
            && PendingOn(s', p, adv) == SaturatingSub(PendingOn(s, p, adv), gone)
            && StaleOn(s', p, adv) == SaturatingSub(StaleOn(s, p, adv), gone)
  {
    var s, input, s', effect := run.states[n - 1], run.inputs[n - 1], run.states[n], run.effects[n - 1];
    RunStep(run, n);
    if EligibleTick(run, p, n - 1) {
      hide Inv, Tick, Eligible;
      TickBacklog(s, input.at, s', effect.sends, p);
    } else {
      UneligibleStep(s, input, s', effect, p);
    }
  }

  lemma UneligibleStep(s: Pex, input: Input, s': Pex, effect: Effect, p: PeerId)
    requires Keyed(s.known) && Step(s, input, s', effect) && !IsLifecycle(input, p)
    requires !input.DoUpsert? && !input.DoRemove? && !(input.DoTick? && Eligible(LinkOr(s, p), input.at))
    ensures s'.cfg == s.cfg && s'.known == s.known && LinkOr(s', p).told == LinkOr(s, p).told
  {
    hide Step, SenderMoves, Eligible;
    StepFrame(s, input, s', effect);
    StepMovesSender(s, input, s', effect, p);
  }

  lemma {:induction false} BacklogAfter(run: Trace, p: PeerId, m: nat, n: nat, adv: set<PeerId>)
    requires Steady(run, p, m, n, adv)
    ensures PendingOn(run.states[n], p, adv)
         == SaturatingSub(PendingOn(run.states[m], p, adv), 50 * EligibleTicks(run, p, m, n))
    ensures StaleOn(run.states[n], p, adv)
         == SaturatingSub(StaleOn(run.states[m], p, adv), 50 * EligibleTicks(run, p, m, n))
  {
    hide Inv, Step, EligibleTick, PendingOn, StaleOn;
    if n > m {
      BacklogAfter(run, p, m, n - 1, adv);
      SteadyStep(run, p, m, n, adv);
    }
  }

  /** While the advertised set stands still, a backlog takes exactly as many eligible ticks as it has
      fifties in its longer half, rounded up: the next eligible tick is quiet if and only if fifty times
      the eligible ticks so far have reached it. */
  lemma BacklogLength(run: Trace, p: PeerId, m: nat, n: nat, adv: set<PeerId>)
    requires Steady(run, p, m, n, adv) && n < |run.inputs| && EligibleTick(run, p, n)
    requires AdvertisedTo(run.states[n], p, run.inputs[n].at) == adv
    ensures SentTo(run.effects[n].sends, p) == []
            <==> Max(PendingOn(run.states[m], p, adv), StaleOn(run.states[m], p, adv))
                   <= 50 * EligibleTicks(run, p, m, n)
  {
    hide Inv, Tick, Eligible, EligibleTicks, PendingOn, StaleOn;
    BacklogAfter(run, p, m, n, adv);
    RunStep(run, n + 1);
    TickBacklog(run.states[n], run.inputs[n].at, run.states[n + 1], run.effects[n].sends, p);
  }
}
