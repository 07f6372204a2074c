/** What the receiver answers: which rule of the protocol a message breaks, the error that goes back,
    and what becomes of the link. */
module Verdicts {
  import opened Basics
  import opened Timer
  import opened Entry
  import opened Wire
  import opened Advertise
  import opened State
  import opened Protocol
  import opened Invariant

  /** The message is discarded with a strike: one error back, one event, and nothing else on the link
      moves, unless the strike is the last one allowed and frees what the link told us. */
  ghost predicate Struck(x: Local, p: PeerId, code: u16, y: Local, o: Outcome) {
    && o.replies == [PexError(code)]
    && o.events == [Violation(code, y.link.muted)]
    && y.link.strikes == x.link.strikes + 1
    && (y.link.muted <==> y.link.strikes >= 3)
    && if y.link.muted
       then
         && y.link == x.link.(strikes := y.link.strikes, muted := true, received := map[])
         && Forgotten(x.hints, p, y.hints)
       else y == x.(link := x.link.(strikes := y.link.strikes))
  }

  /** The greeting is taken: the declaration is noted, raised to 30 s or lowered to an hour, a snapshot is
      awaited, and nothing else moves. */
  predicate Greeted(x: Local, declared: u32, y: Local, o: Outcome) {
    var counted := if declared < 30 then 30 else if declared > 3600 then 3600 else declared;
    && o == Outcome([], [])
    && y == x.(link := x.link.(remoteDeclaredSecs := Some(counted), phase := AwaitingSnapshot))
  }

  /** The link is muted on the spot, without a strike. */
  ghost predicate MutedAtOnce(x: Local, p: PeerId, code: u16, y: Local, o: Outcome) {
    && o.replies == [PexError(code)] && o.events == [Violation(code, true)]
    && y.link == x.link.(muted := true, received := map[]) && Forgotten(x.hints, p, y.hints)
  }

  /** Exactly the hints from other links remain, as they were. */
  ghost predicate Forgotten(before: Hints, p: PeerId, after: Hints) {
    && (forall id :: id in after <==> id in before && before[id].source != p)
    && (forall id | id in after :: after[id] == before[id])
  }

  lemma StrikeVerdict(x: Local, p: PeerId, code: ErrorCode)
    requires !x.link.muted
    ensures Struck(x, p, code.AsU16(), Strike(x, p, code).0, Strike(x, p, code).1)
  {
  }

  /** A handshake is good exactly when it is the first one and names our version and network; a second
      one costs a strike, a mismatch mutes. */
  lemma HandshakeVerdict(cfg: Config, x: Local, p: PeerId, msg: PexMessage, nowMs: nat)
    requires !x.link.muted && msg.PexHandshake?
    ensures var (y, o) := Dispatch(cfg, x, p, msg, nowMs);
            if x.link.phase != AwaitingHandshake then Struck(x, p, 6, y, o)
            else if msg.version != 1 then MutedAtOnce(x, p, 2, y, o)
            else if msg.networkId != cfg.networkId then MutedAtOnce(x, p, 5, y, o)
            else Greeted(x, msg.interval, y, o)
  {
    if x.link.phase != AwaitingHandshake { StrikeVerdict(x, p, ProtocolViolation); }
  }

  /** A snapshot is good exactly when it is the one awaited and within its cap. */
  lemma SnapshotVerdict(cfg: Config, x: Local, p: PeerId, peers: seq<PeerEntry>, nowMs: nat)
    requires !x.link.muted
    ensures var (y, o) := Dispatch(cfg, x, p, PexSnapshot(peers), nowMs);
            if x.link.phase != AwaitingSnapshot then Struck(x, p, 6, y, o)
            else if |peers| > 200 then Struck(x, p, 4, y, o)
            else o.replies == [] && y.link.phase == Streaming && y.link.lastArrivalMs == Some(nowMs)
                 && y.link.strikes == x.link.strikes && !y.link.muted
  {
    hide Strike, IngestAll, Struck;
    if SnapshotFault(x.link, peers).Some? { StrikeVerdict(x, p, SnapshotFault(x.link, peers).value); }
  }

  /** Every rule a delta has to meet: the phase, the arrival floor since the last data message, the two
      list caps, and no id both added and dropped. */
  ghost predicate Conforms(l: Link, added: seq<PeerEntry>, dropped: seq<PeerId>, nowMs: nat) {
    && l.phase == Streaming && OnTime(l, nowMs)
    && |added| <= 50 && |dropped| <= 50
    && forall e | e in added :: e.peerId !in dropped
  }

  predicate OnTime(l: Link, nowMs: nat) {
    l.lastArrivalMs.Some? ==> nowMs >= l.lastArrivalMs.value + ArrivalFloorMs(l.remoteDeclaredSecs.GetOr(0))
  }

  lemma OverlapShown(added: seq<PeerEntry>, dropped: seq<PeerId>)
    ensures Ids(added) * Set(dropped) == {} <==> forall e | e in added :: e.peerId !in dropped
  {
    forall e | e in added && e.peerId in dropped ensures e.peerId in Ids(added) * Set(dropped) {}
    if Ids(added) * Set(dropped) != {} { var id :| id in Ids(added) * Set(dropped); }
  }

  /** A delta is let in exactly when it conforms; otherwise it costs a strike, under the code of the
      first rule it breaks. */
  lemma DeltaVerdict(cfg: Config, x: Local, p: PeerId, added: seq<PeerEntry>, dropped: seq<PeerId>, nowMs: nat)
    requires !x.link.muted
    ensures var (y, o) := Dispatch(cfg, x, p, PexDelta(added, dropped), nowMs);
            if Conforms(x.link, added, dropped, nowMs)
            then
              && o.replies == [] && y.link.lastArrivalMs == Some(nowMs)
              && y.link.strikes == x.link.strikes && !y.link.muted
            else Struck(x, p, if x.link.phase != Streaming then 6
                              else if !OnTime(x.link, nowMs) then 3
                              else if |added| > 50 || |dropped| > 50 then 4
                              else 1, y, o)
  {
    OverlapShown(added, dropped);
    assert DeltaFault(x.link, added, dropped, nowMs) == None <==> Conforms(x.link, added, dropped, nowMs);
    hide Strike, IngestAll, DropAll, Struck, Ids, Set;
    if DeltaFault(x.link, added, dropped, nowMs).Some? {
      StrikeVerdict(x, p, DeltaFault(x.link, added, dropped, nowMs).value);
    }
  }

  /** What becomes of a message on a direction that is not muted, and under which code. */
  ghost predicate Verdict(cfg: Config, x: Local, p: PeerId, msg: PexMessage, nowMs: nat, y: Local, o: Outcome) {
    match msg
    case PexHandshake(version, networkId, interval, _) =>
      if x.link.phase != AwaitingHandshake then Struck(x, p, 6, y, o)
      else if version != 1 then MutedAtOnce(x, p, 2, y, o)
      else if networkId != cfg.networkId then MutedAtOnce(x, p, 5, y, o)
      else Greeted(x, interval, y, o)
    case PexSnapshot(peers) =>
      if x.link.phase != AwaitingSnapshot then Struck(x, p, 6, y, o)
      else if |peers| > 200 then Struck(x, p, 4, y, o)
      else Admitted(x, nowMs, y, o)
    case PexDelta(added, dropped) =>
      if Conforms(x.link, added, dropped, nowMs) then Admitted(x, nowMs, y, o)
      else Struck(x, p, if x.link.phase != Streaming then 6
                        else if !OnTime(x.link, nowMs) then 3
                        else if |added| > 50 || |dropped| > 50 then 4
                        else 1, y, o)
    case PexError(_) => o == NoOutcome && y.hints == x.hints && y.link.strikes == x.link.strikes && !y.link.muted
  }

  /** Data that is let in: the stream is open, its clock set, and nothing is held against the sender. */
  predicate Admitted(x: Local, nowMs: nat, y: Local, o: Outcome) {
    && o.replies == [] && y.link.phase == Streaming && y.link.lastArrivalMs == Some(nowMs)
    && y.link.strikes == x.link.strikes && !y.link.muted
  }

  /** Every message meets its verdict. A handshake is good exactly when it is the first and names our
      version and network, a snapshot when it is the one awaited and within its cap, a delta when it
      conforms; a handshake that names others mutes at once, and anything else costs a strike, under the
      code of the first rule it breaks. */
  lemma MessageVerdict(cfg: Config, x: Local, p: PeerId, msg: PexMessage, nowMs: nat)
    requires !x.link.muted
    ensures Verdict(cfg, x, p, msg, nowMs, Dispatch(cfg, x, p, msg, nowMs).0, Dispatch(cfg, x, p, msg, nowMs).1)
  {
    hide Struck, MutedAtOnce, Conforms, OnTime, IngestAll, DropAll, AppliesBackoff;
    match msg
    case PexHandshake(_, _, _, _) => HandshakeVerdict(cfg, x, p, msg, nowMs); hide Dispatch;
    case PexSnapshot(peers) => SnapshotVerdict(cfg, x, p, peers, nowMs); hide Dispatch;
    case PexDelta(added, dropped) => DeltaVerdict(cfg, x, p, added, dropped, nowMs); hide Dispatch;
    case PexError(_) =>
  }

  // ----- runs -----

  /** The direction from `p` is muted at step `m` of the run and the link not torn down up to step `n`. */
  ghost predicate MutedFor(run: Trace, p: PeerId, m: nat, n: nat)
    requires run.IsRun()
  {
    && Inv(run.states[0]) && m <= n < |run.inputs| && LinkOr(run.states[m], p).muted
    && forall i | m <= i < n :: run.inputs[i] != DoLinkDown(p)
  }

  /** Once muted, a direction is deaf until its link is torn down, and teardown starts it over: until then
      nothing is attributed to it and it is the source of no hint, and a message on it is met with silence
      and changes nothing, whatever comes in between; then the link is as if never touched, and no other
      link and no other link's hint has moved. */
  lemma DeafUntilTeardown(run: Trace, p: PeerId, m: nat, n: nat)
    requires run.IsRun() && MutedFor(run, p, m, n)
    ensures var s, s' := run.states[n], run.states[n + 1];
            && LinkOr(s, p).muted && LinkOr(s, p).received == map[]
            && (forall id | id in s.hints :: s.hints[id].source != p)
            && (run.inputs[n].DoMessage? && run.inputs[n].peer == p ==>
                  run.effects[n] == Effect([], []) && LinkOr(s', p) == LinkOr(s, p) && s'.hints == s.hints)
            && (run.inputs[n] == DoLinkDown(p) ==>
                  LinkOr(s', p) == FreshLink(s.cfg.interval) && s'.hints == s.hints && s'.links == s.links - {p})
  {
    hide Inv, Step;
    RunInv(run, m);
    RunInv(run, n);
    RunStep(run, n + 1);
    RunAdvances(run, p, m, n);
    MutedHoldsNothing(run.states[n], p);
    MutedStep(run.states[n], run.inputs[n], run.states[n + 1], run.effects[n], p);
  }

  lemma MutedHoldsNothing(s: Pex, p: PeerId)
    requires Inv(s) && LinkOr(s, p).muted
    ensures LinkOr(s, p).received == map[] && forall id | id in s.hints :: s.hints[id].source != p
  {
    forall id | id in s.hints ensures s.hints[id].source != p {
      assert HintInv(s.cfg, s.links, id, s.hints[id]);
    }
  }

  lemma MutedStep(s: Pex, input: Input, s': Pex, effect: Effect, p: PeerId)
    requires Keyed(s.known) && Step(s, input, s', effect) && LinkOr(s, p).muted
    requires forall id | id in s.hints :: s.hints[id].source != p
    ensures input.DoMessage? && input.peer == p ==>
              effect == Effect([], []) && LinkOr(s', p) == LinkOr(s, p) && s'.hints == s.hints
    ensures input == DoLinkDown(p) ==>
              LinkOr(s', p) == FreshLink(s.cfg.interval) && s'.hints == s.hints && s'.links == s.links - {p}
  {
  }
}
