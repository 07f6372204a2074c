/** One input seen from one link: which half of the link's state it can move, and how. The theorems
    about runs are built from these moves. */
module Sides {
  import opened Basics
  import opened Timer
  import opened Entry
  import opened Wire
  import opened Advertise
  import opened State
  import opened Protocol

  /** The half of a link that decides what is sent on it. */
  datatype SenderSide = SenderSide(
    handshakeSent: bool, snapshotSent: bool, told: Told, lastDataSendMs: Option<nat>, sendJitterMs: nat,
    selfIntervalSecs: u32, lastBackoffAppliedMs: Option<nat>, remoteDeclaredSecs: Option<u32>)

  /** The half of a link that decides what is accepted on it. */
  datatype ReceiverSide = ReceiverSide(
    phase: RecvPhase, remoteDeclaredSecs: Option<u32>, lastArrivalMs: Option<nat>,
    strikes: nat, muted: bool, received: map<PeerId, nat>)

  function SenderOf(l: Link): SenderSide {
    SenderSide(l.handshakeSent, l.snapshotSent, l.told, l.lastDataSendMs, l.sendJitterMs,
               l.selfIntervalSecs, l.lastBackoffAppliedMs, l.remoteDeclaredSecs)
  }

  function ReceiverOf(l: Link): ReceiverSide {
    ReceiverSide(l.phase, l.remoteDeclaredSecs, l.lastArrivalMs, l.strikes, l.muted, l.received)
  }

  predicate IsData(msg: PexMessage) { msg.PexSnapshot? || msg.PexDelta? }

  /** The entries a message carries. */
  function EntriesIn(msg: PexMessage): seq<PeerEntry> {
    match msg
    case PexSnapshot(peers) => peers
    case PexDelta(added, _) => added
    case _ => []
  }

  /** Inputs that only the remote end causes and that carry gossip or misbehaviour. */
  predicate IsNoise(input: Input) {
    (input.DoMessage? && IsData(input.msg)) || input.DoViolation?
  }

  /** Inputs that can make or break the link to `p`. */
  predicate IsLifecycle(input: Input, p: PeerId) {
    (input.DoLinkUp? && input.peer == p) || input == DoLinkDown(p)
  }

  // ----- inbound messages -----

  lemma StrikeKeepsSender(x: Local, p: PeerId, code: ErrorCode)
    ensures SenderOf(Strike(x, p, code).0.link) == SenderOf(x.link)
  {
  }

  /** Gossip, good or bad, never reaches the sending half. */
  lemma DataKeepsSender(cfg: Config, x: Local, p: PeerId, msg: PexMessage, nowMs: nat)
    requires IsData(msg)
    ensures SenderOf(Dispatch(cfg, x, p, msg, nowMs).0.link) == SenderOf(x.link)
  {
    hide IngestAll, DropAll, SnapshotFault, DeltaFault, Strike;
    forall code ensures SenderOf(Strike(x, p, code).0.link) == SenderOf(x.link) { StrikeKeepsSender(x, p, code); }
  }

  /** What a message that is not gossip can do to the sending half. */
  lemma ControlMovesSender(cfg: Config, x: Local, p: PeerId, msg: PexMessage, nowMs: nat)
    requires !IsData(msg)
    ensures var l' := Dispatch(cfg, x, p, msg, nowMs).0.link;
            if msg.PexError? && !x.link.muted && AppliesBackoff(x.link, msg.code, nowMs)
            then l' == BackedOff(x.link, nowMs)
            else SenderOf(l') == SenderOf(x.link).(remoteDeclaredSecs := l'.remoteDeclaredSecs)
  {
    hide AppliesBackoff, BackedOff, Strike, WithoutSource, ClampInterval;
    forall code ensures SenderOf(Strike(x, p, code).0.link) == SenderOf(x.link) { StrikeKeepsSender(x, p, code); }
  }

  // ----- frames -----

  /** A participant's configuration never changes, and only the host changes its first-hand set. */
  lemma StepFrame(s: Pex, input: Input, s': Pex, effect: Effect)
    requires Keyed(s.known) && Step(s, input, s', effect)
    ensures s'.cfg == s.cfg && Keyed(s'.known)
    ensures !input.DoUpsert? && !input.DoRemove? ==> s'.known == s.known
  {
    if input.DoLinkUp? {
      var sent :| LinkUp(s, input.peer, input.at, s', sent) && effect == Effect(Addressed(input.peer, sent), []);
    }
  }

  lemma {:induction false} RunConfig(run: Trace, n: nat)
    requires run.IsRun() && n <= |run.inputs|
    ensures run.states[n].cfg == run.states[0].cfg
  {
    hide Step;
    if n > 0 {
      RunConfig(run, n - 1);
      RunStep(run, n);
      StepFrame(run.states[n - 1], run.inputs[n - 1], run.states[n], run.effects[n - 1]);
    }
  }

  /** Inputs on other links, and changes to the first-hand set, leave the link to `p` alone. */
  lemma StepOtherLink(s: Pex, input: Input, s': Pex, effect: Effect, p: PeerId)
    requires Keyed(s.known) && Step(s, input, s', effect)
    requires !input.DoTick? && !IsLifecycle(input, p)
    requires input.DoMessage? || input.DoViolation? ==> input.peer != p
    ensures LinkOr(s', p) == LinkOr(s, p)
  {
    if input.DoLinkUp? {
      var sent :| LinkUp(s, input.peer, input.at, s', sent) && effect == Effect(Addressed(input.peer, sent), []);
    }
  }

  lemma TickOneLink(s: Pex, nowMs: nat, s': Pex, out: seq<(PeerId, PexMessage)>, p: PeerId)
    returns (sent: Option<PexMessage>)
    requires Keyed(s.known) && Tick(s, nowMs, s', out)
    ensures LinkTick(s, p, nowMs, LinkOr(s, p), LinkOr(s', p), sent) && SentTo(out, p) == AsSeq(sent)
    ensures p in s'.links <==> p in s.links
  {
    if p in s.links {
      assert LinkTicked(s, nowMs, s', out, p);
      sent :| LinkTick(s, p, nowMs, s.links[p], s'.links[p], sent) && SentTo(out, p) == AsSeq(sent);
    } else {
      sent := None;
    }
  }

  // ----- moves of the sending half -----

  /** Nothing sent and the interval unchanged; at most the remote's declaration has arrived. */
  predicate SenderIdles(l: Link, l': Link) {
    SenderOf(l') == SenderOf(l).(remoteDeclaredSecs := l'.remoteDeclaredSecs)
  }

  /** A rate error is honoured. */
  predicate SenderBacksOff(l: Link, l': Link, nowMs: nat) {
    !l.muted && AppliesBackoff(l, ErrorCode.RateViolation.AsU16(), nowMs) && l' == BackedOff(l, nowMs)
  }

  /** A delta goes out. */
  ghost predicate SenderSends(s: Pex, p: PeerId, l: Link, l': Link, d: Delta, nowMs: nat) {
    && Keyed(s.known) && Eligible(l, nowMs) && d != Delta([], [])
    && IsDelta(s.cfg.Print(), s.known, AdvertisedTo(s, p, nowMs), l.told, d.added, d.dropped)
    && JitterDraw(s.cfg, Effective(l), l'.sendJitterMs)
    && l' == LinkAfterDelta(s.cfg, s.known, l, d, nowMs, l'.sendJitterMs)
  }

  /** What one input can do to the sending half of a link that is neither raised nor torn down. */
  ghost predicate SenderMoves(s: Pex, input: Input, l: Link, l': Link, sends: seq<(PeerId, PexMessage)>, p: PeerId) {
    || SenderIdles(l, l')
    || (exists at :: input == DoMessage(p, PexError(3), at) && SenderBacksOff(l, l', at))
    || (exists d: Delta :: input.DoTick? && SentTo(sends, p) == [PexDelta(d.added, d.dropped)]
          && SenderSends(s, p, l, l', d, input.at))
  }

  /** The deltas on the wire are exactly the sending moves. */
  ghost predicate DeltaSent(effect: Effect, input: Input, p: PeerId) {
    input.DoTick? && SentTo(effect.sends, p) != []
  }

  lemma TickMovesSender(s: Pex, nowMs: nat, s': Pex, out: seq<(PeerId, PexMessage)>, p: PeerId)
    requires Keyed(s.known) && Tick(s, nowMs, s', out)
    ensures ReceiverOf(LinkOr(s', p)) == ReceiverOf(LinkOr(s, p))
    ensures if SentTo(out, p) == [] then LinkOr(s', p) == LinkOr(s, p)
            else exists d: Delta :: SentTo(out, p) == [PexDelta(d.added, d.dropped)]
                   && SenderSends(s, p, LinkOr(s, p), LinkOr(s', p), d, nowMs)
  {
    var sent := TickOneLink(s, nowMs, s', out, p);
    var l, l' := LinkOr(s, p), LinkOr(s', p);
    if sent.Some? {
      var d: Delta :| IsDelta(s.cfg.Print(), s.known, AdvertisedTo(s, p, nowMs), l.told, d.added, d.dropped)
        && d != Delta([], []) && sent == Some(PexDelta(d.added, d.dropped))
        && JitterDraw(s.cfg, Effective(l), l'.sendJitterMs)
        && l' == LinkAfterDelta(s.cfg, s.known, l, d, nowMs, l'.sendJitterMs);
      assert SenderSends(s, p, l, l', d, nowMs);
    }
  }

  lemma MessageMovesSender(s: Pex, p: PeerId, msg: PexMessage, at: nat)
    ensures var l, l' := LinkOr(s, p), Dispatch(s.cfg, At(s, p), p, msg, at).0.link;
            && (SenderIdles(l, l') || (msg == PexError(3) && SenderBacksOff(l, l', at)))
            && l'.snapshotSent == l.snapshotSent && l'.told == l.told && l'.lastDataSendMs == l.lastDataSendMs
            && (IsData(msg) ==> SenderOf(l') == SenderOf(l))
  {
    hide Dispatch;
    if IsData(msg) { DataKeepsSender(s.cfg, At(s, p), p, msg, at); }
    else { ControlMovesSender(s.cfg, At(s, p), p, msg, at); }
  }

  lemma StepMovesSender(s: Pex, input: Input, s': Pex, effect: Effect, p: PeerId)
    requires Keyed(s.known) && Step(s, input, s', effect) && !IsLifecycle(input, p)
    ensures SenderMoves(s, input, LinkOr(s, p), LinkOr(s', p), effect.sends, p)
    ensures LinkOr(s', p).snapshotSent == LinkOr(s, p).snapshotSent
    ensures !DeltaSent(effect, input, p) ==>
              LinkOr(s', p).told == LinkOr(s, p).told && LinkOr(s', p).lastDataSendMs == LinkOr(s, p).lastDataSendMs
    ensures DeltaSent(effect, input, p) ==>
              exists d: Delta :: SenderSends(s, p, LinkOr(s, p), LinkOr(s', p), d, input.at)
    ensures IsNoise(input) ==> SenderOf(LinkOr(s', p)) == SenderOf(LinkOr(s, p))
  {
    hide Dispatch, Strike, IsDelta, BackedOff, AppliesBackoff, JitterDraw;
    match input
    case DoTick(at) =>
      TickMovesSender(s, at, s', effect.sends, p);
      if SentTo(effect.sends, p) != [] {
        var d: Delta :| SentTo(effect.sends, p) == [PexDelta(d.added, d.dropped)]
          && SenderSends(s, p, LinkOr(s, p), LinkOr(s', p), d, at);
      }
    case DoMessage(q, msg, at) =>
      if q == p { MessageMovesSender(s, p, msg, at); } else { StepOtherLink(s, input, s', effect, p); }
    case DoViolation(q, code, at) =>
      if q == p { StrikeKeepsSender(At(s, p), p, code); } else { StepOtherLink(s, input, s', effect, p); }
    case _ => StepOtherLink(s, input, s', effect, p);
  }

  // ----- answers -----

  lemma {:induction false} SentToAddressed(p: PeerId, msgs: seq<PexMessage>, q: PeerId)
    ensures SentTo(Addressed(p, msgs), q) == if p == q then msgs else []
  {
    if msgs != [] {
      var init := msgs[..|msgs| - 1];
      SentToAddressed(p, init, q);
      assert Addressed(p, msgs)[..|msgs| - 1] == Addressed(p, init);
      assert msgs == init + [msgs[|msgs| - 1]];
    } else {
      assert Addressed(p, msgs) == [];
    }
  }

  /** Replies to whatever comes in are errors. */
  lemma RepliesAreErrors(cfg: Config, x: Local, p: PeerId, msg: PexMessage, at: nat)
    ensures forall r | r in Dispatch(cfg, x, p, msg, at).1.replies :: r.PexError?
  {
    hide IngestAll, DropAll;
  }

  lemma InboundAnswers(s: Pex, input: Input, s': Pex, effect: Effect, p: PeerId)
    requires Keyed(s.known) && Step(s, input, s', effect) && (input.DoMessage? || input.DoViolation?)
    ensures forall msg | msg in SentTo(effect.sends, p) :: msg.PexError?
  {
    hide Dispatch, SentTo;
    var replies := if input.DoMessage? then OnMessage(s, input.peer, input.msg, input.at).1.replies
                   else RecordViolation(s, input.peer, input.code).1.replies;
    if input.DoMessage? { RepliesAreErrors(s.cfg, At(s, input.peer), input.peer, input.msg, input.at); }
    SentToAddressed(input.peer, replies, p);
  }

  // ----- moves of the receiving half -----

  /** Only what arrives on a link, or its teardown, moves its receiving half. */
  lemma StepKeepsReceiver(s: Pex, input: Input, s': Pex, effect: Effect, p: PeerId)
    requires Keyed(s.known) && Step(s, input, s', effect)
    requires input.DoMessage? || input.DoViolation? ==> input.peer != p
    requires input != DoLinkDown(p)
    ensures ReceiverOf(LinkOr(s', p)) == ReceiverOf(LinkOr(s, p))
  {
    if input.DoTick? {
      TickMovesSender(s, input.at, s', effect.sends, p);
    } else if input.DoLinkUp? && input.peer == p {
      var sent :| LinkUp(s, p, input.at, s', sent) && effect == Effect(Addressed(p, sent), []);
    } else {
      StepOtherLink(s, input, s', effect, p);
    }
  }

  /** A delta is let in: its link streams unmuted and nothing is wrong with it. */
  ghost predicate AdmitsDelta(l: Link, input: Input, p: PeerId) {
    && input.DoMessage? && input.peer == p && input.msg.PexDelta? && !l.muted
    && DeltaFault(l, input.msg.added, input.msg.dropped, input.at) == None
  }

  ghost predicate AdmitsSnapshot(l: Link, input: Input, p: PeerId) {
    && input.DoMessage? && input.peer == p && input.msg.PexSnapshot? && !l.muted
    && SnapshotFault(l, input.msg.peers) == None
  }

  /** The part of the receiving half that times arrivals. */
  predicate SameArrival(l: Link, l': Link) {
    l'.lastArrivalMs == l.lastArrivalMs && (l.phase == Streaming ==> l'.phase == Streaming)
    && (l.phase == Streaming ==> l'.remoteDeclaredSecs == l.remoteDeclaredSecs)
  }

  lemma StrikeKeepsArrival(x: Local, p: PeerId, code: ErrorCode)
    ensures SameArrival(x.link, Strike(x, p, code).0.link)
  {
  }

  lemma ReceiverSame(s: Pex, input: Input, s': Pex, effect: Effect, p: PeerId)
    requires Keyed(s.known) && Step(s, input, s', effect) && input != DoLinkDown(p)
    requires input.DoMessage? || input.DoViolation? ==> input.peer != p
    ensures SameArrival(LinkOr(s, p), LinkOr(s', p))
  {
    hide Step;
    StepKeepsReceiver(s, input, s', effect, p);
  }

  lemma MessageMovesArrival(cfg: Config, x: Local, p: PeerId, msg: PexMessage, nowMs: nat)
    ensures var l, l', input := x.link, Dispatch(cfg, x, p, msg, nowMs).0.link, DoMessage(p, msg, nowMs);
            if AdmitsDelta(l, input, p) || AdmitsSnapshot(l, input, p)
            then
              && l'.lastArrivalMs == Some(nowMs) && l'.phase == Streaming
              && l'.remoteDeclaredSecs == l.remoteDeclaredSecs
            else SameArrival(l, l')
  {
    hide IngestAll, DropAll, DeltaFault, WithoutSource, Strike, AppliesBackoff, ClampInterval;
    forall code ensures SameArrival(x.link, Strike(x, p, code).0.link) { StrikeKeepsArrival(x, p, code); }
  }

  /** The arrival clock and the remote's declaration move only when a message is let in. */
  lemma StepMovesArrival(s: Pex, input: Input, s': Pex, effect: Effect, p: PeerId)
    requires Keyed(s.known) && Step(s, input, s', effect) && input != DoLinkDown(p)
    ensures var l, l' := LinkOr(s, p), LinkOr(s', p);
            && (AdmitsDelta(l, input, p) || AdmitsSnapshot(l, input, p) ==> l'.lastArrivalMs == Some(input.at))
            && (!AdmitsDelta(l, input, p) && !AdmitsSnapshot(l, input, p) ==> l'.lastArrivalMs == l.lastArrivalMs)
            && (l.phase == Streaming ==> l'.phase == Streaming && l'.remoteDeclaredSecs == l.remoteDeclaredSecs)
  {
    hide Dispatch, Strike, DeltaFault, SnapshotFault, ReceiverOf;
    if input.DoMessage? && input.peer == p {
      MessageMovesArrival(s.cfg, At(s, p), p, input.msg, input.at);
    } else if input.DoViolation? && input.peer == p {
      StrikeKeepsArrival(At(s, p), p, input.code);
    } else {
      ReceiverSame(s, input, s', effect, p);
    }
  }
}
