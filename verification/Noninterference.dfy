/** One hop and no further: what a participant is told never shows in what it tells others. */
module Noninterference {
  import opened Basics
  import opened Caps
  import opened Timer
  import opened Entry
  import opened Wire
  import opened Advertise
  import opened State
  import opened Protocol
  import opened Invariant
  import opened Sides

  /** Handshakes and error envelopes: the inbound messages meant to steer the sender. */
  predicate IsControl(input: Input) { input.DoMessage? && !IsData(input.msg) }

  /** `m` lets control messages through whenever `l` does. */
  predicate NoStricter(l: Link, m: Link) {
    && (l.phase == AwaitingHandshake <==> m.phase == AwaitingHandshake)
    && (m.muted ==> l.muted) && m.strikes <= l.strikes
  }

  /** `p` cannot tell from what it is sent whether the state is `s` or `t`. */
  predicate AgreeOn(s: Pex, t: Pex, p: PeerId) {
    SenderOf(LinkOr(s, p)) == SenderOf(LinkOr(t, p)) && NoStricter(LinkOr(s, p), LinkOr(t, p))
  }

  ghost predicate Agree(s: Pex, t: Pex) {
    s.cfg == t.cfg && s.known == t.known && forall p: PeerId :: AgreeOn(s, t, p)
  }

  lemma DataTightensGate(cfg: Config, x: Local, p: PeerId, msg: PexMessage, nowMs: nat)
    requires IsData(msg)
    ensures NoStricter(Dispatch(cfg, x, p, msg, nowMs).0.link, x.link)
  {
    hide IngestAll, DropAll, Strike, Ids, Set, ArrivalFloorMs;
    forall code ensures NoStricter(Strike(x, p, code).0.link, x.link) { StrikeTightensGate(x, p, code); }
  }

  lemma StrikeTightensGate(x: Local, p: PeerId, code: ErrorCode)
    ensures NoStricter(Strike(x, p, code).0.link, x.link)
  {
  }

  /** Gossip and misbehaviour leave the state indistinguishable to every partner, and are answered to
      the offender alone, with an error. */
  lemma NoiseUnseen(s: Pex, input: Input, s': Pex, effect: Effect)
    requires Keyed(s.known) && Step(s, input, s', effect) && IsNoise(input)
    ensures Agree(s', s)
    ensures forall send | send in effect.sends :: send.0 == input.peer && send.1.PexError?
  {
    StepFrame(s, input, s', effect);
    forall p: PeerId ensures AgreeOn(s', s, p) {
      StepMovesSender(s, input, s', effect, p);
      if input.peer != p { StepOtherLink(s, input, s', effect, p); }
      else if input.DoMessage? { DataTightensGate(s.cfg, At(s, p), p, input.msg, input.at); }
    }
  }

  // ----- any other input does the same from either of two agreeing states -----

  /** `l` with the sending half of `m`. */
  function WithSender(l: Link, m: Link): Link {
    l.(handshakeSent := m.handshakeSent, snapshotSent := m.snapshotSent, told := m.told,
       lastDataSendMs := m.lastDataSendMs, sendJitterMs := m.sendJitterMs, selfIntervalSecs := m.selfIntervalSecs)
  }

  lemma SimulateUp(s: Pex, p: PeerId, nowMs: nat, s': Pex, sent: seq<PexMessage>, t: Pex) returns (t': Pex)
    requires Keyed(s.known) && LinkUp(s, p, nowMs, s', sent) && Agree(s, t)
    ensures LinkUp(t, p, nowMs, t', sent) && Agree(s', t')
  {
    assert AgreeOn(s, t, p);
    var jitter := s'.links[p].sendJitterMs;
    t' := t.(links := t.links[p := LinkAfterUp(t.cfg, t.known, LinkOr(t, p), sent[1].peers, nowMs, jitter)]);
    forall q: PeerId ensures AgreeOn(s', t', q) { assert AgreeOn(s, t, q); }
  }

  /** The turn of a link reads and writes its sending half only. */
  lemma TurnReadsSender(s: Pex, t: Pex, p: PeerId, nowMs: nat, l: Link, l': Link, m: Link, sent: Option<PexMessage>)
    requires s.cfg == t.cfg && s.known == t.known && SenderOf(l) == SenderOf(m)
    requires LinkTick(s, p, nowMs, l, l', sent)
    ensures LinkTick(t, p, nowMs, m, WithSender(m, l'), sent)
    ensures SenderOf(WithSender(m, l')) == SenderOf(l')
  {
    if Eligible(l, nowMs) {
      var d: Delta :| IsDelta(s.cfg.Print(), s.known, AdvertisedTo(s, p, nowMs), l.told, d.added, d.dropped)
        && if d == Delta([], []) then l' == l && sent == None
           else sent == Some(PexDelta(d.added, d.dropped)) && JitterDraw(s.cfg, Effective(l), l'.sendJitterMs)
                && l' == LinkAfterDelta(s.cfg, s.known, l, d, nowMs, l'.sendJitterMs);
      assert IsDelta(t.cfg.Print(), t.known, AdvertisedTo(t, p, nowMs), m.told, d.added, d.dropped);
    }
  }

  lemma SimulateTick(s: Pex, nowMs: nat, s': Pex, out: seq<(PeerId, PexMessage)>, t: Pex) returns (t': Pex)
    requires Keyed(s.known) && Tick(s, nowMs, s', out) && Agree(s, t)
    ensures Tick(t, nowMs, t', out) && Agree(s', t')
  {
    t' := t.(links := map p | p in t.links :: WithSender(t.links[p], LinkOr(s', p)));
    forall p: PeerId
      ensures p in t.links ==> LinkTicked(t, nowMs, t', out, p)
      ensures p !in t.links ==> SentTo(out, p) == []
      ensures AgreeOn(s', t', p)
    {
      assert AgreeOn(s, t, p);
      var sent := TickOneLink(s, nowMs, s', out, p);
      TickMovesSender(s, nowMs, s', out, p);
      TurnReadsSender(s, t, p, nowMs, LinkOr(s, p), LinkOr(s', p), LinkOr(t, p), sent);
      if p in t.links {
        assert LinkTick(t, p, nowMs, t.links[p], t'.links[p], sent);
      }
    }
  }

  /** Handled alike: the same answer, and no difference left behind that a partner could tell. */
  ghost predicate Alike(cfg: Config, x: Local, y: Local, p: PeerId, msg: PexMessage, at: nat) {
    var (x', o) := Dispatch(cfg, x, p, msg, at); var (y', q) := Dispatch(cfg, y, p, msg, at);
    o == q && SenderOf(x'.link) == SenderOf(y'.link) && NoStricter(x'.link, y'.link)
  }

  /** Gossip has deafened `l`, and not `m`, to a control message: `l` is muted where `m` would act on the
      message, or the message is the handshake whose strike mutes `l` and not yet `m`. */
  predicate Deafened(l: Link, m: Link, msg: PexMessage, at: nat) {
    if l.muted then !m.muted && (msg.PexError? ==> AppliesBackoff(m, msg.code, at))
    else msg.PexHandshake? && l.phase != AwaitingHandshake && l.strikes + 1 >= PEX_VIOLATION_LIMIT > m.strikes + 1
  }

  /** The one way gossip shows. Two links that differ only by what gossip did to the first handle a
      control message differently exactly when it has deafened the first to that message. */
  lemma ShowsOnlyThroughMute(cfg: Config, x: Local, y: Local, p: PeerId, msg: PexMessage, at: nat)
    requires SenderOf(x.link) == SenderOf(y.link) && NoStricter(x.link, y.link) && !IsData(msg)
    ensures Alike(cfg, x, y, p, msg, at) <==> !Deafened(x.link, y.link, msg, at)
  {
    hide Alike, AppliesBackoff, SenderOf, NoStricter;
    if msg.PexError? {
      ErrorShows(cfg, x, y, p, msg.code, at);
    } else {
      HandshakeShows(cfg, x, y, p, msg, at);
    }
  }

  lemma ErrorShows(cfg: Config, x: Local, y: Local, p: PeerId, code: u16, at: nat)
    requires SenderOf(x.link) == SenderOf(y.link) && NoStricter(x.link, y.link)
    ensures Alike(cfg, x, y, p, PexError(code), at)
            <==> (x.link.muted ==> y.link.muted || !AppliesBackoff(y.link, code, at))
  {
    assert AppliesBackoff(x.link, code, at) == AppliesBackoff(y.link, code, at);
  }

  lemma HandshakeShows(cfg: Config, x: Local, y: Local, p: PeerId, msg: PexMessage, at: nat)
    requires SenderOf(x.link) == SenderOf(y.link) && NoStricter(x.link, y.link) && msg.PexHandshake?
    ensures Alike(cfg, x, y, p, msg, at)
            <==> if x.link.muted then y.link.muted
                 else !(x.link.phase != AwaitingHandshake
                        && x.link.strikes + 1 >= PEX_VIOLATION_LIMIT > y.link.strikes + 1)
  {
    hide Alike;
    if x.link.muted { HandshakeOnMuted(cfg, x, y, p, msg, at); }
    else if x.link.phase != AwaitingHandshake { SecondHandshake(cfg, x, y, p, msg, at); }
    else { FirstHandshake(cfg, x, y, p, msg, at); }
  }

  lemma HandshakeOnMuted(cfg: Config, x: Local, y: Local, p: PeerId, msg: PexMessage, at: nat)
    requires SenderOf(x.link) == SenderOf(y.link) && NoStricter(x.link, y.link) && msg.PexHandshake? && x.link.muted
    ensures Alike(cfg, x, y, p, msg, at) <==> y.link.muted
  {
  }

  lemma SecondHandshake(cfg: Config, x: Local, y: Local, p: PeerId, msg: PexMessage, at: nat)
    requires SenderOf(x.link) == SenderOf(y.link) && NoStricter(x.link, y.link) && msg.PexHandshake?
    requires !x.link.muted && x.link.phase != AwaitingHandshake
    ensures Alike(cfg, x, y, p, msg, at)
            <==> !(x.link.strikes + 1 >= PEX_VIOLATION_LIMIT > y.link.strikes + 1)
  {
    hide WithoutSource;
  }

  lemma FirstHandshake(cfg: Config, x: Local, y: Local, p: PeerId, msg: PexMessage, at: nat)
    requires SenderOf(x.link) == SenderOf(y.link) && NoStricter(x.link, y.link) && msg.PexHandshake?
    requires !x.link.muted && x.link.phase == AwaitingHandshake
    ensures Alike(cfg, x, y, p, msg, at)
  {
    HandshakeAnswersAlike(cfg, x, y, p, msg, at);
    HandshakeLeavesAlike(cfg, x, y, p, msg, at);
    hide Dispatch, SenderOf, NoStricter;
  }

  lemma HandshakeAnswersAlike(cfg: Config, x: Local, y: Local, p: PeerId, msg: PexMessage, at: nat)
    requires NoStricter(x.link, y.link) && msg.PexHandshake? && !x.link.muted && x.link.phase == AwaitingHandshake
    ensures Dispatch(cfg, x, p, msg, at).1 == Dispatch(cfg, y, p, msg, at).1
  {
    hide Mute;
  }

  lemma HandshakeLeavesAlike(cfg: Config, x: Local, y: Local, p: PeerId, msg: PexMessage, at: nat)
    requires SenderOf(x.link) == SenderOf(y.link) && NoStricter(x.link, y.link) && msg.PexHandshake?
    requires !x.link.muted && x.link.phase == AwaitingHandshake
    ensures var l, m := Dispatch(cfg, x, p, msg, at).0.link, Dispatch(cfg, y, p, msg, at).0.link;
            SenderOf(l) == SenderOf(m) && NoStricter(l, m)
  {
    hide Mute, ClampInterval;
    MuteAlike(x, y, p);
  }

  lemma MuteAlike(x: Local, y: Local, p: PeerId)
    requires SenderOf(x.link) == SenderOf(y.link) && NoStricter(x.link, y.link)
    ensures SenderOf(Mute(x, p).link) == SenderOf(Mute(y, p).link) && NoStricter(Mute(x, p).link, Mute(y, p).link)
  {
  }

  lemma SimulateControl(s: Pex, p: PeerId, msg: PexMessage, at: nat, t: Pex)
    requires Agree(s, t) && !IsData(msg) && !Deafened(LinkOr(s, p), LinkOr(t, p), msg, at)
    ensures OnMessage(t, p, msg, at).1 == OnMessage(s, p, msg, at).1
    ensures Agree(OnMessage(s, p, msg, at).0, OnMessage(t, p, msg, at).0)
  {
    assert AgreeOn(s, t, p);
    ShowsOnlyThroughMute(s.cfg, At(s, p), At(t, p), p, msg, at);
    var s', t' := OnMessage(s, p, msg, at).0, OnMessage(t, p, msg, at).0;
    hide Dispatch, Deafened, SenderOf, NoStricter;
    forall q: PeerId ensures AgreeOn(s', t', q) { assert AgreeOn(s, t, q); }
  }

  /** The input is a control message that gossip has deafened `s` to, and not `t`. */
  predicate ShowsAt(s: Pex, t: Pex, input: Input) {
    IsControl(input) && Deafened(LinkOr(s, input.peer), LinkOr(t, input.peer), input.msg, input.at)
  }

  lemma SimulateKnown(s: Pex, s': Pex, t: Pex, t': Pex)
    requires Agree(s, t) && s'.known == t'.known && s' == s.(known := s'.known) && t' == t.(known := t'.known)
    ensures Agree(s', t')
  {
    forall p: PeerId ensures AgreeOn(s', t', p) { assert AgreeOn(s, t, p); }
  }

  lemma Simulate(s: Pex, input: Input, s': Pex, effect: Effect, t: Pex) returns (t': Pex)
    requires Keyed(s.known) && Step(s, input, s', effect) && Agree(s, t)
    requires !IsNoise(input) && !ShowsAt(s, t, input)
    ensures Step(t, input, t', effect) && Agree(s', t') && Keyed(t.known)
  {
    hide LinkUp, Tick, Deafened, Dispatch;
    match input
    case DoUpsert(e) =>
      t' := UpsertKnown(t, e);
      SimulateKnown(s, s', t, t');
    case DoRemove(id) =>
      t' := RemoveKnown(t, id);
      SimulateKnown(s, s', t, t');
    case DoLinkUp(p, at) =>
      var sent :| LinkUp(s, p, at, s', sent) && effect == Effect(Addressed(p, sent), []);
      t' := SimulateUp(s, p, at, s', sent, t);
    case DoLinkDown(p) =>
      t' := LinkDown(t, p);
      forall q: PeerId ensures AgreeOn(s', t', q) { assert AgreeOn(s, t, q); }
    case DoMessage(p, msg, at) =>
      SimulateControl(s, p, msg, at, t);
      t' := OnMessage(t, p, msg, at).0;
    case DoTick(at) => t' := SimulateTick(s, at, s', effect.sends, t);
  }

  // ----- whole runs -----

  /** The inputs that are not gossip or misbehaviour, among the first `n`. */
  function QuietInputs(run: Trace, n: nat): seq<Input>
    requires n <= |run.inputs|
  {
    if n == 0 then []
    else QuietInputs(run, n - 1) + (if IsNoise(run.inputs[n - 1]) then [] else [run.inputs[n - 1]])
  }

  /** What was sent and reported on those inputs. */
  function QuietEffects(run: Trace, n: nat): seq<Effect>
    requires n <= |run.inputs| && |run.effects| == |run.inputs|
  {
    if n == 0 then []
    else QuietEffects(run, n - 1) + (if IsNoise(run.inputs[n - 1]) then [] else [run.effects[n - 1]])
  }

  /** `quiet` is what remains of the first `n` steps of `run` without the gossip: a run from the same
      state that sends and reports exactly the same on every input it still has, and ends in a state no
      partner can tell from the original's. */
  ghost predicate Matches(quiet: Trace, run: Trace, n: nat)
    requires n <= |run.inputs| < |run.states| && |run.effects| == |run.inputs|
  {
    && quiet.IsRun() && quiet.states[0] == run.states[0]
    && quiet.inputs == QuietInputs(run, n) && quiet.effects == QuietEffects(run, n)
    && Agree(run.states[n], quiet.states[|quiet.inputs|])
  }

  lemma AgreeThrough(s: Pex, t: Pex, u: Pex)
    requires Agree(s, t) && Agree(t, u)
    ensures Agree(s, u)
  {
    forall p: PeerId ensures AgreeOn(s, u, p) { assert AgreeOn(s, t, p) && AgreeOn(t, u, p); }
  }

  lemma MatchesOn(quiet: Trace, run: Trace, n: nat) returns (longer: Trace)
    requires run.IsRun() && n < |run.inputs| && Matches(quiet, run, n)
    requires !ShowsAt(run.states[n], quiet.states[|quiet.inputs|], run.inputs[n])
    ensures Matches(longer, run, n + 1)
  {
    var s, input, s', effect := run.states[n], run.inputs[n], run.states[n + 1], run.effects[n];
    RunStep(run, n + 1);
    var t := quiet.states[|quiet.inputs|];
    hide Step, ShowsAt, Agree;
    if IsNoise(input) {
      NoiseUnseen(s, input, s', effect);
      AgreeThrough(s', s, t);
      longer := quiet;
    } else {
      var t' := Simulate(s, input, s', effect, t);
      ExtendRun(quiet, input, effect, t');
      longer := Extend(quiet, input, effect, t');
    }
  }

  /** Take any run and strike out every snapshot, delta and violation that came in. Either what remains
      matches the original all the way, or it matches up to a control message that gossip has deafened
      the original to, which the two then handle differently. */
  lemma {:induction false} GossipShowsOrNever(run: Trace, n: nat) returns (quiet: Trace, i: nat)
    requires run.IsRun() && n <= |run.inputs|
    ensures i <= n && Matches(quiet, run, i)
    ensures i < n ==> ShowsAt(run.states[i], quiet.states[|quiet.inputs|], run.inputs[i])
    ensures i < n ==>
              var s, t, input := run.states[i], quiet.states[|quiet.inputs|], run.inputs[i];
              !Alike(s.cfg, At(s, input.peer), At(t, input.peer), input.peer, input.msg, input.at)
  {
    if n == 0 {
      quiet, i := EmptyRun(run.states[0]), 0;
    } else {
      quiet, i := GossipShowsOrNever(run, n - 1);
      var t := quiet.states[|quiet.inputs|];
      if i == n - 1 && !ShowsAt(run.states[i], t, run.inputs[i]) {
        quiet := MatchesOn(quiet, run, i);
        i := n;
      } else if i == n - 1 {
        DeafenedDiffers(run.states[i], t, run.inputs[i]);
      }
    }
  }

  lemma DeafenedDiffers(s: Pex, t: Pex, input: Input)
    requires Agree(s, t) && ShowsAt(s, t, input)
    ensures !Alike(s.cfg, At(s, input.peer), At(t, input.peer), input.peer, input.msg, input.at)
  {
    assert AgreeOn(s, t, input.peer);
    ShowsOnlyThroughMute(s.cfg, At(s, input.peer), At(t, input.peer), input.peer, input.msg, input.at);
  }

  /** A link that no control message can find deafened: an error falls on a muted link only when it
      would be ignored anyway, and a handshake neither on a muted link nor as the strike that mutes one. */
  predicate Heeds(l: Link, msg: PexMessage, at: nat) {
    if l.muted then msg.PexError? && !AppliesBackoff(l, msg.code, at)
    else !(msg.PexHandshake? && l.phase != AwaitingHandshake && l.strikes + 1 >= PEX_VIOLATION_LIMIT)
  }

  ghost predicate AllHeeded(run: Trace, n: nat)
    requires n <= |run.inputs| < |run.states|
  {
    forall i | 0 <= i < n && IsControl(run.inputs[i]) ::
      Heeds(LinkOr(run.states[i], run.inputs[i].peer), run.inputs[i].msg, run.inputs[i].at)
  }

  /** So as long as no control message falls on deaf ears, inbound gossip never shows. */
  lemma InboundGossipNeverShows(run: Trace, n: nat) returns (quiet: Trace)
    requires run.IsRun() && n <= |run.inputs| && AllHeeded(run, n)
    ensures Matches(quiet, run, n)
  {
    hide Heeds, Deafened, Agree;
    var i;
    quiet, i := GossipShowsOrNever(run, n);
    if i < n { HeedsNeverDeafened(run.states[i], quiet.states[|quiet.inputs|], run.inputs[i]); }
  }

  lemma HeedsNeverDeafened(s: Pex, t: Pex, input: Input)
    requires Agree(s, t)
    requires IsControl(input) ==> Heeds(LinkOr(s, input.peer), input.msg, input.at)
    ensures !ShowsAt(s, t, input)
  {
    if IsControl(input) { assert AgreeOn(s, t, input.peer); }
  }

  // ----- where advertised entries come from -----

  /** Every known entry, and so every entry ever advertised, is one the host put in. */
  ghost predicate FirstHand(run: Trace, n: nat, e: PeerEntry)
    requires n <= |run.inputs|
  {
    exists i | 0 <= i < n :: run.inputs[i] == DoUpsert(e)
  }

  lemma {:induction false} KnownIsFirstHand(run: Trace, n: nat, id: PeerId)
    requires run.IsRun() && n <= |run.inputs| && run.states[0].known == map[]
    requires id in run.states[n].known
    ensures FirstHand(run, n, run.states[n].known[id])
  {
    if n > 0 {
      var s, input, s' := run.states[n - 1], run.inputs[n - 1], run.states[n];
      RunStep(run, n);
      StepFrame(s, input, s', run.effects[n - 1]);
      if id in s.known && s'.known[id] == s.known[id] {
        KnownIsFirstHand(run, n - 1, id);
        var i :| 0 <= i < n - 1 && run.inputs[i] == DoUpsert(s.known[id]);
      } else {
        assert run.inputs[n - 1] == DoUpsert(s'.known[id]);
      }
    }
  }

  lemma {:induction false} InOutbox(out: seq<(PeerId, PexMessage)>, send: (PeerId, PexMessage))
    requires send in out
    ensures send.1 in SentTo(out, send.0)
  {
    if send != out[|out| - 1] { InOutbox(out[..|out| - 1], send); }
  }

  /** The message lists entries as they are known. */
  ghost predicate ListsKnown(known: Known, msg: PexMessage) {
    forall e | e in EntriesIn(msg) :: e.peerId in known && known[e.peerId] == e
  }

  lemma DeltaListsKnown(s: Pex, p: PeerId, l: Link, l': Link, d: Delta, at: nat)
    requires SenderSends(s, p, l, l', d, at)
    ensures ListsKnown(s.known, PexDelta(d.added, d.dropped))
  {
    hide IsDelta, JitterDraw, Eligible, LinkAfterDelta, PendingIds, StaleIds;
    DeltaShape(s.cfg.Print(), s.known, AdvertisedTo(s, p, at), l.told, d.added, d.dropped);
  }

  lemma SnapshotListsKnown(s: Pex, p: PeerId, at: nat, s': Pex, sent: seq<PexMessage>)
    requires Keyed(s.known) && LinkUp(s, p, at, s', sent)
    ensures forall msg | msg in sent :: ListsKnown(s.known, msg)
  {
    SnapshotIds(s, p, at, sent[1].peers);
  }

  lemma StepListsKnown(s: Pex, input: Input, s': Pex, effect: Effect, p: PeerId, msg: PexMessage)
    requires Keyed(s.known) && Step(s, input, s', effect) && msg in SentTo(effect.sends, p)
    ensures ListsKnown(s.known, msg)
  {
    hide Dispatch, LinkUp, Tick, SenderSends;
    match input
    case DoLinkUp(q, at) =>
      var sent: seq<PexMessage> :| LinkUp(s, q, at, s', sent) && effect == Effect(Addressed(q, sent), []);
      SentToAddressed(q, sent, p);
      SnapshotListsKnown(s, q, at, s', sent);
    case DoTick(at) =>
      TickMovesSender(s, at, s', effect.sends, p);
      var d: Delta :| SentTo(effect.sends, p) == [PexDelta(d.added, d.dropped)]
        && SenderSends(s, p, LinkOr(s, p), LinkOr(s', p), d, at);
      DeltaListsKnown(s, p, LinkOr(s, p), LinkOr(s', p), d, at);
    case DoMessage(_, _, _) => InboundAnswers(s, input, s', effect, p);
    case DoViolation(_, _, _) => InboundAnswers(s, input, s', effect, p);
    case _ =>
  }

  /** Every entry a participant ever sends is one its host put in first-hand, unchanged. */
  lemma AdvertisedIsFirstHand(run: Trace, n: nat, send: (PeerId, PexMessage), e: PeerEntry)
    requires run.IsRun() && n < |run.inputs| && run.states[0].known == map[]
    requires send in run.effects[n].sends && e in EntriesIn(send.1)
    ensures FirstHand(run, n, e)
  {
    hide Step;
    RunStep(run, n + 1);
    InOutbox(run.effects[n].sends, send);
    StepListsKnown(run.states[n], run.inputs[n], run.states[n + 1], run.effects[n], send.0, send.1);
    KnownIsFirstHand(run, n, e.peerId);
  }
}
