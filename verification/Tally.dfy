/** What over-bound frames cost an honest sender: one strike each, and the direction at the third. The
    deltas lost on the way put the receiver's replica out, but never make it refuse what does arrive. */
module Tally {
  import opened Basics
  import opened Caps
  import opened Timer
  import opened Entry
  import opened Wire
  import opened Advertise
  import opened State
  import opened Protocol
  import opened Invariant
  import opened Sides
  import opened Frames
  import opened World

  /** The frames past the bound that the first `n` acts deliver. */
  ghost function Overlong(run: WorldRun, n: nat): nat
    requires run.IsRun() && n <= |run.acts|
  {
    if n == 0 then 0 else Overlong(run, n - 1) + (if FrameFits(run, n - 1) then 0 else 1)
  }

  /** The clocks and the phase of a link that still listens, whatever it holds. */
  predicate Times(l: Link, interval: u32, phase: RecvPhase, arrivedAt: nat) {
    && !l.muted && l.phase == phase
    && (phase != AwaitingHandshake ==> l.remoteDeclaredSecs == Some(ClampInterval(interval)))
    && (phase == Streaming ==> l.lastArrivalMs == Some(arrivedAt))
  }

  /** `c` is where the wire starts, counting what was lost; what was taken is no further on. */
  ghost predicate StartsAt(w: World, c: Cursor) {
    && Leads(w.a.cfg, c, w.wire, SenderCursor(w.a, w.b.cfg.localPeerId))
    && c.phase == w.reached.phase && w.reached.lastSent <= c.lastSent
  }

  ghost predicate Listening(w: World) {
    && Times(LinkOr(w.b, w.a.cfg.localPeerId), w.a.cfg.interval, w.reached.phase, w.arrivedAt)
    && exists c :: StartsAt(w, c)
  }

  /** Only a delta can be past the bound. */
  ghost predicate OnlyDeltasOverlong(w: World) {
    && MessageFits(w.a.cfg.encoder, Handshake(w.a.cfg))
    && forall parcel | parcel in w.wire :: parcel.msg.PexDelta? || MessageFits(w.a.cfg.encoder, parcel.msg)
  }

  predicate Counts(l: Link, count: nat) { l.strikes == count && (l.muted <==> count >= PEX_VIOLATION_LIMIT) }

  ghost predicate TallyInv(w: World, count: nat) {
    && Inv(w.a) && Inv(w.b) && SameNetwork(w.a.cfg, w.b.cfg) && OnlyDeltasOverlong(w)
    && Counts(LinkOr(w.b, w.a.cfg.localPeerId), count)
    && (count < PEX_VIOLATION_LIMIT ==> Listening(w))
  }

  // ----- what the sender posts -----

  lemma SendsFitOrDelta(s: Pex, input: Input, s': Pex, effect: Effect, p: PeerId, msg: PexMessage)
    requires Keyed(s.known) && Step(s, input, s', effect) && msg in SentTo(effect.sends, p)
    requires MessageFits(s.cfg.encoder, Handshake(s.cfg))
    ensures msg.PexDelta? || MessageFits(s.cfg.encoder, msg)
  {
    hide Dispatch, Strike, LinkUp, Tick, SenderSends, MessageFits;
    match input
    case DoLinkUp(q, at) =>
      var sent: seq<PexMessage> :| LinkUp(s, q, at, s', sent) && effect == Effect(Addressed(q, sent), []);
      SentToAddressed(q, sent, p);
      SnapshotFits(s, q, at, s', sent);
    case DoTick(at) => TickMovesSender(s, at, s', effect.sends, p);
    case DoMessage(_, _, _) =>
      InboundAnswers(s, input, s', effect, p);
      ErrorFits(s.cfg.encoder, msg);
    case DoViolation(_, _, _) =>
      InboundAnswers(s, input, s', effect, p);
      ErrorFits(s.cfg.encoder, msg);
    case _ =>
  }

  lemma MailFitsOrDelta(s: Pex, input: Input, s': Pex, effect: Effect, p: PeerId)
    requires Keyed(s.known) && Step(s, input, s', effect) && MessageFits(s.cfg.encoder, Handshake(s.cfg))
    ensures forall parcel | parcel in Mail(s', input, effect, p) ::
              parcel.msg.PexDelta? || MessageFits(s.cfg.encoder, parcel.msg)
  {
    hide Step, MessageFits, SentTo;
    forall parcel | parcel in Mail(s', input, effect, p)
      ensures parcel.msg.PexDelta? || MessageFits(s.cfg.encoder, parcel.msg)
    {
      assert parcel.msg in SentTo(effect.sends, p);
      SendsFitOrDelta(s, input, s', effect, p, parcel.msg);
    }
  }

  lemma SenderKeepsTally(w: World, input: Input, effect: Effect, w': World, count: nat)
    requires TallyInv(w, count) && Keyed(w.a.known) && Keyed(w.b.known) && WorldStep(w, SenderActs(input, effect), w')
    ensures TallyInv(w', count)
  {
    hide Inv, Step, Leads, SenderCursor, Mail, MessageFits, Times;
    var p := w.b.cfg.localPeerId;
    StepInv(w.a, input, w'.a, effect);
    StepFrame(w.a, input, w'.a, effect);
    MailFitsOrDelta(w.a, input, w'.a, effect, p);
    if count < PEX_VIOLATION_LIMIT {
      var c :| StartsAt(w, c);
      SendsInOrder(w.a, input, w'.a, effect, p);
      LeadsOn(w.a.cfg, c, w.wire, SenderCursor(w.a, p), Mail(w'.a, input, effect, p), SenderCursor(w'.a, p));
      assert StartsAt(w', c);
    }
  }

  lemma LeadsOn(cfg: Config, c: Cursor, wire: seq<Parcel>, mid: Cursor, more: seq<Parcel>, end: Cursor)
    requires Leads(cfg, c, wire, mid) && Leads(cfg, mid, more, end)
    ensures Leads(cfg, c, wire + more, end)
  {
    hide AllInOrder, AdvancedOver;
    Append(cfg, c, wire, more);
  }

  lemma LeadsNext(cfg: Config, c: Cursor, wire: seq<Parcel>, end: Cursor)
    requires Leads(cfg, c, wire, end) && wire != []
    ensures InOrder(cfg, c, wire[0]) && Leads(cfg, Advanced(c, wire[0]), wire[1..], end)
  {
    hide InOrder, Advanced;
  }

  lemma ReceiverKeepsTally(w: World, input: Input, effect: Effect, w': World, count: nat)
    requires TallyInv(w, count) && Keyed(w.a.known) && Keyed(w.b.known) && WorldStep(w, ReceiverActs(input, effect), w')
    ensures TallyInv(w', count)
  {
    hide Inv, Step, Leads, SenderCursor, MessageFits;
    var p := w.a.cfg.localPeerId;
    StepInv(w.b, input, w'.b, effect);
    StepFrame(w.b, input, w'.b, effect);
    StepKeepsReceiver(w.b, input, w'.b, effect, p);
    assert SameReceiver(LinkOr(w.b, p), LinkOr(w'.b, p));
    if count < PEX_VIOLATION_LIMIT {
      var c :| StartsAt(w, c);
      assert StartsAt(w', c);
    }
  }

  predicate SameReceiver(l: Link, l': Link) {
    && l'.muted == l.muted && l'.phase == l.phase && l'.strikes == l.strikes
    && l'.remoteDeclaredSecs == l.remoteDeclaredSecs && l'.lastArrivalMs == l.lastArrivalMs
  }

  // ----- what the receiver makes of a frame -----

  /** A message in order after `c` is taken in silence, with no strike more, by a link that listens. */
  lemma Taken(a: Config, cfg: Config, x: Local, p: PeerId, c: Cursor, parcel: Parcel, at: nat, arrivedAt: nat)
    requires Times(x.link, a.interval, c.phase, arrivedAt) && SameNetwork(a, cfg) && InOrder(a, c, parcel)
    requires parcel.msg.PexDelta? ==> at >= arrivedAt + ArrivalFloorMs(a.interval)
    ensures var (y, o) := Dispatch(cfg, x, p, parcel.msg, at);
            && Undisturbed(o) && y.link.strikes == x.link.strikes
            && Times(y.link, a.interval, Advanced(c, parcel).phase, if IsData(parcel.msg) then at else arrivedAt)
  {
    match parcel.msg
    case PexError(_) => hide IngestAll, DropAll;
    case PexHandshake(_, _, _, _) => hide IngestAll, DropAll;
    case PexSnapshot(_) => hide IngestAll, DropAll;
    case PexDelta(added, dropped) =>
      InTimeNoFault(x.link, added, dropped, at, a.interval, arrivedAt);
      TakesDelta(cfg, x, p, added, dropped, at);
      hide Dispatch, DeltaFault, IngestAll, DropAll;
  }

  lemma InTimeNoFault(l: Link, added: seq<PeerEntry>, dropped: seq<PeerId>, at: nat, interval: u32, arrivedAt: nat)
    requires Times(l, interval, Streaming, arrivedAt) && at >= arrivedAt + ArrivalFloorMs(interval)
    requires |added| <= PEX_MAX_ADDED && |dropped| <= PEX_MAX_DROPPED && Ids(added) * Set(dropped) == {}
    ensures DeltaFault(l, added, dropped, at) == None
  {
    hide Ids, Set;
  }

  lemma OnMuted(cfg: Config, x: Local, p: PeerId, msg: PexMessage, at: nat)
    requires x.link.muted
    ensures Dispatch(cfg, x, p, msg, at) == (x, NoOutcome)
  {
  }

  /** What the next frame makes of a listening link, and where it leaves the wire. */
  lemma NextTaken(w: World, c: Cursor, at: nat)
    requires SameNetwork(w.a.cfg, w.b.cfg) && StartsAt(w, c) && w.wire != [] && InTime(w, w.wire[0], at)
    requires Times(LinkOr(w.b, w.a.cfg.localPeerId), w.a.cfg.interval, w.reached.phase, w.arrivedAt)
    ensures var (x, o) := Dispatch(w.b.cfg, At(w.b, w.a.cfg.localPeerId), w.a.cfg.localPeerId, w.wire[0].msg, at);
            && Undisturbed(o) && x.link.strikes == LinkOr(w.b, w.a.cfg.localPeerId).strikes
            && Times(x.link, w.a.cfg.interval, Advanced(w.reached, w.wire[0]).phase,
                     if IsData(w.wire[0].msg) then at else w.arrivedAt)
    ensures forall b': Pex :: b'.cfg == w.b.cfg && NextFits(w) ==>
              StartsAt(AfterDelivery(w, at, b'), Advanced(c, w.wire[0]))
  {
    var p, parcel := w.a.cfg.localPeerId, w.wire[0];
    hide Dispatch, Times, SenderCursor, Undisturbed, NextFits;
    LeadsNext(w.a.cfg, c, w.wire, SenderCursor(w.a, w.b.cfg.localPeerId));
    hide Leads;
    Taken(w.a.cfg, w.b.cfg, At(w.b, p), p, c, parcel, at, w.arrivedAt);
  }

  lemma StillListening(w: World, at: nat, b': Pex)
    requires Listening(w) && SameNetwork(w.a.cfg, w.b.cfg) && b'.cfg == w.b.cfg
    requires w.wire != [] && InTime(w, w.wire[0], at) && NextFits(w)
    requires var p := w.a.cfg.localPeerId;
             LinkOr(b', p) == Dispatch(w.b.cfg, At(w.b, p), p, w.wire[0].msg, at).0.link
    ensures Listening(AfterDelivery(w, at, b'))
    ensures var p, b := w.a.cfg.localPeerId, w.b;
            Undisturbed(Dispatch(b.cfg, At(b, p), p, w.wire[0].msg, at).1)
            && LinkOr(b', p).strikes == LinkOr(b, p).strikes && !LinkOr(b', p).muted
  {
    var c :| StartsAt(w, c);
    hide Dispatch, MessageFits, StartsAt, InTime, Undisturbed, LinkOr, SameNetwork;
    NextTaken(w, c, at);
    assert StartsAt(AfterDelivery(w, at, b'), Advanced(c, w.wire[0]));
  }

  /** What the engine does with a message in order, muted or listening. */
  lemma FitMovesLink(w: World, at: nat, effect: Effect, w': World, count: nat)
    requires TallyInv(w, count) && Keyed(w.a.known) && Keyed(w.b.known) && WorldStep(w, Deliver(at, effect), w')
    requires NextFits(w) && w'.b.cfg == w.b.cfg
    ensures effect.sends == [] && forall e | e in effect.events :: !e.Violation?
    ensures Counts(LinkOr(w'.b, w.a.cfg.localPeerId), count)
    ensures count < PEX_VIOLATION_LIMIT ==> Listening(w')
  {
    var p := w.a.cfg.localPeerId;
    var o := Dispatch(w.b.cfg, At(w.b, p), p, w.wire[0].msg, at).1;
    DeliveryMovesLink(w, at, effect, w');
    DeliveryAnswers(w, at, effect, w');
    hide Inv, Dispatch, Step, Listening, MessageFits, OnlyDeltasOverlong, SameNetwork, InTime, LinkOr, AfterDelivery;
    if count >= PEX_VIOLATION_LIMIT {
      OnMuted(w.b.cfg, At(w.b, p), p, w.wire[0].msg, at);
    } else {
      StillListening(w, at, w'.b);
    }
  }

  lemma DeliveryAnswers(w: World, at: nat, effect: Effect, w': World)
    requires w.wire != [] && NextFits(w) && Keyed(w.b.known) && Step(w.b, Arriving(w, at), w'.b, effect)
    ensures var p := w.a.cfg.localPeerId;
            var o := Dispatch(w.b.cfg, At(w.b, p), p, w.wire[0].msg, at).1;
            effect == Effect(Addressed(p, o.replies), o.events)
  {
    hide Dispatch, MessageFits;
  }

  lemma FitKeepsTally(w: World, at: nat, effect: Effect, w': World, count: nat)
    requires TallyInv(w, count) && Keyed(w.a.known) && Keyed(w.b.known) && WorldStep(w, Deliver(at, effect), w')
    requires NextFits(w)
    ensures TallyInv(w', count)
    ensures effect.sends == [] && forall e | e in effect.events :: !e.Violation?
  {
    hide Inv, Step, MessageFits, Listening, LinkOr, InTime;
    StepInv(w.b, Arriving(w, at), w'.b, effect);
    StepFrame(w.b, Arriving(w, at), w'.b, effect);
    FitMovesLink(w, at, effect, w', count);
  }

  /** A frame past the bound is a delta lost, and a strike. */
  lemma OverlongMovesLink(w: World, at: nat, effect: Effect, w': World, count: nat)
    requires TallyInv(w, count) && Keyed(w.a.known) && Keyed(w.b.known) && WorldStep(w, Deliver(at, effect), w')
    requires !NextFits(w) && w'.b.cfg == w.b.cfg
    ensures effect.events == [Violation(Oversized.AsU16(), count + 1 >= PEX_VIOLATION_LIMIT)]
    ensures Counts(LinkOr(w'.b, w.a.cfg.localPeerId), count + 1)
    ensures count + 1 < PEX_VIOLATION_LIMIT ==> Listening(w')
  {
    hide Inv, Step, NextFits, OnlyDeltasOverlong, SameNetwork, InTime, LinkOr, Arriving;
    assert count + 1 < PEX_VIOLATION_LIMIT ==> !LinkOr(w.b, w.a.cfg.localPeerId).muted;
    hide Listening, AfterDelivery;
    OverlongIsDelta(w);
    StrikeMovesLink(w, at, effect, w');
    if count + 1 < PEX_VIOLATION_LIMIT { ListensOn(w, at, w'.b); }
  }

  /** Losing a delta moves no clock of the receiver's, and the wire starts further on. */
  lemma ListensOn(w: World, at: nat, b': Pex)
    requires Listening(w) && w.wire != [] && w.wire[0].msg.PexDelta? && !NextFits(w) && b'.cfg == w.b.cfg
    requires var l, l' := LinkOr(w.b, w.a.cfg.localPeerId), LinkOr(b', w.a.cfg.localPeerId);
             l'.muted == l.muted && l'.phase == l.phase && l'.remoteDeclaredSecs == l.remoteDeclaredSecs
             && l'.lastArrivalMs == l.lastArrivalMs
    ensures Listening(AfterDelivery(w, at, b'))
  {
    hide MessageFits, LinkOr, SenderCursor;
    var c :| StartsAt(w, c);
    LeadsNext(w.a.cfg, c, w.wire, SenderCursor(w.a, w.b.cfg.localPeerId));
    hide Leads;
    assert StartsAt(AfterDelivery(w, at, b'), Advanced(c, w.wire[0]));
  }

  lemma OverlongIsDelta(w: World)
    requires w.wire != [] && OnlyDeltasOverlong(w) && !NextFits(w)
    ensures w.wire[0].msg.PexDelta?
  {
    hide MessageFits;
    assert w.wire[0] in w.wire;
  }

  lemma StrikeMovesLink(w: World, at: nat, effect: Effect, w': World)
    requires w.wire != [] && !NextFits(w) && Keyed(w.b.known) && Step(w.b, Arriving(w, at), w'.b, effect)
    ensures var l, l' := LinkOr(w.b, w.a.cfg.localPeerId), LinkOr(w'.b, w.a.cfg.localPeerId);
            var mute := l.strikes + 1 >= PEX_VIOLATION_LIMIT;
            && l'.strikes == l.strikes + 1 && l'.muted == (l.muted || mute)
            && l'.phase == l.phase && l'.remoteDeclaredSecs == l.remoteDeclaredSecs
            && l'.lastArrivalMs == l.lastArrivalMs
            && effect.events == [Violation(Oversized.AsU16(), mute)]
  {
    hide MessageFits;
  }

  lemma OverlongKeepsTally(w: World, at: nat, effect: Effect, w': World, count: nat)
    requires TallyInv(w, count) && Keyed(w.a.known) && Keyed(w.b.known) && WorldStep(w, Deliver(at, effect), w')
    requires !NextFits(w)
    ensures TallyInv(w', count + 1)
    ensures effect.events == [Violation(Oversized.AsU16(), count + 1 >= PEX_VIOLATION_LIMIT)]
  {
    hide Inv, Step, MessageFits, Listening, LinkOr, InTime;
    StepInv(w.b, Arriving(w, at), w'.b, effect);
    StepFrame(w.b, Arriving(w, at), w'.b, effect);
    OverlongMovesLink(w, at, effect, w', count);
  }

  // ----- runs -----

  lemma StartTally(w: World)
    requires Start(w) && MessageFits(w.a.cfg.encoder, Handshake(w.a.cfg))
    ensures TallyInv(w, 0)
  {
    hide Inv, MessageFits;
    assert StartsAt(w, w.reached);
  }

  lemma {:induction false} RunKeepsTally(run: WorldRun, n: nat)
    requires run.IsRun() && n <= |run.acts| && Start(run.worlds[0])
    requires MessageFits(run.worlds[0].a.cfg.encoder, Handshake(run.worlds[0].a.cfg))
    ensures TallyInv(run.worlds[n], Overlong(run, n))
  {
    hide Keyed, TallyInv, NextFits, Step, AfterDelivery, InTime, Mail, MessageFits;
    if n == 0 {
      StartTally(run.worlds[0]);
    } else {
      RunKeepsTally(run, n - 1);
      assert run.StepAt(n - 1);
      var w, w', count := run.worlds[n - 1], run.worlds[n], Overlong(run, n - 1);
      match run.acts[n - 1]
      case SenderActs(input, effect) => SenderKeepsTally(w, input, effect, w', count);
      case ReceiverActs(input, effect) => ReceiverKeepsTally(w, input, effect, w', count);
      case Deliver(at, effect) =>
        if NextFits(w) {
          FitKeepsTally(w, at, effect, w', count);
        } else {
          OverlongKeepsTally(w, at, effect, w', count);
        }
    }
  }

  /** What an honest sender is struck for, exactly. If its handshake fits the frame bound, the receiver
      holds one strike against it for every frame past the bound delivered so far, and has muted it if and
      only if there were three or more; such a frame is reported as oversized, and whatever fits is taken
      without an error or a violation, losses before it or not. */
  lemma StrikesCountOverlong(run: WorldRun, n: nat)
    requires run.IsRun() && n <= |run.acts| && Start(run.worlds[0])
    requires MessageFits(run.worlds[0].a.cfg.encoder, Handshake(run.worlds[0].a.cfg))
    ensures var l := LinkOr(run.worlds[n].b, run.worlds[n].a.cfg.localPeerId);
            l.strikes == Overlong(run, n) && (l.muted <==> Overlong(run, n) >= PEX_VIOLATION_LIMIT)
    ensures n < |run.acts| && run.acts[n].Deliver? ==>
              var effect := run.acts[n].effect;
              if FrameFits(run, n) then effect.sends == [] && forall e | e in effect.events :: !e.Violation?
              else effect.events == [Violation(Oversized.AsU16(), Overlong(run, n + 1) >= PEX_VIOLATION_LIMIT)]
  {
    hide Inv, Listening, OnlyDeltasOverlong, WorldStep, MessageFits, NextFits;
    RunKeepsTally(run, n);
    if n < |run.acts| && run.acts[n].Deliver? {
      hide TallyInv, Keyed;
      var w, act, w', count := run.worlds[n], run.acts[n], run.worlds[n + 1], Overlong(run, n);
      assert run.StepAt(n);
      HasNext(w, act, w');
      if NextFits(w) {
        FitKeepsTally(w, act.at, act.effect, w', count);
      } else {
        OverlongKeepsTally(w, act.at, act.effect, w', count);
      }
    }
  }
}
