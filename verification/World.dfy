/** Two participants and the wire from one to the other. The sender is honest but its host, its other
    partners and whatever is forged on the way back to it are arbitrary; the receiver's host and other
    partners are arbitrary too. The wire is in order, from one data message to the next its delay shrinks by
    no more than the arrival grace, and a frame past the bound arrives as the transport violation it is. */
module World {
  import opened Basics
  import opened Caps
  import opened Timer
  import opened Entry
  import opened Wire
  import opened Bounded
  import opened Advertise
  import opened State
  import opened Protocol
  import opened Invariant
  import opened Sides
  import opened Pacing
  import opened Attribution
  import opened Convergence
  import opened Frames

  /** A message on the wire, with the sender's clock and told ids when it was sent. */
  datatype Parcel = Parcel(msg: PexMessage, sentAt: nat, told: set<PeerId>)

  /** How far one end has got: its phase, when the last data message was sent, and what the sender had
      told by then. */
  datatype Cursor = Cursor(phase: RecvPhase, lastSent: nat, told: set<PeerId>)

  /** `reached` and `arrivedAt` describe the last data message delivered; `clean` records whether every
      entry delivered so far was kept and the attribution cap was never in the way. */
  datatype World = World(a: Pex, b: Pex, wire: seq<Parcel>, reached: Cursor, arrivedAt: nat, clean: bool)

  datatype Act =
    | SenderActs(input: Input, effect: Effect)
    | ReceiverActs(input: Input, effect: Effect)
    | Deliver(at: nat, effect: Effect)

  function Post(msgs: seq<PexMessage>, at: nat, told: set<PeerId>): seq<Parcel> {
    seq(|msgs|, i requires 0 <= i < |msgs| => Parcel(msgs[i], at, told))
  }

  /** What a step that reached state `s` posts to `p`. */
  ghost function Mail(s: Pex, input: Input, effect: Effect, p: PeerId): seq<Parcel> {
    Post(SentTo(effect.sends, p), Clock(input).GetOr(0), LinkOr(s, p).told.Keys)
  }

  // ----- steps -----

  /** The sender's host raises the link once and does not tear it down. */
  predicate SenderInput(w: World, input: Input) {
    var b := w.b.cfg.localPeerId;
    input != DoLinkDown(b) && (input.DoLinkUp? && input.peer == b ==> !LinkOr(w.a, b).snapshotSent)
  }

  /** The receiver hears its sender from the wire only, and keeps the link. */
  predicate ReceiverInput(w: World, input: Input) {
    var a := w.a.cfg.localPeerId;
    && input != DoLinkDown(a)
    && (input.DoMessage? || input.DoViolation? ==> input.peer != a)
  }

  /** The delay may shrink by the arrival grace from one data message to the next. */
  predicate InTime(w: World, parcel: Parcel, at: nat) {
    parcel.msg.PexDelta? ==>
      at + PEX_ARRIVAL_GRACE * 1000 + w.reached.lastSent >= w.arrivedAt + parcel.sentAt
  }

  ghost predicate DeliveredClean(w: World, parcel: Parcel, at: nat) {
    && AllKept(EntriesIn(parcel.msg), IngestCtx(w.b.cfg, w.a.cfg.localPeerId, at))
    && |w.reached.told + Ids(EntriesIn(parcel.msg))| <= PEX_MAX_RECEIVED_PER_LINK
  }

  /** The next frame is within the bound. */
  ghost predicate NextFits(w: World)
    requires w.wire != []
  {
    MessageFits(w.a.cfg.encoder, w.wire[0].msg)
  }

  /** What the receiver's transport hands its engine: the message, or word of an oversized frame. */
  ghost function Arriving(w: World, at: nat): Input
    requires w.wire != []
  {
    var a := w.a.cfg.localPeerId;
    if NextFits(w) then DoMessage(a, w.wire[0].msg, at) else DoViolation(a, Oversized, at)
  }

  /** The world with the receiver at `b'`, once the next frame has gone in. */
  ghost function AfterDelivery(w: World, at: nat, b': Pex): World
    requires w.wire != []
  {
    if NextFits(w)
    then w.(b := b', wire := w.wire[1..], reached := Advanced(w.reached, w.wire[0]),
            arrivedAt := if IsData(w.wire[0].msg) then at else w.arrivedAt,
            clean := w.clean && DeliveredClean(w, w.wire[0], at))
    else w.(b := b', wire := w.wire[1..])
  }

  /** Where a delivered message takes the cursor. */
  function Advanced(c: Cursor, parcel: Parcel): Cursor {
    match parcel.msg
    case PexError(_) => c
    case PexHandshake(_, _, _, _) => c.(phase := AwaitingSnapshot)
    case PexSnapshot(_) => Cursor(Streaming, parcel.sentAt, parcel.told)
    case PexDelta(_, _) => Cursor(Streaming, parcel.sentAt, parcel.told)
  }

  ghost predicate WorldStep(w: World, act: Act, w': World)
    requires Keyed(w.a.known) && Keyed(w.b.known)
  {
    match act
    case SenderActs(input, effect) =>
      && SenderInput(w, input) && Step(w.a, input, w'.a, effect)
      && w' == w.(a := w'.a,
                  wire := w.wire + Mail(w'.a, input, effect, w.b.cfg.localPeerId))
    case ReceiverActs(input, effect) =>
      ReceiverInput(w, input) && Step(w.b, input, w'.b, effect) && w' == w.(b := w'.b)
    case Deliver(at, effect) =>
      && w.wire != [] && InTime(w, w.wire[0], at)
      && Step(w.b, Arriving(w, at), w'.b, effect) && w' == AfterDelivery(w, at, w'.b)
  }

  // ----- what an honest sender puts on the wire -----

  /** A message is in order after `c`: the phase is right, the caps are met, the interval has passed,
      the ids to add and to drop are distinct, and the sender's told ids moved by exactly those. */
  ghost predicate InOrder(cfg: Config, c: Cursor, parcel: Parcel) {
    match parcel.msg
    case PexError(_) => true
    case PexHandshake(_, _, _, _) => c.phase == AwaitingHandshake && parcel.msg == Handshake(cfg)
    case PexSnapshot(peers) =>
      c.phase == AwaitingSnapshot && |peers| <= PEX_MAX_SNAPSHOT && parcel.told == Ids(peers)
    case PexDelta(added, dropped) =>
      && c.phase == Streaming && parcel.sentAt >= c.lastSent + ClampInterval(cfg.interval) * 1000
      && |added| <= PEX_MAX_ADDED && |dropped| <= PEX_MAX_DROPPED && Ids(added) * Set(dropped) == {}
      && parcel.told == c.told + Ids(added) - Set(dropped)
  }

  /** Where a stretch of wire takes a cursor, if it is all in order. */
  ghost predicate AllInOrder(cfg: Config, c: Cursor, wire: seq<Parcel>)
    decreases |wire|
  {
    wire == [] || (InOrder(cfg, c, wire[0]) && AllInOrder(cfg, Advanced(c, wire[0]), wire[1..]))
  }

  function AdvancedOver(c: Cursor, wire: seq<Parcel>): Cursor
    decreases |wire|
  {
    if wire == [] then c else AdvancedOver(Advanced(c, wire[0]), wire[1..])
  }

  ghost predicate Leads(cfg: Config, c: Cursor, wire: seq<Parcel>, end: Cursor) {
    AllInOrder(cfg, c, wire) && AdvancedOver(c, wire) == end
  }

  lemma {:induction false} Append(cfg: Config, c: Cursor, wire: seq<Parcel>, more: seq<Parcel>)
    requires AllInOrder(cfg, c, wire) && AllInOrder(cfg, AdvancedOver(c, wire), more)
    ensures AllInOrder(cfg, c, wire + more)
    ensures AdvancedOver(c, wire + more) == AdvancedOver(AdvancedOver(c, wire), more)
    decreases |wire|
  {
    hide InOrder, Advanced;
    if wire == [] {
      assert wire + more == more;
    } else {
      Append(cfg, Advanced(c, wire[0]), wire[1..], more);
      assert (wire + more)[1..] == wire[1..] + more;
    }
  }

  /** The sender's own cursor for the link to `p`: where the wire should end up. */
  function SenderCursor(s: Pex, p: PeerId): Cursor {
    var l := LinkOr(s, p);
    Cursor(if l.snapshotSent then Streaming else AwaitingHandshake, l.lastDataSendMs.GetOr(0), l.told.Keys)
  }

  lemma {:induction false} ErrorsInOrder(cfg: Config, c: Cursor, msgs: seq<PexMessage>, at: nat, told: set<PeerId>)
    requires forall msg | msg in msgs :: msg.PexError?
    ensures Leads(cfg, c, Post(msgs, at, told), c)
  {
    if msgs != [] {
      assert msgs[0] in msgs && Post(msgs, at, told)[1..] == Post(msgs[1..], at, told);
      ErrorsInOrder(cfg, c, msgs[1..], at, told);
    }
  }

  lemma LinkUpInOrder(s: Pex, p: PeerId, at: nat, s': Pex, sent: seq<PexMessage>)
    requires Inv(s) && LinkUp(s, p, at, s', sent) && !LinkOr(s, p).snapshotSent
    ensures var parcels := Post(sent, at, LinkOr(s', p).told.Keys);
            Leads(s.cfg, SenderCursor(s, p), parcels, SenderCursor(s', p))
  {
    SnapshotInOrder(s, p, at, s', sent);
    assert |sent| == 2;
    hide Inv, InOrder, Advanced, SenderCursor, LinkUp, LinkOr;
    var told := LinkOr(s', p).told.Keys;
    PairInOrder(s.cfg, SenderCursor(s, p), Parcel(sent[0], at, told), Parcel(sent[1], at, told));
    assert Post(sent, at, told) == [Parcel(sent[0], at, told), Parcel(sent[1], at, told)];
  }

  lemma SnapshotInOrder(s: Pex, p: PeerId, at: nat, s': Pex, sent: seq<PexMessage>)
    requires Inv(s) && LinkUp(s, p, at, s', sent) && !LinkOr(s, p).snapshotSent
    ensures var c, told := SenderCursor(s, p), LinkOr(s', p).told.Keys;
            var first, second := Parcel(sent[0], at, told), Parcel(sent[1], at, told);
            && InOrder(s.cfg, c, first) && InOrder(s.cfg, Advanced(c, first), second)
            && Advanced(Advanced(c, first), second) == SenderCursor(s', p)
  {
    hide Inv, IsSnapshot, JitterDraw;
    SnapshotTold(s, p, at, s', sent);
  }

  lemma SnapshotTold(s: Pex, p: PeerId, at: nat, s': Pex, sent: seq<PexMessage>)
    requires Inv(s) && LinkUp(s, p, at, s', sent) && !LinkOr(s, p).snapshotSent
    ensures LinkOr(s', p).told.Keys == Ids(sent[1].peers) && |sent[1].peers| <= PEX_MAX_SNAPSHOT
  {
    hide Inv, LinkUp, LinkAfterUp, ReceiverInv;
    LinkInv(s, p);
    UpTells(s, p, at, s', sent);
  }

  /** The first snapshot of a link is all it was told. */
  lemma UpTells(s: Pex, p: PeerId, at: nat, s': Pex, sent: seq<PexMessage>)
    requires Keyed(s.known) && LinkUp(s, p, at, s', sent) && LinkOr(s, p).told == map[]
    ensures LinkOr(s', p).told.Keys == Ids(sent[1].peers) && |sent[1].peers| <= PEX_MAX_SNAPSHOT
  {
    var peers := sent[1].peers;
    assert IsSnapshot(s, p, at, peers)
      && LinkOr(s', p).told == map[] + Fingerprints(s.cfg.Print(), s.known, Ids(peers));
    hide LinkUp, IsSnapshot, Ids, Fingerprints, Keyed, LinkOr, LinkAfterUp;
    SnapshotIds(s, p, at, peers);
    hide IsArrangement;
    FingerprintKeys(s.cfg.Print(), s.known, Ids(peers));
  }

  lemma NoneInOrder(cfg: Config, c: Cursor)
    ensures Leads(cfg, c, [], c)
  {
  }

  lemma OneInOrder(cfg: Config, c: Cursor, parcel: Parcel)
    requires InOrder(cfg, c, parcel)
    ensures Leads(cfg, c, [parcel], Advanced(c, parcel))
  {
    hide InOrder, Advanced;
    NoneInOrder(cfg, Advanced(c, parcel));
    assert [parcel][1..] == [];
  }

  lemma PairInOrder(cfg: Config, c: Cursor, first: Parcel, second: Parcel)
    requires InOrder(cfg, c, first) && InOrder(cfg, Advanced(c, first), second)
    ensures Leads(cfg, c, [first, second], Advanced(Advanced(c, first), second))
  {
    hide InOrder, Advanced;
    OneInOrder(cfg, Advanced(c, first), second);
    assert [first, second][1..] == [second];
  }

  lemma DeltaInOrder(s: Pex, p: PeerId, s': Pex, d: Delta, at: nat)
    requires Inv(s) && SenderSends(s, p, LinkOr(s, p), LinkOr(s', p), d, at)
    ensures var parcel := Parcel(PexDelta(d.added, d.dropped), at, LinkOr(s', p).told.Keys);
            InOrder(s.cfg, SenderCursor(s, p), parcel) && Advanced(SenderCursor(s, p), parcel) == SenderCursor(s', p)
  {
    LinkInv(s, p);
    var l, adv := LinkOr(s, p), AdvertisedTo(s, p, at);
    DeltaShape(s.cfg.Print(), s.known, adv, l.told, d.added, d.dropped);
    CommitClears(s.cfg.Print(), s.known, adv, l.told, Ids(d.added), Set(d.dropped));
  }

  lemma OneSentInOrder(s: Pex, p: PeerId, at: nat, s': Pex, effect: Effect, d: Delta)
    requires Inv(s) && SenderSends(s, p, LinkOr(s, p), LinkOr(s', p), d, at)
    requires SentTo(effect.sends, p) == [PexDelta(d.added, d.dropped)]
    ensures Leads(s.cfg, SenderCursor(s, p), Mail(s', DoTick(at), effect, p), SenderCursor(s', p))
  {
    hide Inv, InOrder, Advanced, SenderSends, SentTo, SenderCursor, Leads, LinkOr;
    var told := LinkOr(s', p).told.Keys;
    DeltaInOrder(s, p, s', d, at);
    OneInOrder(s.cfg, SenderCursor(s, p), Parcel(PexDelta(d.added, d.dropped), at, told));
    assert Mail(s', DoTick(at), effect, p) == [Parcel(PexDelta(d.added, d.dropped), at, told)];
  }

  lemma NoneSentInOrder(s: Pex, p: PeerId, input: Input, s': Pex, effect: Effect)
    requires SentTo(effect.sends, p) == [] && SenderCursor(s, p) == SenderCursor(s', p)
    ensures Leads(s.cfg, SenderCursor(s, p), Mail(s', input, effect, p), SenderCursor(s', p))
  {
    assert Mail(s', input, effect, p) == [];
  }

  lemma TickInOrder(s: Pex, p: PeerId, at: nat, s': Pex, effect: Effect)
    requires Inv(s) && Tick(s, at, s', effect.sends)
    ensures Leads(s.cfg, SenderCursor(s, p), Mail(s', DoTick(at), effect, p), SenderCursor(s', p))
  {
    assert Keyed(s.known);
    hide Inv, Tick, SenderSends, SentTo, Leads, Mail;
    TickMovesSender(s, at, s', effect.sends, p);
    if SentTo(effect.sends, p) != [] {
      var d: Delta :| SentTo(effect.sends, p) == [PexDelta(d.added, d.dropped)]
        && SenderSends(s, p, LinkOr(s, p), LinkOr(s', p), d, at);
      OneSentInOrder(s, p, at, s', effect, d);
    } else {
      NoneSentInOrder(s, p, DoTick(at), s', effect);
    }
  }

  lemma InboundInOrder(s: Pex, input: Input, s': Pex, effect: Effect, p: PeerId)
    requires Inv(s) && Step(s, input, s', effect) && (input.DoMessage? || input.DoViolation?)
    ensures Leads(s.cfg, SenderCursor(s, p), Mail(s', input, effect, p), SenderCursor(s', p))
  {
    assert Keyed(s.known);
    hide Step, Inv, SenderMoves, Leads;
    StepMovesSender(s, input, s', effect, p);
    InboundAnswers(s, input, s', effect, p);
    ErrorsInOrder(s.cfg, SenderCursor(s, p), SentTo(effect.sends, p), Clock(input).GetOr(0), LinkOr(s', p).told.Keys);
  }

  lemma RaisedInOrder(s: Pex, p: PeerId, at: nat, s': Pex, sent: seq<PexMessage>, effect: Effect)
    requires Inv(s) && LinkUp(s, p, at, s', sent) && !LinkOr(s, p).snapshotSent
    requires effect == Effect(Addressed(p, sent), [])
    ensures Leads(s.cfg, SenderCursor(s, p), Mail(s', DoLinkUp(p, at), effect, p), SenderCursor(s', p))
  {
    hide Inv, LinkUp, Leads;
    SentToAddressed(p, sent, p);
    LinkUpInOrder(s, p, at, s', sent);
  }

  /** Inputs of the host that send nothing to `p`. */
  lemma SilentInOrder(s: Pex, input: Input, s': Pex, effect: Effect, p: PeerId)
    requires Keyed(s.known) && Step(s, input, s', effect) && SentTo(effect.sends, p) == []
    requires !input.DoTick? && !IsLifecycle(input, p) && !input.DoMessage? && !input.DoViolation?
    ensures Leads(s.cfg, SenderCursor(s, p), Mail(s', input, effect, p), SenderCursor(s', p))
  {
    hide Step;
    StepOtherLink(s, input, s', effect, p);
    assert Mail(s', input, effect, p) == [];
  }

  lemma UpInOrder(s: Pex, q: PeerId, at: nat, s': Pex, effect: Effect, p: PeerId)
    requires Inv(s) && Step(s, DoLinkUp(q, at), s', effect) && (q == p ==> !LinkOr(s, p).snapshotSent)
    ensures Leads(s.cfg, SenderCursor(s, p), Mail(s', DoLinkUp(q, at), effect, p), SenderCursor(s', p))
  {
    assert Keyed(s.known);
    hide Inv, LinkUp, SenderCursor, Leads, Mail, LinkOr;
    var sent: seq<PexMessage> :| LinkUp(s, q, at, s', sent) && effect == Effect(Addressed(q, sent), []);
    if q == p {
      RaisedInOrder(s, p, at, s', sent, effect);
    } else {
      SentToAddressed(q, sent, p);
      SilentInOrder(s, DoLinkUp(q, at), s', effect, p);
    }
  }

  /** Whatever an honest sender does, what it sends is in order and takes the wire's end to where the
      sender is. */
  lemma SendsInOrder(s: Pex, input: Input, s': Pex, effect: Effect, p: PeerId)
    requires Inv(s) && Step(s, input, s', effect) && input != DoLinkDown(p)
    requires input.DoLinkUp? && input.peer == p ==> !LinkOr(s, p).snapshotSent
    ensures Leads(s.cfg, SenderCursor(s, p), Mail(s', input, effect, p), SenderCursor(s', p))
  {
    assert Keyed(s.known);
    hide Inv, Tick, LinkUp, Dispatch, SenderCursor, Leads, Mail, LinkOr, Strike, LinkDown, UpsertKnown, RemoveKnown;
    match input
    case DoLinkUp(q, at) => UpInOrder(s, q, at, s', effect, p);
    case DoTick(at) => TickInOrder(s, p, at, s', effect);
    case DoUpsert(_) => SilentInOrder(s, input, s', effect, p);
    case DoRemove(_) => SilentInOrder(s, input, s', effect, p);
    case DoLinkDown(_) => SilentInOrder(s, input, s', effect, p);
    case _ => InboundInOrder(s, input, s', effect, p);
  }

  // ----- what the receiver makes of it -----

  /** The receiving end of the link stands at `c`: no strikes, not muted, and attributed to the sender
      only what the sender had told by then; all of it, if delivery has been clean. */
  ghost predicate StandsAt(l: Link, interval: u32, c: Cursor, arrivedAt: nat, clean: bool) {
    && l.phase == c.phase && !l.muted && l.strikes == 0
    && (c.phase != AwaitingHandshake ==> l.remoteDeclaredSecs == Some(ClampInterval(interval)))
    && (c.phase == Streaming ==> l.lastArrivalMs == Some(arrivedAt))
    && l.received.Keys <= c.told && (clean ==> l.received.Keys == c.told)
    && |l.received| <= PEX_MAX_RECEIVED_PER_LINK
  }

  lemma ReceivesOne(cfg: Config, box: Inbox, p: PeerId, e: PeerEntry, nowMs: nat, told: set<PeerId>)
    requires box.received.Keys <= told && |box.received| <= PEX_MAX_RECEIVED_PER_LINK
    ensures var r, all := IngestOne(cfg, box, p, e, nowMs).0.received, told + {e.peerId};
            && r.Keys <= all && |r| <= PEX_MAX_RECEIVED_PER_LINK
            && (box.received.Keys == told && |all| <= PEX_MAX_RECEIVED_PER_LINK && IsKept(e, IngestCtx(cfg, p, nowMs))
                ==> r.Keys == all)
  {
    hide BoundedInsert, IsKept, Fresher;
    InsertReceives(box.received, told, e.peerId, e.Clamped(nowMs / 1000).lastSeen);
  }

  lemma InsertReceives(m: map<PeerId, nat>, told: set<PeerId>, id: PeerId, seen: nat)
    requires m.Keys <= told && |m| <= PEX_MAX_RECEIVED_PER_LINK
    ensures var r := BoundedInsert(m, Seen, PEX_MAX_RECEIVED_PER_LINK, id, seen);
            && r.Keys <= told + {id} && |r| <= PEX_MAX_RECEIVED_PER_LINK
            && (m.Keys == told && |told + {id}| <= PEX_MAX_RECEIVED_PER_LINK ==> r.Keys == told + {id})
  {
    hide BoundedInsert;
    BoundedInsertSize(m, Seen, PEX_MAX_RECEIVED_PER_LINK, id, seen);
    if id !in told { OneMore(told, id); }
  }

  lemma OneMore(told: set<PeerId>, id: PeerId)
    requires id !in told
    ensures |told + {id}| == |told| + 1
  {
  }

  lemma IdsOfLast(entries: seq<PeerEntry>, told: set<PeerId>)
    requires entries != []
    ensures told + Ids(entries) == told + Ids(entries[..|entries| - 1]) + {entries[|entries| - 1].peerId}
  {
    assert entries == entries[..|entries| - 1] + [entries[|entries| - 1]];
  }

  lemma IdsOfNone(told: set<PeerId>)
    ensures told + Ids([]) == told
  {
  }

  /** The receiver has all that was told, and there is room for `all`. */
  predicate Room(received: map<PeerId, nat>, told: set<PeerId>, all: set<PeerId>) {
    received.Keys == told && |all| <= PEX_MAX_RECEIVED_PER_LINK
  }

  /** Every entry of the batch passes validation. */
  ghost predicate AllKept(entries: seq<PeerEntry>, ctx: ValidateCtx) { forall e | e in entries :: IsKept(e, ctx) }

  /** Ingesting a batch attributes no more than it names; all of it, if all of it is kept and there is
      room. */
  lemma {:induction false} IngestReceives(cfg: Config, box: Inbox, p: PeerId, entries: seq<PeerEntry>, nowMs: nat,
                                          told: set<PeerId>)
    requires box.received.Keys <= told && |box.received| <= PEX_MAX_RECEIVED_PER_LINK
    ensures var r, all := IngestAll(cfg, box, p, entries, nowMs).0.received, told + Ids(entries);
            && r.Keys <= all && |r| <= PEX_MAX_RECEIVED_PER_LINK
            && (AllKept(entries, IngestCtx(cfg, p, nowMs)) && Room(box.received, told, all) ==> r.Keys == all)
  {
    hide IsKept, IngestOne, Ids;
    if entries != [] {
      var init, e := entries[..|entries| - 1], entries[|entries| - 1];
      IngestReceives(cfg, box, p, init, nowMs, told);
      var before, mid := told + Ids(init), IngestAll(cfg, box, p, init, nowMs).0;
      IdsOfLast(entries, told);
      SubsetSize(before, told + Ids(entries));
      ReceivesOne(cfg, mid, p, e, nowMs, before);
    } else {
      IdsOfNone(told);
    }
  }

  lemma DeltaReceives(cfg: Config, box: Inbox, p: PeerId, added: seq<PeerEntry>, dropped: seq<PeerId>, nowMs: nat,
                      told: set<PeerId>)
    requires box.received.Keys <= told && |box.received| <= PEX_MAX_RECEIVED_PER_LINK
    ensures var r := DropAll(IngestAll(cfg, box, p, added, nowMs).0, p, dropped).0.received;
            var after := told + Ids(added) - Set(dropped);
            && r.Keys <= after && |r| <= PEX_MAX_RECEIVED_PER_LINK
            && (AllKept(added, IngestCtx(cfg, p, nowMs)) && Room(box.received, told, told + Ids(added)) ==>
                  r.Keys == after)
  {
    hide AllKept, IngestAll, DropAll;
    IngestReceives(cfg, box, p, added, nowMs, told);
    var mid := IngestAll(cfg, box, p, added, nowMs).0;
    DropsAttributed(mid, p, dropped);
    var r := DropAll(mid, p, dropped).0.received;
    assert r.Keys == mid.received.Keys - Set(dropped);
    SubsetSize(r.Keys, mid.received.Keys);
  }

  /** What the receiver's config must share with the sender's. */
  predicate SameNetwork(cfg: Config, other: Config) { cfg.networkId == other.networkId }

  lemma AcceptsError(cfg: Config, x: Local, p: PeerId, code: u16, at: nat, interval: u32, c: Cursor,
                     arrivedAt: nat, clean: bool)
    requires StandsAt(x.link, interval, c, arrivedAt, clean)
    ensures var (y, o) := Dispatch(cfg, x, p, PexError(code), at);
            o == NoOutcome && StandsAt(y.link, interval, c, arrivedAt, clean)
  {
  }

  lemma AcceptsHandshake(a: Config, cfg: Config, x: Local, p: PeerId, at: nat, c: Cursor, arrivedAt: nat, clean: bool)
    requires StandsAt(x.link, a.interval, c, arrivedAt, clean) && SameNetwork(a, cfg) && c.phase == AwaitingHandshake
    ensures var (y, o) := Dispatch(cfg, x, p, Handshake(a), at);
            o == NoOutcome && StandsAt(y.link, a.interval, c.(phase := AwaitingSnapshot), arrivedAt, clean)
  {
  }

  /** No reply and no violation: nothing but entries surfaced and ids dropped. */
  ghost predicate Undisturbed(o: Outcome) {
    o.replies == [] && forall e | e in o.events :: !e.Violation?
  }

  lemma AcceptsSnapshot(cfg: Config, x: Local, p: PeerId, peers: seq<PeerEntry>, at: nat,
                        interval: u32, c: Cursor, sentAt: nat, arrivedAt: nat, clean: bool, clean': bool)
    requires StandsAt(x.link, interval, c, arrivedAt, clean) && c.phase == AwaitingSnapshot
    requires |peers| <= PEX_MAX_SNAPSHOT && c.told == {}
    requires clean' ==> |c.told + Ids(peers)| <= PEX_MAX_RECEIVED_PER_LINK
                        && AllKept(peers, IngestCtx(cfg, p, at))
    ensures var (y, o) := Dispatch(cfg, x, p, PexSnapshot(peers), at);
            Undisturbed(o) && StandsAt(y.link, interval, Cursor(Streaming, sentAt, Ids(peers)), at, clean && clean')
  {
    hide IngestAll, AllKept;
    IngestReceives(cfg, InboxOf(x), p, peers, at, c.told);
    assert c.told + Ids(peers) == Ids(peers);
  }

  lemma NoFault(l: Link, added: seq<PeerEntry>, dropped: seq<PeerId>, at: nat, interval: u32, c: Cursor,
                arrivedAt: nat, clean: bool)
    requires StandsAt(l, interval, c, arrivedAt, clean) && c.phase == Streaming
    requires |added| <= PEX_MAX_ADDED && |dropped| <= PEX_MAX_DROPPED && Ids(added) * Set(dropped) == {}
    requires at >= arrivedAt + ArrivalFloorMs(interval)
    ensures DeltaFault(l, added, dropped, at) == None
  {
    hide Ids, Set;
  }

  /** A delta without fault is taken in silence and moves only the clock and what is attributed. */
  lemma TakesDelta(cfg: Config, x: Local, p: PeerId, added: seq<PeerEntry>, dropped: seq<PeerId>, at: nat)
    requires !x.link.muted && DeltaFault(x.link, added, dropped, at) == None
    ensures var (y, o) := Dispatch(cfg, x, p, PexDelta(added, dropped), at);
            var received := DropAll(IngestAll(cfg, InboxOf(x), p, added, at).0, p, dropped).0.received;
            && Undisturbed(o)
            && y.link == x.link.(phase := Streaming, lastArrivalMs := Some(at), received := received)
  {
    hide IngestAll, DropAll, DeltaFault;
  }

  lemma AcceptsDelta(cfg: Config, x: Local, p: PeerId, added: seq<PeerEntry>, dropped: seq<PeerId>, at: nat,
                     interval: u32, c: Cursor, sentAt: nat, arrivedAt: nat, clean: bool, clean': bool)
    requires StandsAt(x.link, interval, c, arrivedAt, clean) && c.phase == Streaming
    requires |added| <= PEX_MAX_ADDED && |dropped| <= PEX_MAX_DROPPED && Ids(added) * Set(dropped) == {}
    requires at >= arrivedAt + ArrivalFloorMs(interval)
    requires clean' ==> |c.told + Ids(added)| <= PEX_MAX_RECEIVED_PER_LINK
                        && AllKept(added, IngestCtx(cfg, p, at))
    ensures var (y, o) := Dispatch(cfg, x, p, PexDelta(added, dropped), at);
            var reached := Cursor(Streaming, sentAt, c.told + Ids(added) - Set(dropped));
            Undisturbed(o) && StandsAt(y.link, interval, reached, at, clean && clean')
  {
    NoFault(x.link, added, dropped, at, interval, c, arrivedAt, clean);
    TakesDelta(cfg, x, p, added, dropped, at);
    hide IngestAll, DropAll, AllKept, DeltaFault, Dispatch, Set, Ids, ArrivalFloorMs, Undisturbed;
    DeltaReceives(cfg, InboxOf(x), p, added, dropped, at, c.told);
  }

  // ----- the world -----

  ghost predicate WorldInv(w: World) {
    && Inv(w.a) && Inv(w.b) && SameNetwork(w.a.cfg, w.b.cfg)
    && AllInOrder(w.a.cfg, w.reached, w.wire)
    && AdvancedOver(w.reached, w.wire) == SenderCursor(w.a, w.b.cfg.localPeerId)
    && StandsAt(LinkOr(w.b, w.a.cfg.localPeerId), w.a.cfg.interval, w.reached, w.arrivedAt, w.clean)
    && (w.reached.phase != Streaming ==> w.reached.told == {})
  }

  lemma SenderKeepsInv(w: World, input: Input, effect: Effect, w': World)
    requires WorldInv(w) && Keyed(w.a.known) && Keyed(w.b.known) && WorldStep(w, SenderActs(input, effect), w')
    ensures WorldInv(w')
  {
    hide Inv, Step, StandsAt, AllInOrder, AdvancedOver, SenderCursor;
    var p := w.b.cfg.localPeerId;
    StepInv(w.a, input, w'.a, effect);
    StepFrame(w.a, input, w'.a, effect);
    SendsInOrder(w.a, input, w'.a, effect, p);
    Append(w.a.cfg, w.reached, w.wire, Mail(w'.a, input, effect, p));
  }

  lemma ReceiverKeepsInv(w: World, input: Input, effect: Effect, w': World)
    requires WorldInv(w) && Keyed(w.a.known) && Keyed(w.b.known) && WorldStep(w, ReceiverActs(input, effect), w')
    ensures WorldInv(w')
  {
    hide Inv, Step, AllInOrder, AdvancedOver, SenderCursor;
    var p := w.a.cfg.localPeerId;
    StepInv(w.b, input, w'.b, effect);
    StepFrame(w.b, input, w'.b, effect);
    StepKeepsReceiver(w.b, input, w'.b, effect, p);
  }

  /** The receiver takes the next message as it stands, whatever it is. */
  lemma NextAccepted(w: World, at: nat)
    requires WorldInv(w) && w.wire != [] && InTime(w, w.wire[0], at)
    ensures var (x, o) := Dispatch(w.b.cfg, At(w.b, w.a.cfg.localPeerId), w.a.cfg.localPeerId, w.wire[0].msg, at);
            var parcel := w.wire[0];
            && Undisturbed(o)
            && StandsAt(x.link, w.a.cfg.interval, Advanced(w.reached, parcel),
                        if IsData(parcel.msg) then at else w.arrivedAt, w.clean && DeliveredClean(w, parcel, at))
    ensures InOrder(w.a.cfg, w.reached, w.wire[0]) && AllInOrder(w.a.cfg, Advanced(w.reached, w.wire[0]), w.wire[1..])
    ensures AdvancedOver(Advanced(w.reached, w.wire[0]), w.wire[1..]) == SenderCursor(w.a, w.b.cfg.localPeerId)
  {
    var parcel, p, x := w.wire[0], w.a.cfg.localPeerId, At(w.b, w.a.cfg.localPeerId);
    var clean' := DeliveredClean(w, parcel, at);
    hide Inv, Dispatch, StandsAt, AllKept, SenderCursor, Undisturbed;
    match parcel.msg
    case PexError(code) => AcceptsError(w.b.cfg, x, p, code, at, w.a.cfg.interval, w.reached, w.arrivedAt, w.clean);
    case PexHandshake(_, _, _, _) => AcceptsHandshake(w.a.cfg, w.b.cfg, x, p, at, w.reached, w.arrivedAt, w.clean);
    case PexSnapshot(peers) =>
      AcceptsSnapshot(w.b.cfg, x, p, peers, at, w.a.cfg.interval, w.reached, parcel.sentAt,
                      w.arrivedAt, w.clean, clean');
    case PexDelta(added, dropped) =>
      AcceptsDelta(w.b.cfg, x, p, added, dropped, at, w.a.cfg.interval, w.reached, parcel.sentAt,
                   w.arrivedAt, w.clean, clean');
  }

  /** A frame within the bound is delivered in silence: no error goes back and no violation is reported. */
  lemma DeliveryIsSilent(w: World, at: nat, effect: Effect, w': World)
    requires WorldInv(w) && Keyed(w.a.known) && Keyed(w.b.known) && WorldStep(w, Deliver(at, effect), w')
    requires NextFits(w)
    ensures effect.sends == [] && forall e | e in effect.events :: !e.Violation?
  {
    hide WorldInv, Dispatch, AfterDelivery, MessageFits;
    NextAccepted(w, at);
  }

  lemma DeliveryKeepsInv(w: World, at: nat, effect: Effect, w': World)
    requires WorldInv(w) && Keyed(w.a.known) && Keyed(w.b.known) && WorldStep(w, Deliver(at, effect), w')
    requires NextFits(w)
    ensures WorldInv(w')
  {
    NextAccepted(w, at);
    DeliveryMovesLink(w, at, effect, w');
    hide Inv, Dispatch, StandsAt, AllInOrder, AdvancedOver, SenderCursor, InOrder, LinkOr, MessageFits, Step;
    StepInv(w.b, Arriving(w, at), w'.b, effect);
    StepFrame(w.b, Arriving(w, at), w'.b, effect);
  }

  lemma DeliveryMovesLink(w: World, at: nat, effect: Effect, w': World)
    requires w.wire != [] && NextFits(w) && Keyed(w.b.known) && Step(w.b, Arriving(w, at), w'.b, effect)
    ensures var p := w.a.cfg.localPeerId;
            LinkOr(w'.b, p) == Dispatch(w.b.cfg, At(w.b, p), p, w.wire[0].msg, at).0.link
  {
    hide Dispatch, MessageFits;
  }

  /** A frame past the bound costs a strike. */
  lemma OverlongStrikes(w: World, at: nat, effect: Effect, w': World)
    requires Keyed(w.a.known) && Keyed(w.b.known) && WorldStep(w, Deliver(at, effect), w') && !NextFits(w)
    ensures w.a.cfg.localPeerId in w'.b.links && w'.b.links[w.a.cfg.localPeerId].strikes >= 1
  {
    hide MessageFits;
  }

  // ----- runs -----

  datatype WorldRun = WorldRun(worlds: seq<World>, acts: seq<Act>) {
    ghost predicate StepAt(i: nat)
      requires i < |acts| && |worlds| == |acts| + 1
    {
      Keyed(worlds[i].a.known) && Keyed(worlds[i].b.known) && WorldStep(worlds[i], acts[i], worlds[i + 1])
    }

    ghost predicate IsRun() {
      |worlds| == |acts| + 1 && forall i: nat | i < |acts| :: StepAt(i)
    }
  }

  /** Every frame delivered by the first `n` acts was within the bound. */
  ghost predicate FramesFit(run: WorldRun, n: nat)
    requires run.IsRun() && n <= |run.acts|
  {
    forall i: nat | i < n :: FrameFits(run, i)
  }

  ghost predicate FrameFits(run: WorldRun, i: nat)
    requires run.IsRun() && i < |run.acts|
  {
    run.acts[i].Deliver? && run.worlds[i].wire != [] ==> NextFits(run.worlds[i])
  }

  /** Both ends up and running, with no link between them yet. */
  ghost predicate Start(w: World) {
    && Inv(w.a) && Inv(w.b) && SameNetwork(w.a.cfg, w.b.cfg)
    && w.b.cfg.localPeerId !in w.a.links && w.a.cfg.localPeerId !in w.b.links
    && w.wire == [] && w.reached == Cursor(AwaitingHandshake, 0, {}) && w.clean
  }

  lemma StartInv(w: World)
    requires Start(w)
    ensures WorldInv(w)
  {
    hide Inv;
  }

  lemma {:induction false} RunKeepsWorldInv(run: WorldRun, n: nat)
    requires run.IsRun() && n <= |run.acts| && Start(run.worlds[0]) && FramesFit(run, n)
    ensures WorldInv(run.worlds[n])
  {
    hide Keyed, WorldInv, NextFits, Step, AfterDelivery, InTime, Mail;
    if n == 0 {
      StartInv(run.worlds[0]);
    } else {
      RunKeepsWorldInv(run, n - 1);
      assert run.StepAt(n - 1) && FrameFits(run, n - 1);
      match run.acts[n - 1]
      case SenderActs(input, effect) => SenderKeepsInv(run.worlds[n - 1], input, effect, run.worlds[n]);
      case ReceiverActs(input, effect) => ReceiverKeepsInv(run.worlds[n - 1], input, effect, run.worlds[n]);
      case Deliver(at, effect) => DeliveryKeepsInv(run.worlds[n - 1], at, effect, run.worlds[n]);
    }
  }

  // ----- strikes -----

  /** Whatever the frames are like, both ends keep their own invariant, and the receiver its strikes. */
  lemma ActKeepsEnds(w: World, act: Act, w': World)
    requires Inv(w.a) && Inv(w.b) && Keyed(w.a.known) && Keyed(w.b.known) && WorldStep(w, act, w')
    ensures Inv(w'.a) && Inv(w'.b) && w'.a.cfg == w.a.cfg && w'.b.cfg == w.b.cfg
    ensures var p := w.a.cfg.localPeerId; p in w.b.links ==>
              p in w'.b.links && w'.b.links[p].strikes >= w.b.links[p].strikes
  {
    hide Inv, Step, Mail, MessageFits, Advances, InTime;
    var p := w.a.cfg.localPeerId;
    match act
    case SenderActs(input, effect) =>
      StepInv(w.a, input, w'.a, effect);
      StepFrame(w.a, input, w'.a, effect);
    case ReceiverActs(input, effect) => EndKept(w.b, input, w'.b, effect, p);
    case Deliver(at, effect) => EndKept(w.b, Arriving(w, at), w'.b, effect, p);
  }

  lemma EndKept(s: Pex, input: Input, s': Pex, effect: Effect, p: PeerId)
    requires Inv(s) && Step(s, input, s', effect) && input != DoLinkDown(p)
    ensures Inv(s') && s'.cfg == s.cfg
    ensures p in s.links ==> p in s'.links && s'.links[p].strikes >= s.links[p].strikes
  {
    StepInv(s, input, s', effect);
    assert Keyed(s.known);
    hide Inv, Step;
    StepFrame(s, input, s', effect);
    if p in s.links { StepAdvances(s, input, s', effect, p); }
  }

  lemma {:induction false} StrikesStay(run: WorldRun, m: nat, n: nat)
    requires run.IsRun() && m <= n <= |run.acts| && Inv(run.worlds[m].a) && Inv(run.worlds[m].b)
    ensures Inv(run.worlds[n].a) && Inv(run.worlds[n].b) && run.worlds[n].a.cfg == run.worlds[m].a.cfg
    ensures var p, b, b' := run.worlds[m].a.cfg.localPeerId, run.worlds[m].b, run.worlds[n].b;
            p in b.links ==> p in b'.links && b'.links[p].strikes >= b.links[p].strikes
  {
    hide Inv, WorldStep, Keyed;
    if m < n {
      StrikesStay(run, m, n - 1);
      assert run.StepAt(n - 1);
      ActKeepsEnds(run.worlds[n - 1], run.acts[n - 1], run.worlds[n]);
    }
  }

  /** Once a frame past the bound has gone in, there is a strike. */
  lemma OverlongShows(run: WorldRun, i: nat, n: nat)
    requires run.IsRun() && i < n <= |run.acts| && Start(run.worlds[0]) && !FrameFits(run, i)
    ensures LinkOr(run.worlds[n].b, run.worlds[n].a.cfg.localPeerId).strikes >= 1
  {
    hide Inv, WorldStep, Keyed, NextFits;
    StrikesStay(run, 0, i);
    assert run.StepAt(i);
    OverlongStrikes(run.worlds[i], run.acts[i].at, run.acts[i].effect, run.worlds[i + 1]);
    ActKeepsEnds(run.worlds[i], run.acts[i], run.worlds[i + 1]);
    StrikesStay(run, i + 1, n);
  }

  /** An honest sender is never struck while its frames fit: whatever its host does, whatever is forged at
      it, and whatever the receiver is up to with others, the receiver holds no strike against it and has
      not muted it if and only if every frame it delivered was within the bound; and such a delivery draws
      neither an error nor a violation. */
  lemma HonestSenderNeverStruck(run: WorldRun, n: nat)
    requires run.IsRun() && n <= |run.acts| && Start(run.worlds[0])
    ensures var l := LinkOr(run.worlds[n].b, run.worlds[n].a.cfg.localPeerId);
            l.strikes == 0 && !l.muted <==> FramesFit(run, n)
    ensures n < |run.acts| && run.acts[n].Deliver? && FramesFit(run, n + 1) ==>
              run.acts[n].effect.sends == [] && forall e | e in run.acts[n].effect.events :: !e.Violation?
  {
    if FramesFit(run, n) {
      hide Inv, AllInOrder, AdvancedOver, SenderCursor, WorldStep, NextFits;
      RunKeepsWorldInv(run, n);
      if n < |run.acts| && run.acts[n].Deliver? && FramesFit(run, n + 1) {
        hide WorldInv, Keyed;
        assert run.StepAt(n) && FrameFits(run, n);
        HasNext(run.worlds[n], run.acts[n], run.worlds[n + 1]);
        DeliveryIsSilent(run.worlds[n], run.acts[n].at, run.acts[n].effect, run.worlds[n + 1]);
      }
    } else {
      hide FrameFits, Start, WorldStep;
      var i: nat :| i < n && !FrameFits(run, i);
      OverlongShows(run, i, n);
    }
  }

  lemma HasNext(w: World, act: Act, w': World)
    requires Keyed(w.a.known) && Keyed(w.b.known) && WorldStep(w, act, w') && act.Deliver?
    ensures w.wire != []
  {
  }

  // ----- frames that fit -----

  /** What waits on the wire fits. */
  ghost predicate WireFits(w: World) { forall parcel | parcel in w.wire :: MessageFits(w.a.cfg.encoder, parcel.msg) }

  predicate ModestAct(act: Act, limit: nat, idLimit: nat) {
    act.SenderActs? ==> ModestInput(act.input, limit, idLimit)
  }

  lemma MailFits(s: Pex, input: Input, s': Pex, effect: Effect, p: PeerId, limit: nat, idLimit: nat)
    requires Modest(s, limit, idLimit) && Step(s, input, s', effect)
    requires limit + idLimit <= 5240 && MessageFits(s.cfg.encoder, Handshake(s.cfg))
    ensures forall parcel | parcel in Mail(s', input, effect, p) :: MessageFits(s.cfg.encoder, parcel.msg)
  {
    assert Keyed(s.known);
    hide Modest, Step, MessageFits, SentTo;
    forall parcel | parcel in Mail(s', input, effect, p) ensures MessageFits(s.cfg.encoder, parcel.msg) {
      assert parcel.msg in SentTo(effect.sends, p);
      SendsFit(s, input, s', effect, p, parcel.msg, limit, idLimit);
    }
  }

  lemma ActKeepsModest(w: World, act: Act, w': World, limit: nat, idLimit: nat)
    requires Keyed(w.a.known) && Keyed(w.b.known) && WorldStep(w, act, w') && ModestAct(act, limit, idLimit)
    requires Modest(w.a, limit, idLimit) && WireFits(w)
    requires limit + idLimit <= 5240 && MessageFits(w.a.cfg.encoder, Handshake(w.a.cfg))
    ensures Modest(w'.a, limit, idLimit) && WireFits(w') && w'.a.cfg == w.a.cfg
  {
    hide Modest, Step, MessageFits, Mail, InTime, ModestInput;
    if act.SenderActs? {
      StepModest(w.a, act.input, w'.a, act.effect, limit, idLimit);
      StepFrame(w.a, act.input, w'.a, act.effect);
      MailFits(w.a, act.input, w'.a, act.effect, w.b.cfg.localPeerId, limit, idLimit);
    }
  }

  lemma {:induction false} RunKeepsModest(run: WorldRun, n: nat, limit: nat, idLimit: nat)
    requires run.IsRun() && n <= |run.acts| && Start(run.worlds[0]) && Modest(run.worlds[0].a, limit, idLimit)
    requires forall i | 0 <= i < |run.acts| :: ModestAct(run.acts[i], limit, idLimit)
    requires var cfg := run.worlds[0].a.cfg; limit + idLimit <= 5240 && MessageFits(cfg.encoder, Handshake(cfg))
    ensures Modest(run.worlds[n].a, limit, idLimit) && WireFits(run.worlds[n])
    ensures run.worlds[n].a.cfg == run.worlds[0].a.cfg && FramesFit(run, n)
  {
    hide Modest, MessageFits, WorldStep, Keyed, Inv, ModestAct;
    if n > 0 {
      RunKeepsModest(run, n - 1, limit, idLimit);
      assert run.StepAt(n - 1);
      ActKeepsModest(run.worlds[n - 1], run.acts[n - 1], run.worlds[n], limit, idLimit);
    }
  }

  /** So an honest sender whose handshake fits and whose host keeps entries and ids to limits that add up to
      no more than 5240 bytes is never struck. */
  lemma ModestSenderNeverStruck(run: WorldRun, n: nat, limit: nat, idLimit: nat)
    requires run.IsRun() && n <= |run.acts| && Start(run.worlds[0]) && Modest(run.worlds[0].a, limit, idLimit)
    requires forall i | 0 <= i < |run.acts| :: ModestAct(run.acts[i], limit, idLimit)
    requires var cfg := run.worlds[0].a.cfg; limit + idLimit <= 5240 && MessageFits(cfg.encoder, Handshake(cfg))
    ensures var l := LinkOr(run.worlds[n].b, run.worlds[n].a.cfg.localPeerId); l.strikes == 0 && !l.muted
  {
    hide Modest, MessageFits, WorldStep, Keyed, Inv, ModestAct, FrameFits, Start;
    RunKeepsModest(run, n, limit, idLimit);
    HonestSenderNeverStruck(run, n);
  }

  // ----- the replica -----

  /** What the receiver attributes to the sender is a replica: never more than the sender had told when
      it sent the last data message delivered, and exactly that while delivery has been clean. */
  lemma ReplicaAgrees(run: WorldRun, n: nat)
    requires run.IsRun() && n <= |run.acts| && Start(run.worlds[0]) && FramesFit(run, n)
    ensures var w := run.worlds[n];
            var received := LinkOr(w.b, w.a.cfg.localPeerId).received.Keys;
            received <= w.reached.told && (w.clean ==> received == w.reached.told)
  {
    hide Inv, AllInOrder, AdvancedOver, SenderCursor;
    RunKeepsWorldInv(run, n);
  }

  lemma {:induction false} ErrorsStay(c: Cursor, wire: seq<Parcel>)
    requires forall parcel | parcel in wire :: parcel.msg.PexError?
    ensures AdvancedOver(c, wire) == c
    decreases |wire|
  {
    if wire != [] {
      assert wire[0] in wire;
      ErrorsStay(c, wire[1..]);
    }
  }

  /** Agreement reached: once the sender finds nothing to say on an eligible tick and no data message is
      still on its way, a receiver with clean delivery attributes to it exactly what it advertises. */
  lemma QuietMeansAgreement(run: WorldRun, n: nat)
    requires run.IsRun() && n < |run.acts| && Start(run.worlds[0]) && FramesFit(run, n)
    requires var w := run.worlds[n];
             w.clean && forall parcel | parcel in w.wire :: parcel.msg.PexError?
    requires var act, w := run.acts[n], run.worlds[n];
             && act.SenderActs? && act.input.DoTick? && Eligible(LinkOr(w.a, w.b.cfg.localPeerId), act.input.at)
             && SentTo(act.effect.sends, w.b.cfg.localPeerId) == []
    ensures var w := run.worlds[n];
            LinkOr(w.b, w.a.cfg.localPeerId).received.Keys
            == AdvertisedTo(w.a, w.b.cfg.localPeerId, run.acts[n].input.at)
  {
    var w, act := run.worlds[n], run.acts[n];
    hide Inv, WorldInv, Eligible, Tick, Keyed, LinkOr, SentTo, AdvertisedTo, FramesFit, Start;
    RunKeepsWorldInv(run, n);
    assert run.StepAt(n);
    SenderTicks(w, act, run.worlds[n + 1]);
    hide WorldStep;
    QuietWorldAgrees(w, act.input.at, run.worlds[n + 1].a, act.effect.sends);
  }

  lemma SenderTicks(w: World, act: Act, w': World)
    requires Keyed(w.a.known) && Keyed(w.b.known) && WorldStep(w, act, w') && act.SenderActs? && act.input.DoTick?
    ensures Tick(w.a, act.input.at, w'.a, act.effect.sends)
  {
    hide Tick, Mail;
  }

  lemma QuietWorldAgrees(w: World, at: nat, a': Pex, out: seq<(PeerId, PexMessage)>)
    requires WorldInv(w) && w.clean && forall parcel | parcel in w.wire :: parcel.msg.PexError?
    requires Keyed(w.a.known) && Tick(w.a, at, a', out)
    requires Eligible(LinkOr(w.a, w.b.cfg.localPeerId), at) && SentTo(out, w.b.cfg.localPeerId) == []
    ensures LinkOr(w.b, w.a.cfg.localPeerId).received.Keys == AdvertisedTo(w.a, w.b.cfg.localPeerId, at)
  {
    hide Inv, AllInOrder, AdvancedOver, Eligible, Tick;
    var p := w.b.cfg.localPeerId;
    ErrorsStay(w.reached, w.wire);
    QuietIffToldAll(w.a, at, a', out, p);
    assert LinkOr(w.a, p).told.Keys == AdvertisedTo(w.a, p, at);
  }

  // ----- why the assumptions are needed -----

  /** The delay assumption is exactly what the receiver tests: the next delta is taken without a word
      if and only if the floor has gone by since the last data message arrived. */
  lemma DeltaTakenIffFloorPassed(w: World, at: nat)
    requires WorldInv(w) && w.wire != [] && w.wire[0].msg.PexDelta?
    ensures Undisturbed(Dispatch(w.b.cfg, At(w.b, w.a.cfg.localPeerId), w.a.cfg.localPeerId, w.wire[0].msg, at).1)
            <==> at >= w.arrivedAt + ArrivalFloorMs(w.a.cfg.interval)
  {
    var parcel, p, x := w.wire[0], w.a.cfg.localPeerId, At(w.b, w.a.cfg.localPeerId);
    if at >= w.arrivedAt + ArrivalFloorMs(w.a.cfg.interval) {
      hide Inv, Dispatch, StandsAt, AllKept, SenderCursor, Undisturbed;
      AcceptsDelta(w.b.cfg, x, p, parcel.msg.added, parcel.msg.dropped, at, w.a.cfg.interval, w.reached, parcel.sentAt,
                   w.arrivedAt, w.clean, DeliveredClean(w, parcel, at));
    } else {
      assert DeltaFault(x.link, parcel.msg.added, parcel.msg.dropped, at) == Some(RateViolation);
    }
  }

  /** Raising a live link again is not guarded against, and costs a strike: the second handshake finds
      the receiver past its first. */
  lemma SecondLinkUpDrawsStrike(w: World, input: Input, effect: Effect, a': Pex, at: nat)
    requires WorldInv(w) && Keyed(w.a.known) && w.wire == [] && w.reached.phase != AwaitingHandshake
    requires input.DoLinkUp? && input.peer == w.b.cfg.localPeerId && Step(w.a, input, a', effect)
    ensures effect.sends != []
    ensures var p := w.a.cfg.localPeerId;
            var (x, o) := Dispatch(w.b.cfg, At(w.b, p), p, effect.sends[0].1, at);
            x.link.strikes == 1 && o.replies == [PexError(ProtocolViolation.AsU16())]
  {
    hide Inv, AllInOrder, AdvancedOver;
    var sent: seq<PexMessage> :| LinkUp(w.a, input.peer, input.at, a', sent)
      && effect == Effect(Addressed(input.peer, sent), []);
    assert effect.sends[0].1 == sent[0];
  }
}
