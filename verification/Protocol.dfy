/** The protocol on values: what each input does to a participant's state, what it sends and what it
    reports. `Step` relates the states around one input; a `Trace` is a run of steps. */
module Protocol {
  import opened Basics
  import opened Caps
  import opened Timer
  import opened Entry
  import opened Wire
  import opened Bounded
  import opened Advertise
  import opened State

  // ----- state -----

  datatype Config = Config(
    localPeerId: PeerId,
    networkId: Text,
    flags: seq<Text>,
    interval: u32,
    jitter: bool,
    hasher: Hasher,
    encoder: Encoder)
  {
    function Print(): Print { e => Fingerprint(hasher, e) }
  }

  datatype Hint = Hint(source: PeerId, lastSeen: nat)

  type Hints = map<PeerId, Hint>

  datatype Pex = Pex(cfg: Config, known: Known, links: map<PeerId, Link>, hints: Hints)

  function HintAge(h: Hint): nat { h.lastSeen }

  datatype PexEvent =
    | Candidates(peers: seq<PeerEntry>)
    | Dropped(peerIds: seq<PeerId>)
    | Violation(code: u16, mute: bool)

  datatype Outcome = Outcome(replies: seq<PexMessage>, events: seq<PexEvent>)

  const NoOutcome := Outcome([], [])

  /** The state of the link to `p`; a link never touched is as good as a fresh one. */
  function LinkOr(s: Pex, p: PeerId): Link {
    if p in s.links then s.links[p] else FreshLink(s.cfg.interval)
  }

  /** The part of a state an inbound message on one link can reach: that link, and the global hints. */
  datatype Local = Local(link: Link, hints: Hints)

  function At(s: Pex, p: PeerId): Local { Local(LinkOr(s, p), s.hints) }

  function Put(s: Pex, p: PeerId, x: Local): Pex { s.(links := s.links[p := x.link], hints := x.hints) }

  // ----- first-hand set -----

  function UpsertKnown(s: Pex, e: PeerEntry): Pex {
    if e.peerId == s.cfg.localPeerId then s else s.(known := s.known[e.peerId := e])
  }

  function RemoveKnown(s: Pex, id: PeerId): Pex { s.(known := s.known - {id}) }

  // ----- sending -----

  function AdvertisedTo(s: Pex, p: PeerId, nowMs: nat): set<PeerId> {
    AdvertisableTo(s.known, s.cfg.localPeerId, p, nowMs / 1000)
  }

  ghost predicate JitterDraw(cfg: Config, effectiveSecs: u32, jitter: nat) {
    if cfg.jitter then JitterRange(effectiveSecs, jitter) else jitter == 0
  }

  function Handshake(cfg: Config): PexMessage {
    PexHandshake(PEX_VERSION, cfg.networkId, cfg.interval, cfg.flags)
  }

  /** The snapshot: the freshest entries that fit the count cap and the frame budget. */
  ghost predicate IsSnapshot(s: Pex, p: PeerId, nowMs: nat, peers: seq<PeerEntry>)
    requires Keyed(s.known)
  {
    IsTrimmed(s.cfg.encoder, Take(Arrange(s.known, AdvertisedTo(s, p, nowMs)), PEX_MAX_SNAPSHOT), peers)
  }

  function LinkAfterUp(cfg: Config, known: Known, l: Link, peers: seq<PeerEntry>, nowMs: nat, jitter: nat): Link {
    l.(handshakeSent := true, snapshotSent := true, selfIntervalSecs := cfg.interval,
       told := l.told + Fingerprints(cfg.Print(), known, Ids(peers)),
       lastDataSendMs := Some(nowMs), sendJitterMs := jitter)
  }

  ghost predicate LinkUp(s: Pex, p: PeerId, nowMs: nat, s': Pex, sent: seq<PexMessage>)
    requires Keyed(s.known)
  {
    var l := LinkOr(s, p);
    && |sent| == 2 && sent[0] == Handshake(s.cfg) && sent[1].PexSnapshot?
    && IsSnapshot(s, p, nowMs, sent[1].peers)
    && p in s'.links
    && var jitter := s'.links[p].sendJitterMs;
    && JitterDraw(s.cfg, EffectiveIntervalSecs(s.cfg.interval, l.remoteDeclaredSecs), jitter)
    && s' == s.(links := s.links[p := LinkAfterUp(s.cfg, s.known, l, sent[1].peers, nowMs, jitter)])
  }

  function Effective(l: Link): u32 { EffectiveIntervalSecs(l.selfIntervalSecs, l.remoteDeclaredSecs) }

  predicate Eligible(l: Link, nowMs: nat) {
    l.snapshotSent && nowMs >= l.lastDataSendMs.GetOr(0) + Effective(l) * 1000 + l.sendJitterMs
  }

  function LinkAfterDelta(cfg: Config, known: Known, l: Link, d: Delta, nowMs: nat, jitter: nat): Link {
    l.(told := ToldAfter(cfg.Print(), known, l.told, d.added, d.dropped),
       lastDataSendMs := Some(nowMs), sendJitterMs := jitter)
  }

  /** What a clock tick does to one link: nothing until it is eligible, nothing while there is nothing
      to say, and otherwise one delta. */
  ghost predicate LinkTick(s: Pex, p: PeerId, nowMs: nat, l: Link, l': Link, sent: Option<PexMessage>) {
    if !Eligible(l, nowMs) then l' == l && sent == None
    else Keyed(s.known) && exists d: Delta ::
      && IsDelta(s.cfg.Print(), s.known, AdvertisedTo(s, p, nowMs), l.told, d.added, d.dropped)
      && if d == Delta([], []) then l' == l && sent == None
         else
           && sent == Some(PexDelta(d.added, d.dropped))
           && JitterDraw(s.cfg, Effective(l), l'.sendJitterMs)
           && l' == LinkAfterDelta(s.cfg, s.known, l, d, nowMs, l'.sendJitterMs)
  }

  /** What the batch holds for `p`. */
  ghost function SentTo(out: seq<(PeerId, PexMessage)>, p: PeerId): seq<PexMessage> {
    if out == [] then []
    else SentTo(out[..|out| - 1], p) + (if out[|out| - 1].0 == p then [out[|out| - 1].1] else [])
  }

  function AsSeq<T>(o: Option<T>): seq<T> { if o.Some? then [o.value] else [] }

  ghost predicate LinkTicked(s: Pex, nowMs: nat, s': Pex, out: seq<(PeerId, PexMessage)>, p: PeerId)
    requires Keyed(s.known) && p in s.links && p in s'.links
  {
    exists sent :: LinkTick(s, p, nowMs, s.links[p], s'.links[p], sent) && SentTo(out, p) == AsSeq(sent)
  }

  ghost predicate Tick(s: Pex, nowMs: nat, s': Pex, out: seq<(PeerId, PexMessage)>)
    requires Keyed(s.known)
  {
    && s' == s.(links := s'.links) && s'.links.Keys == s.links.Keys
    && (forall p | p in s.links :: LinkTicked(s, nowMs, s', out, p))
    && (forall p | p !in s.links :: SentTo(out, p) == [])
  }

  // ----- link teardown -----

  function WithoutSource(hints: Hints, p: PeerId): Hints {
    map id | id in hints && hints[id].source != p :: hints[id]
  }

  function LinkDown(s: Pex, p: PeerId): Pex {
    s.(links := s.links - {p}, hints := WithoutSource(s.hints, p))
  }

  // ----- violations -----

  /** Mute the direction, freeing what the link told us and every hint it sources. */
  function Mute(x: Local, p: PeerId): Local {
    Local(x.link.(muted := true, received := map[]), WithoutSource(x.hints, p))
  }

  function Strike(x: Local, p: PeerId, code: ErrorCode): (Local, Outcome) {
    var struck := x.(link := x.link.(strikes := x.link.strikes + 1));
    var mute := struck.link.strikes >= PEX_VIOLATION_LIMIT;
    (if mute then Mute(struck, p) else struck,
     Outcome([PexError(code.AsU16())], [Violation(code.AsU16(), mute)]))
  }

  function MuteMismatch(x: Local, p: PeerId, code: ErrorCode): (Local, Outcome) {
    (Mute(x, p), Outcome([PexError(code.AsU16())], [Violation(code.AsU16(), true)]))
  }

  function RecordViolation(s: Pex, p: PeerId, code: ErrorCode): (Pex, Outcome) {
    var (x, o) := Strike(At(s, p), p, code);
    (Put(s, p, x), o)
  }

  // ----- intake -----

  /** The two accumulators an ingest touches: the link's `received` and the global `hints`. */
  datatype Inbox = Inbox(received: map<PeerId, nat>, hints: Hints)

  function IngestCtx(cfg: Config, p: PeerId, nowMs: nat): ValidateCtx {
    ValidateCtx(cfg.localPeerId, p, cfg.networkId, nowMs / 1000)
  }

  predicate Fresher(hints: Hints, e: PeerEntry) {
    e.peerId in hints ==> e.lastSeen > hints[e.peerId].lastSeen
  }

  ghost function IngestKept(box: Inbox, p: PeerId, e: PeerEntry): (Inbox, seq<PeerEntry>) {
    var received := BoundedInsert(box.received, Seen, PEX_MAX_RECEIVED_PER_LINK, e.peerId, e.lastSeen);
    if Fresher(box.hints, e)
    then (Inbox(received, BoundedInsert(box.hints, HintAge, PEX_MAX_HINTS, e.peerId, Hint(p, e.lastSeen))), [e])
    else (Inbox(received, box.hints), [])
  }

  ghost function IngestOne(cfg: Config, box: Inbox, p: PeerId, e: PeerEntry, nowMs: nat): (Inbox, seq<PeerEntry>) {
    if IsKept(e, IngestCtx(cfg, p, nowMs)) then IngestKept(box, p, e.Clamped(nowMs / 1000)) else (box, [])
  }

  ghost function IngestAll(cfg: Config, box: Inbox, p: PeerId, entries: seq<PeerEntry>, nowMs: nat): (Inbox,
                           seq<PeerEntry>) {
    if entries == [] then (box, [])
    else
      var (before, surfaced) := IngestAll(cfg, box, p, entries[..|entries| - 1], nowMs);
      var (after, more) := IngestOne(cfg, before, p, entries[|entries| - 1], nowMs);
      (after, surfaced + more)
  }

  function DropOne(box: Inbox, p: PeerId, id: PeerId): (Inbox, seq<PeerId>) {
    if id in box.received then
      (Inbox(box.received - {id},
             if id in box.hints && box.hints[id].source == p then box.hints - {id} else box.hints),
       [id])
    else (box, [])
  }

  function DropAll(box: Inbox, p: PeerId, ids: seq<PeerId>): (Inbox, seq<PeerId>) {
    if ids == [] then (box, [])
    else
      var (before, dropped) := DropAll(box, p, ids[..|ids| - 1]);
      var (after, more) := DropOne(before, p, ids[|ids| - 1]);
      (after, dropped + more)
  }

  function InboxOf(x: Local): Inbox { Inbox(x.link.received, x.hints) }

  function WithInbox(x: Local, box: Inbox): Local { Local(x.link.(received := box.received), box.hints) }

  function CandidateEvents(peers: seq<PeerEntry>): seq<PexEvent> { if peers == [] then [] else [Candidates(peers)] }

  function DroppedEvents(ids: seq<PeerId>): seq<PexEvent> { if ids == [] then [] else [Dropped(ids)] }

  ghost function IngestAdded(cfg: Config, x: Local, p: PeerId, entries: seq<PeerEntry>, nowMs: nat): (Local, Outcome) {
    var (box, surfaced) := IngestAll(cfg, InboxOf(x), p, entries, nowMs);
    (WithInbox(x, box), Outcome([], CandidateEvents(surfaced)))
  }

  function IngestDropped(x: Local, p: PeerId, ids: seq<PeerId>): (Local, Outcome) {
    var (box, attributed) := DropAll(InboxOf(x), p, ids);
    (WithInbox(x, box), Outcome([], DroppedEvents(attributed)))
  }

  // ----- dispatch -----

  predicate PlausibleRateError(l: Link, nowMs: nat) {
    l.lastDataSendMs.Some? && SaturatingSub(nowMs, l.lastDataSendMs.value) < ArrivalFloorMs(l.selfIntervalSecs)
  }

  predicate BackoffRateLimited(l: Link, nowMs: nat) {
    l.lastBackoffAppliedMs.Some? && SaturatingSub(nowMs, l.lastBackoffAppliedMs.value) < l.selfIntervalSecs * 1000
  }

  predicate AppliesBackoff(l: Link, code: u16, nowMs: nat) {
    code == RateViolation.AsU16() && PlausibleRateError(l, nowMs) && !BackoffRateLimited(l, nowMs)
  }

  function BackedOff(l: Link, nowMs: nat): Link {
    l.(selfIntervalSecs := ClampInterval(Min(SaturatingDouble(l.selfIntervalSecs), PEX_MAX_INTERVAL)),
       lastBackoffAppliedMs := Some(nowMs))
  }

  function OnPexError(x: Local, code: u16, nowMs: nat): (Local, Outcome) {
    (if AppliesBackoff(x.link, code, nowMs) then x.(link := BackedOff(x.link, nowMs)) else x, NoOutcome)
  }

  function OnHandshake(cfg: Config, x: Local, p: PeerId, version: u32, networkId: Text, declared: u32): (Local,
                       Outcome) {
    if x.link.phase != AwaitingHandshake then Strike(x, p, ProtocolViolation)
    else if version != PEX_VERSION then MuteMismatch(x, p, UnsupportedVersion)
    else if networkId != cfg.networkId then MuteMismatch(x, p, ErrorCode.NetworkMismatch)
    else
      (x.(link := x.link.(remoteDeclaredSecs := Some(ClampInterval(declared)), phase := AwaitingSnapshot)), NoOutcome)
  }

  /** Why a data message would be refused, if it would. */
  function SnapshotFault(l: Link, peers: seq<PeerEntry>): Option<ErrorCode> {
    if l.phase != AwaitingSnapshot then Some(ProtocolViolation)
    else if |peers| > PEX_MAX_SNAPSHOT then Some(Oversized)
    else None
  }

  function DeltaFault(l: Link, added: seq<PeerEntry>, dropped: seq<PeerId>, nowMs: nat): Option<ErrorCode> {
    if l.phase != Streaming then Some(ProtocolViolation)
    else if l.lastArrivalMs.Some?
            && SaturatingSub(nowMs, l.lastArrivalMs.value) < ArrivalFloorMs(l.remoteDeclaredSecs.GetOr(0))
    then Some(RateViolation)
    else if |added| > PEX_MAX_ADDED || |dropped| > PEX_MAX_DROPPED then Some(Oversized)
    else if Ids(added) * Set(dropped) != {} then Some(BadMessage)
    else None
  }

  function Arrive(x: Local, nowMs: nat): Local {
    x.(link := x.link.(phase := Streaming, lastArrivalMs := Some(nowMs)))
  }

  ghost function OnSnapshot(cfg: Config, x: Local, p: PeerId, peers: seq<PeerEntry>, nowMs: nat): (Local, Outcome) {
    match SnapshotFault(x.link, peers)
    case Some(code) => Strike(x, p, code)
    case None => IngestAdded(cfg, Arrive(x, nowMs), p, peers, nowMs)
  }

  ghost function OnDelta(cfg: Config, x: Local, p: PeerId, added: seq<PeerEntry>, dropped: seq<PeerId>, nowMs: nat)
    : (Local, Outcome)
  {
    match DeltaFault(x.link, added, dropped, nowMs)
    case Some(code) => Strike(x, p, code)
    case None =>
      var (x1, o1) := IngestAdded(cfg, Arrive(x, nowMs), p, added, nowMs);
      var (x2, o2) := IngestDropped(x1, p, dropped);
      (x2, Outcome(o1.replies, o1.events + o2.events))
  }

  ghost function Dispatch(cfg: Config, x: Local, p: PeerId, msg: PexMessage, nowMs: nat): (Local, Outcome) {
    if x.link.muted then (x, NoOutcome)
    else
      match msg
      case PexError(code) => OnPexError(x, code, nowMs)
      case PexHandshake(version, networkId, declared, _) => OnHandshake(cfg, x, p, version, networkId, declared)
      case PexSnapshot(peers) => OnSnapshot(cfg, x, p, peers, nowMs)
      case PexDelta(added, dropped) => OnDelta(cfg, x, p, added, dropped, nowMs)
  }

  ghost function OnMessage(s: Pex, p: PeerId, msg: PexMessage, nowMs: nat): (Pex, Outcome) {
    var (x, o) := Dispatch(s.cfg, At(s, p), p, msg, nowMs);
    (Put(s, p, x), o)
  }

  // ----- runs -----

  datatype Input =
    | DoUpsert(entry: PeerEntry)
    | DoRemove(id: PeerId)
    | DoLinkUp(peer: PeerId, at: nat)
    | DoLinkDown(peer: PeerId)
    | DoMessage(peer: PeerId, msg: PexMessage, at: nat)
    | DoViolation(peer: PeerId, code: ErrorCode, at: nat)
    | DoTick(at: nat)

  datatype Effect = Effect(sends: seq<(PeerId, PexMessage)>, events: seq<PexEvent>)

  function Addressed(p: PeerId, msgs: seq<PexMessage>): (r: seq<(PeerId, PexMessage)>)
    ensures |r| == |msgs|
  {
    seq(|msgs|, i requires 0 <= i < |msgs| => (p, msgs[i]))
  }

  ghost predicate Step(s: Pex, input: Input, s': Pex, effect: Effect)
    requires Keyed(s.known)
  {
    match input
    case DoUpsert(e) => s' == UpsertKnown(s, e) && effect == Effect([], [])
    case DoRemove(id) => s' == RemoveKnown(s, id) && effect == Effect([], [])
    case DoLinkUp(p, at) =>
      exists sent :: LinkUp(s, p, at, s', sent) && effect == Effect(Addressed(p, sent), [])
    case DoLinkDown(p) => s' == LinkDown(s, p) && effect == Effect([], [])
    case DoMessage(p, msg, at) =>
      var (r, o) := OnMessage(s, p, msg, at);
      s' == r && effect == Effect(Addressed(p, o.replies), o.events)
    case DoViolation(p, code, _) =>
      var (r, o) := RecordViolation(s, p, code);
      s' == r && effect == Effect(Addressed(p, o.replies), o.events)
    case DoTick(at) => Tick(s, at, s', effect.sends) && effect.events == []
  }

  datatype Trace = Trace(states: seq<Pex>, inputs: seq<Input>, effects: seq<Effect>) {
    ghost predicate StepAt(i: nat)
      requires i < |inputs| && |states| == |inputs| + 1 && |effects| == |inputs|
    {
      Keyed(states[i].known) && Step(states[i], inputs[i], states[i + 1], effects[i])
    }

    ghost predicate IsRun() {
      && |states| == |inputs| + 1 && |effects| == |inputs|
      && forall i: nat | i < |inputs| :: StepAt(i)
    }
  }

  /** The step of a run that reaches state `n`. */
  lemma RunStep(run: Trace, n: nat)
    requires run.IsRun() && 0 < n <= |run.inputs|
    ensures Keyed(run.states[n - 1].known)
    ensures Step(run.states[n - 1], run.inputs[n - 1], run.states[n], run.effects[n - 1])
  {
    assert run.StepAt(n - 1);
  }

  function EmptyRun(s: Pex): (run: Trace)
    ensures run.IsRun()
  {
    Trace([s], [], [])
  }

  function Extend(run: Trace, input: Input, effect: Effect, s: Pex): Trace {
    Trace(run.states + [s], run.inputs + [input], run.effects + [effect])
  }

  lemma ExtendRun(run: Trace, input: Input, effect: Effect, s: Pex)
    requires run.IsRun() && Keyed(run.states[|run.inputs|].known)
    requires Step(run.states[|run.inputs|], input, s, effect)
    ensures Extend(run, input, effect, s).IsRun()
  {
    var longer := Extend(run, input, effect, s);
    forall i: nat | i < |longer.inputs| ensures longer.StepAt(i) {
      if i < |run.inputs| { assert run.StepAt(i); }
    }
  }
}
