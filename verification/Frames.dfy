/** Which messages fit the frame bound. Snapshots are measured before they are sent, deltas are only
    counted: how large entries and ids may be for the count to be enough, and a run in which it is not. */
module Frames {
  import opened Basics
  import opened Caps
  import opened Entry
  import opened Json
  import opened Wire
  import opened Advertise
  import opened State
  import opened Protocol
  import opened Invariant
  import opened Sides
  import opened Runs

  /** The configured encoder is the JSON one. */
  ghost predicate EncodesJson(cfg: Config) { forall e :: cfg.encoder(e) == Some(EntryLen(e)) }

  /** An entry encodes to no more than `limit` bytes, and its id to no more than `idLimit`. */
  predicate ModestEntry(e: PeerEntry, limit: nat, idLimit: nat) {
    EntryLen(e) <= limit && TextLen(e.peerId) <= idLimit
  }

  /** All that is known, and every id any link was told, keeps to the limits. */
  ghost predicate Modest(s: Pex, limit: nat, idLimit: nat) {
    && EncodesJson(s.cfg) && Keyed(s.known)
    && (forall id | id in s.known :: ModestEntry(s.known[id], limit, idLimit))
    && (forall p | p in s.links :: ModestTold(s.links[p], idLimit))
  }

  ghost predicate ModestTold(l: Link, idLimit: nat) { forall id | id in l.told :: TextLen(id) <= idLimit }

  /** What the host puts in keeps to the limits. */
  predicate ModestInput(input: Input, limit: nat, idLimit: nat) {
    input.DoUpsert? ==> ModestEntry(input.entry, limit, idLimit)
  }

  // ----- what is sent keeps to the limits -----

  lemma ModestLinkUp(s: Pex, q: PeerId, at: nat, s': Pex, sent: seq<PexMessage>, limit: nat, idLimit: nat)
    requires Modest(s, limit, idLimit) && LinkUp(s, q, at, s', sent)
    ensures Modest(s', limit, idLimit)
  {
    SnapshotIds(s, q, at, sent[1].peers);
    forall id | id in s'.links[q].told ensures TextLen(id) <= idLimit {
      if id !in LinkOr(s, q).told { assert id in Ids(sent[1].peers) && id in s.known; }
    }
  }

  lemma ModestTurn(s: Pex, p: PeerId, l': Link, d: Delta, at: nat, limit: nat, idLimit: nat)
    requires Modest(s, limit, idLimit) && p in s.links && SenderSends(s, p, s.links[p], l', d, at)
    ensures ModestTold(l', idLimit)
    ensures MessageFits(s.cfg.encoder, PexDelta(d.added, d.dropped)) || limit + idLimit > 5240
  {
    hide EntryLen, TextLen;
    var l, adv := s.links[p], AdvertisedTo(s, p, at);
    DeltaShape(s.cfg.Print(), s.known, adv, l.told, d.added, d.dropped);
    CommitClears(s.cfg.Print(), s.known, adv, l.told, Ids(d.added), Set(d.dropped));
    forall e | e in d.added ensures s.cfg.encoder(e).Some? && s.cfg.encoder(e).value <= limit {
      assert e.peerId in s.known && s.known[e.peerId] == e;
    }
    forall id | id in d.dropped ensures TextLen(id) <= idLimit { assert id in Set(d.dropped); }
    if limit + idLimit <= 5240 { CappedDeltaFits(s.cfg.encoder, d.added, d.dropped, limit, idLimit); }
  }

  lemma {:induction false} EntryBytesAtMost(encoder: Encoder, peers: seq<PeerEntry>, limit: nat)
    requires forall e | e in peers :: encoder(e).Some? && encoder(e).value <= limit
    ensures EntryBytes(encoder, peers) <= |peers| * limit
  {
    if peers != [] {
      EntryBytesAtMost(encoder, peers[..|peers| - 1], limit);
      assert |peers| * limit == (|peers| - 1) * limit + limit;
    }
  }

  lemma CappedDeltaFits(encoder: Encoder, added: seq<PeerEntry>, dropped: seq<PeerId>, limit: nat, idLimit: nat)
    requires |added| <= PEX_MAX_ADDED && |dropped| <= PEX_MAX_DROPPED && limit + idLimit <= 5240
    requires forall e | e in added :: encoder(e).Some? && encoder(e).value <= limit
    requires forall id | id in dropped :: TextLen(id) <= idLimit
    ensures MessageFits(encoder, PexDelta(added, dropped))
  {
    hide EntryBytes, Total, TextLen;
    EntryBytesAtMost(encoder, added, limit);
    TotalAtMost(dropped, TextLen, idLimit);
    FewTimes(|added|, limit);
    FewTimes(|dropped|, idLimit);
  }

  lemma FewTimes(n: nat, limit: nat)
    requires n <= 50
    ensures n * limit <= 50 * limit
  {
    assert (50 - n) * limit >= 0;
  }

  lemma StepModest(s: Pex, input: Input, s': Pex, effect: Effect, limit: nat, idLimit: nat)
    requires Modest(s, limit, idLimit) && Step(s, input, s', effect) && ModestInput(input, limit, idLimit)
    ensures Modest(s', limit, idLimit)
  {
    hide EntryLen, TextLen, Dispatch, LinkUp, Strike;
    StepFrame(s, input, s', effect);
    if input.DoLinkUp? {
      var sent :| LinkUp(s, input.peer, input.at, s', sent) && effect == Effect(Addressed(input.peer, sent), []);
      ModestLinkUp(s, input.peer, input.at, s', sent, limit, idLimit);
    } else {
      forall p | p in s'.links ensures ModestTold(s'.links[p], idLimit) {
        if input != DoLinkDown(p) { ToldModest(s, input, s', effect, p, limit, idLimit); }
      }
    }
  }

  lemma ToldModest(s: Pex, input: Input, s': Pex, effect: Effect, p: PeerId, limit: nat, idLimit: nat)
    requires Modest(s, limit, idLimit) && Step(s, input, s', effect) && !IsLifecycle(input, p)
    ensures ModestTold(LinkOr(s', p), idLimit)
  {
    hide EntryLen, TextLen, Step, SenderMoves, SenderSends;
    StepMovesSender(s, input, s', effect, p);
    if DeltaSent(effect, input, p) {
      DeltaOnLink(s, input, s', effect, p);
      var d: Delta :| SenderSends(s, p, LinkOr(s, p), LinkOr(s', p), d, input.at);
      ModestTurn(s, p, LinkOr(s', p), d, input.at, limit, idLimit);
    }
  }

  lemma DeltaOnLink(s: Pex, input: Input, s': Pex, effect: Effect, p: PeerId)
    requires Keyed(s.known) && Step(s, input, s', effect) && DeltaSent(effect, input, p)
    ensures p in s.links
  {
  }

  /** Whatever an input sends fits: a snapshot always, a handshake if the configuration does, a delta if
      the limits add up to no more than 5240. */
  lemma SendsFit(s: Pex, input: Input, s': Pex, effect: Effect, p: PeerId, msg: PexMessage, limit: nat, idLimit: nat)
    requires Modest(s, limit, idLimit) && Step(s, input, s', effect) && msg in SentTo(effect.sends, p)
    requires limit + idLimit <= 5240 && MessageFits(s.cfg.encoder, Handshake(s.cfg))
    ensures MessageFits(s.cfg.encoder, msg)
  {
    hide EntryLen, TextLen, Dispatch, LinkUp, Tick, SenderSends, MessageFits;
    match input
    case DoLinkUp(q, at) =>
      var sent: seq<PexMessage> :| LinkUp(s, q, at, s', sent) && effect == Effect(Addressed(q, sent), []);
      SentToAddressed(q, sent, p);
      SnapshotFits(s, q, at, s', sent);
    case DoTick(at) =>
      TickMovesSender(s, at, s', effect.sends, p);
      hide Step;
      DeltaFits(s, input, s', effect, p, msg, limit, idLimit);
    case DoMessage(_, _, _) =>
      InboundAnswers(s, input, s', effect, p);
      ErrorFits(s.cfg.encoder, msg);
    case DoViolation(_, _, _) =>
      InboundAnswers(s, input, s', effect, p);
      ErrorFits(s.cfg.encoder, msg);
    case _ =>
  }

  lemma DeltaFits(s: Pex, input: Input, s': Pex, effect: Effect, p: PeerId, msg: PexMessage, limit: nat, idLimit: nat)
    requires Modest(s, limit, idLimit) && Step(s, input, s', effect) && msg in SentTo(effect.sends, p)
    requires limit + idLimit <= 5240 && msg.PexDelta?
    ensures MessageFits(s.cfg.encoder, msg)
  {
    hide EntryLen, TextLen, Dispatch, Tick, SenderSends, MessageFits;
    match input
    case DoLinkUp(q, at) =>
      var sent: seq<PexMessage> :| LinkUp(s, q, at, s', sent) && effect == Effect(Addressed(q, sent), []);
      SentToAddressed(q, sent, p);
      hide LinkUp;
    case DoTick(at) =>
      TickMovesSender(s, at, s', effect.sends, p);
      DeltaOnLink(s, input, s', effect, p);
      var d: Delta :| SentTo(effect.sends, p) == [PexDelta(d.added, d.dropped)]
        && SenderSends(s, p, LinkOr(s, p), LinkOr(s', p), d, at);
      ModestTurn(s, p, LinkOr(s', p), d, at, limit, idLimit);
    case DoMessage(_, _, _) => InboundAnswers(s, input, s', effect, p);
    case DoViolation(_, _, _) => InboundAnswers(s, input, s', effect, p);
    case _ =>
  }

  lemma ErrorFits(encoder: Encoder, msg: PexMessage)
    requires msg.PexError?
    ensures MessageFits(encoder, msg)
  {
  }

  /** A snapshot is trimmed to fit, whatever the entries. */
  lemma SnapshotFits(s: Pex, p: PeerId, at: nat, s': Pex, sent: seq<PexMessage>)
    requires Keyed(s.known) && LinkUp(s, p, at, s', sent)
    ensures MessageFits(s.cfg.encoder, sent[1])
    ensures forall msg | msg in sent :: msg == Handshake(s.cfg) || msg == sent[1]
  {
    var all := Take(Arrange(s.known, AdvertisedTo(s, p, at)), PEX_MAX_SNAPSHOT);
    TrimIsLongest(s.cfg.encoder, all, sent[1].peers, 0);
  }

  // ----- runs -----

  /** A run from nothing, with the JSON encoder, in which the host keeps to the limits. */
  ghost predicate ModestRun(run: Trace, limit: nat, idLimit: nat) {
    && run.IsRun() && run.states[0] == Start(run.states[0].cfg) && EncodesJson(run.states[0].cfg)
    && forall i | 0 <= i < |run.inputs| :: ModestInput(run.inputs[i], limit, idLimit)
  }

  lemma {:induction false} RunModest(run: Trace, n: nat, limit: nat, idLimit: nat)
    requires ModestRun(run, limit, idLimit) && n <= |run.inputs|
    ensures Modest(run.states[n], limit, idLimit)
  {
    hide Step, ModestInput;
    if n > 0 {
      RunModest(run, n - 1, limit, idLimit);
      hide Modest;
      RunStep(run, n);
      StepModest(run.states[n - 1], run.inputs[n - 1], run.states[n], run.effects[n - 1], limit, idLimit);
    }
  }

  /** Every delta the run sends is one the receiver's frame bound accepts. */
  ghost predicate DeltasFit(run: Trace)
    requires run.IsRun()
  {
    forall i: nat, p: PeerId, msg: PexMessage
      | i < |run.inputs| && msg in SentTo(run.effects[i].sends, p) && msg.PexDelta? ::
      MessageFits(run.states[0].cfg.encoder, msg)
  }

  lemma ModestDeltasFit(run: Trace, limit: nat, idLimit: nat)
    requires ModestRun(run, limit, idLimit) && limit + idLimit <= 5240
    ensures DeltasFit(run)
  {
    hide MessageFits, Modest, Step;
    forall i: nat, p: PeerId, msg: PexMessage
      | i < |run.inputs| && msg in SentTo(run.effects[i].sends, p) && msg.PexDelta?
      ensures MessageFits(run.states[0].cfg.encoder, msg)
    {
      RunModest(run, i, limit, idLimit);
      RunStep(run, i + 1);
      RunConfig(run, i);
      DeltaFits(run.states[i], run.inputs[i], run.states[i + 1], run.effects[i], p, msg, limit, idLimit);
    }
  }

  // ----- a delta that does not fit -----

  /** The `k`-th of a hundred ids of `len` bytes; of 64 bytes, it is of the usual hexadecimal form. */
  function NthId(k: nat, len: nat): PeerId
    requires k < 100 && 2 <= len
  {
    [(48 + k / 10) as byte, (48 + k % 10) as byte] + seq(len - 2, _ => 97)
  }

  /** An entry about that id, with a network name of `pad` bytes. */
  function NthEntry(k: nat, len: nat, pad: nat): PeerEntry
    requires k < 100 && 2 <= len
  {
    PeerEntry(NthId(k, len), [], seq(pad, _ => 97), 0, Provenance.Direct, [], None)
  }

  function Fifty(from: nat, len: nat, pad: nat): seq<PeerEntry>
    requires from <= 50 && 2 <= len
  {
    seq(50, i requires 0 <= i < 50 => NthEntry(from + i, len, pad))
  }

  function FiftyIds(from: nat, len: nat): seq<PeerId>
    requires from <= 50 && 2 <= len
  {
    seq(50, i requires 0 <= i < 50 => NthId(from + i, len))
  }

  lemma NthLens(k: nat, len: nat, pad: nat)
    requires k < 100 && 2 <= len
    ensures TextLen(NthId(k, len)) == len + 2 && EntryLen(NthEntry(k, len, pad)) == len + pad + 85
    ensures NthEntry(k, len, pad).peerId == NthId(k, len) && NthId(k, len) != []
  {
    hide TextLen;
    PlainLen(NthId(k, len));
    PlainLen(seq(pad, _ => 97));
  }

  lemma NthAscends(j: nat, k: nat, len: nat)
    requires j < k < 100 && 2 <= len
    ensures TextLess(NthId(j, len), NthId(k, len)) && NthId(j, len) != NthId(k, len)
  {
    var a, b := NthId(j, len), NthId(k, len);
    assert a[0] as int == 48 + j / 10 && b[0] as int == 48 + k / 10;
    assert a[1] as int == 48 + j % 10 && b[1] as int == 48 + k % 10;
    if j / 10 == k / 10 {
      assert a[1..][0] < b[1..][0];
      assert TextLess(a[1..], b[1..]);
    }
  }

  lemma FiftyDistinct(from: nat, len: nat, pad: nat)
    requires from <= 50 && 2 <= len
    ensures Ascending(FiftyIds(from, len)) && |Set(FiftyIds(from, len))| == 50
    ensures Ids(Fifty(from, len, pad)) == Set(FiftyIds(from, len))
  {
    var ids := FiftyIds(from, len);
    forall i, j | 0 <= i < j < 50 ensures TextLess(ids[i], ids[j]) { NthAscends(from + i, from + j, len); }
    AscendingSize(ids);
    var entries := Fifty(from, len, pad);
    forall i | 0 <= i < 50 ensures entries[i].peerId == ids[i] && entries[i] in entries {
      assert entries[i] == NthEntry(from + i, len, pad) && ids[i] == NthId(from + i, len);
    }
    hide NthId, NthEntry, Fifty, FiftyIds;
    forall id ensures id in Ids(entries) <==> id in Set(ids) {
      if id in Set(ids) { var i :| 0 <= i < 50 && ids[i] == id; }
    }
  }

  lemma HundredDistinct(len: nat)
    requires 2 <= len
    ensures Set(FiftyIds(0, len)) !! Set(FiftyIds(50, len))
  {
    forall i, j | 0 <= i < 50 <= j < 100 ensures NthId(i, len) != NthId(j, len) { NthAscends(i, j, len); }
  }

  // ----- putting entries in and taking them out -----

  function PutAll(known: Known, entries: seq<PeerEntry>): Known {
    if entries == [] then known
    else PutAll(known, entries[..|entries| - 1])[entries[|entries| - 1].peerId := entries[|entries| - 1]]
  }

  lemma {:induction false} PutAllKnown(entries: seq<PeerEntry>)
    ensures var known := PutAll(map[], entries);
            known.Keys == Ids(entries) && Keyed(known) && forall id | id in known :: known[id] in entries
  {
    if entries != [] {
      var init, e := entries[..|entries| - 1], entries[|entries| - 1];
      PutAllKnown(init);
      assert entries == init + [e];
      assert Ids(entries) == Ids(init) + {e.peerId};
    }
  }

  /** The run goes on with the inputs that put `entries` in. */
  lemma {:induction false} PutIn(run: Trace, entries: seq<PeerEntry>, limit: nat, idLimit: nat) returns (longer: Trace)
    requires ModestRun(run, limit, idLimit) && Keyed(Last(run).known)
    requires forall e | e in entries :: e.peerId != Last(run).cfg.localPeerId && ModestEntry(e, limit, idLimit)
    ensures ModestRun(longer, limit, idLimit) && longer.states[0] == run.states[0]
    ensures Last(longer) == Last(run).(known := PutAll(Last(run).known, entries)) && Keyed(Last(longer).known)
  {
    longer := run;
    if entries != [] {
      var init, e := entries[..|entries| - 1], entries[|entries| - 1];
      assert forall x | x in init :: x in entries;
      longer := PutIn(run, init, limit, idLimit);
      hide ModestRun, ModestEntry, Keyed;
      longer := PutOneIn(longer, e, limit, idLimit);
    }
  }

  lemma PutOneIn(run: Trace, e: PeerEntry, limit: nat, idLimit: nat) returns (longer: Trace)
    requires ModestRun(run, limit, idLimit) && Keyed(Last(run).known)
    requires e.peerId != Last(run).cfg.localPeerId && ModestEntry(e, limit, idLimit)
    ensures ModestRun(longer, limit, idLimit) && longer.states[0] == run.states[0]
    ensures Last(longer) == Last(run).(known := Last(run).known[e.peerId := e]) && Keyed(Last(longer).known)
  {
    hide ModestEntry, EncodesJson;
    longer := Go(run, DoUpsert(e), UpsertKnown(Last(run), e), Effect([], []));
  }

  lemma {:induction false} TakeOut(run: Trace, ids: seq<PeerId>, limit: nat, idLimit: nat) returns (longer: Trace)
    requires ModestRun(run, limit, idLimit) && Keyed(Last(run).known)
    ensures ModestRun(longer, limit, idLimit) && longer.states[0] == run.states[0]
    ensures Last(longer) == Last(run).(known := Last(run).known - Set(ids)) && Keyed(Last(longer).known)
  {
    longer := run;
    if ids != [] {
      var init, id := ids[..|ids| - 1], ids[|ids| - 1];
      longer := TakeOut(run, init, limit, idLimit);
      longer := Go(longer, DoRemove(id), RemoveKnown(Last(longer), id), Effect([], []));
      assert ids == init + [id];
      assert Set(ids) == Set(init) + {id};
    } else {
      assert Last(run).known - Set(ids) == Last(run).known;
    }
  }

  // ----- the run -----

  function JsonConfig(): Config { Config([], [], [], 30, false, _ => 0, e => Some(EntryLen(e))) }

  const PARTNER: PeerId := [1]

  /** Fifty entries of one size, known under the ids `ids` of one size. */
  ghost predicate Batch(known: Known, ids: set<PeerId>, size: nat, idSize: nat) {
    && Keyed(known) && known.Keys == ids && |ids| == 50
    && forall id | id in known ::
         && known[id].lastSeen == 0 && EntryLen(known[id]) == size && TextLen(id) == idSize
         && id != [] && id != PARTNER
  }

  lemma OfFifty(from: nat, len: nat, pad: nat, e: PeerEntry) returns (k: nat)
    requires from <= 50 && 2 <= len && e in Fifty(from, len, pad)
    ensures k < 100 && e == NthEntry(k, len, pad)
  {
    var i :| 0 <= i < 50 && Fifty(from, len, pad)[i] == e;
    k := from + i;
  }

  lemma FiftyKnown(from: nat, len: nat, pad: nat)
    requires from <= 50 && 2 <= len
    ensures Batch(PutAll(map[], Fifty(from, len, pad)), Set(FiftyIds(from, len)), len + pad + 85, len + 2)
    ensures forall e | e in Fifty(from, len, pad) ::
              EntryLen(e) == len + pad + 85 && TextLen(e.peerId) == len + 2 && e.peerId != []
  {
    PutAllKnown(Fifty(from, len, pad));
    FiftyDistinct(from, len, pad);
    hide Fifty, FiftyIds, NthEntry, NthId, EntryLen, TextLen, PutAll;
    forall e | e in Fifty(from, len, pad)
      ensures EntryLen(e) == len + pad + 85 && TextLen(e.peerId) == len + 2
      ensures e.lastSeen == 0 && e.peerId != [] && e.peerId != PARTNER
    {
      var k := OfFifty(from, len, pad, e);
      NthLens(k, len, pad);
    }
  }

  /** A batch may be advertised whole, at any time in the first half hour. */
  lemma BatchAdvertised(s: Pex, ids: set<PeerId>, size: nat, idSize: nat, at: nat)
    requires Batch(s.known, ids, size, idSize) && s.cfg.localPeerId == [] && at <= 1_800_000
    ensures AdvertisedTo(s, PARTNER, at) == ids
  {
    hide EntryLen, TextLen;
  }

  lemma BatchArranged(known: Known, ids: set<PeerId>, size: nat, idSize: nat, encoder: Encoder)
    requires Batch(known, ids, size, idSize) && forall e :: encoder(e) == Some(EntryLen(e))
    ensures var entries := Arrange(known, ids);
            |entries| == 50 && Encodable(encoder, entries) && EntryBytes(encoder, entries) == 50 * size
  {
    hide EntryLen, TextLen, EntryBytes;
    var entries := Arrange(known, ids);
    ArrangementSize(entries, known, ids);
    forall e | e in entries ensures encoder(e) == Some(size) { assert known[e.peerId] == e; }
    EntryBytesOfEqual(encoder, entries, size);
  }

  lemma {:induction false} EntryBytesOfEqual(encoder: Encoder, peers: seq<PeerEntry>, size: nat)
    requires forall e | e in peers :: encoder(e) == Some(size)
    ensures EntryBytes(encoder, peers) == |peers| * size
  {
    if peers != [] {
      EntryBytesOfEqual(encoder, peers[..|peers| - 1], size);
      assert |peers| * size == (|peers| - 1) * size + size;
    }
  }

  /** Fifty entries told in the snapshot, all of them removed again. */
  lemma ToldAndRemoved(len: nat, limit: nat, idLimit: nat) returns (run: Trace)
    requires 2 <= len <= 5000 && len + 85 <= limit && len + 2 <= idLimit
    ensures ModestRun(run, limit, idLimit) && run.states[0] == Start(JsonConfig())
    ensures RemovedAgain(Last(run), Set(FiftyIds(0, len)))
  {
    run := NothingYet(limit, idLimit);
    hide ModestRun, RemovedAgain, Step, ModestInput;
    run := FiftyPutIn(run, 0, len, 0, limit, idLimit);
    FiftyKnown(0, len, 0);
    hide Step, ModestInput, EncodesJson, Fifty, PutAll, FiftyIds, Batch, JsonConfig, ToldOnce, EntryLen, TextLen;
    var ids := FiftyIds(0, len);
    run := BatchTold(run, Set(ids), len + 85, len + 2, limit, idLimit);
    run := AllOut(run, ids, limit, idLimit);
  }

  lemma FiftyModest(from: nat, len: nat, pad: nat, limit: nat, idLimit: nat)
    requires from <= 50 && 2 <= len && len + pad + 85 <= limit && len + 2 <= idLimit
    ensures forall e | e in Fifty(from, len, pad) :: ModestEntry(e, limit, idLimit) && e.peerId != []
  {
    hide Fifty, EntryLen, TextLen, Batch;
    FiftyKnown(from, len, pad);
  }

  /** The run goes on with a batch put in. */
  lemma FiftyPutIn(run: Trace, from: nat, len: nat, pad: nat, limit: nat, idLimit: nat) returns (longer: Trace)
    requires ModestRun(run, limit, idLimit) && Keyed(Last(run).known) && Last(run).cfg == JsonConfig()
    requires from <= 50 && 2 <= len && len + pad + 85 <= limit && len + 2 <= idLimit
    ensures ModestRun(longer, limit, idLimit) && longer.states[0] == run.states[0]
    ensures Last(longer) == Last(run).(known := PutAll(Last(run).known, Fifty(from, len, pad)))
  {
    hide Step, EncodesJson, ModestInput, ModestEntry, Fifty, PutAll, Keyed;
    FiftyModest(from, len, pad, limit, idLimit);
    longer := PutIn(run, Fifty(from, len, pad), limit, idLimit);
  }

  lemma NothingYet(limit: nat, idLimit: nat) returns (run: Trace)
    ensures ModestRun(run, limit, idLimit) && run.inputs == [] && run.states == [Start(JsonConfig())]
  {
    run := EmptyRun(Start(JsonConfig()));
  }

  /** One link, raised at time 0, which was told `ids`. */
  ghost predicate ToldOnce(s: Pex, ids: set<PeerId>) {
    && s.cfg == JsonConfig() && PARTNER in s.links && (forall q | q in s.links :: q == PARTNER)
    && s.links[PARTNER].told.Keys == ids && Eligible(s.links[PARTNER], 30_000)
  }

  ghost predicate RemovedAgain(s: Pex, ids: set<PeerId>) { ToldOnce(s, ids) && s.known == map[] }

  lemma AllOut(run: Trace, ids: seq<PeerId>, limit: nat, idLimit: nat) returns (longer: Trace)
    requires ModestRun(run, limit, idLimit) && ToldOnce(Last(run), Set(ids)) && Last(run).known.Keys == Set(ids)
    requires Keyed(Last(run).known)
    ensures ModestRun(longer, limit, idLimit) && longer.states[0] == run.states[0]
    ensures RemovedAgain(Last(longer), Set(ids))
  {
    hide Step, ModestInput, EncodesJson, Eligible, Keyed;
    longer := TakeOut(run, ids, limit, idLimit);
    assert Last(run).known - Set(ids) == map[];
  }

  lemma BatchTold(run: Trace, ids: set<PeerId>, size: nat, idSize: nat, limit: nat, idLimit: nat)
    returns (longer: Trace)
    requires ModestRun(run, limit, idLimit) && Last(run).links == map[] && Last(run).cfg == JsonConfig()
    requires Batch(Last(run).known, ids, size, idSize) && size <= 5200
    ensures ModestRun(longer, limit, idLimit) && longer.states[0] == run.states[0]
    ensures ToldOnce(Last(longer), ids) && Last(longer).known == Last(run).known && Keyed(Last(longer).known)
  {
    var s := Last(run);
    BatchSnapshot(s, ids, size, idSize);
    hide Step, ModestInput, EncodesJson, Batch, IsSnapshot, ToldOnce, EntryLen;
    longer := RaiseModest(run, Arrange(s.known, ids), limit, idLimit);
  }

  lemma BatchSnapshot(s: Pex, ids: set<PeerId>, size: nat, idSize: nat)
    requires Batch(s.known, ids, size, idSize) && size <= 5200 && s.cfg == JsonConfig()
    ensures Keyed(s.known) && ids <= s.known.Keys && IsSnapshot(s, PARTNER, 0, Arrange(s.known, ids))
  {
    BatchAdvertised(s, ids, size, idSize, 0);
    BatchArranged(s.known, ids, size, idSize, s.cfg.encoder);
    hide Batch, EntryBytes, AdvertisedTo;
  }

  lemma RaiseModest(run: Trace, peers: seq<PeerEntry>, limit: nat, idLimit: nat) returns (longer: Trace)
    requires ModestRun(run, limit, idLimit) && Keyed(Last(run).known) && Last(run).links == map[]
    requires IsSnapshot(Last(run), PARTNER, 0, peers) && Last(run).cfg == JsonConfig()
    ensures ModestRun(longer, limit, idLimit) && longer.states[0] == run.states[0]
    ensures ToldOnce(Last(longer), Ids(peers)) && Last(longer).known == Last(run).known
  {
    RaisedTold(Last(run), peers);
    assert EncodesJson(Last(run).cfg);
    hide Step, EncodesJson, ToldOnce, LinkAfterUp, IsSnapshot;
    longer := Raise(run, PARTNER, 0, peers);
  }

  lemma RaisedTold(s: Pex, peers: seq<PeerEntry>)
    requires Keyed(s.known) && s.links == map[] && IsSnapshot(s, PARTNER, 0, peers) && s.cfg == JsonConfig()
    ensures var l := LinkAfterUp(s.cfg, s.known, LinkOr(s, PARTNER), peers, 0, 0);
            ToldOnce(s.(links := s.links[PARTNER := l]), Ids(peers))
  {
    SnapshotIds(s, PARTNER, 0, peers);
    assert LinkOr(s, PARTNER) == FreshLink(s.cfg.interval) && Ids(peers) <= s.known.Keys;
    hide IsSnapshot, Keyed, Ids, Fingerprints, LinkOr, EntryLen, IsArrangement, AdvertisedTo;
    FingerprintKeys(s.cfg.Print(), s.known, Ids(peers));
    ToldAlone(s, LinkAfterUp(s.cfg, s.known, LinkOr(s, PARTNER), peers, 0, 0), Ids(peers));
  }

  lemma ToldAlone(s: Pex, l: Link, ids: set<PeerId>)
    requires s.links == map[] && s.cfg == JsonConfig() && l.told.Keys == ids && Eligible(l, 30_000)
    ensures ToldOnce(s.(links := s.links[PARTNER := l]), ids)
  {
    hide Eligible, JsonConfig;
  }

  // ----- the delta -----

  /** Fifty new entries to add and fifty old ids to drop. */
  lemma HundredDue(s: Pex, gone: seq<PeerId>, coming: set<PeerId>, size: nat, idSize: nat) returns (d: Delta)
    requires ToldOnce(s, Set(gone)) && Ascending(gone) && |gone| == |Set(gone)| == 50 && Set(gone) !! coming
    requires Batch(s.known, coming, size, idSize)
    ensures DueOn(s, PARTNER, 30_000, d) && d.dropped == gone
    ensures |d.added| == 50 && Encodable(s.cfg.encoder, d.added) && EntryBytes(s.cfg.encoder, d.added) == 50 * size
  {
    d := Delta(Arrange(s.known, coming), gone);
    BatchAdvertised(s, coming, size, idSize, 30_000);
    BatchArranged(s.known, coming, size, idSize, s.cfg.encoder);
    hide EntryBytes, Eligible, EntryLen, TextLen, AdvertisedTo, Ascending, IsDelta, DueOn;
    HundredDelta(s.cfg.Print(), s.known, s.links[PARTNER].told, gone, coming);
    DueWhen(s, coming, d);
  }

  lemma DueWhen(s: Pex, adv: set<PeerId>, d: Delta)
    requires PARTNER in s.links && ToldOnce(s, s.links[PARTNER].told.Keys) && Keyed(s.known) && d != Delta([], [])
    requires AdvertisedTo(s, PARTNER, 30_000) == adv
    requires IsDelta(s.cfg.Print(), s.known, adv, s.links[PARTNER].told, d.added, d.dropped)
    ensures DueOn(s, PARTNER, 30_000, d)
  {
    hide Eligible, AdvertisedTo, IsDelta;
  }

  lemma HundredDelta(fp: Print, known: Known, told: Told, gone: seq<PeerId>, coming: set<PeerId>)
    requires Keyed(known) && known.Keys == coming && |coming| == 50
    requires told.Keys == Set(gone) && Set(gone) !! coming && Ascending(gone) && |gone| == |Set(gone)| == 50
    ensures IsDelta(fp, known, coming, told, Arrange(known, coming), gone)
  {
    assert PendingIds(fp, known, coming, told) == coming;
    assert StaleIds(coming, told) == Set(gone);
    ArrangementSize(Arrange(known, coming), known, coming);
  }

  lemma HundredTooLong(encoder: Encoder, d: Delta, size: nat, idSize: nat)
    requires Encodable(encoder, d.added) && |d.added| == |d.dropped| == 50 && EntryBytes(encoder, d.added) == 50 * size
    requires (forall id | id in d.dropped :: TextLen(id) == idSize) && size + idSize > 5240
    ensures !MessageFits(encoder, PexDelta(d.added, d.dropped))
  {
    hide TextLen, EntryBytes;
    TotalOfEqual(d.dropped, TextLen, idSize);
  }

  /** Fifty entries with ids of `len` bytes are told and removed; fifty others, padded, are put in; and
      the next tick sends a delta of both, which is too long. */
  lemma OverlongDelta(len: nat, pad: nat, limit: nat, idLimit: nat) returns (run: Trace)
    requires 2 <= len <= 5000 && len + pad + 85 <= limit && len + 2 <= idLimit && 2 * len + pad > 5153
    ensures ModestRun(run, limit, idLimit) && !DeltasFit(run)
  {
    var gone, coming := FiftyIds(0, len), FiftyIds(50, len);
    FiftyDistinct(0, len, pad);
    HundredDistinct(len);
    FiftyKnown(50, len, pad);
    OldIdLens(len);
    run := ToldAndRemoved(len, limit, idLimit);
    hide Step, ModestInput, EncodesJson, Fifty, FiftyIds, PutAll, Batch, JsonConfig, EntryLen, TextLen, Ascending, Set,
         Eligible, MessageFits;
    run := FiftyPutIn(run, 50, len, pad, limit, idLimit);
    var s := Last(run);
    var d := HundredDue(s, gone, Set(coming), len + pad + 85, len + 2);
    HundredTooLong(s.cfg.encoder, d, len + pad + 85, len + 2);
    run := SendsOverlong(run, d, limit, idLimit);
  }

  lemma OldIdLens(len: nat)
    requires 2 <= len
    ensures forall id | id in FiftyIds(0, len) :: TextLen(id) == len + 2
  {
    hide NthId, TextLen;
    forall id | id in FiftyIds(0, len) ensures TextLen(id) == len + 2 {
      var i :| 0 <= i < 50 && FiftyIds(0, len)[i] == id;
      NthLens(i, len, 0);
    }
  }

  lemma SendsOverlong(run: Trace, d: Delta, limit: nat, idLimit: nat) returns (longer: Trace)
    requires ModestRun(run, limit, idLimit) && DueOn(Last(run), PARTNER, 30_000, d)
    requires Last(run).cfg == run.states[0].cfg && !MessageFits(Last(run).cfg.encoder, PexDelta(d.added, d.dropped))
    ensures ModestRun(longer, limit, idLimit) && !DeltasFit(longer)
  {
    hide Step, EncodesJson, DueOn, MessageFits, AfterTelling, SentTo;
    longer := Tell(run, PARTNER, 30_000, d);
    assert PexDelta(d.added, d.dropped) in SentTo(longer.effects[|run.inputs|].sends, PARTNER);
  }

  /** An id is limited by what an entry may encode to, less the least an entry adds to it. */
  function IdRoom(limit: nat, idLimit: nat): nat { Min(idLimit, SaturatingSub(limit, 82)) }

  lemma EntryAddsToId(e: PeerEntry)
    ensures EntryLen(e) >= TextLen(e.peerId) + 82
  {
    QuotesLeast(e.networkId);
  }

  lemma {:induction false} QuotesLeast(t: Text)
    ensures TextLen(t) >= 2
  {
    if t != [] { QuotesLeast(t[..|t| - 1]); }
  }

  lemma RoomIsEnough(run: Trace, limit: nat, idLimit: nat)
    requires ModestRun(run, limit, idLimit)
    ensures ModestRun(run, limit, IdRoom(limit, idLimit))
  {
    hide Step, EncodesJson, EntryLen, TextLen;
    forall i | 0 <= i < |run.inputs| ensures ModestInput(run.inputs[i], limit, IdRoom(limit, idLimit)) {
      if run.inputs[i].DoUpsert? {
        EntryAddsToId(run.inputs[i].entry);
        assert ModestInput(run.inputs[i], limit, idLimit);
      }
    }
  }

  /** A delta is bounded by count only. Over all runs in which the host keeps entries to `limit` encoded
      bytes and ids to `idLimit`, every delta stays within the frame bound if and only if the most an
      entry and the most an id can take, which is 82 bytes less than an entry if not less, add up to no more
      than 5240. The limit
      on ids has to allow for two plain characters and the quotes: with fewer there are not a hundred ids. */
  lemma DeltasFitIffLimitsDo(limit: nat, idLimit: nat)
    requires 4 <= idLimit
    ensures (forall run: Trace | ModestRun(run, limit, idLimit) :: DeltasFit(run))
            <==> limit + Min(idLimit, limit - 82) <= 5240
  {
    var room := IdRoom(limit, idLimit);
    if limit + room <= 5240 {
      forall run: Trace | ModestRun(run, limit, idLimit) ensures DeltasFit(run) {
        RoomIsEnough(run, limit, idLimit);
        ModestDeltasFit(run, limit, room);
      }
    } else {
      var len := Min(room, 2579) - 2;
      var run := OverlongDelta(len, 5154 - 2 * len, limit, idLimit);
    }
  }
}
