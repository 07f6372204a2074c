/** What comes in, said of fields, dates and numbers alone: rate errors, violations, the entries surfaced
    from a batch, and the record the host keeps. */
module Inbound {
  import opened Basics
  import opened Caps
  import opened Timer
  import opened Payment
  import opened Entry
  import opened Wire
  import opened Bounded
  import opened Advertise
  import opened State
  import opened Protocol
  import opened Invariant
  import opened Sides
  import opened History

  // ----- rate errors -----

  /** Close enough on a data message of ours: within the floor a receiver enforces on our own interval. */
  predicate SoonAfterData(l: Link, at: nat) {
    l.lastDataSendMs.Some? && at < l.lastDataSendMs.value + (ClampInterval(l.selfIntervalSecs) - 5) * 1000
  }

  /** Our own interval has gone by since the last back-off. A clock behind that back-off counts as no time
      gone by, and an interval of zero as gone by at any time. */
  predicate LongAfterBackoff(l: Link, at: nat) {
    l.lastBackoffAppliedMs.Some? ==>
      l.selfIntervalSecs == 0 || at >= l.lastBackoffAppliedMs.value + l.selfIntervalSecs * 1000
  }

  /** An error moves a link that is not muted if and only if its code is 3, it comes soon enough after a data
      message of ours, and no back-off was honoured too shortly before. Our own interval is then twice what it
      was, but between 30 s and an hour, and the time is noted; nothing else moves and nothing is answered. */
  lemma ErrorSays(s: Pex, p: PeerId, code: u16, at: nat, s': Pex, effect: Effect)
    requires Keyed(s.known) && Step(s, DoMessage(p, PexError(code), at), s', effect) && !LinkOr(s, p).muted
    ensures var l, l' := LinkOr(s, p), LinkOr(s', p);
            && (l' != l <==> code == 3 && SoonAfterData(l, at) && LongAfterBackoff(l, at))
            && (l' != l ==>
                  l' == l.(lastBackoffAppliedMs := Some(at),
                           selfIntervalSecs := if l.selfIntervalSecs < 15 then 30
                                               else if l.selfIntervalSecs > 1800 then 3600
                                               else 2 * l.selfIntervalSecs))
    ensures effect == Effect([], []) && s' == s.(links := s.links[p := LinkOr(s', p)])
  {
  }

  // ----- violations -----

  /** A violation the transport reports is one strike more, muted or not, answered and reported under its
      code; the third strike mutes, and takes with it what the link told us and every hint it sources. */
  lemma ViolationSays(s: Pex, p: PeerId, code: ErrorCode, at: nat, s': Pex, effect: Effect)
    requires Keyed(s.known) && Step(s, DoViolation(p, code, at), s', effect)
    ensures var l, third := LinkOr(s, p), LinkOr(s, p).strikes >= 2;
            && effect == Effect([(p, PexError(code.AsU16()))], [Violation(code.AsU16(), third)])
            && LinkOr(s', p) == l.(strikes := l.strikes + 1, muted := l.muted || third,
                                   received := if third then map[] else l.received)
            && s' == s.(links := s.links[p := LinkOr(s', p)], hints := s'.hints)
            && (forall id :: id in s'.hints <==> id in s.hints && !(third && s.hints[id].source == p))
            && (forall id | id in s'.hints :: s'.hints[id] == s.hints[id])
  {
    hide ErrorCode.AsU16;
  }

  // ----- teardown -----

  /** Teardown takes the link and exactly the hints it sources. */
  lemma LinkDownSays(s: Pex, p: PeerId, s': Pex, effect: Effect)
    requires Keyed(s.known) && Step(s, DoLinkDown(p), s', effect)
    ensures effect == Effect([], []) && s'.cfg == s.cfg && s'.known == s.known && s'.links == s.links - {p}
    ensures forall id :: id in s'.hints <==> id in s.hints && s.hints[id].source != p
    ensures forall id | id in s'.hints :: s'.hints[id] == s.hints[id]
  {
  }

  // ----- the record the host keeps -----

  /** The last word the host had on `id` before step `n` was to put `e` in. */
  ghost predicate LastPut(run: Trace, n: nat, id: PeerId, e: PeerEntry)
    requires n <= |run.inputs|
  {
    e.peerId == id && exists i | 0 <= i < n :: run.inputs[i] == DoUpsert(e) && NoWordSince(run, i, n, id)
  }

  ghost predicate NoWordSince(run: Trace, i: nat, n: nat, id: PeerId)
    requires n <= |run.inputs|
  {
    forall j | i < j < n ::
      run.inputs[j] != DoRemove(id) && !(run.inputs[j].DoUpsert? && run.inputs[j].entry.peerId == id)
  }

  /** What is known is what the host last said, entry for entry, and nothing about the participant itself. */
  lemma {:induction false} KnownIsLastPut(run: Trace, n: nat, id: PeerId, e: PeerEntry)
    requires run.IsRun() && n <= |run.inputs| && run.states[0].known == map[]
    ensures id in run.states[n].known && run.states[n].known[id] == e
            <==> id != run.states[0].cfg.localPeerId && LastPut(run, n, id, e)
  {
    if n > 0 {
      var s, input, s' := run.states[n - 1], run.inputs[n - 1], run.states[n];
      KnownIsLastPut(run, n - 1, id, e);
      RunStep(run, n);
      RunConfig(run, n - 1);
      StepFrame(s, input, s', run.effects[n - 1]);
      StepKnows(s, input, s', run.effects[n - 1], id);
      LastPutStep(run, n, id, e);
    }
  }

  lemma StepKnows(s: Pex, input: Input, s': Pex, effect: Effect, id: PeerId)
    requires Keyed(s.known) && Step(s, input, s', effect)
    ensures if input == DoRemove(id) then id !in s'.known
            else if input.DoUpsert? && input.entry.peerId == id && id != s.cfg.localPeerId
            then id in s'.known && s'.known[id] == input.entry
            else (id in s'.known <==> id in s.known) && (id in s.known ==> s'.known[id] == s.known[id])
  {
    if !input.DoUpsert? && !input.DoRemove? { StepFrame(s, input, s', effect); }
  }

  lemma LastPutStep(run: Trace, n: nat, id: PeerId, e: PeerEntry)
    requires 0 < n <= |run.inputs|
    ensures var input := run.inputs[n - 1];
            LastPut(run, n, id, e)
            <==> if input == DoRemove(id) then false
                 else if input.DoUpsert? && input.entry.peerId == id then input.entry == e
                 else LastPut(run, n - 1, id, e)
  {
    var input := run.inputs[n - 1];
    if input.DoUpsert? && input.entry.peerId == id && input.entry == e {
      assert NoWordSince(run, n - 1, n, id);
    }
    if LastPut(run, n, id, e) {
      var i :| 0 <= i < n && run.inputs[i] == DoUpsert(e) && NoWordSince(run, i, n, id);
      if i < n - 1 { assert NoWordSince(run, i, n - 1, id); }
    }
    if LastPut(run, n - 1, id, e) && input != DoRemove(id) && !(input.DoUpsert? && input.entry.peerId == id) {
      var i :| 0 <= i < n - 1 && run.inputs[i] == DoUpsert(e) && NoWordSince(run, i, n - 1, id);
      assert NoWordSince(run, i, n, id);
    }
  }

  // ----- candidates -----

  /** The entry as it came, but dated no later than the clock. */
  function Dated(e: PeerEntry, at: nat): PeerEntry { e.(lastSeen := Min(e.lastSeen, at / 1000)) }

  /** The entry meets every rule for entries from `p` at that time. */
  predicate Proper(s: Pex, p: PeerId, at: nat, e: PeerEntry) {
    Conformant(e, ValidateCtx(s.cfg.localPeerId, p, s.cfg.networkId, at / 1000))
  }

  lemma KeptIffProper(s: Pex, p: PeerId, at: nat, e: PeerEntry)
    ensures IsKept(e, IngestCtx(s.cfg, p, at)) <==> Proper(s, p, at, e)
    ensures Proper(s, p, at, e) ==> e.Clamped(at / 1000) == Dated(e, at)
  {
    KeptEntryIsBounded(e, IngestCtx(s.cfg, p, at), PaymentClaim([], [], []));
  }

  /** `peers` are the entries at the places `where`, in order, each proper and as it came but for its date. */
  ghost predicate PickedFrom(s: Pex, p: PeerId, at: nat, entries: seq<PeerEntry>, where: seq<nat>,
                             peers: seq<PeerEntry>)
  {
    && |where| == |peers| && (forall k | 0 <= k < |where| :: where[k] < |entries|)
    && (forall j, k | 0 <= j < k < |where| :: where[j] < where[k])
    && forall k | 0 <= k < |where| :: Proper(s, p, at, entries[where[k]]) && peers[k] == Dated(entries[where[k]], at)
  }

  lemma {:induction false} SurfacedArePicked(s: Pex, box: Inbox, p: PeerId, entries: seq<PeerEntry>, at: nat)
    returns (where: seq<nat>)
    ensures PickedFrom(s, p, at, entries, where, IngestAll(s.cfg, box, p, entries, at).1)
  {
    where := [];
    if entries != [] {
      var init, e := entries[..|entries| - 1], entries[|entries| - 1];
      where := SurfacedArePicked(s, box, p, init, at);
      var (mid, surfaced) := IngestAll(s.cfg, box, p, init, at);
      IngestsLast(s.cfg, box, p, entries, at);
      assert entries == init + [e];
      hide IngestOne, IngestAll, PickedFrom, Proper, Dated;
      PickedOne(s, mid, p, e, at);
      var more := IngestOne(s.cfg, mid, p, e, at).1;
      PickedMore(s, p, at, init, e, where, surfaced, more);
      if more != [] { where := where + [|init|]; }
    }
  }

  lemma PickedOne(s: Pex, box: Inbox, p: PeerId, e: PeerEntry, at: nat)
    ensures var more := IngestOne(s.cfg, box, p, e, at).1;
            more == [] || (Proper(s, p, at, e) && more == [Dated(e, at)])
  {
    hide IsKept, Proper, BoundedInsert, Fresher;
    KeptIffProper(s, p, at, e);
  }

  lemma PickedMore(s: Pex, p: PeerId, at: nat, init: seq<PeerEntry>, e: PeerEntry, where: seq<nat>,
                   surfaced: seq<PeerEntry>, more: seq<PeerEntry>)
    requires PickedFrom(s, p, at, init, where, surfaced)
    requires more == [] || (Proper(s, p, at, e) && more == [Dated(e, at)])
    ensures PickedFrom(s, p, at, init + [e], if more == [] then where else where + [|init|], surfaced + more)
  {
    hide Proper, Dated;
  }

  /** What is reported as candidates are entries of the message that was let in, in its order, each meeting
      every rule for entries, and each as it came except that a date in the future is now. */
  lemma CandidatesSay(s: Pex, input: Input, s': Pex, effect: Effect, peers: seq<PeerEntry>)
    requires Keyed(s.known) && Step(s, input, s', effect) && Candidates(peers) in effect.events
    ensures input.DoMessage? && IsData(input.msg) && !LinkOr(s, input.peer).muted && peers != []
    ensures exists where :: PickedFrom(s, input.peer, input.at, EntriesIn(input.msg), where, peers)
  {
    hide Step, IngestAll, PickedFrom, Keyed;
    if Batch(s, input).None? {
      QuietHints(s, input, s', effect);
      assert false;
    } else {
      BatchHints(s, input, s', effect);
      var (p, entries, at) := Batch(s, input).value;
      assert p == input.peer && entries == EntriesIn(input.msg) && at == input.at;
      var where := SurfacedArePicked(s, InboxOf(At(s, p)), p, entries, at);
      assert PickedFrom(s, p, at, entries, where, peers);
    }
  }

  /** Older than `date`, if there is a hint at all. */
  predicate HintBelow(hints: Hints, id: PeerId, date: nat) { id in hints ==> hints[id].lastSeen < date }

  lemma {:induction false} StaysBelow(s: Pex, box: Inbox, p: PeerId, entries: seq<PeerEntry>, at: nat, id: PeerId,
                                      date: nat)
    requires |box.hints| <= PEX_MAX_HINTS && HintBelow(box.hints, id, date)
    requires forall e | e in entries && e.peerId == id && Proper(s, p, at, e) :: Dated(e, at).lastSeen < date
    ensures var hints := IngestAll(s.cfg, box, p, entries, at).0.hints;
            |hints| <= PEX_MAX_HINTS && HintBelow(hints, id, date)
  {
    if entries != [] {
      var init, e := entries[..|entries| - 1], entries[|entries| - 1];
      assert forall x | x in init :: x in entries;
      StaysBelow(s, box, p, init, at, id, date);
      KeptIffProper(s, p, at, e);
      var mid := IngestAll(s.cfg, box, p, init, at).0;
      hide IsKept, Proper, BoundedInsert, IngestAll;
      if Proper(s, p, at, e) {
        BoundedInsertSize(mid.hints, HintAge, PEX_MAX_HINTS, e.peerId, Hint(p, Dated(e, at).lastSeen));
      }
      assert IngestAll(s.cfg, box, p, entries, at).0 == IngestOne(s.cfg, mid, p, e, at).0 by {
        IngestsLast(s.cfg, box, p, entries, at);
      }
    }
  }

  lemma IngestsLast(cfg: Config, box: Inbox, p: PeerId, entries: seq<PeerEntry>, at: nat)
    requires entries != []
    ensures var (mid, surfaced) := IngestAll(cfg, box, p, entries[..|entries| - 1], at);
            var (after, more) := IngestOne(cfg, mid, p, entries[|entries| - 1], at);
            IngestAll(cfg, box, p, entries, at) == (after, surfaced + more)
  {
  }

  lemma {:induction false} SurfacedStays(cfg: Config, box: Inbox, p: PeerId, entries: seq<PeerEntry>, at: nat, n: nat,
                                         c: PeerEntry)
    requires n <= |entries| && c in IngestAll(cfg, box, p, entries[..n], at).1
    ensures c in IngestAll(cfg, box, p, entries, at).1
    decreases |entries|
  {
    hide IngestOne;
    if n < |entries| {
      var init := entries[..|entries| - 1];
      assert init[..n] == entries[..n];
      SurfacedStays(cfg, box, p, init, at, n, c);
    } else {
      assert entries[..n] == entries;
    }
  }

  lemma NewsSurfaces(s: Pex, box: Inbox, p: PeerId, entries: seq<PeerEntry>, at: nat, i: nat)
    requires i < |entries| && |box.hints| <= PEX_MAX_HINTS && Proper(s, p, at, entries[i])
    requires HintBelow(box.hints, entries[i].peerId, Dated(entries[i], at).lastSeen)
    requires forall e | e in entries[..i] && e.peerId == entries[i].peerId && Proper(s, p, at, e) ::
               Dated(e, at).lastSeen < Dated(entries[i], at).lastSeen
    ensures Dated(entries[i], at) in IngestAll(s.cfg, box, p, entries, at).1
  {
    var e, upTo := entries[i], entries[..i + 1];
    StaysBelow(s, box, p, entries[..i], at, e.peerId, Dated(e, at).lastSeen);
    KeptIffProper(s, p, at, e);
    assert upTo[..|upTo| - 1] == entries[..i] && upTo[|upTo| - 1] == e;
    IngestsLast(s.cfg, box, p, upTo, at);
    hide IngestAll, IsKept, Proper, BoundedInsert;
    SurfacedStays(s.cfg, box, p, entries, at, i + 1, Dated(e, at));
  }

  /** And nothing new is passed over: a proper entry of a later date than the hint there is, if there is one,
      and than every proper entry about the same id before it in the message, is among the candidates. */
  lemma NewsIsReported(s: Pex, input: Input, s': Pex, effect: Effect, i: nat)
    requires Inv(s) && Step(s, input, s', effect) && input.DoMessage?
    requires var l, p := LinkOr(s, input.peer), input.peer; AdmitsSnapshot(l, input, p) || AdmitsDelta(l, input, p)
    requires i < |EntriesIn(input.msg)|
    requires var e, p, at := EntriesIn(input.msg)[i], input.peer, input.at;
             && Proper(s, p, at, e) && HintBelow(s.hints, e.peerId, Dated(e, at).lastSeen)
             && forall x | x in EntriesIn(input.msg)[..i] && x.peerId == e.peerId && Proper(s, p, at, x) ::
                  Dated(x, at).lastSeen < Dated(e, at).lastSeen
    ensures exists peers :: Candidates(peers) in effect.events && Dated(EntriesIn(input.msg)[i], input.at) in peers
  {
    assert Keyed(s.known) && |s.hints| <= PEX_MAX_HINTS;
    assert Batch(s, input) == Some((input.peer, EntriesIn(input.msg), input.at));
    hide Inv, Step, IngestAll, Proper, Batch;
    BatchHints(s, input, s', effect);
    var box := InboxOf(At(s, input.peer));
    NewsSurfaces(s, box, input.peer, EntriesIn(input.msg), input.at, i);
    var peers := IngestAll(s.cfg, box, input.peer, EntriesIn(input.msg), input.at).1;
    assert Candidates(peers) in effect.events;
  }

  /** One violation answered by one error, or no answer and candidates, or dropped ids, or both in that
      order, or nothing; and never an empty list. */
  ghost predicate IsReport(o: Outcome) {
    || (exists code, mute :: o == Outcome([PexError(code)], [Violation(code, mute)]))
    || (o.replies == [] && exists peers, ids :: o.events == CandidatesThen(peers, DroppedThen(ids)))
  }

  function CandidatesThen(peers: seq<PeerEntry>, more: seq<PexEvent>): seq<PexEvent> {
    (if peers == [] then [] else [Candidates(peers)]) + more
  }

  function DroppedThen(ids: seq<PeerId>): seq<PexEvent> { if ids == [] then [] else [Dropped(ids)] }

  lemma StrikeReports(x: Local, p: PeerId, code: ErrorCode)
    ensures IsReport(Strike(x, p, code).1) && IsReport(MuteMismatch(x, p, code).1)
  {
  }

  lemma IngestReports(peers: seq<PeerEntry>, ids: seq<PeerId>)
    ensures IsReport(Outcome([], CandidateEvents(peers) + DroppedEvents(ids)))
    ensures IsReport(Outcome([], CandidateEvents(peers))) && IsReport(NoOutcome)
  {
    assert CandidateEvents(peers) + DroppedEvents(ids) == CandidatesThen(peers, DroppedThen(ids));
    assert CandidateEvents(peers) == CandidatesThen(peers, DroppedThen([]));
    assert [] == CandidatesThen([], DroppedThen([]));
  }

  /** What a message can be answered with and report. */
  lemma EventsSay(cfg: Config, x: Local, p: PeerId, msg: PexMessage, at: nat)
    ensures IsReport(Dispatch(cfg, x, p, msg, at).1)
  {
    hide IngestAll, DropAll, DeltaFault, SnapshotFault, AppliesBackoff, Strike, MuteMismatch, IsReport, CandidateEvents,
         DroppedEvents;
    forall code ensures IsReport(Strike(x, p, code).1) && IsReport(MuteMismatch(x, p, code).1) {
      StrikeReports(x, p, code);
    }
    IngestReports([], []);
    match msg
    case PexSnapshot(peers) =>
      IngestReports(IngestAll(cfg, InboxOf(Arrive(x, at)), p, peers, at).1, []);
    case PexDelta(added, dropped) =>
      var (box, surfaced) := IngestAll(cfg, InboxOf(Arrive(x, at)), p, added, at);
      IngestReports(surfaced, DropAll(box, p, dropped).1);
    case _ =>
  }
}
