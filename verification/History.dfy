/** Where a hint comes from: for every id that has one, the log of all it was reported as since it last
    had none. The hint is always the first report in that log to reach its maximum. */
module History {
  import opened Basics
  import opened Caps
  import opened Entry
  import opened Wire
  import opened Bounded
  import opened Advertise
  import opened Protocol
  import opened Invariant
  import opened Sides

  /** What a link reported about an id, with the timestamp already clamped. */
  datatype Report = Report(source: PeerId, lastSeen: nat)

  type Log = map<PeerId, seq<Report>>

  function Reports(log: Log, id: PeerId): seq<Report> { if id in log then log[id] else [] }

  ghost predicate IsFirstMaximum(reports: seq<Report>, i: nat) {
    && i < |reports|
    && (forall r | r in reports :: r.lastSeen <= reports[i].lastSeen)
    && (forall r | r in reports[..i] :: r.lastSeen < reports[i].lastSeen)
  }

  /** Exactly the ids with a hint have a log, and each hint is its log's first maximum. */
  ghost predicate Explains(log: Log, hints: Hints) {
    && log.Keys == hints.Keys
    && forall id | id in hints :: Explained(log[id], hints[id])
  }

  ghost predicate Explained(reports: seq<Report>, h: Hint) {
    exists i: nat :: IsFirstMaximum(reports, i) && reports[i] == Report(h.source, h.lastSeen)
  }

  /** Newer than everything on record. */
  ghost predicate IsNews(log: Log, e: PeerEntry) {
    forall r | r in Reports(log, e.peerId) :: r.lastSeen < e.lastSeen
  }

  // ----- the log -----

  function Restrict(log: Log, ids: set<PeerId>): Log { map id | id in log && id in ids :: log[id] }

  function Enter(log: Log, p: PeerId, e: PeerEntry): Log {
    log[e.peerId := Reports(log, e.peerId) + [Report(p, e.lastSeen)]]
  }

  /** The log after one entry: nothing for a refused one, a report for a kept one; an evicted id loses
      its log with its hint. */
  ghost function LogOne(cfg: Config, log: Log, box: Inbox, p: PeerId, e: PeerEntry, nowMs: nat): Log {
    if IsKept(e, IngestCtx(cfg, p, nowMs))
    then Restrict(Enter(log, p, e.Clamped(nowMs / 1000)), IngestOne(cfg, box, p, e, nowMs).0.hints.Keys)
    else log
  }

  ghost function LogAll(cfg: Config, log: Log, box: Inbox, p: PeerId, entries: seq<PeerEntry>, nowMs: nat): Log {
    if entries == [] then log
    else
      var init := entries[..|entries| - 1];
      LogOne(cfg, LogAll(cfg, log, box, p, init, nowMs), IngestAll(cfg, box, p, init, nowMs).0,
             p, entries[|entries| - 1], nowMs)
  }

  /** The entries of a batch that were news when they came up. */
  ghost function News(cfg: Config, log: Log, box: Inbox, p: PeerId, entries: seq<PeerEntry>,
                      nowMs: nat): seq<PeerEntry> {
    if entries == [] then []
    else
      var init, e := entries[..|entries| - 1], entries[|entries| - 1];
      News(cfg, log, box, p, init, nowMs)
      + (if IsKept(e, IngestCtx(cfg, p, nowMs))
            && IsNews(LogAll(cfg, log, box, p, init, nowMs), e.Clamped(nowMs / 1000))
         then [e.Clamped(nowMs / 1000)] else [])
  }

  lemma OldNews(reports: seq<Report>, h: Hint, r: Report)
    requires Explained(reports, h) && r.lastSeen <= h.lastSeen
    ensures Explained(reports + [r], h)
  {
    var i: nat :| IsFirstMaximum(reports, i) && reports[i] == Report(h.source, h.lastSeen);
    assert (reports + [r])[..i] == reports[..i];
    assert IsFirstMaximum(reports + [r], i);
  }

  lemma FreshNews(reports: seq<Report>, r: Report)
    requires forall q | q in reports :: q.lastSeen < r.lastSeen
    ensures Explained(reports + [r], Hint(r.source, r.lastSeen))
  {
    assert (reports + [r])[..|reports|] == reports;
    assert IsFirstMaximum(reports + [r], |reports|);
  }

  /** The code's test, against the one number the hint holds, is the test against the whole log. */
  lemma FresherIffNews(log: Log, hints: Hints, e: PeerEntry)
    requires Explains(log, hints)
    ensures Fresher(hints, e) <==> IsNews(log, e)
  {
    if e.peerId in hints {
      var h := hints[e.peerId];
      assert Explained(log[e.peerId], h);
      var i: nat :| IsFirstMaximum(log[e.peerId], i) && log[e.peerId][i] == Report(h.source, h.lastSeen);
      assert log[e.peerId][i] in log[e.peerId];
    }
  }

  lemma NewsExplained(log: Log, p: PeerId, e: PeerEntry)
    requires IsNews(log, e)
    ensures Explained(Reports(log, e.peerId) + [Report(p, e.lastSeen)], Hint(p, e.lastSeen))
  {
    FreshNews(Reports(log, e.peerId), Report(p, e.lastSeen));
  }

  lemma KeptExplained(log: Log, box: Inbox, p: PeerId, e: PeerEntry)
    requires Explains(log, box.hints) && |box.hints| <= PEX_MAX_HINTS
    ensures var hints' := IngestKept(box, p, e).0.hints;
            Explains(Restrict(Enter(log, p, e), hints'.Keys), hints') && |hints'| <= PEX_MAX_HINTS
  {
    hide BoundedInsert, Explained, IsNews;
    var id, r := e.peerId, Report(p, e.lastSeen);
    var hints' := IngestKept(box, p, e).0.hints;
    FresherIffNews(log, box.hints, e);
    if Fresher(box.hints, e) {
      BoundedInsertSize(box.hints, HintAge, PEX_MAX_HINTS, id, Hint(p, e.lastSeen));
      NewsExplained(log, p, e);
    } else {
      OldNews(log[id], box.hints[id], r);
    }
    assert Restrict(Enter(log, p, e), hints'.Keys).Keys == hints'.Keys;
  }

  /** The log of a batch explains the hints the batch leaves, and the batch surfaces exactly its news. */
  lemma {:induction false} BatchExplained(cfg: Config, log: Log, box: Inbox, p: PeerId, entries: seq<PeerEntry>,
                                          nowMs: nat)
    requires Explains(log, box.hints) && |box.hints| <= PEX_MAX_HINTS
    ensures var (after, surfaced) := IngestAll(cfg, box, p, entries, nowMs);
            && Explains(LogAll(cfg, log, box, p, entries, nowMs), after.hints) && |after.hints| <= PEX_MAX_HINTS
            && surfaced == News(cfg, log, box, p, entries, nowMs)
  {
    hide IngestKept, Explains, IsNews, Fresher, Restrict, Enter;
    if entries != [] {
      var init, e := entries[..|entries| - 1], entries[|entries| - 1];
      BatchExplained(cfg, log, box, p, init, nowMs);
      EntryExplained(cfg, LogAll(cfg, log, box, p, init, nowMs), IngestAll(cfg, box, p, init, nowMs).0, p, e, nowMs);
    }
  }

  lemma EntryExplained(cfg: Config, log: Log, box: Inbox, p: PeerId, e: PeerEntry, nowMs: nat)
    requires Explains(log, box.hints) && |box.hints| <= PEX_MAX_HINTS
    ensures var (after, surfaced) := IngestOne(cfg, box, p, e, nowMs);
            && Explains(LogOne(cfg, log, box, p, e, nowMs), after.hints) && |after.hints| <= PEX_MAX_HINTS
            && surfaced == (if IsKept(e, IngestCtx(cfg, p, nowMs)) && IsNews(log, e.Clamped(nowMs / 1000))
                            then [e.Clamped(nowMs / 1000)] else [])
  {
    hide Explains, IsNews, Fresher, BoundedInsert, IsKept, Restrict, Enter;
    if IsKept(e, IngestCtx(cfg, p, nowMs)) {
      KeptExplained(log, box, p, e.Clamped(nowMs / 1000));
      FresherIffNews(log, box.hints, e.Clamped(nowMs / 1000));
    }
  }

  lemma RestrictExplains(log: Log, hints: Hints, hints': Hints)
    requires Explains(log, hints)
    requires forall id | id in hints' :: id in hints && hints'[id] == hints[id]
    ensures Explains(Restrict(log, hints'.Keys), hints')
  {
  }

  // ----- runs -----

  /** The batch an input brings in, if it is let in. */
  ghost function Batch(s: Pex, input: Input): Option<(PeerId, seq<PeerEntry>, nat)> {
    if !input.DoMessage? then None
    else if AdmitsSnapshot(LinkOr(s, input.peer), input, input.peer) then Some((input.peer, input.msg.peers, input.at))
    else if AdmitsDelta(LinkOr(s, input.peer), input, input.peer) then Some((input.peer, input.msg.added, input.at))
    else None
  }

  ghost function LogStep(s: Pex, input: Input, s': Pex, log: Log): Log {
    match Batch(s, input)
    case None => Restrict(log, s'.hints.Keys)
    case Some((p, entries, at)) =>
      Restrict(LogAll(s.cfg, log, InboxOf(At(s, p)), p, entries, at), s'.hints.Keys)
  }

  /** The log of a whole run that starts without hints. */
  ghost function LogOf(run: Trace, n: nat): Log
    requires run.IsRun() && n <= |run.inputs|
  {
    if n == 0 then map[] else LogStep(run.states[n - 1], run.inputs[n - 1], run.states[n], LogOf(run, n - 1))
  }

  /** Without a batch, hints can only go. */
  lemma QuietHints(s: Pex, input: Input, s': Pex, effect: Effect)
    requires Keyed(s.known) && Step(s, input, s', effect) && Batch(s, input) == None
    ensures forall id | id in s'.hints :: id in s.hints && s'.hints[id] == s.hints[id]
    ensures forall peers :: Candidates(peers) !in effect.events
  {
    hide IngestAll, DropAll, DeltaFault, SnapshotFault, AppliesBackoff;
  }

  /** A batch is ingested whole; a delta's drops can only take hints away afterwards. */
  lemma BatchHints(s: Pex, input: Input, s': Pex, effect: Effect)
    requires Keyed(s.known) && Step(s, input, s', effect) && Batch(s, input).Some?
    ensures var (p, entries, at) := Batch(s, input).value;
            var (box, surfaced) := IngestAll(s.cfg, InboxOf(At(s, p)), p, entries, at);
            && (forall id | id in s'.hints :: id in box.hints && s'.hints[id] == box.hints[id])
            && forall peers :: Candidates(peers) in effect.events <==> peers != [] && peers == surfaced
  {
    var (p, entries, at) := Batch(s, input).value;
    hide IngestAll, Addressed;
    if input.msg.PexDelta? {
      var (box, surfaced) := IngestAll(s.cfg, InboxOf(At(s, p)), p, entries, at);
      DropsOnlyRemove(box, p, input.msg.dropped);
      var drops := DroppedEvents(DropAll(box, p, input.msg.dropped).1);
      assert effect.events == CandidateEvents(surfaced) + drops;
    }
  }

  lemma {:induction false} DropsOnlyRemove(box: Inbox, p: PeerId, ids: seq<PeerId>)
    ensures var r := DropAll(box, p, ids).0;
            forall id | id in r.hints :: id in box.hints && r.hints[id] == box.hints[id]
  {
    if ids != [] { DropsOnlyRemove(box, p, ids[..|ids| - 1]); }
  }

  lemma StepExplained(s: Pex, input: Input, s': Pex, effect: Effect, log: Log)
    requires Inv(s) && Step(s, input, s', effect) && Explains(log, s.hints)
    ensures Explains(LogStep(s, input, s', log), s'.hints)
  {
    assert Keyed(s.known) && |s.hints| <= PEX_MAX_HINTS;
    hide Inv, Step, Explains, Restrict, LogAll, IngestAll;
    match Batch(s, input)
    case None =>
      QuietHints(s, input, s', effect);
      RestrictExplains(log, s.hints, s'.hints);
    case Some((p, entries, at)) =>
      BatchHints(s, input, s', effect);
      var box := InboxOf(At(s, p));
      BatchExplained(s.cfg, log, box, p, entries, at);
      RestrictExplains(LogAll(s.cfg, log, box, p, entries, at), IngestAll(s.cfg, box, p, entries, at).0.hints,
                       s'.hints);
  }

  /** In every state a run reaches, each hint is the newest its id has been reported as since it last
      had none, credited to the first link to say so. */
  lemma {:induction false} HintsExplained(run: Trace, n: nat)
    requires run.IsRun() && n <= |run.inputs| && Inv(run.states[0]) && run.states[0].hints == map[]
    ensures Explains(LogOf(run, n), run.states[n].hints)
  {
    hide Inv, Step;
    if n > 0 {
      HintsExplained(run, n - 1);
      RunInv(run, n - 1);
      RunStep(run, n);
      StepExplained(run.states[n - 1], run.inputs[n - 1], run.states[n], run.effects[n - 1], LogOf(run, n - 1));
    }
  }

  lemma StepSurfacesNews(s: Pex, input: Input, s': Pex, effect: Effect, log: Log, peers: seq<PeerEntry>)
    requires Inv(s) && Step(s, input, s', effect) && Explains(log, s.hints)
    ensures Candidates(peers) in effect.events
            <==> Batch(s, input).Some?
                 && var (p, entries, at) := Batch(s, input).value;
                 peers != [] && peers == News(s.cfg, log, InboxOf(At(s, p)), p, entries, at)
  {
    assert Keyed(s.known) && |s.hints| <= PEX_MAX_HINTS;
    hide Inv, Step, Explains, IngestAll, News, Batch;
    if Batch(s, input).None? {
      QuietHints(s, input, s', effect);
    } else {
      var (p, entries, at) := Batch(s, input).value;
      BatchHints(s, input, s', effect);
      BatchExplained(s.cfg, log, InboxOf(At(s, p)), p, entries, at);
    }
  }

  /** And the host is told of an entry exactly when it is news: what a step reports as candidates is
      the batch's news against the log so far, and nothing without a batch. */
  lemma CandidatesAreNews(run: Trace, n: nat, peers: seq<PeerEntry>)
    requires run.IsRun() && n < |run.inputs| && Inv(run.states[0]) && run.states[0].hints == map[]
    ensures var s := run.states[n];
            Candidates(peers) in run.effects[n].events
            <==> Batch(s, run.inputs[n]).Some?
                 && var (p, entries, at) := Batch(s, run.inputs[n]).value;
                 peers != [] && peers == News(s.cfg, LogOf(run, n), InboxOf(At(s, p)), p, entries, at)
  {
    hide Inv, Step, Explains, News, LogOf, Batch;
    RunInv(run, n);
    HintsExplained(run, n);
    RunStep(run, n + 1);
    StepSurfacesNews(run.states[n], run.inputs[n], run.states[n + 1], run.effects[n], LogOf(run, n), peers);
  }
}
