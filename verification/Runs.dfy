/** Building runs, for the results that exhibit one. */
module Runs {
  import opened Basics
  import opened Entry
  import opened Wire
  import opened Advertise
  import opened Protocol
  import opened Invariant

  /** The state a run has reached. */
  function Last(run: Trace): Pex
    requires run.IsRun()
  {
    run.states[|run.inputs|]
  }

  function Start(cfg: Config): Pex { Pex(cfg, map[], map[], map[]) }

  lemma StartInv(cfg: Config)
    ensures Inv(Start(cfg))
  {
  }

  /** The run goes on with one more input. */
  lemma Go(run: Trace, input: Input, s': Pex, effect: Effect) returns (longer: Trace)
    requires run.IsRun() && Keyed(Last(run).known) && Step(Last(run), input, s', effect)
    ensures longer.IsRun() && longer.states == run.states + [s'] && Last(longer) == s'
    ensures longer.inputs == run.inputs + [input] && longer.effects == run.effects + [effect]
  {
    ExtendRun(run, input, effect, s');
    longer := Extend(run, input, effect, s');
  }

  /** A message that comes in. */
  lemma Hear(run: Trace, p: PeerId, msg: PexMessage, at: nat) returns (longer: Trace)
    requires run.IsRun() && Keyed(Last(run).known)
    ensures var (s', o) := OnMessage(Last(run), p, msg, at);
            && longer.IsRun() && longer.states == run.states + [s'] && Last(longer) == s'
            && longer.inputs == run.inputs + [DoMessage(p, msg, at)]
            && longer.effects == run.effects + [Effect(Addressed(p, o.replies), o.events)]
  {
    hide OnMessage;
    var (s', o) := OnMessage(Last(run), p, msg, at);
    longer := Go(run, DoMessage(p, msg, at), s', Effect(Addressed(p, o.replies), o.events));
  }

  /** A link that comes up; without jitter, and with nothing cut from the snapshot. */
  lemma Raise(run: Trace, p: PeerId, at: nat, peers: seq<PeerEntry>) returns (longer: Trace)
    requires run.IsRun() && Keyed(Last(run).known) && IsSnapshot(Last(run), p, at, peers) && !Last(run).cfg.jitter
    ensures var s := Last(run);
            && longer.IsRun() && longer.inputs == run.inputs + [DoLinkUp(p, at)]
            && longer.effects == run.effects + [Effect(Addressed(p, [Handshake(s.cfg), PexSnapshot(peers)]), [])]
            && longer.states == run.states + [Last(longer)]
            && Last(longer) == s.(links := s.links[p := LinkAfterUp(s.cfg, s.known, LinkOr(s, p), peers, at, 0)])
  {
    var s, sent := Last(run), [Handshake(Last(run).cfg), PexSnapshot(peers)];
    var s' := s.(links := s.links[p := LinkAfterUp(s.cfg, s.known, LinkOr(s, p), peers, at, 0)]);
    assert LinkUp(s, p, at, s', sent);
    longer := Go(run, DoLinkUp(p, at), s', Effect(Addressed(p, sent), []));
  }

  /** The snapshot of an empty first-hand set. */
  lemma NothingToSay(s: Pex, p: PeerId, at: nat)
    requires s.known == map[]
    ensures Keyed(s.known) && IsSnapshot(s, p, at, [])
  {
    assert AdvertisedTo(s, p, at) == {};
    ArrangementSize(Arrange(s.known, {}), s.known, {});
  }

  /** An engine with one link, which is due and has something to say. */
  ghost predicate DueOn(s: Pex, p: PeerId, at: nat, d: Delta) {
    && Keyed(s.known) && p in s.links && (forall q | q in s.links :: q == p)
    && !s.cfg.jitter && Eligible(s.links[p], at) && d != Delta([], [])
    && IsDelta(s.cfg.Print(), s.known, AdvertisedTo(s, p, at), s.links[p].told, d.added, d.dropped)
  }

  function AfterTelling(s: Pex, p: PeerId, at: nat, d: Delta): Pex
    requires p in s.links
  {
    s.(links := s.links[p := LinkAfterDelta(s.cfg, s.known, s.links[p], d, at, 0)])
  }

  lemma TickOfOne(s: Pex, p: PeerId, at: nat, d: Delta)
    requires DueOn(s, p, at, d)
    ensures Tick(s, at, AfterTelling(s, p, at, d), [(p, PexDelta(d.added, d.dropped))])
  {
    TickedOne(s, p, at, d);
    OneMessage(p, PexDelta(d.added, d.dropped));
    OneLinkTick(s, p, at, AfterTelling(s, p, at, d), [(p, PexDelta(d.added, d.dropped))]);
  }

  lemma OneLinkTick(s: Pex, p: PeerId, at: nat, s': Pex, out: seq<(PeerId, PexMessage)>)
    requires Keyed(s.known) && p in s.links && (forall q | q in s.links :: q == p) && p in s'.links
    requires s' == s.(links := s.links[p := s'.links[p]]) && LinkTicked(s, at, s', out, p)
    requires forall q | q != p :: SentTo(out, q) == []
    ensures Tick(s, at, s', out)
  {
    hide LinkTicked, SentTo;
    assert s'.links.Keys == s.links.Keys;
  }

  lemma TickedBy(s: Pex, at: nat, s': Pex, out: seq<(PeerId, PexMessage)>, p: PeerId, sent: Option<PexMessage>)
    requires Keyed(s.known) && p in s.links && p in s'.links
    requires LinkTick(s, p, at, s.links[p], s'.links[p], sent) && SentTo(out, p) == AsSeq(sent)
    ensures LinkTicked(s, at, s', out, p)
  {
    hide LinkTick, SentTo, Keyed;
  }

  lemma TickedOne(s: Pex, p: PeerId, at: nat, d: Delta)
    requires DueOn(s, p, at, d)
    ensures LinkTicked(s, at, AfterTelling(s, p, at, d), [(p, PexDelta(d.added, d.dropped))], p)
  {
    TurnOfOne(s, p, at, d);
    assert Keyed(s.known) && p in s.links;
    hide DueOn, LinkTick, LinkTicked, LinkAfterDelta, SentTo, Keyed;
    OneMessage(p, PexDelta(d.added, d.dropped));
    TickedBy(s, at, AfterTelling(s, p, at, d), [(p, PexDelta(d.added, d.dropped))], p,
             Some(PexDelta(d.added, d.dropped)));
  }

  lemma TurnOfOne(s: Pex, p: PeerId, at: nat, d: Delta)
    requires DueOn(s, p, at, d)
    ensures LinkTick(s, p, at, s.links[p], LinkAfterDelta(s.cfg, s.known, s.links[p], d, at, 0),
                     Some(PexDelta(d.added, d.dropped)))
  {
  }

  lemma Tell(run: Trace, p: PeerId, at: nat, d: Delta) returns (longer: Trace)
    requires run.IsRun() && DueOn(Last(run), p, at, d)
    ensures longer.IsRun() && longer.inputs == run.inputs + [DoTick(at)]
    ensures longer.effects == run.effects + [Effect([(p, PexDelta(d.added, d.dropped))], [])]
    ensures longer.states == run.states + [Last(longer)] && Last(longer) == AfterTelling(Last(run), p, at, d)
    ensures SentTo([(p, PexDelta(d.added, d.dropped))], p) == [PexDelta(d.added, d.dropped)]
  {
    TickOfOne(Last(run), p, at, d);
    assert Keyed(Last(run).known);
    hide DueOn, Tick, AfterTelling, Keyed;
    OneMessage(p, PexDelta(d.added, d.dropped));
    longer := Go(run, DoTick(at), AfterTelling(Last(run), p, at, d), Effect([(p, PexDelta(d.added, d.dropped))], []));
  }

  lemma OneMessage(p: PeerId, msg: PexMessage)
    ensures forall q :: SentTo([(p, msg)], q) == if q == p then [msg] else []
  {
    assert [(p, msg)][..0] == [];
  }

  /** The delta of a link told nothing, when one entry is known. */
  lemma OneNewEntry(s: Pex, p: PeerId, at: nat, e: PeerEntry)
    requires s.known == map[e.peerId := e] && p in s.links && s.links[p].told == map[]
    requires e.peerId != s.cfg.localPeerId && e.peerId != p && IsFresh(e, at / 1000)
    ensures Keyed(s.known)
    ensures IsDelta(s.cfg.Print(), s.known, AdvertisedTo(s, p, at), s.links[p].told, [e], [])
  {
    var adv := AdvertisedTo(s, p, at);
    assert adv == {e.peerId};
    assert PendingIds(s.cfg.Print(), s.known, adv, map[]) == adv;
    assert StaleIds(adv, map[]) == {};
    assert Ids([e]) == {e.peerId};
    assert IsArrangement([e], s.known, adv);
    ArrangementUnique([e], Arrange(s.known, adv), s.known, adv);
  }
}
