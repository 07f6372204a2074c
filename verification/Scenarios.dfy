/** Runs in which the code departs from what is documented of it, or from what one might hope. */
module Scenarios {
  import opened Basics
  import opened Caps
  import opened Timer
  import opened Entry
  import opened Json
  import opened Wire
  import opened Advertise
  import opened State
  import opened Protocol
  import opened Invariant
  import opened Sides
  import opened Pacing
  import opened Noninterference
  import opened Frames
  import opened Runs

  /** A participant that declares `interval` and adds no jitter. */
  function Declaring(interval: u32): Config {
    Config(Ascii("me"), Ascii("net"), [], interval, false, _ => 0, e => Some(EntryLen(e)))
  }

  const A: PeerId := Ascii("a")
  const B: PeerId := Ascii("b")

  /** A third party, last seen at `seen`. */
  function ThirdParty(seen: nat): PeerEntry {
    PeerEntry(seq(64, _ => 97), [], Ascii("net"), seen, Provenance.Direct, [], None)
  }

  /** Our link, raised at time 0 with nothing to say. */
  function Raised(interval: u32): Link {
    LinkAfterUp(Declaring(interval), map[], FreshLink(interval), [], 0, 0)
  }

  lemma RaiseFirst(interval: u32) returns (run: Trace)
    ensures run.IsRun() && run.inputs == [DoLinkUp(A, 0)]
    ensures run.states == [Start(Declaring(interval)), Last(run)]
    ensures Last(run) == Start(Declaring(interval)).(links := map[A := Raised(interval)])
  {
    run := EmptyRun(Start(Declaring(interval)));
    NothingToSay(Last(run), A, 0);
    run := Raise(run, A, 0, []);
  }

  /** The state of a participant whose one link is `l`. */
  function OneLink(cfg: Config, known: Known, l: Link): Pex { Pex(cfg, known, map[A := l], map[]) }

  lemma Relinked(l: Link, l': Link)
    ensures map[A := l][A := l'] == map[A := l']
  {
  }

  /** What a message does when there is one link and no hints are involved. */
  lemma HearOnOne(run: Trace, known: Known, l: Link, msg: PexMessage, at: nat, l': Link, o: Outcome)
    returns (longer: Trace)
    requires run.IsRun() && Last(run) == OneLink(Last(run).cfg, known, l) && Keyed(known)
    requires Dispatch(Last(run).cfg, Local(l, map[]), A, msg, at) == (Local(l', map[]), o)
    ensures longer.IsRun() && longer.states == run.states + [Last(longer)]
    ensures Last(longer) == OneLink(Last(run).cfg, known, l')
    ensures longer.inputs == run.inputs + [DoMessage(A, msg, at)]
    ensures longer.effects == run.effects + [Effect(Addressed(A, o.replies), o.events)]
  {
    hide Dispatch;
    longer := Hear(run, A, msg, at);
    Relinked(l, l');
  }

  // ----- a back-off sooner than documented -----

  /** A rate error honoured at 50 s, then a handshake that declares an hour, then a new entry. */
  lemma SlowedByBoth() returns (run: Trace)
    ensures run.IsRun() && run.states[0] == Start(Declaring(60))
    ensures run.inputs == [DoLinkUp(A, 0), DoMessage(A, PexError(3), 50_000),
                           DoMessage(A, PexHandshake(1, Ascii("net"), 3600, []), 60_000), DoUpsert(ThirdParty(3600))]
    ensures Last(run) == OneLink(Declaring(60), map[ThirdParty(3600).peerId := ThirdParty(3600)], SlowedLink())
  {
    var l1, e := Raised(60), ThirdParty(3600);
    var l2 := l1.(selfIntervalSecs := 120, lastBackoffAppliedMs := Some(50_000));
    run := RaiseFirst(60);
    assert BackedOff(l1, 50_000) == l2 && AppliesBackoff(l1, 3, 50_000);
    run := HearOnOne(run, map[], l1, PexError(3), 50_000, l2, NoOutcome);
    run := HearOnOne(run, map[], l2, PexHandshake(1, Ascii("net"), 3600, []), 60_000, SlowedLink(), NoOutcome);
    hide Dispatch, Raised, SlowedLink;
    assert UpsertKnown(Last(run), e) == OneLink(Declaring(60), map[e.peerId := e], SlowedLink());
    run := Go(run, DoUpsert(e), UpsertKnown(Last(run), e), Effect([], []));
  }

  function SlowedLink(): Link {
    Raised(60).(selfIntervalSecs := 120, lastBackoffAppliedMs := Some(50_000),
                phase := AwaitingSnapshot, remoteDeclaredSecs := Some(3600))
  }

  /** Own interval 60 s. A rate error at 50 s doubles it; then a handshake declares 3600 s, so that an
      hour is the effective interval; a delta goes out at 3600 s, and a rate error at that moment doubles
      our interval again, 3550 s after the first time. */
  lemma EarlyBackoff() returns (run: Trace)
    ensures run.IsRun() && run.states[0] == Start(Declaring(60))
    ensures run.inputs == [DoLinkUp(A, 0), DoMessage(A, PexError(3), 50_000),
                           DoMessage(A, PexHandshake(1, Ascii("net"), 3600, []), 60_000), DoUpsert(ThirdParty(3600)),
                           DoTick(3_600_000), DoMessage(A, PexError(3), 3_600_000)]
    ensures var l, l' := LinkOr(run.states[5], A), LinkOr(run.states[6], A);
            && l.lastBackoffAppliedMs == Some(50_000) && l'.lastBackoffAppliedMs == Some(3_600_000)
            && l.selfIntervalSecs == 120 && l'.selfIntervalSecs == 240
            && 3_600_000 < 50_000 + Effective(l) * 1000
  {
    HourFacts();
    run := SlowedByBoth();
    hide DueOn, SlowedLink, ToldLink, LateLink, Effective, ThirdParty, Declaring, Dispatch, AfterTelling;
    run := Tell(run, A, 3_600_000, HourDelta());
    run := HearOnOne(run, HourKnown(), ToldLink(), PexError(3), 3_600_000, LateLink(), NoOutcome);
  }

  function HourKnown(): Known { map[ThirdParty(3600).peerId := ThirdParty(3600)] }

  function HourDelta(): Delta { Delta([ThirdParty(3600)], []) }

  function ToldLink(): Link {
    LinkAfterDelta(Declaring(60), HourKnown(), SlowedLink(), HourDelta(), 3_600_000, 0)
  }

  function LateLink(): Link { BackedOff(ToldLink(), 3_600_000) }

  lemma HourDue()
    ensures var s := OneLink(Declaring(60), HourKnown(), SlowedLink());
            DueOn(s, A, 3_600_000, HourDelta()) && Keyed(s.known)
            && AfterTelling(s, A, 3_600_000, HourDelta()) == OneLink(Declaring(60), HourKnown(), ToldLink())
  {
    HourLink();
    hide IsDelta, ToldAfter, SlowedLink, ThirdParty, Eligible, Declaring, LinkAfterDelta, IsFresh;
    OneNewEntry(OneLink(Declaring(60), HourKnown(), SlowedLink()), A, 3_600_000, ThirdParty(3600));
    Relinked(SlowedLink(), ToldLink());
  }

  lemma HourLink()
    ensures Eligible(SlowedLink(), 3_600_000) && SlowedLink().told == map[]
    ensures IsFresh(ThirdParty(3600), 3600) && !Declaring(60).jitter
    ensures ThirdParty(3600).peerId != Declaring(60).localPeerId && ThirdParty(3600).peerId != A
  {
  }

  lemma HourNumbers()
    ensures ToldLink().lastBackoffAppliedMs == Some(50_000) && ToldLink().selfIntervalSecs == 120
    ensures Effective(ToldLink()) == 3600 && AppliesBackoff(ToldLink(), 3, 3_600_000)
    ensures LateLink().lastBackoffAppliedMs == Some(3_600_000) && LateLink().selfIntervalSecs == 240
  {
    hide ToldAfter;
  }

  lemma HourFacts()
    ensures var s := OneLink(Declaring(60), HourKnown(), SlowedLink());
            DueOn(s, A, 3_600_000, HourDelta()) && Keyed(s.known)
            && AfterTelling(s, A, 3_600_000, HourDelta()) == OneLink(Declaring(60), HourKnown(), ToldLink())
    ensures Dispatch(Declaring(60), Local(ToldLink(), map[]), A, PexError(3), 3_600_000)
         == (Local(LateLink(), map[]), NoOutcome)
    ensures ToldLink().lastBackoffAppliedMs == Some(50_000) && ToldLink().selfIntervalSecs == 120
    ensures Effective(ToldLink()) == 3600
    ensures LateLink().lastBackoffAppliedMs == Some(3_600_000) && LateLink().selfIntervalSecs == 240
  {
    HourDue();
    HourNumbers();
    hide DueOn, AfterTelling, Effective, AppliesBackoff, SlowedLink, BackedOff, ToldAfter;
    assert !ToldLink().muted by { NotMuted(); }
  }

  lemma NotMuted()
    ensures !ToldLink().muted
  {
    hide ToldAfter;
  }

  // ----- gossip that shows -----

  const EarlyData: PexMessage := PexDelta([], [])

  /** Three deltas before any handshake mute the link, and the mute swallows the rate error that would
      have doubled our interval. */
  function GossipInputs(): seq<Input> {
    [DoLinkUp(A, 0), DoMessage(A, EarlyData, 0), DoMessage(A, EarlyData, 0), DoMessage(A, EarlyData, 0),
     DoMessage(A, PexError(3), 0), DoUpsert(ThirdParty(30)), DoTick(30_000)]
  }

  function WithoutGossip(): seq<Input> {
    [DoLinkUp(A, 0), DoMessage(A, PexError(3), 0), DoUpsert(ThirdParty(30)), DoTick(30_000)]
  }

  function Struck(strikes: nat): Link { Raised(30).(strikes := strikes, muted := strikes >= PEX_VIOLATION_LIMIT) }

  lemma StrikeAgain(run: Trace, k: nat) returns (longer: Trace)
    requires run.IsRun() && Last(run) == OneLink(Declaring(30), map[], Struck(k)) && k < 3
    ensures longer.IsRun() && longer.states == run.states + [Last(longer)]
    ensures longer.inputs == run.inputs + [DoMessage(A, EarlyData, 0)]
    ensures Last(longer) == OneLink(Declaring(30), map[], Struck(k + 1))
  {
    var (x, o) := Dispatch(Declaring(30), Local(Struck(k), map[]), A, EarlyData, 0);
    assert x == Local(Struck(k + 1), map[]);
    hide Dispatch;
    longer := HearOnOne(run, map[], Struck(k), EarlyData, 0, Struck(k + 1), o);
  }

  lemma MutedByGossip() returns (run: Trace)
    ensures run.IsRun() && run.states[0] == Start(Declaring(30)) && run.inputs == GossipInputs()[..6]
    ensures Last(run) == OneLink(Declaring(30), map[ThirdParty(30).peerId := ThirdParty(30)], Struck(3))
  {
    run := RaiseFirst(30);
    assert Struck(0) == Raised(30);
    run := StrikeAgain(run, 0);
    run := StrikeAgain(run, 1);
    run := StrikeAgain(run, 2);
    assert Dispatch(Declaring(30), Local(Struck(3), map[]), A, PexError(3), 0) == (Local(Struck(3), map[]), NoOutcome);
    hide Dispatch, Struck, Raised;
    run := HearOnOne(run, map[], Struck(3), PexError(3), 0, Struck(3), NoOutcome);
    var e := ThirdParty(30);
    assert UpsertKnown(Last(run), e) == OneLink(Declaring(30), map[e.peerId := e], Struck(3));
    run := Go(run, DoUpsert(e), UpsertKnown(Last(run), e), Effect([], []));
  }

  lemma MutedIsDue()
    ensures var s := OneLink(Declaring(30), map[ThirdParty(30).peerId := ThirdParty(30)], Struck(3));
            DueOn(s, A, 30_000, Delta([ThirdParty(30)], []))
  {
    var s := OneLink(Declaring(30), map[ThirdParty(30).peerId := ThirdParty(30)], Struck(3));
    assert Eligible(Struck(3), 30_000) && Struck(3).told == map[];
    assert ThirdParty(30).peerId != A && ThirdParty(30).peerId != Declaring(30).localPeerId;
    hide Struck, ThirdParty, Eligible, IsDelta;
    assert IsFresh(ThirdParty(30), 30) by { SeenAt(30); }
    OneNewEntry(s, A, 30_000, ThirdParty(30));
  }

  lemma SeenAt(seen: nat)
    ensures ThirdParty(seen).lastSeen == seen
  {
  }

  /** Without the gossip, in every run, the rate error is honoured and nothing goes out at 30 s. */
  lemma QuietHolds(quiet: Trace)
    requires quiet.IsRun() && quiet.states[0] == Start(Declaring(30)) && quiet.inputs == WithoutGossip()
    ensures SentTo(quiet.effects[3].sends, A) == []
  {
    hide Step, OnMessage, SentTo, Declaring, ThirdParty;
    RunStep(quiet, 1);
    RunStep(quiet, 2);
    RunStep(quiet, 3);
    RunStep(quiet, 4);
    QuietTicks(quiet.states[0], quiet.states[1], quiet.states[2], quiet.states[3], quiet.states[4], quiet.effects);
  }

  lemma QuietTicks(s0: Pex, s1: Pex, s2: Pex, s3: Pex, s4: Pex, effects: seq<Effect>)
    requires |effects| == 4 && s0 == Start(Declaring(30)) && Keyed(s1.known) && Keyed(s2.known) && Keyed(s3.known)
    requires Step(s0, DoLinkUp(A, 0), s1, effects[0]) && Step(s1, DoMessage(A, PexError(3), 0), s2, effects[1])
    requires Step(s2, DoUpsert(ThirdParty(30)), s3, effects[2]) && Step(s3, DoTick(30_000), s4, effects[3])
    ensures SentTo(effects[3].sends, A) == []
  {
    hide Tick, LinkUp, OnMessage, Declaring, ThirdParty, SentTo;
    QuietSlowed(s0, s1, s2, effects[0]);
    assert LinkOr(s3, A) == LinkOr(s2, A);
    var sent := TickOneLink(s3, 30_000, s4, effects[3].sends, A);
  }

  lemma QuietSlowed(s: Pex, s1: Pex, s2: Pex, effect: Effect)
    requires s == Start(Declaring(30)) && Step(s, DoLinkUp(A, 0), s1, effect)
    requires s2 == OnMessage(s1, A, PexError(3), 0).0
    ensures var l := LinkOr(s2, A); l.selfIntervalSecs == 60 && l.lastDataSendMs == Some(0) && l.snapshotSent
  {
    var sent :| LinkUp(s, A, 0, s1, sent) && effect == Effect(Addressed(A, sent), []);
    hide IsSnapshot, Fingerprints;
    var l := LinkOr(s1, A);
    assert l.selfIntervalSecs == 30 && l.lastDataSendMs == Some(0) && l.lastBackoffAppliedMs == None && !l.muted;
    assert AppliesBackoff(l, 3, 0);
  }

  /** One run in which inbound gossip shows: the delta that goes out at 30 s goes out in no run from the
      same state in which the gossip is struck out. */
  lemma GossipCanShow() returns (run: Trace)
    ensures run.IsRun() && run.states[0] == Start(Declaring(30)) && run.inputs == GossipInputs()
    ensures SentTo(run.effects[6].sends, A) == [PexDelta([ThirdParty(30)], [])]
    ensures QuietInputs(run, 7) == WithoutGossip()
    ensures forall quiet: Trace
              | quiet.IsRun() && quiet.states[0] == run.states[0] && quiet.inputs == WithoutGossip() ::
              SentTo(quiet.effects[3].sends, A) == []
  {
    run := MutedByGossip();
    MutedIsDue();
    hide DueOn, Struck, ThirdParty, AfterTelling, Declaring, Step, SentTo;
    run := Tell(run, A, 30_000, Delta([ThirdParty(30)], []));
    assert run.inputs == GossipInputs();
    StruckOut(run);
    forall quiet: Trace | quiet.IsRun() && quiet.states[0] == run.states[0] && quiet.inputs == WithoutGossip()
      ensures SentTo(quiet.effects[3].sends, A) == []
    {
      QuietHolds(quiet);
    }
  }

  lemma StruckOut(run: Trace)
    requires run.inputs == GossipInputs()
    ensures QuietInputs(run, 7) == WithoutGossip()
  {
    assert QuietInputs(run, 1) == [run.inputs[0]];
    assert QuietInputs(run, 3) == QuietInputs(run, 2) == QuietInputs(run, 1);
    assert QuietInputs(run, 4) == QuietInputs(run, 3);
    assert QuietInputs(run, 6) == QuietInputs(run, 5) + [run.inputs[5]];
  }

  // ----- a hint lost -----

  /** A link whose remote declared `declared` and whose one data message came at `at`. */
  function Streaming(declared: u32, at: nat, received: map<PeerId, nat>): Link {
    FreshLink(60).(phase := RecvPhase.Streaming, remoteDeclaredSecs := Some(declared), lastArrivalMs := Some(at),
                   received := received)
  }

  function Hello(declared: u32): PexMessage { PexHandshake(1, Ascii("net"), declared, []) }

  /** The handshake, then a snapshot of one entry that is news. */
  lemma HearNews(run: Trace, p: PeerId, seen: nat) returns (longer: Trace)
    requires run.IsRun() && Last(run).cfg == Declaring(60) && Last(run).known == map[] && p !in Last(run).links
    requires p == A || p == B
    requires seen <= 30 && |Last(run).hints| < PEX_MAX_HINTS && Fresher(Last(run).hints, ThirdParty(seen))
    ensures longer.IsRun() && longer.states[0] == run.states[0]
    ensures longer.inputs
         == run.inputs + [DoMessage(p, Hello(60), 0), DoMessage(p, PexSnapshot([ThirdParty(seen)]), 30_000)]
    ensures var s, id := Last(run), ThirdParty(seen).peerId;
            Last(longer) == s.(links := s.links[p := Streaming(60, 30_000, map[id := seen])],
                               hints := s.hints[id := Hint(p, seen)])
  {
    var s, e := Last(run), ThirdParty(seen);
    longer := Hear(run, p, Hello(60), 0);
    var greeted := FreshLink(60).(phase := AwaitingSnapshot, remoteDeclaredSecs := Some(60));
    assert Last(longer) == s.(links := s.links[p := greeted]);
    NewsTaken(s.cfg, s.hints, p, seen);
    hide Dispatch, ThirdParty;
    longer := Hear(longer, p, PexSnapshot([e]), 30_000);
    assert s.links[p := greeted][p := Streaming(60, 30_000, map[e.peerId := seen])]
        == s.links[p := Streaming(60, 30_000, map[e.peerId := seen])];
  }

  lemma NewsTaken(cfg: Config, hints: Hints, p: PeerId, seen: nat)
    requires cfg == Declaring(60) && seen <= 30 && |hints| < PEX_MAX_HINTS && Fresher(hints, ThirdParty(seen))
    requires p == A || p == B
    ensures var id := ThirdParty(seen).peerId;
            var greeted := FreshLink(60).(phase := AwaitingSnapshot, remoteDeclaredSecs := Some(60));
            Dispatch(cfg, Local(greeted, hints), p, PexSnapshot([ThirdParty(seen)]), 30_000).0
            == Local(Streaming(60, 30_000, map[id := seen]), hints[id := Hint(p, seen)])
  {
    var e, box := ThirdParty(seen), Inbox(map[], hints);
    assert IsKept(e, IngestCtx(cfg, p, 30_000));
    assert [e][..0] == [];
    assert IngestAll(cfg, box, p, [e], 30_000).0 == IngestOne(cfg, box, p, e, 30_000).0;
  }

  /** Newest-wins lost: the report of `B` loses to the newer one of `A`, the link to `A` is torn down, and
      no hint is left although `B` still lists the id. */
  lemma HintLost() returns (run: Trace)
    ensures run.IsRun() && run.states[0] == Start(Declaring(60))
    ensures run.inputs == [DoMessage(B, Hello(60), 0), DoMessage(B, PexSnapshot([ThirdParty(10)]), 30_000),
                           DoMessage(A, Hello(60), 0), DoMessage(A, PexSnapshot([ThirdParty(20)]), 30_000),
                           DoLinkDown(A)]
    ensures Last(run).hints == map[]
    ensures B in Last(run).links && LinkOr(Last(run), B).received == map[ThirdParty(10).peerId := 10]
  {
    run := EmptyRun(Start(Declaring(60)));
    assert A[0] != B[0] && ThirdParty(10).peerId == ThirdParty(20).peerId;
    run := HearNews(run, B, 10);
    run := HearNews(run, A, 20);
    run := Go(run, DoLinkDown(A), LinkDown(Last(run), A), Effect([], []));
  }

  // ----- thirty seconds between frames -----

  const Nothing: PexMessage := PexDelta([], [])

  /** A remote that declares `declared` sends its snapshot at time 0 and a delta as soon as the floor
      allows; both are let in. */
  lemma SoonestDelta(declared: u32) returns (run: Trace)
    requires InRange(declared)
    ensures run.IsRun() && run.states[0] == Start(Declaring(60))
    ensures run.inputs == [DoMessage(A, Hello(declared), 0), DoMessage(A, PexSnapshot([]), 0),
                           DoMessage(A, Nothing, ArrivalFloorMs(declared))]
    ensures TwoLetIn(run, A, 1, 2) && LinkAt(run, A, 1).remoteDeclaredSecs == Some(declared)
  {
    var cfg, floor := Declaring(60), ArrivalFloorMs(declared);
    var greeted := FreshLink(60).(phase := AwaitingSnapshot, remoteDeclaredSecs := Some(declared));
    var streaming := Streaming(declared, 0, map[]);
    run := EmptyRun(Start(cfg));
    run := Hear(run, A, Hello(declared), 0);
    assert Last(run) == OneLink(cfg, map[], greeted);
    assert Dispatch(cfg, Local(greeted, map[]), A, PexSnapshot([]), 0).0 == Local(streaming, map[]);
    assert AdmitsSnapshot(greeted, DoMessage(A, PexSnapshot([]), 0), A);
    assert Ids([]) * Set<PeerId>([]) == {};
    assert AdmitsDelta(streaming, DoMessage(A, Nothing, floor), A);
    StartInv(cfg);
    hide Dispatch, AdmitsSnapshot, AdmitsDelta, Inv;
    run := HearOnOne(run, map[], greeted, PexSnapshot([]), 0, streaming, NoOutcome);
    run := Hear(run, A, Nothing, floor);
    assert LinkAt(run, A, 1) == greeted && LinkAt(run, A, 2) == streaming;
  }

  /** In every run, any two data messages let in on one life of a link are thirty seconds apart if and
      only if the remote's declaration, as counted, is at least 35 s. */
  lemma ThirtySecondsIff(declared: u32)
    requires InRange(declared)
    ensures (forall run: Trace, p: PeerId, m: nat, n: nat
               | TwoLetIn(run, p, m, n) && LinkAt(run, p, m).remoteDeclaredSecs == Some(declared) ::
               run.inputs[n].at >= run.inputs[m].at + PEX_MIN_INTERVAL * 1000)
            <==> declared >= 35
  {
    hide Inv;
    forall run: Trace, p: PeerId, m: nat, n: nat
      | TwoLetIn(run, p, m, n) && LinkAt(run, p, m).remoteDeclaredSecs == Some(declared) && declared >= 35
      ensures run.inputs[n].at >= run.inputs[m].at + PEX_MIN_INTERVAL * 1000
    {
      hide TwoLetIn;
      LetInSpaced(run, p, m, n);
    }
    if declared < 35 {
      hide InRange;
      var run := SoonestDelta(declared);
      assert TwoLetIn(run, A, 1, 2) && run.inputs[2].at < run.inputs[1].at + PEX_MIN_INTERVAL * 1000;
    }
  }

  // ----- a snapshot cut short -----

  /** A third party with one address, whose host name is long enough for the snapshot of this one entry to
      be framed in exactly the bound. */
  function LongHost(): PeerEntry {
    PeerEntry(seq(64, _ => 97), [Address(seq(261_921, _ => 97), 9, AddressKind.Direct)], [], 0, Provenance.Direct, [],
              None)
  }

  lemma LongHostLen()
    ensures EntryLen(LongHost()) == PEX_MAX_FRAME - LENGTH_PREFIX - EMPTY_SNAPSHOT_BODY
  {
    var e := LongHost();
    PlainLen(e.peerId);
    PlainLen(e.addresses[0].host);
    hide TextLen;
    assert AddressLen(e.addresses[0]) == 25 + 261_923 + 1 + 8;
    assert e.addresses[..0] == [];
    assert Total(e.addresses, AddressLen) == AddressLen(e.addresses[0]);
    assert TextLen([]) == 2 by { PlainLen([]); }
  }

  /** The receiver would take the snapshot of that entry, and keep the entry; the trim leaves neither. */
  lemma LongHostTrimmed()
    ensures var encoder := JsonConfig().encoder;
            && IsTrimmed(encoder, [LongHost()], [])
            && FrameLen(encoder, [LongHost()]) == PEX_MAX_FRAME && MessageFits(encoder, PexSnapshot([LongHost()]))
    ensures IsKept(LongHost(), IngestCtx(JsonConfig(), PARTNER, 0))
  {
    var e, encoder := LongHost(), JsonConfig().encoder;
    LongHostLen();
    hide EntryLen;
    assert [e][..0] == [] && [e][..1] == [e];
    assert EntryBytes(encoder, [e]) == EntryBytes(encoder, []) + encoder(e).value;
  }

  lemma LongHostArranged(s: Pex)
    requires s.known == map[LongHost().peerId := LongHost()] && s.cfg == JsonConfig()
    ensures Keyed(s.known) && Arrange(s.known, AdvertisedTo(s, PARTNER, 0)) == [LongHost()]
  {
    var e := LongHost();
    assert e.peerId != [] && e.peerId != PARTNER && IsFresh(e, 0) && JsonConfig().localPeerId == [];
    hide LongHost, JsonConfig, IsFresh;
    assert AdvertisedTo(s, PARTNER, 0) == {e.peerId};
    assert Ids([e]) == {e.peerId};
    assert IsArrangement([e], s.known, {e.peerId});
    ArrangementUnique([e], Arrange(s.known, {e.peerId}), s.known, {e.peerId});
  }

  /** The trim cuts what would have fitted: the link comes up with an empty snapshot, although the one entry
      there is to tell makes a message the partner's frame bound accepts, of an entry it would keep. */
  lemma TrimCutsAnAcceptableEntry() returns (run: Trace)
    ensures run.IsRun() && run.states[0] == Start(JsonConfig())
    ensures run.inputs == [DoUpsert(LongHost()), DoLinkUp(PARTNER, 0)]
    ensures var cfg := JsonConfig();
            && SentTo(run.effects[1].sends, PARTNER) == [Handshake(cfg), PexSnapshot([])]
            && Keyed(run.states[1].known)
            && Arrange(run.states[1].known, AdvertisedTo(run.states[1], PARTNER, 0)) == [LongHost()]
            && MessageFits(cfg.encoder, PexSnapshot([LongHost()]))
            && FrameLen(cfg.encoder, [LongHost()]) == PEX_MAX_FRAME
            && IsKept(LongHost(), IngestCtx(cfg, PARTNER, 0))
  {
    run := LongHostKnown();
    LongHostTrimmed();
    LongHostArranged(Last(run));
    LongHostCut(Last(run));
    hide LongHost, JsonConfig, Step, MessageFits, IsTrimmed, IsKept, AdvertisedTo, SentTo, IsSnapshot, Keyed, FrameLen,
         LinkAfterUp;
    SentToAddressed(PARTNER, [Handshake(JsonConfig()), PexSnapshot([])], PARTNER);
    run := Raise(run, PARTNER, 0, []);
  }

  lemma LongHostKnown() returns (run: Trace)
    ensures run.IsRun() && run.states[0] == Start(JsonConfig()) && run.inputs == [DoUpsert(LongHost())]
    ensures Last(run) == Start(JsonConfig()).(known := map[LongHost().peerId := LongHost()])
    ensures Keyed(Last(run).known) && !Last(run).cfg.jitter
  {
    var e := LongHost();
    assert e.peerId != [];
    hide LongHost;
    run := EmptyRun(Start(JsonConfig()));
    run := Go(run, DoUpsert(e), UpsertKnown(Last(run), e), Effect([], []));
  }

  lemma LongHostCut(s: Pex)
    requires Keyed(s.known) && Arrange(s.known, AdvertisedTo(s, PARTNER, 0)) == [LongHost()]
    requires s.cfg == JsonConfig()
    ensures IsSnapshot(s, PARTNER, 0, [])
  {
    LongHostTrimmed();
    hide LongHost, JsonConfig, IsTrimmed, AdvertisedTo;
  }
}
