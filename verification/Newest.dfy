/** When the hint for an id is the newest of all that the live links still attribute to themselves. A
    report that is not news is remembered on its link only, and no hint is rebuilt from there; so the
    answer turns on the moves that take a hint away. */
module Newest {
  import opened Basics
  import opened Caps
  import opened Timer
  import opened Entry
  import opened Wire
  import opened Bounded
  import opened Advertise
  import opened State
  import opened Protocol
  import opened Invariant
  import opened Sides

  ghost predicate CoveredAt(s: Pex, p: PeerId, id: PeerId) {
    id in LinkOr(s, p).received ==> id in s.hints && LinkOr(s, p).received[id] <= s.hints[id].lastSeen
  }

  /** Every live attribution has a hint that is at least as new. */
  ghost predicate NewestWins(s: Pex) { forall p: PeerId, id: PeerId :: CoveredAt(s, p, id) }

  // ----- the moves of the accumulators -----

  datatype Move =
    | TakeIn(peer: PeerId, entry: PeerEntry, at: nat)
    | Forget(peer: PeerId, id: PeerId)
    | Silence(peer: PeerId)
    | TearDown(peer: PeerId)

  /** What one entry, one dropped id, one mute or one teardown does. */
  ghost function Moved(s: Pex, move: Move): Pex {
    match move
    case TakeIn(p, e, at) =>
      Put(s, p, WithInbox(At(s, p), IngestOne(s.cfg, InboxOf(At(s, p)), p, e, at).0))
    case Forget(p, id) => Put(s, p, WithInbox(At(s, p), DropOne(InboxOf(At(s, p)), p, id).0))
    case Silence(p) => Put(s, p, Mute(At(s, p), p))
    case TearDown(p) => LinkDown(s, p)
  }

  /** No link but `p` attributes `id` to itself. */
  ghost predicate OnlyOn(s: Pex, p: PeerId, id: PeerId) { forall q: PeerId | q != p :: id !in LinkOr(s, q).received }

  /** The move takes no hint away from an id that some other link still lists: a new id at the cap evicts
      a hint nobody lists any more, and a drop, a mute or a teardown only takes hints of ids listed
      nowhere else. */
  ghost predicate Harmless(s: Pex, move: Move) {
    match move
    case TakeIn(p, e, at) =>
      var ctx := IngestCtx(s.cfg, p, at);
      IsKept(e, ctx) && e.peerId !in s.hints && |s.hints| >= PEX_MAX_HINTS ==>
        var victim := OldestKey(s.hints, HintAge);
        && OnlyOn(s, p, victim)
        && victim !in BoundedInsert(LinkOr(s, p).received, Seen, PEX_MAX_RECEIVED_PER_LINK,
                                    e.peerId, e.Clamped(ctx.nowSecs).lastSeen)
    case Forget(p, id) =>
      id in LinkOr(s, p).received && id in s.hints && s.hints[id].source == p ==> OnlyOn(s, p, id)
    case Silence(p) => forall id | id in s.hints && s.hints[id].source == p :: OnlyOn(s, p, id)
    case TearDown(p) => forall id | id in s.hints && s.hints[id].source == p :: OnlyOn(s, p, id)
  }

  ghost predicate InBounds(s: Pex) {
    |s.hints| <= PEX_MAX_HINTS && forall q: PeerId :: |LinkOr(s, q).received| <= PEX_MAX_RECEIVED_PER_LINK
  }

  // ----- one move -----

  /** The hints a move takes away. */
  function Lost(before: Hints, after: Hints): set<PeerId> { before.Keys - after.Keys }

  /** Only the link to `p` and the hints have moved, no hint has grown older, and what `p` newly lists is
      covered by its hint. */
  ghost predicate MovedAt(s: Pex, p: PeerId, s': Pex) {
    && (forall q: PeerId | q != p :: LinkOr(s', q) == LinkOr(s, q))
    && (forall id | id in s.hints && id in s'.hints :: s.hints[id].lastSeen <= s'.hints[id].lastSeen)
    && forall id | id in LinkOr(s', p).received ::
         || (id in LinkOr(s, p).received && LinkOr(s, p).received[id] == LinkOr(s', p).received[id])
         || (id in s'.hints && LinkOr(s', p).received[id] <= s'.hints[id].lastSeen)
  }

  ghost predicate Unlisted(s: Pex, p: PeerId, s': Pex, id: PeerId) {
    OnlyOn(s, p, id) && id !in LinkOr(s', p).received
  }

  /** Newest-wins survives such a move exactly when nothing lists an id whose hint it takes away. */
  lemma CoversAfter(s: Pex, p: PeerId, s': Pex)
    requires NewestWins(s) && MovedAt(s, p, s')
    ensures NewestWins(s') <==> forall id | id in Lost(s.hints, s'.hints) :: Unlisted(s, p, s', id)
  {
    if forall id | id in Lost(s.hints, s'.hints) :: Unlisted(s, p, s', id) {
      forall q: PeerId, id: PeerId ensures CoveredAt(s', q, id) {
        assert CoveredAt(s, q, id);
        assert id in Lost(s.hints, s'.hints) ==> Unlisted(s, p, s', id);
      }
    } else {
      var id :| id in Lost(s.hints, s'.hints) && !Unlisted(s, p, s', id);
      if id in LinkOr(s', p).received {
        assert !CoveredAt(s', p, id);
      } else {
        var q: PeerId :| q != p && id in LinkOr(s, q).received;
        assert !CoveredAt(s', q, id);
      }
    }
  }

  lemma BoundsAfter(s: Pex, p: PeerId, s': Pex)
    requires InBounds(s) && |s'.hints| <= PEX_MAX_HINTS && |LinkOr(s', p).received| <= PEX_MAX_RECEIVED_PER_LINK
    requires forall q: PeerId | q != p :: LinkOr(s', q) == LinkOr(s, q)
    ensures InBounds(s')
  {
    forall q: PeerId ensures |LinkOr(s', q).received| <= PEX_MAX_RECEIVED_PER_LINK {
      if q != p { assert LinkOr(s', q) == LinkOr(s, q); }
    }
  }

  /** What an insertion makes of a bounded map: at the cap the oldest goes, and only that. */
  lemma InsertExactly<V>(m: map<PeerId, V>, lastSeen: V -> nat, cap: nat, id: PeerId, v: V)
    requires 0 < cap && |m| <= cap
    ensures var r := BoundedInsert(m, lastSeen, cap, id, v);
            && id in r && r[id] == v && |r| <= cap
            && (forall j | j in r && j != id :: j in m && r[j] == m[j])
            && (forall j :: j in m && j !in r <==> id !in m && |m| >= cap && j == OldestKey(m, lastSeen))
  {
    BoundedInsertSize(m, lastSeen, cap, id, v);
  }

  lemma TakeInCovers(s: Pex, p: PeerId, e: PeerEntry, at: nat)
    requires NewestWins(s) && InBounds(s)
    ensures NewestWins(Moved(s, TakeIn(p, e, at))) <==> Harmless(s, TakeIn(p, e, at))
    ensures InBounds(Moved(s, TakeIn(p, e, at)))
  {
    var s', ctx := Moved(s, TakeIn(p, e, at)), IngestCtx(s.cfg, p, at);
    if IsKept(e, ctx) {
      hide IsKept, BoundedInsert, OldestKey, OnlyOn;
      KeptCovers(s, p, e.Clamped(ctx.nowSecs), s');
    } else {
      SkipCovers(s, p, s');
    }
  }

  /** An entry that is refused moves nothing. */
  lemma SkipCovers(s: Pex, p: PeerId, s': Pex)
    requires NewestWins(s) && InBounds(s)
    requires s' == Put(s, p, WithInbox(At(s, p), InboxOf(At(s, p))))
    ensures NewestWins(s') && InBounds(s')
  {
    forall q: PeerId ensures LinkOr(s', q) == LinkOr(s, q) {}
    BoundsAfter(s, p, s');
    forall q: PeerId, id: PeerId ensures CoveredAt(s', q, id) { assert CoveredAt(s, q, id); }
  }

  lemma KeptCovers(s: Pex, p: PeerId, c: PeerEntry, s': Pex)
    requires NewestWins(s) && InBounds(s)
    requires s' == Put(s, p, WithInbox(At(s, p), IngestKept(InboxOf(At(s, p)), p, c).0))
    ensures InBounds(s')
    ensures NewestWins(s') <==>
              (c.peerId !in s.hints && |s.hints| >= PEX_MAX_HINTS ==>
                 Unlisted(s, p, s', OldestKey(s.hints, HintAge)))
    ensures LinkOr(s', p).received
         == BoundedInsert(LinkOr(s, p).received, Seen, PEX_MAX_RECEIVED_PER_LINK, c.peerId, c.lastSeen)
  {
    hide BoundedInsert, OldestKey, Unlisted;
    InsertExactly(LinkOr(s, p).received, Seen, PEX_MAX_RECEIVED_PER_LINK, c.peerId, c.lastSeen);
    InsertExactly(s.hints, HintAge, PEX_MAX_HINTS, c.peerId, Hint(p, c.lastSeen));
    BoundsAfter(s, p, s');
    assert MovedAt(s, p, s');
    CoversAfter(s, p, s');
  }

  lemma ForgetCovers(s: Pex, p: PeerId, id: PeerId)
    requires NewestWins(s) && InBounds(s)
    ensures NewestWins(Moved(s, Forget(p, id))) <==> Harmless(s, Forget(p, id))
    ensures InBounds(Moved(s, Forget(p, id)))
  {
    var s' := Moved(s, Forget(p, id));
    SubsetSize(s'.hints.Keys, s.hints.Keys);
    SubsetSize(LinkOr(s', p).received.Keys, LinkOr(s, p).received.Keys);
    BoundsAfter(s, p, s');
    assert MovedAt(s, p, s');
    CoversAfter(s, p, s');
    hide OnlyOn, NewestWins;
    assert Unlisted(s, p, s', id) <==> OnlyOn(s, p, id) && id !in LinkOr(s', p).received;
    assert forall j | j in Lost(s.hints, s'.hints) :: j == id;
  }

  lemma FreeCovers(s: Pex, p: PeerId, s': Pex)
    requires NewestWins(s) && InBounds(s) && s'.hints == WithoutSource(s.hints, p)
    requires LinkOr(s', p).received == map[] && forall q: PeerId | q != p :: LinkOr(s', q) == LinkOr(s, q)
    ensures NewestWins(s') <==> forall id | id in s.hints && s.hints[id].source == p :: OnlyOn(s, p, id)
    ensures InBounds(s')
  {
    SubsetSize(s'.hints.Keys, s.hints.Keys);
    BoundsAfter(s, p, s');
    assert MovedAt(s, p, s');
    CoversAfter(s, p, s');
    hide OnlyOn, NewestWins;
    forall id
      ensures Unlisted(s, p, s', id) <==> OnlyOn(s, p, id)
      ensures id in Lost(s.hints, s'.hints) <==> id in s.hints && s.hints[id].source == p
    {
    }
  }

  /** While newest wins, one move keeps it so exactly when the move is harmless. */
  lemma MoveCovers(s: Pex, move: Move)
    requires NewestWins(s) && InBounds(s)
    ensures NewestWins(Moved(s, move)) <==> Harmless(s, move)
    ensures InBounds(Moved(s, move))
  {
    match move
    case TakeIn(p, e, at) => TakeInCovers(s, p, e, at);
    case Forget(p, id) => ForgetCovers(s, p, id);
    case Silence(p) => FreeCovers(s, p, Moved(s, move));
    case TearDown(p) => FreeCovers(s, p, Moved(s, move));
  }

  // ----- lists of moves -----

  ghost function After(s: Pex, moves: seq<Move>): Pex {
    if moves == [] then s else Moved(After(s, moves[..|moves| - 1]), moves[|moves| - 1])
  }

  /** Newest wins before, between and after the moves. */
  ghost predicate NewestAlong(s: Pex, moves: seq<Move>) {
    && (moves == [] || NewestAlong(s, moves[..|moves| - 1]))
    && NewestWins(After(s, moves))
  }

  ghost predicate HarmlessAlong(s: Pex, moves: seq<Move>) {
    moves == []
    || (var init := moves[..|moves| - 1]; HarmlessAlong(s, init) && Harmless(After(s, init), moves[|moves| - 1]))
  }

  lemma {:induction false} MovesCover(s: Pex, moves: seq<Move>)
    requires NewestWins(s) && InBounds(s)
    ensures NewestAlong(s, moves) <==> HarmlessAlong(s, moves)
    ensures NewestAlong(s, moves) ==> InBounds(After(s, moves)) && NewestWins(After(s, moves))
  {
    hide NewestWins, InBounds, Harmless, Moved;
    if moves != [] {
      var init := moves[..|moves| - 1];
      MovesCover(s, init);
      if NewestAlong(s, init) { MoveCovers(After(s, init), moves[|moves| - 1]); }
    }
  }

  // ----- the moves of an input -----

  function TakeIns(p: PeerId, entries: seq<PeerEntry>, at: nat): seq<Move> {
    seq(|entries|, i requires 0 <= i < |entries| => TakeIn(p, entries[i], at))
  }

  function Forgets(p: PeerId, ids: seq<PeerId>): seq<Move> {
    seq(|ids|, i requires 0 <= i < |ids| => Forget(p, ids[i]))
  }

  function StrikeMoves(l: Link, p: PeerId): seq<Move> {
    if l.strikes + 1 >= PEX_VIOLATION_LIMIT then [Silence(p)] else []
  }

  /** What a message does to the accumulators, move by move. */
  function MessageMoves(cfg: Config, l: Link, p: PeerId, msg: PexMessage, at: nat): seq<Move> {
    if l.muted then []
    else
      match msg
      case PexError(_) => []
      case PexHandshake(version, networkId, _, _) =>
        if l.phase != AwaitingHandshake then StrikeMoves(l, p)
        else if version != PEX_VERSION || networkId != cfg.networkId then [Silence(p)]
        else []
      case PexSnapshot(peers) =>
        if SnapshotFault(l, peers).Some? then StrikeMoves(l, p) else TakeIns(p, peers, at)
      case PexDelta(added, dropped) =>
        if DeltaFault(l, added, dropped, at).Some? then StrikeMoves(l, p)
        else TakeIns(p, added, at) + Forgets(p, dropped)
  }

  function Moves(s: Pex, input: Input): seq<Move> {
    match input
    case DoMessage(p, msg, at) => MessageMoves(s.cfg, LinkOr(s, p), p, msg, at)
    case DoViolation(p, _, _) => StrikeMoves(LinkOr(s, p), p)
    case DoLinkDown(p) => [TearDown(p)]
    case _ => []
  }

  /** The state from which those moves lead to `s'`: all that the input changes besides the accumulators
      has changed already. */
  ghost function Prepared(s: Pex, input: Input, s': Pex): Pex {
    match input
    case DoMessage(p, msg, at) => Put(s, p, Local(PreparedLink(s.cfg, LinkOr(s, p), msg, at), s.hints))
    case DoViolation(p, _, _) => Put(s, p, Local(OneMoreStrike(LinkOr(s, p)), s.hints))
    case DoLinkDown(_) => s
    case _ => s'
  }

  function OneMoreStrike(l: Link): Link { l.(strikes := l.strikes + 1) }

  function PreparedLink(cfg: Config, l: Link, msg: PexMessage, at: nat): Link {
    if l.muted then l
    else
      match msg
      case PexError(code) => if AppliesBackoff(l, code, at) then BackedOff(l, at) else l
      case PexHandshake(version, networkId, declared, _) =>
        if l.phase != AwaitingHandshake then OneMoreStrike(l)
        else if version != PEX_VERSION || networkId != cfg.networkId then l
        else l.(remoteDeclaredSecs := Some(ClampInterval(declared)), phase := AwaitingSnapshot)
      case PexSnapshot(peers) =>
        if SnapshotFault(l, peers).Some? then OneMoreStrike(l)
        else l.(phase := Streaming, lastArrivalMs := Some(at))
      case PexDelta(added, dropped) =>
        if DeltaFault(l, added, dropped, at).Some? then OneMoreStrike(l)
        else l.(phase := Streaming, lastArrivalMs := Some(at))
  }

  lemma TakesOne(s: Pex, p: PeerId, x: Local, box: Inbox, e: PeerEntry, at: nat)
    ensures Moved(Put(s, p, WithInbox(x, box)), TakeIn(p, e, at))
         == Put(s, p, WithInbox(x, IngestOne(s.cfg, box, p, e, at).0))
  {
    hide IngestOne;
    PutAgain(s, p, WithInbox(x, box), WithInbox(x, IngestOne(s.cfg, box, p, e, at).0));
  }

  lemma PutAgain(s: Pex, p: PeerId, x: Local, y: Local)
    ensures Put(Put(s, p, x), p, y) == Put(s, p, y) && At(Put(s, p, x), p) == x
  {
    assert s.links[p := x.link][p := y.link] == s.links[p := y.link];
  }

  lemma {:induction false} TakesAll(s: Pex, p: PeerId, x: Local, entries: seq<PeerEntry>, at: nat)
    ensures After(Put(s, p, WithInbox(x, InboxOf(x))), TakeIns(p, entries, at))
         == Put(s, p, WithInbox(x, IngestAll(s.cfg, InboxOf(x), p, entries, at).0))
  {
    hide IngestOne, Moved, Put, WithInbox, InboxOf;
    if entries != [] {
      var init, e := entries[..|entries| - 1], entries[|entries| - 1];
      assert TakeIns(p, entries, at)[..|entries| - 1] == TakeIns(p, init, at);
      TakesAll(s, p, x, init, at);
      TakesOne(s, p, x, IngestAll(s.cfg, InboxOf(x), p, init, at).0, e, at);
    }
  }

  lemma ForgetsOne(s: Pex, p: PeerId, x: Local, box: Inbox, id: PeerId)
    ensures Moved(Put(s, p, WithInbox(x, box)), Forget(p, id)) == Put(s, p, WithInbox(x, DropOne(box, p, id).0))
  {
    hide DropOne;
    PutAgain(s, p, WithInbox(x, box), WithInbox(x, DropOne(box, p, id).0));
  }

  lemma {:induction false} ForgetsAll(s: Pex, p: PeerId, x: Local, box: Inbox, before: seq<Move>, t: Pex,
                                      ids: seq<PeerId>)
    requires After(t, before) == Put(s, p, WithInbox(x, box))
    ensures After(t, before + Forgets(p, ids)) == Put(s, p, WithInbox(x, DropAll(box, p, ids).0))
  {
    hide DropOne, Moved, Put, WithInbox;
    if ids != [] {
      var init, moves := ids[..|ids| - 1], before + Forgets(p, ids);
      assert moves[..|moves| - 1] == before + Forgets(p, init);
      ForgetsAll(s, p, x, box, before, t, init);
      ForgetsOne(s, p, x, DropAll(box, p, init).0, ids[|ids| - 1]);
    } else {
      assert before + Forgets(p, ids) == before;
    }
  }

  lemma NoMoves(s: Pex)
    ensures After(s, []) == s
  {
  }

  lemma OneMove(s: Pex, move: Move)
    ensures After(s, [move]) == Moved(s, move)
  {
    assert [move][..0] == [];
  }

  lemma StrikeByMoves(s: Pex, p: PeerId, code: ErrorCode)
    ensures After(Put(s, p, Local(OneMoreStrike(LinkOr(s, p)), s.hints)), StrikeMoves(LinkOr(s, p), p))
         == Put(s, p, Strike(At(s, p), p, code).0)
  {
    OneMove(Put(s, p, Local(OneMoreStrike(LinkOr(s, p)), s.hints)), Silence(p));
  }

  lemma SnapshotByMoves(s: Pex, p: PeerId, x: Local, peers: seq<PeerEntry>, at: nat)
    ensures After(Put(s, p, x), TakeIns(p, peers, at)) == Put(s, p, IngestAdded(s.cfg, x, p, peers, at).0)
  {
    TakesAll(s, p, x, peers, at);
    assert WithInbox(x, InboxOf(x)) == x;
    hide IngestAll, After;
  }

  lemma DeltaByMoves(s: Pex, p: PeerId, x: Local, added: seq<PeerEntry>, dropped: seq<PeerId>, at: nat)
    ensures After(Put(s, p, x), TakeIns(p, added, at) + Forgets(p, dropped))
         == Put(s, p, IngestDropped(IngestAdded(s.cfg, x, p, added, at).0, p, dropped).0)
  {
    var box := IngestAll(s.cfg, InboxOf(x), p, added, at).0;
    TakesAll(s, p, x, added, at);
    assert WithInbox(x, InboxOf(x)) == x;
    ForgetsAll(s, p, x, box, TakeIns(p, added, at), Put(s, p, x), dropped);
    assert InboxOf(WithInbox(x, box)) == box;
    hide IngestAll, DropAll, After;
  }

  lemma ControlByMoves(s: Pex, p: PeerId, msg: PexMessage, at: nat)
    requires !IsData(msg)
    ensures After(Prepared(s, DoMessage(p, msg, at), s), Moves(s, DoMessage(p, msg, at))) == OnMessage(s, p, msg, at).0
  {
    hide Strike, After, AppliesBackoff, ClampInterval, BackedOff, WithoutSource;
    if msg.PexHandshake? { StrikeByMoves(s, p, ProtocolViolation); }
    OneMove(Put(s, p, At(s, p)), Silence(p));
    NoMoves(Prepared(s, DoMessage(p, msg, at), s));
  }

  lemma MessageByMoves(s: Pex, p: PeerId, msg: PexMessage, at: nat)
    ensures After(Prepared(s, DoMessage(p, msg, at), s), Moves(s, DoMessage(p, msg, at))) == OnMessage(s, p, msg, at).0
  {
    var x := At(s, p);
    hide IngestAdded, IngestDropped, Strike, After, AppliesBackoff, SnapshotFault, DeltaFault, ClampInterval, BackedOff,
         WithoutSource;
    forall code ensures After(Put(s, p, Local(OneMoreStrike(LinkOr(s, p)), s.hints)), StrikeMoves(LinkOr(s, p), p))
                     == Put(s, p, Strike(x, p, code).0) {
      StrikeByMoves(s, p, code);
    }
    NoMoves(Prepared(s, DoMessage(p, msg, at), s));
    match msg
    case PexError(_) => ControlByMoves(s, p, msg, at);
    case PexHandshake(_, _, _, _) => ControlByMoves(s, p, msg, at);
    case PexSnapshot(peers) => SnapshotByMoves(s, p, Arrive(x, at), peers, at);
    case PexDelta(added, dropped) => DeltaByMoves(s, p, Arrive(x, at), added, dropped, at);
  }

  /** Every input does to the accumulators what its moves do, and nothing else touches them. */
  lemma StepByMoves(s: Pex, input: Input, s': Pex, effect: Effect)
    requires Keyed(s.known) && Step(s, input, s', effect)
    ensures s' == After(Prepared(s, input, s'), Moves(s, input))
    ensures SameBoard(s, Prepared(s, input, s'))
  {
    PreparedKeepsBoard(s, input, s', effect);
    hide SameBoard, OnMessage, Strike, LinkDown, MessageMoves, StrikeMoves, PreparedLink, LinkUp, Tick;
    match input
    case DoMessage(p, msg, at) => MessageByMoves(s, p, msg, at);
    case DoViolation(p, code, _) => StrikeByMoves(s, p, code);
    case DoLinkDown(p) => OneMove(s, TearDown(p));
    case _ =>
  }

  lemma PreparedKeepsBoard(s: Pex, input: Input, s': Pex, effect: Effect)
    requires Keyed(s.known) && Step(s, input, s', effect)
    ensures SameBoard(s, Prepared(s, input, s'))
  {
    hide PreparedLink;
    if input.DoMessage? {
      hide Step;
      PreparedLinkKeeps(s.cfg, LinkOr(s, input.peer), input.msg, input.at);
    } else if !input.DoViolation? && !input.DoLinkDown? {
      KeepsHints(s, input, s', effect);
      hide Step;
      forall q: PeerId ensures LinkOr(s', q).received == LinkOr(s, q).received {
        StepKeepsReceiver(s, input, s', effect, q);
      }
    }
  }

  lemma PreparedLinkKeeps(cfg: Config, l: Link, msg: PexMessage, at: nat)
    ensures PreparedLink(cfg, l, msg, at).received == l.received
  {
  }

  lemma KeepsHints(s: Pex, input: Input, s': Pex, effect: Effect)
    requires Keyed(s.known) && Step(s, input, s', effect)
    requires !input.DoMessage? && !input.DoViolation? && !input.DoLinkDown?
    ensures s'.hints == s.hints
  {
  }

  ghost predicate SameBoard(s: Pex, t: Pex) {
    s.hints == t.hints && forall q: PeerId :: LinkOr(t, q).received == LinkOr(s, q).received
  }

  lemma SameBoardCovers(s: Pex, t: Pex)
    requires SameBoard(s, t)
    ensures NewestWins(t) <==> NewestWins(s)
    ensures InBounds(s) ==> InBounds(t)
  {
    forall p: PeerId, id: PeerId ensures CoveredAt(s, p, id) <==> CoveredAt(t, p, id) {
      assert LinkOr(t, p).received == LinkOr(s, p).received;
    }
    forall q: PeerId ensures |LinkOr(t, q).received| == |LinkOr(s, q).received| {
      assert LinkOr(t, q).received == LinkOr(s, q).received;
    }
    if NewestWins(t) { forall p: PeerId, id: PeerId ensures CoveredAt(s, p, id) { assert CoveredAt(t, p, id); } }
    if NewestWins(s) { forall p: PeerId, id: PeerId ensures CoveredAt(t, p, id) { assert CoveredAt(s, p, id); } }
  }

  lemma InvInBounds(s: Pex)
    requires Inv(s)
    ensures InBounds(s)
  {
    forall q: PeerId ensures |LinkOr(s, q).received| <= PEX_MAX_RECEIVED_PER_LINK { LinkInv(s, q); }
  }

  // ----- runs -----

  ghost predicate NewestInStep(run: Trace, i: nat)
    requires i < |run.inputs| && |run.states| == |run.inputs| + 1
  {
    NewestAlong(Prepared(run.states[i], run.inputs[i], run.states[i + 1]), Moves(run.states[i], run.inputs[i]))
  }

  ghost predicate HarmlessStep(run: Trace, i: nat)
    requires i < |run.inputs| && |run.states| == |run.inputs| + 1
  {
    HarmlessAlong(Prepared(run.states[i], run.inputs[i], run.states[i + 1]), Moves(run.states[i], run.inputs[i]))
  }

  lemma OneStepCovers(run: Trace, i: nat)
    requires run.IsRun() && i < |run.inputs| && Inv(run.states[i]) && NewestWins(run.states[i])
    ensures NewestInStep(run, i) <==> HarmlessStep(run, i)
    ensures NewestInStep(run, i) ==> NewestWins(run.states[i + 1])
  {
    var s, input, s' := run.states[i], run.inputs[i], run.states[i + 1];
    hide Inv, Step, NewestWins, InBounds, Prepared, Moves, NewestAlong, HarmlessAlong, SameBoard;
    RunStep(run, i + 1);
    StepByMoves(s, input, s', run.effects[i]);
    InvInBounds(s);
    SameBoardCovers(s, Prepared(s, input, s'));
    MovesCover(Prepared(s, input, s'), Moves(s, input));
  }

  /** In a run, the hint of every attributed id is at every moment the newest of all live attributions of
      that id if and only if every move made along the way is harmless. */
  lemma {:induction false} NewestWinsIffHarmless(run: Trace, n: nat)
    requires run.IsRun() && n <= |run.inputs| && Inv(run.states[0]) && NewestWins(run.states[0])
    ensures (forall i: nat | i < n :: NewestInStep(run, i)) <==> (forall i: nat | i < n :: HarmlessStep(run, i))
    ensures (forall i: nat | i < n :: NewestInStep(run, i)) ==> NewestWins(run.states[n])
  {
    hide Inv, Step, NewestWins, NewestInStep, HarmlessStep;
    if n > 0 {
      NewestWinsIffHarmless(run, n - 1);
      if forall i: nat | i < n - 1 :: NewestInStep(run, i) {
        RunInv(run, n - 1);
        OneStepCovers(run, n - 1);
      }
    }
  }

  // ----- between inputs -----

  /** What the move brings in: an id and its date. */
  function Brings(s: Pex, move: Move): Option<(PeerId, nat)> {
    match move
    case TakeIn(p, e, at) =>
      var ctx := IngestCtx(s.cfg, p, at);
      if IsKept(e, ctx) then Some((e.peerId, e.Clamped(ctx.nowSecs).lastSeen)) else None
    case _ => None
  }

  /** The ids whose hint one of the moves takes away. */
  ghost function Bared(s: Pex, moves: seq<Move>): set<PeerId> {
    if moves == [] then {}
    else
      var init := moves[..|moves| - 1];
      Bared(s, init) + Lost(After(s, init).hints, After(s, moves).hints)
  }

  /** The newest date the moves bring `id` in with, since one of them last took its hint away. */
  ghost function Regained(s: Pex, moves: seq<Move>, id: PeerId): Option<nat> {
    if moves == [] then None
    else
      var init, move := moves[..|moves| - 1], moves[|moves| - 1];
      var t := After(s, init);
      if id in Lost(t.hints, Moved(t, move).hints) then None
      else RegainedBy(Regained(s, init, id), Brings(t, move), id)
  }

  function RegainedBy(before: Option<nat>, brought: Option<(PeerId, nat)>, id: PeerId): Option<nat> {
    if brought.Some? && brought.value.0 == id then Some(Max(before.GetOr(0), brought.value.1)) else before
  }

  /** Whatever hint a move takes away, either the rest of the moves bring the id in again, no older than any
      link that still lists it in the end has it, or no link lists it any more. */
  ghost predicate MadeGood(s: Pex, moves: seq<Move>) {
    forall id, q: PeerId | id in Bared(s, moves) && id in LinkOr(After(s, moves), q).received ::
      Regained(s, moves, id).Some? && LinkOr(After(s, moves), q).received[id] <= Regained(s, moves, id).value
  }

  function DateOf(hints: Hints, id: PeerId): Option<nat> { if id in hints then Some(hints[id].lastSeen) else None }

  function PeerOf(move: Move): PeerId { move.peer }

  /** What one move does to the date of every hint, and that it moves one link only. */
  ghost predicate MovesHints(s: Pex, move: Move, s': Pex) {
    && MovedAt(s, PeerOf(move), s') && InBounds(s')
    && forall id | id !in Lost(s.hints, s'.hints) ::
         DateOf(s'.hints, id) == RegainedBy(DateOf(s.hints, id), Brings(s, move), id)
  }

  function HintsAfter(hints: Hints, inserted: Hints, e: PeerEntry): Hints {
    if Fresher(hints, e) then inserted else hints
  }

  lemma KeptDates(hints: Hints, p: PeerId, c: PeerEntry, after: Hints)
    requires |hints| <= PEX_MAX_HINTS
    requires after == HintsAfter(hints, BoundedInsert(hints, HintAge, PEX_MAX_HINTS, c.peerId, Hint(p, c.lastSeen)), c)
    ensures |after| <= PEX_MAX_HINTS && c.peerId in after && c.lastSeen <= after[c.peerId].lastSeen
    ensures forall id | id in hints && id in after :: hints[id].lastSeen <= after[id].lastSeen
    ensures forall id | id !in Lost(hints, after) ::
              DateOf(after, id) == RegainedBy(DateOf(hints, id), Some((c.peerId, c.lastSeen)), id)
  {
    hide BoundedInsert, OldestKey;
    InsertExactly(hints, HintAge, PEX_MAX_HINTS, c.peerId, Hint(p, c.lastSeen));
  }

  lemma KeptMovesHints(s: Pex, p: PeerId, c: PeerEntry, s': Pex)
    requires InBounds(s) && s' == Put(s, p, WithInbox(At(s, p), IngestKept(InboxOf(At(s, p)), p, c).0))
    ensures MovedAt(s, p, s') && InBounds(s')
    ensures forall id | id !in Lost(s.hints, s'.hints) ::
              DateOf(s'.hints, id) == RegainedBy(DateOf(s.hints, id), Some((c.peerId, c.lastSeen)), id)
  {
    hide BoundedInsert, OldestKey, DateOf, RegainedBy;
    InsertExactly(LinkOr(s, p).received, Seen, PEX_MAX_RECEIVED_PER_LINK, c.peerId, c.lastSeen);
    KeptDates(s.hints, p, c, s'.hints);
    hide Fresher;
    BoundsAfter(s, p, s');
  }

  lemma MoveMovesHints(s: Pex, move: Move)
    requires InBounds(s)
    ensures MovesHints(s, move, Moved(s, move))
  {
    hide IngestOne, DropOne, Mute, LinkDown, MovesHints;
    match move
    case TakeIn(p, e, at) => TakeInMovesHints(s, p, e, at);
    case Forget(p, id) => ForgetMovesHints(s, p, id);
    case Silence(p) => FreeMovesHints(s, move);
    case TearDown(p) => FreeMovesHints(s, move);
  }

  lemma TakeInMovesHints(s: Pex, p: PeerId, e: PeerEntry, at: nat)
    requires InBounds(s)
    ensures MovesHints(s, TakeIn(p, e, at), Moved(s, TakeIn(p, e, at)))
  {
    var s', ctx := Moved(s, TakeIn(p, e, at)), IngestCtx(s.cfg, p, at);
    if IsKept(e, ctx) {
      hide IsKept, BoundedInsert, InBounds, MovedAt, IngestKept;
      KeptMovesHints(s, p, e.Clamped(ctx.nowSecs), s');
    } else {
      assert s' == Put(s, p, WithInbox(At(s, p), InboxOf(At(s, p))));
      hide IsKept;
      SkipMovesHints(s, p, s');
    }
  }

  lemma SkipMovesHints(s: Pex, p: PeerId, s': Pex)
    requires InBounds(s) && s' == Put(s, p, WithInbox(At(s, p), InboxOf(At(s, p))))
    ensures MovedAt(s, p, s') && InBounds(s') && s'.hints == s.hints
  {
    forall q: PeerId ensures LinkOr(s', q) == LinkOr(s, q) {}
    BoundsAfter(s, p, s');
  }

  lemma ForgetMovesHints(s: Pex, p: PeerId, id: PeerId)
    requires InBounds(s)
    ensures MovesHints(s, Forget(p, id), Moved(s, Forget(p, id)))
  {
    var s' := Moved(s, Forget(p, id));
    SubsetSize(s'.hints.Keys, s.hints.Keys);
    SubsetSize(LinkOr(s', p).received.Keys, LinkOr(s, p).received.Keys);
    BoundsAfter(s, p, s');
  }

  lemma FreeMovesHints(s: Pex, move: Move)
    requires InBounds(s) && (move.Silence? || move.TearDown?)
    ensures MovesHints(s, move, Moved(s, move))
  {
    var p, s' := PeerOf(move), Moved(s, move);
    assert s'.hints == WithoutSource(s.hints, p) && LinkOr(s', p).received == map[];
    assert forall q: PeerId | q != p :: LinkOr(s', q) == LinkOr(s, q);
    hide Moved, WithoutSource, LinkOr, MovedAt, InBounds;
    FreedMovesHints(s, p, s');
  }

  lemma FreedMovesHints(s: Pex, p: PeerId, s': Pex)
    requires InBounds(s) && s'.hints == WithoutSource(s.hints, p)
    requires LinkOr(s', p).received == map[] && forall q: PeerId | q != p :: LinkOr(s', q) == LinkOr(s, q)
    ensures MovedAt(s, p, s') && InBounds(s')
    ensures forall id | id !in Lost(s.hints, s'.hints) :: DateOf(s'.hints, id) == DateOf(s.hints, id)
  {
    SubsetSize(s'.hints.Keys, s.hints.Keys);
    BoundsAfter(s, p, s');
  }

  ghost predicate CoveredEverywhere(s: Pex, id: PeerId) { forall q: PeerId :: CoveredAt(s, q, id) }

  /** An id whose hint is not taken away stays covered. */
  lemma StaysCovered(s: Pex, p: PeerId, s': Pex, id: PeerId)
    requires MovedAt(s, p, s') && id !in Lost(s.hints, s'.hints) && CoveredEverywhere(s, id)
    ensures CoveredEverywhere(s', id)
  {
    forall q: PeerId ensures CoveredAt(s', q, id) { assert CoveredAt(s, q, id); }
  }

  /** Along the moves, ids never bared stay covered, and the others have what hint they regained. */
  lemma {:induction false} MovesSettle(s: Pex, moves: seq<Move>, id: PeerId)
    requires NewestWins(s) && InBounds(s)
    ensures InBounds(After(s, moves))
    ensures id !in Bared(s, moves) ==> CoveredEverywhere(After(s, moves), id)
    ensures id in Bared(s, moves) ==> DateOf(After(s, moves).hints, id) == Regained(s, moves, id)
  {
    if moves == [] {
      assert CoveredEverywhere(s, id);
    } else {
      var init, move := moves[..|moves| - 1], moves[|moves| - 1];
      var t, t' := After(s, init), After(s, moves);
      hide NewestWins, InBounds, Moved, MovedAt, CoveredEverywhere, Brings, RegainedBy;
      MovesSettle(s, init, id);
      MoveMovesHints(t, move);
      if id !in Bared(s, moves) { StaysCovered(t, PeerOf(move), t', id); }
    }
  }

  lemma MovesMadeGood(s: Pex, moves: seq<Move>)
    requires NewestWins(s) && InBounds(s)
    ensures NewestWins(After(s, moves)) <==> MadeGood(s, moves)
  {
    var t := After(s, moves);
    hide After, Bared, Regained, InBounds;
    forall id: PeerId
      ensures id !in Bared(s, moves) ==> CoveredEverywhere(t, id)
      ensures id in Bared(s, moves) ==> DateOf(t.hints, id) == Regained(s, moves, id)
    {
      MovesSettle(s, moves, id);
    }
    if MadeGood(s, moves) {
      forall q: PeerId, id: PeerId ensures CoveredAt(t, q, id) {
        if id !in Bared(s, moves) { assert CoveredEverywhere(t, id); }
      }
    } else {
      var id, q: PeerId :| id in Bared(s, moves) && id in LinkOr(t, q).received
        && !(Regained(s, moves, id).Some? && LinkOr(t, q).received[id] <= Regained(s, moves, id).value);
      assert !CoveredAt(t, q, id);
    }
  }

  ghost predicate MadeGoodStep(run: Trace, i: nat)
    requires i < |run.inputs| && |run.states| == |run.inputs| + 1
  {
    MadeGood(Prepared(run.states[i], run.inputs[i], run.states[i + 1]), Moves(run.states[i], run.inputs[i]))
  }

  lemma OneStepMadeGood(run: Trace, i: nat)
    requires run.IsRun() && i < |run.inputs| && Inv(run.states[i]) && NewestWins(run.states[i])
    ensures NewestWins(run.states[i + 1]) <==> MadeGoodStep(run, i)
  {
    var s, input, s' := run.states[i], run.inputs[i], run.states[i + 1];
    hide Inv, Step, NewestWins, InBounds, Prepared, Moves, MadeGood, SameBoard;
    RunStep(run, i + 1);
    StepByMoves(s, input, s', run.effects[i]);
    InvInBounds(s);
    SameBoardCovers(s, Prepared(s, input, s'));
    MovesMadeGood(Prepared(s, input, s'), Moves(s, input));
  }

  /** What a host can observe: in every state between inputs, the hint of every attributed id is the newest
      of all its live attributions if and only if every input that takes a hint away from an id makes it
      good before it is done. */
  lemma {:induction false} NewestBetweenInputs(run: Trace, n: nat)
    requires run.IsRun() && n <= |run.inputs| && Inv(run.states[0]) && NewestWins(run.states[0])
    ensures (forall i: nat | i <= n :: NewestWins(run.states[i])) <==> (forall i: nat | i < n :: MadeGoodStep(run, i))
  {
    hide Inv, Step, NewestWins, MadeGoodStep;
    if n > 0 {
      NewestBetweenInputs(run, n - 1);
      if forall i: nat | i <= n - 1 :: NewestWins(run.states[i]) {
        RunInv(run, n - 1);
        OneStepMadeGood(run, n - 1);
      } else {
        var i: nat :| i < n - 1 && !MadeGoodStep(run, i);
      }
    }
  }
}
