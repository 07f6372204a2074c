# Verification of the PEX engine

A Dafny model of the peer-exchange engine, with proofs of what the protocol promises. The engine is a
state machine without I/O: a participant keeps a first-hand set of peers, tells each link about it in one
snapshot and then in capped, spaced deltas, and takes in what its links tell it, policing their order,
rate and size. `dafny verify dfyconfig.toml` checks everything.

## How it is laid out

- `Basics`, `Caps`, `Sorting`: bytes, orders, set sizes, the protocol constants, insertion sort.
- `Payment`, `Entry`, `Json`, `Wire`: the signing-bytes encoding and claim verification, entry validation
  and the canonical fingerprint, the length of JSON text, the messages and the byte budget of a snapshot.
- `Timer`, `Bounded`, `Advertise`, `State`: interval arithmetic, capped maps, the advertised set and the
  delta against a link's told-state, the record of a link.
- `Protocol`: the same machine on values. `Step` relates the states around one input (an upsert, a
  removal, a link coming up or going down, a message, a transport violation, a clock tick) and says what
  is sent and reported; a `Trace` is a run of steps. Jitter draws and the choice of ids to drop are
  nondeterministic.
- `Engine`: the class `PexEngine` over mutable `LinkState` records, with the loops, the in-place updates
  and the cache of the original. Each public method is proved to do what `Protocol` says, to keep the
  class's `Valid()`, which contains the global invariant, and to confine its updates.
- `Operations`, `Inbound`, `Verdicts`, `Written`: what each operation amounts to, said of fields, dates,
  bytes and numbers alone rather than through the definitions above; which rule a refused message broke;
  the JSON text that lengths are lengths of.
- `Invariant`, `Sides`: the global invariant and its preservation; what one input can do to one link.
- `Noninterference`, `Pacing`, `Convergence`, `Settling`, `History`, `Newest`, `Attribution`, `Capped`,
  `Frames`: theorems about whole runs of one participant.
- `Runs`, `Scenarios`: building concrete runs from nothing, and the runs that show where a promise fails.
- `World`, `Tally`: two participants joined by a wire in order, and the theorems about both ends.

A string is the sequence of its UTF-8 bytes. Clock readings and timestamps are natural numbers. The
hasher behind the fingerprint, SHA-256, base64 and the signature verifier are arbitrary functions, and so
is the JSON encoder (only the length of an entry's encoding matters), except in the results about what
fits a frame, where it is the compact form that `Json` measures and `Written` spells out. Told-state results speak of the hash
value, as the code does; where content is meant, `Entry.FingerprintCanonical` says what the hash is taken
over.

## What the results assume

- Nothing of one participant's configuration, its declared interval included. Runs start from nothing, or
  from any state that keeps the global invariant, and interleave any inputs, on any links, with clocks
  that may jump, except where a theorem names a monotone clock.
- In `World`, the host raises the link once and does not tear it down (see
  `World.SecondLinkUpDrawsStrike`), delivery is in order, and from one data message to the next the delay
  shrinks by at most the five-second grace (see `World.DeltaTakenIffFloorPassed`). A frame past the bound
  arrives as a transport violation with code 4; other frames arrive decoded. The sender's host, its other
  links, and what is sent or forged to it on this link, are arbitrary; so are the receiver's host and its
  other links. The other direction of the link is the same with the roles exchanged.

## Where the code and its documentation differ

The model follows the code.

- The violation event is documented to say whether the direction is muted; after a mismatch mute it can
  say it is not (`Invariant.ViolationReportsMute`, `Invariant.MutedDirectionReportedUnmuted`).
- The back-off is documented as limited to once per effective interval; the code waits for its own
  interval only (`Pacing.RateLimitVersusDocumentation`, `Scenarios.EarlyBackoff`).
- The frame trim is documented to cut until the snapshot fits the frame bound; it already cuts an entry
  that takes the body to within four bytes of the bound (`Wire.TrimVersusReceiver` has the exact
  condition on what there is to send, `Scenarios.TrimCutsAnAcceptableEntry` a run).
- A sender is documented to bound all its messages by encoded bytes; it measures snapshots only
  (`Frames.DeltasFitIffLimitsDo` says for which hosts the count caps suffice for deltas,
  `Frames.OverlongDelta` is a run in which they do not).
- Section 11.3 of the DIG PEX protocol document allows a hostile sender one frame per 30 s; the enforced
  floor can be 25 s (`Scenarios.ThirtySecondsIff`, `Scenarios.SoonestDelta`).
- Newest-wins for hints (section 9.2 of that document) holds since the hint was last absent
  (`History.HintsExplained`): taking a hint away promotes no other link's report
  (`Newest.NewestWinsIffHarmless`, `Newest.NewestBetweenInputs`, `Scenarios.HintLost`).

## Model

| member | source | states |
|---|---|---|
| `Payment.PaymentSigningBytes` | src/payment.rs:134-148 | The loop yields the context string and its terminator, then identity, network and address in that order, each behind its length in four bytes, most significant first. |
| `Payment.SigningBytesInjective` | src/payment.rs:134-148 | For fields shorter than 2^32 bytes, two triples sign the same bytes if and only if they are the same triple. |
| `Payment.PeerIdForSpkiLoop` | src/payment.rs:154-162 | The loop yields 64 lowercase hexadecimal digits that spell the digest out: read two by two, the high digit first, they are its bytes. |
| `Payment.SpellsIsHex` | src/payment.rs:154-162 | A text is the hex form of some bytes if and only if, read two digits at a time, it spells them out. |
| `Payment.HexInjective` | src/payment.rs:154-162 | Different digests print as different hex strings, so comparing identities as text compares digests. |
| `Payment.PeerIdBindsKey` | src/payment.rs:249-251 | Two keys that both pass the identity check of one peer have the same digest: a relay cannot substitute its own key without a hash collision. |
| `Payment.VerifiesIff` | src/payment.rs:236-257 | A claim verifies, to its own address, if and only if its fields are within 128, 512 and 256 bytes and decode, the identity spells out the digest of the key, and the verifier takes the signature over the signed bytes; otherwise the error names the first of these to fail. |
| `Payment.VerifiedAddressIsTheOnlyOne` | src/payment.rs:236-257 | An address that verification returns is the claim's own, attested by a key that hashes to the peer, and the only address those signed bytes can name for that peer and network. |
| `Payment.TamperedClaimIsRefused` | src/payment.rs:236-257 | If the verifier accepts from a peer's key only what that key signed, however many pairs of network and address those are, a claim verifies only for a pair among them: another address, or an address moved to another network, does not. |
| `Entry.PayeeIff` | src/entry.rs:235-243 | A record has a payee exactly when it carries a claim that is well formed, whose key hashes to the record's identity and signed its identity, its network and the address. |
| `Entry.PayeeIsAttested` | src/entry.rs:235-243 | A record yields a payee only from its own claim, attested by a key that hashes to its peer, and the attested bytes name that peer, network and address and nothing else. |
| `Entry.KeptEntryIsBounded` | src/entry.rs:247-292 | The chain of early returns keeps an entry exactly when it meets every rule for entries, spelled out with their numbers, whatever order they are tried in; clamped, it differs in nothing but its date, which is now if it was later, is within the last 1800 s of the receiver's clock and names neither end, and its payment claim had no say beyond its size. |
| `Entry.FingerprintHash` | src/entry.rs:333-367 | Sorting by reference and feeding the hasher field by field hashes exactly the canonical field stream. |
| `Entry.FingerprintCanonical` | src/entry.rs:333-367 | Two entries feed the hasher the same stream if and only if they have the same multiset of addresses, the same multiset of flags and the same payment fields, whatever their list orders, last_seen or via. |
| `Sorting.SortIsTheOnlyOne` | src/entry.rs:336-345 | Under a total order a list is a sorted rearrangement of another if and only if it is the one insertion sort yields, so stable and unstable sorts agree. |
| `Sorting.SortCanonical` | src/entry.rs:336-345 | Two lists sort alike if and only if one is a rearrangement of the other. |
| `Written.FitsIffTextDoes` | src/wire.rs:36-87 | The bytes counted are bytes of JSON text: a handshake, a snapshot or a delta fits if and only if its text, written out field by field with every escape, is no longer than 262144 bytes. |
| `Wire.TrimToFrameBudget` | src/engine.rs:810-826 | The running total keeps the longest prefix whose frame stays below the bound, treating an unencodable entry as too large. |
| `Wire.TrimIsLongest` | src/engine.rs:810-826 | A prefix is within budget if and only if it is no longer than the one kept, and what is kept is a frame the receiver's bound accepts. |
| `Wire.TrimUnique` | src/engine.rs:810-826 | The trim has one possible result. |
| `Wire.TrimVersusReceiver` | src/engine.rs:810-826 | The trim counts the length prefix and one comma too many, which the receiver's bound (src/wire.rs:89-100) does not: it leaves the longest prefix the receiver would accept if and only if no prefix of what there is to send has a body within the last five sizes accepted; measured with the length prefix, it leaves the longest within the bound if and only if no prefix is exactly at it. |
| `Scenarios.TrimCutsAnAcceptableEntry` | src/engine.rs:214-235 | The concrete run: one entry put in, a link raised, and the snapshot is empty, although the entry's JSON makes a snapshot framed in exactly the bound, which the receiver accepts, of an entry it would keep. |
| `Frames.DeltasFitIffLimitsDo` | src/engine.rs:766-796 | A delta is bounded by count only. Over all runs in which the host keeps the JSON of entries to one limit and of their ids to another, every delta sent stays within the receiver's frame bound if and only if the entry limit and the id limit (or the entry limit less the 82 bytes an entry adds to its id, if that is less) add up to no more than 5240 bytes. The id limit is at least 4 bytes, two characters and their quotes, without which there are not a hundred ids. |
| `Frames.OverlongDelta` | src/engine.rs:766-796 | The concrete run, for every size past that: fifty entries told and removed, fifty others put in, and an eligible tick sends a delta of a hundred distinct ids that is too long. |
| `Frames.SendsFit` | src/engine.rs:201-345 | Within those limits, and with a configuration whose handshake fits, whatever any input sends fits. |
| `Frames.SnapshotFits` | src/engine.rs:214-219 | A snapshot fits, whatever the entries. |
| `Timer.ClampIsNearest` | src/timer.rs:17-19 | Clamping goes to the one legal value nearest to what was declared. |
| `Timer.EffectiveIntervalSecs` | src/timer.rs:25-29 | The least value that is no smaller than either declaration, clamped. |
| `Timer.FloorMeetsSender` | src/timer.rs:36-39 | The floor enforced on a declaration is the five-second grace short of the soonest a sender that made it may send when the other end declared no more, and shorter still otherwise. |
| `Timer.JitterMs` | src/timer.rs:45-53 | Draws between 0 and 10% of the effective interval. |
| `Bounded.EvictOldest` | src/engine.rs:681-689 | Walking the map in any order removes one entry and no other: the one that every other entry exceeds in date, or equals in date and follows in key. |
| `Bounded.BoundedInsertSize` | src/engine.rs:557-583 | Inserting holds as many entries as there are ids, up to the cap, so at most one other is lost; the new entry is kept and the others that remain are as they were. |
| `Bounded.FillIsTopK` | src/engine.rs:557-583 | A stream of distinct arrivals into a map of cap k leaves everything while there is room and then the latest arrival with the k-1 greatest of all earlier ones, whatever was lost having a lesser date than whatever else was kept, or the same date and an earlier key: eviction one at a time equals choosing offline. |
| `Bounded.TopKUnique` | src/engine.rs:681-689 | No other map satisfies that offline description, whatever the iteration order was. |
| `Capped.ReceivedIsTopK` | src/engine.rs:554-563 | Over any stretch of a run in which a link that starts with nothing stays up, unmuted and undropped and brings no id twice, its `received` is that offline choice, for its cap of 4096, among all it brought in. |
| `Capped.HintsAreTopK` | src/engine.rs:566-583 | Over any stretch of a run that starts without hints, frees none and brings no id twice on any link, the hints are that offline choice, for their cap of 16384, among all that came in on all links. |
| `Basics.TextLessIsAlphabetical` | src/engine.rs:710-714 | One string comes before another if and only if it is a proper prefix of it or has the lesser byte where they first differ. |
| `Advertise.ArrangementUnique` | src/engine.rs:696-716 | The freshest-first list of a set of known ids is unique, so the order in which the hash map yields them does not matter. |
| `Advertise.ArrangementDescends` | src/engine.rs:710-714 | It goes from the latest date to the earliest, ids in alphabetical order within one date. |
| `Advertise.SortArranges` | src/engine.rs:710-714 | Sorting any listing of the ids by (last_seen descending, peer_id ascending) gives that list. |
| `Advertise.DeltaShape` | src/engine.rs:766-796 | A delta carries min(50, pending) pending ids and min(50, stale) stale ids, each once, and the two never overlap even when the first is capped. |
| `Advertise.DeltaSendsFreshest` | src/engine.rs:766-796 | Whatever pending entry a delta leaves behind has an earlier date than every entry it sends, or the same date and a later id, and is left only when fifty are sent. |
| `Advertise.CommitClears` | src/engine.rs:327-334 | Committing what was sent removes from both backlogs exactly the ids it carried, and changes the told ids by exactly those. |
| `Advertise.ClearIffToldAll` | src/engine.rs:766-796 | Both backlogs are empty if and only if the told-state is the fingerprint map of the advertised set. |
| `Advertise.QuiescentIffToldAll` | src/engine.rs:322-325 | The delta is empty, and so suppressed, if and only if the told-state is the fingerprint map of the advertised set. |
| `Advertise.DeltaLowersPotential` | src/engine.rs:301-345 | Every delta lowers the work left by exactly the number of ids it carries. |
| `Advertise.AgeingNeverRaisesPotential` | src/engine.rs:704-707 | As the clock moves on, entries only leave the advertised set, and their leaving never adds to the work left. |
| `Advertise.PotentialBound` | src/engine.rs:766-796 | The work left is at most 2 * known + told. |
| `State.LinkState.constructor` | src/state.rs:87-103 | A new record has both directions at their start. |
| `Engine.CollectFresh` | src/engine.rs:701-709 | Walking the map in any order collects each fresh, non-self entry once. |
| `Engine.AdvertisableBase` | src/engine.rs:696-716 | The result is the unique freshest-first arrangement of the fresh, non-self entries. |
| `Engine.ScanAdvertised` | src/engine.rs:766-782 | One pass over the base list finds the ids advertised to the partner and the first fifty pending entries. |
| `Engine.ChooseStale` | src/engine.rs:784-793 | As many stale ids as the cap allows, in whatever order the map yields them, come out ascending and without duplicates. |
| `Engine.PexEngine.constructor` | src/engine.rs:160-171 | A new engine is valid and empty. |
| `Engine.PexEngine.UpsertKnown` | src/engine.rs:179-186 | The new state is the specified one, the record of every link is untouched, and a cached list can only go out of date. |
| `Engine.PexEngine.RemoveKnown` | src/engine.rs:190-193 | The same for a removal. |
| `Engine.PexEngine.AdvertisableCached` | src/engine.rs:725-743 | Returns exactly the advertisable base for the second asked for, in every valid state, and rebuilds it only when the cache does not already hold it. |
| `Engine.PexEngine.AdvertisableFor` | src/engine.rs:755-761 | Filtering the shared list gives the arrangement of the ids advertised to the partner. |
| `Engine.PexEngine.BuildDelta` | src/engine.rs:766-796 | The lists are a delta in the sense of the results above, for the link's told-state. |
| `Engine.PexEngine.LinkUp` | src/engine.rs:201-235 | Returns the handshake and the longest fitting prefix of the 200 freshest entries, and leaves the state that sending them means, as `Operations.LinkUpSays` spells both out; keeps the invariant. |
| `Engine.PexEngine.LinkDown` | src/engine.rs:239-242 | The link and the hints it sources are gone and nothing else is; keeps the invariant. |
| `Engine.PexEngine.Tick` | src/engine.rs:301-345 | Every link takes its turn as specified (`Operations.TickSays` spells it out), whatever the order of the walk, the output holds exactly what each turn sent, and the base list is rebuilt at most once for all links; keeps the invariant. |
| `Engine.PexEngine.OnMessage` | src/engine.rs:249-277 | State, replies and events are the specified ones, on a link created if need be; keeps the invariant. |
| `Engine.PexEngine.RecordViolation` | src/engine.rs:282-293 | State, replies and events are those of a strike; keeps the invariant. |
| `Engine.PexEngine.Strike` | src/engine.rs:626-644 | In-place updates of the record and the shared hints amount to a strike. |
| `Engine.PexEngine.MuteMismatch` | src/engine.rs:649-662 | In-place updates amount to an immediate mute. |
| `Engine.PexEngine.OnPexError` | src/engine.rs:425-444 | In-place back-off behind its two gates, as `Inbound.ErrorSays` spells it out. |
| `Engine.PexEngine.OnHandshake` | src/engine.rs:446-468 | In-place phase change behind its three checks. |
| `Engine.PexEngine.OnSnapshot` | src/engine.rs:470-484 | In-place acceptance or strike. |
| `Engine.PexEngine.OnDelta` | src/engine.rs:486-536 | In-place acceptance or strike, with the checks in the code's order. |
| `Engine.PexEngine.IngestAdded` | src/engine.rs:540-591 | The loop over a batch, with both evictions, computes the specified intake. |
| `Engine.PexEngine.IngestDropped` | src/engine.rs:595-621 | The loop over the dropped ids computes the specified attribution. |
| `Operations.LinkUpSays` | src/engine.rs:201-235 | What raising a link sends and leaves, field by field: a handshake with version 1 and the configured network, interval and flags; the freshest of what may be told, up to 200 entries or to the first the frame budget has no room for; our own interval back to the configured one, the told contents added, the clock read, a jitter within a tenth of the interval, and everything else as it was. |
| `Operations.SnapshotTells` | src/engine.rs:213-216 | Every known third party no more than 1800 s old that the snapshot leaves out has an earlier date than every entry in it, or the same date and a later id. |
| `Operations.TickSays` | src/engine.rs:301-345 | What a tick sends and leaves on each link, field by field: nothing unless the link has had its snapshot, the largest of the two declarations and the jitter have gone by, and something is unsaid or outdated; and then one delta, the told contents changed by just what it says, the clock read and a new jitter. |
| `Operations.AnyJitterOnLinkUp` | src/engine.rs:218-232 | Where jitter is on, raising a link may draw any value up to a tenth of the interval in force. |
| `Operations.AnyJitterOnTick` | src/engine.rs:335-342 | And so may the delta a tick sends. |
| `Operations.DeltaTells` | src/engine.rs:766-796 | A delta adds known third parties no more than 1800 s old that were not told or told otherwise, from the latest date to the earliest, fifty or all of them, and none left out is fresher; it drops ids that were told and may no longer be, in alphabetical order, fifty or all of them. |
| `Inbound.ErrorSays` | src/engine.rs:425-444 | An error moves an unmuted link if and only if its code is 3, a data message of ours went out less than our own interval less 5 s before, and our own interval has gone by since the last back-off; it then doubles our own interval, within 30 s and an hour, notes the time and does nothing else. |
| `Inbound.ViolationSays` | src/engine.rs:282-293 | A transport violation is one more strike on any link, answered and reported under its own code, and the third mutes and frees. |
| `Inbound.LinkDownSays` | src/engine.rs:239-242 | Teardown takes the link and exactly the hints it sources. |
| `Inbound.KnownIsLastPut` | src/engine.rs:179-193 | Over a run, what is known about an id is exactly the entry of the host's last word on it, unless that was to remove it or the id is our own. |
| `Inbound.CandidatesSay` | src/engine.rs:540-591 | What is reported as candidates are entries of the message let in, in its order, each meeting every rule for entries and each as it came, but for a date in the future, which is now. |
| `Inbound.NewsIsReported` | src/engine.rs:566-590 | An entry that meets the rules and has a later date than the hint for its id, if any, and than earlier entries about it in the message, is among the candidates. |
| `Inbound.EventsSay` | src/engine.rs:249-277 | A message is answered by one error and reported as one violation, or not answered and reported as candidates, then dropped ids, neither list ever empty. |
| `Verdicts.DeafUntilTeardown` | src/engine.rs:237-262 | Over a run, a muted direction stays muted until its link is torn down: nothing is attributed to it, it is the source of no hint, and a message on it has no effect and changes neither link nor hints, whatever comes in between; teardown then leaves the link as if never touched, and every other link and hint as it was. |
| `Verdicts.MessageVerdict` | src/engine.rs:425-524 | Which messages are good, and under which code the others fall: the first handshake if it names our version and network (others mute at once with code 2 or 5), the snapshot awaited within its cap, a delta that meets phase, arrival floor, both caps and disjointness; a good handshake notes the declaration, raised to 30 s or lowered to an hour, and nothing else; the rest costs a strike under the code of the first rule broken, nothing else on the link moving unless it is the third. |
| `Invariant.StepInv` | src/engine.rs:157-345 | Every input keeps the global invariant: each hint's source is a live, unmuted, streaming link; muted implies nothing received and no hint sourced; three strikes imply muted; streaming implies the arrival clock and the remote's interval are set; at most 4096 received per link and 16384 hints; told ids name neither end. |
| `Invariant.RunInv` | src/engine.rs:249-293 | The invariant holds in every state a run reaches. |
| `Invariant.StepAdvances` | src/engine.rs:446-536 | While a link lives, one input never unmutes it, takes its phase back or forgives a strike. |
| `Invariant.RunAdvances` | src/engine.rs:239-242 | The same over any stretch of a run in which the link is not torn down. |
| `Invariant.ViolationReportsMute` | src/engine.rs:282-293 | The violation event says whether the direction is muted if and only if the direction was not already muted by a mismatch with the strike limit still out of reach (the event's own documentation, src/engine.rs:99-102, promises it always). |
| `Invariant.MutedDirectionReportedUnmuted` | src/engine.rs:626-644 | The concrete case: a handshake from another network, then an undecodable frame, reported as not muted on a muted direction. |
| `Sides.StepMovesSender` | src/engine.rs:301-444 | What one input can do to the sending half of a link: nothing, one honoured back-off, or one delta; and the deltas sent are exactly the moves of the told-state. |
| `Sides.StepMovesArrival` | src/engine.rs:470-536 | The arrival clock moves exactly when a snapshot or delta is let in. |
| `Sides.StepKeepsReceiver` | src/engine.rs:201-242 | Only what arrives on a link, or its teardown, moves its receiving half. |
| `Sides.InboundAnswers` | src/engine.rs:623-662 | Whatever comes in is answered with errors only. |
| `Noninterference.NoiseUnseen` | src/engine.rs:470-644 | Inbound snapshots, deltas and violations leave the state indistinguishable to every partner, and are answered to the offender alone. |
| `Noninterference.Simulate` | src/engine.rs:179-345 | From two states no partner can tell apart, any host input and any control message that gossip has not deafened the first to does the same, and leaves two states no partner can tell apart. |
| `Noninterference.GossipShowsOrNever` | src/engine.rs:249-345 | Strike every inbound snapshot, delta and violation out of any run: either a run remains that sends and reports exactly the same on what is left, or one does up to a control message that gossip has deafened the original to, which the two then handle differently. |
| `Noninterference.InboundGossipNeverShows` | src/engine.rs:249-345 | So a run in which no control message falls on a muted link, unless an error that would be ignored anyway, and no repeated handshake is a third strike, is matched to its end. |
| `Scenarios.GossipCanShow` | src/engine.rs:259-262 | A run in which gossip does show: three early deltas mute the link, a rate error goes unheard, and a delta leaves at 30 s that leaves in no run without the gossip. |
| `Noninterference.ShowsOnlyThroughMute` | src/engine.rs:425-468 | The one exception, exactly: gossip shows in the handling of a control message if and only if it muted the link first, or the message is the handshake that mutes it. |
| `Noninterference.AdvertisedIsFirstHand` | src/engine.rs:179-235 | Every entry ever sent, in a snapshot or a delta, is one the host put in with `upsert_known`, unchanged. |
| `Pacing.DeltaIsSpaced` | src/engine.rs:312-320 | A delta leaves no sooner after the last data message than the largest of our interval, the remote's declaration and 30 s, as known when it leaves, plus the jitter drawn; the next jitter is at most a tenth of that interval. |
| `Pacing.SendsSpaced` | src/engine.rs:301-345 | Over a session, the k-th delta leaves no sooner than k declared intervals after the snapshot, back-offs and late handshakes included. |
| `Pacing.ArrivalsSpaced` | src/engine.rs:486-536 | Over a stream, deltas let in are spaced by the arrival floor. |
| `Pacing.IntakeBound` | src/engine.rs:470-536 | From the snapshot on, at most one delta per arrival floor is let in, so at most 200 entries and 50 more per whole 25 s are ever examined, whatever the clock does meanwhile. |
| `Pacing.LetInSpaced` | src/engine.rs:486-536 | Any two data messages let in on one life of a link, a snapshot first or not, are an arrival floor apart. |
| `Scenarios.ThirtySecondsIff` | src/timer.rs:36-39 | In every run any two data messages let in on one life of a link are 30 s apart, as section 11.3 of the DIG PEX protocol document has it, if and only if the remote's declaration, as counted, is at least 35 s. |
| `Scenarios.SoonestDelta` | src/engine.rs:486-536 | The concrete run: for every declaration, a delta let in exactly one floor after the snapshot, 25 s for a declaration of 30 s. |
| `Pacing.BackoffGrowth` | src/engine.rs:425-444 | Under any flood of rate errors the interval in ms is at most the time between the first and last back-off honoured plus twice the starting interval, and never above 3600 s. |
| `Pacing.SendBetweenBackoffs` | src/engine.rs:425-444 | With a clock that does not run back, between any two honoured back-offs the participant itself sent a delta. |
| `Pacing.BackoffsArePaidFor` | src/engine.rs:425-444 | So there are never more back-offs than data messages sent, the snapshot among them. |
| `Pacing.RateLimitVersusDocumentation` | src/engine.rs:422-434 | The documentation limits back-offs to one per effective interval, the code to one per own interval. For any own interval, in range or not, the documented limit is kept if and only if no back-off or no data message has happened yet, or the own interval is not zero and either governs or runs out no sooner than the arrival floor since the last data message; in range that is: the remote's declaration does not govern, or no data message went out more than the grace after the last back-off. |
| `Scenarios.EarlyBackoff` | src/engine.rs:422-434 | A run from nothing in which a second back-off is honoured inside the effective interval: own interval 120 s after one back-off, 3600 s declared by the remote, back-offs at 50 s and 3600 s. |
| `Convergence.SnapshotLeavesRest` | src/engine.rs:214-229 | What the caps or the frame budget cut from a snapshot stays pending, exactly, and nothing becomes stale by it. |
| `Convergence.HostChangesSurface` | src/engine.rs:175-193 | An entry put in is pending on a link if and only if it may be advertised there and differs in content from what the link was told, so one that differs only in date, provenance or list order is not sent again and one about the participant itself is ignored; a removed id is to be dropped on exactly the links that were told it. |
| `Convergence.MessagesNameOthers` | src/engine.rs:766-796 | Nothing sent on a link, added or dropped, names either of its ends. |
| `Convergence.WorkIsUsedUp` | src/engine.rs:301-345 | Over a run with the first-hand set left alone, ids carried plus work left at the end never exceed the work left at the start, entries ageing out meanwhile. |
| `Convergence.DeltasEnd` | src/engine.rs:301-345 | So the deltas end: all together they carry at most 2 * known + told ids. |
| `Convergence.QuietIffToldAll` | src/engine.rs:322-325 | An eligible link is sent nothing if and only if it has been told exactly the advertised entries, content and all. |
| `Convergence.EventuallyToldAll` | src/engine.rs:301-345 | Among any 2 * known + told + 1 eligible ticks, one finds the link told exactly what is advertised. |
| `Convergence.BacklogLength` | src/engine.rs:766-796 | With the advertised set standing still, the next eligible tick is quiet if and only if fifty times the eligible ticks so far have reached the longer of the two backlogs. |
| `Settling.ToldAllInTime` | src/engine.rs:301-345 | In milliseconds: with the advertised set standing still and ticks at most a period apart, once the clock has been read later than the time the link is first due plus, for every fifty ids of the longer backlog, the longest effective interval, a tenth of it and a period, the link has been told exactly what is advertised. |
| `History.FresherIffNews` | src/engine.rs:566-569 | The code's test against the one timestamp a hint holds is the test against everything reported since the hint was last absent. |
| `History.HintsExplained` | src/engine.rs:540-621 | In every reachable state, exactly the ids with a live log have a hint, and the hint is the first report in the log to reach its maximum: newest wins, the first link to say so is the source. |
| `History.CandidatesAreNews` | src/engine.rs:566-590 | A step surfaces as candidates exactly the entries of its batch that were news when they came up, in order. |
| `Newest.MoveCovers` | src/engine.rs:540-621 | When every live attribution has a hint at least as new, one entry, one dropped id, one mute or one teardown keeps it so if and only if it takes no hint from an id that another link still lists. |
| `Newest.StepByMoves` | src/engine.rs:179-345 | What an input does to the hints and to what every link lists is the sequence of those moves, and nothing else touches them. |
| `Newest.NewestWinsIffHarmless` | src/engine.rs:540-621 | In a run, hints are at every moment the newest of all live attributions, as section 9.2 of the DIG PEX protocol document has it, if and only if every move along the way is harmless in that sense. |
| `Newest.NewestBetweenInputs` | src/engine.rs:540-621 | For the states between inputs, which are what a host can observe: hints are the newest of all live attributions in every one of them if and only if, on every input, each id whose hint is taken away is either listed by no link in the end or brought in again by the rest of the batch, no older than any link lists it. |
| `Scenarios.HintLost` | src/engine.rs:237-242 | A run in which they are not: one link's report loses to a newer one of another, the other is torn down, and no hint is left although the first still lists the id. |
| `Attribution.JunkIsTransparent` | src/engine.rs:540-591 | A batch does exactly what it would do with every entry that fails validation left out. |
| `Attribution.CandidatesAreRecent` | src/engine.rs:550-583 | Every candidate is dated in [now - 1800, now], is about a third party, and came in on an unmuted link. |
| `Attribution.DropsAttributed` | src/engine.rs:595-621 | A drop list takes away exactly the ids it names, forgets a hint exactly where this link is its source, and reports each attributed id once, at its first mention. |
| `Attribution.FirstMentionsListed` | src/engine.rs:595-621 | The reported list holds exactly the attributed ids and has no duplicates. |
| `Attribution.DropsAlternate` | src/engine.rs:540-621 | Between any two reports that a link dropped an id, the link brought that id in again. |
| `World.SendsInOrder` | src/engine.rs:201-345 | Whatever an honest sender does, and whatever is forged at it, what it puts on the wire is in order: handshake, snapshot, deltas within caps, spaced by its declared interval, each moving its told ids by exactly what it carries. |
| `World.NextAccepted` | src/engine.rs:446-536 | A receiver in step takes the next message in order without an error or a violation. |
| `World.HonestSenderNeverStruck` | src/engine.rs:486-524 | Over every run of two participants and the wire between them, the receiver holds no strike against an honest sender and has not muted it if and only if every frame it delivered was within the bound; and a delivery within the bound draws neither an error nor a violation. |
| `World.ModestSenderNeverStruck` | src/engine.rs:766-796 | So a sender whose handshake fits and whose host keeps entries and ids to limits adding up to no more than 5240 bytes is never struck. |
| `Tally.StrikesCountOverlong` | src/engine.rs:282-293 | What such a sender is struck for, exactly: if its handshake fits, the receiver holds one strike for every over-bound frame delivered so far and has muted it if and only if there were three or more; each is reported as oversized, and whatever fits is taken without an error or a violation, losses before it or not. |
| `World.ReplicaAgrees` | src/engine.rs:540-621 | While frames are within the bound, what the receiver attributes to the sender is never more than the sender had told when it sent the last data message delivered, and exactly that while every entry was kept and told plus added stayed within 4096. |
| `World.QuietMeansAgreement` | src/engine.rs:301-345 | Once the sender has nothing to say on an eligible tick and no data is on its way, such a receiver attributes to it exactly what it advertises. |
| `World.DeltaTakenIffFloorPassed` | src/timer.rs:36-39 | What the delay assumption has to secure, exactly: the next delta in order is taken without a word if and only if the floor has gone by since the last data message arrived. |
| `World.SecondLinkUpDrawsStrike` | src/engine.rs:221-234 | The once-per-link assumption is needed: raising a live link again is not guarded against, and its handshake costs a strike. |

## Left out

- serde: JSON decoding, tolerant decoding of unknown tokens, and the text form on the relay wire; library behaviour. Encoding is taken to be the compact form that `Written` spells out.
- Framed decoding over an asynchronous reader: I/O.
- SHA-256, base64, the signature verifier and the standard hasher: uninterpreted functions.
- Entry.FingerprintCanonical: is about the field sequence fed to the hasher, not about its 64-bit value; two contents with colliding hashes count as told alike, as in the code.
- Payment.SigningBytesInjective: is stated for fields shorter than 2^32 bytes; a longer field's length saturates in the code and is out of reach behind the caps.
- The display form `fingerprint()` (src/entry.rs:303-318), which nothing in the engine uses. It joins with separators that fields may contain, so unlike the hashed stream it does not determine the content.
- 64-bit wrap-around of clocks and of the first-hand epoch, and 32-bit wrap-around of the strike counter: all are natural numbers here.
- The free-text part of an error message and the token strings of the error codes.
- Randomness of jitter: any value in its range.
- Builders, default values, read-only accessors, `Display`.
- Duties of the host: the address manager, the relay registry, closing streams, one stream per connection, honest provenance.
- Aliasing between a link's record and other references: the engine owns its records, and no method hands one out.
