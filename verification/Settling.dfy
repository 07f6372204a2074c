/** How long telling takes: the backlog counted in ticks and the spacing of deltas in milliseconds, put
    together. */
module Settling {
  import opened Basics
  import opened Caps
  import opened Advertise
  import opened State
  import opened Protocol
  import opened Invariant
  import opened Sides
  import opened Pacing
  import opened Convergence

  /** When the link is due, if its effective interval is `secs`. */
  function Due(l: Link, secs: nat): nat { l.lastDataSendMs.GetOr(0) + secs * 1000 + l.sendJitterMs }

  /** The clock at the last tick before step `n`. */
  function LastTick(run: Trace, m: nat, n: nat, since: nat): nat
    requires m <= n <= |run.inputs|
  {
    if n == m then since
    else if run.inputs[n - 1].DoTick? then run.inputs[n - 1].at
    else LastTick(run, m, n - 1, since)
  }

  /** Ticks come no more than `period` apart, the first that long after `since`. */
  ghost predicate TicksEvery(run: Trace, m: nat, n: nat, since: nat, period: nat)
    requires n <= |run.inputs|
  {
    forall i | m <= i < n && run.inputs[i].DoTick? :: run.inputs[i].at <= LastTick(run, m, i, since) + period
  }

  /** A steady session with the snapshot out, ticks at most `period` apart, and an effective interval of at
      most `secs`; an hour always is enough. */
  ghost predicate Timely(run: Trace, p: PeerId, m: nat, n: nat, adv: set<PeerId>, since: nat, period: nat, secs: nat) {
    && Steady(run, p, m, n, adv) && LinkAt(run, p, m).snapshotSent
    && TicksEvery(run, m, n, since, period)
    && forall i | m <= i < n :: Effective(LinkAt(run, p, i)) <= secs
  }

  lemma AnHourIsEnough(l: Link)
    ensures Effective(l) <= PEX_MAX_INTERVAL
  {
  }

  /** The deltas a backlog takes: fifty ids of the longer half at a time. */
  ghost function Rounds(s: Pex, p: PeerId, adv: set<PeerId>): nat {
    (Max(PendingOn(s, p, adv), StaleOn(s, p, adv)) + 49) / 50
  }

  /** From one round to the next: the interval, a tenth of it in jitter, and the wait for a tick. */
  function RoundMs(secs: nat, period: nat): nat { secs * 1100 + period }

  function Deadline(l: Link, rounds: nat, since: nat, period: nat, secs: nat): (t: nat)
    ensures t >= since
  {
    Max(since, Due(l, secs)) + rounds * RoundMs(secs, period)
  }

  /** The link is due, or the clock was read, by the start of round `k`. */
  ghost predicate OnSchedule(run: Trace, p: PeerId, m: nat, n: nat, since: nat, period: nat, secs: nat, k: nat)
    requires m <= n <= |run.inputs| < |run.states|
  {
    var start := Max(since, Due(LinkAt(run, p, m), secs)) + Times(k, RoundMs(secs, period));
    LastTick(run, m, n, since) <= start && Due(LinkAt(run, p, n), secs) <= start
  }

  lemma SnapshotStays(run: Trace, p: PeerId, m: nat, n: nat)
    requires Session(run, p, m, n) && LinkAt(run, p, m).snapshotSent
    ensures LinkAt(run, p, n).snapshotSent
  {
    hide Inv, Step, SenderMoves, SenderSends;
    if m < n {
      SnapshotStays(run, p, m, n - 1);
      RunStep(run, n);
      StepMovesSender(run.states[n - 1], run.inputs[n - 1], run.states[n], run.effects[n - 1], p);
    }
  }

  /** Only a delta moves the time a link is due, to its interval and jitter after the delta. */
  lemma DueMoves(run: Trace, p: PeerId, m: nat, n: nat, secs: nat)
    requires Session(run, p, m, n) && m < n && Effective(LinkAt(run, p, n - 1)) <= secs
    ensures if DeltaSent(run.effects[n - 1], run.inputs[n - 1], p)
            then Due(LinkAt(run, p, n), secs) <= run.inputs[n - 1].at + secs * 1100
            else Due(LinkAt(run, p, n), secs) == Due(LinkAt(run, p, n - 1), secs)
  {
    hide Inv, Step, SenderInv, Effective;
    SessionStep(run, p, m, n);
  }

  /** An eligible tick sends while there is a backlog. */
  lemma BusyRound(run: Trace, p: PeerId, m: nat, n: nat, adv: set<PeerId>)
    requires Steady(run, p, m, n, adv) && m < n && EligibleTick(run, p, n - 1)
    requires EligibleTicks(run, p, m, n - 1) < Rounds(run.states[m], p, adv)
    ensures DeltaSent(run.effects[n - 1], run.inputs[n - 1], p)
  {
    hide Inv, Tick, Eligible, PendingOn, StaleOn;
    BacklogAfter(run, p, m, n - 1, adv);
    RunStep(run, n);
    TickBacklog(run.states[n - 1], run.inputs[n - 1].at, run.states[n], run.effects[n - 1].sends, p);
  }

  lemma NextRound(k: nat, unit: nat)
    ensures Times(k + 1, unit) == Times(k, unit) + unit
  {
  }

  /** While there are rounds to go, every one starts on schedule. */
  lemma {:induction false} StaysOnSchedule(run: Trace, p: PeerId, m: nat, n: nat, adv: set<PeerId>,
                                           since: nat, period: nat, secs: nat)
    requires Timely(run, p, m, n, adv, since, period, secs)
    ensures EligibleTicks(run, p, m, n) <= Rounds(run.states[m], p, adv) ==>
              OnSchedule(run, p, m, n, since, period, secs, EligibleTicks(run, p, m, n))
  {
    hide Inv, Step, Rounds, Effective;
    if m < n {
      StaysOnSchedule(run, p, m, n - 1, adv, since, period, secs);
      ScheduleStep(run, p, m, n, adv, since, period, secs);
    }
  }

  lemma ScheduleStep(run: Trace, p: PeerId, m: nat, n: nat, adv: set<PeerId>, since: nat, period: nat, secs: nat)
    requires Timely(run, p, m, n, adv, since, period, secs) && m < n
    requires var k := EligibleTicks(run, p, m, n - 1);
             k <= Rounds(run.states[m], p, adv) ==> OnSchedule(run, p, m, n - 1, since, period, secs, k)
    ensures EligibleTicks(run, p, m, n) <= Rounds(run.states[m], p, adv) ==>
              OnSchedule(run, p, m, n, since, period, secs, EligibleTicks(run, p, m, n))
  {
    hide Inv, Step, Rounds, Effective, Times, DeltaSent;
    var k := EligibleTicks(run, p, m, n - 1);
    NextRound(k, RoundMs(secs, period));
    DueMoves(run, p, m, n, secs);
    if EligibleTick(run, p, n - 1) {
      if k < Rounds(run.states[m], p, adv) { BusyRound(run, p, m, n, adv); }
    } else {
      IdleStep(run, p, m, n, secs);
    }
  }

  lemma IdleStep(run: Trace, p: PeerId, m: nat, n: nat, secs: nat)
    requires Session(run, p, m, n) && m < n && LinkAt(run, p, m).snapshotSent && !EligibleTick(run, p, n - 1)
    requires Effective(LinkAt(run, p, n - 1)) <= secs
    ensures run.inputs[n - 1].DoTick? ==> run.inputs[n - 1].at < Due(LinkAt(run, p, n - 1), secs)
    ensures !DeltaSent(run.effects[n - 1], run.inputs[n - 1], p)
  {
    hide Inv, Effective, Step;
    SnapshotStays(run, p, m, n - 1);
    SessionStep(run, p, m, n);
  }

  /** The time by which everything has been told. Once the clock has been read later than the first round
      is due plus, for every fifty ids of the longer backlog, an effective interval, a tenth of it and one
      tick period, the link has been told exactly what is advertised on it. */
  lemma ToldAllInTime(run: Trace, p: PeerId, m: nat, n: nat, adv: set<PeerId>, since: nat, period: nat, secs: nat)
    requires Timely(run, p, m, n, adv, since, period, secs)
    requires LastTick(run, m, n, since)
           > Deadline(LinkAt(run, p, m), Rounds(run.states[m], p, adv), since, period, secs)
    ensures LinkAt(run, p, n).told == Fingerprints(run.states[n].cfg.Print(), run.states[n].known, adv)
  {
    hide Inv, Step, PendingOn, StaleOn, Effective, OnSchedule, Deadline;
    var k, rounds := EligibleTicks(run, p, m, n), Rounds(run.states[m], p, adv);
    StaysOnSchedule(run, p, m, n, adv, since, period, secs);
    if k <= rounds { PastSchedule(run, p, m, n, since, period, secs, k, rounds); }
    RoundsTaken(run, p, m, n, adv);
    NothingLeft(run, p, m, n, adv, since);
  }

  lemma PastSchedule(run: Trace, p: PeerId, m: nat, n: nat, since: nat, period: nat, secs: nat, k: nat, rounds: nat)
    requires m <= n <= |run.inputs| < |run.states| && k <= rounds
    requires LastTick(run, m, n, since) > Deadline(LinkAt(run, p, m), rounds, since, period, secs)
    ensures !OnSchedule(run, p, m, n, since, period, secs, k)
  {
    hide RoundMs, Due, LastTick;
    TimesIsProduct(k, RoundMs(secs, period));
    FewerRounds(k, rounds, RoundMs(secs, period));
  }

  lemma RoundsTaken(run: Trace, p: PeerId, m: nat, n: nat, adv: set<PeerId>)
    requires Steady(run, p, m, n, adv) && EligibleTicks(run, p, m, n) > Rounds(run.states[m], p, adv)
    ensures PendingOn(run.states[n], p, adv) == 0 && StaleOn(run.states[n], p, adv) == 0
  {
    hide Inv, PendingOn, StaleOn;
    BacklogAfter(run, p, m, n, adv);
  }

  lemma FewerRounds(k: nat, rounds: nat, unit: nat)
    requires k <= rounds
    ensures k * unit <= rounds * unit
  {
    assert (rounds - k) * unit >= 0;
  }

  lemma {:induction false} SomeTick(run: Trace, m: nat, n: nat, since: nat) returns (i: nat)
    requires m <= n <= |run.inputs| && LastTick(run, m, n, since) > since
    ensures m <= i < n && run.inputs[i].DoTick?
  {
    if run.inputs[n - 1].DoTick? { i := n - 1; } else { i := SomeTick(run, m, n - 1, since); }
  }

  lemma {:induction false} KnownStays(run: Trace, p: PeerId, m: nat, n: nat, adv: set<PeerId>)
    requires Steady(run, p, m, n, adv)
    ensures run.states[n].known == run.states[m].known && run.states[n].cfg == run.states[m].cfg
    ensures n > m ==> Keyed(run.states[n].known)
  {
    hide Inv, Step;
    if m < n {
      KnownStays(run, p, m, n - 1, adv);
      RunStep(run, n);
      StepFrame(run.states[n - 1], run.inputs[n - 1], run.states[n], run.effects[n - 1]);
    }
  }

  lemma NothingLeft(run: Trace, p: PeerId, m: nat, n: nat, adv: set<PeerId>, since: nat)
    requires Steady(run, p, m, n, adv) && LastTick(run, m, n, since) > since
    requires PendingOn(run.states[n], p, adv) == 0 && StaleOn(run.states[n], p, adv) == 0
    ensures LinkAt(run, p, n).told == Fingerprints(run.states[n].cfg.Print(), run.states[n].known, adv)
  {
    hide Inv, Step;
    var i := SomeTick(run, m, n, since);
    assert Steady(run, p, m, i, adv);
    KnownStays(run, p, m, n, adv);
    KnownStays(run, p, m, i, adv);
    assert adv == AdvertisedTo(run.states[i], p, run.inputs[i].at);
    assert adv <= run.states[n].known.Keys;
    ClearIffToldAll(run.states[n].cfg.Print(), run.states[n].known, adv, LinkAt(run, p, n).told);
  }
}
