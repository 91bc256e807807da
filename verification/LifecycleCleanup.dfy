/** Whether a cancelled upload is cleaned up: its cancel never ends without going on to the clean-up, and
    the clean-up stays within reach unless a thread is, or is bound to get, stuck. */
module LifecycleCleanup {
  import opened Protocol
  import opened UploadSpec
  import opened Lifecycle
  import opened LifecycleInv
  import opened LifecycleTimer
  import opened LifecycleChannel
  import LifecycleSteps
  import LifecycleSafety

  // ---------------------------------------------------------------- the duty of the winning cancel

  /** On the way from the state change to the removal from the pool. */
  predicate CleansUpNext(pc: Pc) {
    || pc == Cancelling(CFile) || pc == Cancelling(CPost)
    || pc == Cleaning(KLock) || pc == Cleaning(KCheck) || pc == Cleaning(KFile)
  }

  /** A cancel that has won is either on that way or the upload is out of the pool. */
  predicate DutyOK(s: Sys) {
    s.log.outcome.CancelWon? && s.log.outcome.winner in s.threads && s.log.poolRemoves == 0 ==>
      CleansUpNext(s.threads[s.log.outcome.winner].pc)
  }

  lemma DutyGoesOn(s: Sys, t: nat, ch: Choice)
    requires OutcomeOK(s) && LogOK(s) && t in s.threads && ThreadOK(s, t) && DutyOK(s)
    requires s.log.outcome == CancelWon(t)
    ensures DutyOK(ThreadStep(s, t, ch))
  {
  }

  /** A cancel wins by changing the state. */
  lemma DutyBegins(s: Sys, t: nat, ch: Choice)
    requires t in s.threads && !s.log.outcome.CancelWon?
    ensures var s' := ThreadStep(s, t, ch);
            s'.log.outcome.CancelWon? ==> s'.log.outcome == CancelWon(t) && s'.threads[t].pc == Cancelling(CFile)
  {
    if !s.threads[t].pc.Cancelling? {
      OthersWinNothing(s, t, ch);
    }
  }

  lemma OthersWinNothing(s: Sys, t: nat, ch: Choice)
    requires t in s.threads && !s.log.outcome.CancelWon? && !s.threads[t].pc.Cancelling?
    ensures !ThreadStep(s, t, ch).log.outcome.CancelWon?
  {
  }

  lemma RemovesNeverFall(s: Sys, t: nat, ch: Choice)
    requires t in s.threads
    ensures s.log.poolRemoves <= ThreadStep(s, t, ch).log.poolRemoves
  {
  }

  lemma ThreadKeepsDuty(s: Sys, t: nat, ch: Choice)
    requires Inv(s) && DutyOK(s) && t in s.threads
    ensures DutyOK(ThreadStep(s, t, ch))
  {
    assert ThreadOK(s, t);
    if !s.log.outcome.CancelWon? {
      DutyBegins(s, t, ch);
    } else if s.log.outcome == CancelWon(t) {
      DutyGoesOn(s, t, ch);
    } else {
      LifecycleSafety.ThreadLasting(s, t, ch);
      LifecycleSafety.OthersStayPut(s, t, ch, s.log.outcome.winner);
      RemovesNeverFall(s, t, ch);
    }
  }

  lemma StepKeepsDuty(s: Sys, e: Event)
    requires Inv(s) && DutyOK(s) && Enabled(s, e)
    ensures DutyOK(Apply(s, e))
  {
    if e.Runs? {
      ThreadKeepsDuty(s, e.t, e.ch);
    } else if s.log.outcome.CancelWon? {
      assert ThreadOK(s, s.log.outcome.winner);
    }
  }

  lemma {:induction false} RunKeepsDuty(s: Sys, es: seq<Event>)
    requires Inv(s) && DutyOK(s) && Lifecycle.Legal(s, es)
    ensures DutyOK(Lifecycle.Exec(s, es))
    decreases |es|
  {
    if es != [] {
      LifecycleSteps.StepKeeps(s, es[0]);
      StepKeepsDuty(s, es[0]);
      RunKeepsDuty(Apply(s, es[0]), es[1..]);
    }
  }

  lemma ReachableDuty(s: Sys)
    requires LifecycleSafety.Reachable(s)
    ensures DutyOK(s)
  {
    var id, dir, rm, es :|
      Lifecycle.Legal(InitialSys(id, dir, rm), es) && Lifecycle.Exec(InitialSys(id, dir, rm), es) == s;
    LifecycleInv.InitialInv(id, dir, rm);
    RunKeepsDuty(InitialSys(id, dir, rm), es);
  }

  /** Whoever cancels, a handler, the timeout or the app backend: as long as the upload is in the pool, the
      thread is on its way to taking it out. */
  lemma CancelGoesOnToCleanUp(s: Sys)
    requires LifecycleSafety.Reachable(s) && s.log.outcome.CancelWon? && s.log.poolRemoves == 0
    ensures s.log.outcome.winner in s.threads && CleansUpNext(s.threads[s.log.outcome.winner].pc)
  {
    ReachableDuty(s);
    LifecycleSafety.ReachableInv(s);
  }

  // ---------------------------------------------------------------- bound to get stuck

  /** The timer has fired, and the thread that has the lock will reset it before it lets go. */
  predicate BoundToStick(ts: Timed) {
    && ts.timer.Fired? && ts.s.log.timeoutCloses == 0 && ts.resetting.None?
    && (LockPc(ts.s) == Cancelling(CFile) || (LockPc(ts.s).Looping? && LockPc(ts.s).l.HPrepare?))
  }

  predicate Hopeless(ts: Timed) {
    Stuck(ts) || BoundToStick(ts)
  }

  /** An upload that is cancelled and still pooled. */
  predicate Pending(ts: Timed) {
    && TimedInv(ts) && DutyOK(ts.s)
    && ts.s.log.outcome.CancelWon? && ts.s.log.poolRemoves == 0
  }

  /** The thread that has the lock when it is bound to stick. */
  lemma BoundThreadSticks(ts: Timed, t: nat, ch: Choice)
    requires Pending(ts) && BoundToStick(ts) && ts.s.lock == Some(t) && Possible(ts, Steps(Runs(t, ch)))
    ensures var ts' := Happens(ts, Steps(Runs(t, ch)));
            Stuck(ts') && ts'.s.log.poolRemoves == 0 && ts'.s.log.outcome == ts.s.log.outcome
  {
    assert ThreadOK(ts.s, t);
  }

  lemma BoundOthersWait(ts: Timed, t: nat, ch: Choice)
    requires Pending(ts) && BoundToStick(ts) && ts.s.lock != Some(t) && Possible(ts, Steps(Runs(t, ch)))
    ensures var ts' := Happens(ts, Steps(Runs(t, ch)));
            BoundToStick(ts') && ts'.s.log.poolRemoves == 0 && ts'.s.log.outcome == ts.s.log.outcome
  {
    assert ThreadOK(ts.s, t) && ThreadOK(ts.s, ts.s.lock.value);
    UnlockedLog(ts.s, t, ch);
    LifecycleSafety.OthersStayPut(ts.s, t, ch, ts.s.lock.value);
    LifecycleSafety.ThreadLasting(ts.s, t, ch);
    LockWaits(ts, t, ch);
  }

  lemma LockWaits(ts: Timed, t: nat, ch: Choice)
    requires t in ts.s.threads && ts.s.lock.Some? && ts.s.lock != Some(t) && !ts.s.threads[t].pc.Locked()
    ensures ThreadStep(ts.s, t, ch).lock == ts.s.lock && !EndsInReset(ts.s, ThreadStep(ts.s, t, ch), t)
  {
  }

  lemma HopelessStep(ts: Timed, e: TimedEvent)
    requires Pending(ts) && Hopeless(ts) && Possible(ts, e)
    ensures Hopeless(Happens(ts, e)) && Pending(Happens(ts, e))
  {
    HappensKeeps(ts, e);
    if Stuck(ts) {
      StuckStep(ts, e);
      DutyLasts(ts, e);
    } else {
      assert ThreadOK(ts.s, ts.s.lock.value);
      DutyLasts(ts, e);
      if e.Steps? && e.e.Runs? {
        if ts.s.lock == Some(e.e.t) {
          BoundThreadSticks(ts, e.e.t, e.e.ch);
        } else {
          BoundOthersWait(ts, e.e.t, e.e.ch);
        }
      }
    }
  }

  /** A won cancel stays won, and its duty stays. */
  lemma DutyLasts(ts: Timed, e: TimedEvent)
    requires TimedInv(ts) && DutyOK(ts.s) && Possible(ts, e) && ts.s.log.outcome.CancelWon?
    ensures DutyOK(Happens(ts, e).s) && Happens(ts, e).s.log.outcome == ts.s.log.outcome
  {
    match e
    case Steps(e1) =>
      StepKeepsDuty(ts.s, e1);
      LifecycleSafety.StepLasting(ts.s, e1);
    case TimerLocks(t) => StepKeepsDuty(ts.s, Arrives(t, Timeout));
    case _ =>
  }

  lemma {:induction false} HopelessLasts(ts: Timed, es: seq<TimedEvent>)
    requires Pending(ts) && Hopeless(ts) && LegalTimed(ts, es)
    ensures ExecTimed(ts, es).s.log.poolRemoves == 0
    decreases |es|
  {
    if es != [] {
      HopelessStep(ts, es[0]);
      HopelessLasts(Happens(ts, es[0]), es[1..]);
    }
  }

  // ---------------------------------------------------------------- otherwise within reach

  function WinnerPc(s: Sys): Pc {
    if s.log.outcome.CancelWon? && s.log.outcome.winner in s.threads then s.threads[s.log.outcome.winner].pc else Gone
  }

  function CleanRank(pc: Pc): nat {
    if pc == Cancelling(CFile) then 5
    else if pc == Cancelling(CPost) then 4
    else if pc == Cleaning(KLock) then 3
    else if pc == Cleaning(KCheck) then 2
    else if pc == Cleaning(KFile) then 1
    else 0
  }

  function WinnerRank(ts: Timed): nat {
    2 * CleanRank(WinnerPc(ts.s))
    + (if ts.s.log.outcome.CancelWon? && ts.s.log.outcome.winner in ts.due then 1 else 0)
  }

  function WaitRank(ts: Timed): nat {
    2 * LockRank(ts.s) + ResetRank(ts)
  }

  /** One step nearer to the removal from the pool, without getting stuck. */
  predicate Cleaner(ts: Timed, ts': Timed) {
    && !Hopeless(ts') && ts'.s.log.outcome == ts.s.log.outcome
    && (ts'.s.log.poolRemoves == 1
        || FiredRank(ts') < FiredRank(ts)
        || (FiredRank(ts') == FiredRank(ts) && WinnerRank(ts') < WinnerRank(ts))
        || (FiredRank(ts') == FiredRank(ts) && WinnerRank(ts') == WinnerRank(ts) && WaitRank(ts') < WaitRank(ts)))
  }

  lemma AnyHolderAdvances(s: Sys, t: nat)
    requires s.lock == Some(t) && t in s.threads && s.threads[t].pc.Locked()
    ensures LockRank(ThreadStep(s, t, SomeChoice())) < LockRank(s)
    ensures ThreadStep(s, t, SomeChoice()).lock.Some? ==> ThreadStep(s, t, SomeChoice()).lock == Some(t)
  {
  }

  /** Who has the lock of a cancelled upload and is not bound to stick lets go of it, in the end. */
  lemma HolderStaysHopeful(ts: Timed, t: nat)
    requires Pending(ts) && !Hopeless(ts) && ts.s.lock == Some(t) && t in ts.s.threads && ts.s.threads[t].pc.Locked()
    requires ts.timer.Fired?
    ensures var s' := ThreadStep(ts.s, t, SomeChoice());
            && !EndsInReset(ts.s, s', t) && LockPc(s') != Cancelling(CFile)
            && !(LockPc(s').Looping? && LockPc(s').l.HPrepare?)
  {
    assert ThreadOK(ts.s, t);
  }

  lemma HolderCleaner(ts: Timed) returns (e: TimedEvent)
    requires Pending(ts) && !Hopeless(ts) && ts.s.lock.Some? && ts.s.lock != Some(ts.s.log.outcome.winner)
    ensures Possible(ts, e) && Cleaner(ts, Happens(ts, e))
  {
    var t := ts.s.lock.value;
    assert ThreadOK(ts.s, t) && ThreadOK(ts.s, ts.s.log.outcome.winner);
    AnyHolderAdvances(ts.s, t);
    LifecycleSafety.OthersStayPut(ts.s, t, SomeChoice(), ts.s.log.outcome.winner);
    LifecycleSafety.ThreadLasting(ts.s, t, SomeChoice());
    OwesNothing(ts.s, t, SomeChoice());
    if ts.timer.Fired? {
      HolderStaysHopeful(ts, t);
    }
    e := Steps(Runs(t, SomeChoice()));
  }

  lemma OwesNothing(s: Sys, t: nat, ch: Choice)
    requires t in s.threads && s.threads[t].pc.Locked()
    ensures Owes(s, ThreadStep(s, t, ch), t) == {} && ThreadStep(s, t, ch).routine == s.routine
  {
  }

  lemma WinnerAdvances(s: Sys, t: nat)
    requires OutcomeOK(s) && LogOK(s) && t in s.threads && ThreadOK(s, t) && s.log.outcome == CancelWon(t)
    requires s.log.poolRemoves == 0 && CleansUpNext(s.threads[t].pc)
    requires s.lock.None? || s.lock == Some(t)
    ensures var s' := ThreadStep(s, t, SomeChoice());
            && s'.log.outcome == s.log.outcome
            && (s'.log.poolRemoves == 1 || CleanRank(WinnerPc(s')) < CleanRank(WinnerPc(s)))
            && (s.threads[t].pc != Cancelling(CFile) ==> !EndsInReset(s, s', t))
            && s'.log.timeoutCloses == s.log.timeoutCloses
            && LockPc(s') != Cancelling(CFile) && !LockPc(s').Looping?
  {
  }

  lemma WinnerCleaner(ts: Timed) returns (e: TimedEvent)
    requires Pending(ts) && !Hopeless(ts) && MayRun(ts, ts.s.log.outcome.winner)
    requires ts.resetting.None? && (ts.s.lock.None? || ts.s.lock == Some(ts.s.log.outcome.winner))
    ensures Possible(ts, e) && Cleaner(ts, Happens(ts, e))
  {
    var t := ts.s.log.outcome.winner;
    assert ThreadOK(ts.s, t);
    WinnerAdvances(ts.s, t);
    e := Steps(Runs(t, SomeChoice()));
  }

  lemma TimerCleaner(ts: Timed) returns (e: TimedEvent)
    requires Pending(ts) && !Hopeless(ts) && ts.timer.Fired? && Free(ts)
    ensures Possible(ts, e) && Cleaner(ts, Happens(ts, e))
  {
    var t := FreshThread(ts.s.threads);
    e := TimerLocks(t);
  }

  lemma NextCleaner(ts: Timed) returns (e: TimedEvent)
    requires Pending(ts) && !Hopeless(ts)
    ensures Possible(ts, e) && Cleaner(ts, Happens(ts, e))
  {
    var w := ts.s.log.outcome.winner;
    assert ThreadOK(ts.s, w);
    if ts.resetting.Some? {
      e := Resets;
    } else if ts.s.lock.Some? && ts.s.lock != Some(w) {
      e := HolderCleaner(ts);
    } else if ts.timer.Fired? && ts.s.lock.None? {
      e := TimerCleaner(ts);
    } else if w in ts.due {
      e := Touches(w);
    } else {
      e := WinnerCleaner(ts);
    }
  }

  lemma {:induction false} CanCleanUp(ts: Timed) returns (es: seq<TimedEvent>)
    requires Pending(ts) && !Hopeless(ts)
    ensures LegalTimed(ts, es) && ExecTimed(ts, es).s.log.poolRemoves == 1
    decreases FiredRank(ts), WinnerRank(ts), WaitRank(ts)
  {
    var e := NextCleaner(ts);
    HappensKeeps(ts, e);
    DutyLasts(ts, e);
    var ts1 := Happens(ts, e);
    var rest: seq<TimedEvent> := [];
    if ts1.s.log.poolRemoves == 0 {
      rest := CanCleanUp(ts1);
    }
    es := [e] + rest;
    assert es[1..] == rest;
  }

  /** A cancelled upload that is still in the pool can still be cleaned up and leave it, if and only if no
      thread is stuck in resetting a timer that has fired, or bound to be. */
  lemma CleanUpExactly(ts: Timed)
    requires ReachableTimed(ts) && ts.s.log.outcome.CancelWon? && ts.s.log.poolRemoves == 0
    ensures (exists es :: LegalTimed(ts, es) && ExecTimed(ts, es).s.log.poolRemoves == 1)
            <==> !(Stuck(ts) || BoundToStick(ts))
  {
    ReachableProjects(ts);
    ReachableDuty(ts.s);
    if Hopeless(ts) {
      forall es | LegalTimed(ts, es) ensures ExecTimed(ts, es).s.log.poolRemoves == 0 {
        HopelessLasts(ts, es);
      }
    } else {
      var es := CanCleanUp(ts);
    }
  }
}
