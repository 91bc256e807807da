/** When the channel that a handler waits on can be closed: unless the upload was cancelled before the
    handover was claimed, or a thread is stuck in resetting a timer that has fired and the handover
    routine still needs the lock that thread holds. */
module LifecycleChannel {
  import opened Protocol
  import opened UploadSpec
  import opened Lifecycle
  import opened LifecycleInv
  import opened LifecycleTimer
  import LifecycleSafety

  // ---------------------------------------------------------------- stuck for ever

  /** A thread resets the timer while the timeout routine, its timer fired, waits for the lock the thread
      holds. */
  predicate Stuck(ts: Timed) {
    ts.resetting.Some? && !ResetPasses(ts)
  }

  /** The handover routine cannot close its channel without the lock: it owes a reset or is held up in
      one, or will owe one, or has to call Cancel. */
  predicate NeedsLock(ts: Timed) {
    && ts.s.routine.Some?
    && (!MayRun(ts, ts.s.routine.value)
        || RoutinePc(ts.s) == HandingOff(GPost) || RoutinePc(ts.s) == HandingOff(GWait)
        || RoutinePc(ts.s) == HandingOff(GSettle(false)) || RoutinePc(ts.s).Cancelling?)
  }

  /** Without the lock a thread neither stores nor removes anything. */
  lemma UnlockedData(s: Sys, t: nat, ch: Choice)
    requires t in s.threads && !s.threads[t].pc.Locked()
    ensures var s' := ThreadStep(s, t, ch); s'.w.up.filePos == s.w.up.filePos && s'.w.files == s.w.files
  {
  }

  lemma UnlockedLog(s: Sys, t: nat, ch: Choice)
    requires t in s.threads && !s.threads[t].pc.Locked()
    ensures var s' := ThreadStep(s, t, ch);
            s'.log.poolRemoves == s.log.poolRemoves && s'.log.timeoutCloses == s.log.timeoutCloses
  {
  }

  lemma NoReset(ts: Timed, t: nat, ch: Choice)
    requires t in ts.s.threads && !ts.s.threads[t].pc.Locked() && !TakesLock(ts.s.threads[t].pc)
    ensures !EndsInReset(ts.s, ThreadStep(ts.s, t, ch), t)
  {
  }

  /** A thread that runs while another is stuck neither takes the lock nor cleans up. */
  lemma StuckRun(ts: Timed, t: nat, ch: Choice)
    requires TimedInv(ts) && Stuck(ts) && Possible(ts, Steps(Runs(t, ch)))
    ensures var ts' := Happens(ts, Steps(Runs(t, ch)));
            && ts'.resetting == ts.resetting && ts'.timer == ts.timer && ts'.s.log.poolRemoves == ts.s.log.poolRemoves
            && ts'.s.log.timeoutCloses == ts.s.log.timeoutCloses && ts'.s.w.up.filePos == ts.s.w.up.filePos
            && ts'.s.w.files == ts.s.w.files
  {
    assert ThreadOK(ts.s, t);
    UnlockedData(ts.s, t, ch);
    UnlockedLog(ts.s, t, ch);
    NoReset(ts, t, ch);
  }

  lemma StuckStep(ts: Timed, e: TimedEvent)
    requires TimedInv(ts) && Stuck(ts) && Possible(ts, e)
    ensures var ts' := Happens(ts, e);
            && ts'.resetting == ts.resetting && ts'.timer == ts.timer && ts'.s.log.poolRemoves == ts.s.log.poolRemoves
            && ts'.s.log.timeoutCloses == ts.s.log.timeoutCloses && ts'.s.w.up.filePos == ts.s.w.up.filePos
            && ts'.s.w.files == ts.s.w.files
  {
    if e.Steps? && e.e.Runs? {
      StuckRun(ts, e.e.t, e.e.ch);
    }
  }

  lemma {:induction false} StuckLasts(ts: Timed, es: seq<TimedEvent>)
    requires TimedInv(ts) && Stuck(ts) && LegalTimed(ts, es)
    ensures var ts' := ExecTimed(ts, es);
            && TimedInv(ts') && Stuck(ts') && ts'.resetting == ts.resetting
            && ts'.s.log.poolRemoves == ts.s.log.poolRemoves && ts'.s.w.files == ts.s.w.files
            && ts'.s.w.up.filePos == ts.s.w.up.filePos
    decreases |es|
  {
    if es != [] {
      StuckStep(ts, es[0]);
      HappensKeeps(ts, es[0]);
      StuckLasts(Happens(ts, es[0]), es[1..]);
    }
  }

  /** Whatever any thread does, a stuck thread stays stuck: from then on the upload stores nothing, its
      file is not removed, and it never leaves the pool. */
  lemma StuckForEver(ts: Timed, es: seq<TimedEvent>)
    requires ReachableTimed(ts) && Stuck(ts) && LegalTimed(ts, es)
    ensures var ts' := ExecTimed(ts, es);
            && Stuck(ts') && ts'.resetting == ts.resetting
            && ts'.s.log.poolRemoves == ts.s.log.poolRemoves && ts'.s.w.files == ts.s.w.files
            && ts'.s.w.up.filePos == ts.s.w.up.filePos
  {
    ReachableProjects(ts);
    StuckLasts(ts, es);
  }

  lemma RoutineStaysShut(ts: Timed, t: nat, ch: Choice)
    requires TimedInv(ts) && Stuck(ts) && NeedsLock(ts) && Possible(ts, Steps(Runs(t, ch)))
    ensures NeedsLock(Happens(ts, Steps(Runs(t, ch))))
  {
    var r := ts.s.routine.value;
    assert ThreadOK(ts.s, t) && ThreadOK(ts.s, r);
    if t != r {
      LifecycleSafety.OthersStayPut(ts.s, t, ch, r);
      RoutineFixed(ts.s, t, ch);
      StuckRun(ts, t, ch);
    }
  }

  lemma RoutineFixed(s: Sys, t: nat, ch: Choice)
    requires t in s.threads && s.routine.Some? && (s.log.outcome.Undecided? ==> s.routine.None?)
    requires s.threads[t].pc == Closing(HHandover) ==> !s.w.up.state.Receiving()
    ensures ThreadStep(s, t, ch).routine == s.routine
  {
  }

  lemma ShutStep(ts: Timed, e: TimedEvent)
    requires TimedInv(ts) && Stuck(ts) && NeedsLock(ts) && Possible(ts, e)
    ensures NeedsLock(Happens(ts, e))
  {
    if e.Steps? && e.e.Runs? {
      RoutineStaysShut(ts, e.e.t, e.e.ch);
    }
  }

  lemma {:induction false} ShutLasts(ts: Timed, es: seq<TimedEvent>)
    requires TimedInv(ts) && Stuck(ts) && NeedsLock(ts) && LegalTimed(ts, es)
    ensures ExecTimed(ts, es).s.log.chanCloses == 0
    decreases |es|
  {
    if es == [] {
      assert ThreadOK(ts.s, ts.s.routine.value);
    } else {
      StuckStep(ts, es[0]);
      ShutStep(ts, es[0]);
      HappensKeeps(ts, es[0]);
      ShutLasts(Happens(ts, es[0]), es[1..]);
    }
  }

  /** What counts as activity resets the timer before the lock is released: binding and unbinding, storing
      a chunk, closing the handle of a paused or cancelled upload. If the timer has fired by then, the
      thread is stuck. */
  lemma ActivityResets(ts: Timed, t: nat, ch: Choice)
    requires Possible(ts, Steps(Runs(t, ch)))
    ensures var up, up' := ts.s.w.up, Happens(ts, Steps(Runs(t, ch))).s.w.up;
            || up'.bound != up.bound || up'.filePos != up.filePos
            || ts.s.threads[t].pc == Pausing(HPauseClose) || ts.s.threads[t].pc == Cancelling(CFile)
            ==> Happens(ts, Steps(Runs(t, ch))).resetting == Some(t)
    ensures Happens(ts, Steps(Runs(t, ch))).resetting == Some(t) && ts.timer.Fired? && ts.s.log.timeoutCloses == 0
            && Happens(ts, Steps(Runs(t, ch))).s.log.timeoutCloses == 0
            ==> Stuck(Happens(ts, Steps(Runs(t, ch))))
  {
  }

  // ---------------------------------------------------------------- otherwise within reach

  /** How many steps of its own the handover routine needs to close the channel. */
  function RoutineRank(pc: Pc): nat {
    match pc
    case HandingOff(g) =>
      (match g
       case GPost => 8
       case GReply => 7
       case GWait => 6
       case GSettle(ok) => 5
       case GSend(ok) => 2
       case GClose => 1)
    case Cancelling(c) => if c.CLock? then 4 else 3
    case _ => 0
  }

  /** How many steps at most the holder of the lock needs to release it. */
  function HolderRank(pc: Pc): nat {
    match pc
    case Looping(l) => if l.HPrepare? then 2 else 1
    case Pausing(p) => if p.HPauseState? then 2 else 1
    case Cancelling(c) => if c.CState? then 2 else 1
    case Cleaning(k) => if k.KCheck? then 4 else if k.KFile? then 3 else if k.KState? then 2 else 1
    case _ => 0
  }

  function LockRank(s: Sys): nat {
    if s.lock.Some? then 1 + HolderRank(LockPc(s)) else 0
  }

  /** The routine's own steps, and the resets it owes. */
  function OwnRank(ts: Timed): nat {
    2 * RoutineRank(RoutinePc(ts.s)) + (if ts.s.routine.Some? && ts.s.routine.value in ts.due then 1 else 0)
  }

  /** The app backend says "done", nobody waits any longer, the system does as it is told. */
  function SomeChoice(): Choice {
    Choice(0, FrameGone, IO(true, true, true, 0, true, true, true), Done, false, 0)
  }

  lemma RoutineAdvances(s: Sys, t: nat)
    requires OutcomeOK(s) && s.routine == Some(t) && t in s.threads && ThreadOK(s, t)
    requires !s.threads[t].pc.Gone? && !(s.threads[t].pc == Cancelling(CLock) && s.lock.Some?)
    ensures var s' := ThreadStep(s, t, SomeChoice());
            && s'.routine == s.routine && RoutineRank(RoutinePc(s')) < RoutineRank(RoutinePc(s))
            && !EndsInReset(s, s', t)
  {
  }

  lemma HolderAdvances(s: Sys, t: nat)
    requires s.lock == Some(t) && t in s.threads && s.threads[t].pc.Locked()
    requires s.routine != Some(t) && s.routine.Some? && s.routine.value in s.threads
    ensures var s' := ThreadStep(s, t, SomeChoice());
            s'.routine == s.routine && RoutinePc(s') == RoutinePc(s) && LockRank(s') < LockRank(s)
  {
  }

  /** Once the handover is claimed, nobody who has the lock resets the timer before releasing it. */
  lemma HolderDoesNotReset(s: Sys, t: nat)
    requires Inv(s) && s.routine.Some? && s.lock == Some(t) && t in s.threads
    ensures var s' := ThreadStep(s, t, SomeChoice()); !EndsInReset(s, s', t) && Owes(s, s', t) == {}
  {
    assert ThreadOK(s, t);
  }

  lemma {:induction false} FreshThread(m: map<nat, Thread>) returns (t: nat)
    ensures t !in m
  {
    var n := Bound(m.Keys);
    t := n;
  }

  lemma {:induction false} Bound(s: set<nat>) returns (n: nat)
    ensures forall x :: x in s ==> x < n
    decreases |s|
  {
    if s == {} {
      n := 0;
    } else {
      var x :| x in s;
      var m := Bound(s - {x});
      n := if x < m then m else x + 1;
      forall y | y in s ensures y < n {
        assert y == x || y in s - {x};
      }
    }
  }

  /** Not shut: no thread is stuck, or the routine does not need the lock any more. */
  predicate Open(ts: Timed) {
    ts.s.routine.Some? && !(Stuck(ts) && NeedsLock(ts))
  }

  function FiredRank(ts: Timed): nat {
    if ts.timer.Fired? then 1 else 0
  }

  function ResetRank(ts: Timed): nat {
    if ts.resetting.Some? then 1 else 0
  }

  predicate Nearer(ts: Timed, ts': Timed) {
    || FiredRank(ts') < FiredRank(ts)
    || (FiredRank(ts') == FiredRank(ts) && OwnRank(ts') < OwnRank(ts))
    || (FiredRank(ts') == FiredRank(ts) && OwnRank(ts') == OwnRank(ts) && ResetRank(ts') < ResetRank(ts))
    || (FiredRank(ts') == FiredRank(ts) && OwnRank(ts') == OwnRank(ts) && ResetRank(ts') == ResetRank(ts)
        && LockRank(ts'.s) < LockRank(ts.s))
  }

  /** The lock holder goes on. */
  lemma HolderNearer(ts: Timed) returns (e: TimedEvent)
    requires TimedInv(ts) && Open(ts) && ts.s.lock.Some? && ts.s.lock != ts.s.routine
    ensures Possible(ts, e) && Nearer(ts, Happens(ts, e)) && Open(Happens(ts, e))
  {
    var t := ts.s.lock.value;
    assert ThreadOK(ts.s, t) && ThreadOK(ts.s, ts.s.routine.value);
    HolderAdvances(ts.s, t);
    HolderDoesNotReset(ts.s, t);
    e := Steps(Runs(t, SomeChoice()));
  }

  /** The routine goes on. */
  lemma RoutineNearer(ts: Timed) returns (e: TimedEvent)
    requires TimedInv(ts) && Open(ts) && !RoutinePc(ts.s).Gone? && MayRun(ts, ts.s.routine.value)
    requires RoutinePc(ts.s) == Cancelling(CLock) ==> Free(ts)
    ensures Possible(ts, e) && Nearer(ts, Happens(ts, e)) && Open(Happens(ts, e))
  {
    var t := ts.s.routine.value;
    assert ThreadOK(ts.s, t);
    RoutineAdvances(ts.s, t);
    e := Steps(Runs(t, SomeChoice()));
  }

  /** The next step towards closing the channel. */
  lemma NextStep(ts: Timed) returns (e: TimedEvent)
    requires TimedInv(ts) && Open(ts) && !RoutinePc(ts.s).Gone?
    ensures Possible(ts, e) && Nearer(ts, Happens(ts, e)) && Open(Happens(ts, e))
  {
    assert ThreadOK(ts.s, ts.s.routine.value);
    if Stuck(ts) {
      e := RoutineNearer(ts);
    } else if ts.resetting.Some? {
      e := Resets;
    } else if ts.s.lock.Some? && ts.s.lock != ts.s.routine {
      e := HolderNearer(ts);
    } else if ts.timer.Fired? && ts.s.lock.None? {
      e := TimerNearer(ts);
    } else if ts.s.routine.value in ts.due {
      e := Touches(ts.s.routine.value);
    } else {
      e := RoutineNearer(ts);
    }
  }

  /** The timeout routine gets the lock. */
  lemma TimerNearer(ts: Timed) returns (e: TimedEvent)
    requires TimedInv(ts) && Open(ts) && ts.timer.Fired? && Free(ts)
    ensures Possible(ts, e) && Nearer(ts, Happens(ts, e)) && Open(Happens(ts, e))
  {
    var t := FreshThread(ts.s.threads);
    e := TimerLocks(t);
  }

  lemma {:induction false} CanClose(ts: Timed) returns (es: seq<TimedEvent>)
    requires TimedInv(ts) && Open(ts)
    ensures LegalTimed(ts, es) && ExecTimed(ts, es).s.log.chanCloses == 1
    decreases FiredRank(ts), OwnRank(ts), ResetRank(ts), LockRank(ts.s)
  {
    if RoutinePc(ts.s).Gone? {
      es := [];
    } else {
      var e := NextStep(ts);
      HappensKeeps(ts, e);
      var rest := CanClose(Happens(ts, e));
      es := [e] + rest;
      assert es[1..] == rest;
    }
  }

  // ---------------------------------------------------------------- exactly

  /** Once a cancel has won, the channel is never closed, and the app backend is never told to fetch the
      file, whether or not the file could be removed. */
  lemma CancelClosesNothing(s: Sys, es: seq<Event>)
    requires LifecycleSafety.Reachable(s) && Lifecycle.Legal(s, es) && s.log.outcome.CancelWon?
    ensures var s' := Lifecycle.Exec(s, es); s'.routine.None? && s'.log.chanCloses == 0 && s'.log.sentNo == 0
  {
    LifecycleSafety.ReachableInv(s);
    LifecycleSafety.RunLasting(s, es);
  }

  /** Once the handover is claimed, the channel can still be closed if and only if it is not the case that
      a thread is stuck and the routine still needs the lock. */
  lemma ClaimedHandoverCloses(ts: Timed)
    requires ReachableTimed(ts) && ts.s.routine.Some?
    ensures (exists es :: LegalTimed(ts, es) && ExecTimed(ts, es).s.log.chanCloses == 1)
            <==> !(Stuck(ts) && NeedsLock(ts))
  {
    ReachableProjects(ts);
    if Stuck(ts) && NeedsLock(ts) {
      forall es | LegalTimed(ts, es) ensures ExecTimed(ts, es).s.log.chanCloses == 0 {
        ShutLasts(ts, es);
      }
    } else {
      var es := CanClose(ts);
    }
  }

  /** As soon as the upload is no longer receiving, which a call of HandFileToApp brings about if nothing
      else has, the channel can still be closed if and only if it was not a cancel that ended it and no
      thread is stuck while the routine needs the lock. */
  lemma ChannelClosesExactly(ts: Timed)
    requires ReachableTimed(ts) && !ts.s.w.up.state.Receiving()
    ensures (exists es :: LegalTimed(ts, es) && ExecTimed(ts, es).s.log.chanCloses == 1)
            <==> !ts.s.log.outcome.CancelWon? && !(Stuck(ts) && NeedsLock(ts))
  {
    ReachableProjects(ts);
    if ts.s.log.outcome.CancelWon? {
      forall es | LegalTimed(ts, es) ensures ExecTimed(ts, es).s.log.chanCloses == 0 {
        var es1 := Projects(ts, es);
        CancelClosesNothing(ts.s, es1);
      }
    } else {
      ClaimedHandoverCloses(ts);
    }
  }
}
