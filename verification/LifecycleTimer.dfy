/** The idle timer on top of Lifecycle.dfy. A critical section that counts as activity ends by resetting
    the timer, still holding the uploader's lock: it hands the new duration to the timeout routine. That
    routine takes it only while it listens; once the timer has fired it waits for the lock itself. The
    timer only takes behaviour away, so what Lifecycle.dfy guarantees holds here too. */
module LifecycleTimer {
  import opened Protocol
  import opened UploadSpec
  import opened Lifecycle
  import opened LifecycleInv
  import LifecycleSteps
  import LifecycleSafety

  /** The timeout routine listens; or its timer has fired and it waits for the lock; or it has had the
      lock and switched resets off. */
  datatype Timer = Listening | Fired | Off

  /** `resetting` is the thread that is about to reset the timer, holding the lock; the threads in `due`
      have to take the lock once more, only for a reset, before they go on. */
  datatype Timed = Timed(s: Sys, timer: Timer, resetting: Option<nat>, due: set<nat>)

  datatype TimedEvent =
    | Steps(e: Event)
    | Touches(t: nat)      // a thread takes the lock for the reset it owes
    | Resets               // the reset under way gets through
    | Fires
    | TimerLocks(t: nat)   // the timeout routine gets the lock and goes on to cancel, as thread t

  /** Whether a step only waits while another thread has the lock. */
  predicate TakesLock(pc: Pc) {
    match pc
    case Opening(o) => o.HBind? || o.HSize? || o.HUnbind?
    case Looping(l) => l.HLoop? || l.HConsume?
    case Pausing(p) => p.HPause?
    case Cancelling(c) => c.CLock?
    case Cleaning(k) => k.KLock?
    case _ => false
  }

  /** Whether the step of thread `t` ends a critical section that resets the timer. */
  predicate EndsInReset(s: Sys, s': Sys, t: nat)
    requires t in s.threads && t in s'.threads
  {
    var pc, pc' := s.threads[t].pc, s'.threads[t].pc;
    match pc
    case Opening(o) =>
      (o.HBind? && pc' == Opening(HState)) || (o.HUnbind? && pc'.Gone?)
      || (o.HSize? && o.seen.Init? && pc'.Opening? && pc'.o.HHandshake?)
    case Looping(l) => l.HStore? || (l.HPrepare? && pc' == Looping(HFailed))
    case Pausing(p) => p.HPauseClose?
    case Cancelling(c) => c.CFile?
    case _ => false
  }

  /** Who owes a reset of its own after the step of thread `t`: a handler for the file's name, the
      handover routine before and after its request, a cancelling thread after its request. */
  function Owes(s: Sys, s': Sys, t: nat): set<nat>
    requires t in s.threads && t in s'.threads
  {
    var pc, pc' := s.threads[t].pc, s'.threads[t].pc;
    if pc.Opening? && pc.o.HSize? && pc.o.seen.Init? && pc'.Opening? && pc'.o.HHandshake? then {t}
    else if pc == HandingOff(GPost) || pc == Cancelling(CPost) then {t}
    else if s'.routine != s.routine && s'.routine.Some? then {s'.routine.value}
    else {}
  }

  function Initially(id: string, dir: string, removeWhenFinished: bool): Timed {
    Timed(InitialSys(id, dir, removeWhenFinished), Listening, None, {})
  }

  predicate Free(ts: Timed) {
    ts.s.lock.None? && ts.resetting.None?
  }

  /** A reset gets through unless the timer has fired: the routine takes the new duration, or resets are
      off, or the channel that stops the routine is closed. */
  predicate ResetPasses(ts: Timed) {
    !ts.timer.Fired? || ts.s.log.timeoutCloses > 0
  }

  /** A thread goes on if it neither owes a reset nor is held up in one. */
  predicate MayRun(ts: Timed, t: nat) {
    ts.resetting != Some(t) && t !in ts.due
  }

  predicate Possible(ts: Timed, e: TimedEvent) {
    match e
    case Steps(e1) =>
      Enabled(ts.s, e1)
      && (match e1
          case Arrives(t, role) => !role.Timeout?
          case Runs(t, ch) => MayRun(ts, t) && (TakesLock(ts.s.threads[t].pc) ==> ts.resetting.None?)
          case Confirms(f, g) => MayRun(ts, f) && MayRun(ts, g)
          case Tells(g, h) => MayRun(ts, g) && MayRun(ts, h))
    case Touches(t) => t in ts.due && Free(ts)
    case Resets => ts.resetting.Some? && ResetPasses(ts)
    case Fires => ts.timer.Listening?
    case TimerLocks(t) => ts.timer.Fired? && Free(ts) && t !in ts.s.threads
  }

  /** A thread that runs may end up resetting or owing a reset; a confirmed routine owes one. */
  function Stepped(ts: Timed, e: Event): Timed
    requires Enabled(ts.s, e)
  {
    var s' := Apply(ts.s, e);
    match e
    case Arrives(t, role) => ts.(s := s')
    case Runs(t, ch) =>
      Timed(s', ts.timer, if EndsInReset(ts.s, s', t) then Some(t) else ts.resetting, ts.due + Owes(ts.s, s', t))
    case Confirms(f, g) => ts.(s := s', due := ts.due + {g})
    case Tells(g, h) => ts.(s := s')
  }

  /** Setting the file's name is refused, without a reset, once the upload has left Init. */
  predicate NoLongerNamed(s: Sys, t: nat) {
    t in s.threads && s.threads[t].pc.Opening? && !s.w.up.state.Init?
  }

  function Happens(ts: Timed, e: TimedEvent): Timed
    requires Possible(ts, e)
  {
    match e
    case Steps(e1) => Stepped(ts, e1)
    case Touches(t) => ts.(due := ts.due - {t}, resetting := if NoLongerNamed(ts.s, t) then None else Some(t))
    case Resets => ts.(resetting := None)
    case Fires => ts.(timer := Fired)
    case TimerLocks(t) => ts.(timer := Off, s := Apply(ts.s, Arrives(t, Timeout)))
  }

  predicate LegalTimed(ts: Timed, es: seq<TimedEvent>)
    decreases |es|
  {
    es == [] || (Possible(ts, es[0]) && LegalTimed(Happens(ts, es[0]), es[1..]))
  }

  function ExecTimed(ts: Timed, es: seq<TimedEvent>): Timed
    requires LegalTimed(ts, es)
    decreases |es|
  {
    if es == [] then ts else ExecTimed(Happens(ts, es[0]), es[1..])
  }

  // ---------------------------------------------------------------- the invariant

  /** Who owes a reset neither has the lock nor is gone, and no other thread has the lock while one is
      resetting; the last reset of a handler comes when it has unbound. */
  predicate TimedOK(ts: Timed) {
    && (ts.resetting.Some? ==>
          && ts.s.lock.None? && ts.resetting.value in ts.s.threads
          && (ts.s.threads[ts.resetting.value].pc.Gone? ==> ts.s.threads[ts.resetting.value].role.Handler?))
    && (forall t :: t in ts.due ==> t in ts.s.threads && !ts.s.threads[t].pc.Locked() && !ts.s.threads[t].pc.Gone?)
  }

  predicate TimedInv(ts: Timed) {
    Inv(ts.s) && TimedOK(ts)
  }

  /** A step that ends in a reset leaves the lock to it, and who comes to owe a reset may do so. */
  lemma ResetHasLock(s: Sys, t: nat, ch: Choice)
    requires t in s.threads && (s.threads[t].pc.Locked() <==> s.lock == Some(t))
    ensures var s' := ThreadStep(s, t, ch);
            && (EndsInReset(s, s', t) ==> s'.lock.None?)
            && s'.threads[t].role == s.threads[t].role
            && (EndsInReset(s, s', t) && s'.threads[t].pc.Gone? ==>
                  s.threads[t].pc.Opening? || s.threads[t].role.FinishRequest?)
  {
  }

  lemma OwesFits(s: Sys, t: nat, ch: Choice, u: nat)
    requires t in s.threads && (s.routine.Some? ==> s.routine.value in s.threads)
    requires s.threads[t].pc == Cancelling(CPost) ==> s.threads[t].role.Tells()
    requires var s' := ThreadStep(s, t, ch); t in s'.threads && u in Owes(s, s', t)
    ensures var s' := ThreadStep(s, t, ch);
            u in s'.threads && !s'.threads[u].pc.Locked() && !s'.threads[u].pc.Gone?
  {
  }

  /** While a thread resets, nobody else takes the lock. */
  lemma LockStaysFree(ts: Timed, t: nat, ch: Choice)
    requires TimedInv(ts) && Possible(ts, Steps(Runs(t, ch))) && ts.resetting.Some?
    ensures ThreadStep(ts.s, t, ch).lock.None?
  {
    assert ThreadOK(ts.s, t);
  }

  lemma RunKeepsTimed(ts: Timed, t: nat, ch: Choice)
    requires TimedInv(ts) && Possible(ts, Steps(Runs(t, ch)))
    ensures TimedOK(Stepped(ts, Runs(t, ch)))
  {
    var s, ts' := ts.s, Stepped(ts, Runs(t, ch));
    assert ThreadOK(s, t);
    ResetHasLock(s, t, ch);
    if ts.resetting.Some? {
      LockStaysFree(ts, t, ch);
      LifecycleSafety.OthersStayPut(s, t, ch, ts.resetting.value);
    }
    forall u | u in ts'.due
      ensures u in ts'.s.threads && !ts'.s.threads[u].pc.Locked() && !ts'.s.threads[u].pc.Gone?
    {
      if u in ts.due {
        LifecycleSafety.OthersStayPut(s, t, ch, u);
      } else {
        OwesFits(s, t, ch, u);
      }
    }
  }

  lemma ArrivalKeepsTimed(ts: Timed, e: Event)
    requires TimedOK(ts) && Possible(ts, Steps(e)) && e.Arrives?
    ensures TimedOK(Stepped(ts, e))
  {
  }

  lemma MeetingKeepsTimed(ts: Timed, e: Event)
    requires TimedOK(ts) && Possible(ts, Steps(e)) && (e.Confirms? || e.Tells?)
    ensures TimedOK(Stepped(ts, e))
  {
  }

  lemma HappensKeeps(ts: Timed, e: TimedEvent)
    requires TimedInv(ts) && Possible(ts, e)
    ensures TimedInv(Happens(ts, e))
  {
    match e
    case Steps(e1) =>
      LifecycleSteps.StepKeeps(ts.s, e1);
      if e1.Runs? {
        RunKeepsTimed(ts, e1.t, e1.ch);
      } else if e1.Arrives? {
        ArrivalKeepsTimed(ts, e1);
      } else {
        MeetingKeepsTimed(ts, e1);
      }
    case TimerLocks(t) => LifecycleSteps.StepKeeps(ts.s, Arrives(t, Timeout));
    case _ =>
  }

  // ---------------------------------------------------------------- it is the same life cycle

  /** Leaving the timer out, every run is one of Lifecycle.dfy. */
  lemma {:induction false} Projects(ts: Timed, es: seq<TimedEvent>) returns (es1: seq<Event>)
    requires LegalTimed(ts, es)
    ensures Lifecycle.Legal(ts.s, es1) && Lifecycle.Exec(ts.s, es1) == ExecTimed(ts, es).s
    decreases |es|
  {
    if es == [] {
      es1 := [];
    } else {
      var rest := Projects(Happens(ts, es[0]), es[1..]);
      es1 := Inner(ts, es[0]) + rest;
      assert es1 == rest || (es1[1..] == rest && es1[0] == Inner(ts, es[0])[0]);
    }
  }

  function Inner(ts: Timed, e: TimedEvent): seq<Event> {
    match e
    case Steps(e1) => [e1]
    case TimerLocks(t) => [Arrives(t, Timeout)]
    case _ => []
  }

  ghost predicate ReachableTimed(ts: Timed) {
    exists id, dir, rm, es :: LegalTimed(Initially(id, dir, rm), es) && ExecTimed(Initially(id, dir, rm), es) == ts
  }

  lemma {:induction false} TimedRunKeeps(ts: Timed, es: seq<TimedEvent>)
    requires TimedInv(ts) && LegalTimed(ts, es)
    ensures TimedInv(ExecTimed(ts, es))
    decreases |es|
  {
    if es != [] {
      HappensKeeps(ts, es[0]);
      TimedRunKeeps(Happens(ts, es[0]), es[1..]);
    }
  }

  /** So everything proved of the states that Lifecycle.dfy reaches holds of those reached with a timer. */
  lemma ReachableProjects(ts: Timed)
    requires ReachableTimed(ts)
    ensures TimedInv(ts) && LifecycleSafety.Reachable(ts.s)
  {
    var id, dir, rm, es :| LegalTimed(Initially(id, dir, rm), es) && ExecTimed(Initially(id, dir, rm), es) == ts;
    LifecycleInv.InitialInv(id, dir, rm);
    TimedRunKeeps(Initially(id, dir, rm), es);
    var es1 := Projects(Initially(id, dir, rm), es);
  }
}
