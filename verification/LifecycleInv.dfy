/** The invariant of Lifecycle.dfy. Threads are told apart by three roles of which at most one thread
    has each: holding the lock, having bound the upload, being the handover routine. */
module LifecycleInv {
  import opened Protocol
  import opened UploadSpec
  import opened Lifecycle

  /** A thread is where its kind may be, and is known if it has one of the unique roles. */
  predicate ThreadOK(s: Sys, t: nat)
    requires t in s.threads
  {
    var th := s.threads[t];
    && (th.pc.Locked() <==> s.lock == Some(t))
    && (th.Bound() <==> s.binder == Some(t))
    && (th.role.HandoverRoutine? <==> s.routine == Some(t))
    && (th.pc == Cancelling(CFile) || th.pc == Cancelling(CPost) ==> s.log.outcome == CancelWon(t))
    && (th.pc == Cancelling(CPost) ==> th.role.Tells())
    && (th.pc.HandingOff? ==> th.role.HandoverRoutine?)
    && (th.pc.Finishing? ==> th.role.FinishRequest?)
    && (th.pc.Cancelling? ==> !th.role.FinishRequest?)
    && (th.pc.Cleaning? ==> !th.role.FinishRequest? && !th.role.HandoverRoutine?)
    && (th.pc.HandlerPart() ==> th.role.Handler?)
  }

  predicate RolesOK(s: Sys) {
    && (s.lock.Some? ==> s.lock.value in s.threads)
    && (s.binder.Some? ==> s.binder.value in s.threads)
    && (s.routine.Some? ==> s.routine.value in s.threads)
    && (s.log.outcome.CancelWon? ==> s.log.outcome.winner in s.threads)
    && (s.w.up.bound <==> s.binder.Some?)
  }

  function LockPc(s: Sys): Pc {
    if s.lock.Some? && s.lock.value in s.threads then s.threads[s.lock.value].pc else Gone
  }

  function BinderPc(s: Sys): Pc {
    if s.binder.Some? && s.binder.value in s.threads then s.threads[s.binder.value].pc else Gone
  }

  function RoutinePc(s: Sys): Pc {
    if s.routine.Some? && s.routine.value in s.threads then s.threads[s.routine.value].pc else Gone
  }

  /** Where the handover routine is once it has settled the outcome. */
  predicate AfterSettling(pc: Pc, ok: bool) {
    || pc == HandingOff(GSend(ok)) || pc == HandingOff(GClose) || pc.Gone?
    || (!ok && (pc == Cancelling(CLock) || pc == Cancelling(CState)))
  }

  /** The state tells how far the upload has got, and the routine's place agrees. */
  predicate OutcomeOK(s: Sys) {
    var state := s.w.up.state;
    && (s.routine.None? <==> s.log.outcome.Undecided? || s.log.outcome.CancelWon?)
    && match s.log.outcome
       case Undecided => state.Receiving()
       case CancelWon(winner) => state.Cancelled? || state.CleanedUp?
       case Handing => state.HandingOver?
                       && RoutinePc(s).HandingOff? && !RoutinePc(s).g.GSend? && !RoutinePc(s).g.GClose?
       case HandedOver => (state.Finished? || state.CleanedUp?) && AfterSettling(RoutinePc(s), true)
       case HandoverFailed => (state.Cancelled? || state.CleanedUp?) && AfterSettling(RoutinePc(s), false)
  }

  predicate GivingUp(s: Sys) {
    BinderPc(s) == Looping(HFailed) || BinderPc(s) == Cancelling(CLock) || BinderPc(s) == Cancelling(CState)
  }

  predicate Handed(o: Outcome) {
    o.Handing? || o.HandedOver? || o.HandoverFailed?
  }

  /** What the bound handler knows: while it stores chunks the file is incomplete, and once the file is
      handed over it is complete and no handler is storing or giving up. */
  predicate BinderOK(s: Sys) {
    && (BinderPc(s).Locked() ==> s.lock == s.binder)
    && (BinderPc(s).Storing() ==> s.w.up.filePos != s.w.up.fileSize)
    && (BinderPc(s) == Closing(HHandover) ==> s.w.up.filePos == s.w.up.fileSize)
    && ((BinderPc(s).Looping? && BinderPc(s).l.HStore?) ==> s.w.up.state.Uploading?)
    && (BinderPc(s) == Pausing(HPauseClose) ==> s.w.up.state.Paused?)
    && (Handed(s.log.outcome) ==>
          s.w.up.filePos == s.w.up.fileSize && !BinderPc(s).Storing() && !GivingUp(s))
  }

  /** Everything is stored as it should be, unless the bound handler is giving up after a failed
      chunk. During a pause the handle is closed after the state has changed. */
  predicate DataOK(s: Sys) {
    && OwnPath(s.w.up, s.w.up.path)
    && (s.w.up.fd.Open? ==>
          s.w.up.state.Uploading? || LockPc(s) == Pausing(HPauseClose) || LockPc(s) == Cancelling(CFile))
    && (s.w.up.state.Rank() <= 3 && !GivingUp(s) ==> Holds(Rested(s), s.w.Stored()))
  }

  /** The world with a pause under way finished. */
  function Rested(s: Sys): World {
    if LockPc(s) == Pausing(HPauseClose) then s.w.(up := s.w.up.(fd := Closed)) else s.w
  }

  /** The file after the handover began, as long as it has not been cleaned up. */
  predicate FileOK(s: Sys) {
    var up := s.w.up;
    && (Handed(s.log.outcome) && up.fileSize > 0
        && (up.state.HandingOver? || s.log.outcome.HandoverFailed?
            || (up.state.Finished? && LockPc(s) != Cleaning(KState)))
        ==> up.path == up.FinalPath() && up.path in s.w.files && |s.w.files[up.path]| == up.fileSize)
    && (s.log.outcome.CancelWon? && s.log.outcome.winner in s.threads
        && s.threads[s.log.outcome.winner].pc != Cancelling(CFile)
        ==> up.fd.Closed? && (s.log.fileGone ==> up.path == "" || up.path !in s.w.files))
  }

  /** The winning cancel has told the app backend, if it is one that does. */
  predicate WinnerHasTold(s: Sys) {
    && s.log.outcome.CancelWon? && s.log.outcome.winner in s.threads
    && var th := s.threads[s.log.outcome.winner];
    th.role.Tells() && th.pc != Cancelling(CFile) && th.pc != Cancelling(CPost)
  }

  /** The counter of something that happens at most once. */
  predicate Once(n: nat, happened: bool) {
    (happened ==> n == 1) && (!happened ==> n == 0)
  }

  predicate LogOK(s: Sys) {
    ToldOK(s) && CleanUpsOK(s) && ChannelOK(s)
  }

  /** What the app backend has been told. */
  predicate ToldOK(s: Sys) {
    var log := s.log;
    && Once(log.sentNo, s.routine.Some? && RoutinePc(s) != HandingOff(GPost))
    && Once(log.sentYes, WinnerHasTold(s))
    && (log.told.Some? <==> log.sentNo > 0)
    && (log.told.Some? && s.w.up.fileSize > 0 ==>
          |log.told.value.data| == s.w.up.fileSize && log.told.value.path == s.w.up.FinalPath()
          && (s.w.up.state.HandingOver? ==>
                s.w.up.path in s.w.files && s.w.files[s.w.up.path] == log.told.value.data))
  }

  predicate CleanUpsOK(s: Sys) {
    var state := s.w.up.state;
    && Once(s.log.poolRemoves, state.CleanedUp? || LockPc(s) == Cleaning(KState))
    && Once(s.log.timeoutCloses, state.CleanedUp? && LockPc(s) != Cleaning(KClose))
    && (LockPc(s) == Cleaning(KFile) || LockPc(s) == Cleaning(KState) ==> MayCleanUp(state))
    && (LockPc(s) == Cleaning(KClose) ==> state.CleanedUp?)
  }

  /** The channel between routine and handler, and who has been told of success. */
  predicate ChannelOK(s: Sys) {
    var log := s.log;
    && (log.chanSends == 0 || (log.chanSends == 1 && s.routine.Some?
                               && (RoutinePc(s) == HandingOff(GClose) || RoutinePc(s).Gone?)))
    && Once(log.chanCloses, s.routine.Some? && RoutinePc(s).Gone?)
    && log.doneOks <= 1
    && (log.doneOks == 1 ==> log.outcome.HandedOver? || RoutinePc(s) == HandingOff(GSettle(true)))
    && (log.allDones > 0 ==> log.outcome.HandedOver?)
  }

  /** The part of the invariant that does not speak of all threads. */
  predicate Core(s: Sys) {
    RolesOK(s) && OutcomeOK(s) && BinderOK(s) && DataOK(s) && FileOK(s) && LogOK(s)
  }

  predicate Inv(s: Sys) {
    Core(s) && forall t :: t in s.threads ==> ThreadOK(s, t)
  }

  lemma InitialInv(id: string, dir: string, removeWhenFinished: bool)
    ensures Inv(InitialSys(id, dir, removeWhenFinished))
  {
  }
}
