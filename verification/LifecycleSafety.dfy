/** The main results about the life of an upload, for any number of callers and any interleaving. */
module LifecycleSafety {
  import opened Protocol
  import opened UploadSpec
  import opened Lifecycle
  import opened LifecycleInv
  import opened LifecycleSteps
  import opened LifecycleFiles
  import opened LifecycleBytes

  /** The states some run of some upload leads to. */
  ghost predicate Reachable(s: Sys) {
    exists id, dir, rm, es :: Legal(InitialSys(id, dir, rm), es) && Exec(InitialSys(id, dir, rm), es) == s
  }

  lemma ReachableInv(s: Sys)
    requires Reachable(s)
    ensures Inv(s) && Tidy(s.w) && BytesOK(s)
  {
    var id, dir, rm, es :| Legal(InitialSys(id, dir, rm), es) && Exec(InitialSys(id, dir, rm), es) == s;
    LifecycleInv.InitialInv(id, dir, rm);
    RunStaysTidy(InitialSys(id, dir, rm), es);
    RunKeepsBytes(InitialSys(id, dir, rm), es);
  }

  // ---------------------------------------------------------------- the state machine

  predicate Moves(a: State, b: State) {
    || a == b
    || (a.Init? && b.Uploading?) || (a.Uploading? && b.Paused?) || (a.Paused? && b.Uploading?)
    || (a.Receiving() && (b.HandingOver? || b.Cancelled?))
    || (a.HandingOver? && (b.Finished? || b.Cancelled?))
    || ((a.Cancelled? || a.Finished?) && b.CleanedUp?)
  }

  lemma ThreadMoves(s: Sys, t: nat, ch: Choice)
    requires OutcomeOK(s) && BinderOK(s) && LogOK(s) && t in s.threads && ThreadOK(s, t)
    ensures Moves(s.w.up.state, ThreadStep(s, t, ch).w.up.state)
  {
    if s.threads[t].pc.Looping? && s.threads[t].pc.l.HStore? {
      ConsumeWriteFields(s.w, s.threads[t].pc.l.chunk, s.threads[t].pc.l.io);
    }
  }

  /** The state takes no other way than Init, Uploading and Paused to and fro, then either handed over
      or cancelled, then cleaned up. */
  lemma StateMoves(s: Sys, e: Event)
    requires Reachable(s) && Enabled(s, e)
    ensures Moves(s.w.up.state, Apply(s, e).w.up.state)
  {
    ReachableInv(s);
    if e.Runs? {
      ThreadMoves(s, e.t, e.ch);
    }
  }

  /** The handover routine overwrites the state without looking; it always finds HandingOver. */
  lemma SettleFindsHandingOver(s: Sys, t: nat)
    requires Reachable(s) && t in s.threads && s.threads[t].pc.HandingOff? && s.threads[t].pc.g.GSettle?
    ensures s.w.up.state.HandingOver? && s.log.outcome.Handing?
  {
    ReachableInv(s);
    assert ThreadOK(s, t);
  }

  /** At most one handler has bound the upload, and at most one handover routine ever exists. */
  lemma UniqueRoles(s: Sys, t: nat, u: nat)
    requires Reachable(s) && t in s.threads && u in s.threads
    ensures s.threads[t].Bound() && s.threads[u].Bound() ==> t == u
    ensures s.threads[t].role.HandoverRoutine? && s.threads[u].role.HandoverRoutine? ==> t == u
    ensures s.threads[t].pc.Locked() && s.threads[u].pc.Locked() ==> t == u
  {
    ReachableInv(s);
    assert ThreadOK(s, t) && ThreadOK(s, u);
  }

  // ---------------------------------------------------------------- at most once

  /** The app backend hears of the outcome at most once and never of both outcomes; the wait channel is
      sent to and closed at most once; the upload leaves the pool, and its timeout routine is stopped,
      at most once, and not before it is cancelled or finished. */
  lemma AtMostOnce(s: Sys)
    requires Reachable(s)
    ensures s.log.sentNo + s.log.sentYes <= 1
    ensures s.log.chanSends <= 1 && s.log.chanCloses <= 1
    ensures s.log.poolRemoves <= 1 && s.log.timeoutCloses <= s.log.poolRemoves
    ensures s.log.poolRemoves == 1 ==> s.w.up.state.Rank() >= Cancelled.Rank()
  {
    ReachableInv(s);
  }

  /** A success message to a browser, or a HandoverDone call that succeeded, is the truth. */
  lemma TruthfulCompletion(s: Sys)
    requires Reachable(s)
    ensures s.log.allDones > 0 ==> s.log.outcome.HandedOver? && s.log.sentNo == 1
    ensures s.log.doneOks <= 1
    ensures s.log.doneOks == 1 ==> s.log.outcome.HandedOver? || s.log.outcome.Handing?
  {
    ReachableInv(s);
  }

  // ---------------------------------------------------------------- what is decided stays decided

  predicate Decided(o: Outcome) {
    o.CancelWon? || o.HandedOver? || o.HandoverFailed?
  }

  /** What a step cannot change once the outcome is decided, or once the app backend has confirmed. */
  predicate OutcomeLasting(log: Log, log': Log) {
    && (Decided(log.outcome) ==> log'.outcome == log.outcome)
    && (log.doneOks == 1 && log.outcome.Handing? ==> log'.outcome.Handing? || log'.outcome.HandedOver?)
    && log.doneOks <= log'.doneOks
  }

  predicate Lasting(s: Sys, s': Sys) {
    OutcomeLasting(s.log, s'.log) && (CancelDone(s) ==> CancelDone(s'))
  }

  /** The winning cancel has dealt with the file. */
  predicate CancelDone(s: Sys) {
    s.log.outcome.CancelWon? && s.log.outcome.winner in s.threads
    && s.threads[s.log.outcome.winner].pc != Cancelling(CFile) && s.log.fileGone
  }

  lemma RoutineOutcome(s: Sys, t: nat, ch: Choice)
    requires OutcomeOK(s) && LogOK(s) && t in s.threads && s.routine == Some(t) && s.threads[t].pc.HandingOff?
    ensures OutcomeLasting(s.log, RoutineStep(s, t, ch).log)
  {
  }

  lemma OutcomeLasts(s: Sys, t: nat, ch: Choice)
    requires OutcomeOK(s) && t in s.threads && !s.threads[t].pc.HandingOff?
    ensures OutcomeLasting(s.log, ThreadStep(s, t, ch).log)
  {
  }

  /** Only the step that removes the file says whether it is gone. */
  lemma GoneOnlyByRemoval(s: Sys, t: nat, ch: Choice)
    requires t in s.threads && s.threads[t].pc != Cancelling(CFile)
    ensures ThreadStep(s, t, ch).log.fileGone == s.log.fileGone
  {
  }

  lemma RemovalOnlyAfterWin(s: Sys, t: nat, ch: Choice)
    requires t in s.threads && !s.w.up.state.Receiving() && s.threads[t].pc != Cancelling(CFile)
    ensures ThreadStep(s, t, ch).threads[t].pc != Cancelling(CFile)
  {
  }

  lemma OthersStayPut(s: Sys, t: nat, ch: Choice, u: nat)
    requires t in s.threads && u in s.threads && u != t
    ensures u in ThreadStep(s, t, ch).threads && ThreadStep(s, t, ch).threads[u] == s.threads[u]
  {
  }

  lemma CancelLasts(s: Sys, t: nat, ch: Choice)
    requires OutcomeOK(s) && t in s.threads && ThreadOK(s, t) && CancelDone(s)
    requires ThreadStep(s, t, ch).log.outcome == s.log.outcome
    ensures CancelDone(ThreadStep(s, t, ch))
  {
    GoneOnlyByRemoval(s, t, ch);
    RemovalOnlyAfterWin(s, t, ch);
    if t != s.log.outcome.winner {
      OthersStayPut(s, t, ch, s.log.outcome.winner);
    }
  }

  lemma ThreadLasting(s: Sys, t: nat, ch: Choice)
    requires Inv(s) && t in s.threads
    ensures Lasting(s, ThreadStep(s, t, ch))
  {
    assert ThreadOK(s, t);
    if s.threads[t].pc.HandingOff? {
      RoutineOutcome(s, t, ch);
    } else {
      OutcomeLasts(s, t, ch);
    }
    if CancelDone(s) {
      CancelLasts(s, t, ch);
    }
  }

  lemma StepLasting(s: Sys, e: Event)
    requires Inv(s) && Enabled(s, e)
    ensures Lasting(s, Apply(s, e))
  {
    if e.Runs? {
      ThreadLasting(s, e.t, e.ch);
    }
  }

  lemma {:induction false} RunLasting(s: Sys, es: seq<Event>)
    requires Inv(s) && Legal(s, es)
    ensures Inv(Exec(s, es)) && Lasting(s, Exec(s, es))
    decreases |es|
  {
    if es != [] {
      StepKeeps(s, es[0]);
      StepLasting(s, es[0]);
      RunLasting(Apply(s, es[0]), es[1..]);
    }
  }

  /** After a HandoverDone call has succeeded, the upload is never cancelled. */
  lemma ConfirmedIsHandedOver(s: Sys, es: seq<Event>)
    requires Reachable(s) && Legal(s, es) && s.log.doneOks == 1
    ensures var s' := Exec(s, es);
            && (s'.log.outcome.Handing? || s'.log.outcome.HandedOver?) && !s'.w.up.state.Cancelled?
  {
    ReachableInv(s);
    RunLasting(s, es);
  }

  /** A cancel that changed the state and removed the file is final: whatever any thread does later,
      no handle is open, the file is gone, and the app backend is never told to fetch it. The handover
      routine never runs, so a handler that waits on its channel is never woken by it. */
  lemma CancelIsFinal(s: Sys, es: seq<Event>)
    requires Reachable(s) && Legal(s, es) && CancelDone(s)
    ensures var s' := Exec(s, es);
            && s'.w.up.fd.Closed? && (s'.w.up.path == "" || s'.w.up.path !in s'.w.files)
            && s'.log.sentNo == 0 && s'.log.told.None? && s'.log.allDones == 0
            && s'.routine.None? && s'.log.chanCloses == 0
            && (s'.w.up.state.Cancelled? || s'.w.up.state.CleanedUp?)
  {
    ReachableInv(s);
    RunLasting(s, es);
  }

  // ---------------------------------------------------------------- the file

  /** Outside the receive loop nothing moves the position or the name, only a cancel or a clean-up
      touches the file, and only the opening of a session touches the size. */
  predicate Elsewhere(s: Sys, s': Sys, pc: Pc) {
    && s'.w.up.path == s.w.up.path && s'.w.up.filePos == s.w.up.filePos
    && (pc != Cancelling(CFile) && pc != Cleaning(KFile) ==> s'.w.files == s.w.files)
    && (!pc.Opening? || !s.w.up.state.Init? ==> s'.w.up.fileSize == s.w.up.fileSize)
  }

  lemma HandlerElsewhere(s: Sys, t: nat, ch: Choice)
    requires t in s.threads && (s.threads[t].pc.Opening? || s.threads[t].pc.Pausing? || s.threads[t].pc.Closing?)
    ensures Elsewhere(s, ThreadStep(s, t, ch), s.threads[t].pc)
  {
  }

  lemma CallElsewhere(s: Sys, t: nat, ch: Choice)
    requires t in s.threads && !s.threads[t].pc.HandlerPart()
    ensures Elsewhere(s, ThreadStep(s, t, ch), s.threads[t].pc)
  {
  }

  lemma ElsewhereKept(s: Sys, t: nat, ch: Choice)
    requires t in s.threads && !s.threads[t].pc.Looping?
    ensures Elsewhere(s, ThreadStep(s, t, ch), s.threads[t].pc)
  {
    if s.threads[t].pc.HandlerPart() {
      HandlerElsewhere(s, t, ch);
    } else {
      CallElsewhere(s, t, ch);
    }
  }

  /** While an upload is being handed over, no thread touches its file, its name or its size. */
  lemma ThreadLeavesFile(s: Sys, t: nat, ch: Choice)
    requires OutcomeOK(s) && BinderOK(s) && LogOK(s) && t in s.threads && ThreadOK(s, t)
    requires s.w.up.state.HandingOver? || s.log.outcome.HandoverFailed?
    ensures var s' := ThreadStep(s, t, ch);
            && s'.w.files == s.w.files && s'.w.up.path == s.w.up.path
            && s'.w.up.filePos == s.w.up.filePos && s'.w.up.fileSize == s.w.up.fileSize
  {
    if s.threads[t].pc.Looping? {
      assert s.threads[t].pc == Looping(HLoop);
    } else {
      ElsewhereKept(s, t, ch);
    }
  }

  /** From the handover call until the routine settles, the named file is exactly the stored chunks, one
      after the other, and of the declared size; it is the one the app backend has been told of, and no
      step of any thread changes it. An empty upload, and no other, has no file. */
  lemma HandoverUndisturbed(s: Sys, e: Event)
    requires Reachable(s) && Enabled(s, e) && s.w.up.state.HandingOver?
    ensures s.w.up.path == (if s.w.up.fileSize == 0 then "" else s.w.up.FinalPath())
    ensures s.w.Stored() == s.log.received && |s.log.received| == s.w.up.fileSize
    ensures s.w.up.path in s.w.files || s.w.up.fileSize == 0
    ensures s.log.told.Some? && s.w.up.fileSize > 0 ==> s.log.told.value == Told(s.w.up.path, s.log.received)
    ensures Apply(s, e).w.files == s.w.files && Apply(s, e).w.up.path == s.w.up.path
  {
    ReachableInv(s);
    StripPart(s.w.up);
    if e.Runs? {
      ThreadLeavesFile(s, e.t, e.ch);
    }
  }

  /** Whatever happens afterwards: what the app backend was told to fetch held exactly the stored chunks. */
  lemma AnnouncedBytes(s: Sys)
    requires Reachable(s) && s.log.told.Some?
    ensures s.log.told.value.data == s.log.received
  {
    ReachableInv(s);
  }

  lemma {:induction false} FailedLasts(s: Sys, es: seq<Event>)
    requires Inv(s) && Legal(s, es) && s.log.outcome.HandoverFailed?
    ensures var s' := Exec(s, es);
            && Inv(s') && s'.log.outcome.HandoverFailed? && s'.w.up.fileSize == s.w.up.fileSize
            && s'.w.files == s.w.files && s'.w.up.path == s.w.up.path
    decreases |es|
  {
    if es != [] {
      StepKeeps(s, es[0]);
      StepLasting(s, es[0]);
      if es[0].Runs? {
        ThreadLeavesFile(s, es[0].t, es[0].ch);
      }
      FailedLasts(Apply(s, es[0]), es[1..]);
    }
  }

  /** A handover that failed is not followed by the deletion of the file: whatever happens later, it
      stays where it is, complete. */
  lemma FailedHandoverLeavesFile(s: Sys, es: seq<Event>)
    requires Reachable(s) && Legal(s, es) && s.log.outcome.HandoverFailed? && s.w.up.fileSize > 0
    ensures var s' := Exec(s, es);
            && s'.w.files == s.w.files && s'.w.up.path == s.w.up.path == s.w.up.FinalPath()
            && s'.w.up.path in s'.w.files && |s'.w.Stored()| == s.w.up.fileSize
  {
    ReachableInv(s);
    StripPart(s.w.up);
    FailedLasts(s, es);
  }

  /** In every reachable state: a handle is open only on the ".part" file of an incomplete upload, at its
      end, and the suffix is off the name only if the file is complete. Unless the bound handler is
      giving up or the lock holder is in the middle of a pause, the handle is open exactly while an
      incomplete file is uploading, the file is the stored chunks and as long as is counted, and the
      suffix is on the name exactly while the file is incomplete. */
  lemma HandleAndPath(s: Sys)
    requires Reachable(s)
    ensures s.w.up.fd.Open? ==>
              && s.w.up.filePos != s.w.up.fileSize && s.w.up.path == s.w.up.PartPath()
              && s.w.up.path in s.w.files && s.w.up.fd.offset == |s.w.Stored()|
    ensures s.w.up.path == s.w.up.FinalPath() ==> s.w.up.filePos == s.w.up.fileSize && s.w.up.fd.Closed?
    ensures s.w.up.state.Receiving() && !GivingUp(s) && LockPc(s) != Pausing(HPauseClose) ==>
              && (s.w.up.fd.Open? <==> s.w.up.state.Uploading? && s.w.up.filePos != s.w.up.fileSize)
              && s.w.up.filePos == |s.w.Stored()| && s.w.Stored() == s.log.received
              && (!s.w.up.state.Init? ==>
                    s.w.up.path == if s.w.up.filePos == s.w.up.fileSize then s.w.up.FinalPath() else s.w.up.PartPath())
  {
    ReachableInv(s);
    StripPart(s.w.up);
  }

  predicate SizesKept(up: Upload, up': Upload) {
    && (up.state != Init ==> up'.fileSize == up.fileSize)
    && up.filePos <= up'.filePos && (up.filePos != up'.filePos ==> up'.filePos <= up'.fileSize)
  }

  lemma LoopSizes(s: Sys, t: nat, ch: Choice)
    requires t in s.threads && s.threads[t].pc.Looping?
    ensures SizesKept(s.w.up, LoopStep(s, t, ch).w.up)
  {
  }

  /** The size is fixed once the upload has left Init; the position never moves back, and it never moves
      beyond the size. */
  lemma SizeFrozen(s: Sys, e: Event)
    requires Enabled(s, e)
    ensures SizesKept(s.w.up, Apply(s, e).w.up)
  {
    if e.Runs? {
      if s.threads[e.t].pc.Looping? {
        LoopSizes(s, e.t, e.ch);
      } else {
        ElsewhereKept(s, e.t, e.ch);
      }
    }
  }

  /** Only the handler that has bound the upload moves its position. */
  lemma OnlyBinderStores(s: Sys, t: nat, ch: Choice)
    requires Reachable(s) && t in s.threads && s.binder != Some(t)
    ensures ThreadStep(s, t, ch).w.up.filePos == s.w.up.filePos
    ensures ThreadStep(s, t, ch).w.up.fileSize == s.w.up.fileSize
  {
    ReachableInv(s);
    assert ThreadOK(s, t);
    ElsewhereKept(s, t, ch);
  }
}
