/** What becomes of the file once the app backend has taken it, under any interleaving: an invariant on top
    of LifecycleInv.dfy and LifecycleBytes.dfy. */
module LifecycleDelivery {
  import opened Protocol
  import opened UploadSpec
  import opened Lifecycle
  import opened LifecycleInv
  import opened LifecycleBytes
  import LifecycleSteps
  import LifecycleSafety

  /** The delivered file is there, with every byte, exactly until the clean-up has removed it. */
  predicate DeliveredOK(s: Sys) {
    && (s.log.removed ==>
          s.log.outcome.HandedOver? && s.w.up.removeWhenFinished
          && (s.w.up.state.CleanedUp? || LockPc(s) == Cleaning(KState)))
    && (s.log.outcome.HandedOver? && s.w.up.fileSize > 0 ==>
          && s.w.up.path == s.w.up.FinalPath()
          && (s.w.up.path in s.w.files <==> !s.log.removed)
          && (s.w.up.path in s.w.files ==> s.w.files[s.w.up.path] == s.log.received))
  }

  predicate SameSettings(up: Upload, up': Upload) {
    up'.id == up.id && up'.dir == up.dir && up'.removeWhenFinished == up.removeWhenFinished
  }

  lemma LoopSettings(s: Sys, t: nat, ch: Choice)
    requires t in s.threads && s.threads[t].pc.Looping?
    ensures SameSettings(s.w.up, LoopStep(s, t, ch).w.up)
  {
    match s.threads[t].pc.l
    case HStore(chunk, io) => ConsumeWriteFields(s.w, chunk, io);
    case HPrepare(chunk, io) => ConsumeStateKeeps(s.w, io);
    case _ =>
  }

  lemma HandlerSettings(s: Sys, t: nat, ch: Choice)
    requires t in s.threads && (s.threads[t].pc.Opening? || s.threads[t].pc.Pausing? || s.threads[t].pc.Closing?)
    ensures SameSettings(s.w.up, ThreadStep(s, t, ch).w.up) && ThreadStep(s, t, ch).log.removed == s.log.removed
  {
  }

  lemma CallSettings(s: Sys, t: nat, ch: Choice)
    requires t in s.threads && !s.threads[t].pc.HandlerPart()
    ensures SameSettings(s.w.up, ThreadStep(s, t, ch).w.up)
    ensures s.threads[t].pc != Cleaning(KFile) ==> ThreadStep(s, t, ch).log.removed == s.log.removed
  {
  }

  lemma ThreadSettings(s: Sys, t: nat, ch: Choice)
    requires t in s.threads
    ensures SameSettings(s.w.up, ThreadStep(s, t, ch).w.up)
    ensures s.threads[t].pc != Cleaning(KFile) ==> ThreadStep(s, t, ch).log.removed == s.log.removed
  {
    if s.threads[t].pc.Looping? {
      LoopSettings(s, t, ch);
    } else if s.threads[t].pc.HandlerPart() {
      HandlerSettings(s, t, ch);
    } else {
      CallSettings(s, t, ch);
    }
  }

  // ---------------------------------------------------------------- every step

  /** The routine settles on success: the complete file is there. */
  lemma SettleDelivers(s: Sys, t: nat, ch: Choice)
    requires Inv(s) && BytesOK(s) && DeliveredOK(s) && t in s.threads
    requires s.threads[t].pc.HandingOff? && s.threads[t].pc.g.GSettle?
    ensures DeliveredOK(ThreadStep(s, t, ch))
  {
    assert ThreadOK(s, t);
  }

  lemma CleaningDecides(s: Sys, t: nat, ch: Choice)
    requires Inv(s) && DeliveredOK(s) && t in s.threads && s.threads[t].pc == Cleaning(KFile)
    ensures DeliveredOK(ThreadStep(s, t, ch))
  {
    assert ThreadOK(s, t);
  }

  /** A step after the file was delivered that is no clean-up leaves it alone. */
  lemma DeliveredUntouched(s: Sys, t: nat, ch: Choice)
    requires Inv(s) && t in s.threads && s.threads[t].pc != Cleaning(KFile) && s.log.outcome.HandedOver?
    ensures var s' := ThreadStep(s, t, ch);
            && s'.w.files == s.w.files && s'.w.up.path == s.w.up.path && s'.log.received == s.log.received
            && s'.w.up.fileSize == s.w.up.fileSize
  {
    assert ThreadOK(s, t);
    if s.threads[t].pc.Looping? {
      assert s.threads[t].pc == Looping(HLoop);
    } else {
      StepSameBytes(s, t, ch);
      LifecycleSafety.ElsewhereKept(s, t, ch);
    }
  }

  /** What has been removed stays so: the upload is cleaned up, or about to be by the thread that has the
      lock. */
  lemma RemovedStays(s: Sys, t: nat, ch: Choice)
    requires OutcomeOK(s) && LogOK(s) && t in s.threads && ThreadOK(s, t) && s.threads[t].pc != Cleaning(KFile)
    requires s.log.outcome.HandedOver? && (s.w.up.state.CleanedUp? || LockPc(s) == Cleaning(KState))
    requires s.lock.Some? ==> s.lock.value in s.threads && ThreadOK(s, s.lock.value)
    ensures var s' := ThreadStep(s, t, ch); s'.w.up.state.CleanedUp? || LockPc(s') == Cleaning(KState)
  {
    if s.lock.Some? && t != s.lock.value {
      LifecycleSafety.OthersStayPut(s, t, ch, s.lock.value);
      LockKept(s, t, ch);
    }
    OverState(s, t, ch);
  }

  lemma LockKept(s: Sys, t: nat, ch: Choice)
    requires t in s.threads && s.lock.Some? && s.lock != Some(t) && !s.threads[t].pc.Locked()
    ensures ThreadStep(s, t, ch).lock == s.lock
  {
  }

  /** The state of a delivered upload changes only by the clean-up. */
  lemma OverState(s: Sys, t: nat, ch: Choice)
    requires OutcomeOK(s) && t in s.threads && ThreadOK(s, t) && s.log.outcome.HandedOver?
    ensures var s' := ThreadStep(s, t, ch);
            s'.w.up.state == (if s.threads[t].pc == Cleaning(KState) then CleanedUp else s.w.up.state)
  {
  }

  /** What a step keeps of a delivered upload. */
  lemma DeliveredStepKeeps(s: Sys, t: nat, ch: Choice)
    requires Inv(s) && DeliveredOK(s) && t in s.threads && s.log.outcome.HandedOver?
    requires s.threads[t].pc != Cleaning(KFile)
    ensures DeliveredOK(ThreadStep(s, t, ch))
  {
    assert ThreadOK(s, t) && (s.lock.Some? ==> ThreadOK(s, s.lock.value));
    DeliveredUntouched(s, t, ch);
    ThreadSettings(s, t, ch);
    LifecycleSafety.ThreadLasting(s, t, ch);
    if s.log.removed {
      RemovedStays(s, t, ch);
    }
  }

  lemma OnlySettlingDelivers(s: Sys, t: nat, ch: Choice)
    requires t in s.threads && !s.log.outcome.HandedOver?
    requires !(s.threads[t].pc.HandingOff? && s.threads[t].pc.g.GSettle?)
    ensures !ThreadStep(s, t, ch).log.outcome.HandedOver?
  {
  }

  lemma ThreadKeepsDelivered(s: Sys, t: nat, ch: Choice)
    requires Inv(s) && BytesOK(s) && DeliveredOK(s) && t in s.threads
    ensures DeliveredOK(ThreadStep(s, t, ch))
  {
    if s.threads[t].pc == Cleaning(KFile) {
      CleaningDecides(s, t, ch);
    } else if s.threads[t].pc.HandingOff? && s.threads[t].pc.g.GSettle? {
      SettleDelivers(s, t, ch);
    } else if s.log.outcome.HandedOver? {
      DeliveredStepKeeps(s, t, ch);
    } else {
      OnlySettlingDelivers(s, t, ch);
      ThreadSettings(s, t, ch);
    }
  }

  lemma OthersKeepDelivered(s: Sys, e: Event)
    requires Inv(s) && DeliveredOK(s) && Enabled(s, e) && !e.Runs?
    ensures DeliveredOK(Apply(s, e)) && Apply(s, e).w == s.w
  {
    if s.lock.Some? {
      assert ThreadOK(s, s.lock.value);
    }
  }

  lemma StepKeepsDelivered(s: Sys, e: Event)
    requires Inv(s) && BytesOK(s) && DeliveredOK(s) && Enabled(s, e)
    ensures DeliveredOK(Apply(s, e)) && SameSettings(s.w.up, Apply(s, e).w.up)
  {
    if e.Runs? {
      ThreadKeepsDelivered(s, e.t, e.ch);
      ThreadSettings(s, e.t, e.ch);
    } else {
      OthersKeepDelivered(s, e);
    }
  }

  lemma {:induction false} RunKeepsDelivered(s: Sys, es: seq<Event>)
    requires Inv(s) && BytesOK(s) && DeliveredOK(s) && Legal(s, es)
    ensures Inv(Exec(s, es)) && DeliveredOK(Exec(s, es)) && SameSettings(s.w.up, Exec(s, es).w.up)
    decreases |es|
  {
    if es != [] {
      LifecycleSteps.StepKeeps(s, es[0]);
      StepKeepsBytes(s, es[0]);
      StepKeepsDelivered(s, es[0]);
      RunKeepsDelivered(Apply(s, es[0]), es[1..]);
    }
  }

  // ---------------------------------------------------------------- what follows

  lemma ReachableDelivered(s: Sys)
    requires LifecycleSafety.Reachable(s)
    ensures Inv(s) && BytesOK(s) && DeliveredOK(s)
  {
    LifecycleSafety.ReachableInv(s);
    var id, dir, rm, es :| Legal(InitialSys(id, dir, rm), es) && Exec(InitialSys(id, dir, rm), es) == s;
    LifecycleInv.InitialInv(id, dir, rm);
    RunKeepsDelivered(InitialSys(id, dir, rm), es);
  }

  /** After a handover that succeeded the file is under its final name with exactly the stored bytes, until
      and unless a clean-up removes it, which happens only to an upload that does not keep its file. */
  lemma DeliveredExactly(s: Sys)
    requires LifecycleSafety.Reachable(s) && s.log.outcome.HandedOver? && s.w.up.fileSize > 0
    ensures s.w.up.path == s.w.up.FinalPath()
    ensures s.w.up.path in s.w.files <==> !s.log.removed
    ensures s.w.up.path in s.w.files ==> s.w.files[s.w.up.path] == s.log.received
    ensures s.log.removed ==>
              s.w.up.removeWhenFinished && (s.w.up.state.CleanedUp? || LockPc(s) == Cleaning(KState))
  {
    ReachableDelivered(s);
  }

  /** The clean-up of a delivered upload removes its file if and only if it is to be removed and the system
      lets it. */
  lemma CleanUpRemovesExactly(s: Sys, t: nat, ch: Choice)
    requires LifecycleSafety.Reachable(s) && s.log.outcome.HandedOver? && s.w.up.fileSize > 0
    requires t in s.threads && s.threads[t].pc == Cleaning(KFile)
    ensures ThreadStep(s, t, ch).log.removed <==> s.w.up.removeWhenFinished && ch.io.removeOk
    ensures s.w.up.path in ThreadStep(s, t, ch).w.files <==> !(s.w.up.removeWhenFinished && ch.io.removeOk)
  {
    ReachableDelivered(s);
    assert ThreadOK(s, t);
  }

  /** An upload that keeps its file keeps it for good, whatever any thread does after the handover. */
  lemma DeliveredFileStays(s: Sys, es: seq<Event>)
    requires LifecycleSafety.Reachable(s) && Legal(s, es) && s.log.outcome.HandedOver?
    requires s.w.up.fileSize > 0 && !s.w.up.removeWhenFinished
    ensures var s' := Exec(s, es);
            && s'.w.up.path == s.w.up.FinalPath() && s'.w.up.path in s'.w.files
            && s'.w.files[s'.w.up.path] == s.log.received
  {
    ReachableDelivered(s);
    RunKeepsDelivered(s, es);
    LifecycleSafety.RunLasting(s, es);
    DeliveredBytesStay(s, es);
  }

  lemma {:induction false} DeliveredBytesStay(s: Sys, es: seq<Event>)
    requires Inv(s) && Legal(s, es) && s.log.outcome.HandedOver?
    ensures Exec(s, es).log.received == s.log.received && Exec(s, es).w.up.fileSize == s.w.up.fileSize
    decreases |es|
  {
    if es != [] {
      LifecycleSteps.StepKeeps(s, es[0]);
      LifecycleSafety.StepLasting(s, es[0]);
      if es[0].Runs? {
        DeliveredBytesStep(s, es[0].t, es[0].ch);
      }
      DeliveredBytesStay(Apply(s, es[0]), es[1..]);
    }
  }

  lemma DeliveredBytesStep(s: Sys, t: nat, ch: Choice)
    requires Inv(s) && t in s.threads && s.log.outcome.HandedOver?
    ensures ThreadStep(s, t, ch).log.received == s.log.received
    ensures ThreadStep(s, t, ch).w.up.fileSize == s.w.up.fileSize
  {
    if s.threads[t].pc == Cleaning(KFile) {
      RemovalSameLog(s, t, ch);
      LifecycleSafety.ElsewhereKept(s, t, ch);
      assert ThreadOK(s, t);
    } else {
      DeliveredUntouched(s, t, ch);
    }
  }
}
