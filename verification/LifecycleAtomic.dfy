/** The uploader's calls are atomic: what a call does in several critical sections under one lock is what
    the function of UploadSpec.dfy does at once, whatever other threads do in between. */
module LifecycleAtomic {
  import opened Protocol
  import opened UploadSpec
  import opened Lifecycle
  import opened LifecycleInv
  import opened LifecycleSteps
  import LifecycleSafety

  /** In the middle of a call that has begun to change the upload. */
  predicate MidCall(pc: Pc) {
    match pc
    case Looping(l) => l.HStore?
    case Pausing(p) => p.HPauseClose?
    case Cancelling(c) => c.CFile?
    case Cleaning(k) => k.KFile? || k.KState? || k.KClose?
    case _ => false
  }

  /** A step of anybody else. */
  predicate NotOf(e: Event, t: nat) {
    e.Runs? ==> e.t != t
  }

  lemma HandlerWaits(s: Sys, u: nat, ch: Choice)
    requires u in s.threads && s.lock.Some? && s.lock != Some(u) && !s.threads[u].pc.Locked()
    requires s.threads[u].pc.HandlerPart() && (s.threads[u].pc == Closing(HHandover) ==> !s.w.up.state.Receiving())
    ensures ThreadStep(s, u, ch).w == s.w && ThreadStep(s, u, ch).lock == s.lock
  {
  }

  lemma CallWaits(s: Sys, u: nat, ch: Choice)
    requires u in s.threads && s.lock.Some? && s.lock != Some(u) && !s.threads[u].pc.Locked()
    requires !s.threads[u].pc.HandlerPart() && !(s.threads[u].pc.HandingOff? && s.threads[u].pc.g.GSettle?)
    ensures ThreadStep(s, u, ch).w == s.w && ThreadStep(s, u, ch).lock == s.lock
  {
  }

  /** While a call is under way, the upload is not about to be handed over or settled by anybody else. */
  lemma NoStateWrites(s: Sys, t: nat, u: nat)
    requires Inv(s) && s.lock == Some(t) && t in s.threads && MidCall(s.threads[t].pc) && u in s.threads && u != t
    ensures !(s.threads[u].pc.HandingOff? && s.threads[u].pc.g.GSettle?)
    ensures s.threads[u].pc == Closing(HHandover) ==> !s.w.up.state.Receiving()
  {
    assert ThreadOK(s, t) && ThreadOK(s, u);
  }

  lemma OthersStepWaits(s: Sys, t: nat, e: Event)
    requires Inv(s) && Enabled(s, e) && NotOf(e, t)
    requires s.lock == Some(t) && t in s.threads && MidCall(s.threads[t].pc)
    ensures var s' := Apply(s, e);
            s'.w == s.w && s'.lock == Some(t) && t in s'.threads && s'.threads[t] == s.threads[t]
  {
    assert ThreadOK(s, t);
    if e.Runs? {
      assert ThreadOK(s, e.t);
      NoStateWrites(s, t, e.t);
      LifecycleSafety.OthersStayPut(s, e.t, e.ch, t);
      if s.threads[e.t].pc.HandlerPart() {
        HandlerWaits(s, e.t, e.ch);
      } else {
        CallWaits(s, e.t, e.ch);
      }
    }
  }

  /** No run of the other threads changes the upload or its files in the middle of a call. */
  lemma {:induction false} OthersWait(s: Sys, t: nat, es: seq<Event>)
    requires Inv(s) && Legal(s, es) && forall e :: e in es ==> NotOf(e, t)
    requires s.lock == Some(t) && t in s.threads && MidCall(s.threads[t].pc)
    ensures var s' := Exec(s, es);
            Inv(s') && s'.w == s.w && s'.lock == Some(t) && t in s'.threads && s'.threads[t] == s.threads[t]
    decreases |es|
  {
    if es != [] {
      assert es[0] in es && forall e :: e in es[1..] ==> e in es;
      OthersStepWaits(s, t, es[0]);
      StepKeeps(s, es[0]);
      OthersWait(Apply(s, es[0]), t, es[1..]);
    }
  }

  /** Storing a chunk is one step: the first critical section, any run of the others, the second one. */
  lemma StoringIsAtomic(s: Sys, t: nat, ch: Choice, es: seq<Event>, ch2: Choice)
    requires LifecycleSafety.Reachable(s) && t in s.threads
    requires s.threads[t].pc.Looping? && s.threads[t].pc.l.HPrepare?
    requires Legal(ThreadStep(s, t, ch), es) && forall e :: e in es ==> NotOf(e, t)
    ensures var pc, s1 := s.threads[t].pc.l, ThreadStep(s, t, ch);
            var r := Consume(s.w, pc.chunk, pc.io);
            if ConsumeState(s.w, pc.io).err.Some? then s1.w == r.w && s1.threads[t].pc == Looping(HFailed)
            else
              var s2 := Exec(s1, es);
              t in s2.threads && var s3 := ThreadStep(s2, t, ch2);
              s3.w == r.w && s3.threads[t].pc == Looping(if r.err.Some? then HFailed else HLoop)
              && s3.log.received == s2.log.received + (if r.err.None? then pc.chunk else [])
  {
    LifecycleSafety.ReachableInv(s);
    assert ThreadOK(s, t);
    if ConsumeState(s.w, s.threads[t].pc.l.io).err.None? {
      StepKeeps(s, Runs(t, ch));
      OthersWait(ThreadStep(s, t, ch), t, es);
    }
  }

  /** So is pausing. */
  lemma PausingIsAtomic(s: Sys, t: nat, ch: Choice, es: seq<Event>, ch2: Choice)
    requires LifecycleSafety.Reachable(s) && t in s.threads && s.threads[t].pc == Pausing(HPauseState)
    requires Legal(ThreadStep(s, t, ch), es) && forall e :: e in es ==> NotOf(e, t)
    ensures if s.w.up.state.Uploading? || s.w.up.state.Paused?
            then var s2 := Exec(ThreadStep(s, t, ch), es);
                 t in s2.threads && ThreadStep(s2, t, ch2).w == PauseUpload(s.w)
            else ThreadStep(s, t, ch).w == PauseUpload(s.w)
  {
    LifecycleSafety.ReachableInv(s);
    assert ThreadOK(s, t);
    if s.w.up.state.Uploading? || s.w.up.state.Paused? {
      StepKeeps(s, Runs(t, ch));
      OthersWait(ThreadStep(s, t, ch), t, es);
    }
  }

  /** So is cancelling, the request to the app backend aside. */
  lemma CancellingIsAtomic(s: Sys, t: nat, ch: Choice, es: seq<Event>, ch2: Choice)
    requires LifecycleSafety.Reachable(s) && t in s.threads && s.threads[t].pc == Cancelling(CState)
    requires Legal(ThreadStep(s, t, ch), es) && forall e :: e in es ==> NotOf(e, t)
    ensures if s.w.up.state.Receiving()
            then var s2 := Exec(ThreadStep(s, t, ch), es);
                 t in s2.threads && ThreadStep(s2, t, ch2).w == CancelUpload(s.w, ch2.io.removeOk)
            else ThreadStep(s, t, ch).w == CancelUpload(s.w, ch2.io.removeOk)
  {
    LifecycleSafety.ReachableInv(s);
    assert ThreadOK(s, t);
    if s.w.up.state.Receiving() {
      StepKeeps(s, Runs(t, ch));
      OthersWait(ThreadStep(s, t, ch), t, es);
    }
  }

  /** So is cleaning up, once it has begun. */
  lemma CleaningIsAtomic(s: Sys, t: nat, es: seq<Event>, ch: Choice, es2: seq<Event>, ch2: Choice)
    requires LifecycleSafety.Reachable(s) && t in s.threads && s.threads[t].pc == Cleaning(KFile)
    requires Legal(s, es) && (forall e :: e in es ==> NotOf(e, t)) && t in Exec(s, es).threads
    requires Legal(ThreadStep(Exec(s, es), t, ch), es2) && forall e :: e in es2 ==> NotOf(e, t)
    ensures var s2 := Exec(ThreadStep(Exec(s, es), t, ch), es2);
            t in s2.threads && ThreadStep(s2, t, ch2).w == CleanUpUpload(s.w, ch.io.removeOk)
  {
    LifecycleSafety.ReachableInv(s);
    assert ThreadOK(s, t) && MayCleanUp(s.w.up.state);
    OthersWait(s, t, es);
    FileCleaned(Exec(s, es), t, ch);
    OthersWait(ThreadStep(Exec(s, es), t, ch), t, es2);
    StateCleaned(Exec(ThreadStep(Exec(s, es), t, ch), es2), t, ch2);
  }

  lemma FileCleaned(s: Sys, t: nat, ch: Choice)
    requires Inv(s) && t in s.threads && s.threads[t].pc == Cleaning(KFile) && s.lock == Some(t)
    ensures var s' := ThreadStep(s, t, ch);
            && Inv(s') && s'.w == CleanFile(s.w, ch.io.removeOk) && s'.lock == Some(t)
            && s'.threads[t].pc == Cleaning(KState)
  {
    StepKeeps(s, Runs(t, ch));
  }

  lemma StateCleaned(s: Sys, t: nat, ch: Choice)
    requires t in s.threads && s.threads[t].pc == Cleaning(KState)
    ensures ThreadStep(s, t, ch).w == s.w.(up := s.w.up.(state := CleanedUp))
  {
  }
}
