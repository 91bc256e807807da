/** Which bytes the file holds and which are handed over, under any interleaving: an invariant on top of
    LifecycleInv.dfy. */
module LifecycleBytes {
  import opened Protocol
  import opened UploadSpec
  import opened Lifecycle
  import opened LifecycleInv
  import LifecycleSteps

  /** The file holds the stored chunks, one after the other, and so did what the app backend was told. */
  predicate BytesOK(s: Sys) {
    && (s.w.up.state.Rank() <= HandingOver.Rank() && !GivingUp(s) ==> s.w.Stored() == s.log.received)
    && (s.log.told.Some? ==> s.log.told.value.data == s.log.received)
  }

  /** What a step leaves alone that neither stores nor removes anything. */
  predicate SameBytes(s: Sys, s': Sys) {
    && s'.w.files == s.w.files && s'.w.up.path == s.w.up.path && s'.log.received == s.log.received
    && (s'.log.told == s.log.told || s'.log.told == Some(Told(s.w.up.path, s.w.Stored())))
  }

  lemma HandlerSameBytes(s: Sys, t: nat, ch: Choice)
    requires t in s.threads && (s.threads[t].pc.Opening? || s.threads[t].pc.Pausing? || s.threads[t].pc.Closing?)
    ensures SameBytes(s, ThreadStep(s, t, ch)) && ThreadStep(s, t, ch).log.told == s.log.told
  {
  }

  lemma CallSameBytes(s: Sys, t: nat, ch: Choice)
    requires t in s.threads && !s.threads[t].pc.HandlerPart()
    requires s.threads[t].pc != Cancelling(CFile) && s.threads[t].pc != Cleaning(KFile)
    ensures SameBytes(s, ThreadStep(s, t, ch))
    ensures s.threads[t].pc != HandingOff(GPost) ==> ThreadStep(s, t, ch).log.told == s.log.told
  {
  }

  lemma RemovalSameLog(s: Sys, t: nat, ch: Choice)
    requires t in s.threads && (s.threads[t].pc == Cancelling(CFile) || s.threads[t].pc == Cleaning(KFile))
    ensures var s' := ThreadStep(s, t, ch);
            s'.log.told == s.log.told && s'.log.received == s.log.received && s'.w.up.state == s.w.up.state
  {
  }

  /** Once a handler gives up, the upload does not get back to receiving or on to being handed over. */
  lemma GivingUpLasts(s: Sys, t: nat, ch: Choice)
    requires Inv(s) && t in s.threads && GivingUp(s) && Inv(ThreadStep(s, t, ch))
    ensures var s' := ThreadStep(s, t, ch); GivingUp(s') || s'.w.up.state.Rank() > HandingOver.Rank()
  {
    var b := s.binder.value;
    assert ThreadOK(s, t) && ThreadOK(s, b);
    if t == b {
      GivingUpGoesOn(s, t, ch);
    } else {
      GivingUpStays(s, t, ch);
    }
  }

  lemma GivingUpGoesOn(s: Sys, t: nat, ch: Choice)
    requires OutcomeOK(s) && BinderOK(s) && t in s.threads && s.binder == Some(t) && GivingUp(s)
    ensures var s' := ThreadStep(s, t, ch); GivingUp(s') || s'.w.up.state.Rank() > HandingOver.Rank()
  {
  }

  lemma GivingUpStays(s: Sys, t: nat, ch: Choice)
    requires t in s.threads && s.binder.Some? && s.binder != Some(t) && s.binder.value in s.threads && GivingUp(s)
    requires ThreadOK(s, t) && s.w.up.bound
    ensures GivingUp(ThreadStep(s, t, ch))
  {
  }

  // ---------------------------------------------------------------- the receive loop

  lemma PrepareKeepsBytes(w: World, data: Bytes, io: IO)
    requires Holds(w, data) && w.up.filePos != w.up.fileSize && w.Stored() == data
    ensures ConsumeState(w, io).err.None? ==> ConsumeState(w, io).w.Stored() == data
  {
    StripPart(w.up);
  }

  lemma StoreExtendsBytes(w: World, data: Bytes, chunk: Bytes, io: IO)
    requires Holds(w, data) && w.up.state.Uploading? && w.up.filePos != w.up.fileSize && w.Stored() == data
    ensures ConsumeWrite(w, chunk, io).err.None? ==> ConsumeWrite(w, chunk, io).w.Stored() == data + chunk
  {
    StripPart(w.up);
    ConsumeWriteAppends(w, data, chunk, io);
  }

  lemma LoopKeepsBytes(s: Sys, t: nat, ch: Choice)
    requires Inv(s) && BytesOK(s) && t in s.threads && s.threads[t].pc.Looping? && Inv(LoopStep(s, t, ch))
    ensures BytesOK(LoopStep(s, t, ch))
  {
    assert ThreadOK(s, t);
    match s.threads[t].pc.l
    case HPrepare(chunk, io) => PrepareStepKeepsBytes(s, t, ch);
    case HStore(chunk, io) => StoreStepKeepsBytes(s, t, ch);
    case _ =>
  }

  lemma PrepareStepKeepsBytes(s: Sys, t: nat, ch: Choice)
    requires Core(s) && BytesOK(s) && t in s.threads && ThreadOK(s, t)
    requires s.threads[t].pc.Looping? && s.threads[t].pc.l.HPrepare?
    ensures BytesOK(LoopStep(s, t, ch))
  {
    if s.w.up.state.Receiving() {
      PrepareKeepsBytes(s.w, s.w.Stored(), s.threads[t].pc.l.io);
    }
  }

  lemma StoreStepKeepsBytes(s: Sys, t: nat, ch: Choice)
    requires Core(s) && BytesOK(s) && t in s.threads && ThreadOK(s, t)
    requires s.threads[t].pc.Looping? && s.threads[t].pc.l.HStore?
    ensures BytesOK(LoopStep(s, t, ch))
  {
    StoreExtendsBytes(s.w, s.w.Stored(), s.threads[t].pc.l.chunk, s.threads[t].pc.l.io);
  }

  // ---------------------------------------------------------------- every step

  /** The announcement is made while the upload is being handed over. */
  lemma PostIsHandingOver(s: Sys, t: nat)
    requires Inv(s) && t in s.threads && s.threads[t].pc == HandingOff(GPost)
    ensures s.w.up.state.HandingOver? && !GivingUp(s)
  {
    assert ThreadOK(s, t);
  }

  /** A step that leaves the bytes alone; it may make an upload that is over out of one that is not, but
      not the other way round. */
  lemma SameBytesKeeps(s: Sys, s': Sys)
    requires BytesOK(s) && SameBytes(s, s')
    requires s'.log.told == s.log.told || (s.w.up.state.HandingOver? && !GivingUp(s))
    requires s'.w.up.state.Rank() <= HandingOver.Rank() && !GivingUp(s') ==>
               s.w.up.state.Rank() <= HandingOver.Rank() && !GivingUp(s)
    ensures BytesOK(s')
  {
  }

  lemma OverStaysOver(s: Sys, t: nat, ch: Choice)
    requires OutcomeOK(s) && LogOK(s) && t in s.threads && ThreadOK(s, t) && !s.threads[t].pc.Looping?
    requires s.w.up.state.Rank() > HandingOver.Rank()
    ensures ThreadStep(s, t, ch).w.up.state.Rank() > HandingOver.Rank()
  {
  }

  /** An upload that is neither over nor given up after a step was not so before. */
  lemma LiveBefore(s: Sys, t: nat, ch: Choice)
    requires Inv(s) && t in s.threads && !s.threads[t].pc.Looping? && Inv(ThreadStep(s, t, ch))
    requires ThreadStep(s, t, ch).w.up.state.Rank() <= HandingOver.Rank() && !GivingUp(ThreadStep(s, t, ch))
    ensures s.w.up.state.Rank() <= HandingOver.Rank() && !GivingUp(s)
  {
    assert ThreadOK(s, t);
    if s.w.up.state.Rank() > HandingOver.Rank() {
      OverStaysOver(s, t, ch);
    } else if GivingUp(s) {
      GivingUpLasts(s, t, ch);
    }
  }

  lemma StepSameBytes(s: Sys, t: nat, ch: Choice)
    requires Inv(s) && t in s.threads && !s.threads[t].pc.Looping?
    requires s.threads[t].pc != Cancelling(CFile) && s.threads[t].pc != Cleaning(KFile)
    ensures var s' := ThreadStep(s, t, ch);
            SameBytes(s, s') && (s'.log.told == s.log.told || (s.w.up.state.HandingOver? && !GivingUp(s)))
  {
    if s.threads[t].pc.HandlerPart() {
      HandlerSameBytes(s, t, ch);
    } else {
      CallSameBytes(s, t, ch);
      if s.threads[t].pc == HandingOff(GPost) {
        PostIsHandingOver(s, t);
      }
    }
  }

  lemma RemovalKeepsBytes(s: Sys, t: nat, ch: Choice)
    requires Inv(s) && BytesOK(s) && t in s.threads
    requires s.threads[t].pc == Cancelling(CFile) || s.threads[t].pc == Cleaning(KFile)
    ensures BytesOK(ThreadStep(s, t, ch))
  {
    assert ThreadOK(s, t);
    RemovalSameLog(s, t, ch);
  }

  lemma ThreadKeepsBytes(s: Sys, t: nat, ch: Choice)
    requires Inv(s) && BytesOK(s) && t in s.threads && Inv(ThreadStep(s, t, ch))
    ensures BytesOK(ThreadStep(s, t, ch))
  {
    var pc := s.threads[t].pc;
    if pc.Looping? {
      LoopKeepsBytes(s, t, ch);
    } else if pc == Cancelling(CFile) || pc == Cleaning(KFile) {
      RemovalKeepsBytes(s, t, ch);
    } else {
      var s' := ThreadStep(s, t, ch);
      StepSameBytes(s, t, ch);
      if s'.w.up.state.Rank() <= HandingOver.Rank() && !GivingUp(s') {
        LiveBefore(s, t, ch);
      }
      SameBytesKeeps(s, s');
    }
  }

  lemma ArrivalKeepsBytes(s: Sys, e: Event)
    requires BytesOK(s) && RolesOK(s) && Enabled(s, e) && e.Arrives?
    ensures BytesOK(Apply(s, e))
  {
  }

  lemma MeetingKeepsBytes(s: Sys, e: Event)
    requires Inv(s) && BytesOK(s) && Enabled(s, e) && (e.Confirms? || e.Tells?)
    ensures BytesOK(Apply(s, e))
  {
  }

  lemma StepKeepsBytes(s: Sys, e: Event)
    requires Inv(s) && BytesOK(s) && Enabled(s, e)
    ensures BytesOK(Apply(s, e))
  {
    LifecycleSteps.StepKeeps(s, e);
    match e
    case Runs(t, ch) => ThreadKeepsBytes(s, t, ch);
    case Arrives(t, role) => ArrivalKeepsBytes(s, e);
    case _ => MeetingKeepsBytes(s, e);
  }

  lemma {:induction false} RunKeepsBytes(s: Sys, es: seq<Event>)
    requires Inv(s) && BytesOK(s) && Legal(s, es)
    ensures Inv(Exec(s, es)) && BytesOK(Exec(s, es))
    decreases |es|
  {
    if es != [] {
      LifecycleSteps.StepKeeps(s, es[0]);
      StepKeepsBytes(s, es[0]);
      RunKeepsBytes(Apply(s, es[0]), es[1..]);
    }
  }
}
