/** What a thread does that runs for a while without the others: the calls it makes, and in what order, are
    those of the handler in Session.dfy and of the uploader's other callers. */
module LifecycleAlone {
  import opened Protocol
  import opened UploadSpec
  import opened Lifecycle

  /** `n` steps of thread `t`, all with the same surroundings. */
  function Alone(s: Sys, t: nat, ch: Choice, n: nat): Sys
    requires t in s.threads
    decreases n
  {
    if n == 0 then s else Alone(ThreadStep(s, t, ch), t, ch, n - 1)
  }

  lemma {:induction false} AloneJoins(s: Sys, t: nat, ch: Choice, m: nat, n: nat)
    requires t in s.threads
    ensures t in Alone(s, t, ch, m).threads
    ensures Alone(s, t, ch, m + n) == Alone(Alone(s, t, ch, m), t, ch, n)
    decreases m
  {
    if m > 0 {
      AloneJoins(ThreadStep(s, t, ch), t, ch, m - 1, n);
    }
  }

  lemma ThreeSteps(s: Sys, t: nat, ch: Choice)
    requires t in s.threads
    ensures Alone(s, t, ch, 1) == ThreadStep(s, t, ch)
    ensures Alone(s, t, ch, 2) == ThreadStep(ThreadStep(s, t, ch), t, ch)
    ensures Alone(s, t, ch, 3) == ThreadStep(ThreadStep(ThreadStep(s, t, ch), t, ch), t, ch)
  {
    assert Alone(s, t, ch, 2) == Alone(ThreadStep(s, t, ch), t, ch, 1);
    assert Alone(s, t, ch, 3) == Alone(ThreadStep(s, t, ch), t, ch, 2);
    assert Alone(ThreadStep(s, t, ch), t, ch, 2) == Alone(ThreadStep(ThreadStep(s, t, ch), t, ch), t, ch, 1);
  }

  /** Thread `t` has come to `pc` and let go of the lock; nobody else has moved, and no role is taken. */
  predicate CameTo(s: Sys, s': Sys, t: nat, pc: Pc) {
    && t in s.threads && t in s'.threads && s'.lock.None?
    && s'.threads == s.threads[t := s.threads[t].(pc := pc)]
    && s'.routine == s.routine
  }

  // ---------------------------------------------------------------- the receive loop

  /** A chunk is consumed, as a whole; then the loop goes on, or the handler gives up. */
  lemma ChunkCall(s: Sys, t: nat, ch: Choice) returns (n: nat)
    requires t in s.threads && s.threads[t].pc == Looping(HLoop) && s.lock.None? && ch.frame.FrameChunk?
    requires s.w.up.filePos != s.w.up.fileSize
    ensures var r, s' := Consume(s.w, ch.frame.chunk, ch.io), Alone(s, t, ch, n);
            && CameTo(s, s', t, if r.err.None? then Looping(HLoop) else Looping(HFailed)) && s'.w == r.w
            && s'.log == s.log.(received := s.log.received + if r.err.None? then ch.frame.chunk else [])
  {
    ThreeSteps(s, t, ch);
    var s2 := ThreadStep(ThreadStep(s, t, ch), t, ch);
    assert s2.threads == s.threads[t := s.threads[t].(pc := Looping(HPrepare(ch.frame.chunk, ch.io)))];
    assert s2.lock == Some(t) && s2.w == s.w && s2.log == s.log;
    if ConsumeState(s.w, ch.io).err.Some? {
      n := 3;
      assert s.log.received + [] == s.log.received;
    } else {
      n := 4;
      StoreSteps(s2, t, ch, ch.frame.chunk, ch.io);
      AloneJoins(s, t, ch, 2, 2);
      assert s.log.received + [] == s.log.received;
    }
  }

  lemma StoreSteps(s: Sys, t: nat, ch: Choice, chunk: Bytes, io: IO)
    requires t in s.threads && s.threads[t].pc == Looping(HPrepare(chunk, io)) && ConsumeState(s.w, io).err.None?
    ensures var r, s' := Consume(s.w, chunk, io), Alone(s, t, ch, 2);
            && CameTo(s, s', t, if r.err.None? then Looping(HLoop) else Looping(HFailed)) && s'.w == r.w
            && s'.binder == s.binder
            && s'.log == (if r.err.None? then s.log.(received := s.log.received + chunk) else s.log)
  {
    ThreeSteps(s, t, ch);
    var s1 := ThreadStep(s, t, ch);
    assert s1.threads == s.threads[t := s.threads[t].(pc := Looping(HStore(chunk, io)))];
    assert s1.w == ConsumeState(s.w, io).w;
  }

  /** A pause message pauses the upload, and the loop goes on. */
  lemma PauseCall(s: Sys, t: nat, ch: Choice) returns (n: nat)
    requires t in s.threads && s.threads[t].pc == Looping(HLoop) && s.lock.None? && ch.frame.FramePause?
    requires s.w.up.filePos != s.w.up.fileSize
    ensures var s' := Alone(s, t, ch, n);
            CameTo(s, s', t, Looping(HLoop)) && s'.w == PauseUpload(s.w) && s'.log == s.log && n > 0
  {
    ThreeSteps(s, t, ch);
    var s2 := ThreadStep(ThreadStep(s, t, ch), t, ch);
    assert s2.threads == s.threads[t := s.threads[t].(pc := Pausing(HPauseState))];
    n := if s.w.up.state.Uploading? || s.w.up.state.Paused? then 4 else 3;
    if n == 4 {
      AloneJoins(s, t, ch, 3, 1);
      ThreeSteps(ThreadStep(s2, t, ch), t, ch);
    }
  }

  /** A lost connection leaves the upload alone: the handler unbinds it and is gone. */
  lemma LossCall(s: Sys, t: nat, ch: Choice)
    requires t in s.threads && s.threads[t].pc == Looping(HLoop) && s.lock.None? && ch.frame.FrameGone?
    requires s.w.up.filePos != s.w.up.fileSize
    ensures var s' := Alone(s, t, ch, 2);
            && CameTo(s, s', t, Gone) && s'.w == s.w.(up := s.w.up.(bound := false)) && s'.binder.None?
            && s'.log == s.log
  {
    ThreeSteps(s, t, ch);
  }

  /** A cancel message has the handler call Cancel; so does a chunk that failed, unless the upload is
      cancelled already. */
  lemma CancelFrame(s: Sys, t: nat, ch: Choice)
    requires t in s.threads && s.lock.None?
    requires || (s.threads[t].pc == Looping(HLoop) && ch.frame.FrameCancel? && s.w.up.filePos != s.w.up.fileSize)
             || s.threads[t].pc == Looping(HFailed)
    ensures var s' := ThreadStep(s, t, ch);
            && CameTo(s, s', t, if s.threads[t].pc == Looping(HFailed) && s.w.up.state.Cancelled? then Opening(HUnbind)
                                else Cancelling(CLock))
            && s'.w == s.w && s'.log == s.log
  {
  }

  // ---------------------------------------------------------------- Cancel and CleanUp

  /** A call of Cancel before the handover: state and file, then the request of those who tell the app
      backend; all but the handover routine go on to CleanUp. */
  lemma CancelCall(s: Sys, t: nat, ch: Choice) returns (n: nat)
    requires t in s.threads && s.threads[t].pc == Cancelling(CLock) && s.lock.None?
    requires s.w.up.state.Receiving()
    requires s.threads[t].role.Handler? || s.threads[t].role.Timeout? || s.threads[t].role.CancelRequest?
    ensures var s' := Alone(s, t, ch, n);
            && CameTo(s, s', t, Cleaning(KLock)) && s'.w == CancelUpload(s.w, ch.io.removeOk)
            && s'.log.sentYes == s.log.sentYes + (if s.threads[t].role.CancelRequest? then 0 else 1)
            && s'.log.poolRemoves == s.log.poolRemoves
  {
    ThreeSteps(s, t, ch);
    n := if s.threads[t].role.CancelRequest? then 3 else 4;
    if n == 4 {
      AloneJoins(s, t, ch, 3, 1);
      ThreeSteps(Alone(s, t, ch, 3), t, ch);
    }
  }

  /** Later it is refused: the app backend is told so, while handlers and the timeout go on to CleanUp. */
  lemma LateCancelCall(s: Sys, t: nat, ch: Choice)
    requires t in s.threads && s.threads[t].pc == Cancelling(CLock) && s.lock.None?
    requires !s.w.up.state.Receiving()
    requires s.threads[t].role.Handler? || s.threads[t].role.Timeout? || s.threads[t].role.CancelRequest?
    ensures var s' := Alone(s, t, ch, 2);
            && CameTo(s, s', t, if s.threads[t].role.CancelRequest? then Gone else Cleaning(KLock))
            && s'.w == s.w && s'.log == s.log
  {
    ThreeSteps(s, t, ch);
  }

  /** A call of CleanUp on a cancelled or finished upload takes it out of the pool and stops its timeout. */
  lemma CleanUpCall(s: Sys, t: nat, ch: Choice)
    requires t in s.threads && s.threads[t].pc == Cleaning(KLock) && s.lock.None?
    requires s.w.up.state.Cancelled? || s.w.up.state.Finished?
    ensures var s' := Alone(s, t, ch, 5);
            && CameTo(s, s', t, if s.threads[t].role.Handler? then Opening(HUnbind) else Gone)
            && s'.w == CleanUpUpload(s.w, ch.io.removeOk)
            && s'.log.poolRemoves == s.log.poolRemoves + 1 && s'.log.timeoutCloses == s.log.timeoutCloses + 1
            && s'.log.sentYes == s.log.sentYes && s'.log.sentNo == s.log.sentNo
  {
    ThreeSteps(s, t, ch);
    var s3 := Alone(s, t, ch, 3);
    assert s3.threads == s.threads[t := s.threads[t].(pc := Cleaning(KState))];
    ThreeSteps(s3, t, ch);
    AloneJoins(s, t, ch, 3, 2);
  }

  /** On any other it does nothing. */
  lemma EarlyCleanUpCall(s: Sys, t: nat, ch: Choice)
    requires t in s.threads && s.threads[t].pc == Cleaning(KLock) && s.lock.None?
    requires !s.w.up.state.Cancelled? && !s.w.up.state.Finished?
    ensures var s' := Alone(s, t, ch, 2);
            && CameTo(s, s', t, if s.threads[t].role.Handler? then Opening(HUnbind) else Gone)
            && s'.w == s.w && s'.log == s.log
  {
    ThreeSteps(s, t, ch);
  }

  // ---------------------------------------------------------------- the end of a handler

  /** A handler that has heard of no error reports success exactly of a finished upload; if it can write to
      its client it goes on to CleanUp. One that has heard of an error goes without. */
  lemma ReportCall(s: Sys, t: nat, ch: Choice, err: bool)
    requires t in s.threads && s.threads[t].pc == Closing(HReport(err)) && s.lock.None?
    ensures var s' := ThreadStep(s, t, ch);
            && CameTo(s, s', t, if !err && ch.goesOn then Cleaning(KLock) else Opening(HUnbind)) && s'.w == s.w
            && s'.log.allDones == s.log.allDones + (if !err && s.w.up.state.Finished? then 1 else 0)
  {
  }

  /** A handler waits for the handover until its client is gone or the channel is closed. */
  lemma WaitCall(s: Sys, t: nat, ch: Choice)
    requires t in s.threads && s.threads[t].pc == Closing(HWait) && s.lock.None?
    ensures var s' := ThreadStep(s, t, ch);
            && CameTo(s, s', t, if !ch.goesOn then Opening(HUnbind)
                                else if s.log.chanCloses > 0 then Closing(HReport(false)) else Closing(HWait))
            && s'.w == s.w && s'.log == s.log
  {
  }

  /** In the end it unbinds the upload. */
  lemma UnbindCall(s: Sys, t: nat, ch: Choice)
    requires t in s.threads && s.threads[t].pc == Opening(HUnbind) && s.lock.None?
    ensures var s' := ThreadStep(s, t, ch);
            CameTo(s, s', t, Gone) && s'.w == s.w.(up := s.w.up.(bound := false)) && s'.binder.None? && s'.log == s.log
  {
  }

  // ---------------------------------------------------------------- the beginning of a handler

  /** A handler binds a free upload, and fixes the size of a new one or checks the size of one that is
      resumed; a bound upload, another size, or an upload that is over turn it away. */
  lemma OpenCall(s: Sys, t: nat, ch: Choice)
    requires t in s.threads && s.threads[t].pc == Opening(HBind) && s.lock.None?
    ensures var up := s.w.up;
            var fits := up.state.Init? || ch.size == up.fileSize;
            if up.bound then CameTo(s, ThreadStep(s, t, ch), t, Gone) && ThreadStep(s, t, ch).w == s.w
            else
              var s' := Alone(s, t, ch, 3);
              && CameTo(s, s', t, if fits then Opening(HHandshake(up.state)) else Opening(HUnbind))
              && s'.w == s.w.(up := up.(bound := true, fileSize := if fits then ch.size else up.fileSize))
              && s'.binder == Some(t) && s'.log == s.log
  {
    ThreeSteps(s, t, ch);
  }

  lemma HandshakeCall(s: Sys, t: nat, ch: Choice, seen: State)
    requires t in s.threads && s.threads[t].pc == Opening(HHandshake(seen)) && s.lock.None?
    ensures var s' := ThreadStep(s, t, ch);
            && CameTo(s, s', t, if ch.goesOn && !seen.Cancelled? && !seen.Finished? && !seen.CleanedUp?
                                then Looping(HLoop) else Opening(HUnbind))
            && s'.w == s.w && s'.log == s.log
  {
  }

  // ---------------------------------------------------------------- the handover

  /** The handler that finds the file complete claims the handover and starts the routine, if the upload has
      not been cancelled meanwhile; in any case it goes on to wait. */
  lemma HandoverCall(s: Sys, t: nat, ch: Choice)
    requires t in s.threads && s.threads[t].pc == Closing(HHandover) && ch.newThread !in s.threads
    ensures var s' := ThreadStep(s, t, ch);
            && t in s'.threads && s'.threads[t] == s.threads[t].(pc := Closing(HWait))
            && if s.w.up.state.Receiving()
               then s'.w == s.w.(up := s.w.up.(state := HandingOver)) && s'.routine == Some(ch.newThread)
                    && s'.threads.Keys == s.threads.Keys + {ch.newThread}
                    && s'.threads[ch.newThread] == Thread(HandoverRoutine, HandingOff(GPost))
               else s'.w == s.w && s'.routine == s.routine && s'.threads.Keys == s.threads.Keys
  {
  }

  /** The routine announces the file once. If the app backend says "done", the upload is finished and the
      channel closed. */
  lemma DoneCall(s: Sys, t: nat, ch: Choice)
    requires t in s.threads && s.threads[t].pc == HandingOff(GPost) && s.lock.None? && ch.reply.Done? && !ch.goesOn
    ensures var s' := Alone(s, t, ch, 5);
            && CameTo(s, s', t, Gone) && s'.w == s.w.(up := s.w.up.(state := Finished))
            && s'.log.sentNo == s.log.sentNo + 1 && s'.log.told == Some(Told(s.w.up.path, s.w.Stored()))
            && s'.log.chanCloses == s.log.chanCloses + 1
  {
    ThreeSteps(s, t, ch);
    var s3 := Alone(s, t, ch, 3);
    assert s3.threads == s.threads[t := s.threads[t].(pc := HandingOff(GSend(true)))];
    ThreeSteps(s3, t, ch);
    AloneJoins(s, t, ch, 3, 2);
  }

  /** If the request fails, or "wait" is not followed by a confirmation in time, the upload is cancelled, its
      file stays where it is, and the channel is closed. */
  lemma FailedCall(s: Sys, t: nat, ch: Choice)
    requires t in s.threads && s.threads[t] == Thread(HandoverRoutine, HandingOff(GReply)) && s.lock.None?
    requires !ch.reply.Done? && !ch.goesOn
    ensures var s' := Alone(s, t, ch, if ch.reply.Wait? then 7 else 6);
            && CameTo(s, s', t, Gone) && s'.w == s.w.(up := s.w.up.(state := Cancelled))
            && s'.log.chanCloses == s.log.chanCloses + 1
  {
    var n := if ch.reply.Wait? then 2 else 1;
    NotTaken(s, t, ch, n);
    SettledCall(Alone(s, t, ch, n), t, ch);
    AloneJoins(s, t, ch, n, 5);
  }

  lemma NotTaken(s: Sys, t: nat, ch: Choice, n: nat)
    requires t in s.threads && s.threads[t].pc == HandingOff(GReply) && s.lock.None? && !ch.reply.Done? && !ch.goesOn
    requires n == if ch.reply.Wait? then 2 else 1
    ensures CameTo(s, Alone(s, t, ch, n), t, HandingOff(GSettle(false)))
    ensures Alone(s, t, ch, n).w == s.w && Alone(s, t, ch, n).log == s.log
  {
    ThreeSteps(s, t, ch);
  }

  lemma SettledCall(s: Sys, t: nat, ch: Choice)
    requires t in s.threads && s.threads[t] == Thread(HandoverRoutine, HandingOff(GSettle(false))) && s.lock.None?
    requires !ch.goesOn
    ensures var s' := Alone(s, t, ch, 5);
            && CameTo(s, s', t, Gone) && s'.w == s.w.(up := s.w.up.(state := Cancelled))
            && s'.log.chanCloses == s.log.chanCloses + 1
  {
    ThreeSteps(s, t, ch);
    var s3 := Alone(s, t, ch, 3);
    assert s3.threads == s.threads[t := s.threads[t].(pc := HandingOff(GSend(false)))] && s3.lock.None?;
    ThreeSteps(s3, t, ch);
    AloneJoins(s, t, ch, 3, 2);
  }

  /** HandoverDone gives up at once unless the upload is being handed over, and after a while unless the
      routine takes its confirmation. */
  lemma FinishCall(s: Sys, t: nat, ch: Choice)
    requires t in s.threads && s.threads[t].pc == Finishing(FCheck) && s.lock.None? && !ch.goesOn
    ensures CameTo(s, ThreadStep(s, t, ch), t, if s.w.up.state.HandingOver? then Finishing(FSend) else Gone)
    ensures s.w.up.state.HandingOver? ==> CameTo(s, Alone(s, t, ch, 2), t, Gone)
    ensures Alone(s, t, ch, 2).w == s.w && Alone(s, t, ch, 2).log == s.log
  {
    ThreeSteps(s, t, ch);
  }
}
