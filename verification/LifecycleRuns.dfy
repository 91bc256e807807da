/** Runs that lead to the outcomes the main results speak of: an upload of one byte that is complete, and
    then handed over and confirmed, or handed over in vain, or cancelled under a waiting handler, or stuck. */
module LifecycleRuns {
  import opened Protocol
  import opened UploadSpec
  import opened Lifecycle
  import opened LifecycleInv
  import opened LifecycleSafety
  import opened LifecycleTimer
  import opened LifecycleChannel

  // ---------------------------------------------------------------- runs

  /** Some run leads to `s` while the timer listens and no reset is under way or owed. */
  ghost predicate Calm(s: Sys) {
    ReachableTimed(Timed(s, Listening, None, {}))
  }

  lemma CalmIsReachable(s: Sys)
    requires Calm(s)
    ensures Reachable(s)
  {
    ReachableProjects(Timed(s, Listening, None, {}));
  }

  lemma {:induction false} RunOn(ts: Timed, es: seq<TimedEvent>, e: TimedEvent)
    requires LegalTimed(ts, es) && Possible(ExecTimed(ts, es), e)
    ensures LegalTimed(ts, es + [e]) && ExecTimed(ts, es + [e]) == Happens(ExecTimed(ts, es), e)
    decreases |es|
  {
    if es == [] {
      assert es + [e] == [e] && [e][1..] == [];
    } else {
      assert (es + [e])[1..] == es[1..] + [e];
      RunOn(Happens(ts, es[0]), es[1..], e);
    }
  }

  lemma StepReaches(ts: Timed, e: TimedEvent)
    requires ReachableTimed(ts) && Possible(ts, e)
    ensures ReachableTimed(Happens(ts, e))
  {
    var id, dir, rm, es :| LegalTimed(Initially(id, dir, rm), es) && ExecTimed(Initially(id, dir, rm), es) == ts;
    RunOn(Initially(id, dir, rm), es, e);
  }

  /** The steps after which somebody owes a reset. */
  predicate MayOwe(s: Sys, e: Event) {
    || e.Confirms?
    || (e.Runs? && e.t in s.threads
        && (s.threads[e.t].pc.Opening? || s.threads[e.t].pc.Closing? || s.threads[e.t].pc == HandingOff(GPost)
            || s.threads[e.t].pc == Cancelling(CPost)))
  }

  lemma NobodyOwes(s: Sys, e: Event)
    requires Enabled(s, e) && !MayOwe(s, e)
    ensures Stepped(Timed(s, Listening, None, {}), e).due == {}
  {
  }

  /** With a listening timer every reset gets through, so a step may be followed by the resets it leads
      to. */
  lemma StepStaysCalm(s: Sys, e: Event)
    requires Calm(s) && Enabled(s, e) && !(e.Arrives? && e.role.Timeout?)
    requires MayOwe(s, e) ==> Apply(s, e).lock.None?
    ensures Calm(Apply(s, e))
  {
    var ts := Timed(s, Listening, None, {});
    StepReaches(ts, Steps(e));
    var ts1 := Happens(ts, Steps(e));
    if ts1.resetting.Some? {
      StepReaches(ts1, Resets);
      ts1 := Happens(ts1, Resets);
    }
    if ts1.due != {} {
      if !MayOwe(s, e) {
        NobodyOwes(s, e);
      }
      var t :| t in ts1.due;
      StepReaches(ts1, Touches(t));
      ts1 := Happens(ts1, Touches(t));
      assert ts1.due == {};
      if ts1.resetting.Some? {
        StepReaches(ts1, Resets);
        ts1 := Happens(ts1, Resets);
      }
    }
  }

  lemma InitiallyCalm()
    ensures Calm(InitialSys("id", "dir", true))
  {
    var ts := Initially("id", "dir", true);
    assert LegalTimed(ts, []) && ExecTimed(ts, []) == ts;
  }

  const FINE: IO := IO(true, true, true, 0, true, true, true)

  function With(frame: Frame, reply: Reply, goesOn: bool, newThread: nat): Choice {
    Choice(1, frame, FINE, reply, goesOn, newThread)
  }

  const THE_BYTE: Bytes := [7]

  // ---------------------------------------------------------------- a complete upload

  const NOTHING_YET: Log := Log(Undecided, 0, 0, None, false, 0, 0, 0, 0, 0, 0, [], false)

  const ALL_STORED: Log := NOTHING_YET.(received := THE_BYTE)

  const NEW_FILE: World := World(Upload("id", "dir", true, Init, true, "", Closed, 0, 1), map[])

  const WHOLE_FILE: World :=
    World(Upload("id", "dir", true, Uploading, true, "dir/id", Closed, 1, 1), map["dir/id" := THE_BYTE])

  /** The only handler stands at `pc`, and nothing has been decided. */
  function Alone(w: World, lock: Option<nat>, pc: Pc, log: Log): Sys {
    Sys(w, lock, Some(0), None, map[0 := Thread(Handler, pc)], log)
  }

  lemma Bind() returns (s: Sys)
    ensures Calm(s)
    ensures s == Alone(NEW_FILE.(up := NEW_FILE.up.(fileSize := 0)), None, Opening(HState), NOTHING_YET)
  {
    var s0 := InitialSys("id", "dir", true);
    InitiallyCalm();
    StepStaysCalm(s0, Arrives(0, Handler));
    var s1 := Apply(s0, Arrives(0, Handler));
    var go := Runs(0, With(FramePause, Done, true, 1));
    StepStaysCalm(s1, go);
    s := Apply(s1, go);
    assert s.threads == map[0 := Thread(Handler, Opening(HState))];
  }

  lemma Opened() returns (s: Sys)
    ensures Calm(s) && s == Alone(NEW_FILE, None, Looping(HLoop), NOTHING_YET)
  {
    var s0 := Bind();
    var go := Runs(0, With(FramePause, Done, true, 1));
    StepStaysCalm(s0, go);
    var s1 := Apply(s0, go);
    StepStaysCalm(s1, go);
    var s2 := Apply(s1, go);
    StepStaysCalm(s2, go);
    s := Apply(s2, go);
    assert s.threads == map[0 := Thread(Handler, Looping(HLoop))];
  }

  lemma Received() returns (s: Sys)
    ensures Calm(s) && s == Alone(NEW_FILE, Some(0), Looping(HPrepare(THE_BYTE, FINE)), NOTHING_YET)
  {
    var s0 := Opened();
    var go := Runs(0, With(FrameChunk(THE_BYTE), Done, true, 1));
    StepStaysCalm(s0, go);
    var s1 := Apply(s0, go);
    StepStaysCalm(s1, go);
    s := Apply(s1, go);
    assert s.threads == map[0 := Thread(Handler, Looping(HPrepare(THE_BYTE, FINE)))];
  }

  lemma Complete() returns (s: Sys)
    ensures Calm(s) && s == Alone(WHOLE_FILE, None, Closing(HHandover), ALL_STORED)
  {
    var s0 := Received();
    var go := Runs(0, With(FramePause, Done, true, 1));
    Stored();
    StepStaysCalm(s0, go);
    var s1 := Apply(s0, go);
    StepStaysCalm(s1, go);
    var s2 := Apply(s1, go);
    assert s2.threads == map[0 := Thread(Handler, Looping(HLoop))];
    StepStaysCalm(s2, go);
    s := Apply(s2, go);
    assert s.threads == map[0 := Thread(Handler, Closing(HHandover))];
  }

  lemma Stored()
    ensures ConsumeState(NEW_FILE, FINE).err.None?
    ensures ConsumeWrite(ConsumeState(NEW_FILE, FINE).w, THE_BYTE, FINE) == Consumed(WHOLE_FILE, None)
  {
    StripPart(NEW_FILE.up);
    assert NEW_FILE.up.PartPath() == "dir/id.part" && NEW_FILE.up.FinalPath() == "dir/id";
    WriteAtEnd([], THE_BYTE);
  }

  // ---------------------------------------------------------------- handed over

  lemma Claimed() returns (s: Sys)
    ensures Calm(s)
    ensures s == Sys(StartHandover(WHOLE_FILE), None, Some(0), Some(1),
                     map[0 := Thread(Handler, Closing(HWait)), 1 := Thread(HandoverRoutine, HandingOff(GPost))],
                     ALL_STORED.(outcome := Handing))
  {
    var s0 := Complete();
    var claim := Runs(0, With(FramePause, Done, true, 1));
    StepStaysCalm(s0, claim);
    s := Apply(s0, claim);
  }

  lemma HandedTo(reply: Reply) returns (s: Sys)
    ensures Calm(s) && s.lock.None? && s.routine == Some(1) && s.w == StartHandover(WHOLE_FILE)
    ensures s.threads == map[0 := Thread(Handler, Closing(HWait)),
                             1 := Thread(HandoverRoutine,
                                         HandingOff(if reply.Wait? then GWait else GSettle(reply.Done?)))]
    ensures s.log.doneOks == 0
  {
    var s0 := Claimed();
    var go := Runs(1, With(FramePause, reply, true, 2));
    StepStaysCalm(s0, go);
    var s1 := Apply(s0, go);
    StepStaysCalm(s1, go);
    s := Apply(s1, go);
  }

  /** A handover can fail: FailedHandoverLeavesFile is about something. */
  lemma FailedHandoverHappens() returns (s: Sys)
    ensures Calm(s) && Reachable(s) && s.log.outcome.HandoverFailed? && s.w.up.fileSize == 1
  {
    var s0 := HandedTo(Failed);
    var go := Runs(1, With(FramePause, Failed, true, 2));
    StepStaysCalm(s0, go);
    s := Apply(s0, go);
    CalmIsReachable(s);
  }

  /** HandoverDone can succeed: ConfirmedIsHandedOver is about something. */
  lemma ConfirmationHappens() returns (s: Sys)
    ensures Calm(s) && Reachable(s) && s.log.doneOks == 1 && s.w.up.fileSize == 1
  {
    var s0 := HandedTo(Wait);
    StepStaysCalm(s0, Arrives(2, FinishRequest));
    var s1 := Apply(s0, Arrives(2, FinishRequest));
    var go := Runs(2, With(FramePause, Wait, true, 3));
    StepStaysCalm(s1, go);
    var s2 := Apply(s1, go);
    StepStaysCalm(s2, Confirms(2, 1));
    s := Apply(s2, Confirms(2, 1));
    CalmIsReachable(s);
  }

  lemma Locked() returns (s: Sys)
    ensures Calm(s)
    ensures s == Sys(WHOLE_FILE, Some(1), Some(0), None,
                     map[0 := Thread(Handler, Closing(HHandover)), 1 := Thread(CancelRequest, Cancelling(CState))],
                     ALL_STORED)
  {
    var s0 := Complete();
    StepStaysCalm(s0, Arrives(1, CancelRequest));
    var s1 := Apply(s0, Arrives(1, CancelRequest));
    var go := Runs(1, With(FramePause, Done, true, 2));
    StepStaysCalm(s1, go);
    s := Apply(s1, go);
  }

  lemma Cancelled() returns (s: Sys)
    ensures Calm(s) && CancelDone(s) && s.lock.None? && s.w.up.path == "dir/id" && s.w.files == map[]
    ensures s.threads == map[0 := Thread(Handler, Closing(HHandover)), 1 := Thread(CancelRequest, Cleaning(KLock))]
    ensures s.w.up.state.Cancelled?
  {
    var s0 := Locked();
    var go := Runs(1, With(FramePause, Done, true, 2));
    StepStaysCalm(s0, go);
    var s1 := Apply(s0, go);
    StepStaysCalm(s1, go);
    s := Apply(s1, go);
  }

  /** A cancel of a complete upload can overtake the handler that is about to hand it over; the handler
      then waits on a channel that is never written or closed. */
  lemma CancelHappens() returns (s: Sys)
    ensures Calm(s) && Reachable(s) && CancelDone(s) && s.w.up.path != "" && s.w.up.path !in s.w.files
    ensures 0 in s.threads && s.threads[0].pc == Closing(HWait)
  {
    var s0 := Cancelled();
    var go := Runs(0, With(FramePause, Done, true, 2));
    StepStaysCalm(s0, go);
    s := Apply(s0, go);
    CalmIsReachable(s);
  }

  /** A thread can get stuck for ever with the handover under way: the timer fires just when the handover
      routine has the lock to reset it. No cancel has won, and the channel is never closed. */
  lemma StuckHappens() returns (ts: Timed)
    ensures ReachableTimed(ts) && Stuck(ts) && NeedsLock(ts)
    ensures ts.s.log.outcome.Handing? && ts.s.w.up.state.HandingOver? && ts.s.w.up.fileSize == 1
  {
    var s0 := Complete();
    var ts0 := Timed(s0, Listening, None, {});
    var claim := Steps(Runs(0, With(FramePause, Done, true, 1)));
    StepReaches(ts0, claim);
    var ts1 := Happens(ts0, claim);
    assert ts1.due == {1} && ts1.resetting.None?;
    StepReaches(ts1, Touches(1));
    var ts2 := Happens(ts1, Touches(1));
    StepReaches(ts2, Fires);
    ts := Happens(ts2, Fires);
  }
}
