/** One upload under any number of concurrent callers. Every critical section of the two locks is a
    step of its own, so the threads interleave as finely as the locks allow: websocket handlers,
    timeouts, cancel and finish requests of the app backend, and the handover routine. */
module Lifecycle {
  import opened Protocol
  import opened UploadSpec

  datatype Role = Handler | Timeout | CancelRequest | FinishRequest | HandoverRoutine {
    /** Whether its Cancel call notifies the app backend. */
    predicate Tells() {
      Handler? || Timeout?
    }
  }

  /** Where a thread stands: in a websocket handler (H), in Cancel (C), in CleanUp (K), in the handover
      routine (G), in HandoverDone (F). */
  datatype Pc =
    | Opening(o: OpeningPc) | Looping(l: LoopPc) | Pausing(p: PausePc) | Closing(e: ClosingPc)
    | Cancelling(c: CancelPc) | Cleaning(k: CleanPc) | HandingOff(g: HandoverPc) | Finishing(f: FinishPc)
    | Gone
  {
    /** The thread holds the uploader's lock. */
    predicate Locked() {
      match this
      case Looping(l) => l.HPrepare? || l.HStore?
      case Pausing(p) => !p.HPause?
      case Cancelling(c) => c.CState? || c.CFile?
      case Cleaning(k) => !k.KLock?
      case _ => false
    }

    predicate HandlerPart() {
      Opening? || Looping? || Pausing? || Closing?
    }

    /** Inside the receive loop, with the file incomplete. */
    predicate Storing() {
      Pausing? || (Looping? && !l.HLoop? && !l.HFailed?)
    }
  }

  datatype OpeningPc = HBind | HState | HSize(seen: State) | HHandshake(seen: State) | HUnbind

  datatype LoopPc =
    | HLoop | HConsume(chunk: Bytes, io: IO) | HPrepare(chunk: Bytes, io: IO) | HStore(chunk: Bytes, io: IO) | HFailed

  datatype PausePc = HPause | HPauseState | HPauseClose

  datatype ClosingPc = HHandover | HWait | HReport(err: bool)

  datatype CancelPc = CLock | CState | CFile | CPost

  datatype CleanPc = KLock | KCheck | KFile | KState | KClose

  datatype HandoverPc = GPost | GReply | GWait | GSettle(ok: bool) | GSend(sentOk: bool) | GClose

  datatype FinishPc = FCheck | FSend

  datatype Thread = Thread(role: Role, pc: Pc) {
    /** A handler between its successful bind and its unbind. */
    predicate Bound() {
      role.Handler? && pc != Opening(HBind) && !pc.Gone?
    }
  }

  /** How the upload ended, or who is ending it. */
  datatype Outcome = Undecided | CancelWon(winner: nat) | Handing | HandedOver | HandoverFailed

  datatype Told = Told(path: string, data: Bytes)

  /** What has happened so far: requests sent to the app backend, clean-ups, uses of the wait channel,
      successful HandoverDone calls, success messages to browsers, the bytes of all stored chunks, and
      whether the clean-up has removed the file of a finished upload. */
  datatype Log = Log(outcome: Outcome, sentNo: nat, sentYes: nat, told: Option<Told>, fileGone: bool,
                     poolRemoves: nat, timeoutCloses: nat, chanSends: nat, chanCloses: nat,
                     doneOks: nat, allDones: nat, received: Bytes, removed: bool)

  /** `binder` is the handler that has bound the upload, `routine` the handover routine, once started. */
  datatype Sys = Sys(w: World, lock: Option<nat>, binder: Option<nat>, routine: Option<nat>,
                     threads: map<nat, Thread>, log: Log)

  datatype Reply = Done | Wait | Failed

  datatype Frame = FrameChunk(chunk: Bytes) | FramePause | FrameCancel | FrameGone

  /** What the surroundings decide when a thread runs. */
  datatype Choice = Choice(size: int, frame: Frame, io: IO, reply: Reply, goesOn: bool, newThread: nat)

  function InitialSys(id: string, dir: string, removeWhenFinished: bool): Sys {
    Sys(World(Upload(id, dir, removeWhenFinished, Init, false, "", Closed, 0, 0), map[]), None, None, None, map[],
        Log(Undecided, 0, 0, None, false, 0, 0, 0, 0, 0, 0, [], false))
  }

  // ---------------------------------------------------------------- one thread, one step

  function Go(s: Sys, t: nat, pc: Pc): Sys
    requires t in s.threads
  {
    s.(threads := s.threads[t := s.threads[t].(pc := pc)])
  }

  function Release(s: Sys): Sys {
    s.(lock := None)
  }

  /** Taking the uploader's lock and going on, or waiting for it. */
  function Acquire(s: Sys, t: nat, pc: Pc): Sys
    requires t in s.threads
  {
    if s.lock.Some? then s else Go(s, t, pc).(lock := Some(t))
  }

  /** A handler binds the upload and agrees with its client on size and position; at the end it unbinds. */
  function OpeningStep(s: Sys, t: nat, ch: Choice): Sys
    requires t in s.threads && s.threads[t].pc.Opening?
  {
    match s.threads[t].pc.o
    case HBind =>
      if s.lock.Some? then s
      else if s.w.up.bound then Go(s, t, Gone)
      else Go(s, t, Opening(HState)).(w := s.w.(up := s.w.up.(bound := true)), binder := Some(t))
    case HState => Go(s, t, Opening(HSize(s.w.up.state)))
    case HSize(seen) =>
      if s.lock.Some? then s
      else if seen.Init? then
        if s.w.up.state.Init? then Go(s, t, Opening(HHandshake(seen))).(w := s.w.(up := s.w.up.(fileSize := ch.size)))
        else Go(s, t, Opening(HUnbind))
      else Go(s, t, if ch.size == s.w.up.fileSize then Opening(HHandshake(seen)) else Opening(HUnbind))
    case HHandshake(seen) =>
      Go(s, t, if seen.Rank() >= Cancelled.Rank() || !ch.goesOn then Opening(HUnbind) else Looping(HLoop))
    case HUnbind =>
      if s.lock.Some? then s
      else Go(s, t, Gone).(w := s.w.(up := s.w.up.(bound := false)), binder := None)
  }

  /** The receive loop. */
  function LoopStep(s: Sys, t: nat, ch: Choice): Sys
    requires t in s.threads && s.threads[t].pc.Looping?
  {
    match s.threads[t].pc.l
    case HLoop =>
      if s.lock.Some? then s
      else if s.w.up.filePos == s.w.up.fileSize then Go(s, t, Closing(HHandover))
      else Go(s, t, match ch.frame
                    case FrameChunk(chunk) => Looping(HConsume(chunk, ch.io))
                    case FramePause => Pausing(HPause)
                    case FrameCancel => Cancelling(CLock)
                    case FrameGone => Opening(HUnbind))
    case HConsume(chunk, io) => Acquire(s, t, Looping(HPrepare(chunk, io)))
    case HPrepare(chunk, io) =>
      var c := ConsumeState(s.w, io);
      if c.err.Some? then Release(Go(s, t, Looping(HFailed)).(w := c.w))
      else Go(s, t, Looping(HStore(chunk, io))).(w := c.w)
    case HStore(chunk, io) =>
      var c := ConsumeWrite(s.w, chunk, io);
      if c.err.Some? then Release(Go(s, t, Looping(HFailed)).(w := c.w))
      else Release(Go(s, t, Looping(HLoop)).(w := c.w, log := s.log.(received := s.log.received + chunk)))
    case HFailed => Go(s, t, if s.w.up.state.Cancelled? then Opening(HUnbind) else Cancelling(CLock))
  }

  /** The Pause call of the receive loop. */
  function PauseStep(s: Sys, t: nat, ch: Choice): Sys
    requires t in s.threads && s.threads[t].pc.Pausing?
  {
    match s.threads[t].pc.p
    case HPause => Acquire(s, t, Pausing(HPauseState))
    case HPauseState =>
      if s.w.up.state.Uploading? || s.w.up.state.Paused?
      then Go(s, t, Pausing(HPauseClose)).(w := s.w.(up := s.w.up.(state := Paused)))
      else Release(Go(s, t, Looping(HLoop)))
    case HPauseClose => Release(Go(s, t, Looping(HLoop)).(w := s.w.(up := s.w.up.(fd := Closed))))
  }

  /** Handing over, waiting, reporting. */
  function ClosingStep(s: Sys, t: nat, ch: Choice): Sys
    requires t in s.threads && s.threads[t].pc.Closing?
  {
    match s.threads[t].pc.e
    case HHandover =>
      if !s.w.up.state.Receiving() then Go(s, t, Closing(HWait))
      else if ch.newThread in s.threads then s
      else
        var s' := Go(s, t, Closing(HWait));
        s'.(w := StartHandover(s.w), routine := Some(ch.newThread),
            threads := s'.threads[ch.newThread := Thread(HandoverRoutine, HandingOff(GPost))],
            log := s.log.(outcome := Handing))
    case HWait =>
      if !ch.goesOn then Go(s, t, Opening(HUnbind))
      else if s.log.chanCloses > 0 then Go(s, t, Closing(HReport(false)))
      else s
    case HReport(err) =>
      if err then Go(s, t, Opening(HUnbind))
      else
        var log := if s.w.up.state.Finished? then s.log.(allDones := s.log.allDones + 1) else s.log;
        Go(s, t, if ch.goesOn then Cleaning(KLock) else Opening(HUnbind)).(log := log)
  }

  /** Where a thread goes after its Cancel call. */
  function AfterCancel(role: Role, ok: bool): Pc {
    match role
    case Handler => Cleaning(KLock)
    case Timeout => Cleaning(KLock)
    case CancelRequest => if ok then Cleaning(KLock) else Gone
    case FinishRequest => Gone
    case HandoverRoutine => HandingOff(GSend(false))
  }

  function AfterCleanUp(role: Role): Pc {
    if role.Handler? then Opening(HUnbind) else Gone
  }

  function CancelStep(s: Sys, t: nat, ch: Choice): Sys
    requires t in s.threads && s.threads[t].pc.Cancelling?
  {
    var role := s.threads[t].role;
    match s.threads[t].pc.c
    case CLock => Acquire(s, t, Cancelling(CState))
    case CState =>
      if s.w.up.state.Receiving()
      then Go(s, t, Cancelling(CFile)).(w := CancelState(s.w), log := s.log.(outcome := CancelWon(t)))
      else Release(Go(s, t, AfterCancel(role, false)))
    case CFile =>
      Release(Go(s, t, if role.Tells() then Cancelling(CPost) else AfterCancel(role, true))
              .(w := CancelFile(s.w, ch.io.removeOk),
                log := s.log.(fileGone := ch.io.removeOk || s.w.up.path == "")))
    case CPost => Go(s, t, AfterCancel(role, true)).(log := s.log.(sentYes := s.log.sentYes + 1))
  }

  function CleanStep(s: Sys, t: nat, ch: Choice): Sys
    requires t in s.threads && s.threads[t].pc.Cleaning?
  {
    var role := s.threads[t].role;
    match s.threads[t].pc.k
    case KLock => Acquire(s, t, Cleaning(KCheck))
    case KCheck =>
      if MayCleanUp(s.w.up.state) then Go(s, t, Cleaning(KFile)) else Release(Go(s, t, AfterCleanUp(role)))
    case KFile =>
      var removed := s.w.up.removeWhenFinished && !s.w.up.state.Cancelled? && ch.io.removeOk;
      Go(s, t, Cleaning(KState)).(w := CleanFile(s.w, ch.io.removeOk),
                                  log := s.log.(poolRemoves := s.log.poolRemoves + 1, removed := removed))
    case KState => Go(s, t, Cleaning(KClose)).(w := s.w.(up := s.w.up.(state := CleanedUp)))
    case KClose => Release(Go(s, t, AfterCleanUp(role)).(log := s.log.(timeoutCloses := s.log.timeoutCloses + 1)))
  }

  function RoutineStep(s: Sys, t: nat, ch: Choice): Sys
    requires t in s.threads && s.threads[t].pc.HandingOff?
  {
    match s.threads[t].pc.g
    case GPost =>
      Go(s, t, HandingOff(GReply)).(log := s.log.(sentNo := s.log.sentNo + 1,
                                                  told := Some(Told(s.w.up.path, s.w.Stored()))))
    case GReply =>
      Go(s, t, match ch.reply
               case Done => HandingOff(GSettle(true))
               case Wait => HandingOff(GWait)
               case Failed => HandingOff(GSettle(false)))
    case GWait => if ch.goesOn then s else Go(s, t, HandingOff(GSettle(false)))
    case GSettle(ok) =>
      Go(s, t, if ok then HandingOff(GSend(true)) else Cancelling(CLock))
        .(w := Settle(s.w, ok), log := s.log.(outcome := if ok then HandedOver else HandoverFailed))
    case GSend(ok) => if ch.goesOn then s else Go(s, t, HandingOff(GClose))
    case GClose => Go(s, t, Gone).(log := s.log.(chanCloses := s.log.chanCloses + 1))
  }

  function FinishStep(s: Sys, t: nat, ch: Choice): Sys
    requires t in s.threads && s.threads[t].pc.Finishing?
  {
    match s.threads[t].pc.f
    case FCheck => Go(s, t, if s.w.up.state.HandingOver? then Finishing(FSend) else Gone)
    case FSend => if ch.goesOn then s else Go(s, t, Gone)
  }

  function ThreadStep(s: Sys, t: nat, ch: Choice): (s': Sys)
    requires t in s.threads
    ensures t in s'.threads
  {
    match s.threads[t].pc
    case Opening(o) => OpeningStep(s, t, ch)
    case Looping(l) => LoopStep(s, t, ch)
    case Pausing(p) => PauseStep(s, t, ch)
    case Closing(e) => ClosingStep(s, t, ch)
    case Cancelling(c) => CancelStep(s, t, ch)
    case Cleaning(k) => CleanStep(s, t, ch)
    case HandingOff(g) => RoutineStep(s, t, ch)
    case Finishing(f) => FinishStep(s, t, ch)
    case Gone => s
  }

  // ---------------------------------------------------------------- the system

  datatype Event =
    | Arrives(t: nat, role: Role)            // a new caller
    | Runs(t: nat, ch: Choice)               // one step of a thread
    | Confirms(finish: nat, routine: nat)    // HandoverDone meets the waiting routine
    | Tells(routine: nat, handler: nat)      // the routine's error meets a waiting handler

  function FirstPc(role: Role): Pc {
    match role
    case Handler => Opening(HBind)
    case Timeout => Cancelling(CLock)
    case CancelRequest => Cancelling(CLock)
    case FinishRequest => Finishing(FCheck)
    case HandoverRoutine => Gone
  }

  predicate Enabled(s: Sys, e: Event) {
    match e
    case Arrives(t, role) => t !in s.threads && !role.HandoverRoutine?
    case Runs(t, ch) => t in s.threads
    case Confirms(f, g) => f in s.threads && g in s.threads && s.threads[f].pc == Finishing(FSend)
                           && s.threads[g].pc == HandingOff(GWait)
    case Tells(g, h) => g in s.threads && h in s.threads && s.threads[h].pc == Closing(HWait)
                        && s.threads[g].pc.HandingOff? && s.threads[g].pc.g.GSend?
  }

  function Apply(s: Sys, e: Event): Sys
    requires Enabled(s, e)
  {
    match e
    case Arrives(t, role) => s.(threads := s.threads[t := Thread(role, FirstPc(role))])
    case Runs(t, ch) => ThreadStep(s, t, ch)
    case Confirms(f, g) =>
      Go(Go(s, f, Gone), g, HandingOff(GSettle(true))).(log := s.log.(doneOks := s.log.doneOks + 1))
    case Tells(g, h) =>
      var s1 := Go(s, h, Closing(HReport(!s.threads[g].pc.g.sentOk)));
      Go(s1, g, HandingOff(GClose)).(log := s.log.(chanSends := s.log.chanSends + 1))
  }

  predicate Legal(s: Sys, es: seq<Event>)
    decreases |es|
  {
    es == [] || (Enabled(s, es[0]) && Legal(Apply(s, es[0]), es[1..]))
  }

  function Exec(s: Sys, es: seq<Event>): Sys
    requires Legal(s, es)
    decreases |es|
  {
    if es == [] then s else Exec(Apply(s, es[0]), es[1..])
  }
}
