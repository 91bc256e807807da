/** Every step of every thread keeps the invariant of LifecycleInv.dfy. */
module LifecycleSteps {
  import opened Protocol
  import opened UploadSpec
  import opened Lifecycle
  import opened LifecycleInv
  import opened LifecycleLog

  predicate Mine(a: Option<nat>, b: Option<nat>, t: nat) {
    a == b || ((a.None? || a == Some(t)) && (b.None? || b == Some(t)))
  }

  /** A step of thread `t` moves only `t`, and only `t` gains or gives up a unique role by it. */
  predicate Local(s: Sys, s': Sys, t: nat)
    requires t in s.threads
  {
    && t in s'.threads && s'.threads == s.threads[t := s'.threads[t]]
    && Mine(s.lock, s'.lock, t) && Mine(s.binder, s'.binder, t) && s'.routine == s.routine
    && (s'.log.outcome == s.log.outcome || !s.log.outcome.CancelWon?)
  }

  lemma LocalKeeps(s: Sys, s': Sys, t: nat)
    requires t in s.threads && Local(s, s', t) && ThreadOK(s', t)
    requires forall u :: u in s.threads ==> ThreadOK(s, u)
    ensures forall u :: u in s'.threads ==> ThreadOK(s', u)
  {
    forall u | u in s'.threads && u != t ensures ThreadOK(s', u) {
      assert ThreadOK(s, u) && s'.threads[u] == s.threads[u];
    }
  }

  /** Everything but the log. */
  predicate MoveOK(s: Sys, s': Sys, t: nat)
    requires t in s.threads
  {
    Local(s, s', t) && ThreadOK(s', t) && RolesOK(s') && OutcomeOK(s') && BinderOK(s') && DataOK(s') && FileOK(s')
  }

  predicate StepOK(s: Sys, s': Sys, t: nat)
    requires t in s.threads
  {
    MoveOK(s, s', t) && LogOK(s')
  }

  // ---------------------------------------------------------------- Cancel

  lemma CLockKeeps(s: Sys, t: nat, ch: Choice)
    requires Core(s) && t in s.threads && s.threads[t].pc == Cancelling(CLock) && ThreadOK(s, t)
    ensures MoveOK(s, CancelStep(s, t, ch), t)
  {
  }

  /** The one state change that decides for cancellation. */
  lemma CStateWinsKeeps(s: Sys, t: nat, ch: Choice)
    requires Core(s) && t in s.threads && s.threads[t].pc == Cancelling(CState) && ThreadOK(s, t)
    requires s.w.up.state.Receiving()
    ensures MoveOK(s, CancelStep(s, t, ch), t)
  {
  }

  lemma CStateRefusedKeeps(s: Sys, t: nat, ch: Choice)
    requires Core(s) && t in s.threads && s.threads[t].pc == Cancelling(CState) && ThreadOK(s, t)
    requires !s.w.up.state.Receiving()
    ensures MoveOK(s, CancelStep(s, t, ch), t)
  {
  }

  /** The cancelling thread closes and removes the file. */
  lemma CFileKeeps(s: Sys, t: nat, ch: Choice)
    requires Core(s) && t in s.threads && s.threads[t].pc == Cancelling(CFile) && ThreadOK(s, t)
    ensures MoveOK(s, CancelStep(s, t, ch), t)
  {
  }

  /** It tells the app backend, if it is one that does. */
  lemma CPostKeeps(s: Sys, t: nat, ch: Choice)
    requires Core(s) && t in s.threads && s.threads[t].pc == Cancelling(CPost) && ThreadOK(s, t)
    ensures MoveOK(s, CancelStep(s, t, ch), t)
  {
  }

  lemma CancelKeeps(s: Sys, t: nat, ch: Choice)
    requires Core(s) && t in s.threads && s.threads[t].pc.Cancelling? && ThreadOK(s, t)
    ensures StepOK(s, CancelStep(s, t, ch), t)
  {
    match s.threads[t].pc.c
    case CLock => CLockKeeps(s, t, ch); CLockLog(s, t, ch);
    case CState =>
      if s.w.up.state.Receiving() { CStateWinsKeeps(s, t, ch); CStateWinsLog(s, t, ch); }
      else { CStateRefusedKeeps(s, t, ch); CStateRefusedLog(s, t, ch); }
    case CFile => CFileKeeps(s, t, ch); CFileLog(s, t, ch);
    case CPost => CPostKeeps(s, t, ch); CPostLog(s, t, ch);
  }

  // ---------------------------------------------------------------- CleanUp

  lemma KLockKeeps(s: Sys, t: nat, ch: Choice)
    requires Core(s) && t in s.threads && s.threads[t].pc == Cleaning(KLock) && ThreadOK(s, t)
    ensures MoveOK(s, CleanStep(s, t, ch), t)
  {
  }

  lemma KCheckPassesKeeps(s: Sys, t: nat, ch: Choice)
    requires Core(s) && t in s.threads && s.threads[t].pc == Cleaning(KCheck) && ThreadOK(s, t)
    requires MayCleanUp(s.w.up.state)
    ensures MoveOK(s, CleanStep(s, t, ch), t)
  {
  }

  lemma KCheckRefusedKeeps(s: Sys, t: nat, ch: Choice)
    requires Core(s) && t in s.threads && s.threads[t].pc == Cleaning(KCheck) && ThreadOK(s, t)
    requires !MayCleanUp(s.w.up.state)
    ensures MoveOK(s, CleanStep(s, t, ch), t)
  {
  }

  /** Cleaning up removes the file of a finished upload and takes the upload out of the pool. */
  lemma KFileKeeps(s: Sys, t: nat, ch: Choice)
    requires Core(s) && t in s.threads && s.threads[t].pc == Cleaning(KFile) && ThreadOK(s, t)
    ensures MoveOK(s, CleanStep(s, t, ch), t)
  {
  }

  lemma KStateKeeps(s: Sys, t: nat, ch: Choice)
    requires Core(s) && t in s.threads && s.threads[t].pc == Cleaning(KState) && ThreadOK(s, t)
    ensures MoveOK(s, CleanStep(s, t, ch), t)
  {
  }

  lemma KCloseKeeps(s: Sys, t: nat, ch: Choice)
    requires Core(s) && t in s.threads && s.threads[t].pc == Cleaning(KClose) && ThreadOK(s, t)
    ensures MoveOK(s, CleanStep(s, t, ch), t)
  {
  }

  lemma CleanKeeps(s: Sys, t: nat, ch: Choice)
    requires Core(s) && t in s.threads && s.threads[t].pc.Cleaning? && ThreadOK(s, t)
    ensures StepOK(s, CleanStep(s, t, ch), t)
  {
    match s.threads[t].pc.k
    case KLock => KLockKeeps(s, t, ch); KLockLog(s, t, ch);
    case KCheck =>
      if MayCleanUp(s.w.up.state) { KCheckPassesKeeps(s, t, ch); KCheckPassesLog(s, t, ch); }
      else { KCheckRefusedKeeps(s, t, ch); KCheckRefusedLog(s, t, ch); }
    case KFile => KFileKeeps(s, t, ch); KFileLog(s, t, ch);
    case KState => KStateKeeps(s, t, ch); KStateLog(s, t, ch);
    case KClose => KCloseKeeps(s, t, ch); KCloseLog(s, t, ch);
  }

  // ---------------------------------------------------------------- the handover routine

  /** The app backend is told where the complete file is. */
  lemma GPostKeeps(s: Sys, t: nat, ch: Choice)
    requires Core(s) && t in s.threads && s.threads[t].pc == HandingOff(GPost) && ThreadOK(s, t)
    ensures MoveOK(s, RoutineStep(s, t, ch), t)
  {
  }

  lemma GReplyKeeps(s: Sys, t: nat, ch: Choice)
    requires Core(s) && t in s.threads && s.threads[t].pc == HandingOff(GReply) && ThreadOK(s, t)
    ensures MoveOK(s, RoutineStep(s, t, ch), t)
  {
  }

  lemma GWaitKeeps(s: Sys, t: nat, ch: Choice)
    requires Core(s) && t in s.threads && s.threads[t].pc == HandingOff(GWait) && ThreadOK(s, t)
    ensures MoveOK(s, RoutineStep(s, t, ch), t)
  {
  }

  /** The unconditional state write of the handover routine. */
  lemma GSettleKeeps(s: Sys, t: nat, ch: Choice)
    requires Core(s) && t in s.threads && s.threads[t].pc.HandingOff? && s.threads[t].pc.g.GSettle? && ThreadOK(s, t)
    ensures MoveOK(s, RoutineStep(s, t, ch), t)
  {
  }

  lemma GSendKeeps(s: Sys, t: nat, ch: Choice)
    requires Core(s) && t in s.threads && s.threads[t].pc.HandingOff? && s.threads[t].pc.g.GSend? && ThreadOK(s, t)
    ensures MoveOK(s, RoutineStep(s, t, ch), t)
  {
  }

  lemma GCloseKeeps(s: Sys, t: nat, ch: Choice)
    requires Core(s) && t in s.threads && s.threads[t].pc == HandingOff(GClose) && ThreadOK(s, t)
    ensures MoveOK(s, RoutineStep(s, t, ch), t)
  {
  }

  lemma RoutineKeeps(s: Sys, t: nat, ch: Choice)
    requires Core(s) && t in s.threads && s.threads[t].pc.HandingOff? && ThreadOK(s, t)
    ensures StepOK(s, RoutineStep(s, t, ch), t)
  {
    match s.threads[t].pc.g
    case GPost => GPostKeeps(s, t, ch); GPostLog(s, t, ch);
    case GReply => GReplyKeeps(s, t, ch); GReplyLog(s, t, ch);
    case GWait => GWaitKeeps(s, t, ch); GWaitLog(s, t, ch);
    case GSettle(ok) => GSettleKeeps(s, t, ch); GSettleLog(s, t, ch);
    case GSend(ok) => GSendKeeps(s, t, ch); GSendLog(s, t, ch);
    case GClose => GCloseKeeps(s, t, ch); GCloseLog(s, t, ch);
  }

  // ---------------------------------------------------------------- HandoverDone

  lemma FCheckKeeps(s: Sys, t: nat, ch: Choice)
    requires Core(s) && t in s.threads && s.threads[t].pc == Finishing(FCheck) && ThreadOK(s, t)
    ensures MoveOK(s, FinishStep(s, t, ch), t)
  {
  }

  lemma FSendKeeps(s: Sys, t: nat, ch: Choice)
    requires Core(s) && t in s.threads && s.threads[t].pc == Finishing(FSend) && ThreadOK(s, t)
    ensures MoveOK(s, FinishStep(s, t, ch), t)
  {
  }

  lemma FinishKeeps(s: Sys, t: nat, ch: Choice)
    requires Core(s) && t in s.threads && s.threads[t].pc.Finishing? && ThreadOK(s, t)
    ensures StepOK(s, FinishStep(s, t, ch), t)
  {
    match s.threads[t].pc.f
    case FCheck => FCheckKeeps(s, t, ch); FCheckLog(s, t, ch);
    case FSend => FSendKeeps(s, t, ch); FSendLog(s, t, ch);
  }

  // ---------------------------------------------------------------- a handler opens and closes its session

  /** Binding the upload. */
  lemma HBindKeeps(s: Sys, t: nat, ch: Choice)
    requires Core(s) && t in s.threads && s.threads[t].pc == Opening(HBind) && ThreadOK(s, t)
    ensures MoveOK(s, OpeningStep(s, t, ch), t)
  {
  }

  lemma HStateKeeps(s: Sys, t: nat, ch: Choice)
    requires Core(s) && t in s.threads && s.threads[t].pc == Opening(HState) && ThreadOK(s, t)
    ensures MoveOK(s, OpeningStep(s, t, ch), t)
  {
  }

  /** Fixing the size of a new upload. */
  lemma HNewSizeKeeps(s: Sys, t: nat, ch: Choice)
    requires Core(s) && t in s.threads && s.threads[t].pc == Opening(HSize(Init)) && ThreadOK(s, t)
    ensures MoveOK(s, OpeningStep(s, t, ch), t)
  {
  }

  /** Checking the size of one that is resumed. */
  lemma HSameSizeKeeps(s: Sys, t: nat, ch: Choice)
    requires Core(s) && t in s.threads && s.threads[t].pc.Opening? && s.threads[t].pc.o.HSize? && ThreadOK(s, t)
    requires s.threads[t].pc.o.seen != Init
    ensures MoveOK(s, OpeningStep(s, t, ch), t)
  {
  }

  lemma HHandshakeKeeps(s: Sys, t: nat, ch: Choice)
    requires Core(s) && t in s.threads && s.threads[t].pc.Opening? && s.threads[t].pc.o.HHandshake? && ThreadOK(s, t)
    ensures MoveOK(s, OpeningStep(s, t, ch), t)
  {
  }

  /** Unbinding it. */
  lemma HUnbindKeeps(s: Sys, t: nat, ch: Choice)
    requires Core(s) && t in s.threads && s.threads[t].pc == Opening(HUnbind) && ThreadOK(s, t)
    ensures MoveOK(s, OpeningStep(s, t, ch), t)
  {
  }

  lemma OpeningKeeps(s: Sys, t: nat, ch: Choice)
    requires Core(s) && t in s.threads && s.threads[t].pc.Opening? && ThreadOK(s, t)
    ensures StepOK(s, OpeningStep(s, t, ch), t)
  {
    match s.threads[t].pc.o
    case HBind => HBindKeeps(s, t, ch); HBindLog(s, t, ch);
    case HState => HStateKeeps(s, t, ch); HStateLog(s, t, ch);
    case HSize(seen) =>
      if seen.Init? { HNewSizeKeeps(s, t, ch); HNewSizeLog(s, t, ch); }
      else { HSameSizeKeeps(s, t, ch); HSameSizeLog(s, t, ch); }
    case HHandshake(seen) => HHandshakeKeeps(s, t, ch); HHandshakeLog(s, t, ch);
    case HUnbind => HUnbindKeeps(s, t, ch); HUnbindLog(s, t, ch);
  }

  // ---------------------------------------------------------------- the receive loop

  lemma HLoopKeeps(s: Sys, t: nat, ch: Choice)
    requires Core(s) && t in s.threads && s.threads[t].pc == Looping(HLoop) && ThreadOK(s, t)
    ensures MoveOK(s, LoopStep(s, t, ch), t)
  {
  }

  lemma HConsumeKeeps(s: Sys, t: nat, ch: Choice)
    requires Core(s) && t in s.threads && s.threads[t].pc.Looping? && s.threads[t].pc.l.HConsume? && ThreadOK(s, t)
    ensures MoveOK(s, LoopStep(s, t, ch), t)
  {
  }

  /** The state business of a chunk. */
  lemma HPrepareKeeps(s: Sys, t: nat, ch: Choice)
    requires Core(s) && t in s.threads && s.threads[t].pc.Looping? && s.threads[t].pc.l.HPrepare? && ThreadOK(s, t)
    ensures MoveOK(s, LoopStep(s, t, ch), t)
  {
  }

  /** Storing a chunk fills the file. */
  lemma HStoreKeeps(s: Sys, t: nat, ch: Choice)
    requires Core(s) && t in s.threads && s.threads[t].pc.Looping? && s.threads[t].pc.l.HStore? && ThreadOK(s, t)
    ensures MoveOK(s, LoopStep(s, t, ch), t)
  {
    HStoreMoves(s, t, ch);
    HStoreData(s, t, ch);
  }

  lemma HStoreMoves(s: Sys, t: nat, ch: Choice)
    requires Core(s) && t in s.threads && s.threads[t].pc.Looping? && s.threads[t].pc.l.HStore? && ThreadOK(s, t)
    ensures var s' := LoopStep(s, t, ch);
            Local(s, s', t) && ThreadOK(s', t) && RolesOK(s') && OutcomeOK(s') && BinderOK(s')
  {
    ConsumeWriteFields(s.w, s.threads[t].pc.l.chunk, s.threads[t].pc.l.io);
  }

  lemma HStoreData(s: Sys, t: nat, ch: Choice)
    requires Core(s) && t in s.threads && s.threads[t].pc.Looping? && s.threads[t].pc.l.HStore? && ThreadOK(s, t)
    ensures DataOK(LoopStep(s, t, ch)) && FileOK(LoopStep(s, t, ch))
  {
    ConsumeWriteFields(s.w, s.threads[t].pc.l.chunk, s.threads[t].pc.l.io);
  }

  lemma HFailedKeeps(s: Sys, t: nat, ch: Choice)
    requires Core(s) && t in s.threads && s.threads[t].pc == Looping(HFailed) && ThreadOK(s, t)
    ensures MoveOK(s, LoopStep(s, t, ch), t)
  {
  }

  lemma LoopKeeps(s: Sys, t: nat, ch: Choice)
    requires Core(s) && t in s.threads && s.threads[t].pc.Looping? && ThreadOK(s, t)
    ensures StepOK(s, LoopStep(s, t, ch), t)
  {
    match s.threads[t].pc.l
    case HLoop => HLoopKeeps(s, t, ch); HLoopLog(s, t, ch);
    case HConsume(chunk, io) => HConsumeKeeps(s, t, ch); HConsumeLog(s, t, ch);
    case HPrepare(chunk, io) => HPrepareKeeps(s, t, ch); HPrepareLog(s, t, ch);
    case HStore(chunk, io) => HStoreKeeps(s, t, ch); HStoreLog(s, t, ch);
    case HFailed => HFailedKeeps(s, t, ch); HFailedLog(s, t, ch);
  }

  // ---------------------------------------------------------------- pausing

  lemma HPauseKeeps(s: Sys, t: nat, ch: Choice)
    requires Core(s) && t in s.threads && s.threads[t].pc == Pausing(HPause) && ThreadOK(s, t)
    ensures MoveOK(s, PauseStep(s, t, ch), t)
  {
  }

  /** Pausing, before the handle is closed. */
  lemma HPauseStateKeeps(s: Sys, t: nat, ch: Choice)
    requires Core(s) && t in s.threads && s.threads[t].pc == Pausing(HPauseState) && ThreadOK(s, t)
    ensures MoveOK(s, PauseStep(s, t, ch), t)
  {
  }

  lemma HPauseCloseKeeps(s: Sys, t: nat, ch: Choice)
    requires Core(s) && t in s.threads && s.threads[t].pc == Pausing(HPauseClose) && ThreadOK(s, t)
    ensures MoveOK(s, PauseStep(s, t, ch), t)
  {
  }

  lemma PauseKeeps(s: Sys, t: nat, ch: Choice)
    requires Core(s) && t in s.threads && s.threads[t].pc.Pausing? && ThreadOK(s, t)
    ensures StepOK(s, PauseStep(s, t, ch), t)
  {
    PauseLog(s, t, ch);
    match s.threads[t].pc.p
    case HPause => HPauseKeeps(s, t, ch);
    case HPauseState => HPauseStateKeeps(s, t, ch);
    case HPauseClose => HPauseCloseKeeps(s, t, ch);
  }

  // ---------------------------------------------------------------- after the handover call

  lemma HWaitKeeps(s: Sys, t: nat, ch: Choice)
    requires Core(s) && t in s.threads && s.threads[t].pc == Closing(HWait) && ThreadOK(s, t)
    ensures MoveOK(s, ClosingStep(s, t, ch), t)
  {
  }

  /** A handler that has heard of no error tells its browser what the state says. */
  lemma HReportKeeps(s: Sys, t: nat, ch: Choice)
    requires Core(s) && t in s.threads && s.threads[t].pc == Closing(HReport(false)) && ThreadOK(s, t)
    ensures MoveOK(s, ClosingStep(s, t, ch), t)
  {
  }

  lemma HReportErrorKeeps(s: Sys, t: nat, ch: Choice)
    requires Core(s) && t in s.threads && s.threads[t].pc == Closing(HReport(true)) && ThreadOK(s, t)
    ensures MoveOK(s, ClosingStep(s, t, ch), t)
  {
  }

  lemma ClosingKeeps(s: Sys, t: nat, ch: Choice)
    requires Core(s) && t in s.threads && s.threads[t].pc.Closing? && ThreadOK(s, t) && s.threads[t].pc.e != HHandover
    ensures StepOK(s, ClosingStep(s, t, ch), t)
  {
    match s.threads[t].pc.e
    case HWait => HWaitKeeps(s, t, ch); HWaitLog(s, t, ch);
    case HReport(err) =>
      if err { HReportErrorKeeps(s, t, ch); HReportErrorLog(s, t, ch); }
      else { HReportKeeps(s, t, ch); HReportLog(s, t, ch); }
    case HHandover =>
  }

  // ---------------------------------------------------------------- steps that involve two threads

  lemma HandoverThreads(s: Sys, t: nat, ch: Choice)
    requires RolesOK(s) && OutcomeOK(s) && (forall u :: u in s.threads ==> ThreadOK(s, u))
    requires t in s.threads && s.threads[t].pc == Closing(HHandover)
    ensures var s' := ClosingStep(s, t, ch); RolesOK(s') && forall u :: u in s'.threads ==> ThreadOK(s', u)
  {
  }

  lemma HandoverOutcome(s: Sys, t: nat, ch: Choice)
    requires Core(s) && t in s.threads && ThreadOK(s, t) && s.threads[t].pc == Closing(HHandover)
    ensures OutcomeOK(ClosingStep(s, t, ch)) && BinderOK(ClosingStep(s, t, ch))
  {
  }

  lemma HandoverLog(s: Sys, t: nat, ch: Choice)
    requires Core(s) && t in s.threads && ThreadOK(s, t) && s.threads[t].pc == Closing(HHandover)
    ensures LogOK(ClosingStep(s, t, ch))
  {
  }

  lemma HandoverData(s: Sys, t: nat, ch: Choice)
    requires RolesOK(s) && OutcomeOK(s) && BinderOK(s) && DataOK(s) && FileOK(s)
    requires t in s.threads && ThreadOK(s, t) && s.threads[t].pc == Closing(HHandover)
    ensures DataOK(ClosingStep(s, t, ch)) && FileOK(ClosingStep(s, t, ch))
  {
  }

  /** The call that starts the handover routine: from then on the outcome is no longer open. */
  lemma HandoverKeeps(s: Sys, t: nat, ch: Choice)
    requires Inv(s) && t in s.threads && s.threads[t].pc == Closing(HHandover)
    ensures Inv(ClosingStep(s, t, ch))
  {
    HandoverThreads(s, t, ch);
    HandoverOutcome(s, t, ch);
    HandoverLog(s, t, ch);
    HandoverData(s, t, ch);
  }

  lemma ArrivalCore(s: Sys, t: nat, role: Role)
    requires Core(s) && Enabled(s, Arrives(t, role))
    ensures Core(Apply(s, Arrives(t, role)))
  {
  }

  lemma ArrivalKeeps(s: Sys, t: nat, role: Role)
    requires Inv(s) && Enabled(s, Arrives(t, role))
    ensures Inv(Apply(s, Arrives(t, role)))
  {
    var s' := Apply(s, Arrives(t, role));
    ArrivalCore(s, t, role);
    forall u | u in s'.threads ensures ThreadOK(s', u) {
      if u != t {
        assert ThreadOK(s, u) && s'.threads[u] == s.threads[u];
      }
    }
  }

  /** A confirmation that meets the waiting routine, seen from the routine. */
  lemma ConfirmedKeeps(s: Sys, g: nat)
    requires Core(s) && g in s.threads && s.threads[g].pc == HandingOff(GWait) && ThreadOK(s, g)
    ensures StepOK(s, Go(s, g, HandingOff(GSettle(true))).(log := s.log.(doneOks := s.log.doneOks + 1)), g)
  {
  }

  lemma ConfirmKeeps(s: Sys, f: nat, g: nat)
    requires Inv(s) && Enabled(s, Confirms(f, g))
    ensures Inv(Apply(s, Confirms(f, g)))
  {
    var s1 := Go(s, f, Gone);
    assert ThreadOK(s, f) && ThreadOK(s, g);
    FinishedKeeps(s, f);
    LocalKeeps(s, s1, f);
    ConfirmedKeeps(s1, g);
    LocalKeeps(s1, Apply(s, Confirms(f, g)), g);
  }

  lemma FinishedKeeps(s: Sys, f: nat)
    requires Core(s) && f in s.threads && s.threads[f].pc == Finishing(FSend) && ThreadOK(s, f)
    ensures StepOK(s, Go(s, f, Gone), f)
  {
  }

  /** The routine's error meets a waiting handler, seen from the handler. */
  lemma HeardKeeps(s: Sys, h: nat, err: bool)
    requires Core(s) && h in s.threads && s.threads[h].pc == Closing(HWait) && ThreadOK(s, h)
    ensures StepOK(s, Go(s, h, Closing(HReport(err))), h)
  {
  }

  /** And from the routine. */
  lemma SentKeeps(s: Sys, g: nat)
    requires Core(s) && g in s.threads && s.threads[g].pc.HandingOff? && s.threads[g].pc.g.GSend? && ThreadOK(s, g)
    ensures StepOK(s, Go(s, g, HandingOff(GClose)).(log := s.log.(chanSends := s.log.chanSends + 1)), g)
  {
  }

  lemma TellKeeps(s: Sys, g: nat, h: nat)
    requires Inv(s) && Enabled(s, Event.Tells(g, h))
    ensures Inv(Apply(s, Event.Tells(g, h)))
  {
    var err := !s.threads[g].pc.g.sentOk;
    var s1 := Go(s, h, Closing(HReport(err)));
    assert ThreadOK(s, g) && ThreadOK(s, h);
    HeardKeeps(s, h, err);
    LocalKeeps(s, s1, h);
    SentKeeps(s1, g);
    LocalKeeps(s1, Apply(s, Event.Tells(g, h)), g);
  }

  // ---------------------------------------------------------------- every run

  lemma ThreadKeeps(s: Sys, t: nat, ch: Choice)
    requires Inv(s) && t in s.threads
    ensures Inv(ThreadStep(s, t, ch))
  {
    if s.threads[t].pc == Closing(HHandover) {
      HandoverKeeps(s, t, ch);
    } else if !s.threads[t].pc.Gone? {
      assert ThreadOK(s, t);
      match s.threads[t].pc {
        case Opening(o) => OpeningKeeps(s, t, ch);
        case Looping(l) => LoopKeeps(s, t, ch);
        case Pausing(p) => PauseKeeps(s, t, ch);
        case Closing(e) => ClosingKeeps(s, t, ch);
        case Cancelling(c) => CancelKeeps(s, t, ch);
        case Cleaning(k) => CleanKeeps(s, t, ch);
        case HandingOff(g) => RoutineKeeps(s, t, ch);
        case Finishing(f) => FinishKeeps(s, t, ch);
        case Gone =>
      }
      LocalKeeps(s, ThreadStep(s, t, ch), t);
    }
  }

  lemma StepKeeps(s: Sys, e: Event)
    requires Inv(s) && Enabled(s, e)
    ensures Inv(Apply(s, e))
  {
    match e
    case Arrives(t, role) => ArrivalKeeps(s, t, role);
    case Runs(t, ch) => ThreadKeeps(s, t, ch);
    case Confirms(f, g) => ConfirmKeeps(s, f, g);
    case Tells(g, h) => TellKeeps(s, g, h);
  }

  /** However the callers interleave, every state satisfies the invariant. */
  lemma {:induction false} RunKeeps(s: Sys, es: seq<Event>)
    requires Inv(s) && Legal(s, es)
    ensures Inv(Exec(s, es))
    decreases |es|
  {
    if es != [] {
      StepKeeps(s, es[0]);
      RunKeeps(Apply(s, es[0]), es[1..]);
    }
  }
}
