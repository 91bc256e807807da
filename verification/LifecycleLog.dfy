/** What has happened so far is counted rightly by every step that belongs to one thread. */
module LifecycleLog {
  import opened Protocol
  import opened UploadSpec
  import opened Lifecycle
  import opened LifecycleInv

  lemma CLockLog(s: Sys, t: nat, ch: Choice)
    requires RolesOK(s) && OutcomeOK(s) && LogOK(s)
    requires t in s.threads && s.threads[t].pc == Cancelling(CLock) && ThreadOK(s, t)
    ensures LogOK(CancelStep(s, t, ch))
  {
  }

  lemma CStateWinsLog(s: Sys, t: nat, ch: Choice)
    requires RolesOK(s) && OutcomeOK(s) && LogOK(s)
    requires t in s.threads && s.threads[t].pc == Cancelling(CState) && ThreadOK(s, t)
    requires s.w.up.state.Receiving()
    ensures LogOK(CancelStep(s, t, ch))
  {
  }

  lemma CStateRefusedLog(s: Sys, t: nat, ch: Choice)
    requires RolesOK(s) && OutcomeOK(s) && LogOK(s)
    requires t in s.threads && s.threads[t].pc == Cancelling(CState) && ThreadOK(s, t)
    requires !s.w.up.state.Receiving()
    ensures LogOK(CancelStep(s, t, ch))
  {
  }

  lemma CFileLog(s: Sys, t: nat, ch: Choice)
    requires RolesOK(s) && OutcomeOK(s) && LogOK(s)
    requires t in s.threads && s.threads[t].pc == Cancelling(CFile) && ThreadOK(s, t)
    ensures LogOK(CancelStep(s, t, ch))
  {
  }

  lemma CPostLog(s: Sys, t: nat, ch: Choice)
    requires RolesOK(s) && OutcomeOK(s) && LogOK(s)
    requires t in s.threads && s.threads[t].pc == Cancelling(CPost) && ThreadOK(s, t)
    ensures LogOK(CancelStep(s, t, ch))
  {
  }

  lemma KLockLog(s: Sys, t: nat, ch: Choice)
    requires RolesOK(s) && OutcomeOK(s) && LogOK(s)
    requires t in s.threads && s.threads[t].pc == Cleaning(KLock) && ThreadOK(s, t)
    ensures LogOK(CleanStep(s, t, ch))
  {
  }

  lemma KCheckPassesLog(s: Sys, t: nat, ch: Choice)
    requires RolesOK(s) && OutcomeOK(s) && LogOK(s)
    requires t in s.threads && s.threads[t].pc == Cleaning(KCheck) && ThreadOK(s, t)
    requires MayCleanUp(s.w.up.state)
    ensures LogOK(CleanStep(s, t, ch))
  {
  }

  lemma KCheckRefusedLog(s: Sys, t: nat, ch: Choice)
    requires RolesOK(s) && OutcomeOK(s) && LogOK(s)
    requires t in s.threads && s.threads[t].pc == Cleaning(KCheck) && ThreadOK(s, t)
    requires !MayCleanUp(s.w.up.state)
    ensures LogOK(CleanStep(s, t, ch))
  {
  }

  lemma KFileLog(s: Sys, t: nat, ch: Choice)
    requires RolesOK(s) && OutcomeOK(s) && LogOK(s)
    requires t in s.threads && s.threads[t].pc == Cleaning(KFile) && ThreadOK(s, t)
    ensures LogOK(CleanStep(s, t, ch))
  {
  }

  lemma KStateLog(s: Sys, t: nat, ch: Choice)
    requires RolesOK(s) && OutcomeOK(s) && LogOK(s)
    requires t in s.threads && s.threads[t].pc == Cleaning(KState) && ThreadOK(s, t)
    ensures LogOK(CleanStep(s, t, ch))
  {
  }

  lemma KCloseLog(s: Sys, t: nat, ch: Choice)
    requires RolesOK(s) && OutcomeOK(s) && LogOK(s)
    requires t in s.threads && s.threads[t].pc == Cleaning(KClose) && ThreadOK(s, t)
    ensures LogOK(CleanStep(s, t, ch))
  {
  }

  lemma GPostLog(s: Sys, t: nat, ch: Choice)
    requires RolesOK(s) && OutcomeOK(s) && LogOK(s) && DataOK(s) && BinderOK(s)
    requires t in s.threads && s.threads[t].pc == HandingOff(GPost) && ThreadOK(s, t)
    ensures LogOK(RoutineStep(s, t, ch))
  {
  }

  lemma GReplyLog(s: Sys, t: nat, ch: Choice)
    requires RolesOK(s) && OutcomeOK(s) && LogOK(s)
    requires t in s.threads && s.threads[t].pc == HandingOff(GReply) && ThreadOK(s, t)
    ensures LogOK(RoutineStep(s, t, ch))
  {
  }

  lemma GWaitLog(s: Sys, t: nat, ch: Choice)
    requires RolesOK(s) && OutcomeOK(s) && LogOK(s)
    requires t in s.threads && s.threads[t].pc == HandingOff(GWait) && ThreadOK(s, t)
    ensures LogOK(RoutineStep(s, t, ch))
  {
  }

  lemma GSettleLog(s: Sys, t: nat, ch: Choice)
    requires RolesOK(s) && OutcomeOK(s) && LogOK(s)
    requires t in s.threads && s.threads[t].pc.HandingOff? && s.threads[t].pc.g.GSettle? && ThreadOK(s, t)
    ensures LogOK(RoutineStep(s, t, ch))
  {
  }

  lemma GSendLog(s: Sys, t: nat, ch: Choice)
    requires RolesOK(s) && OutcomeOK(s) && LogOK(s)
    requires t in s.threads && s.threads[t].pc.HandingOff? && s.threads[t].pc.g.GSend? && ThreadOK(s, t)
    ensures LogOK(RoutineStep(s, t, ch))
  {
  }

  lemma GCloseLog(s: Sys, t: nat, ch: Choice)
    requires RolesOK(s) && OutcomeOK(s) && LogOK(s)
    requires t in s.threads && s.threads[t].pc == HandingOff(GClose) && ThreadOK(s, t)
    ensures LogOK(RoutineStep(s, t, ch))
  {
  }

  lemma FCheckLog(s: Sys, t: nat, ch: Choice)
    requires RolesOK(s) && OutcomeOK(s) && LogOK(s)
    requires t in s.threads && s.threads[t].pc == Finishing(FCheck) && ThreadOK(s, t)
    ensures LogOK(FinishStep(s, t, ch))
  {
  }

  lemma FSendLog(s: Sys, t: nat, ch: Choice)
    requires RolesOK(s) && OutcomeOK(s) && LogOK(s)
    requires t in s.threads && s.threads[t].pc == Finishing(FSend) && ThreadOK(s, t)
    ensures LogOK(FinishStep(s, t, ch))
  {
  }

  lemma HBindLog(s: Sys, t: nat, ch: Choice)
    requires RolesOK(s) && OutcomeOK(s) && LogOK(s)
    requires t in s.threads && s.threads[t].pc == Opening(HBind) && ThreadOK(s, t)
    ensures LogOK(OpeningStep(s, t, ch))
  {
  }

  lemma HStateLog(s: Sys, t: nat, ch: Choice)
    requires RolesOK(s) && OutcomeOK(s) && LogOK(s)
    requires t in s.threads && s.threads[t].pc == Opening(HState) && ThreadOK(s, t)
    ensures LogOK(OpeningStep(s, t, ch))
  {
  }

  lemma HNewSizeLog(s: Sys, t: nat, ch: Choice)
    requires RolesOK(s) && OutcomeOK(s) && LogOK(s)
    requires t in s.threads && s.threads[t].pc == Opening(HSize(Init)) && ThreadOK(s, t)
    ensures LogOK(OpeningStep(s, t, ch))
  {
  }

  lemma HSameSizeLog(s: Sys, t: nat, ch: Choice)
    requires RolesOK(s) && OutcomeOK(s) && LogOK(s)
    requires t in s.threads && s.threads[t].pc.Opening? && s.threads[t].pc.o.HSize? && ThreadOK(s, t)
    requires s.threads[t].pc.o.seen != Init
    ensures LogOK(OpeningStep(s, t, ch))
  {
  }

  lemma HHandshakeLog(s: Sys, t: nat, ch: Choice)
    requires RolesOK(s) && OutcomeOK(s) && LogOK(s)
    requires t in s.threads && s.threads[t].pc.Opening? && s.threads[t].pc.o.HHandshake? && ThreadOK(s, t)
    ensures LogOK(OpeningStep(s, t, ch))
  {
  }

  lemma HUnbindLog(s: Sys, t: nat, ch: Choice)
    requires RolesOK(s) && OutcomeOK(s) && LogOK(s)
    requires t in s.threads && s.threads[t].pc == Opening(HUnbind) && ThreadOK(s, t)
    ensures LogOK(OpeningStep(s, t, ch))
  {
  }

  lemma HLoopLog(s: Sys, t: nat, ch: Choice)
    requires RolesOK(s) && OutcomeOK(s) && BinderOK(s) && LogOK(s)
    requires t in s.threads && s.threads[t].pc == Looping(HLoop) && ThreadOK(s, t)
    ensures LogOK(LoopStep(s, t, ch))
  {
  }

  lemma HConsumeLog(s: Sys, t: nat, ch: Choice)
    requires RolesOK(s) && OutcomeOK(s) && BinderOK(s) && LogOK(s)
    requires t in s.threads && s.threads[t].pc.Looping? && s.threads[t].pc.l.HConsume? && ThreadOK(s, t)
    ensures LogOK(LoopStep(s, t, ch))
  {
  }

  lemma HPrepareLog(s: Sys, t: nat, ch: Choice)
    requires RolesOK(s) && OutcomeOK(s) && BinderOK(s) && LogOK(s)
    requires t in s.threads && s.threads[t].pc.Looping? && s.threads[t].pc.l.HPrepare? && ThreadOK(s, t)
    ensures LogOK(LoopStep(s, t, ch))
  {
  }

  lemma HStoreLog(s: Sys, t: nat, ch: Choice)
    requires RolesOK(s) && OutcomeOK(s) && BinderOK(s) && LogOK(s)
    requires t in s.threads && s.threads[t].pc.Looping? && s.threads[t].pc.l.HStore? && ThreadOK(s, t)
    ensures LogOK(LoopStep(s, t, ch))
  {
  }

  lemma HFailedLog(s: Sys, t: nat, ch: Choice)
    requires RolesOK(s) && OutcomeOK(s) && BinderOK(s) && LogOK(s)
    requires t in s.threads && s.threads[t].pc == Looping(HFailed) && ThreadOK(s, t)
    ensures LogOK(LoopStep(s, t, ch))
  {
  }

  lemma PauseLog(s: Sys, t: nat, ch: Choice)
    requires RolesOK(s) && OutcomeOK(s) && BinderOK(s) && LogOK(s)
    requires t in s.threads && s.threads[t].pc.Pausing? && ThreadOK(s, t)
    ensures LogOK(PauseStep(s, t, ch))
  {
  }

  lemma HWaitLog(s: Sys, t: nat, ch: Choice)
    requires RolesOK(s) && OutcomeOK(s) && LogOK(s)
    requires t in s.threads && s.threads[t].pc == Closing(HWait) && ThreadOK(s, t)
    ensures LogOK(ClosingStep(s, t, ch))
  {
  }

  lemma HReportLog(s: Sys, t: nat, ch: Choice)
    requires RolesOK(s) && OutcomeOK(s) && LogOK(s)
    requires t in s.threads && s.threads[t].pc == Closing(HReport(false)) && ThreadOK(s, t)
    ensures LogOK(ClosingStep(s, t, ch))
  {
  }

  lemma HReportErrorLog(s: Sys, t: nat, ch: Choice)
    requires RolesOK(s) && OutcomeOK(s) && LogOK(s)
    requires t in s.threads && s.threads[t].pc == Closing(HReport(true)) && ThreadOK(s, t)
    ensures LogOK(ClosingStep(s, t, ch))
  {
  }
}
