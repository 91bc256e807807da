/** When an upload is over, and what becomes of its file and its place in the pool then: an invariant on
    top of TransferInv.dfy. */
module TransferDelivery {
  import opened Protocol
  import opened UploadSpec
  import opened Session
  import opened SessionEffects
  import opened Transfer
  import opened TransferInv
  import TransferClient
  import Sender

  /** An upload is pooled until it is cleaned up. Once the app backend has taken the file it is there,
      complete, at least until it is cleaned up, and for good if the upload keeps its file. */
  predicate DeliveryOK(p: Params, srv: Server) {
    var up := srv.w.up;
    && up.removeWhenFinished == p.removeWhenFinished
    && (srv.pooled <==> !up.state.CleanedUp?)
    && (srv.handover == Ended(true) && p.file != [] && (up.state.Finished? || !up.removeWhenFinished) ==>
          HasFile(srv.w, p.dir + "/" + p.id, p.file))
  }

  /** A step that concerns an upload that is over: it stays as it is, or is cleaned up. */
  predicate OverStep(srv: Server, srv': Server, removeOk: bool) {
    && srv'.w.up.removeWhenFinished == srv.w.up.removeWhenFinished
    && srv'.w.up.path == srv.w.up.path && srv'.handover == srv.handover
    && ((srv'.w.up.state == srv.w.up.state && srv'.w.files == srv.w.files && srv'.pooled == srv.pooled)
        || (MayCleanUp(srv.w.up.state) && srv'.w.up.state.CleanedUp? && !srv'.pooled
            && srv'.w.files == CleanUpUpload(srv.w, removeOk).files))
  }

  lemma AbortIsOverStep(srv: Server, removeOk: bool)
    requires !srv.w.up.state.Receiving()
    ensures OverStep(srv, Abort(srv, removeOk), removeOk)
    ensures OverStep(srv, SetBound(Abort(srv, removeOk), false), removeOk)
    ensures OverStep(srv, SetBound(CleanUpServer(srv, removeOk), false), removeOk)
  {
  }

  lemma FrameIsOverStep(srv: Server, conn: Conn, cfg: Config, m: ClientMsg, io: IO)
    requires !srv.w.up.state.Receiving()
    ensures OverStep(srv, OnFrame(srv, conn, cfg, m, io).srv, io.removeOk)
  {
    AbortIsOverStep(srv, io.removeOk);
    if m.Chunk? {
      ConsumeKeeps(srv.w, m.data, io);
    }
  }

  lemma ReceiveIsOverStep(srv: Server, conn: Conn, cfg: Config, env: Env)
    requires !srv.w.up.state.Receiving() && conn.phase.Receive?
    ensures OverStep(srv, OnReceive(srv, conn, cfg, env).srv, env.io.removeOk)
  {
    if conn.c2s != [] {
      FrameIsOverStep(srv, Pop(conn), cfg, conn.c2s[0], env.io);
    }
  }

  /** Whatever a handler does with an upload that is over. */
  lemma HandlerIsOverStep(srv: Server, conn: Conn, cfg: Config, env: Env)
    requires !srv.w.up.state.Receiving()
    ensures OverStep(srv, ServerStep(srv, conn, cfg, env).srv, env.io.removeOk)
  {
    match conn.phase
    case Receive => ReceiveIsOverStep(srv, conn, cfg, env);
    case AwaitHandover => WaitIsOverStep(srv, conn, cfg, env);
    case Failing => AbortIsOverStep(srv, env.io.removeOk);
    case _ =>
  }

  lemma WaitIsOverStep(srv: Server, conn: Conn, cfg: Config, env: Env)
    requires !srv.w.up.state.Receiving() && conn.phase.AwaitHandover?
    ensures OverStep(srv, OnHandover(srv, conn, cfg, env).srv, env.io.removeOk)
  {
    AbortIsOverStep(srv, env.io.removeOk);
  }

  lemma OverStepKeeps(p: Params, srv: Server, srv': Server, removeOk: bool)
    requires DeliveryOK(p, srv) && OverStep(srv, srv', removeOk) && HandoverOK(srv)
    requires srv'.w.up.id == srv.w.up.id && srv'.w.up.dir == srv.w.up.dir
    ensures DeliveryOK(p, srv')
  {
    CleanUpExactly(srv.w, removeOk);
  }

  // ---------------------------------------------------------------- every step

  lemma ReceivingKeeps(p: Params, srv: Server, conn: Conn, env: Env)
    requires DeliveryOK(p, srv) && srv.w.up.state.Receiving() && HandoverOK(srv)
    ensures DeliveryOK(p, ServerStep(srv, conn, p.cfg, env).srv)
  {
    EndsReceivingExactly(srv, conn, p.cfg, env);
    StepSettings(srv, conn, p.cfg, env);
  }

  predicate SameSettings(up: Upload, up': Upload) {
    up'.id == up.id && up'.dir == up.dir && up'.removeWhenFinished == up.removeWhenFinished
  }

  lemma FrameSettings(srv: Server, conn: Conn, cfg: Config, m: ClientMsg, io: IO)
    ensures SameSettings(srv.w.up, OnFrame(srv, conn, cfg, m, io).srv.w.up)
  {
    if m.Chunk? {
      ConsumeKeeps(srv.w, m.data, io);
    }
  }

  lemma ReceiveSettings(srv: Server, conn: Conn, cfg: Config, env: Env)
    ensures SameSettings(srv.w.up, OnReceive(srv, conn, cfg, env).srv.w.up)
  {
    if conn.c2s != [] {
      FrameSettings(srv, Pop(conn), cfg, conn.c2s[0], env.io);
    }
  }

  lemma RequestSettings(srv: Server, conn: Conn, cfg: Config, env: Env)
    ensures SameSettings(srv.w.up, OnRequest(srv, conn, cfg, env).srv.w.up)
  {
  }

  lemma WaitSettings(srv: Server, conn: Conn, cfg: Config, env: Env)
    ensures SameSettings(srv.w.up, OnHandover(srv, conn, cfg, env).srv.w.up)
  {
  }

  lemma FailingSettings(srv: Server, conn: Conn, env: Env)
    ensures SameSettings(srv.w.up, OnFailing(srv, conn, env).srv.w.up)
  {
  }

  lemma StepSettings(srv: Server, conn: Conn, cfg: Config, env: Env)
    ensures SameSettings(srv.w.up, ServerStep(srv, conn, cfg, env).srv.w.up)
  {
    match conn.phase
    case AwaitReq => RequestSettings(srv, conn, cfg, env);
    case Receive => ReceiveSettings(srv, conn, cfg, env);
    case Failing => FailingSettings(srv, conn, env);
    case AwaitHandover => WaitSettings(srv, conn, cfg, env);
    case _ =>
  }

  lemma ServerKeepsDelivery(p: Params, s: Sys, i: nat, env: Env)
    requires Inv(p, s) && DeliveryOK(p, s.srv) && i in s.conns
    ensures DeliveryOK(p, ServerStep(s.srv, s.conns[i], p.cfg, env).srv)
  {
    if s.srv.w.up.state.Receiving() {
      ReceivingKeeps(p, s.srv, s.conns[i], env);
    } else {
      HandlerIsOverStep(s.srv, s.conns[i], p.cfg, env);
      StepSettings(s.srv, s.conns[i], p.cfg, env);
      OverStepKeeps(p, s.srv, ServerStep(s.srv, s.conns[i], p.cfg, env).srv, env.io.removeOk);
    }
  }

  lemma AbortKeepsDelivery(p: Params, srv: Server, removeOk: bool)
    requires DeliveryOK(p, srv) && HandoverOK(srv)
    ensures DeliveryOK(p, Abort(srv, removeOk))
  {
    if !srv.w.up.state.Receiving() {
      AbortIsOverStep(srv, removeOk);
      OverStepKeeps(p, srv, Abort(srv, removeOk), removeOk);
    }
  }

  lemma SettleKeepsDelivery(p: Params, s: Sys, ok: bool)
    requires Inv(p, s) && DeliveryOK(p, s.srv) && s.srv.handover.Running?
    ensures DeliveryOK(p, s.srv.(w := Settle(s.srv.w, ok), handover := Ended(ok)))
  {
    assert p.file[..|p.file|] == p.file;
  }

  /** The browser's events leave the server alone. */
  lemma ClientLeavesServer(p: Params, s: Sys, e: Event)
    requires Enabled(s, e)
    requires !e.ServerSteps? && !e.HandoverEnds? && !e.BackendCancels? && !e.TimesOut?
    ensures Apply(p, s, e).srv == s.srv
  {
  }

  lemma StepKeepsDelivery(p: Params, s: Sys, e: Event)
    requires Inv(p, s) && DeliveryOK(p, s.srv) && Enabled(s, e)
    ensures DeliveryOK(p, Apply(p, s, e).srv)
  {
    match e
    case ServerSteps(i, env) => ServerKeepsDelivery(p, s, i, env);
    case HandoverEnds(ok) => SettleKeepsDelivery(p, s, ok);
    case BackendCancels(removeOk) => AbortKeepsDelivery(p, s.srv, removeOk);
    case TimesOut(removeOk) => AbortKeepsDelivery(p, s.srv, removeOk);
    case _ => ClientLeavesServer(p, s, e);
  }

  // ---------------------------------------------------------------- what ends an upload

  /** The timeout, the app backend, a handler that finds the file complete, gives up after a failed chunk,
      or reads a cancel or an error. */
  predicate EndsUpload(s: Sys, e: Event) {
    || e.TimesOut? || e.BackendCancels?
    || (e.ServerSteps? && e.sid in s.conns && Ends(s.srv, s.conns[e.sid]))
  }

  /** Whether the system lets the step remove a file. */
  predicate MayRemove(e: Event) {
    (e.ServerSteps? && e.env.io.removeOk) || (e.BackendCancels? && e.removeOk) || (e.TimesOut? && e.removeOk)
  }

  /** An upload stops receiving by exactly these steps, however often its connection is lost, paused or
      resumed. */
  lemma StopsReceivingExactly(p: Params, s: Sys, e: Event)
    requires Inv(p, s) && Enabled(s, e) && s.srv.w.up.state.Receiving()
    ensures Apply(p, s, e).srv.w.up.state.Receiving() <==> !EndsUpload(s, e)
    ensures var srv' := Apply(p, s, e).srv;
            srv'.w.up.state.Receiving() || srv'.w.up.state.HandingOver? || Dropped(s.srv, srv', MayRemove(e))
  {
    match e
    case ServerSteps(i, env) => EndsReceivingExactly(s.srv, s.conns[i], p.cfg, env);
    case BackendCancels(removeOk) => AbortDrops(s.srv, removeOk);
    case TimesOut(removeOk) => AbortDrops(s.srv, removeOk);
    case HandoverEnds(ok) =>
    case _ => ClientLeavesServer(p, s, e);
  }

  /** A step of an upload that is over. */
  lemma OverStepOfSystem(p: Params, s: Sys, e: Event)
    requires Inv(p, s) && Enabled(s, e) && !s.srv.w.up.state.Receiving() && !e.HandoverEnds?
    ensures OverStep(s.srv, Apply(p, s, e).srv, MayRemove(e))
  {
    match e
    case ServerSteps(i, env) => HandlerIsOverStep(s.srv, s.conns[i], p.cfg, env);
    case BackendCancels(removeOk) =>
    case TimesOut(removeOk) => AbortIsOverStep(s.srv, removeOk);
    case _ => ClientLeavesServer(p, s, e);
  }
}
