/** Where a cancel message lands: an invariant on top of TransferInv.dfy about the handshake of a session
    that has not been cancelled. */
module TransferHandshake {
  import opened Protocol
  import opened UploadSpec
  import opened Session
  import opened Transfer
  import opened TransferInv
  import opened TransferServer
  import TransferClient
  import Sender

  /** What is unread on a working connection of an uploader that can be cancelled: the request, then
      nothing until the config has been received, then the ack before anything else. */
  predicate InStep(p: Params, conn: Conn, c: Sender.Client) {
    conn.alive && c.f.canCancel ==>
      && (c.onMessage.RecvConfig? && conn.phase.AwaitReq? ==> conn.c2s == [UploadReq(p.id, |p.file|)])
      && (c.onMessage.RecvConfig? && conn.phase.AwaitAck? ==> conn.c2s == [])
      && (c.onMessage.RecvChunkAcks? && conn.phase.AwaitAck? ==> Acked(conn))
  }

  /** The ack is what the handler reads next. */
  predicate Acked(conn: Conn) {
    conn.c2s != [] && conn.c2s[0].Ack?
  }

  predicate HandshakeOK(p: Params, s: Sys) {
    s.c.ws.Open? && s.cur.Some? && s.cur.value in s.conns ==> InStep(p, s.conns[s.cur.value], s.c)
  }

  // ---------------------------------------------------------------- the browser's turns

  lemma TurnStaysInStep(p: Params, s: Sys, t: Sender.Turn)
    requires HandshakeOK(p, s) && (t.c.ws.Open? ==> s.c.ws.Open?)
    requires t.c.f.canCancel ==> s.c.f.canCancel && t.c.onMessage == s.c.onMessage
    requires t.out != [] && t.c.f.canCancel ==> s.c.onMessage.RecvChunkAcks?
    ensures HandshakeOK(p, ClientTurn(s, t))
  {
    if s.cur.Some? && s.cur.value in s.conns {
      var conn := s.conns[s.cur.value];
      if t.out == [] {
        TransferClient.FeedNothing(conn);
      } else {
        assert conn.c2s != [] ==> (conn.c2s + t.out)[0] == conn.c2s[0];
      }
    }
  }

  lemma LoadStaysInStep(p: Params, s: Sys)
    requires Inv(p, s) && HandshakeOK(p, s) && s.c.loading.Some? && s.c.conf.Some?
    ensures HandshakeOK(p, ClientTurn(s, Sender.OnLoad(s.c, p.file)))
  {
    TurnStaysInStep(p, s, Sender.OnLoad(s.c, p.file));
  }

  /** The config is answered by the ack. */
  lemma ConfigStaysInStep(p: Params, srv: Server, conn: Conn, c: Sender.Client)
    requires ConnOK(p, srv, conn) && CurOK(p, srv, conn, c) && InStep(p, conn, c)
    requires c.onMessage.RecvConfig? && conn.s2c != []
    ensures var t := Sender.ReceiveConfig(c, conn.s2c[0], |p.file|);
            InStep(p, Feed(TransferClient.Taken(conn), t.out), t.c)
  {
    TransferClient.FeedNothing(TransferClient.Taken(conn));
  }

  lemma DeliveryStaysInStep(p: Params, s: Sys)
    requires Inv(p, s) && HandshakeOK(p, s) && Enabled(s, Delivers)
    ensures HandshakeOK(p, Apply(p, s, Delivers))
  {
    var i := s.cur.value;
    var conn := s.conns[i];
    var t := Sender.Receive(s.c, conn.s2c[0], |p.file|);
    if s.c.onMessage.RecvConfig? && !(s.c.awaitingCancelAck && conn.s2c[0].CancelAck?) {
      ConfigStaysInStep(p, s.srv, conn, s.c);
    } else {
      var s1 := s.(conns := s.conns[i := TransferClient.Taken(conn)]);
      AckedTurn(p, s.srv, conn, s.c);
      TurnStaysInStep(p, s1, t);
    }
  }

  lemma AckedTurn(p: Params, srv: Server, conn: Conn, c: Sender.Client)
    requires ConnOK(p, srv, conn) && CurOK(p, srv, conn, c) && conn.s2c != []
    requires c.onMessage.RecvConfig? ==> c.awaitingCancelAck && conn.s2c[0].CancelAck?
    ensures var t := Sender.Receive(c, conn.s2c[0], |p.file|);
            && (t.c.ws.Open? ==> c.ws.Open?)
            && (t.c.f.canCancel ==> c.f.canCancel && t.c.onMessage == c.onMessage && t.out == [])
  {
  }

  // ---------------------------------------------------------------- the server's steps

  lemma ServerStaysInStep(p: Params, srv: Server, conn: Conn, env: Env, c: Sender.Client)
    requires InStep(p, conn, c) && (c.onMessage.RecvChunkAcks? ==> !conn.phase.AwaitReq?)
    ensures InStep(p, ServerStep(srv, conn, p.cfg, env).conn, c)
  {
    AwaitAckComes(srv, conn, p.cfg, env);
  }

  /** A handler comes to wait for the ack by taking the request, and waits without taking anything. */
  lemma AwaitAckComes(srv: Server, conn: Conn, cfg: Config, env: Env)
    ensures var conn' := ServerStep(srv, conn, cfg, env).conn;
            && conn'.alive == conn.alive
            && (conn'.phase.AwaitReq? ==> conn.phase.AwaitReq? && conn'.c2s == conn.c2s)
            && (conn'.phase.AwaitAck? ==>
                  || (conn.phase.AwaitAck? && conn'.c2s == conn.c2s)
                  || (conn.phase.AwaitReq? && conn.c2s != [] && conn'.c2s == conn.c2s[1..]))
  {
  }

  lemma ServerTurnStaysInStep(p: Params, s: Sys, i: nat, env: Env)
    requires Inv(p, s) && HandshakeOK(p, s) && i in s.conns
    ensures HandshakeOK(p, ServerTurn(s, i, ServerStep(s.srv, s.conns[i], p.cfg, env)))
  {
    if s.c.ws.Open? && s.cur == Some(i) {
      ServerStaysInStep(p, s.srv, s.conns[i], env, s.c);
    }
  }

  // ---------------------------------------------------------------- every step

  lemma RestStaysInStep(p: Params, s: Sys, e: Event)
    requires HandshakeOK(p, s) && Enabled(s, e)
    requires e.Starts? || e.Opens? || e.SocketCloses? || e.Breaks? || e.HandoverEnds? || e.BackendCancels?
             || e.TimesOut?
    ensures HandshakeOK(p, Apply(p, s, e))
  {
  }

  lemma StepStaysInStep(p: Params, s: Sys, e: Event)
    requires Inv(p, s) && HandshakeOK(p, s) && Enabled(s, e)
    ensures HandshakeOK(p, Apply(p, s, e))
  {
    match e
    case LoadDone => LoadStaysInStep(p, s);
    case LoadBroke => TurnStaysInStep(p, s, Sender.OnLoadError(s.c));
    case Delivers => DeliveryStaysInStep(p, s);
    case UserCancels => TurnStaysInStep(p, s, Sender.CancelUploader(s.c));
    case UserPauses => TurnStaysInStep(p, s, Sender.PauseUploader(s.c));
    case ServerSteps(i, env) => ServerTurnStaysInStep(p, s, i, env);
    case _ => RestStaysInStep(p, s, e);
  }

  // ---------------------------------------------------------------- a cancel that will be refused

  /** The handler has a cancel message where it expects the ack, or will have; or the connection broke
      before that; or the handler has refused it already. */
  predicate Refused(conn: Conn) {
    || conn.phase.Done?
    || (conn.phase.AwaitReq?
        && if |conn.c2s| <= 1 then !conn.alive else conn.c2s[1].Cancel?)
    || (conn.phase.AwaitAck? && if conn.c2s == [] then !conn.alive else conn.c2s[0].Cancel?)
  }

  lemma RefusedStep(srv: Server, conn: Conn, cfg: Config, env: Env)
    requires Refused(conn)
    ensures var st := ServerStep(srv, conn, cfg, env);
            && Refused(st.conn) && st.srv.w.files == srv.w.files && st.srv.w.up.state == srv.w.up.state
            && st.srv.handover == srv.handover && st.srv.w.up.filePos == srv.w.up.filePos
            && (st.conn.s2c != conn.s2c ==> exists m: ServerMsg ::
                  st.conn.s2c == conn.s2c + [m] && (m.ServerError? || m.UploadConf?))
  {
    AwaitAckComes(srv, conn, cfg, env);
  }

  lemma RefusedFed(conn: Conn, out: seq<ClientMsg>)
    requires Refused(conn)
    ensures Refused(Feed(conn, out))
  {
    if conn.alive && conn.c2s != [] {
      assert (conn.c2s + out)[0] == conn.c2s[0];
    }
  }

  lemma RefusedTurn(s: Sys, t: Sender.Turn, i: nat)
    requires i in s.conns && Refused(s.conns[i])
    ensures i in ClientTurn(s, t).conns && Refused(ClientTurn(s, t).conns[i])
  {
    RefusedFed(s.conns[i], t.out);
  }

  lemma RefusedLasts(p: Params, s: Sys, e: Event, i: nat)
    requires Enabled(s, e) && i in s.conns && Refused(s.conns[i])
    ensures i in Apply(p, s, e).conns && Refused(Apply(p, s, e).conns[i])
  {
    match e
    case LoadDone => RefusedTurn(s, Sender.OnLoad(s.c, p.file), i);
    case LoadBroke => RefusedTurn(s, Sender.OnLoadError(s.c), i);
    case Delivers =>
      var j := s.cur.value;
      RefusedTurn(s.(conns := s.conns[j := TransferClient.Taken(s.conns[j])]),
                  Sender.Receive(s.c, s.conns[j].s2c[0], |p.file|), i);
    case UserCancels => RefusedTurn(s, Sender.CancelUploader(s.c), i);
    case UserPauses => RefusedTurn(s, Sender.PauseUploader(s.c), i);
    case ServerSteps(j, env) =>
      if i == j {
        RefusedStep(s.srv, s.conns[j], p.cfg, env);
      }
    case _ => RefusedRest(p, s, e, i);
  }

  lemma RefusedRest(p: Params, s: Sys, e: Event, i: nat)
    requires Enabled(s, e) && i in s.conns && Refused(s.conns[i])
    requires e.Starts? || e.Opens? || e.SocketCloses? || e.Breaks? || e.HandoverEnds? || e.BackendCancels?
             || e.TimesOut?
    ensures i in Apply(p, s, e).conns && Refused(Apply(p, s, e).conns[i])
  {
  }
}
