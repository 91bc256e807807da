/** A step of any handler keeps the invariant of the whole system. */
module TransferServerInv {
  import opened Protocol
  import opened UploadSpec
  import opened Session
  import opened Transfer
  import opened TransferInv
  import opened TransferServer
  import Sender

  // ---------------------------------------------------------------- the current connection

  lemma CurRequest(p: Params, srv: Server, conn: Conn, env: Env, c: Sender.Client)
    requires ConnOK(p, srv, conn) && conn.phase.AwaitReq? && CurOK(p, srv, conn, c) && ClientOK(p, srv, c)
    ensures var st := OnRequest(srv, conn, p.cfg, env); CurOK(p, st.srv, st.conn, c)
  {
    if conn.c2s != [] {
      PopFacts(p, conn.c2s);
      var st := OnRequest(srv, conn, p.cfg, env);
      assert forall m :: m in st.conn.c2s ==> m in conn.c2s;
      assert st.conn.s2c == [] || |st.conn.s2c| == 1;
      assert Cancel in st.conn.c2s ==> Cancel in conn.c2s;
    }
  }

  lemma CurAck(p: Params, srv: Server, conn: Conn, env: Env, c: Sender.Client)
    requires ConnOK(p, srv, conn) && conn.phase.AwaitAck? && CurOK(p, srv, conn, c)
    ensures var st := OnAck(srv, conn, env); CurOK(p, st.srv, st.conn, c)
  {
    if conn.c2s != [] {
      PopFacts(p, conn.c2s);
      assert Cancel in conn.c2s[1..] ==> Cancel in conn.c2s;
    }
    ReplyAppend(conn.s2c, ServerError);
  }

  /** Whenever the handler leaves, the counters stay within bounds. */
  lemma CurLeave(p: Params, srv: Server, srv': Server, conn: Conn, conn': Conn, m: ServerMsg, c: Sender.Client)
    requires ConnOK(p, srv, conn) && CurOK(p, srv, conn, c) && Grows(srv, srv')
    requires conn.phase.Receive? || conn.phase.Failing? || conn.phase.AwaitHandover?
    requires conn' == conn || (conn.c2s != [] && conn' == Pop(conn)) || conn' == conn.(s2c := conn.s2c)
    requires !m.ChunkAck?
    ensures CurOK(p, srv', conn'.(phase := Done), c) && CurOK(p, srv', Reply(conn', m).(phase := Done), c)
    ensures CurOK(p, srv', conn'.(phase := Failing), c) && CurOK(p, srv', Reply(conn', m).(phase := Failing), c)
  {
    if conn.c2s != [] {
      PopFacts(p, conn.c2s);
      assert Cancel in conn.c2s[1..] ==> Cancel in conn.c2s;
    }
    ReplyAppend(conn.s2c, m);
  }

  lemma CurChunk(p: Params, srv: Server, srv': Server, conn: Conn, c: Sender.Client)
    requires ConnOK(p, srv, conn) && conn.phase.Receive? && CurOK(p, srv, conn, c) && Grows(srv, srv')
    requires conn.c2s != [] && conn.c2s[0].Chunk?
    requires srv'.w.up.filePos == srv.w.up.filePos + |conn.c2s[0].data|
    ensures CurOK(p, srv', Reply(Pop(conn), ChunkAck(|conn.c2s[0].data|)), c)
  {
    PopFacts(p, conn.c2s);
    assert Cancel in conn.c2s[1..] ==> Cancel in conn.c2s;
    ReplyAppend(conn.s2c, ChunkAck(|conn.c2s[0].data|));
  }

  lemma CurChunkStep(p: Params, srv: Server, conn: Conn, env: Env, c: Sender.Client)
    requires ServerOK(p, srv, false) && ConnOK(p, srv, conn) && conn.phase.Receive? && CurOK(p, srv, conn, c)
    requires srv.w.up.filePos != srv.w.up.fileSize && conn.c2s != [] && conn.c2s[0].Chunk?
    ensures var st := OnReceive(srv, conn, p.cfg, env); CurOK(p, st.srv, st.conn, c)
  {
    var st := OnReceive(srv, conn, p.cfg, env);
    PopFacts(p, conn.c2s);
    InFlightFits(p.file, srv.w.up.filePos, conn.c2s);
    StoreKeeps(p, srv, conn.c2s[0].data, env.io);
    if st.conn.phase.Failing? {
      CurLeave(p, srv, st.srv, conn, Pop(conn), ServerError, c);
    } else {
      CurChunk(p, srv, st.srv, conn, c);
    }
  }

  lemma CurReceive(p: Params, srv: Server, conn: Conn, env: Env, c: Sender.Client)
    requires ServerOK(p, srv, false) && ConnOK(p, srv, conn) && conn.phase.Receive? && CurOK(p, srv, conn, c)
    requires Grows(srv, OnReceive(srv, conn, p.cfg, env).srv)
    ensures var st := OnReceive(srv, conn, p.cfg, env); CurOK(p, st.srv, st.conn, c)
  {
    var st := OnReceive(srv, conn, p.cfg, env);
    if srv.w.up.filePos == srv.w.up.fileSize {
    } else if conn.c2s == [] {
      CurLeave(p, srv, st.srv, conn, conn, ServerError, c);
    } else if conn.c2s[0].Chunk? {
      CurChunkStep(p, srv, conn, env, c);
    } else if conn.c2s[0].Pause? {
      PopFacts(p, conn.c2s);
      assert Cancel in conn.c2s[1..] ==> Cancel in conn.c2s;
    } else {
      CurLeave(p, srv, st.srv, conn, Pop(conn), if conn.c2s[0].Cancel? then CancelAck else ServerError, c);
    }
  }

  lemma CurHandover(p: Params, srv: Server, conn: Conn, env: Env, c: Sender.Client)
    requires ConnOK(p, srv, conn) && conn.phase.AwaitHandover? && CurOK(p, srv, conn, c)
    ensures var st := OnHandover(srv, conn, p.cfg, env); Grows(srv, st.srv) ==> CurOK(p, st.srv, st.conn, c)
  {
    var st := OnHandover(srv, conn, p.cfg, env);
    if conn.c2s != [] {
      PopFacts(p, conn.c2s);
      assert Cancel in conn.c2s[1..] ==> Cancel in conn.c2s;
    }
    if Grows(srv, st.srv) {
      CurLeave(p, srv, st.srv, conn, conn, ServerError, c);
      CurLeave(p, srv, st.srv, conn, conn, AllDone, c);
    }
  }

  // ---------------------------------------------------------------- the step

  /** What a step of handler `i` does to the server and to its connection. */
  lemma ServedKeeps(p: Params, srv: Server, conn: Conn, env: Env, failing: bool)
    requires ServerOK(p, srv, failing) && ConnOK(p, srv, conn)
    requires conn.phase.Bound() ==> srv.w.up.bound && failing == conn.phase.Failing?
    requires failing ==> srv.w.up.bound
    ensures var st := ServerStep(srv, conn, p.cfg, env);
            Kept(p, srv, st, if conn.phase.Bound() || st.conn.phase.Bound() then st.conn.phase.Failing? else failing)
    ensures var st := ServerStep(srv, conn, p.cfg, env);
            && (!conn.phase.Bound() && !st.conn.phase.Bound() ==> st.srv == srv)
            && (!conn.phase.Bound() && st.conn.phase.Bound() ==> !srv.w.up.bound)
            && (conn.phase.Bound() || st.conn.phase.Bound() ==> st.srv.w.up.bound == st.conn.phase.Bound())
  {
    match conn.phase
    case AwaitReq => RequestKeeps(p, srv, conn, env, failing);
    case AwaitAck => AckKeeps(p, srv, conn, env);
    case Receive => ReceiveKeeps(p, srv, conn, env);
    case Failing => FailingKeeps(p, srv, conn, env);
    case AwaitHandover => HandoverKeeps(p, srv, conn, env);
    case Done =>
  }

  lemma ReceiveKeeps(p: Params, srv: Server, conn: Conn, env: Env)
    requires ServerOK(p, srv, false) && ConnOK(p, srv, conn) && conn.phase.Receive? && srv.w.up.bound
    ensures var st := OnReceive(srv, conn, p.cfg, env);
            Kept(p, srv, st, st.conn.phase.Failing?) && st.srv.w.up.bound == st.conn.phase.Bound()
  {
    if srv.w.up.filePos == srv.w.up.fileSize {
      HandoverStarts(p, srv, conn, env);
    } else if conn.c2s != [] && conn.c2s[0].Chunk? {
      ChunkKeeps(p, srv, conn, env);
      ConsumeKeeps(srv.w, conn.c2s[0].data, env.io);
    } else {
      FrameKeeps(p, srv, conn, env);
    }
  }

  lemma CurServed(p: Params, srv: Server, conn: Conn, env: Env, failing: bool, c: Sender.Client)
    requires ServerOK(p, srv, failing) && ConnOK(p, srv, conn)
    requires conn.phase.Bound() ==> failing == conn.phase.Failing?
    requires CurOK(p, srv, conn, c) && ClientOK(p, srv, c)
    requires Grows(srv, ServerStep(srv, conn, p.cfg, env).srv)
    ensures var st := ServerStep(srv, conn, p.cfg, env); CurOK(p, st.srv, st.conn, c)
  {
    match conn.phase
    case AwaitReq => CurRequest(p, srv, conn, env, c);
    case AwaitAck => CurAck(p, srv, conn, env, c);
    case Receive => CurReceive(p, srv, conn, env, c);
    case Failing => CurLeave(p, srv, ServerStep(srv, conn, p.cfg, env).srv, conn, conn, ServerError, c);
    case AwaitHandover => CurHandover(p, srv, conn, env, c);
    case Done =>
  }

  /** A step of a handler starts the handover routine exactly on leaving its loop with a complete,
      live upload; it never changes what the upload is called. */
  predicate HandoverRule(srv: Server, conn: Conn, st: Step) {
    && st.srv.w.up.id == srv.w.up.id && st.srv.w.up.dir == srv.w.up.dir
    && st.conn.alive == conn.alive
    && (st.srv.handover == srv.handover
        || (srv.handover.NotStarted? && st.srv.handover.Running? && st.srv.w.up.state.HandingOver?
            && st.conn.phase.AwaitHandover?))
  }

  lemma FrameHandover(srv: Server, conn: Conn, cfg: Config, m: ClientMsg, io: IO)
    ensures var st := OnFrame(srv, conn, cfg, m, io);
            && st.srv.w.up.id == srv.w.up.id && st.srv.w.up.dir == srv.w.up.dir
            && st.conn.alive == conn.alive && st.srv.handover == srv.handover
  {
    if m.Chunk? {
      ConsumeKeeps(srv.w, m.data, io);
    }
  }

  lemma ReceiveHandover(srv: Server, conn: Conn, cfg: Config, env: Env)
    requires HandoverOK(srv) && conn.phase.Receive?
    ensures HandoverRule(srv, conn, OnReceive(srv, conn, cfg, env))
  {
    if srv.w.up.filePos != srv.w.up.fileSize && conn.c2s != [] {
      FrameHandover(srv, Pop(conn), cfg, conn.c2s[0], env.io);
      assert OnReceive(srv, conn, cfg, env) == OnFrame(srv, Pop(conn), cfg, conn.c2s[0], env.io);
    }
  }

  lemma RequestHandover(srv: Server, conn: Conn, cfg: Config, env: Env)
    ensures HandoverRule(srv, conn, OnRequest(srv, conn, cfg, env))
  {
  }

  lemma WaitHandover(srv: Server, conn: Conn, cfg: Config, env: Env)
    ensures HandoverRule(srv, conn, OnHandover(srv, conn, cfg, env))
  {
  }

  lemma StepHandover(srv: Server, conn: Conn, cfg: Config, env: Env)
    requires HandoverOK(srv)
    ensures HandoverRule(srv, conn, ServerStep(srv, conn, cfg, env))
  {
    if conn.phase.Receive? {
      ReceiveHandover(srv, conn, cfg, env);
    } else if conn.phase.AwaitReq? {
      RequestHandover(srv, conn, cfg, env);
    } else if conn.phase.AwaitHandover? {
      WaitHandover(srv, conn, cfg, env);
    } else {
      assert HandoverRule(srv, conn, OnAck(srv, conn, env));
      assert HandoverRule(srv, conn, OnFailing(srv, conn, env));
    }
  }

  lemma HandedKept(p: Params, s: Sys, i: nat, st: Step, failing: bool)
    requires HandedOK(p, s) && i in s.conns && HandoverRule(s.srv, s.conns[i], st)
    requires ServerOK(p, st.srv, failing)
    requires failing ==> !st.srv.w.up.state.HandingOver?
    ensures HandedOK(p, ServerTurn(s, i, st))
  {
    assert p.file[..|p.file|] == p.file;
    StripPart(st.srv.w.up);
    assert st.srv.w.up.FinalPath() == s.srv.w.up.FinalPath();
  }

  lemma OwnerKept(s: Sys, i: nat, st: Step)
    requires OwnerOK(s) && i in s.conns
    requires var conn := s.conns[i];
             && (!conn.phase.Bound() && !st.conn.phase.Bound() ==> st.srv == s.srv)
             && (!conn.phase.Bound() && st.conn.phase.Bound() ==> !s.srv.w.up.bound)
             && (conn.phase.Bound() || st.conn.phase.Bound() ==> st.srv.w.up.bound == st.conn.phase.Bound())
    ensures OwnerOK(ServerTurn(s, i, st))
    ensures IsFailing(ServerTurn(s, i, st))
            == if s.conns[i].phase.Bound() || st.conn.phase.Bound() then st.conn.phase.Failing? else IsFailing(s)
  {
  }

  lemma CurrentKept(p: Params, s: Sys, i: nat, st: Step)
    requires CurrentOK(p, s) && OwnerOK(s) && i in s.conns && st.conn.alive == s.conns[i].alive
    requires Grows(s.srv, st.srv)
    requires !s.conns[i].phase.Bound() && !st.conn.phase.Bound() ==> st.srv == s.srv
    requires s.conns[i].phase.Bound() || !st.conn.phase.Bound() || st.srv.w.up.filePos == s.srv.w.up.filePos
    requires s.cur == Some(i) ==> CurOK(p, st.srv, st.conn, s.c)
    ensures CurrentOK(p, ServerTurn(s, i, st))
  {
    if s.cur.Some? && s.cur.value != i {
      OtherCur(p, s.srv, st.srv, s.conns[s.cur.value], s.c);
    }
  }

  lemma ConnsKept(p: Params, s: Sys, i: nat, st: Step)
    requires OwnerOK(s) && i in s.conns && forall j :: j in s.conns ==> ConnOK(p, s.srv, s.conns[j])
    requires Grows(s.srv, st.srv) && ConnOK(p, st.srv, st.conn)
    requires !s.conns[i].phase.Bound() && !st.conn.phase.Bound() ==> st.srv == s.srv
    requires !s.conns[i].phase.Bound() && st.conn.phase.Bound() ==> !s.srv.w.up.bound
    ensures var s' := ServerTurn(s, i, st); forall j :: j in s'.conns ==> ConnOK(p, s'.srv, s'.conns[j])
  {
    var s' := ServerTurn(s, i, st);
    forall j | j in s'.conns ensures ConnOK(p, s'.srv, s'.conns[j]) {
      if j != i {
        OtherConn(p, s.srv, st.srv, s.conns[j]);
      }
    }
  }

  lemma ServerTurnKeeps(p: Params, s: Sys, i: nat, env: Env)
    requires Inv(p, s) && i in s.conns
    ensures Inv(p, ServerTurn(s, i, ServerStep(s.srv, s.conns[i], p.cfg, env)))
  {
    var conn := s.conns[i];
    ServedKeeps(p, s.srv, conn, env, IsFailing(s));
    StepHandover(s.srv, conn, p.cfg, env);
    if conn.phase.AwaitReq? {
      RequestKeeps(p, s.srv, conn, env, IsFailing(s));
    }
    if s.cur == Some(i) {
      CurServed(p, s.srv, conn, env, IsFailing(s), s.c);
    }
    TurnKeeps(p, s, i, ServerStep(s.srv, conn, p.cfg, env));
  }

  lemma TurnKeeps(p: Params, s: Sys, i: nat, st: Step)
    requires Inv(p, s) && i in s.conns
    requires var conn := s.conns[i];
             && Kept(p, s.srv, st, if conn.phase.Bound() || st.conn.phase.Bound() then st.conn.phase.Failing?
                                   else IsFailing(s))
             && (!conn.phase.Bound() && !st.conn.phase.Bound() ==> st.srv == s.srv)
             && (!conn.phase.Bound() && st.conn.phase.Bound() ==> !s.srv.w.up.bound)
             && (conn.phase.Bound() || st.conn.phase.Bound() ==> st.srv.w.up.bound == st.conn.phase.Bound())
             && HandoverRule(s.srv, conn, st)
             && (conn.phase.Bound() || !st.conn.phase.Bound() || st.srv.w.up.filePos == s.srv.w.up.filePos)
             && (s.cur == Some(i) ==> CurOK(p, st.srv, st.conn, s.c))
    ensures Inv(p, ServerTurn(s, i, st))
  {
    OwnerKept(s, i, st);
    HandedKept(p, s, i, st, IsFailing(ServerTurn(s, i, st)));
    ConnsKept(p, s, i, st);
    CurrentKept(p, s, i, st);
  }
}
