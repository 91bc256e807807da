/** What a step of a handler does to the upload, said without the functions that compute it. */
module SessionEffects {
  import opened Protocol
  import opened UploadSpec
  import opened Session
  import LocalFileUploads

  /** A client message that ends the upload. */
  predicate Fatal(m: ClientMsg) {
    m.Cancel? || m.ClientError?
  }

  /** Every byte is there. */
  predicate Complete(srv: Server) {
    srv.w.up.filePos == srv.w.up.fileSize
  }

  /** The handler's next step takes the upload out of the states in which it receives. */
  predicate Ends(srv: Server, conn: Conn) {
    || (conn.phase.Receive? && Complete(srv))
    || (conn.phase.Receive? && conn.c2s != [] && Fatal(conn.c2s[0]))
    || conn.phase.Failing?
  }

  /** The upload is over: out of the pool, no handle, and no file if it could be removed. */
  predicate Dropped(srv: Server, srv': Server, removeOk: bool) {
    && srv'.w.up.state.CleanedUp? && !srv'.pooled && srv'.w.up.fd.Closed?
    && srv'.w.up.filePos == srv.w.up.filePos && srv'.w.up.path == srv.w.up.path && srv'.handover == srv.handover
    && srv'.w.files == (if removeOk && srv.w.up.path != "" then srv.w.files - {srv.w.up.path} else srv.w.files)
  }

  /** What becomes of an upload that receives. */
  predicate EndsExactly(srv: Server, conn: Conn, srv': Server, removeOk: bool) {
    && (srv'.w.up.state.Receiving() <==> !Ends(srv, conn))
    && (srv'.w.up.state.Receiving() ==> srv'.pooled == srv.pooled && srv'.handover == srv.handover)
    && (Ends(srv, conn) ==>
          if conn.phase.Receive? && Complete(srv)
          then srv'.w.up.state.HandingOver? && srv'.handover.Running? && srv'.pooled == srv.pooled
               && srv'.w.files == srv.w.files && srv'.w.up.path == srv.w.up.path
          else Dropped(srv, srv', removeOk))
  }

  lemma AbortDrops(srv: Server, removeOk: bool)
    requires srv.w.up.state.Receiving()
    ensures Dropped(srv, Abort(srv, removeOk), removeOk)
    ensures forall b :: Dropped(srv, SetBound(Abort(srv, removeOk), b), removeOk)
  {
  }

  lemma ReceiveEndsExactly(srv: Server, conn: Conn, cfg: Config, env: Env)
    requires srv.w.up.state.Receiving() && conn.phase.Receive?
    ensures EndsExactly(srv, conn, OnReceive(srv, conn, cfg, env).srv, env.io.removeOk)
  {
    AbortDrops(srv, env.io.removeOk);
    if !Complete(srv) && conn.c2s != [] && conn.c2s[0].Chunk? {
      ConsumeKeeps(srv.w, conn.c2s[0].data, env.io);
    }
  }

  /** A step of a handler ends an upload that receives if and only if it finds the file complete, which
      starts the handover, or it reads a cancel or an error from the client, or it gives up after a failed
      chunk, which both drop the upload. Nothing else does, in particular not the loss of a connection. */
  lemma EndsReceivingExactly(srv: Server, conn: Conn, cfg: Config, env: Env)
    requires srv.w.up.state.Receiving()
    ensures EndsExactly(srv, conn, ServerStep(srv, conn, cfg, env).srv, env.io.removeOk)
  {
    match conn.phase
    case Receive => ReceiveEndsExactly(srv, conn, cfg, env);
    case Failing => AbortDrops(srv, env.io.removeOk);
    case _ => OthersEndNothing(srv, conn, cfg, env);
  }

  lemma OthersEndNothing(srv: Server, conn: Conn, cfg: Config, env: Env)
    requires srv.w.up.state.Receiving() && !conn.phase.Receive? && !conn.phase.Failing?
    ensures EndsExactly(srv, conn, ServerStep(srv, conn, cfg, env).srv, env.io.removeOk)
  {
  }

  /** There is nothing to read, and there will not be, or not in time. */
  predicate Lost(conn: Conn, env: Env) {
    conn.c2s == [] && (!conn.alive || env.socketError)
  }

  /** A handler that loses its connection, before it has bound the upload, during the handshake, while it
      receives, or while it waits for the handover, leaves the upload as it is, unbound. */
  lemma LossLeavesUpload(srv: Server, conn: Conn, cfg: Config, env: Env)
    requires Lost(conn, env)
    requires conn.phase.AwaitReq? || conn.phase.AwaitAck? || (conn.phase.Receive? && !Complete(srv))
             || (conn.phase.AwaitHandover? && env.fromSocket)
    ensures var st := ServerStep(srv, conn, cfg, env);
            && st.conn.phase.Done? && st.conn.c2s == []
            && st.srv == (if conn.phase.AwaitReq? then srv
                          else srv.(w := srv.w.(up := srv.w.up.(bound := false))))
            && st.conn.s2c == (if conn.alive && !conn.phase.AwaitHandover? then conn.s2c + [ServerError] else conn.s2c)
  {
  }

  /** The upload is as before, except that the handler has let it go. */
  predicate OnlyUnbound(srv: Server, srv': Server) {
    srv' == srv.(w := srv.w.(up := srv.w.up.(bound := false)))
  }

  /** What the handler answers, over a socket that works. */
  function Answers(conn: Conn, ms: seq<ServerMsg>): seq<ServerMsg> {
    if conn.alive then conn.s2c + ms else conn.s2c
  }

  /** What each frame does that is read in the receive loop, apart from the files. */
  lemma FrameEffects(srv: Server, conn: Conn, cfg: Config, env: Env)
    requires conn.phase.Receive? && !Complete(srv) && conn.c2s != []
    ensures var st, m := ServerStep(srv, conn, cfg, env), conn.c2s[0];
            && st.conn.c2s == conn.c2s[1..] && st.conn.alive == conn.alive
            && match m
               case Pause =>
                 && st.conn == conn.(c2s := conn.c2s[1..])
                 && st.srv == (if srv.w.up.state.Uploading? || srv.w.up.state.Paused?
                               then srv.(w := srv.w.(up := srv.w.up.(state := State.Paused, fd := Closed))) else srv)
               case Cancel => st.conn.phase.Done? && !st.srv.w.up.bound && st.conn.s2c == Answers(conn, [CancelAck])
               case ClientError => st.conn.phase.Done? && !st.srv.w.up.bound && st.conn.s2c == conn.s2c
               case Chunk(data) =>
                 if |data| > cfg.chunkKB * 1024 + 4096
                 then OnlyUnbound(srv, st.srv) && st.conn.phase.Done? && st.conn.s2c == Answers(conn, [ServerError])
                 else
                   && st.srv.pooled == srv.pooled && st.srv.handover == srv.handover
                   && st.srv.w.up.bound == srv.w.up.bound
                   && (if Consume(srv.w, data, env.io).err.None?
                       then st.conn.phase.Receive? && st.conn.s2c == Answers(conn, [ChunkAck(|data|)])
                       else st.conn.phase.Failing? && st.conn.s2c == Answers(conn, [ServerError]))
               case _ => OnlyUnbound(srv, st.srv) && st.conn.phase.Done? && st.conn.s2c == Answers(conn, [ServerError])
  {
    assert conn.s2c + [] == conn.s2c;
    if conn.c2s[0].Chunk? {
      ConsumeKeeps(srv.w, conn.c2s[0].data, env.io);
    }
  }

  /** What a frame does to an upload that receives and holds `data`: a chunk that can be stored extends the
      file by exactly its bytes; a chunk that cannot has the handler give up, and leaves position and
      bytes alone exactly if it left nothing irrevocable; a pause keeps every byte. */
  lemma FrameStores(srv: Server, conn: Conn, cfg: Config, env: Env, data: Bytes)
    requires Holds(srv.w, data) && srv.w.up.state.Receiving() && srv.w.up.fileSize >= 0
    requires conn.phase.Receive? && !Complete(srv) && conn.c2s != [] && !Oversized(cfg, conn.c2s[0])
    ensures var st, m := ServerStep(srv, conn, cfg, env), conn.c2s[0];
            && (m.Chunk? ==> (st.conn.phase.Receive? <==> CanStore(srv.w, m.data, env.io)))
            && (m.Chunk? && st.conn.phase.Receive? ==> Holds(st.srv.w, data + m.data))
            && (m.Chunk? && !st.conn.phase.Receive? ==>
                  (st.srv.w.up.filePos == srv.w.up.filePos && (st.srv.w.up.state.Init? || st.srv.w.Stored() == data)
                   <==> !Irrevocable(srv.w, m.data, env.io)))
            && (m.Pause? && !srv.w.up.state.Init? ==> st.srv.w.up.state.Paused? && Holds(st.srv.w, data))
  {
    if conn.c2s[0].Chunk? {
      ConsumeAppends(srv.w, data, conn.c2s[0].data, env.io);
      if !CanStore(srv.w, conn.c2s[0].data, env.io) {
        ConsumeAllOrNothing(srv.w, data, conn.c2s[0].data, env.io);
      }
    }
  }

  /** A handler that gives up after a failed chunk drops the upload, unless it has been cancelled
      already. */
  lemma FailingEffects(srv: Server, conn: Conn, cfg: Config, env: Env)
    requires conn.phase.Failing?
    ensures var st := ServerStep(srv, conn, cfg, env);
            && st.conn == conn.(phase := Done) && !st.srv.w.up.bound
            && (srv.w.up.state.Receiving() ==> Dropped(srv, st.srv, env.io.removeOk))
            && (srv.w.up.state.Cancelled? ==> OnlyUnbound(srv, st.srv))
  {
  }

  /** How a handler ends that hears from the handover routine. The one that takes the error passes it on
      and changes nothing; any other reports what the state says and, if it can write to its client, has
      the upload cleaned up and taken out of the pool. */
  lemma ReportEffects(srv: Server, conn: Conn, cfg: Config, env: Env)
    requires conn.phase.AwaitHandover? && srv.handover.Ended? && !env.fromSocket
    ensures var st := ServerStep(srv, conn, cfg, env);
            && st.conn.phase.Done? && st.conn.c2s == conn.c2s && !st.srv.w.up.bound && st.srv.handover == srv.handover
            && if !srv.handover.ok && env.takesError
               then OnlyUnbound(srv, st.srv) && st.conn.s2c == Answers(conn, [ServerError])
               else
                 && st.conn.s2c == Answers(conn, [if srv.w.up.state.Finished? then AllDone else ServerError])
                 && (conn.alive && (srv.w.up.state.Finished? || srv.w.up.state.Cancelled?) ==>
                       st.srv.w.up.state.CleanedUp? && !st.srv.pooled)
                 && (!conn.alive && env.socketError ==> OnlyUnbound(srv, st.srv))
  {
  }

  // ---------------------------------------------------------------- waiting for the handover

  /** As many messages from the client as there are unread ones, and none too long. */
  predicate Messages(cfg: Config, conn: Conn, wakes: seq<Wake>) {
    && |wakes| <= |conn.c2s|
    && (forall i :: 0 <= i < |wakes| ==> wakes[i].Wakes? && wakes[i].env.fromSocket && !Oversized(cfg, conn.c2s[i]))
  }

  /** While a handler waits, the client's messages are read and change nothing. */
  lemma {:induction false} MessagesAreIgnored(srv: Server, conn: Conn, cfg: Config, wakes: seq<Wake>, rest: seq<Wake>)
    requires conn.phase.AwaitHandover? && Messages(cfg, conn, wakes)
    ensures Await(srv, conn, cfg, wakes + rest) == Await(srv, conn.(c2s := conn.c2s[|wakes|..]), cfg, rest)
    decreases |wakes|
  {
    if wakes == [] {
      assert wakes + rest == rest && conn.c2s[0..] == conn.c2s;
    } else {
      var conn1 := conn.(c2s := conn.c2s[1..]);
      assert (wakes + rest)[0] == wakes[0] && (wakes + rest)[1..] == wakes[1..] + rest;
      assert OnHandover(srv, conn, cfg, wakes[0].env) == Step(srv, conn1);
      forall i | 0 <= i < |wakes[1..]|
        ensures wakes[1..][i].Wakes? && wakes[1..][i].env.fromSocket && !Oversized(cfg, conn1.c2s[i])
      {
        assert wakes[1..][i] == wakes[i + 1] && conn1.c2s[i] == conn.c2s[i + 1];
      }
      MessagesAreIgnored(srv, conn1, cfg, wakes[1..], rest);
      assert conn1.c2s[|wakes[1..]|..] == conn.c2s[|wakes|..];
    }
  }

  /** Nothing happens after the handler has returned. */
  lemma AwaitDone(srv: Server, conn: Conn, cfg: Config, wakes: seq<Wake>)
    requires conn.phase.Done?
    ensures Await(srv, conn, cfg, wakes) == Step(srv, conn)
  {
  }

  /** A handler whose connection is lost while it waits returns and leaves the upload to the handover
      routine, whatever comes later. */
  lemma LossEndsWaiting(srv: Server, conn: Conn, cfg: Config, wakes: seq<Wake>, env: Env, rest: seq<Wake>)
    requires conn.phase.AwaitHandover? && Messages(cfg, conn, wakes) && |wakes| == |conn.c2s|
    requires env.fromSocket && (!conn.alive || env.socketError)
    ensures var st := Await(srv, conn, cfg, wakes + ([Wakes(env)] + rest));
            st.conn == conn.(c2s := [], phase := Done) && OnlyUnbound(srv, st.srv)
  {
    MessagesAreIgnored(srv, conn, cfg, wakes, [Wakes(env)] + rest);
    var conn1 := conn.(c2s := []);
    assert conn.c2s[|wakes|..] == [];
    var s := OnHandover(srv, conn1, cfg, env);
    assert ([Wakes(env)] + rest)[0] == Wakes(env) && ([Wakes(env)] + rest)[1..] == rest;
    AwaitDone(s.srv, s.conn, cfg, rest);
  }

  /** A handler whose client stays hears how the routine ends, tells the client, and cleans up: success
      after "done" or a confirmed "wait"; after a failure it is the routine's error that it passes on. */
  lemma OutcomeEndsWaiting(srv: Server, conn: Conn, cfg: Config, wakes: seq<Wake>, reply: LocalFileUploads.Reply,
                           confirmed: bool, env: Env, rest: seq<Wake>)
    requires conn.phase.AwaitHandover? && conn.alive && Messages(cfg, conn, wakes)
    requires srv.handover.Running? && srv.w.up.state.HandingOver? && !env.fromSocket && env.takesError
    ensures var ok := reply.ReplyDone? || (reply.ReplyWait? && confirmed);
            var st := Await(srv, conn, cfg, wakes + ([RoutineEnds(reply, confirmed), Wakes(env)] + rest));
            && st.conn.phase.Done? && !st.srv.w.up.bound && st.srv.handover == Ended(ok)
            && st.conn.s2c == conn.s2c + [if ok then AllDone else ServerError]
            && st.srv.w.up.state == (if ok then CleanedUp else Cancelled)
            && st.srv.pooled == (srv.pooled && !ok)
  {
    var tail := [RoutineEnds(reply, confirmed), Wakes(env)] + rest;
    MessagesAreIgnored(srv, conn, cfg, wakes, tail);
    var conn1 := conn.(c2s := conn.c2s[|wakes|..]);
    var srv1 := EndRoutine(srv, reply, confirmed);
    assert tail[0] == RoutineEnds(reply, confirmed) && tail[1..] == [Wakes(env)] + rest;
    assert tail[1..][0] == Wakes(env) && tail[1..][1..] == rest;
    var s := OnHandover(srv1, conn1, cfg, env);
    ReportEffects(srv1, conn1, cfg, env);
    AwaitDone(s.srv, s.conn, cfg, rest);
    assert Await(srv1, conn1, cfg, tail[1..]) == s;
  }
}
