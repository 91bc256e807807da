/** The server's steps keep the invariant of TransferInv.dfy. */
module TransferServer {
  import opened Protocol
  import opened UploadSpec
  import opened Session
  import opened Transfer
  import opened TransferInv
  import Sender

  // ---------------------------------------------------------------- queues

  lemma {:induction false} QuietCarriesNothing(file: Bytes, filePos: nat, q: seq<ClientMsg>)
    requires filePos <= |file| && forall m :: m in q ==> !m.Chunk?
    ensures Size(q) == 0 && Chunks(q) == 0 && InFlight(file, filePos, q)
  {
    if q != [] {
      assert q[0] in q && forall m :: m in q[1..] ==> m in q;
      QuietCarriesNothing(file, filePos, q[1..]);
    }
  }

  lemma {:induction false} NoAcks(q: seq<ServerMsg>)
    requires forall m :: m in q ==> !m.ChunkAck?
    ensures AckedBytes(q) == 0 && Acks(q) == 0
  {
    if q != [] {
      assert q[0] in q && forall m :: m in q[1..] ==> m in q;
      NoAcks(q[1..]);
    }
  }

  lemma {:induction false} NoBytesNoChunks(p: Params, q: seq<ClientMsg>)
    requires forall m :: m in q ==> GoodMsg(p, m)
    requires Size(q) == 0
    ensures Chunks(q) == 0
  {
    if q != [] {
      assert q[0] in q && forall m :: m in q[1..] ==> m in q;
      NoBytesNoChunks(p, q[1..]);
    }
  }

  lemma {:induction false} InFlightFits(file: Bytes, filePos: nat, q: seq<ClientMsg>)
    requires InFlight(file, filePos, q)
    ensures filePos + Size(q) <= |file|
    decreases |q|
  {
    if q != [] {
      InFlightFits(file, filePos + (if q[0].Chunk? then |q[0].data| else 0), q[1..]);
    }
  }

  /** Removing the head of a queue of good messages. */
  lemma PopFacts(p: Params, q: seq<ClientMsg>)
    requires q != [] && forall m :: m in q ==> GoodMsg(p, m)
    ensures Size(q) == (if q[0].Chunk? then |q[0].data| else 0) + Size(q[1..])
    ensures Chunks(q) == (if q[0].Chunk? then 1 else 0) + Chunks(q[1..])
    ensures q[0] in q && GoodMsg(p, q[0])
    ensures forall m :: m in q[1..] ==> m in q && GoodMsg(p, m)
  {
  }

  // ---------------------------------------------------------------- what others see

  /** What every step of the server keeps for the connections it does not serve. */
  predicate Grows(srv: Server, srv': Server) {
    srv.w.up.filePos <= srv'.w.up.filePos
    && (srv.handover == Ended(true) ==> srv'.handover == Ended(true))
  }

  lemma OtherConn(p: Params, srv: Server, srv': Server, conn: Conn)
    requires Grows(srv, srv') && ConnOK(p, srv, conn)
    requires !conn.phase.Bound() || (srv'.w.up.filePos == srv.w.up.filePos && srv'.w.up.fileSize == srv.w.up.fileSize)
    ensures ConnOK(p, srv', conn)
  {
  }

  lemma OtherCur(p: Params, srv: Server, srv': Server, conn: Conn, c: Sender.Client)
    requires Grows(srv, srv') && CurOK(p, srv, conn, c)
    requires !conn.phase.Bound() || srv'.w.up.filePos == srv.w.up.filePos
    ensures CurOK(p, srv', conn, c)
  {
  }

  // ---------------------------------------------------------------- one step of one handler

  predicate Kept(p: Params, srv: Server, st: Step, failing: bool) {
    ServerOK(p, st.srv, failing) && ConnOK(p, st.srv, st.conn) && Grows(srv, st.srv)
  }

  lemma AbortOK(p: Params, srv: Server, failing: bool, removeOk: bool)
    requires ServerOK(p, srv, failing)
    ensures ServerOK(p, Abort(srv, removeOk), false)
    ensures var r := Abort(srv, removeOk);
            && r.w.up.filePos == srv.w.up.filePos && r.w.up.fileSize == srv.w.up.fileSize
            && r.handover == srv.handover && r.w.up.bound == srv.w.up.bound && SameUpload(r.w.up, srv.w.up)
            && !r.w.up.state.Receiving()
  {
  }

  predicate GoodQueues(p: Params, srv: Server, conn: Conn) {
    (forall x :: x in conn.c2s ==> GoodMsg(p, x)) && (forall x :: x in conn.s2c ==> GoodReply(p, srv, x))
  }

  lemma LeaveKeeps(p: Params, srv: Server, srv': Server, conn: Conn, m: ServerMsg)
    requires ServerOK(p, srv', false) && Grows(srv, srv') && GoodQueues(p, srv, conn) && GoodReply(p, srv', m)
    ensures Kept(p, srv, Leave(srv', conn), false) && Kept(p, srv, LeaveWith(srv', conn, m), false)
  {
  }

  lemma AcceptKeeps(p: Params, srv: Server, conn: Conn, failing: bool)
    requires ServerOK(p, srv, failing) && !failing && conn.phase.AwaitReq? && conn.s2c == []
    requires forall m :: m in conn.c2s ==> Quiet(p, m)
    ensures Kept(p, srv, Accept(srv, conn, |p.file|, p.cfg), failing)
  {
    assert forall m :: m in conn.c2s ==> GoodMsg(p, m);
    var up := srv.w.up;
    if (!up.state.Init? && up.fileSize != |p.file|) || up.state.Rank() >= Cancelled.Rank() {
      LeaveKeeps(p, srv, srv, conn, ServerError);
    } else {
      OfferKeeps(p, srv, conn);
    }
  }

  lemma OfferKeeps(p: Params, srv: Server, conn: Conn)
    requires ServerOK(p, srv, false) && conn.phase.AwaitReq? && conn.s2c == []
    requires forall m :: m in conn.c2s ==> Quiet(p, m)
    requires srv.w.up.state.Rank() < Cancelled.Rank() && (srv.w.up.state.Init? || srv.w.up.fileSize == |p.file|)
    ensures Kept(p, srv, Accept(srv, conn, |p.file|, p.cfg), false)
  {
    QuietCarriesNothing(p.file, srv.w.up.filePos, conn.c2s);
    var st := Accept(srv, conn, |p.file|, p.cfg);
    assert conn.c2s != [] ==> conn.c2s[0] in conn.c2s;
    assert conn.alive ==> st.conn.s2c == [UploadConf(p.cfg.chunkKB, srv.w.up.filePos, p.cfg.sendAhead)];
    assert ServerOK(p, st.srv, false);
  }

  lemma RequestKeeps(p: Params, srv: Server, conn: Conn, env: Env, failing: bool)
    requires ServerOK(p, srv, failing) && ConnOK(p, srv, conn) && conn.phase.AwaitReq?
    requires failing ==> srv.w.up.bound
    ensures Kept(p, srv, OnRequest(srv, conn, p.cfg, env), failing)
    ensures var st := OnRequest(srv, conn, p.cfg, env);
            && (st.conn.phase.AwaitReq? || st.conn.phase.AwaitAck? || st.conn.phase.Done?)
            && (st.conn.phase.Bound() ==> !srv.w.up.bound && st.srv.w.up.bound)
            && (!st.conn.phase.Bound() ==> st.srv == srv)
            && st.srv.handover == srv.handover && st.srv.w.up.filePos == srv.w.up.filePos
  {
    if conn.c2s != [] {
      PopFacts(p, conn.c2s);
      var srv1 := SetBound(srv, true);
      if !srv.w.up.bound {
        assert ServerOK(p, srv1, failing);
        AcceptKeeps(p, srv1, Pop(conn), failing);
      }
    }
  }

  lemma AckKeeps(p: Params, srv: Server, conn: Conn, env: Env)
    requires ServerOK(p, srv, false) && ConnOK(p, srv, conn) && conn.phase.AwaitAck?
    ensures Kept(p, srv, OnAck(srv, conn, env), false)
    ensures var st := OnAck(srv, conn, env);
            && (st.conn.phase.AwaitAck? || st.conn.phase.Receive? || st.conn.phase.Done?)
            && st.srv.w.up.bound == (!st.conn.phase.Done? && srv.w.up.bound)
            && st.srv.handover == srv.handover && st.srv.w.up.filePos == srv.w.up.filePos
  {
    if conn.c2s != [] {
      PopFacts(p, conn.c2s);
      LeaveKeeps(p, srv, srv, Pop(conn), ServerError);
    }
    LeaveKeeps(p, srv, srv, conn, ServerError);
  }

  lemma HandoverStarts(p: Params, srv: Server, conn: Conn, env: Env)
    requires ServerOK(p, srv, false) && ConnOK(p, srv, conn) && conn.phase.Receive?
    requires srv.w.up.filePos == srv.w.up.fileSize
    ensures Kept(p, srv, OnReceive(srv, conn, p.cfg, env), false)
    ensures OnReceive(srv, conn, p.cfg, env).conn.phase.AwaitHandover?
  {
    assert p.file[..|p.file|] == p.file;
    InFlightFits(p.file, srv.w.up.filePos, conn.c2s);
    NoBytesNoChunks(p, conn.c2s);
  }

  lemma StoreKeeps(p: Params, srv: Server, data: Bytes, io: IO)
    requires ServerOK(p, srv, false) && srv.w.up.fileSize == |p.file| && srv.w.up.filePos != srv.w.up.fileSize
    requires srv.w.up.filePos + |data| <= |p.file|
    requires data == p.file[srv.w.up.filePos..srv.w.up.filePos + |data|]
    ensures var r := Consume(srv.w, data, io);
            && ServerOK(p, srv.(w := r.w), r.err.Some?)
            && r.w.up.fileSize == srv.w.up.fileSize && r.w.up.bound == srv.w.up.bound
            && srv.w.up.filePos <= r.w.up.filePos
            && (r.err.None? ==> r.w.up.filePos == srv.w.up.filePos + |data|)
  {
    if !srv.w.up.state.Receiving() {
      ConsumeKeeps(srv.w, data, io);
    } else if CanStore(srv.w, data, io) {
      StoreSucceeds(p, srv, data, io);
    } else {
      StoreFails(p, srv, data, io);
    }
  }

  lemma StoreSucceeds(p: Params, srv: Server, data: Bytes, io: IO)
    requires ServerOK(p, srv, false) && srv.w.up.fileSize == |p.file| && srv.w.up.filePos != srv.w.up.fileSize
    requires srv.w.up.state.Receiving() && CanStore(srv.w, data, io)
    requires data == p.file[srv.w.up.filePos..srv.w.up.filePos + |data|]
    ensures var r := Consume(srv.w, data, io);
            && r.err.None? && ServerOK(p, srv.(w := r.w), false)
            && r.w.up.fileSize == srv.w.up.fileSize && r.w.up.bound == srv.w.up.bound
            && r.w.up.filePos == srv.w.up.filePos + |data|
  {
    var before := p.file[..srv.w.up.filePos];
    ConsumeAppends(srv.w, before, data, io);
    assert before + data == p.file[..srv.w.up.filePos + |data|];
  }

  lemma StoreFails(p: Params, srv: Server, data: Bytes, io: IO)
    requires ServerOK(p, srv, false) && srv.w.up.fileSize == |p.file| && srv.w.up.filePos != srv.w.up.fileSize
    requires srv.w.up.state.Receiving() && !CanStore(srv.w, data, io)
    requires srv.w.up.filePos + |data| <= |p.file|
    requires data == p.file[srv.w.up.filePos..srv.w.up.filePos + |data|]
    ensures var r := Consume(srv.w, data, io);
            && r.err.Some? && ServerOK(p, srv.(w := r.w), true)
            && r.w.up.fileSize == srv.w.up.fileSize && r.w.up.bound == srv.w.up.bound
            && srv.w.up.filePos <= r.w.up.filePos
  {
    var before := p.file[..srv.w.up.filePos];
    ConsumeKeeps(srv.w, data, io);
    ConsumeAppends(srv.w, before, data, io);
    ConsumeKeepsPrefix(srv.w, before, data, io);
    assert before + data <= p.file;
  }

  /** The connection after its first message was a chunk that `srv'` has stored. */
  lemma ChunkPopped(p: Params, srv: Server, srv': Server, conn: Conn)
    requires ConnOK(p, srv, conn) && conn.phase.Receive? && conn.c2s != [] && conn.c2s[0].Chunk?
    requires Grows(srv, srv') && srv'.w.up.fileSize == srv.w.up.fileSize
    requires srv'.w.up.filePos == srv.w.up.filePos + |conn.c2s[0].data|
    ensures ConnOK(p, srv', Reply(Pop(conn), ChunkAck(|conn.c2s[0].data|)))
  {
    PopFacts(p, conn.c2s);
  }

  /** A chunk read in the receive loop: stored and acknowledged, or the handler gives up. */
  lemma ChunkKeeps(p: Params, srv: Server, conn: Conn, env: Env)
    requires ServerOK(p, srv, false) && ConnOK(p, srv, conn) && conn.phase.Receive?
    requires srv.w.up.filePos != srv.w.up.fileSize && conn.c2s != [] && conn.c2s[0].Chunk?
    ensures var st := OnReceive(srv, conn, p.cfg, env); Kept(p, srv, st, st.conn.phase.Failing?)
  {
    PopFacts(p, conn.c2s);
    var data := conn.c2s[0].data;
    InFlightFits(p.file, srv.w.up.filePos, conn.c2s);
    StoreKeeps(p, srv, data, env.io);
    var c := Consume(srv.w, data, env.io);
    if c.err.None? {
      ChunkPopped(p, srv, srv.(w := c.w), conn);
    } else {
      var st := OnReceive(srv, conn, p.cfg, env);
      assert ConnOK(p, st.srv, st.conn);
    }
  }

  lemma FrameKeeps(p: Params, srv: Server, conn: Conn, env: Env)
    requires ServerOK(p, srv, false) && ConnOK(p, srv, conn) && conn.phase.Receive?
    requires srv.w.up.filePos != srv.w.up.fileSize && (conn.c2s == [] || !conn.c2s[0].Chunk?)
    ensures var st := OnReceive(srv, conn, p.cfg, env); Kept(p, srv, st, false) && !st.conn.phase.Failing?
  {
    if conn.c2s == [] {
      LeaveKeeps(p, srv, srv, conn, ServerError);
    } else {
      PopFacts(p, conn.c2s);
      if conn.c2s[0].Pause? {
        PauseKeeps(p, srv, conn);
      } else {
        AbortOK(p, srv, false, env.io.removeOk);
        LeaveKeeps(p, srv, Abort(srv, env.io.removeOk), Pop(conn), CancelAck);
        LeaveKeeps(p, srv, srv, Pop(conn), ServerError);
      }
    }
  }

  lemma PauseKeeps(p: Params, srv: Server, conn: Conn)
    requires ServerOK(p, srv, false) && ConnOK(p, srv, conn) && conn.phase.Receive?
    requires srv.w.up.filePos != srv.w.up.fileSize && conn.c2s != [] && conn.c2s[0].Pause?
    ensures Kept(p, srv, Step(srv.(w := PauseUpload(srv.w)), Pop(conn)), false)
  {
    PopFacts(p, conn.c2s);
    assert ServerOK(p, srv.(w := PauseUpload(srv.w)), false);
  }

  lemma FailingKeeps(p: Params, srv: Server, conn: Conn, env: Env)
    requires ServerOK(p, srv, true) && ConnOK(p, srv, conn) && conn.phase.Failing?
    ensures Kept(p, srv, OnFailing(srv, conn, env), false)
  {
    AbortOK(p, srv, true, env.io.removeOk);
  }

  lemma CleanUpOK(p: Params, srv: Server, removeOk: bool)
    requires ServerOK(p, srv, false)
    ensures ServerOK(p, CleanUpServer(srv, removeOk), false) && Grows(srv, CleanUpServer(srv, removeOk))
    ensures CleanUpServer(srv, removeOk).w.up.fileSize == srv.w.up.fileSize
  {
  }

  lemma HandoverKeeps(p: Params, srv: Server, conn: Conn, env: Env)
    requires ServerOK(p, srv, false) && ConnOK(p, srv, conn) && conn.phase.AwaitHandover?
    ensures Kept(p, srv, OnHandover(srv, conn, p.cfg, env), false)
  {
    if env.fromSocket {
      SocketHeard(p, srv, conn, env);
    } else {
      OutcomeHeard(p, srv, conn, env);
    }
  }

  lemma SocketHeard(p: Params, srv: Server, conn: Conn, env: Env)
    requires ServerOK(p, srv, false) && ConnOK(p, srv, conn) && conn.phase.AwaitHandover? && env.fromSocket
    ensures Kept(p, srv, OnHandover(srv, conn, p.cfg, env), false)
  {
    if conn.c2s != [] {
      PopFacts(p, conn.c2s);
    }
  }

  lemma OutcomeHeard(p: Params, srv: Server, conn: Conn, env: Env)
    requires ServerOK(p, srv, false) && ConnOK(p, srv, conn) && conn.phase.AwaitHandover? && !env.fromSocket
    ensures Kept(p, srv, OnHandover(srv, conn, p.cfg, env), false)
  {
    CleanUpOK(p, srv, env.io.removeOk);
    var m := if srv.w.up.state.Finished? then AllDone else ServerError;
    LeaveKeeps(p, srv, srv, conn, ServerError);
    LeaveKeeps(p, srv, srv, conn, m);
    LeaveKeeps(p, srv, CleanUpServer(srv, env.io.removeOk), conn, m);
  }
}
