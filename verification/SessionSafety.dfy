/** What the handler's routine achieves for a client that keeps to the protocol. */
module SessionSafety {
  import opened Protocol
  import opened UploadSpec
  import opened Session

  /** A session is opened exactly for the id of a pooled upload that is free and not over, and, unless
      the upload is new, by a client whose file still has the declared size. Then the client is offered
      the position reached; otherwise it is refused and the upload is as before. */
  lemma AcceptedExactly(srv: Server, conn: Conn, cfg: Config, env: Env)
    requires conn.phase.AwaitReq? && conn.alive && conn.c2s != []
    ensures var st, m, up := ServerStep(srv, conn, cfg, env), conn.c2s[0], srv.w.up;
            && (st.conn.phase.AwaitAck? <==>
                  m.UploadReq? && m.id == up.id && srv.pooled && !up.bound && up.state.Rank() < Cancelled.Rank()
                  && (up.state.Init? || m.length == up.fileSize))
            && (st.conn.phase.AwaitAck? ==>
                  st.srv == SetBound(srv.(w := srv.w.(up := up.(fileSize := m.length))), true)
                  && st.conn.s2c == conn.s2c + [UploadConf(cfg.chunkKB, up.filePos, cfg.sendAhead)])
            && (!st.conn.phase.AwaitAck? ==>
                  st.srv == srv && st.conn.phase.Done? && st.conn.s2c == conn.s2c + [ServerError])
  {
  }

  /** One ack for each chunk, in order. */
  function AcksFor(q: seq<ClientMsg>): seq<ServerMsg> {
    if q == [] then [] else (if q[0].Chunk? then [ChunkAck(|q[0].data|)] else []) + AcksFor(q[1..])
  }

  predicate OnlyChunks(cfg: Config, q: seq<ClientMsg>) {
    forall m :: m in q ==> m.Chunk? && m.data != [] && !Oversized(cfg, m)
  }

  /** The handler is on its way out of the loop and has claimed the handover of exactly `data`. */
  predicate Delivered(r: Step, up: Upload, data: Bytes, replies: seq<ServerMsg>) {
    && r.conn == Conn([], replies, true, Phase.AwaitHandover)
    && r.srv.handover.Running? && r.srv.w.up.state.HandingOver?
    && r.srv.w.Stored() == data
    && r.srv.w.up.path == (if data == [] then "" else up.FinalPath())
  }

  /** One turn of the loop, leading to `st`. */
  lemma ChunkStored(srv: Server, conn: Conn, cfg: Config, env: Env, data: Bytes, st: Step)
    requires Holds(srv.w, data) && srv.w.up.state.Receiving() && conn.alive && conn.phase.Receive?
    requires conn.c2s != [] && conn.c2s[0].Chunk? && conn.c2s[0].data != [] && !Oversized(cfg, conn.c2s[0])
    requires srv.w.up.fileSize == |data| + Size(conn.c2s) && NoFault(env.io)
    requires st == ServerStep(srv, conn, cfg, env)
    ensures var chunk := conn.c2s[0].data;
            && st.conn == conn.(c2s := conn.c2s[1..], s2c := conn.s2c + [ChunkAck(|chunk|)])
            && Holds(st.srv.w, data + chunk) && st.srv.w.up.state.Receiving() && SameUpload(st.srv.w.up, srv.w.up)
  {
    ConsumeAppends(srv.w, data, conn.c2s[0].data, env.io);
  }

  lemma LoopEnds(srv: Server, conn: Conn, cfg: Config, io: nat -> IO, k: nat, data: Bytes)
    requires Holds(srv.w, data) && srv.w.up.state.Receiving() && conn.alive && conn.phase.Receive?
    requires conn.c2s == [] && srv.w.up.fileSize == |data|
    ensures Delivered(Serve(srv, conn, cfg, io, k), srv.w.up, data, conn.s2c)
  {
    StripPart(srv.w.up);
    var s := ServerStep(srv, conn, cfg, Env(io(k), true, false, false));
    assert Serve(s.srv, s.conn, cfg, io, k + 1) == s;
  }

  /** What is delivered after a turn of the loop is what was to be delivered before it. */
  lemma DeliveredAfter(r: Step, up: Upload, up': Upload, data: Bytes, q: seq<ClientMsg>, replies: seq<ServerMsg>)
    requires q != [] && q[0].Chunk? && SameUpload(up', up)
    requires Delivered(r, up', (data + q[0].data) + Payload(q[1..]),
                       (replies + [ChunkAck(|q[0].data|)]) + AcksFor(q[1..]))
    ensures Delivered(r, up, data + Payload(q), replies + AcksFor(q))
  {
    assert (data + q[0].data) + Payload(q[1..]) == data + (q[0].data + Payload(q[1..]));
    var ack := [ChunkAck(|q[0].data|)];
    assert (replies + ack) + AcksFor(q[1..]) == replies + (ack + AcksFor(q[1..]));
  }

  lemma ServeUnfolds(srv: Server, conn: Conn, cfg: Config, io: nat -> IO, k: nat) returns (st: Step)
    requires conn.alive && conn.phase.Receive?
    ensures st == ServerStep(srv, conn, cfg, Env(io(k), true, false, false)) && st.conn.alive
    ensures Serve(srv, conn, cfg, io, k) == Serve(st.srv, st.conn, cfg, io, k + 1)
  {
    st := ServerStep(srv, conn, cfg, Env(io(k), true, false, false));
  }

  /** An undisturbed receive loop stores the chunks it is sent, in order and behind what it has. */
  lemma {:induction false} LoopStoresChunks(srv: Server, conn: Conn, cfg: Config, io: nat -> IO, k: nat,
                                            data: Bytes, r: Step)
    requires Holds(srv.w, data) && srv.w.up.state.Receiving() && conn.alive && conn.phase.Receive?
    requires OnlyChunks(cfg, conn.c2s) && srv.w.up.fileSize == |data| + Size(conn.c2s)
    requires forall j :: NoFault(io(j))
    requires r == Serve(srv, conn, cfg, io, k)
    ensures Delivered(r, srv.w.up, data + Payload(conn.c2s), conn.s2c + AcksFor(conn.c2s))
    decreases |conn.c2s|
  {
    if conn.c2s == [] {
      LoopEnds(srv, conn, cfg, io, k, data);
      assert data + [] == data && conn.s2c + [] == conn.s2c;
    } else {
      var env := Env(io(k), true, false, false);
      var s := ServeUnfolds(srv, conn, cfg, io, k);
      assert conn.c2s[0] in conn.c2s && forall x :: x in conn.c2s[1..] ==> x in conn.c2s;
      assert NoFault(io(k));
      ChunkStored(srv, conn, cfg, env, data, s);
      LoopStoresChunks(s.srv, s.conn, cfg, io, k + 1, data + conn.c2s[0].data, r);
      DeliveredAfter(r, srv.w.up, s.srv.w.up, data, conn.c2s, conn.s2c);
    }
  }

  /** The first two turns of the routine: the request and the ack. */
  lemma RequestServed(srv: Server, conn: Conn, cfg: Config, env: Env, chunks: seq<ClientMsg>, total: nat)
    returns (st: Step)
    requires srv.w.up.state.Receiving() && srv.pooled && !srv.w.up.bound
    requires srv.w.up.state.Init? || srv.w.up.fileSize == total
    requires conn == Conn([UploadReq(srv.w.up.id, total), Ack(true)] + chunks, [], true, AwaitReq)
    ensures st == ServerStep(srv, conn, cfg, env)
    ensures st.srv == SetBound(srv.(w := srv.w.(up := srv.w.up.(fileSize := total))), true)
    ensures st.conn == Conn([Ack(true)] + chunks,
                            [UploadConf(cfg.chunkKB, srv.w.up.filePos, cfg.sendAhead)], true, AwaitAck)
  {
    st := ServerStep(srv, conn, cfg, env);
    AcceptedExactly(srv, conn, cfg, env);
    assert conn.c2s[1..] == [Ack(true)] + chunks;
    assert st.conn.c2s == conn.c2s[1..] && st.conn.alive;
  }

  lemma AckServed(srv: Server, conn: Conn, cfg: Config, env: Env, chunks: seq<ClientMsg>) returns (st: Step)
    requires conn.phase.AwaitAck? && conn.alive && conn.c2s == [Ack(true)] + chunks
    ensures st == ServerStep(srv, conn, cfg, env)
    ensures st == Step(srv, conn.(c2s := chunks, phase := Phase.Receive))
  {
    st := ServerStep(srv, conn, cfg, env);
    assert conn.c2s[1..] == chunks;
  }

  /** A client that asks for the upload, acks the config and sends what the server lacks leaves the
      server with the whole file, one ack for each chunk, and the handover begun; also when the upload
      is resumed, and also when nothing was missing. */
  lemma ServeStoresFile(srv: Server, cfg: Config, io: nat -> IO, data: Bytes, chunks: seq<ClientMsg>)
    requires Holds(srv.w, data) && srv.w.up.state.Receiving() && srv.pooled && !srv.w.up.bound
    requires OnlyChunks(cfg, chunks) && (srv.w.up.state.Init? || srv.w.up.fileSize == |data| + Size(chunks))
    requires forall j :: NoFault(io(j))
    ensures var request := [UploadReq(srv.w.up.id, |data| + Size(chunks)), Ack(true)];
            Delivered(Serve(srv, Conn(request + chunks, [], true, AwaitReq), cfg, io, 0),
                      srv.w.up, data + Payload(chunks),
                      [UploadConf(cfg.chunkKB, |data|, cfg.sendAhead)] + AcksFor(chunks))
  {
    var total := |data| + Size(chunks);
    var conn := Conn([UploadReq(srv.w.up.id, total), Ack(true)] + chunks, [], true, AwaitReq);
    var s1 := RequestServed(srv, conn, cfg, Env(io(0), true, false, false), chunks, total);
    var s2 := AckServed(s1.srv, s1.conn, cfg, Env(io(1), true, false, false), chunks);
    var r := ServeTwice(srv, conn, cfg, io, s1, s2);
    LoopStoresChunks(s2.srv, s2.conn, cfg, io, 2, data, r);
  }

  lemma ServeTwice(srv: Server, conn: Conn, cfg: Config, io: nat -> IO, s1: Step, s2: Step) returns (r: Step)
    requires conn.alive && !conn.phase.Done? && !conn.phase.AwaitHandover?
    requires s1 == ServerStep(srv, conn, cfg, Env(io(0), true, false, false))
    requires s1.conn.alive && s1.conn.phase.AwaitAck?
    requires s2 == ServerStep(s1.srv, s1.conn, cfg, Env(io(1), true, false, false)) && s2.conn.alive
    ensures r == Serve(srv, conn, cfg, io, 0) == Serve(s2.srv, s2.conn, cfg, io, 2)
  {
    r := Serve(s2.srv, s2.conn, cfg, io, 2);
    assert Serve(s1.srv, s1.conn, cfg, io, 1) == r;
  }
}
