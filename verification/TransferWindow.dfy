/** What is acknowledged, and so what is ahead, follows from the number of acks: an invariant on top of
    TransferInv.dfy that does not end with the working connection. */
module TransferWindow {
  import opened Protocol
  import opened UploadSpec
  import opened Session
  import opened Transfer
  import opened TransferInv
  import opened TransferServer
  import TransferServerInv
  import TransferClient
  import Sender

  /** The length of the slice of the client's file that starts at a position. */
  function SliceLength(p: Params, at: nat): int {
    Min(at + ChunkBytes(p), |p.file|) - at
  }

  /** The chunks of a queue are successive slices. */
  predicate ChunkSlices(p: Params, at: nat, q: seq<ClientMsg>)
    decreases |q|
  {
    if q == [] then true
    else if q[0].Chunk? then |q[0].data| == SliceLength(p, at) && ChunkSlices(p, at + |q[0].data|, q[1..])
    else ChunkSlices(p, at, q[1..])
  }

  /** The acks of a queue acknowledge successive slices. */
  predicate AckSlices(p: Params, at: nat, q: seq<ServerMsg>)
    decreases |q|
  {
    if q == [] then true
    else if q[0].ChunkAck? then q[0].size == SliceLength(p, at) && AckSlices(p, at + q[0].size, q[1..])
    else AckSlices(p, at, q[1..])
  }

  lemma {:induction false} ChunkSlicesAppend(p: Params, at: nat, q: seq<ClientMsg>, m: ClientMsg)
    requires ChunkSlices(p, at, q) && (m.Chunk? ==> |m.data| == SliceLength(p, at + Size(q)))
    ensures ChunkSlices(p, at, q + [m])
    decreases |q|
  {
    if q == [] {
      assert q + [m] == [m] && [m][1..] == [];
    } else {
      assert (q + [m])[1..] == q[1..] + [m];
      ChunkSlicesAppend(p, at + (if q[0].Chunk? then |q[0].data| else 0), q[1..], m);
    }
  }

  lemma {:induction false} AckSlicesAppend(p: Params, at: nat, q: seq<ServerMsg>, m: ServerMsg)
    requires AckSlices(p, at, q) && (m.ChunkAck? ==> m.size == SliceLength(p, at + AckedBytes(q)))
    ensures AckSlices(p, at, q + [m])
    decreases |q|
  {
    if q == [] {
      assert q + [m] == [m] && [m][1..] == [];
    } else {
      assert (q + [m])[1..] == q[1..] + [m];
      AckSlicesAppend(p, at + (if q[0].ChunkAck? then q[0].size else 0), q[1..], m);
    }
  }

  lemma {:induction false} AckSlicesPrefix(p: Params, at: nat, q: seq<ServerMsg>, k: nat)
    requires AckSlices(p, at, q) && k <= |q|
    ensures AckSlices(p, at, q[..k]) && Acks(q[..k]) <= Acks(q)
    decreases |q|
  {
    if k > 0 {
      assert q[..k][1..] == q[1..][..k - 1];
      AckSlicesPrefix(p, at + (if q[0].ChunkAck? then q[0].size else 0), q[1..], k - 1);
    }
  }

  lemma {:induction false} QuietSlices(p: Params, at: nat, q: seq<ClientMsg>)
    requires forall m :: m in q ==> !m.Chunk?
    ensures ChunkSlices(p, at, q)
    decreases |q|
  {
    if q != [] {
      assert q[0] in q && forall m :: m in q[1..] ==> m in q;
      QuietSlices(p, at, q[1..]);
    }
  }

  // ---------------------------------------------------------------- the invariant

  /** The counters, given the acks that are still to be processed. */
  predicate CountOK(p: Params, c: Sender.Client, acks: seq<ServerMsg>) {
    && c.conf.Some?
    && Acks(acks) <= c.n.chunksAhead <= c.n.chunksTxNow
    && c.n.bytesAcked == Min(|p.file|, c.conf.value.filePos + (c.n.chunksTxNow - c.n.chunksAhead) * ChunkBytes(p))
    && AckSlices(p, c.n.bytesAcked, acks)
    && LastChunkNeeded(p, c)
  }

  /** Before the last chunk was sent, something was left to send. */
  predicate LastChunkNeeded(p: Params, c: Sender.Client)
    requires c.conf.Some?
  {
    && c.conf.value.filePos <= |p.file|
    && (c.n.chunksTxNow > 0 ==> c.conf.value.filePos + (c.n.chunksTxNow - 1) * ChunkBytes(p) < |p.file|)
  }

  predicate WindowOK(p: Params, filePos: nat, conn: Conn, c: Sender.Client) {
    CountOK(p, c, conn.s2c) && (Transferring(conn) ==> ChunkSlices(p, filePos, conn.c2s))
  }

  predicate Windowed(p: Params, s: Sys) {
    s.c.ws.Open? && s.c.onMessage.RecvChunkAcks? && s.cur.Some? && s.cur.value in s.conns ==>
      WindowOK(p, s.srv.w.up.filePos, s.conns[s.cur.value], s.c)
  }

  // ---------------------------------------------------------------- the browser's turns

  /** Sending a text message, or nothing, changes nothing here. */
  lemma TextKeepsWindow(p: Params, filePos: nat, conn: Conn, c: Sender.Client, c': Sender.Client, out: seq<ClientMsg>)
    requires WindowOK(p, filePos, conn, c) && c'.n == c.n && c'.conf == c.conf
    requires out == [] || (|out| == 1 && !out[0].Chunk?)
    ensures WindowOK(p, filePos, Feed(conn, out), c')
  {
    if out == [] {
      TransferClient.FeedNothing(conn);
    } else if conn.alive {
      assert out == [out[0]];
      if Transferring(conn) {
        ChunkSlicesAppend(p, filePos, conn.c2s, out[0]);
      }
    }
  }

  /** Sending the next slice leaves what is acknowledged where it was. */
  lemma ChunkKeepsWindow(p: Params, filePos: nat, conn: Conn, c: Sender.Client, c': Sender.Client, buf: Bytes)
    requires WindowOK(p, filePos, conn, c) && c'.conf == c.conf && c'.n == Sender.CountSent(c.n, |buf|)
    requires c.n.bytesTx < |p.file| && c.conf.Some?
    requires c.n.bytesTx == Min(|p.file|, c.conf.value.filePos + c.n.chunksTxNow * ChunkBytes(p))
    requires |buf| == SliceLength(p, c.n.bytesTx) && (Transferring(conn) ==> c.n.bytesTx == filePos + Size(conn.c2s))
    ensures WindowOK(p, filePos, Feed(conn, [Chunk(buf)]), c')
  {
    if Transferring(conn) {
      ChunkSlicesAppend(p, filePos, conn.c2s, Chunk(buf));
    }
  }

  lemma LoadKeepsWindow(p: Params, s: Sys)
    requires Sane(p) && Inv(p, s) && Windowed(p, s) && s.c.loading.Some? && s.c.conf.Some?
    ensures Windowed(p, ClientTurn(s, Sender.OnLoad(s.c, p.file)))
  {
    if s.cur.Some? && s.c.onMessage.RecvChunkAcks? {
      var conn, filePos := s.conns[s.cur.value], s.srv.w.up.filePos;
      var t := Sender.OnLoad(s.c, p.file);
      if t.out == [] {
        TextKeepsWindow(p, filePos, conn, s.c, t.c, []);
      } else {
        TransferClient.SliceFacts(p, s.c);
        ChunkKeepsWindow(p, filePos, conn, s.c, t.c, Sender.SliceOf(p.file, s.c.loading.value));
      }
    }
  }

  lemma CancelKeepsWindow(p: Params, s: Sys, c: Sender.Client)
    requires Inv(p, s) && Windowed(p, s)
    requires c.n == s.c.n && c.conf == s.c.conf && c.onMessage == s.c.onMessage && c.ws == s.c.ws
    ensures Windowed(p, ClientTurn(s, Sender.CancelUploader(c)))
  {
    if s.cur.Some? && s.c.onMessage.RecvChunkAcks? {
      var t := Sender.CancelUploader(c);
      TextKeepsWindow(p, s.srv.w.up.filePos, s.conns[s.cur.value], s.c, t.c, t.out);
    }
  }

  // ---------------------------------------------------------------- messages that come in

  lemma AckKeepsCount(p: Params, c: Sender.Client, c': Sender.Client, acks: seq<ServerMsg>)
    requires CountOK(p, c, acks) && acks != [] && c.n.bytesAcked < |p.file|
    requires c'.conf == c.conf && c'.n == if acks[0].ChunkAck? then Sender.CountAcked(c.n, acks[0].size) else c.n
    ensures CountOK(p, c', acks[1..])
  {
    if acks[0].ChunkAck? {
      TransferClient.MinStep(|p.file|, c.conf.value.filePos, c.n.chunksTxNow - c.n.chunksAhead, ChunkBytes(p),
                             c.n.bytesAcked);
    }
  }

  lemma ReceivedCount(p: Params, c: Sender.Client, m: ServerMsg)
    requires c.onMessage.RecvChunkAcks? && c.conf.Some? && !m.ServerCancel?
    ensures var t := Sender.Receive(c, m, |p.file|);
            && t.c.conf == c.conf && t.c.n == (if m.ChunkAck? then Sender.CountAcked(c.n, m.size) else c.n)
            && (t.out == [] || t.out == [Cancel])
  {
  }

  lemma ConfigCounts(p: Params, srv: Server, conn: Conn, c: Sender.Client)
    requires ConnOK(p, srv, conn) && CurOK(p, srv, conn, c) && c.onMessage.RecvConfig? && srv.w.up.filePos <= |p.file|
    requires conn.s2c != [] && conn.s2c[0].UploadConf?
    ensures WindowOK(p, srv.w.up.filePos, Feed(TransferClient.Taken(conn), [Ack(true)]),
                     Sender.ReceiveConfig(c, conn.s2c[0], |p.file|).c)
  {
    var m := conn.s2c[0];
    TransferClient.TakenConn(p, srv, conn);
    NoAcks(conn.s2c[1..]);
    NoAckSlices(p, m.filePos, conn.s2c[1..]);
    QuietSlices(p, srv.w.up.filePos, conn.c2s + [Ack(true)]);
  }

  lemma {:induction false} NoAckSlices(p: Params, at: nat, q: seq<ServerMsg>)
    requires forall m :: m in q ==> !m.ChunkAck?
    ensures AckSlices(p, at, q)
    decreases |q|
  {
    if q != [] {
      assert q[0] in q && forall m :: m in q[1..] ==> m in q;
      NoAckSlices(p, at, q[1..]);
    }
  }

  lemma DeliveryKeepsWindow(p: Params, s: Sys)
    requires Sane(p) && Inv(p, s) && Windowed(p, s) && Enabled(s, Delivers)
    ensures Windowed(p, Apply(p, s, Delivers))
  {
    var conn := s.conns[s.cur.value];
    var t := Sender.Receive(s.c, conn.s2c[0], |p.file|);
    TransferClient.TakenConn(p, s.srv, conn);
    if t.c.ws.Open? && t.c.onMessage.RecvChunkAcks? {
      ReceivedWindow(p, s.srv, conn, s.c);
    }
  }

  lemma ReceivedWindow(p: Params, srv: Server, conn: Conn, c: Sender.Client)
    requires ConnOK(p, srv, conn) && CurOK(p, srv, conn, c) && srv.w.up.filePos <= |p.file| && conn.s2c != []
    requires c.onMessage.RecvChunkAcks? ==> WindowOK(p, srv.w.up.filePos, conn, c)
    requires Sender.Receive(c, conn.s2c[0], |p.file|).c.onMessage.RecvChunkAcks?
    requires Sender.Receive(c, conn.s2c[0], |p.file|).c.ws.Open?
    ensures var t := Sender.Receive(c, conn.s2c[0], |p.file|);
            WindowOK(p, srv.w.up.filePos, Feed(TransferClient.Taken(conn), t.out), t.c)
  {
    var t := Sender.Receive(c, conn.s2c[0], |p.file|);
    TransferClient.TakenConn(p, srv, conn);
    if c.onMessage.RecvChunkAcks? {
      ReceivedCount(p, c, conn.s2c[0]);
      AckKeepsCount(p, c, t.c, conn.s2c);
      TextKeepsWindow(p, srv.w.up.filePos, TransferClient.Taken(conn), t.c, t.c, t.out);
    } else {
      ConfigCounts(p, srv, conn, c);
    }
  }

  // ---------------------------------------------------------------- the server's steps

  /** What a step of a session's handler does to the queues, as far as slices are concerned: it stops
      transferring, or it takes a chunk and acknowledges it, or it takes at most a text message. */
  ghost predicate QueueStep(srv: Server, conn: Conn, st: Step) {
    || (!Transferring(st.conn)
        && (st.conn.s2c == conn.s2c || exists m: ServerMsg :: !m.ChunkAck? && st.conn.s2c == conn.s2c + [m]))
    || (Transferring(conn) && st.conn.s2c == conn.s2c && st.srv.w.up.filePos == srv.w.up.filePos
        && (st.conn.c2s == conn.c2s || (conn.c2s != [] && !conn.c2s[0].Chunk? && st.conn.c2s == conn.c2s[1..])))
    || (Transferring(conn) && conn.c2s != [] && conn.c2s[0].Chunk? && st.conn.c2s == conn.c2s[1..]
        && st.conn.s2c == conn.s2c + [ChunkAck(|conn.c2s[0].data|)]
        && st.srv.w.up.filePos == srv.w.up.filePos + |conn.c2s[0].data|)
  }

  lemma StepQueues(p: Params, srv: Server, conn: Conn, env: Env)
    requires ServerOK(p, srv, conn.phase.Failing?) && ConnOK(p, srv, conn) && !conn.phase.AwaitReq? && !conn.phase.Done?
    ensures QueueStep(srv, conn, ServerStep(srv, conn, p.cfg, env))
  {
    match conn.phase
    case Receive => ReceiveQueues(p, srv, conn, env);
    case AwaitHandover =>
      if conn.c2s != [] {
        PopFacts(p, conn.c2s);
      }
    case _ =>
  }

  lemma ReceiveQueues(p: Params, srv: Server, conn: Conn, env: Env)
    requires ServerOK(p, srv, false) && ConnOK(p, srv, conn) && conn.phase.Receive?
    ensures QueueStep(srv, conn, OnReceive(srv, conn, p.cfg, env))
  {
    if srv.w.up.filePos != srv.w.up.fileSize && conn.c2s != [] && conn.c2s[0].Chunk? {
      PopFacts(p, conn.c2s);
      InFlightFits(p.file, srv.w.up.filePos, conn.c2s);
      StoreKeeps(p, srv, conn.c2s[0].data, env.io);
    }
  }

  lemma QueueStepKeepsWindow(p: Params, srv: Server, conn: Conn, st: Step, c: Sender.Client)
    requires WindowOK(p, srv.w.up.filePos, conn, c) && QueueStep(srv, conn, st)
    requires Transferring(conn) ==> Conserved(srv.w.up.filePos, conn, c.n)
    ensures WindowOK(p, st.srv.w.up.filePos, st.conn, c)
  {
    if st.conn.s2c != conn.s2c {
      var m := st.conn.s2c[|conn.s2c|];
      assert st.conn.s2c == conn.s2c + [m];
      ReplyAppend(conn.s2c, m);
      AckSlicesAppend(p, c.n.bytesAcked, conn.s2c, m);
      if m.ChunkAck? {
        assert Chunks(conn.c2s) >= 1;
      }
    }
  }

  lemma ServerKeepsWindow(p: Params, s: Sys, i: nat, env: Env)
    requires Inv(p, s) && Windowed(p, s) && i in s.conns
    ensures Windowed(p, ServerTurn(s, i, ServerStep(s.srv, s.conns[i], p.cfg, env)))
  {
    var st := ServerStep(s.srv, s.conns[i], p.cfg, env);
    if s.cur.Some? && s.c.onMessage.RecvChunkAcks? {
      var conn := s.conns[s.cur.value];
      if s.cur == Some(i) {
        if !conn.phase.Done? {
          StepQueues(p, s.srv, conn, env);
          QueueStepKeepsWindow(p, s.srv, conn, st, s.c);
        }
      } else if Transferring(conn) {
        TransferServerInv.ServedKeeps(p, s.srv, s.conns[i], env, IsFailing(s));
        assert st.srv == s.srv;
      }
    }
  }

  // ---------------------------------------------------------------- every step

  lemma BreakKeepsWindow(p: Params, s: Sys, i: nat, k: nat, m: nat)
    requires Inv(p, s) && Windowed(p, s) && Enabled(s, Breaks(i, k, m))
    ensures Windowed(p, Apply(p, s, Breaks(i, k, m)))
  {
    if s.cur == Some(i) && s.c.onMessage.RecvChunkAcks? {
      AckSlicesPrefix(p, s.c.n.bytesAcked, s.conns[i].s2c, m);
    }
  }

  lemma RestKeepsWindow(p: Params, s: Sys, e: Event)
    requires Inv(p, s) && Windowed(p, s) && Enabled(s, e)
    requires e.Starts? || e.Opens? || e.SocketCloses? || e.HandoverEnds? || e.BackendCancels? || e.TimesOut?
    ensures Windowed(p, Apply(p, s, e))
  {
  }

  lemma PauseKeepsWindow(p: Params, s: Sys)
    requires Inv(p, s) && Windowed(p, s)
    ensures Windowed(p, Apply(p, s, UserPauses))
  {
    if s.cur.Some? {
      TransferClient.FeedNothing(s.conns[s.cur.value]);
    }
  }

  lemma StepKeepsWindow(p: Params, s: Sys, e: Event)
    requires Sane(p) && Inv(p, s) && Windowed(p, s) && Enabled(s, e)
    ensures Windowed(p, Apply(p, s, e))
  {
    match e
    case LoadDone => LoadKeepsWindow(p, s);
    case LoadBroke => BrokenLoadKeepsWindow(p, s);
    case Delivers => DeliveryKeepsWindow(p, s);
    case UserCancels => CancelKeepsWindow(p, s, s.c);
    case UserPauses => PauseKeepsWindow(p, s);
    case ServerSteps(i, env) => ServerKeepsWindow(p, s, i, env);
    case Breaks(i, k, m) => BreakKeepsWindow(p, s, i, k, m);
    case _ => RestKeepsWindow(p, s, e);
  }

  lemma BrokenLoadKeepsWindow(p: Params, s: Sys)
    requires Inv(p, s) && Windowed(p, s) && s.c.loading.Some?
    ensures Windowed(p, ClientTurn(s, Sender.OnLoadError(s.c)))
  {
    if s.c.f.cancelled {
      if s.cur.Some? {
        TransferClient.FeedNothing(s.conns[s.cur.value]);
      }
    } else {
      CancelKeepsWindow(p, s, s.c.(loading := None));
    }
  }

  // ---------------------------------------------------------------- the bound

  lemma Ahead(total: nat, base: nat, sent: nat, ahead: nat, size: nat)
    requires ahead <= sent
    ensures Min(total, base + sent * size) - Min(total, base + (sent - ahead) * size) <= ahead * size
  {
    assert sent * size == (sent - ahead) * size + ahead * size;
  }
}
