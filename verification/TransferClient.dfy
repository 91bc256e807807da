/** The browser's events and the accidents of its sockets keep the invariant of TransferInv.dfy. */
module TransferClient {
  import opened Protocol
  import opened UploadSpec
  import opened Session
  import opened Transfer
  import opened TransferInv
  import opened TransferServer
  import Sender

  // ---------------------------------------------------------------- messages that go out

  lemma {:induction false} InFlightAppend(file: Bytes, filePos: nat, q: seq<ClientMsg>, m: ClientMsg)
    requires InFlight(file, filePos, q)
    requires m.Chunk? ==> filePos + Size(q) + |m.data| <= |file|
                          && m.data == file[filePos + Size(q)..filePos + Size(q) + |m.data|]
    ensures InFlight(file, filePos, q + [m])
    decreases |q|
  {
    if q == [] {
      assert q + [m] == [m] && [m][1..] == [];
    } else {
      assert (q + [m])[1..] == q[1..] + [m];
      InFlightAppend(file, filePos + (if q[0].Chunk? then |q[0].data| else 0), q[1..], m);
    }
  }

  lemma {:induction false} InFlightPrefix(file: Bytes, filePos: nat, q: seq<ClientMsg>, k: nat)
    requires InFlight(file, filePos, q) && k <= |q|
    ensures InFlight(file, filePos, q[..k])
    decreases |q|
  {
    if k > 0 {
      assert q[..k][1..] == q[1..][..k - 1];
      InFlightPrefix(file, filePos + (if q[0].Chunk? then |q[0].data| else 0), q[1..], k - 1);
    } else {
      InFlightFits(file, filePos, q);
    }
  }

  /** A text message from the browser fits wherever the connection stands, except that a cancel
      message needs bytes that are still unsent. */
  lemma TextFed(p: Params, srv: Server, conn: Conn, m: ClientMsg)
    requires ConnOK(p, srv, conn)
    requires m.Cancel? || m.Pause?
    requires conn.alive && m.Cancel?
             && (conn.phase.Receive? || (conn.phase.AwaitAck? && conn.c2s != [] && conn.c2s[0].Ack?))
             ==> srv.w.up.filePos + Size(conn.c2s) < |p.file|
    requires conn.alive && m.Cancel? ==> !conn.phase.AwaitHandover?
    ensures ConnOK(p, srv, Feed(conn, [m]))
    ensures conn.alive ==>
              Size(Feed(conn, [m]).c2s) == Size(conn.c2s) && Chunks(Feed(conn, [m]).c2s) == Chunks(conn.c2s)
  {
    QueueAppend(conn.c2s, m);
    var q := conn.c2s + [m];
    assert forall x :: x in q ==> x in conn.c2s || x == m;
    assert q[0] == if conn.c2s == [] then m else conn.c2s[0];
    if conn.phase.AwaitAck? || conn.phase.Receive? {
      InFlightAppend(p.file, srv.w.up.filePos, conn.c2s, m);
    }
  }

  lemma ChunkFed(p: Params, srv: Server, conn: Conn, data: Bytes)
    requires ConnOK(p, srv, conn) && 0 < |data| <= ChunkBytes(p)
    requires Cancel !in conn.c2s && !conn.phase.AwaitReq? && !conn.phase.AwaitHandover?
    requires conn.phase.AwaitAck? ==> conn.s2c == []
    requires conn.phase.AwaitAck? || conn.phase.Receive? ==>
               var at := srv.w.up.filePos + Size(conn.c2s);
               at + |data| <= |p.file| && data == p.file[at..at + |data|]
    ensures ConnOK(p, srv, conn.(c2s := conn.c2s + [Chunk(data)]))
  {
    var m := Chunk(data);
    QueueAppend(conn.c2s, m);
    var q := conn.c2s + [m];
    assert forall x :: x in q ==> x in conn.c2s || x == m;
    assert q[0] == if conn.c2s == [] then m else conn.c2s[0];
    if conn.phase.AwaitAck? || conn.phase.Receive? {
      InFlightAppend(p.file, srv.w.up.filePos, conn.c2s, m);
    }
  }

  lemma AckFed(p: Params, srv: Server, conn: Conn)
    requires ConnOK(p, srv, conn) && !conn.phase.AwaitReq?
    requires conn.phase.AwaitAck? ==> conn.s2c == []
    requires conn.phase.AwaitAck? ==> forall m :: m in conn.c2s ==> Quiet(p, m)
    ensures ConnOK(p, srv, conn.(c2s := conn.c2s + [Ack(true)]))
  {
    var m := Ack(true);
    QueueAppend(conn.c2s, m);
    var q := conn.c2s + [m];
    assert forall x :: x in q ==> x in conn.c2s || x == m;
    assert q[0] == if conn.c2s == [] then m else conn.c2s[0];
    assert conn.c2s != [] ==> conn.c2s[0] in conn.c2s;
    if conn.phase.AwaitAck? || conn.phase.Receive? {
      InFlightAppend(p.file, srv.w.up.filePos, conn.c2s, m);
    }
  }

  /** A connection that breaks keeps a part of what was under way. */
  lemma Broken(p: Params, srv: Server, conn: Conn, k: nat, m: nat)
    requires ConnOK(p, srv, conn) && k <= |conn.c2s| && m <= |conn.s2c|
    ensures ConnOK(p, srv, Conn(conn.c2s[..k], conn.s2c[..m], false, conn.phase))
  {
    var q := conn.c2s[..k];
    assert forall x :: x in q ==> x in conn.c2s;
    assert forall x :: x in conn.s2c[..m] ==> x in conn.s2c;
    QueuePrefix(conn.c2s, k);
    assert q != [] ==> q[0] == conn.c2s[0];
    assert conn.s2c[..m] == [] || (|conn.s2c| == 1 ==> conn.s2c[..m] == conn.s2c);
    if conn.phase.AwaitAck? || conn.phase.Receive? {
      InFlightPrefix(p.file, srv.w.up.filePos, conn.c2s, k);
    } else if conn.phase.AwaitHandover? {
      NoBytesNoChunks(p, q);
    }
  }

  lemma BrokenCur(p: Params, srv: Server, conn: Conn, c: Sender.Client, k: nat, m: nat)
    requires ConnOK(p, srv, conn) && CurOK(p, srv, conn, c) && k <= |conn.c2s| && m <= |conn.s2c|
    ensures CurOK(p, srv, Conn(conn.c2s[..k], conn.s2c[..m], false, conn.phase), c)
  {
    assert forall x :: x in conn.c2s[..k] ==> x in conn.c2s;
    assert forall x :: x in conn.s2c[..m] ==> x in conn.s2c;
    QueuePrefix(conn.c2s, k);
    ReplyPrefix(conn.s2c, m);
  }

  // ---------------------------------------------------------------- a turn of the browser

  /** The invariant without what it says of the browser. */
  predicate Others(p: Params, s: Sys) {
    && ServerOK(p, s.srv, IsFailing(s)) && HandedOK(p, s) && OwnerOK(s)
    && (forall i :: i in s.conns ==> ConnOK(p, s.srv, s.conns[i]))
    && (s.cur.Some? ==> s.cur.value in s.conns)
    && (forall i :: i in s.conns && s.cur != Some(i) ==> !s.conns[i].alive)
  }

  predicate ConnectingOK(c: Sender.Client) {
    c.ws.Connecting? ==>
      c.n.bytesAhead == 0 && c.n.chunksAhead == 0 && c.n.chunksTxNow == 0 && c.loading.None?
  }

  lemma TurnKeeps(p: Params, s: Sys, t: Sender.Turn)
    requires Others(p, s) && ClientOK(p, s.srv, t.c) && ConnectingOK(t.c)
    requires s.cur.None? ==> !t.c.ws.Open?
    requires s.cur.Some? ==>
               var conn := Feed(s.conns[s.cur.value], t.out);
               ConnOK(p, s.srv, conn) && (t.c.ws.Open? ==> CurOK(p, s.srv, conn, t.c))
    ensures Inv(p, ClientTurn(s, t))
  {
    TurnKeepsOthers(p, s, t);
    TurnKeepsConns(p, s, t);
    TurnKeepsCurrent(p, s, t);
  }

  lemma TurnKeepsOthers(p: Params, s: Sys, t: Sender.Turn)
    requires OwnerOK(s) && HandedOK(p, s)
    ensures var s' := ClientTurn(s, t);
            && s'.c == t.c && s'.srv == s.srv && HandedOK(p, s') && OwnerOK(s') && IsFailing(s') == IsFailing(s)
  {
  }

  lemma TurnKeepsConns(p: Params, s: Sys, t: Sender.Turn)
    requires forall i :: i in s.conns ==> ConnOK(p, s.srv, s.conns[i])
    requires s.cur.Some? ==> s.cur.value in s.conns && ConnOK(p, s.srv, Feed(s.conns[s.cur.value], t.out))
    ensures var s' := ClientTurn(s, t); forall i :: i in s'.conns ==> ConnOK(p, s.srv, s'.conns[i])
  {
  }

  lemma TurnKeepsCurrent(p: Params, s: Sys, t: Sender.Turn)
    requires (s.cur.Some? ==> s.cur.value in s.conns) && ConnectingOK(t.c)
    requires forall i :: i in s.conns && s.cur != Some(i) ==> !s.conns[i].alive
    requires s.cur.None? ==> !t.c.ws.Open?
    requires s.cur.Some? && t.c.ws.Open? ==> CurOK(p, s.srv, Feed(s.conns[s.cur.value], t.out), t.c)
    ensures CurrentOK(p, ClientTurn(s, t))
  {
  }

  lemma FeedNothing(conn: Conn)
    ensures Feed(conn, []) == conn
  {
    assert conn.c2s + [] == conn.c2s;
  }

  /** The connection after a cancel message, which is only sent while bytes are unsent. */
  lemma CancelConn(p: Params, srv: Server, conn: Conn, c: Sender.Client)
    requires ConnOK(p, srv, conn) && CurOK(p, srv, conn, c) && c.f.canCancel
    ensures ConnOK(p, srv, Feed(conn, [Cancel]))
  {
    assert conn.c2s != [] ==> conn.c2s[0] in conn.c2s;
    TextFed(p, srv, conn, Cancel);
  }

  lemma CancelCur(p: Params, srv: Server, conn: Conn, c: Sender.Client, c': Sender.Client)
    requires CurOK(p, srv, conn, c) && c.f.canCancel
    requires c'.conf == c.conf && c'.n == c.n && c'.onMessage == c.onMessage && c'.loading.None?
    requires c'.f.cancelling && !c'.f.canCancel
    ensures CurOK(p, srv, Feed(conn, [Cancel]), c')
  {
    QueueAppend(conn.c2s, Cancel);
    assert forall m :: m in conn.c2s + [Cancel] ==> m in conn.c2s || m == Cancel;
  }

  /** Cancelling, whoever asks for it. `c` may have dropped its pending load already. */
  lemma CancelFits(p: Params, srv: Server, conn: Conn, c: Sender.Client)
    requires ConnOK(p, srv, conn) && CurOK(p, srv, conn, c) && c.ws.Open? && ClientOK(p, srv, c)
    ensures var t := Sender.CancelUploader(c);
            && ConnOK(p, srv, Feed(conn, t.out)) && CurOK(p, srv, Feed(conn, t.out), t.c)
            && ClientOK(p, srv, t.c) && t.c.ws.Open?
  {
    FeedNothing(conn);
    if !c.f.cancelled && c.f.canCancel {
      CancelConn(p, srv, conn, c);
      CancelCur(p, srv, conn, c, Sender.CancelUploader(c).c);
    }
  }

  lemma CancelKeeps(p: Params, s: Sys, c: Sender.Client)
    requires Others(p, s) && ClientOK(p, s.srv, c) && ConnectingOK(c)
    requires c.ws.Open? <==> s.cur.Some?
    requires s.cur.Some? ==> CurOK(p, s.srv, s.conns[s.cur.value], c)
    ensures Inv(p, ClientTurn(s, Sender.CancelUploader(c)))
  {
    if s.cur.Some? {
      CancelFits(p, s.srv, s.conns[s.cur.value], c);
    }
    TurnKeeps(p, s, Sender.CancelUploader(c));
  }

  lemma LoadBreaks(p: Params, s: Sys)
    requires Inv(p, s) && s.c.loading.Some?
    ensures Inv(p, ClientTurn(s, Sender.OnLoadError(s.c)))
  {
    var c := s.c.(loading := None);
    if s.cur.Some? {
      FeedNothing(s.conns[s.cur.value]);
    }
    if s.c.f.cancelled {
      TurnKeeps(p, s, Sender.OnLoadError(s.c));
    } else {
      CancelKeeps(p, s, c);
    }
  }

  lemma PauseKeeps(p: Params, s: Sys)
    requires Inv(p, s)
    ensures Inv(p, ClientTurn(s, Sender.PauseUploader(s.c)))
  {
    var t := Sender.PauseUploader(s.c);
    if s.cur.Some? {
      FeedNothing(s.conns[s.cur.value]);
      TextFed(p, s.srv, s.conns[s.cur.value], Pause);
    }
    TurnKeeps(p, s, t);
  }

  // ---------------------------------------------------------------- loading and sending

  lemma MinStep(total: nat, base: nat, n: nat, size: nat, tx: nat)
    requires tx == Min(total, base + n * size) && tx < total
    ensures Min(tx + size, total) == Min(total, base + (n + 1) * size)
  {
    assert (n + 1) * size == n * size + size;
  }

  lemma TryLoadFits(p: Params, srv: Server, conn: Conn, c: Sender.Client)
    requires c.onMessage.RecvChunkAcks? && c.loading.None? && CurOK(p, srv, conn, c)
    ensures CurOK(p, srv, conn, Sender.TryLoad(c, |p.file|))
  {
  }

  /** The slice being loaded: the client's next bytes, and never empty. */
  lemma SliceFacts(p: Params, c: Sender.Client)
    requires Sane(p) && LoadOK(p, c) && c.loading.Some?
    ensures var buf := Sender.SliceOf(p.file, c.loading.value);
            && 0 < |buf| <= ChunkBytes(p) && c.n.bytesTx + |buf| <= |p.file|
            && buf == p.file[c.n.bytesTx..c.n.bytesTx + |buf|]
            && |buf| == Min(c.n.bytesTx + ChunkBytes(p), |p.file|) - c.n.bytesTx
  {
  }

  lemma SentCounters(p: Params, c: Sender.Client, size: nat)
    requires Sane(p) && CountersOK(p, c) && LoadOK(p, c) && c.loading.Some?
    requires size == Min(c.n.bytesTx + ChunkBytes(p), |p.file|) - c.n.bytesTx
    ensures var c1 := c.(loading := None, n := Sender.CountSent(c.n, size));
            CountersOK(p, if c1.n.bytesTx == |p.file| then c1.(f := c.f.(canCancel := false)) else c1)
  {
    MinStep(|p.file|, c.conf.value.filePos, c.n.chunksTxNow, ChunkBytes(p), c.n.bytesTx);
  }

  lemma SentCur(p: Params, srv: Server, conn: Conn, c: Sender.Client, c2: Sender.Client, buf: Bytes)
    requires CurOK(p, srv, conn, c) && c.onMessage.RecvChunkAcks?
    requires CountersOK(p, c2) && c2.loading.None? && c2.onMessage == c.onMessage && c2.f.cancelling == c.f.cancelling
    requires c2.n == Sender.CountSent(c.n, |buf|) && c2.n.bytesTx <= |p.file|
    requires conn.alive ==> Cancel !in conn.c2s
    ensures CurOK(p, srv, Feed(conn, [Chunk(buf)]), c2)
  {
    QueueAppend(conn.c2s, Chunk(buf));
    assert Cancel in conn.c2s + [Chunk(buf)] ==> Cancel in conn.c2s;
  }

  lemma SentConn(p: Params, srv: Server, conn: Conn, c: Sender.Client, buf: Bytes)
    requires ConnOK(p, srv, conn) && CurOK(p, srv, conn, c) && c.onMessage.RecvChunkAcks? && !c.f.cancelling
    requires 0 < |buf| <= ChunkBytes(p) && c.n.bytesTx + |buf| <= |p.file|
    requires buf == p.file[c.n.bytesTx..c.n.bytesTx + |buf|]
    ensures ConnOK(p, srv, Feed(conn, [Chunk(buf)]))
  {
    if conn.alive {
      ChunkFed(p, srv, conn, buf);
    }
  }

  /** The loaded slice is sent. */
  lemma SendFits(p: Params, srv: Server, conn: Conn, c: Sender.Client)
    requires Sane(p) && ConnOK(p, srv, conn) && CurOK(p, srv, conn, c) && ClientOK(p, srv, c)
    requires c.ws.Open? && c.loading.Some?
    ensures var t := Sender.OnLoad(c, p.file);
            ConnOK(p, srv, Feed(conn, t.out)) && CurOK(p, srv, Feed(conn, t.out), t.c)
  {
    FeedNothing(conn);
    if !c.f.cancelling && !c.f.cancelled && !c.f.paused {
      var buf := Sender.SliceOf(p.file, c.loading.value);
      SliceFacts(p, c);
      SentCounters(p, c, |buf|);
      SentConn(p, srv, conn, c, buf);
      var c1 := c.(loading := None, n := Sender.CountSent(c.n, |buf|));
      var c2 := if c1.n.bytesTx == |p.file| then c1.(f := c.f.(canCancel := false)) else c1;
      SentThenLoading(p, srv, conn, c, c2, buf);
      assert Sender.OnLoad(c, p.file) == Sender.Turn(Sender.TryLoad(c2, |p.file|), [Chunk(buf)]);
    }
  }

  lemma SentThenLoading(p: Params, srv: Server, conn: Conn, c: Sender.Client, c2: Sender.Client, buf: Bytes)
    requires CurOK(p, srv, conn, c) && c.onMessage.RecvChunkAcks?
    requires CountersOK(p, c2) && c2.loading.None? && c2.onMessage == c.onMessage && c2.f.cancelling == c.f.cancelling
    requires c2.n == Sender.CountSent(c.n, |buf|) && c2.n.bytesTx <= |p.file|
    requires conn.alive ==> Cancel !in conn.c2s
    ensures CurOK(p, srv, Feed(conn, [Chunk(buf)]), Sender.TryLoad(c2, |p.file|))
  {
    SentCur(p, srv, conn, c, c2, buf);
    TryLoadFits(p, srv, Feed(conn, [Chunk(buf)]), c2);
  }

  lemma LoadKeeps(p: Params, s: Sys)
    requires Sane(p) && Inv(p, s) && s.c.loading.Some? && s.c.conf.Some?
    ensures Inv(p, ClientTurn(s, Sender.OnLoad(s.c, p.file)))
  {
    if s.cur.Some? {
      SendFits(p, s.srv, s.conns[s.cur.value], s.c);
    }
    TurnKeeps(p, s, Sender.OnLoad(s.c, p.file));
  }

  // ---------------------------------------------------------------- messages that come in

  /** The connection once its next message has been taken. */
  function Taken(conn: Conn): Conn
    requires conn.s2c != []
  {
    conn.(s2c := conn.s2c[1..])
  }

  lemma TakenConn(p: Params, srv: Server, conn: Conn)
    requires ConnOK(p, srv, conn) && conn.s2c != []
    ensures ConnOK(p, srv, Taken(conn)) && GoodReply(p, srv, conn.s2c[0])
    ensures AckedBytes(conn.s2c) == (if conn.s2c[0].ChunkAck? then conn.s2c[0].size else 0) + AckedBytes(conn.s2c[1..])
    ensures Acks(conn.s2c) == (if conn.s2c[0].ChunkAck? then 1 else 0) + Acks(conn.s2c[1..])
    ensures conn.s2c[0] in conn.s2c && forall m :: m in conn.s2c[1..] ==> m in conn.s2c
  {
  }

  /** The upload config is answered by an ack. */
  lemma ConfigConn(p: Params, srv: Server, conn: Conn, c: Sender.Client)
    requires ConnOK(p, srv, conn) && CurOK(p, srv, conn, c)
    requires c.onMessage.RecvConfig? && conn.s2c != [] && conn.s2c[0].UploadConf?
    ensures ConnOK(p, srv, Feed(Taken(conn), [Ack(true)]))
  {
    TakenConn(p, srv, conn);
    AckFed(p, srv, Taken(conn));
  }

  lemma ConfigCur(p: Params, srv: Server, conn: Conn, c: Sender.Client, c1: Sender.Client)
    requires Sane(p) && ConnOK(p, srv, conn) && CurOK(p, srv, conn, c) && srv.w.up.filePos <= |p.file|
    requires c.onMessage.RecvConfig? && conn.s2c != [] && conn.s2c[0].UploadConf?
    requires var m := conn.s2c[0];
             c1 == c.(conf := Some(Sender.Conf(m.chunkKB, m.filePos, m.sendAhead)),
                      onMessage := if m.filePos == |p.file| then Sender.RecvFinal else Sender.RecvChunkAcks,
                      n := c.n.(bytesAcked := m.filePos, bytesTx := m.filePos),
                      f := if m.filePos == |p.file| then c.f.(canCancel := false) else c.f)
    ensures CurOK(p, srv, Feed(Taken(conn), [Ack(true)]), c1)
  {
    TakenConn(p, srv, conn);
    QueueAppend(conn.c2s, Ack(true));
    QuietCarriesNothing(p.file, 0, conn.c2s);
    NoAcks(conn.s2c[1..]);
    assert Cancel in conn.c2s + [Ack(true)] ==> Cancel in conn.c2s;
  }

  lemma ConfigFits(p: Params, srv: Server, conn: Conn, c: Sender.Client)
    requires Sane(p) && ConnOK(p, srv, conn) && CurOK(p, srv, conn, c) && ClientOK(p, srv, c) && c.ws.Open?
    requires c.onMessage.RecvConfig? && conn.s2c != [] && conn.s2c[0].UploadConf?
    requires srv.w.up.filePos <= |p.file|
    ensures var t := Sender.ReceiveConfig(c, conn.s2c[0], |p.file|);
            && t.out == [Ack(true)] && CurOK(p, srv, Feed(Taken(conn), t.out), t.c)
            && ClientOK(p, srv, t.c) && t.c.ws.Open?
  {
    var m := conn.s2c[0];
    TakenConn(p, srv, conn);
    var c1 := c.(conf := Some(Sender.Conf(m.chunkKB, m.filePos, m.sendAhead)),
                 onMessage := if m.filePos == |p.file| then Sender.RecvFinal else Sender.RecvChunkAcks,
                 n := c.n.(bytesAcked := m.filePos, bytesTx := m.filePos),
                 f := if m.filePos == |p.file| then c.f.(canCancel := false) else c.f);
    ConfigCur(p, srv, conn, c, c1);
    if m.filePos != |p.file| {
      TryLoadFits(p, srv, Feed(Taken(conn), [Ack(true)]), c1);
    }
  }

  lemma ChunkAckFits(p: Params, srv: Server, conn: Conn, c: Sender.Client)
    requires Sane(p) && ConnOK(p, srv, conn) && CurOK(p, srv, conn, c) && ClientOK(p, srv, c)
    requires c.onMessage.RecvChunkAcks? && conn.s2c != [] && conn.s2c[0].ChunkAck? && srv.w.up.filePos <= |p.file|
    ensures var t := Sender.ReceiveChunkAck(c, conn.s2c[0], |p.file|);
            t.out == [] && CurOK(p, srv, Taken(conn), t.c) && ClientOK(p, srv, t.c)
  {
    TakenConn(p, srv, conn);
    var c0 := c.(n := Sender.CountAcked(c.n, conn.s2c[0].size));
    if c0.n.bytesAcked != |p.file| {
      assert CurOK(p, srv, Taken(conn), c0);
      if c0.loading.None? {
        TryLoadFits(p, srv, Taken(conn), c0);
      }
    }
  }

  /** A message that changes no counter leaves the current connection in order. */
  lemma IgnoredFits(p: Params, srv: Server, conn: Conn, c: Sender.Client)
    requires ConnOK(p, srv, conn) && CurOK(p, srv, conn, c) && conn.s2c != []
    requires c.onMessage.RecvConfig? ==> !conn.s2c[0].UploadConf?
    requires c.onMessage.RecvChunkAcks? ==> !conn.s2c[0].ChunkAck?
    ensures CurOK(p, srv, Taken(conn), c)
  {
    TakenConn(p, srv, conn);
  }

  lemma ErrorFits(p: Params, srv: Server, conn: Conn, c: Sender.Client)
    requires ConnOK(p, srv, conn) && CurOK(p, srv, conn, c) && ClientOK(p, srv, c) && c.ws.Open?
    requires conn.s2c != [] && conn.s2c[0].ServerError?
    ensures var t := Sender.FailUploader(c);
            && ConnOK(p, srv, Feed(Taken(conn), t.out)) && CurOK(p, srv, Feed(Taken(conn), t.out), t.c)
            && ClientOK(p, srv, t.c) && t.c.ws.Open?
  {
    TakenConn(p, srv, conn);
    IgnoredFits(p, srv, conn, c);
    CancelFits(p, srv, Taken(conn), c.(f := c.f.(failed := true)));
  }

  predicate TurnFits(p: Params, srv: Server, conn: Conn, t: Sender.Turn) {
    && ConnOK(p, srv, Feed(conn, t.out)) && ClientOK(p, srv, t.c) && !t.c.ws.Connecting?
    && (t.c.ws.Open? ==> CurOK(p, srv, Feed(conn, t.out), t.c))
  }

  lemma ReceiveFits(p: Params, srv: Server, conn: Conn, c: Sender.Client)
    requires Sane(p) && ConnOK(p, srv, conn) && CurOK(p, srv, conn, c) && ClientOK(p, srv, c) && c.ws.Open?
    requires conn.s2c != [] && srv.w.up.filePos <= |p.file|
    ensures TurnFits(p, srv, Taken(conn), Sender.Receive(c, conn.s2c[0], |p.file|))
  {
    var m := conn.s2c[0];
    TakenConn(p, srv, conn);
    FeedNothing(Taken(conn));
    if c.awaitingCancelAck && m.CancelAck? {
    } else if c.onMessage.RecvConfig? && m.UploadConf? {
      ConfigConn(p, srv, conn, c);
      ConfigFits(p, srv, conn, c);
    } else if c.onMessage.RecvChunkAcks? && m.ChunkAck? {
      ChunkAckFits(p, srv, conn, c);
    } else if m.ServerError? && !c.onMessage.RecvFinal? {
      ErrorFits(p, srv, conn, c);
    } else {
      IgnoredFits(p, srv, conn, c);
    }
  }

  lemma DeliverKeeps(p: Params, s: Sys)
    requires Sane(p) && Inv(p, s) && Enabled(s, Delivers)
    ensures Inv(p, Apply(p, s, Delivers))
  {
    var i := s.cur.value;
    var conn := s.conns[i];
    ReceiveFits(p, s.srv, conn, s.c);
    var s1 := s.(conns := s.conns[i := Taken(conn)]);
    TakenConn(p, s.srv, conn);
    assert Others(p, s1);
    TurnKeeps(p, s1, Sender.Receive(s.c, conn.s2c[0], |p.file|));
  }
}
