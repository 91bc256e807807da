/** An undisturbed session completes: it is never stuck, every step brings it nearer to the end by
    one, and so the number of its steps and of its chunks is known in advance. */
module Progress {
  import opened Protocol
  import opened UploadSpec
  import opened Session
  import opened SessionEffects
  import opened Transfer
  import opened TransferInv
  import opened TransferServer
  import opened TransferEager
  import opened TransferWindow
  import opened TransferHandshake
  import opened TransferDelivery
  import opened TransferRetry
  import opened TransferSafety
  import Client = TransferClient
  import Sender

  /** How many chunks of at most `size` bytes carry `n` bytes. */
  function ChunksFor(n: nat, size: nat): nat
    requires size >= 1
  {
    if n == 0 then 0 else 1 + ChunksFor(n - Min(n, size), size)
  }

  /** That is n / size, rounded up. */
  lemma {:induction false} ChunksForIsCeiling(n: nat, size: nat)
    requires size >= 1
    ensures var k := ChunksFor(n, size); (k - 1) * size < n <= k * size || n == k == 0
  {
    if n > size {
      ChunksForIsCeiling(n - size, size);
      var k := ChunksFor(n - size, size);
      assert (k + 1 - 1) * size == (k - 1) * size + size && (k + 1) * size == k * size + size;
    } else if n > 0 {
      assert ChunksFor(n - n, size) == 0;
    }
  }

  /** The session's handler has the browser's ack in front of it, or has read it; otherwise only
      chunks are unread. */
  predicate Streaming(conn: Conn) {
    && conn.alive
    && ((conn.phase.Receive? && forall m :: m in conn.c2s ==> m.Chunk?)
        || (conn.phase.AwaitAck? && conn.s2c == [] && conn.c2s != [] && conn.c2s[0] == Ack(true)
            && forall m :: m in conn.c2s[1..] ==> m.Chunk?))
  }

  /** Neither side wants to stop. */
  predicate Flowing(p: Params, s: Sys) {
    && Inv(p, s) && Eager(p, s.c)
    && s.cur.Some? && s.cur.value in s.conns && Streaming(s.conns[s.cur.value])
    && s.c.onMessage.RecvChunkAcks?
    && s.srv.w.up.state.Receiving()
    && Active(s.c) && !s.c.awaitingCancelAck
  }

  /** All bytes are stored and acknowledged, and nothing is under way. */
  predicate Transferred(p: Params, s: Sys) {
    && Inv(p, s)
    && s.cur.Some? && s.cur.value in s.conns
    && s.c.onMessage.RecvFinal? && s.c.n.bytesAcked == s.c.n.bytesTx == s.srv.w.up.filePos == |p.file|
    && s.srv.w.up.state.Receiving()
    && var conn := s.conns[s.cur.value]; conn.alive && conn.phase.Receive? && conn.c2s == [] && conn.s2c == []
  }

  /** The steps of an undisturbed session: a load completes, the handler reads a message, the
      browser receives one. */
  predicate Smooth(s: Sys, e: Event) {
    && Enabled(s, e)
    && (e.LoadDone? || e.Delivers?
        || (e.ServerSteps? && s.cur == Some(e.sid) && s.conns[e.sid].c2s != [] && NoFault(e.env.io)))
  }

  /** Each chunk still has to be loaded and sent, read and stored, and acknowledged. */
  function StepsLeft(p: Params, s: Sys): nat
    requires Sane(p) && s.cur.Some? && s.cur.value in s.conns
  {
    var conn := s.conns[s.cur.value];
    3 * ChunksFor(if s.c.n.bytesTx <= |p.file| then |p.file| - s.c.n.bytesTx else 0, ChunkBytes(p))
    + 2 * Chunks(conn.c2s) + Acks(conn.s2c) + (if conn.phase.AwaitAck? then 1 else 0)
  }

  // ---------------------------------------------------------------- never stuck

  function GoodEnv(): Env {
    Env(IO(true, true, true, 0, true, true, true), false, false, false)
  }

  lemma {:induction false} QuietQueue(q: seq<ClientMsg>)
    requires Chunks(q) == 0
    ensures Size(q) == 0
  {
    if q != [] {
      QuietQueue(q[1..]);
    }
  }

  lemma {:induction false} NoAckQueue(q: seq<ServerMsg>)
    requires Acks(q) == 0
    ensures AckedBytes(q) == 0
  {
    if q != [] {
      NoAckQueue(q[1..]);
    }
  }

  /** Never stuck: over a working connection an uploader that wants to send has, as long as it waits for
      acks, a load, a chunk or an ack under way, in every reachable state. */
  lemma NeverStuck(p: Params, s: Sys)
    requires Sane(p) && Reachable(p, s) && s.c.ws.Open? && s.c.onMessage.RecvChunkAcks?
    requires Active(s.c) && s.cur.Some? && s.cur.value in s.conns && Transferring(s.conns[s.cur.value])
    ensures var conn := s.conns[s.cur.value]; s.c.loading.Some? || Chunks(conn.c2s) > 0 || Acks(conn.s2c) > 0
  {
    ReachableInv(p, s);
    UnderWay(p, s);
  }

  lemma UnderWay(p: Params, s: Sys)
    requires Sane(p) && Inv(p, s) && Eager(p, s.c) && s.c.ws.Open? && s.c.onMessage.RecvChunkAcks?
    requires Active(s.c) && s.cur.Some? && s.cur.value in s.conns && Transferring(s.conns[s.cur.value])
    ensures var conn := s.conns[s.cur.value]; s.c.loading.Some? || Chunks(conn.c2s) > 0 || Acks(conn.s2c) > 0
  {
    var conn := s.conns[s.cur.value];
    if Chunks(conn.c2s) == 0 && Acks(conn.s2c) == 0 {
      QuietQueue(conn.c2s);
      NoAckQueue(conn.s2c);
    }
  }

  /** So in an undisturbed session some step can be taken. */
  lemma CanGoOn(p: Params, s: Sys)
    requires Sane(p) && Flowing(p, s)
    ensures exists e :: Smooth(s, e)
  {
    var i := s.cur.value;
    var conn := s.conns[i];
    UnderWay(p, s);
    if s.c.loading.Some? {
      assert Smooth(s, LoadDone);
    } else if conn.s2c != [] {
      assert Smooth(s, Delivers);
    } else {
      assert conn.c2s != [];
      assert Smooth(s, ServerSteps(i, GoodEnv()));
    }
  }

  // ---------------------------------------------------------------- one step nearer

  lemma LoadAdvances(p: Params, s: Sys)
    requires Sane(p) && Flowing(p, s) && Enabled(s, LoadDone)
    ensures var s' := Apply(p, s, LoadDone);
            Flowing(p, s') && s'.cur == s.cur && StepsLeft(p, s') == StepsLeft(p, s) - 1
  {
    StepKeeps(p, s, LoadDone);
    StepStaysEager(p, s, LoadDone);
    LoadedClient(p, s.c);
    LoadedTurn(p, s);
    Sent(p, s, Apply(p, s, LoadDone), Sender.SliceOf(p.file, s.c.loading.value));
  }

  /** A load that is sent touches nothing but the browser and the chunks under way. */
  lemma LoadedTurn(p: Params, s: Sys)
    requires Enabled(s, LoadDone) && s.cur.Some? && s.cur.value in s.conns && Sender.OnLoad(s.c, p.file).c.ws.Open?
    ensures var s', t := Apply(p, s, LoadDone), Sender.OnLoad(s.c, p.file);
            && s'.c == t.c && s'.srv == s.srv && s'.cur == s.cur && s.cur.value in s'.conns
            && s'.conns[s.cur.value] == Feed(s.conns[s.cur.value], t.out)
  {
  }

  /** What sending the slice means for the session, given what it leaves as it is. */
  lemma Sent(p: Params, s: Sys, s': Sys, buf: Bytes)
    requires Sane(p) && Flowing(p, s) && Inv(p, s') && Eager(p, s'.c)
    requires s'.srv == s.srv && s'.cur == s.cur && s.cur.value in s'.conns
    requires s'.conns[s.cur.value] == Feed(s.conns[s.cur.value], [Chunk(buf)])
    requires s'.c.onMessage == s.c.onMessage && s'.c.awaitingCancelAck == s.c.awaitingCancelAck && Active(s'.c)
    requires s'.c.n.bytesTx <= |p.file|
    requires ChunksFor(|p.file| - s.c.n.bytesTx, ChunkBytes(p))
             == 1 + ChunksFor(|p.file| - s'.c.n.bytesTx, ChunkBytes(p))
    ensures Flowing(p, s') && StepsLeft(p, s') == StepsLeft(p, s) - 1
  {
    Fed(s.conns[s.cur.value], buf);
  }

  lemma Fed(conn: Conn, buf: Bytes)
    requires Streaming(conn)
    ensures var conn' := Feed(conn, [Chunk(buf)]);
            Streaming(conn') && Chunks(conn'.c2s) == Chunks(conn.c2s) + 1 && conn'.s2c == conn.s2c
            && conn'.phase == conn.phase
  {
    QueueAppend(conn.c2s, Chunk(buf));
    assert conn.c2s != [] ==> (conn.c2s + [Chunk(buf)])[1..] == conn.c2s[1..] + [Chunk(buf)];
  }

  lemma LoadedClient(p: Params, c: Sender.Client)
    requires Sane(p) && LoadOK(p, c) && CountersOK(p, c) && c.loading.Some? && c.ws.Open?
    requires Active(c)
    ensures var t, buf := Sender.OnLoad(c, p.file), Sender.SliceOf(p.file, c.loading.value);
            && t.out == [Chunk(buf)] && t.c.ws.Open? && t.c.n.bytesTx <= |p.file| && t.c.onMessage == c.onMessage
            && t.c.n == Sender.CountSent(c.n, |buf|) && t.c.awaitingCancelAck == c.awaitingCancelAck
            && Active(t.c)
            && ChunksFor(|p.file| - c.n.bytesTx, ChunkBytes(p))
               == 1 + ChunksFor(|p.file| - t.c.n.bytesTx, ChunkBytes(p))
  {
    Client.SliceFacts(p, c);
  }

  lemma ReadAdvances(p: Params, s: Sys, env: Env)
    requires Sane(p) && Flowing(p, s) && Smooth(s, ServerSteps(s.cur.value, env))
    ensures var s' := Apply(p, s, ServerSteps(s.cur.value, env));
            Flowing(p, s') && s'.cur == s.cur && StepsLeft(p, s') == StepsLeft(p, s) - 1
  {
    var i := s.cur.value;
    StepKeeps(p, s, ServerSteps(i, env));
    MessageRead(p, s.srv, s.conns[i], env);
    Read(p, s, Apply(p, s, ServerSteps(i, env)));
  }

  /** What a handler's step means for the session, given what it does to the connection. */
  lemma Read(p: Params, s: Sys, s': Sys)
    requires Sane(p) && Flowing(p, s) && Inv(p, s') && s'.c == s.c && s'.cur == s.cur && s.cur.value in s'.conns
    requires ReadOne(s.conns[s.cur.value], s'.conns[s.cur.value]) && s'.srv.w.up.state.Receiving()
    ensures Flowing(p, s') && StepsLeft(p, s') == StepsLeft(p, s) - 1
  {
  }

  /** The ack, or a chunk for which there is an ack instead. */
  predicate ReadOne(conn: Conn, conn': Conn) {
    && Streaming(conn')
    && if conn.phase.AwaitAck?
       then conn'.phase.Receive? && Chunks(conn'.c2s) == Chunks(conn.c2s) && conn'.s2c == conn.s2c
       else conn'.phase.Receive? && Chunks(conn'.c2s) == Chunks(conn.c2s) - 1
            && Acks(conn'.s2c) == Acks(conn.s2c) + 1
  }

  lemma MessageRead(p: Params, srv: Server, conn: Conn, env: Env)
    requires ServerOK(p, srv, false) && ConnOK(p, srv, conn) && Streaming(conn)
    requires srv.w.up.state.Receiving() && conn.c2s != [] && NoFault(env.io)
    ensures var st := ServerStep(srv, conn, p.cfg, env); ReadOne(conn, st.conn) && st.srv.w.up.state.Receiving()
  {
    if conn.phase.Receive? {
      ChunkRead(p, srv, conn, env);
    } else {
      PopFacts(p, conn.c2s);
    }
  }

  /** An undisturbed handler stores the chunk it reads and acknowledges it. */
  lemma ChunkRead(p: Params, srv: Server, conn: Conn, env: Env)
    requires ServerOK(p, srv, false) && ConnOK(p, srv, conn) && Streaming(conn) && conn.phase.Receive?
    requires srv.w.up.state.Receiving() && conn.c2s != [] && NoFault(env.io)
    ensures var st, data := ServerStep(srv, conn, p.cfg, env), conn.c2s[0].data;
            && st.conn == conn.(c2s := conn.c2s[1..], s2c := conn.s2c + [ChunkAck(|data|)])
            && Streaming(st.conn) && st.srv.w.up.state.Receiving()
            && Chunks(st.conn.c2s) == Chunks(conn.c2s) - 1 && Acks(st.conn.s2c) == Acks(conn.s2c) + 1
  {
    var data := conn.c2s[0].data;
    PopFacts(p, conn.c2s);
    InFlightFits(p.file, srv.w.up.filePos, conn.c2s);
    ConsumeAppends(srv.w, p.file[..srv.w.up.filePos], data, env.io);
    ReplyAppend(conn.s2c, ChunkAck(|data|));
  }

  /** Receiving an ack touches nothing but the browser and the acks under way. */
  lemma AckDelivered(p: Params, s: Sys)
    requires Enabled(s, Delivers) && s.c.onMessage.RecvChunkAcks? && s.conns[s.cur.value].s2c[0].ChunkAck?
    ensures var s', conn := Apply(p, s, Delivers), s.conns[s.cur.value];
            && s'.c == Sender.ReceiveChunkAck(s.c, conn.s2c[0], |p.file|).c && s'.srv == s.srv && s'.cur == s.cur
            && s.cur.value in s'.conns && s'.conns[s.cur.value] == Client.Taken(conn)
  {
    Client.FeedNothing(Client.Taken(s.conns[s.cur.value]));
  }

  lemma DeliveryAdvances(p: Params, s: Sys)
    requires Sane(p) && Flowing(p, s) && Enabled(s, Delivers)
    ensures var s' := Apply(p, s, Delivers);
            && (Flowing(p, s') || Transferred(p, s')) && s'.cur == s.cur
            && s'.cur.value in s'.conns && StepsLeft(p, s') == StepsLeft(p, s) - 1
  {
    var conn := s.conns[s.cur.value];
    assert conn.s2c[0] in conn.s2c;
    StepKeeps(p, s, Delivers);
    StepStaysEager(p, s, Delivers);
    var s' := Apply(p, s, Delivers);
    Client.TakenConn(p, s.srv, conn);
    AckDelivered(p, s);
    AckedClient(p, s, s');
  }

  /** What the ack means for the browser, given what it leaves as it is. */
  lemma AckedClient(p: Params, s: Sys, s': Sys)
    requires Sane(p) && Flowing(p, s) && Enabled(s, Delivers) && Inv(p, s') && Eager(p, s'.c)
    requires var conn := s.conns[s.cur.value];
             && conn.s2c[0].ChunkAck? && s'.c == Sender.ReceiveChunkAck(s.c, conn.s2c[0], |p.file|).c
             && s'.srv == s.srv && s'.cur == s.cur && s.cur.value in s'.conns
             && s'.conns[s.cur.value] == Client.Taken(conn)
    ensures Flowing(p, s') || Transferred(p, s')
    ensures StepsLeft(p, s') == StepsLeft(p, s) - 1
  {
    var conn := s.conns[s.cur.value];
    if s.c.n.bytesAcked + conn.s2c[0].size == |p.file| {
      LastAck(p, s.srv, conn, s.c);
    }
  }

  lemma NoBytesLeft(p: Params, srv: Server, q: seq<ClientMsg>, r: seq<ServerMsg>)
    requires forall m :: m in q ==> m.Chunk? && GoodMsg(p, m)
    requires forall m :: m in r ==> m.ChunkAck? && GoodReply(p, srv, m)
    ensures q != [] ==> Size(q) > 0
    ensures r != [] ==> AckedBytes(r) > 0
  {
    if q != [] {
      assert q[0] in q;
    }
    if r != [] {
      assert r[0] in r;
    }
  }

  /** The ack that completes the count is the last message under way. */
  lemma LastAck(p: Params, srv: Server, conn: Conn, c: Sender.Client)
    requires ConnOK(p, srv, conn) && CurOK(p, srv, conn, c) && Streaming(conn) && c.onMessage.RecvChunkAcks?
    requires conn.s2c != [] && conn.s2c[0].ChunkAck? && c.n.bytesAcked + conn.s2c[0].size == |p.file|
    ensures conn.phase.Receive? && conn.c2s == [] && conn.s2c[1..] == [] && srv.w.up.filePos == |p.file|
    ensures c.n.bytesTx == |p.file|
  {
    InFlightFits(p.file, srv.w.up.filePos, conn.c2s);
    Client.TakenConn(p, srv, conn);
    NoBytesLeft(p, srv, conn.c2s, conn.s2c[1..]);
  }

  // ---------------------------------------------------------------- the whole session

  predicate SmoothRun(p: Params, s: Sys, es: seq<Event>)
    decreases |es|
  {
    es == [] || (Smooth(s, es[0]) && s.c.onMessage.RecvChunkAcks? && SmoothRun(p, Apply(p, s, es[0]), es[1..]))
  }

  lemma {:induction false} SmoothIsLegal(p: Params, s: Sys, es: seq<Event>)
    requires SmoothRun(p, s, es)
    ensures Legal(p, s, es)
    decreases |es|
  {
    if es != [] {
      SmoothIsLegal(p, Apply(p, s, es[0]), es[1..]);
    }
  }

  lemma Advances(p: Params, s: Sys, e: Event)
    requires Sane(p) && Flowing(p, s) && Smooth(s, e)
    ensures var s' := Apply(p, s, e);
            && (Flowing(p, s') || Transferred(p, s')) && s'.cur == s.cur
            && s'.cur.value in s'.conns && StepsLeft(p, s') == StepsLeft(p, s) - 1
  {
    if e.LoadDone? {
      LoadAdvances(p, s);
    } else if e.Delivers? {
      DeliveryAdvances(p, s);
    } else {
      ReadAdvances(p, s, e.env);
    }
  }

  lemma TransferredNothingLeft(p: Params, s: Sys)
    requires Sane(p) && Transferred(p, s)
    ensures StepsLeft(p, s) == 0
  {
  }

  /** However an undisturbed session is scheduled, each step uses up one of the steps that were left
      at its start, and the session is over when, and only when, none is left: no run is longer, and
      none ends earlier without being able to go on. */
  lemma {:induction false} SessionCompletes(p: Params, s: Sys, es: seq<Event>)
    requires Sane(p) && Flowing(p, s) && SmoothRun(p, s, es)
    ensures Legal(p, s, es)
    ensures var s' := Exec(p, s, es);
            && s'.cur == s.cur && s'.cur.value in s'.conns
            && StepsLeft(p, s') + |es| == StepsLeft(p, s)
            && (StepsLeft(p, s') > 0 ==> Flowing(p, s') && exists e :: Smooth(s', e))
            && (StepsLeft(p, s') == 0 ==> Transferred(p, s'))
    decreases |es|
  {
    SmoothIsLegal(p, s, es);
    if es == [] {
      CanGoOn(p, s);
    } else {
      Advances(p, s, es[0]);
      var s1 := Apply(p, s, es[0]);
      if Flowing(p, s1) {
        SessionCompletes(p, s1, es[1..]);
      } else {
        TransferredNothingLeft(p, s1);
        assert es[1..] == [];
      }
    }
  }

  /** The upload config of an incomplete upload is on its way to a browser that wants to go on. */
  predicate Offering(p: Params, s: Sys) {
    && Inv(p, s) && Eager(p, s.c) && HandshakeOK(p, s) && Enabled(s, Delivers) && s.c.onMessage.RecvConfig?
    && s.srv.w.up.state.Receiving() && s.srv.w.up.filePos < |p.file|
    && Active(s.c) && !s.c.awaitingCancelAck
    && var conn := s.conns[s.cur.value]; conn.alive && conn.phase.AwaitAck?
  }

  /** A session that resumes at some position takes three steps for each of its
      ceil((total - position) / chunk size) chunks, and one for the ack of the upload config. */
  lemma SessionBegins(p: Params, s: Sys)
    requires Sane(p) && Offering(p, s)
    ensures var s' := Apply(p, s, Delivers);
            && Flowing(p, s')
            && StepsLeft(p, s') == 3 * ChunksFor(|p.file| - s.srv.w.up.filePos, ChunkBytes(p)) + 1
  {
    StepKeeps(p, s, Delivers);
    StepStaysEager(p, s, Delivers);
    ConfigDelivered(p, s);
    Begun(p, s, Apply(p, s, Delivers));
    StepsAtBeginning(p, Apply(p, s, Delivers));
  }

  /** Receiving the config touches nothing but the browser and its connection. */
  lemma ConfigDelivered(p: Params, s: Sys)
    requires Offering(p, s)
    ensures var s', m := Apply(p, s, Delivers), UploadConf(p.cfg.chunkKB, s.srv.w.up.filePos, p.cfg.sendAhead);
            && s'.c == Sender.ReceiveConfig(s.c, m, |p.file|).c && s'.srv == s.srv && s'.cur == s.cur
            && s.cur.value in s'.conns && s'.conns[s.cur.value] == Conn([Ack(true)], [], true, AwaitAck)
  {
    var conn := s.conns[s.cur.value];
    assert InStep(p, conn, s.c) && conn.c2s == [];
    assert conn.s2c == [UploadConf(p.cfg.chunkKB, s.srv.w.up.filePos, p.cfg.sendAhead)];
    assert [] + [Ack(true)] == [Ack(true)];
  }

  lemma Begun(p: Params, s: Sys, s': Sys)
    requires Sane(p) && Offering(p, s) && Inv(p, s') && Eager(p, s'.c)
    requires var m := UploadConf(p.cfg.chunkKB, s.srv.w.up.filePos, p.cfg.sendAhead);
             s'.c == Sender.ReceiveConfig(s.c, m, |p.file|).c && s'.srv == s.srv && s'.cur == s.cur
    requires s.cur.value in s'.conns && s'.conns[s.cur.value] == Conn([Ack(true)], [], true, AwaitAck)
    ensures Flowing(p, s') && s'.c.n.bytesTx == s.srv.w.up.filePos
  {
    assert [Ack(true)][1..] == [];
  }

  lemma StepsAtBeginning(p: Params, s: Sys)
    requires Sane(p) && s.cur.Some? && s.cur.value in s.conns && s.c.n.bytesTx <= |p.file|
    requires s.conns[s.cur.value] == Conn([Ack(true)], [], true, AwaitAck)
    ensures StepsLeft(p, s) == 3 * ChunksFor(|p.file| - s.c.n.bytesTx, ChunkBytes(p)) + 1
  {
    assert [Ack(true)][1..] == [];
  }

  /** Whenever a pooled upload that no handler has bound is incomplete, an uploader without a socket
      that has not been cancelled gets to such a session by connecting: the upload is offered for
      resuming where it stands. */
  lemma ResumeBegins(p: Params, s: Sys, sid: nat, byUser: bool)
    requires Sane(p) && Inv(p, s) && Eager(p, s.c) && s.c.ws.NoSocket? && s.c.loading.None? && sid !in s.conns
    requires byUser || s.c.retryPending
    requires !s.c.f.cancelling && !s.c.f.cancelled
    requires s.srv.pooled && !s.srv.w.up.bound && s.srv.w.up.state.Receiving() && s.srv.w.up.filePos < |p.file|
    ensures Enabled(s, Starts(byUser)) && Enabled(Apply(p, s, Starts(byUser)), Opens(sid))
    ensures var s2 := Apply(p, Apply(p, s, Starts(byUser)), Opens(sid));
            && Enabled(s2, ServerSteps(sid, GoodEnv()))
            && var s3 := Apply(p, s2, ServerSteps(sid, GoodEnv()));
            && Offering(p, s3) && s3.srv.w.up.filePos == s.srv.w.up.filePos && s3.srv.w.files == s.srv.w.files
  {
    Connects(p, s, sid, byUser);
    var s3 := OfferMade(p, Apply(p, Apply(p, s, Starts(byUser)), Opens(sid)), sid);
  }

  lemma OfferMade(p: Params, s: Sys, sid: nat) returns (s3: Sys)
    requires Sane(p) && Inv(p, s) && s.cur == Some(sid) && sid in s.conns
    requires s.conns[sid] == Conn([UploadReq(p.id, |p.file|)], [], true, AwaitReq)
    requires s.srv.pooled && !s.srv.w.up.bound && s.srv.w.up.state.Receiving()
    requires HandshakeOK(p, s)
    ensures s3 == Apply(p, s, ServerSteps(sid, GoodEnv())) && Inv(p, s3) && HandshakeOK(p, s3)
    ensures s3.c == s.c && s3.cur == s.cur && sid in s3.conns
    ensures s3.conns[sid] == Conn([], [UploadConf(p.cfg.chunkKB, s.srv.w.up.filePos, p.cfg.sendAhead)], true, AwaitAck)
    ensures s3.srv.w.up.state == s.srv.w.up.state && s3.srv.w.up.filePos == s.srv.w.up.filePos
    ensures s3.srv.w.files == s.srv.w.files
  {
    RequestAccepted(p, s.srv, s.conns[sid], GoodEnv());
    StepKeeps(p, s, ServerSteps(sid, GoodEnv()));
    StepStaysInStep(p, s, ServerSteps(sid, GoodEnv()));
    s3 := Apply(p, s, ServerSteps(sid, GoodEnv()));
  }

  lemma Connects(p: Params, s: Sys, sid: nat, byUser: bool)
    requires Sane(p) && Inv(p, s) && Eager(p, s.c) && s.c.ws.NoSocket? && s.c.loading.None? && sid !in s.conns
    requires byUser || s.c.retryPending
    ensures Enabled(Apply(p, s, Starts(byUser)), Opens(sid))
    ensures var s2 := Apply(p, Apply(p, s, Starts(byUser)), Opens(sid));
            && Inv(p, s2) && Eager(p, s2.c) && HandshakeOK(p, s2)
            && s2.srv == s.srv && s2.cur == Some(sid) && sid in s2.conns
            && s2.conns[sid] == Conn([UploadReq(p.id, |p.file|)], [], true, AwaitReq)
            && s2.c.ws.Open? && s2.c.onMessage.RecvConfig? && !s2.c.awaitingCancelAck && !s2.c.f.paused
            && s2.c.f.cancelling == s.c.f.cancelling && s2.c.f.cancelled == s.c.f.cancelled
  {
    StepKeeps(p, s, Starts(byUser));
    StepStaysEager(p, s, Starts(byUser));
    StepKeeps(p, Apply(p, s, Starts(byUser)), Opens(sid));
    StepStaysEager(p, Apply(p, s, Starts(byUser)), Opens(sid));
  }

  lemma RequestAccepted(p: Params, srv: Server, conn: Conn, env: Env)
    requires ServerOK(p, srv, false) && srv.pooled && !srv.w.up.bound && srv.w.up.state.Receiving()
    requires conn == Conn([UploadReq(p.id, |p.file|)], [], true, AwaitReq)
    ensures var st := ServerStep(srv, conn, p.cfg, env);
            && st.conn == Conn([], [UploadConf(p.cfg.chunkKB, srv.w.up.filePos, p.cfg.sendAhead)], true, AwaitAck)
            && st.srv.w.up.state == srv.w.up.state && st.srv.w.up.filePos == srv.w.up.filePos
            && st.srv.w.files == srv.w.files
  {
    var m := UploadConf(p.cfg.chunkKB, srv.w.up.filePos, p.cfg.sendAhead);
    assert [] + [m] == [m];
  }

  // ---------------------------------------------------------------- losing the connection

  /** The connection `i` breaks and loses all that is under way, its handler notices, the browser notices,
      and a load that was pending ends. */
  function AfterLoss(p: Params, s: Sys, i: nat, env: Env): Sys
    requires s.cur == Some(i) && i in s.conns && !s.c.ws.NoSocket?
  {
    var s1 := Apply(p, s, Breaks(i, 0, 0));
    var s2 := Apply(p, s1, ServerSteps(i, env));
    var s3 := Apply(p, s2, SocketCloses);
    if Enabled(s3, LoadDone) then Apply(p, s3, LoadDone) else s3
  }

  /** What a loss leaves of the browser's uploader. */
  lemma LossOfSocket(p: Params, s: Sys, i: nat, env: Env)
    requires s.cur == Some(i) && i in s.conns && s.c.ws.Open? && (s.c.loading.Some? ==> s.c.conf.Some?)
    requires !s.c.retryPending
    ensures var s', st := AfterLoss(p, s, i, env),
                          ServerStep(s.srv, Conn([], [], false, s.conns[i].phase), p.cfg, env);
            && s'.srv == st.srv && i in s'.conns && s'.conns[i].phase == st.conn.phase && s'.conns.Keys == s.conns.Keys
            && s'.c.ws.NoSocket? && s'.c.loading.None? && s'.c.n == s.c.n && s'.c.f == s.c.f
            && (s'.c.retryPending <==> WantsToGoOn(s.c))
  {
    assert s.conns[i].c2s[..0] == [] && s.conns[i].s2c[..0] == [];
    CloseRetriesExactly(s.c);
    Client.FeedNothing(Conn([], [], false, s.conns[i].phase));
  }

  lemma LossKeepsInv(p: Params, s: Sys, i: nat, env: Env)
    requires Sane(p) && Inv(p, s) && Eager(p, s.c) && s.cur == Some(i) && i in s.conns && s.c.ws.Open?
    ensures Inv(p, AfterLoss(p, s, i, env)) && Eager(p, AfterLoss(p, s, i, env).c)
  {
    var s1 := Apply(p, s, Breaks(i, 0, 0));
    StepKeeps(p, s, Breaks(i, 0, 0));
    StepStaysEager(p, s, Breaks(i, 0, 0));
    var s2 := Apply(p, s1, ServerSteps(i, env));
    StepKeeps(p, s1, ServerSteps(i, env));
    StepStaysEager(p, s1, ServerSteps(i, env));
    var s3 := Apply(p, s2, SocketCloses);
    StepKeeps(p, s2, SocketCloses);
    StepStaysEager(p, s2, SocketCloses);
    if Enabled(s3, LoadDone) {
      StepKeeps(p, s3, LoadDone);
      StepStaysEager(p, s3, LoadDone);
    }
  }

  /** Losing the connection costs nothing that is stored, during the handshake, while chunks are received,
      and while the file is handed over: the upload is as before, only unbound, and the browser will try
      again unless it is paused or over. */
  lemma LossIsHarmless(p: Params, s: Sys, i: nat, env: Env)
    requires Sane(p) && Reachable(p, s) && s.cur == Some(i) && i in s.conns && s.c.ws.Open?
    requires var phase := s.conns[i].phase;
             || phase.AwaitAck? || (phase.Receive? && !Complete(s.srv)) || (phase.AwaitHandover? && env.fromSocket)
    ensures var s' := AfterLoss(p, s, i, env);
            && s'.srv == s.srv.(w := s.srv.w.(up := s.srv.w.up.(bound := false)))
            && s'.c.ws.NoSocket? && s'.c.loading.None? && s'.c.n == s.c.n && s'.c.f == s.c.f
            && (s'.c.retryPending <==> WantsToGoOn(s.c))
  {
    ReachableInv(p, s);
    LossOfSocket(p, s, i, env);
    LossLeavesUpload(s.srv, Conn([], [], false, s.conns[i].phase), p.cfg, env);
  }

  /** So the protocol resumes by itself: after a loss in the middle of a transfer that nobody has paused,
      cancelled or seen fail, the retry timer starts a session that is offered exactly the position the
      server had reached, with the same bytes stored. */
  lemma ReconnectResumes(p: Params, s: Sys, i: nat, env: Env, j: nat)
    requires Sane(p) && Reachable(p, s) && s.cur == Some(i) && i in s.conns && s.c.ws.Open? && j !in s.conns
    requires s.conns[i].phase.AwaitAck? || (s.conns[i].phase.Receive? && !Complete(s.srv))
    requires WantsToGoOn(s.c) && !s.c.f.cancelling
    requires s.srv.w.up.state.Receiving() && s.srv.w.up.filePos < |p.file|
    ensures var s0 := AfterLoss(p, s, i, env);
            && Enabled(s0, Starts(false)) && Enabled(Apply(p, s0, Starts(false)), Opens(j))
            && var s2 := Apply(p, Apply(p, s0, Starts(false)), Opens(j));
            && Enabled(s2, ServerSteps(j, GoodEnv()))
            && var s3 := Apply(p, s2, ServerSteps(j, GoodEnv()));
            && Offering(p, s3) && s3.srv.w.up.filePos == s.srv.w.up.filePos && s3.srv.w.files == s.srv.w.files
  {
    LossIsHarmless(p, s, i, env);
    ReachableInv(p, s);
    LossKeepsInv(p, s, i, env);
    LossOfSocket(p, s, i, env);
    ResumeBegins(p, AfterLoss(p, s, i, env), j, false);
  }

  /** An upload whose last chunk arrived before its session was lost, or which has no bytes at all, is
      offered in the same way, and the session goes straight on to the handover. */
  lemma CompleteUploadResumes(p: Params, s: Sys, sid: nat, byUser: bool)
    requires Sane(p) && Inv(p, s) && Eager(p, s.c) && s.c.ws.NoSocket? && s.c.loading.None? && sid !in s.conns
    requires byUser || s.c.retryPending
    requires s.srv.pooled && !s.srv.w.up.bound && s.srv.w.up.state.Receiving() && s.srv.w.up.filePos == |p.file|
    ensures Enabled(s, Starts(byUser)) && Enabled(Apply(p, s, Starts(byUser)), Opens(sid))
    ensures var s2 := Apply(p, Apply(p, s, Starts(byUser)), Opens(sid));
            && Enabled(s2, ServerSteps(sid, GoodEnv()))
            && var s3 := Apply(p, s2, ServerSteps(sid, GoodEnv()));
            && Enabled(s3, Delivers)
            && var s4 := Apply(p, s3, Delivers);
            && Enabled(s4, ServerSteps(sid, GoodEnv())) && Transferred(p, Apply(p, s4, ServerSteps(sid, GoodEnv())))
  {
    Connects(p, s, sid, byUser);
    var s3 := OfferMade(p, Apply(p, Apply(p, s, Starts(byUser)), Opens(sid)), sid);
    CompleteOffer(p, s3, sid);
  }

  lemma CompleteOffer(p: Params, s: Sys, i: nat)
    requires Sane(p) && Inv(p, s) && s.cur == Some(i) && i in s.conns && s.c.ws.Open? && s.c.onMessage.RecvConfig?
    requires !s.c.awaitingCancelAck && s.srv.w.up.state.Receiving() && s.srv.w.up.filePos == |p.file|
    requires s.conns[i] == Conn([], [UploadConf(p.cfg.chunkKB, s.srv.w.up.filePos, p.cfg.sendAhead)], true, AwaitAck)
    ensures Enabled(s, Delivers)
    ensures var s4 := Apply(p, s, Delivers);
            && Enabled(s4, ServerSteps(i, GoodEnv())) && Transferred(p, Apply(p, s4, ServerSteps(i, GoodEnv())))
  {
    StepKeeps(p, s, Delivers);
    var s4 := Apply(p, s, Delivers);
    assert [] + [Ack(true)] == [Ack(true)];
    assert s4.conns[i] == Conn([Ack(true)], [], true, AwaitAck);
    StepKeeps(p, s4, ServerSteps(i, GoodEnv()));
    assert [Ack(true)][1..] == [];
  }

  // ---------------------------------------------------------------- how many chunks

  /** There is one number of chunks that is enough and not too many. */
  lemma {:induction false} ChunksForIsExact(n: nat, k: nat, size: nat)
    requires size >= 1 && n <= k * size && (k > 0 ==> (k - 1) * size < n)
    ensures k == ChunksFor(n, size)
  {
    if n > size {
      assert k * size == (k - 1) * size + size && (k > 1 ==> (k - 1) * size == (k - 2) * size + size);
      ChunksForIsExact(n - size, k - 1, size);
    } else if n > 0 {
      if k > 1 {
        TwoSizes(k - 1, size);
      }
      assert ChunksFor(n - n, size) == 0;
    }
  }

  lemma TwoSizes(k: nat, size: nat)
    requires k >= 1
    ensures k * size >= size
  {
  }

  /** A session that has sent all there is to send has sent exactly ceil((total - position) / chunk size)
      chunks since the position it was offered, whatever has become of its connection. */
  lemma ChunksSent(p: Params, s: Sys)
    requires Sane(p) && Reachable(p, s) && s.c.ws.Open? && s.c.onMessage.RecvChunkAcks? && s.c.n.bytesTx == |p.file|
    ensures s.c.conf.Some? && s.c.conf.value.filePos <= |p.file|
    ensures s.c.n.chunksTxNow == ChunksFor(|p.file| - s.c.conf.value.filePos, ChunkBytes(p))
  {
    ReachableInv(p, s);
    var start := s.c.conf.value.filePos;
    ChunksForIsExact(|p.file| - start, s.c.n.chunksTxNow, ChunkBytes(p));
  }

  // ---------------------------------------------------------------- and then

  /** The current session's handler stands at `phase` with nothing unread, and the browser waits for
      the final message. */
  predicate Awaiting(p: Params, s: Sys, phase: Phase, inbox: seq<ServerMsg>) {
    && Inv(p, s) && s.cur.Some? && s.cur.value in s.conns
    && s.conns[s.cur.value] == Conn([], inbox, true, phase)
    && s.c.onMessage.RecvFinal?
  }

  /** Once everything is transferred, the handler's next step claims the handover. */
  lemma HandoverFollows(p: Params, s: Sys)
    requires Sane(p) && Transferred(p, s)
    ensures var s' := Apply(p, s, ServerSteps(s.cur.value, GoodEnv()));
            && Awaiting(p, s', Phase.AwaitHandover, []) && s'.srv.handover.Running? && s'.cur == s.cur
            && s'.srv.w == StartHandover(s.srv.w)
            && (p.file != [] ==> s'.handed == Some(Handed(p.dir + "/" + p.id, p.file)))
  {
    StepKeeps(p, s, ServerSteps(s.cur.value, GoodEnv()));
  }

  /** If the app backend takes the file, the handler reports success next. */
  lemma ReportFollows(p: Params, s: Sys)
    requires Sane(p) && Awaiting(p, s, Phase.AwaitHandover, []) && s.srv.handover.Running?
    ensures var s1 := Apply(p, s, HandoverEnds(true));
            && s1.cur == s.cur && Enabled(s1, ServerSteps(s.cur.value, GoodEnv()))
            && var s2 := Apply(p, s1, ServerSteps(s.cur.value, GoodEnv()));
            && Awaiting(p, s2, Phase.Done, [AllDone]) && Settled(s.srv.w, s2.srv)
  {
    StepKeeps(p, s, HandoverEnds(true));
    var s1 := Apply(p, s, HandoverEnds(true));
    StepKeeps(p, s1, ServerSteps(s.cur.value, GoodEnv()));
    ReportEffects(s1.srv, s1.conns[s.cur.value], p.cfg, GoodEnv());
    CleanUpExactly(s1.srv.w, true);
    assert [] + [AllDone] == [AllDone];
  }

  /** The upload with world `w` is cleaned up, out of the pool and unbound; its file is kept exactly if it
      is to be kept. */
  predicate Settled(w: World, srv: Server) {
    && srv.w.up.state.CleanedUp? && !srv.pooled && !srv.w.up.bound
    && (w.up.path in srv.w.files <==> w.up.path in w.files && !w.up.removeWhenFinished)
    && (w.up.path in srv.w.files ==> srv.w.files[w.up.path] == w.files[w.up.path])
  }

  /** And the browser's uploader finishes. */
  lemma FinishFollows(p: Params, s: Sys)
    requires Sane(p) && Awaiting(p, s, Phase.Done, [AllDone])
    ensures Enabled(s, Delivers) && Apply(p, s, Delivers).c.f.finished && Apply(p, s, Delivers).srv == s.srv
  {
  }

  /** The steps that are left when everything is transferred and the app backend takes the file. */
  function LastSteps(i: nat): seq<Event> {
    [ServerSteps(i, GoodEnv()), HandoverEnds(true), ServerSteps(i, GoodEnv()), Delivers]
  }

  lemma LastStepsFinish(p: Params, s: Sys)
    requires Sane(p) && Transferred(p, s)
    ensures Legal(p, s, LastSteps(s.cur.value))
    ensures var s' := Exec(p, s, LastSteps(s.cur.value));
            Inv(p, s') && s'.c.f.finished && Settled(StartHandover(s.srv.w), s'.srv)
  {
    var i := s.cur.value;
    HandoverFollows(p, s);
    var s1 := Apply(p, s, ServerSteps(i, GoodEnv()));
    var s3 := Reported(p, s1);
    Finished(p, s3);
    FourSteps(p, s, ServerSteps(i, GoodEnv()), HandoverEnds(true), ServerSteps(i, GoodEnv()), Delivers);
  }

  lemma Reported(p: Params, s: Sys) returns (s3: Sys)
    requires Sane(p) && Awaiting(p, s, Phase.AwaitHandover, []) && s.srv.handover.Running?
    ensures Enabled(s, HandoverEnds(true))
    ensures var s1 := Apply(p, s, HandoverEnds(true));
            && Enabled(s1, ServerSteps(s.cur.value, GoodEnv()))
            && s3 == Apply(p, s1, ServerSteps(s.cur.value, GoodEnv()))
    ensures Awaiting(p, s3, Phase.Done, [AllDone]) && Settled(s.srv.w, s3.srv)
  {
    ReportFollows(p, s);
    s3 := Apply(p, Apply(p, s, HandoverEnds(true)), ServerSteps(s.cur.value, GoodEnv()));
  }

  lemma Finished(p: Params, s: Sys)
    requires Sane(p) && Awaiting(p, s, Phase.Done, [AllDone])
    ensures Enabled(s, Delivers) && Inv(p, Apply(p, s, Delivers)) && Apply(p, s, Delivers).c.f.finished
    ensures Apply(p, s, Delivers).srv == s.srv
  {
    FinishFollows(p, s);
    StepKeeps(p, s, Delivers);
  }

  lemma FourSteps(p: Params, s: Sys, e0: Event, e1: Event, e2: Event, e3: Event)
    requires Enabled(s, e0)
    requires var s1 := Apply(p, s, e0);
             Enabled(s1, e1)
             && var s2 := Apply(p, s1, e1);
             Enabled(s2, e2)
             && var s3 := Apply(p, s2, e2);
             Enabled(s3, e3)
    ensures Legal(p, s, [e0, e1, e2, e3])
    ensures Exec(p, s, [e0, e1, e2, e3]) == Apply(p, Apply(p, Apply(p, Apply(p, s, e0), e1), e2), e3)
  {
    var s1 := Apply(p, s, e0);
    var s2 := Apply(p, s1, e1);
    FirstStep(p, Apply(p, s2, e2), e3, []);
    FirstStep(p, s2, e2, [e3]);
    FirstStep(p, s1, e1, [e2, e3]);
    FirstStep(p, s, e0, [e1, e2, e3]);
    assert [e0] + [e1, e2, e3] == [e0, e1, e2, e3] && [e1] + [e2, e3] == [e1, e2, e3];
  }

  lemma FirstStep(p: Params, s: Sys, e: Event, es: seq<Event>)
    requires Enabled(s, e) && Legal(p, Apply(p, s, e), es)
    ensures Legal(p, s, [e] + es) && Exec(p, s, [e] + es) == Exec(p, Apply(p, s, e), es)
  {
    assert ([e] + es)[1..] == es;
  }

  /** Once an incomplete upload has been offered, every undisturbed run of as many steps as its remaining
      chunks need, followed by the handover, ends with a browser that has finished, an app backend that
      has been handed exactly the client's file, and an upload that is cleaned up, out of the pool and
      unbound; the file stays if and only if it is to be kept. */
  lemma UploadFinishes(p: Params, s: Sys, es: seq<Event>)
    requires Sane(p) && Offering(p, s) && DeliveryOK(p, s.srv) && SmoothRun(p, Apply(p, s, Delivers), es)
    requires |es| == 3 * ChunksFor(|p.file| - s.srv.w.up.filePos, ChunkBytes(p)) + 1
    ensures var s1 := Apply(p, s, Delivers);
            && Legal(p, s1, es) && Exec(p, s1, es).cur.Some?
            && var last := LastSteps(Exec(p, s1, es).cur.value);
            && Legal(p, Exec(p, s1, es), last)
            && var s' := Exec(p, Exec(p, s1, es), last);
            && s'.c.f.finished && s'.handed.Some? && s'.handed.value == Handed(p.dir + "/" + p.id, p.file)
            && s'.srv.w.up.state.CleanedUp? && !s'.srv.pooled && !s'.srv.w.up.bound
            && (p.dir + "/" + p.id in s'.srv.w.files <==> !p.removeWhenFinished)
            && (!p.removeWhenFinished ==> HasFile(s'.srv.w, p.dir + "/" + p.id, p.file))
  {
    SessionBegins(p, s);
    SessionCompletes(p, Apply(p, s, Delivers), es);
    var s2 := Exec(p, Apply(p, s, Delivers), es);
    LastStepsFinish(p, s2);
    var s' := Exec(p, s2, LastSteps(s2.cur.value));
    FinishedIsHanded(p, s');
    StepKeepsDelivery(p, s, Delivers);
    RunKeepsDelivery(p, Apply(p, s, Delivers), es);
    RunKeepsDelivery(p, s2, LastSteps(s2.cur.value));
    TransferredFile(p, s2);
  }

  lemma FinishedIsHanded(p: Params, s: Sys)
    requires Inv(p, s) && s.c.f.finished && p.file != []
    ensures s.handed == Some(Handed(p.dir + "/" + p.id, p.file))
  {
  }

  /** When everything is transferred, the client's file is under its final name. */
  lemma TransferredFile(p: Params, s: Sys)
    requires Transferred(p, s) && p.file != []
    ensures HasFile(s.srv.w, p.dir + "/" + p.id, p.file)
  {
    assert p.file[..|p.file|] == p.file;
  }
}
