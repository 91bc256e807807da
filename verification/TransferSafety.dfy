/** The main results about whole transfers: every run keeps the invariant, and what follows from it. */
module TransferSafety {
  import opened Protocol
  import opened UploadSpec
  import opened Session
  import opened SessionEffects
  import opened Transfer
  import opened TransferInv
  import opened TransferServer
  import opened TransferServerInv
  import opened TransferEager
  import opened TransferWindow
  import opened TransferCancel
  import opened TransferHandshake
  import opened TransferDelivery
  import opened TransferRetry
  import Client = TransferClient
  import Sender

  // ---------------------------------------------------------------- the invariant, over every run

  /** Something other than a handler changes the upload: the timeout, the app backend, the end of
      the handover routine. */
  lemma OutsideKeeps(p: Params, s: Sys, srv': Server)
    requires Inv(p, s) && ServerOK(p, srv', IsFailing(s)) && Grows(s.srv, srv')
    requires srv'.w.up.filePos == s.srv.w.up.filePos && srv'.w.up.fileSize == s.srv.w.up.fileSize
    requires srv'.w.up.bound == s.srv.w.up.bound
    requires srv'.handover.NotStarted? == s.srv.handover.NotStarted?
    ensures Inv(p, s.(srv := srv'))
  {
    forall i | i in s.conns ensures ConnOK(p, srv', s.conns[i]) {
      OtherConn(p, s.srv, srv', s.conns[i]);
    }
    if s.cur.Some? {
      OtherCur(p, s.srv, srv', s.conns[s.cur.value], s.c);
    }
  }

  lemma AbortKeeps(p: Params, s: Sys, removeOk: bool)
    requires Inv(p, s)
    ensures Inv(p, s.(srv := Abort(s.srv, removeOk)))
  {
    AbortOK(p, s.srv, IsFailing(s), removeOk);
    OutsideKeeps(p, s, Abort(s.srv, removeOk));
  }

  lemma BreakKeeps(p: Params, s: Sys, i: nat, k: nat, m: nat)
    requires Inv(p, s) && i in s.conns && k <= |s.conns[i].c2s| && m <= |s.conns[i].s2c|
    ensures Inv(p, s.(conns := s.conns[i := Conn(s.conns[i].c2s[..k], s.conns[i].s2c[..m], false, s.conns[i].phase)]))
  {
    Client.Broken(p, s.srv, s.conns[i], k, m);
    if s.cur == Some(i) {
      Client.BrokenCur(p, s.srv, s.conns[i], s.c, k, m);
    }
  }

  lemma StepKeeps(p: Params, s: Sys, e: Event)
    requires Sane(p) && Inv(p, s) && Enabled(s, e)
    ensures Inv(p, Apply(p, s, e))
  {
    match e
    case Starts(byUser) => StartKeeps(p, s, byUser);
    case Opens(sid) => OpenKeeps(p, s, sid);
    case LoadDone => Client.LoadKeeps(p, s);
    case LoadBroke => Client.LoadBreaks(p, s);
    case Delivers => Client.DeliverKeeps(p, s);
    case UserCancels => Client.CancelKeeps(p, s, s.c);
    case UserPauses => Client.PauseKeeps(p, s);
    case SocketCloses => CloseKeeps(p, s);
    case ServerSteps(sid, env) => ServerTurnKeeps(p, s, sid, env);
    case Breaks(sid, k, m) => BreakKeeps(p, s, sid, k, m);
    case HandoverEnds(ok) => EndKeeps(p, s, ok);
    case BackendCancels(removeOk) => AbortKeeps(p, s, removeOk);
    case TimesOut(removeOk) => AbortKeeps(p, s, removeOk);
  }

  lemma StartKeeps(p: Params, s: Sys, byUser: bool)
    requires Inv(p, s) && Enabled(s, Starts(byUser))
    ensures Inv(p, Apply(p, s, Starts(byUser)))
  {
  }

  lemma CloseKeeps(p: Params, s: Sys)
    requires Inv(p, s) && Enabled(s, SocketCloses)
    ensures Inv(p, Apply(p, s, SocketCloses))
  {
    var t := Sender.Turn(Sender.OnClose(s.c), []);
    if s.cur.Some? {
      Client.FeedNothing(s.conns[s.cur.value]);
    }
    Client.TurnKeeps(p, s, t);
    assert Apply(p, s, SocketCloses) == ClientTurn(s, t);
  }

  lemma EndKeeps(p: Params, s: Sys, ok: bool)
    requires Inv(p, s) && s.srv.handover.Running?
    ensures Inv(p, Apply(p, s, HandoverEnds(ok)))
  {
    OutsideKeeps(p, s, s.srv.(w := Settle(s.srv.w, ok), handover := Ended(ok)));
  }

  lemma OpenKeeps(p: Params, s: Sys, sid: nat)
    requires Inv(p, s) && Enabled(s, Opens(sid))
    ensures Inv(p, Apply(p, s, Opens(sid)))
  {
  }

  /** The invariant and what has been put on top of it. */
  predicate FullInv(p: Params, s: Sys) {
    && Inv(p, s) && Eager(p, s.c) && Windowed(p, s) && CancelOrder(s) && HandshakeOK(p, s)
    && DeliveryOK(p, s.srv) && RetryOK(s.c)
  }

  lemma FullStepKeeps(p: Params, s: Sys, e: Event)
    requires Sane(p) && FullInv(p, s) && Enabled(s, e)
    ensures FullInv(p, Apply(p, s, e))
  {
    StepKeeps(p, s, e);
    StepStaysEager(p, s, e);
    StepKeepsWindow(p, s, e);
    TransferCancel.StepKeeps(p, s, e);
    StepStaysInStep(p, s, e);
    StepKeepsDelivery(p, s, e);
    StepKeepsRetry(p, s, e);
  }

  /** Every state of every run satisfies the invariant. */
  lemma {:induction false} RunKeeps(p: Params, s: Sys, es: seq<Event>)
    requires Sane(p) && FullInv(p, s) && Legal(p, s, es)
    ensures FullInv(p, Exec(p, s, es))
    decreases |es|
  {
    if es != [] {
      FullStepKeeps(p, s, es[0]);
      RunKeeps(p, Apply(p, s, es[0]), es[1..]);
    }
  }

  lemma {:induction false} RunKeepsDelivery(p: Params, s: Sys, es: seq<Event>)
    requires Sane(p) && Inv(p, s) && DeliveryOK(p, s.srv) && Legal(p, s, es)
    ensures Inv(p, Exec(p, s, es)) && DeliveryOK(p, Exec(p, s, es).srv)
    decreases |es|
  {
    if es != [] {
      StepKeeps(p, s, es[0]);
      StepKeepsDelivery(p, s, es[0]);
      RunKeepsDelivery(p, Apply(p, s, es[0]), es[1..]);
    }
  }

  /** The states some run leads to. */
  ghost predicate Reachable(p: Params, s: Sys) {
    exists es :: Legal(p, Initial(p), es) && Exec(p, Initial(p), es) == s
  }

  lemma ReachableInv(p: Params, s: Sys)
    requires Sane(p) && Reachable(p, s)
    ensures FullInv(p, s)
  {
    var es :| Legal(p, Initial(p), es) && Exec(p, Initial(p), es) == s;
    InitialInv(p);
    RunKeeps(p, Initial(p), es);
  }

  // ---------------------------------------------------------------- integrity

  lemma {:induction false} InFlightPayload(file: Bytes, filePos: nat, q: seq<ClientMsg>)
    requires InFlight(file, filePos, q)
    ensures |Payload(q)| == Size(q) && filePos + Size(q) <= |file|
    ensures Payload(q) == file[filePos..filePos + Size(q)]
    decreases |q|
  {
    if q != [] {
      if q[0].Chunk? {
        var next := filePos + |q[0].data|;
        InFlightPayload(file, next, q[1..]);
        Join(file, filePos, next, next + Size(q[1..]), q[0].data, Payload(q[1..]));
      } else {
        InFlightPayload(file, filePos, q[1..]);
        assert [] + Payload(q[1..]) == Payload(q[1..]);
      }
    }
  }

  lemma Join(file: Bytes, a: nat, b: nat, c: nat, left: Bytes, right: Bytes)
    requires a <= b <= c <= |file| && left == file[a..b] && right == file[b..c]
    ensures left + right == file[a..c]
  {
  }

  /** Before cancellation or handover, however often the transfer was interrupted, the server's file is a
      prefix of the client's file that includes all it has counted. It is exactly that long unless the
      handler is giving up after a failed chunk; and what a handler still has to read is the
      continuation of the file from there. */
  lemma ReceivedPrefix(p: Params, s: Sys)
    requires Sane(p) && Reachable(p, s) && s.srv.w.up.state.Receiving()
    ensures s.srv.w.up.filePos <= |s.srv.w.Stored()| && s.srv.w.Stored() <= p.file
    ensures !IsFailing(s) ==> |s.srv.w.Stored()| == s.srv.w.up.filePos
    ensures s.owner.Some? && s.owner.value in s.conns
            && !IsFailing(s) && !s.conns[s.owner.value].phase.AwaitHandover? ==>
              p.file[..s.srv.w.up.filePos] + Payload(s.conns[s.owner.value].c2s) <= p.file
  {
    ReachableInv(p, s);
    StripPart(s.srv.w.up);
    if s.owner.Some? && !IsFailing(s) {
      var conn := s.conns[s.owner.value];
      if !conn.phase.AwaitHandover? {
        InFlightPayload(p.file, s.srv.w.up.filePos, conn.c2s);
      }
    }
  }

  /** What the app backend is told to fetch is the client's file, each byte once and in order, under
      the upload's final name; it stays so while the file is handed over; and a browser that reports
      success is right about it. */
  lemma HandedOverIntact(p: Params, s: Sys)
    requires Sane(p) && Reachable(p, s)
    ensures s.handed.Some? ==> s.handed.value.data == p.file
    ensures s.handed.Some? ==> (s.handed.value.path == p.dir + "/" + p.id <==> p.file != [])
    ensures s.srv.w.up.state.HandingOver? ==>
              (HasFile(s.srv.w, p.dir + "/" + p.id, p.file) <==> p.file != []) && s.srv.w.Stored() == p.file
    ensures s.c.f.finished ==> s.srv.handover == Ended(true) && s.handed.Some?
  {
    ReachableInv(p, s);
    assert p.file[..|p.file|] == p.file;
  }

  // ---------------------------------------------------------------- the end of an upload

  /** An upload that receives goes on receiving, in the pool and handed to nobody, until one of these
      events: a timeout, a cancel by the app backend, or a step of a handler that finds the file complete,
      gives up after a failed chunk, or reads a cancel or an error. It is then being handed over, or it is
      cleaned up, out of the pool and without a file. */
  lemma LivesUntil(p: Params, s: Sys, e: Event)
    requires Sane(p) && Reachable(p, s) && Enabled(s, e) && s.srv.w.up.state.Receiving()
    ensures var srv' := Apply(p, s, e).srv;
            && (srv'.w.up.state.Receiving() <==> !EndsUpload(s, e))
            && (srv'.w.up.state.Receiving() ==> srv'.pooled && srv'.handover.NotStarted?)
            && (!srv'.w.up.state.Receiving() ==>
                  || (srv'.w.up.state.HandingOver? && srv'.pooled && srv'.handover.Running?)
                  || Dropped(s.srv, srv', MayRemove(e)))
  {
    ReachableInv(p, s);
    FullStepKeeps(p, s, e);
    StopsReceivingExactly(p, s, e);
  }

  /** Once the app backend has taken the file, an upload that keeps its file keeps it for good: in every
      reachable state the client's file is there, under its final name. One that does not keep its file
      has it until it is cleaned up. */
  lemma DeliveredFileStays(p: Params, s: Sys)
    requires Sane(p) && Reachable(p, s) && s.srv.handover == Ended(true) && p.file != []
    ensures !p.removeWhenFinished || s.srv.w.up.state.Finished? ==> HasFile(s.srv.w, p.dir + "/" + p.id, p.file)
  {
    ReachableInv(p, s);
  }

  /** The step that cleans up a finished upload removes the delivered file if and only if the upload asks
      for it and the system lets it. */
  lemma CleanUpDecides(p: Params, s: Sys, e: Event)
    requires Sane(p) && Reachable(p, s) && Enabled(s, e) && p.file != [] && s.srv.w.up.state.Finished?
    requires Apply(p, s, e).srv.w.up.state.CleanedUp?
    ensures var w' := Apply(p, s, e).srv.w;
            && (p.dir + "/" + p.id in w'.files <==> !(p.removeWhenFinished && MayRemove(e)))
            && (p.dir + "/" + p.id in w'.files ==> HasFile(w', p.dir + "/" + p.id, p.file))
  {
    ReachableInv(p, s);
    OverStepOfSystem(p, s, e);
    CleanUpExactly(s.srv.w, MayRemove(e));
  }

  /** After that nothing changes any more, and the upload does not come back into the pool. */
  lemma {:induction false} CleanedUpForEver(p: Params, s: Sys, es: seq<Event>)
    requires Sane(p) && FullInv(p, s) && Legal(p, s, es) && s.srv.w.up.state.CleanedUp?
    ensures var srv' := Exec(p, s, es).srv;
            && srv'.w.up.state.CleanedUp? && !srv'.pooled && srv'.w.files == s.srv.w.files
            && srv'.w.up.path == s.srv.w.up.path
    decreases |es|
  {
    if es != [] {
      FullStepKeeps(p, s, es[0]);
      OverStepOfSystem(p, s, es[0]);
      CleanedUpForEver(p, Apply(p, s, es[0]), es[1..]);
    }
  }

  // ---------------------------------------------------------------- conservation and the window

  /** While a session transfers over a working socket: sent = stored + unread, stored = acknowledged
      + unprocessed acks, and the uploader's two gauges measure exactly the difference. */
  lemma BytesConserved(p: Params, s: Sys)
    requires Sane(p) && Reachable(p, s) && s.cur.Some? && s.cur.value in s.conns
    requires s.c.onMessage.RecvChunkAcks? && Transferring(s.conns[s.cur.value])
    ensures var conn, n, filePos := s.conns[s.cur.value], s.c.n, s.srv.w.up.filePos;
            && n.bytesTx == filePos + Size(conn.c2s)
            && filePos == n.bytesAcked + AckedBytes(conn.s2c)
            && n.bytesAhead == n.bytesTx - n.bytesAcked
            && n.chunksAhead == Chunks(conn.c2s) + Acks(conn.s2c)
  {
    ReachableInv(p, s);
  }

  /** Over an open socket, whether or not it still works and whatever its handler is doing, never more
      than `sendAhead` chunks are unacknowledged, nor more than that many chunks' bytes; and what has
      been sent and acknowledged follows from the offered position and the numbers of chunks and acks. */
  lemma WindowRespected(p: Params, s: Sys)
    requires Sane(p) && Reachable(p, s) && s.c.ws.Open? && s.c.onMessage.RecvChunkAcks?
    ensures s.c.conf.Some? && 0 <= s.c.n.chunksAhead <= p.cfg.sendAhead && s.c.n.chunksAhead <= s.c.n.chunksTxNow
    ensures var n, start := s.c.n, s.c.conf.value.filePos;
            && n.bytesTx == Min(|p.file|, start + n.chunksTxNow * ChunkBytes(p))
            && n.bytesAcked == Min(|p.file|, start + (n.chunksTxNow - n.chunksAhead) * ChunkBytes(p))
            && 0 <= n.bytesAhead == n.bytesTx - n.bytesAcked <= p.cfg.sendAhead * ChunkBytes(p)
  {
    ReachableInv(p, s);
    var n, start := s.c.n, s.c.conf.value.filePos;
    Ahead(|p.file|, start, n.chunksTxNow, n.chunksAhead, ChunkBytes(p));
    Product(n.chunksAhead, p.cfg.sendAhead, ChunkBytes(p));
  }

  lemma Product(a: nat, b: nat, size: nat)
    requires a <= b
    ensures a * size <= b * size
  {
  }

  /** No chunk on its way over any connection is empty or longer than a slice, so none is refused for its
      size. */
  lemma ChunksFitReadLimit(p: Params, s: Sys, i: nat, m: ClientMsg)
    requires Sane(p) && Reachable(p, s) && i in s.conns && m in s.conns[i].c2s && m.Chunk?
    ensures 0 < |m.data| <= p.cfg.chunkKB * 1024 && !Oversized(p.cfg, m)
  {
    ReachableInv(p, s);
    assert ConnOK(p, s.srv, s.conns[i]);
  }

  // ---------------------------------------------------------------- resuming

  lemma DeliveryGrows(p: Params, s: Sys)
    requires Inv(p, s) && Enabled(s, Delivers)
    ensures s.c.n.bytesAcked <= Sender.Receive(s.c, s.conns[s.cur.value].s2c[0], |p.file|).c.n.bytesAcked
  {
    var conn := s.conns[s.cur.value];
    assert conn.s2c[0] in conn.s2c;
  }

  lemma AckedGrows(p: Params, s: Sys, e: Event)
    requires Sane(p) && Inv(p, s) && Enabled(s, e)
    ensures s.c.n.bytesAcked <= Apply(p, s, e).c.n.bytesAcked
    ensures s.srv.w.up.filePos <= Apply(p, s, e).srv.w.up.filePos
  {
    match e
    case ServerSteps(sid, env) => ServedKeeps(p, s.srv, s.conns[sid], env, IsFailing(s));
    case Delivers => DeliveryGrows(p, s);
    case _ => OthersGrow(p, s, e);
  }

  lemma OthersGrow(p: Params, s: Sys, e: Event)
    requires Enabled(s, e) && !e.ServerSteps? && !e.Delivers?
    ensures s.c.n.bytesAcked <= Apply(p, s, e).c.n.bytesAcked
    ensures s.srv.w.up.filePos <= Apply(p, s, e).srv.w.up.filePos
  {
  }

  lemma {:induction false} ProgressLasts(p: Params, s: Sys, es: seq<Event>)
    requires Sane(p) && Inv(p, s) && Legal(p, s, es)
    ensures var s' := Exec(p, s, es);
            && s.c.n.bytesAcked <= s'.c.n.bytesAcked <= s'.srv.w.up.filePos <= |p.file|
            && s.srv.w.up.filePos <= s'.srv.w.up.filePos
    decreases |es|
  {
    if es != [] {
      StepKeeps(p, s, es[0]);
      AckedGrows(p, s, es[0]);
      ProgressLasts(p, Apply(p, s, es[0]), es[1..]);
    }
  }

  /** Progress is never taken back: over any stretch of any run, through disconnects, pauses and
      resumes, neither what the browser knows to be stored nor what is stored shrinks, and the one
      never exceeds the other. */
  lemma ResumeNeverRegresses(p: Params, s: Sys, es: seq<Event>)
    requires Sane(p) && Reachable(p, s) && Legal(p, s, es)
    ensures var s' := Exec(p, s, es);
            && s.c.n.bytesAcked <= s'.c.n.bytesAcked <= s'.srv.w.up.filePos <= |p.file|
            && s.srv.w.up.filePos <= s'.srv.w.up.filePos
  {
    ReachableInv(p, s);
    ProgressLasts(p, s, es);
  }

  // ---------------------------------------------------------------- retrying

  /** From every reachable state: when the browser's socket closes, a retry is pending if and only if the
      uploader is neither paused nor finished, cancelled or failed; and it stays pending over every run
      until the uploader is started, cancelled or paused. */
  lemma LostSocketRetries(p: Params, s: Sys, es: seq<Event>)
    requires Sane(p) && Reachable(p, s) && Enabled(s, SocketCloses) && Legal(p, Apply(p, s, SocketCloses), es)
    requires forall e :: e in es ==> !EndsRetry(e)
    ensures Apply(p, s, SocketCloses).c.retryPending <==> WantsToGoOn(s.c)
    ensures WantsToGoOn(s.c) ==> Exec(p, Apply(p, s, SocketCloses), es).c.retryPending
  {
    ReachableInv(p, s);
    CloseRetriesExactly(s.c);
    if WantsToGoOn(s.c) {
      RetryLasts(p, Apply(p, s, SocketCloses), es);
    }
  }

  // ---------------------------------------------------------------- exclusive sessions

  /** At most one handler has bound the upload. Any other either has not read its upload request, and
      then no chunk either, or has returned; and its steps leave position and files alone. */
  lemma ExclusiveSession(p: Params, s: Sys, i: nat, j: nat, env: Env)
    requires Sane(p) && Reachable(p, s) && i in s.conns && j in s.conns && i != j
    requires s.conns[i].phase.Bound()
    ensures !s.conns[j].phase.Bound()
    ensures s.conns[j].phase.Done? || forall m :: m in s.conns[j].c2s ==> !m.Chunk?
    ensures Apply(p, s, ServerSteps(j, env)).srv == s.srv
  {
    ReachableInv(p, s);
    ServedKeeps(p, s.srv, s.conns[j], env, IsFailing(s));
  }

  // ---------------------------------------------------------------- cancelling

  /** The handler reads chunks, or will as soon as it has read the ack in front of it. */
  predicate InLoop(conn: Conn) {
    conn.phase.Receive? || (conn.phase.AwaitAck? && Acked(conn))
  }

  /** The handler has left its session, or is about to. */
  predicate Leaving(conn: Conn) {
    conn.phase.Failing? || conn.phase.Done?
  }

  /** Where the cancel message lands that the browser sends over a working connection, by what the browser
      is waiting for: sent once the config has been received, it will be read in the receive loop, and
      the chunks in front of it do not complete the file; sent during the handshake, it will be refused. */
  lemma CancelLands(p: Params, s: Sys, i: nat)
    requires Sane(p) && Reachable(p, s) && s.c.ws.Open? && s.cur == Some(i) && i in s.conns && s.conns[i].alive
    requires s.c.f.canCancel && !s.c.f.cancelled
    ensures s.c.onMessage.RecvConfig? || s.c.onMessage.RecvChunkAcks?
    ensures var s' := Apply(p, s, UserCancels);
            && i in s'.conns && s'.conns[i] == s.conns[i].(c2s := s.conns[i].c2s + [Cancel])
            && (!Leaving(s'.conns[i]) ==>
                  && (InLoop(s'.conns[i]) && s'.srv.w.up.filePos + Size(s'.conns[i].c2s) < |p.file|
                      <==> s.c.onMessage.RecvChunkAcks?)
                  && (Refused(s'.conns[i]) <==> s.c.onMessage.RecvConfig?))
  {
    ReachableInv(p, s);
    var conn := s.conns[i];
    QueueAppend(conn.c2s, Cancel);
    assert CurOK(p, s.srv, conn, s.c) && ConnOK(p, s.srv, conn) && InStep(p, conn, s.c);
    assert conn.c2s != [] ==> (conn.c2s + [Cancel])[0] == conn.c2s[0];
  }

  /** A cancel that is refused stays so in every run: its handler never gets as far as reading chunks,
      and none of its steps changes the upload's state, position, files or handover, or acknowledges a
      cancel. */
  lemma {:induction false} RefusedForEver(p: Params, s: Sys, es: seq<Event>, i: nat, env: Env)
    requires Legal(p, s, es) && i in s.conns && Refused(s.conns[i])
    ensures var s' := Exec(p, s, es);
            && i in s'.conns && Refused(s'.conns[i]) && !InLoop(s'.conns[i])
            && var st := ServerStep(s'.srv, s'.conns[i], p.cfg, env);
            && st.srv.w.up.state == s'.srv.w.up.state && st.srv.w.up.filePos == s'.srv.w.up.filePos
            && st.srv.w.files == s'.srv.w.files && st.srv.handover == s'.srv.handover
            && (CancelAck in st.conn.s2c ==> CancelAck in s'.conns[i].s2c)
    decreases |es|
  {
    if es == [] {
      RefusedStep(s.srv, s.conns[i], p.cfg, env);
    } else {
      RefusedLasts(p, s, es[0], i);
      RefusedForEver(p, Apply(p, s, es[0]), es[1..], i, env);
    }
  }

  /** A cancel message behind the browser's ack is read inside the receive loop: the handler cannot
      have left for the handover with one unread, and the chunks in front of it do not complete the
      file. */
  lemma CancelNeverMissed(p: Params, s: Sys, i: nat)
    requires Sane(p) && Reachable(p, s) && i in s.conns && Cancel in s.conns[i].c2s
    ensures !s.conns[i].phase.AwaitHandover?
    ensures s.conns[i].phase.Receive? || (s.conns[i].phase.AwaitAck? && s.conns[i].c2s[0].Ack?) ==>
              s.srv.w.up.filePos + Size(s.conns[i].c2s) < |p.file|
  {
    ReachableInv(p, s);
  }

  /** And when it is read there, the upload is cancelled, unless it is already over, and the browser
      is told so. */
  lemma CancelTakesEffect(p: Params, s: Sys, i: nat, env: Env)
    requires Sane(p) && Reachable(p, s) && i in s.conns
    requires s.conns[i].phase.Receive? && s.conns[i].c2s != [] && s.conns[i].c2s[0].Cancel?
    ensures var s' := Apply(p, s, ServerSteps(i, env));
            && s'.srv.w.up.state.CleanedUp? && s'.srv.handover.NotStarted? && !s'.srv.w.up.bound
            && (env.io.removeOk && s.srv.w.up.state.Receiving() ==>
                  s'.srv.w.up.path !in s'.srv.w.files || s'.srv.w.up.path == "")
            && (s.conns[i].alive ==> s'.conns[i].s2c == s.conns[i].s2c + [CancelAck])
  {
    ReachableInv(p, s);
    assert s.conns[i].c2s[0] in s.conns[i].c2s;
    InFlightFits(p.file, s.srv.w.up.filePos, s.conns[i].c2s);
  }

  /** A cancel message that will be read in the receive loop is the last one there: nothing but a pause,
      which closes the socket, comes behind it. */
  lemma CancelIsLast(p: Params, s: Sys, i: nat, j: nat, k: nat)
    requires Sane(p) && Reachable(p, s) && i in s.conns && s.conns[i].phase.Receive?
    requires j < k < |s.conns[i].c2s| && s.conns[i].c2s[j].Cancel?
    ensures s.conns[i].c2s[k].Pause?
  {
    ReachableInv(p, s);
    CancelLastMeans(s.conns[i].c2s, j, k);
  }

  // ---------------------------------------------------------------- a run

  lemma {:induction false} RunOn(p: Params, s: Sys, es: seq<Event>, e: Event)
    requires Legal(p, s, es) && Enabled(Exec(p, s, es), e)
    ensures Legal(p, s, es + [e]) && Exec(p, s, es + [e]) == Apply(p, Exec(p, s, es), e)
    decreases |es|
  {
    if es == [] {
      assert es + [e] == [e] && [e][1..] == [];
    } else {
      assert (es + [e])[1..] == es[1..] + [e];
      RunOn(p, Apply(p, s, es[0]), es[1..], e);
    }
  }

  lemma StepReaches(p: Params, s: Sys, e: Event)
    requires Reachable(p, s) && Enabled(s, e)
    ensures Reachable(p, Apply(p, s, e))
  {
    var es :| Legal(p, Initial(p), es) && Exec(p, Initial(p), es) == s;
    RunOn(p, Initial(p), es, e);
  }

  lemma InitiallyReachable(p: Params)
    ensures Reachable(p, Initial(p))
  {
    assert Legal(p, Initial(p), []) && Exec(p, Initial(p), []) == Initial(p);
  }

  /** Any uploader can be cancelled during the handshake of its first session. */
  lemma CancelledEarly(p: Params) returns (s: Sys)
    ensures Reachable(p, s) && s.srv == Initial(p).srv && s.cur == Some(0) && s.c.f.cancelling && !s.c.f.cancelled
    ensures s.conns == map[0 := Conn([UploadReq(p.id, |p.file|), Cancel], [], true, AwaitReq)] && s.owner.None?
  {
    InitiallyReachable(p);
    StepReaches(p, Initial(p), Starts(true));
    var s1 := Apply(p, Initial(p), Starts(true));
    StepReaches(p, s1, Opens(0));
    var s2 := Apply(p, s1, Opens(0));
    StepReaches(p, s2, UserCancels);
    s := Apply(p, s2, UserCancels);
    assert [UploadReq(p.id, |p.file|)] + [Cancel] == [UploadReq(p.id, |p.file|), Cancel];
  }

  /** Then the handler answers with the config and an error, and the upload lives on, uncancelled. */
  lemma NackHappens(p: Params) returns (s: Sys)
    ensures Reachable(p, s) && s.c.f.cancelling && !s.c.f.cancelled
    ensures s.srv.w.up.state.Init? && s.srv.pooled && !s.srv.w.up.bound
    ensures s.conns
            == map[0 := Conn([], [UploadConf(p.cfg.chunkKB, 0, p.cfg.sendAhead), ServerError], true, Phase.Done)]
  {
    var s0 := CancelledEarly(p);
    var env := Env(IO(true, true, true, 0, true, true, true), false, false, false);
    var conf := UploadConf(p.cfg.chunkKB, 0, p.cfg.sendAhead);
    StepReaches(p, s0, ServerSteps(0, env));
    var s1 := Apply(p, s0, ServerSteps(0, env));
    assert s0.conns[0].c2s[1..] == [Cancel] && [] + [conf] == [conf];
    assert s1.conns == map[0 := Conn([Cancel], [conf], true, AwaitAck)];
    StepReaches(p, s1, ServerSteps(0, env));
    s := Apply(p, s1, ServerSteps(0, env));
    assert s1.conns[0].c2s[1..] == [] && [conf] + [ServerError] == [conf, ServerError];
  }
}
