/** The invariant of the transfer: what every reachable state of Transfer.dfy satisfies. */
module TransferInv {
  import opened Protocol
  import opened UploadSpec
  import opened Session
  import opened Transfer
  import Sender

  predicate Sane(p: Params) {
    p.cfg.chunkKB >= 1 && p.cfg.sendAhead >= 1
  }

  function ChunkBytes(p: Params): nat {
    p.cfg.chunkKB * 1024
  }

  // ---------------------------------------------------------------- the server's upload

  predicate HandoverOK(srv: Server) {
    && (srv.handover.Running? <==> srv.w.up.state.HandingOver?)
    && (srv.w.up.state.Receiving() ==> srv.handover.NotStarted?)
    && (srv.w.up.state.Finished? ==> srv.handover == Ended(true))
    && (srv.handover == Ended(true) ==> srv.w.up.state.Finished? || srv.w.up.state.CleanedUp?)
  }

  /** The file holds exactly the received prefix of the client's file; while a handler is giving up after
      a failed chunk, it may hold more of the client's file than is counted as received. */
  predicate ServerOK(p: Params, srv: Server, failing: bool) {
    var up := srv.w.up;
    && up.id == p.id && up.dir == p.dir
    && up.filePos <= |p.file|
    && (up.state.Uploading? || up.state.Paused? || up.state.HandingOver? ==> up.fileSize == |p.file|)
    && (up.fd.Open? ==> up.state.Uploading?)
    && HandoverOK(srv) && (!srv.handover.NotStarted? ==> up.filePos == up.fileSize == |p.file|)
    && (up.state.Init? ==> up.PartPath() !in srv.w.files)
    && (if failing then !up.state.HandingOver? && !up.state.Finished?
                        && (up.state.Receiving() ==> HoldsPrefix(srv.w, p.file))
        else Holds(srv.w, p.file[..up.filePos]))
  }

  predicate HandedOK(p: Params, s: Sys) {
    && (s.handed.Some? <==> !s.srv.handover.NotStarted?)
    && (s.handed.Some? ==>
          s.handed.value == Handed(if p.file == [] then "" else s.srv.w.up.FinalPath(), p.file))
  }

  // ---------------------------------------------------------------- a connection

  /** A message the browser may have sent before it got the upload config. */
  predicate Quiet(p: Params, m: ClientMsg) {
    m == UploadReq(p.id, |p.file|) || m.Cancel? || m.Pause?
  }

  predicate GoodMsg(p: Params, m: ClientMsg) {
    Quiet(p, m) || m == Ack(true) || (m.Chunk? && 0 < |m.data| <= ChunkBytes(p))
  }

  predicate GoodReply(p: Params, srv: Server, m: ServerMsg) {
    && !m.ServerCancel?
    && (m.ChunkAck? ==> 0 < m.size <= ChunkBytes(p))
    && (m.AllDone? ==> srv.handover == Ended(true))
    && (m.UploadConf? ==> m.chunkKB == p.cfg.chunkKB && m.sendAhead == p.cfg.sendAhead
                          && m.filePos <= srv.w.up.filePos)
  }

  /** The unread chunks continue the client's file where the server's copy ends. */
  predicate InFlight(file: Bytes, filePos: nat, q: seq<ClientMsg>)
    decreases |q|
  {
    if q == [] then filePos <= |file|
    else if q[0].Chunk? then
      filePos + |q[0].data| <= |file| && q[0].data == file[filePos..filePos + |q[0].data|]
      && InFlight(file, filePos + |q[0].data|, q[1..])
    else InFlight(file, filePos, q[1..])
  }

  /** An unread cancel message lies behind chunks that do not complete the file. */
  predicate CancelInTime(p: Params, filePos: nat, q: seq<ClientMsg>) {
    Cancel in q ==> filePos + Size(q) < |p.file|
  }

  predicate PhaseOK(p: Params, srv: Server, conn: Conn) {
    var filePos := srv.w.up.filePos;
    match conn.phase
    case AwaitReq => conn.s2c == [] && (forall m :: m in conn.c2s ==> Quiet(p, m))
    case AwaitAck =>
      && srv.w.up.fileSize == |p.file| && InFlight(p.file, filePos, conn.c2s)
      && (conn.s2c == [] || (conn.s2c == [UploadConf(p.cfg.chunkKB, filePos, p.cfg.sendAhead)]
                             && (forall m :: m in conn.c2s ==> Quiet(p, m))))
      && (conn.c2s != [] && conn.c2s[0].Ack? ==> CancelInTime(p, filePos, conn.c2s))
    case Receive =>
      && srv.w.up.fileSize == |p.file| && InFlight(p.file, filePos, conn.c2s)
      && CancelInTime(p, filePos, conn.c2s)
      && (forall m :: m in conn.s2c ==> m.ChunkAck?)
    case AwaitHandover =>
      && filePos == |p.file| && Size(conn.c2s) == 0 && Cancel !in conn.c2s && Chunks(conn.c2s) == 0
    case _ => true
  }

  predicate ConnOK(p: Params, srv: Server, conn: Conn) {
    && (forall m :: m in conn.c2s ==> GoodMsg(p, m))
    && (forall m :: m in conn.s2c ==> GoodReply(p, srv, m))
    && PhaseOK(p, srv, conn)
  }

  // ---------------------------------------------------------------- the browser

  predicate Transferring(conn: Conn) {
    conn.alive && (conn.phase.AwaitAck? || conn.phase.Receive? || conn.phase.AwaitHandover?)
  }

  /** Bytes and chunks are conserved: sent = stored + unread, stored = acknowledged + unprocessed. */
  predicate Conserved(filePos: nat, conn: Conn, n: Sender.Counters) {
    && n.bytesTx == filePos + Size(conn.c2s)
    && filePos == n.bytesAcked + AckedBytes(conn.s2c)
    && n.chunksAhead == Chunks(conn.c2s) + Acks(conn.s2c)
  }

  predicate LoadOK(p: Params, c: Sender.Client) {
    c.loading.Some? ==>
      && c.loading.value == Sender.Slice(c.n.bytesTx, Min(c.n.bytesTx + ChunkBytes(p), |p.file|))
      && c.n.bytesTx < |p.file| && c.n.chunksAhead < p.cfg.sendAhead && !c.f.cancelling
  }

  predicate CountersOK(p: Params, c: Sender.Client) {
    && c.conf.Some? && c.conf.value.chunkKB == p.cfg.chunkKB && c.conf.value.sendAhead == p.cfg.sendAhead
    && c.n.bytesAcked < |p.file|
    && c.n.bytesAhead == c.n.bytesTx - c.n.bytesAcked
    && c.n.chunksAhead <= p.cfg.sendAhead
    && c.n.bytesTx == Min(|p.file|, c.conf.value.filePos + c.n.chunksTxNow * ChunkBytes(p))
    && (c.f.canCancel ==> c.n.bytesTx < |p.file|)
  }

  predicate CurOK(p: Params, srv: Server, conn: Conn, c: Sender.Client) {
    var filePos := srv.w.up.filePos;
    && (Cancel in conn.c2s ==> c.f.cancelling)
    && match c.onMessage
       case Nothing => false
       case RecvConfig =>
         && c.loading.None? && c.n.bytesAhead == 0 && c.n.chunksAhead == 0 && c.n.chunksTxNow == 0
         && (conn.phase.AwaitReq? || conn.phase.AwaitAck? || conn.phase.Done?)
         && (forall m :: m in conn.c2s ==> Quiet(p, m))
         && (forall m :: m in conn.s2c ==> !m.ChunkAck? && (m.UploadConf? ==> c.n.bytesAcked <= m.filePos))
         && (conn.phase.AwaitAck? && conn.alive ==> conn.s2c != [])
       case RecvChunkAcks =>
         && CountersOK(p, c) && LoadOK(p, c)
         && !conn.phase.AwaitReq? && (conn.phase.AwaitAck? ==> conn.s2c == [])
         && c.n.bytesAcked + AckedBytes(conn.s2c) + Size(conn.c2s) <= c.n.bytesTx
         && c.n.bytesAcked + AckedBytes(conn.s2c) <= filePos
         && (Transferring(conn) ==> Conserved(filePos, conn, c.n))
       case RecvFinal =>
         && c.loading.None? && c.n.bytesAcked == |p.file| && !c.f.canCancel && !conn.phase.AwaitReq?
         && (conn.phase.AwaitAck? ==> conn.s2c == [])
  }

  predicate ClientOK(p: Params, srv: Server, c: Sender.Client) {
    && c.n.bytesAcked <= srv.w.up.filePos
    && (c.f.finished ==> srv.handover == Ended(true))
    && (c.loading.Some? ==> c.conf.Some?)
  }

  // ---------------------------------------------------------------- all of it

  predicate OwnerOK(s: Sys) {
    && (s.owner.Some? ==> s.owner.value in s.conns)
    && (s.srv.w.up.bound <==> s.owner.Some?)
    && (forall i :: i in s.conns ==> (s.conns[i].phase.Bound() <==> s.owner == Some(i)))
  }

  predicate IsFailing(s: Sys) {
    s.owner.Some? && s.owner.value in s.conns && s.conns[s.owner.value].phase.Failing?
  }

  predicate CurrentOK(p: Params, s: Sys) {
    && (s.c.ws.Open? <==> s.cur.Some?)
    && (s.cur.Some? ==> s.cur.value in s.conns && CurOK(p, s.srv, s.conns[s.cur.value], s.c))
    && (s.c.ws.Connecting? ==> s.c.n.bytesAhead == 0 && s.c.n.chunksAhead == 0 && s.c.n.chunksTxNow == 0
                               && s.c.loading.None?)
    && (forall i :: i in s.conns && s.cur != Some(i) ==> !s.conns[i].alive)
  }

  predicate Inv(p: Params, s: Sys) {
    && ServerOK(p, s.srv, IsFailing(s)) && HandedOK(p, s)
    && OwnerOK(s)
    && (forall i :: i in s.conns ==> ConnOK(p, s.srv, s.conns[i]))
    && ClientOK(p, s.srv, s.c) && CurrentOK(p, s)
  }

  lemma InitialInv(p: Params)
    ensures Inv(p, Initial(p))
  {
  }
}
