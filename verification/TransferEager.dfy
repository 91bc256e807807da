/** The browser's uploader is never idle while it may send: an invariant on top of TransferInv.dfy. */
module TransferEager {
  import opened Protocol
  import opened Session
  import opened Transfer
  import opened TransferInv
  import TransferClient
  import Sender

  /** The uploader wants to send. */
  predicate Active(c: Sender.Client) {
    !c.f.cancelling && !c.f.cancelled && !c.f.paused
  }

  /** It can be cancelled as long as it has bytes to send, and unless it is loading, the window is full
      or everything is sent. */
  predicate Eager(p: Params, c: Sender.Client) {
    Active(c) ==>
      && (c.ws.Connecting? || (c.ws.Open? && c.onMessage.RecvConfig?) ==> c.f.canCancel)
      && (c.ws.Open? && c.onMessage.RecvChunkAcks? ==>
            && (c.n.bytesTx < |p.file| ==> c.f.canCancel)
            && (c.loading.None? ==> c.n.chunksAhead >= p.cfg.sendAhead || c.n.bytesTx == |p.file|))
  }

  /** What the invariant says of an uploader with an open socket. */
  predicate InSession(p: Params, c: Sender.Client) {
    c.ws.Open? ==>
      && (c.loading.Some? ==> c.onMessage.RecvChunkAcks?)
      && (c.onMessage.RecvChunkAcks? ==> CountersOK(p, c) && LoadOK(p, c) && c.n.bytesTx <= |p.file|)
  }

  lemma InSessionHolds(p: Params, s: Sys)
    requires Inv(p, s)
    ensures InSession(p, s.c)
  {
    if s.c.ws.Open? {
      assert CurOK(p, s.srv, s.conns[s.cur.value], s.c);
    }
  }

  lemma CancelStaysEager(p: Params, c: Sender.Client)
    requires Eager(p, c)
    ensures Eager(p, Sender.CancelUploader(c).c)
  {
  }

  lemma LoadStaysEager(p: Params, c: Sender.Client)
    requires Sane(p) && Eager(p, c) && InSession(p, c) && c.loading.Some? && c.conf.Some? && !c.ws.Connecting?
    ensures Eager(p, Sender.OnLoad(c, p.file).c)
  {
    if c.ws.Open? && Active(c) {
      TransferClient.SliceFacts(p, c);
    }
  }

  lemma BrokenLoadStaysEager(p: Params, c: Sender.Client)
    requires Eager(p, c) && InSession(p, c) && c.loading.Some? && !c.ws.Connecting?
    ensures Eager(p, Sender.OnLoadError(c).c)
  {
  }

  lemma AckStaysEager(p: Params, c: Sender.Client, m: ServerMsg)
    requires Sane(p) && Eager(p, c) && InSession(p, c) && c.ws.Open? && c.onMessage.RecvChunkAcks? && !m.ServerCancel?
    ensures Eager(p, Sender.ReceiveChunkAck(c, m, |p.file|).c)
  {
    if m.ServerError? {
      CancelStaysEager(p, c.(f := c.f.(failed := true)));
    }
  }

  lemma ConfigStaysEager(p: Params, c: Sender.Client, m: ServerMsg)
    requires Eager(p, c) && InSession(p, c) && c.ws.Open? && c.onMessage.RecvConfig?
    requires m.UploadConf? ==> m.sendAhead == p.cfg.sendAhead && m.filePos <= |p.file|
    ensures Eager(p, Sender.ReceiveConfig(c, m, |p.file|).c)
  {
    if m.ServerError? {
      CancelStaysEager(p, c.(f := c.f.(failed := true)));
    }
  }

  lemma ReceiveStaysEager(p: Params, c: Sender.Client, m: ServerMsg)
    requires Sane(p) && Eager(p, c) && InSession(p, c) && c.ws.Open? && !m.ServerCancel?
    requires c.onMessage.RecvChunkAcks? ==> c.conf.Some?
    requires m.UploadConf? ==> m.sendAhead == p.cfg.sendAhead && m.filePos <= |p.file|
    ensures Eager(p, Sender.Receive(c, m, |p.file|).c)
  {
    if !(c.awaitingCancelAck && m.CancelAck?) {
      match c.onMessage
      case RecvConfig => ConfigStaysEager(p, c, m);
      case RecvChunkAcks => AckStaysEager(p, c, m);
      case _ =>
    }
  }

  lemma DeliveryStaysEager(p: Params, s: Sys)
    requires Sane(p) && Inv(p, s) && Enabled(s, Delivers) && Eager(p, s.c)
    ensures Eager(p, Apply(p, s, Delivers).c)
  {
    var conn := s.conns[s.cur.value];
    InSessionHolds(p, s);
    TransferClient.TakenConn(p, s.srv, conn);
    ReceiveStaysEager(p, s.c, conn.s2c[0]);
  }

  /** Nothing but its own events changes the uploader. */
  lemma OthersLeaveClient(p: Params, s: Sys, e: Event)
    requires Enabled(s, e)
    requires e.ServerSteps? || e.Breaks? || e.HandoverEnds? || e.BackendCancels? || e.TimesOut?
    ensures Apply(p, s, e).c == s.c
  {
  }

  lemma StepStaysEager(p: Params, s: Sys, e: Event)
    requires Sane(p) && Inv(p, s) && Enabled(s, e) && Eager(p, s.c)
    ensures Eager(p, Apply(p, s, e).c)
  {
    InSessionHolds(p, s);
    match e
    case Starts(byUser) =>
    case Opens(sid) =>
    case LoadDone => LoadStaysEager(p, s.c);
    case LoadBroke => BrokenLoadStaysEager(p, s.c);
    case Delivers => DeliveryStaysEager(p, s);
    case UserCancels => CancelStaysEager(p, s.c);
    case UserPauses =>
    case SocketCloses =>
    case _ => OthersLeaveClient(p, s, e);
  }
}
