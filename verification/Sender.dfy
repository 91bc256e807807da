/** The browser's uploader object: first what each event does to its variables, as functions, then
    the object itself, proved against them. */
module Sender {
  import opened Protocol

  datatype Socket = NoSocket | Connecting | Open | Closing

  /** The function installed as `ws.onmessage`, underneath the wrapper that awaits a cancel ack. */
  datatype OnMessage = Nothing | RecvConfig | RecvChunkAcks | RecvFinal

  datatype Conf = Conf(chunkKB: nat, filePos: nat, sendAhead: nat)

  /** A piece of the file that the file reader is loading. */
  datatype Slice = Slice(from: nat, to: nat)

  /** The progress properties of an uploader. */
  datatype Counters = Counters(bytesTx: nat, bytesAcked: nat, bytesAhead: int,
                               chunksAhead: int, chunksTxNow: nat)

  /** Its flags; `failed` says that an error code is set. */
  datatype Flags = Flags(finished: bool, cancelled: bool, cancelling: bool,
                         canCancel: bool, paused: bool, failed: bool)

  datatype Client = Client(
    ws: Socket, onMessage: OnMessage, awaitingCancelAck: bool, retryPending: bool,
    conf: Option<Conf>, loading: Option<Slice>, n: Counters, f: Flags)

  /** What one event leads to: the new variables and the messages sent. */
  datatype Turn = Turn(c: Client, out: seq<ClientMsg>)

  const FRESH: Client :=
    Client(NoSocket, Nothing, false, false, None, None, Counters(0, 0, 0, 0, 0),
           Flags(false, false, false, true, false, false))

  function ChunkSize(conf: Conf): nat {
    conf.chunkKB * 1024
  }

  /** `file.slice`. */
  function SliceOf(file: Bytes, s: Slice): Bytes {
    if s.from <= s.to <= |file| then file[s.from..s.to] else []
  }

  function TryLoad(c: Client, total: nat): Client
    requires c.conf.Some?
  {
    if c.n.chunksAhead < c.conf.value.sendAhead && c.loading.None? && c.n.bytesTx < total && !c.f.cancelling
    then c.(loading := Some(Slice(c.n.bytesTx, Min(c.n.bytesTx + ChunkSize(c.conf.value), total))))
    else c
  }

  function CountSent(n: Counters, size: nat): Counters {
    n.(bytesTx := n.bytesTx + size, bytesAhead := n.bytesAhead + size,
       chunksTxNow := n.chunksTxNow + 1, chunksAhead := n.chunksAhead + 1)
  }

  function CountAcked(n: Counters, size: nat): Counters {
    n.(bytesAcked := n.bytesAcked + size, bytesAhead := n.bytesAhead - size, chunksAhead := n.chunksAhead - 1)
  }

  function OnLoad(c: Client, file: Bytes): Turn
    requires c.loading.Some? && c.conf.Some?
  {
    var buf := SliceOf(file, c.loading.value);
    var c0 := c.(loading := None);
    if c.f.cancelling || c.f.cancelled || c.f.paused || !c.ws.Open? then Turn(c0, [])
    else
      var c1 := c0.(n := CountSent(c.n, |buf|));
      var c2 := if c1.n.bytesTx == |file| then c1.(f := c.f.(canCancel := false)) else c1;
      Turn(TryLoad(c2, |file|), [Chunk(buf)])
  }

  function CancelUploader(c: Client): Turn {
    if c.f.cancelled || !c.f.canCancel then Turn(c, [])
    else
      var c0 := c.(loading := None, retryPending := false);
      if c.ws.Open?
      then Turn(c0.(f := c.f.(cancelling := true, canCancel := false), awaitingCancelAck := true), [Cancel])
      else Turn(c0.(f := c.f.(cancelled := true, failed := true, canCancel := false)), [])
  }

  function OnLoadError(c: Client): Turn {
    var c0 := c.(loading := None);
    if c.f.cancelled then Turn(c0, []) else CancelUploader(c0)
  }

  function FailUploader(c: Client): Turn {
    CancelUploader(c.(f := c.f.(failed := true)))
  }

  function ReceiveConfig(c: Client, m: ServerMsg, total: nat): Turn {
    if m.ServerError? then FailUploader(c)
    else if m.UploadConf? then
      var c0 := c.(conf := Some(Conf(m.chunkKB, m.filePos, m.sendAhead)),
                   n := c.n.(bytesAcked := m.filePos, bytesTx := m.filePos));
      if m.filePos == total
      then Turn(c0.(f := c.f.(canCancel := false), onMessage := RecvFinal), [Ack(true)])
      else Turn(TryLoad(c0.(onMessage := RecvChunkAcks), total), [Ack(true)])
    else Turn(c, [])
  }

  function ReceiveChunkAck(c: Client, m: ServerMsg, total: nat): Turn
    requires c.conf.Some?
  {
    if m.ChunkAck? then
      var c0 := c.(n := CountAcked(c.n, m.size));
      Turn(if c0.n.bytesAcked == total then c0.(onMessage := RecvFinal) else TryLoad(c0, total), [])
    else if m.ServerError? then FailUploader(c)
    else if m.ServerCancel? then CancelUploader(c)
    else Turn(c, [])
  }

  function ReceiveFinal(c: Client, m: ServerMsg): Turn {
    if m.AllDone? then Turn(c.(f := c.f.(finished := true), ws := Closing), [])
    else if m.ServerError? then Turn(c.(f := c.f.(failed := true), ws := Closing), [])
    else Turn(c, [])
  }

  /** The usual handler, or the wrapper around it while a cancel ack is awaited. */
  function Receive(c: Client, m: ServerMsg, total: nat): Turn
    requires c.onMessage.RecvChunkAcks? ==> c.conf.Some?
  {
    if c.awaitingCancelAck && m.CancelAck? then
      Turn(c.(f := c.f.(cancelled := true, cancelling := false, canCancel := false), ws := Closing), [])
    else match c.onMessage
      case Nothing => Turn(c, [])
      case RecvConfig => ReceiveConfig(c, m, total)
      case RecvChunkAcks => ReceiveChunkAck(c, m, total)
      case RecvFinal => ReceiveFinal(c, m)
  }

  function Start(c: Client): Client {
    c.(ws := Connecting, onMessage := Nothing, awaitingCancelAck := false, retryPending := false,
       n := Counters(c.n.bytesAcked, c.n.bytesAcked, 0, 0, 0),
       f := c.f.(paused := false, canCancel := true))
  }

  function OnOpen(c: Client, id: string, total: nat): Turn {
    Turn(c.(ws := Open, onMessage := RecvConfig), [UploadReq(id, total)])
  }

  function OnClose(c: Client): Client {
    if c.f.paused || c.f.finished || c.f.cancelled || c.f.failed then c.(ws := NoSocket)
    else c.(ws := NoSocket, retryPending := true)
  }

  /** pause("pause"). */
  function PauseUploader(c: Client): Turn {
    if c.f.finished || c.f.cancelled || c.f.paused then Turn(c, [])
    else
      var c0 := c.(loading := None, retryPending := false, f := c.f.(paused := true, canCancel := false));
      if c.ws.Open? then Turn(c0.(ws := Closing), [Pause]) else Turn(c0, [])
  }

  /** If an uploader is restarted before the old socket's close event has been handled, that event
      takes the new socket away, because all sockets share one variable. */
  lemma EarlyRestartLosesSocket(c: Client)
    requires c.ws.Closing? && c.f.paused && !c.f.finished && !c.f.cancelled && !c.f.failed
    ensures Start(c).ws.Connecting?
    ensures OnClose(Start(c)).ws.NoSocket? && OnClose(Start(c)).retryPending
    ensures Start(OnClose(c)).ws.Connecting?
  {
  }

  /** Once the handshake is over, a cancel message is the last one on its socket, except that a pause
      may follow it, which closes the socket. */
  lemma CancelIsLastMessage(c: Client, file: Bytes, m: ServerMsg)
    requires c.f.cancelling && !c.f.canCancel && c.conf.Some?
    requires c.onMessage.RecvChunkAcks? || c.onMessage.RecvFinal?
    ensures c.loading.Some? ==> OnLoad(c, file) == Turn(c.(loading := None), [])
    ensures OnLoadError(c).out == [] && CancelUploader(c).out == [] && Receive(c, m, |file|).out == []
    ensures PauseUploader(c).out == [] || (PauseUploader(c).out == [Pause] && PauseUploader(c).c.ws.Closing?)
    ensures var c' := Receive(c, m, |file|).c;
            && (c.awaitingCancelAck && m.CancelAck? ==> c'.f.cancelled && c'.ws.Closing?)
            && (!(c.awaitingCancelAck && m.CancelAck?) ==>
                  c'.f.cancelling && !c'.f.canCancel && c'.loading == c.loading
                  && (c'.onMessage.RecvChunkAcks? || c'.onMessage.RecvFinal?))
  {
  }

  class Uploader {
    const uploadId: string
    const file: Bytes

    var ws: Socket
    var onMessage: OnMessage
    var awaitingCancelAck: bool
    var connRetry: bool
    var uploadConf: Option<Conf>
    var loading: Option<Slice>
    var count: Counters
    var flags: Flags
    var sent: seq<ClientMsg>  // over the current socket

    function View(): Client
      reads this
    {
      Client(ws, onMessage, awaitingCancelAck, connRetry, uploadConf, loading, count, flags)
    }

    constructor (uploadId: string, file: Bytes)
      ensures this.uploadId == uploadId && this.file == file
      ensures View() == FRESH && sent == []
    {
      this.uploadId := uploadId;
      this.file := file;
      ws, onMessage, awaitingCancelAck, connRetry := NoSocket, Nothing, false, false;
      uploadConf, loading := None, None;
      count := Counters(0, 0, 0, 0, 0);
      flags := Flags(false, false, false, true, false, false);
      sent := [];
    }

    method TryLoadAndSendFileChunk()
      requires uploadConf.Some?
      modifies this`loading
      ensures View() == TryLoad(old(View()), |file|)
    {
      if count.chunksAhead < uploadConf.value.sendAhead && loading.None? && count.bytesTx < |file|
         && !flags.cancelling {
        var end := count.bytesTx + uploadConf.value.chunkKB * 1024;
        if end > |file| {
          end := |file|;
        }
        loading := Some(Slice(count.bytesTx, end));
      }
    }

    method OnLoaded()
      requires loading.Some? && uploadConf.Some?
      modifies this`loading, this`count, this`flags, this`sent
      ensures var t := OnLoad(old(View()), file);
              View() == t.c && sent == old(sent) + t.out
    {
      var buf := SliceOf(file, loading.value);
      loading := None;
      if !flags.cancelling && !flags.cancelled && !flags.paused && ws.Open? {
        sent := sent + [Chunk(buf)];
        count := count.(bytesTx := count.bytesTx + |buf|);
        count := count.(bytesAhead := count.bytesAhead + |buf|);
        count := count.(chunksTxNow := count.chunksTxNow + 1);
        count := count.(chunksAhead := count.chunksAhead + 1);
        if count.bytesTx == |file| {
          flags := flags.(canCancel := false);
        }
        TryLoadAndSendFileChunk();
      }
    }

    method OnLoadFailed()
      modifies this`loading, this`flags, this`sent, this`awaitingCancelAck, this`connRetry
      ensures var t := OnLoadError(old(View()));
              View() == t.c && sent == old(sent) + t.out
    {
      loading := None;
      if !flags.cancelled {
        CancelUpload();
      }
    }

    method CancelUpload()
      modifies this`loading, this`flags, this`sent, this`awaitingCancelAck, this`connRetry
      ensures var t := CancelUploader(old(View()));
              View() == t.c && sent == old(sent) + t.out
    {
      if !flags.cancelled && flags.canCancel {
        loading := None;
        if ws.Open? {
          flags := flags.(cancelling := true);
          sent := sent + [Cancel];
          awaitingCancelAck := true;
        } else {
          flags := flags.(cancelled := true, failed := true);
        }
        flags := flags.(canCancel := false);
        connRetry := false;
      }
    }

    method RecvMessage(m: ServerMsg)
      requires onMessage.RecvChunkAcks? ==> uploadConf.Some?
      modifies this
      ensures var t := Receive(old(View()), m, |file|);
              View() == t.c && sent == old(sent) + t.out
    {
      if awaitingCancelAck && m.CancelAck? {
        flags := flags.(cancelled := true, cancelling := false, canCancel := false);
        ws := Closing;
        return;
      }
      match onMessage {
        case Nothing =>
        case RecvConfig => RecvConfigMessage(m);
        case RecvChunkAcks => RecvChunkAckMessage(m);
        case RecvFinal => RecvFinalMessage(m);
      }
    }

    method RecvConfigMessage(m: ServerMsg)
      modifies this
      ensures var t := ReceiveConfig(old(View()), m, |file|);
              View() == t.c && sent == old(sent) + t.out
    {
      if m.ServerError? {
        flags := flags.(failed := true);
        CancelUpload();
      } else if m.UploadConf? {
        uploadConf := Some(Conf(m.chunkKB, m.filePos, m.sendAhead));
        count := count.(bytesAcked := m.filePos);
        count := count.(bytesTx := count.bytesAcked);
        sent := sent + [Ack(true)];
        if count.bytesAcked == |file| {
          flags := flags.(canCancel := false);
          onMessage := RecvFinal;
        } else {
          onMessage := RecvChunkAcks;
          TryLoadAndSendFileChunk();
        }
      }
    }

    method RecvChunkAckMessage(m: ServerMsg)
      requires uploadConf.Some?
      modifies this
      ensures var t := ReceiveChunkAck(old(View()), m, |file|);
              View() == t.c && sent == old(sent) + t.out
    {
      if m.ChunkAck? {
        count := count.(bytesAcked := count.bytesAcked + m.size);
        count := count.(bytesAhead := count.bytesAhead - m.size);
        count := count.(chunksAhead := count.chunksAhead - 1);
        if count.bytesAcked == |file| {
          onMessage := RecvFinal;
        } else {
          TryLoadAndSendFileChunk();
        }
      } else if m.ServerError? {
        flags := flags.(failed := true);
        CancelUpload();
      } else if m.ServerCancel? {
        CancelUpload();
      }
    }

    method RecvFinalMessage(m: ServerMsg)
      modifies this`flags, this`ws
      ensures View() == ReceiveFinal(old(View()), m).c
    {
      if m.AllDone? {
        flags := flags.(finished := true);
        ws := Closing;
      } else if m.ServerError? {
        flags := flags.(failed := true);
        ws := Closing;
      }
    }

    method StartUpload()
      modifies this
      ensures View() == Start(old(View())) && sent == []
    {
      count := count.(chunksTxNow := 0);
      count := count.(bytesTx := count.bytesAcked);
      count := count.(chunksAhead := 0, bytesAhead := 0);
      flags := flags.(paused := false, canCancel := true);
      connRetry := false;
      ws, onMessage, awaitingCancelAck, sent := Connecting, Nothing, false, [];
    }

    method OnOpened()
      requires ws.Connecting?
      modifies this`ws, this`sent, this`onMessage
      ensures var t := OnOpen(old(View()), uploadId, |file|);
              View() == t.c && sent == old(sent) + t.out
    {
      ws := Open;
      sent := sent + [UploadReq(uploadId, |file|)];
      onMessage := RecvConfig;
    }

    method OnClosed()
      modifies this`ws, this`connRetry
      ensures View() == OnClose(old(View()))
    {
      ws := NoSocket;
      if flags.paused || flags.finished || flags.cancelled || flags.failed {
        return;
      }
      connRetry := true;
    }

    method PauseUpload()
      modifies this`connRetry, this`loading, this`sent, this`ws, this`flags
      ensures var t := PauseUploader(old(View()));
              View() == t.c && sent == old(sent) + t.out
    {
      if flags.finished || flags.cancelled || flags.paused {
        return;
      }
      connRetry := false;
      loading := None;
      if ws.Open? {
        sent := sent + [Pause];
        ws := Closing;
      }
      flags := flags.(paused := true, canCancel := false);
    }
  }
}
