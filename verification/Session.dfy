/** One websocket connection on the server: the handler as a step function over the messages it
    reads, and the handler's routine, proved to run exactly those steps. */
module Session {
  import opened Protocol
  import opened UploadSpec
  import opened LocalFileUploads
  import opened Pools

  /** Where the handler of a connection stands. */
  datatype Phase = AwaitReq | AwaitAck | Receive | Failing | AwaitHandover | Done {
    /** Between a successful bind and the deferred unbind. */
    predicate Bound() {
      !AwaitReq? && !Done?
    }

    function Rank(): nat {
      match this
      case AwaitReq => 5
      case AwaitAck => 4
      case Receive => 3
      case Failing => 2
      case AwaitHandover => 1
      case Done => 0
    }
  }

  /** A connection: what is on its way to the server, what is on its way back, and whether the
      socket still works. Nothing sent over a broken socket arrives. */
  datatype Conn = Conn(c2s: seq<ClientMsg>, s2c: seq<ServerMsg>, alive: bool, phase: Phase)

  /** Whether the handover routine runs, or how it ended. */
  datatype Handover = NotStarted | Running | Ended(ok: bool)

  datatype Server = Server(w: World, pooled: bool, handover: Handover)

  datatype Step = Step(srv: Server, conn: Conn)

  datatype Config = Config(chunkKB: nat, sendAhead: nat) {
    /** The longest message a connection reads; a longer one is a read error. */
    function ReadLimit(): nat {
      chunkKB * 1024 + 4096
    }
  }

  /** What the surroundings decide in one step: the system calls, whether an operation on the socket
      fails, whether the handler hears from the socket before it hears from the handover routine, and
      whether it is the one receiver that gets the routine's error. */
  datatype Env = Env(io: IO, socketError: bool, fromSocket: bool, takesError: bool)

  predicate NoFault(io: IO) {
    io.createOk && io.openOk && io.writeOk && io.renameOk
  }

  function Reply(conn: Conn, m: ServerMsg): Conn {
    if conn.alive then conn.(s2c := conn.s2c + [m]) else conn
  }

  function Pop(conn: Conn): Conn
    requires conn.c2s != []
  {
    conn.(c2s := conn.c2s[1..])
  }

  function SetBound(srv: Server, b: bool): Server {
    srv.(w := srv.w.(up := srv.w.up.(bound := b)))
  }

  /** Returning from the handler unbinds the upload. */
  function Leave(srv: Server, conn: Conn): Step {
    Step(SetBound(srv, false), conn.(phase := Done))
  }

  function LeaveWith(srv: Server, conn: Conn, m: ServerMsg): Step {
    Leave(srv, Reply(conn, m))
  }

  /** CleanUp also takes the upload out of the pool. */
  function CleanUpServer(srv: Server, removeOk: bool): Server {
    srv.(w := CleanUpUpload(srv.w, removeOk), pooled := srv.pooled && !MayCleanUp(srv.w.up.state))
  }

  function Abort(srv: Server, removeOk: bool): Server {
    CleanUpServer(srv.(w := CancelUpload(srv.w, removeOk)), removeOk)
  }

  /** Nothing to read: the handler waits, unless the socket is broken or the read times out. */
  predicate Silent(conn: Conn, env: Env) {
    conn.c2s == [] && conn.alive && !env.socketError
  }

  function OnRequest(srv: Server, conn: Conn, cfg: Config, env: Env): Step {
    if Silent(conn, env) then Step(srv, conn)
    else if conn.c2s == [] then Step(srv, Reply(conn, ServerError).(phase := Done))
    else
      var m := conn.c2s[0];
      var rest := Pop(conn);
      if !m.UploadReq? || m.id != srv.w.up.id || !srv.pooled || srv.w.up.bound
      then Step(srv, Reply(rest, ServerError).(phase := Done))
      else Accept(SetBound(srv, true), rest, m.length, cfg)
  }

  /** Bound: fix the size of a new upload, check it for one that is resumed, and offer to continue. */
  function Accept(srv: Server, conn: Conn, length: int, cfg: Config): Step {
    var up := srv.w.up;
    if !up.state.Init? && up.fileSize != length then LeaveWith(srv, conn, ServerError)
    else if up.state.Rank() >= Cancelled.Rank() then LeaveWith(srv, conn, ServerError)
    else
      var srv' := if up.state.Init? then srv.(w := srv.w.(up := up.(fileSize := length))) else srv;
      Step(srv', Reply(conn, UploadConf(cfg.chunkKB, up.filePos, cfg.sendAhead)).(phase := AwaitAck))
  }

  function OnAck(srv: Server, conn: Conn, env: Env): Step {
    if Silent(conn, env) then Step(srv, conn)
    else if conn.c2s == [] then LeaveWith(srv, conn, ServerError)
    else if conn.c2s[0] == Ack(true) then Step(srv, Pop(conn).(phase := Receive))
    else LeaveWith(srv, Pop(conn), ServerError)
  }

  /** One turn of the receive loop, or the way out of it once the file is complete. */
  function OnReceive(srv: Server, conn: Conn, cfg: Config, env: Env): Step {
    if srv.w.up.filePos == srv.w.up.fileSize then
      Step(srv.(w := StartHandover(srv.w),
                handover := if srv.w.up.state.Receiving() then Running else srv.handover),
           conn.(phase := AwaitHandover))
    else if Silent(conn, env) then Step(srv, conn)
    else if conn.c2s == [] then LeaveWith(srv, conn, ServerError)
    else OnFrame(srv, Pop(conn), cfg, conn.c2s[0], env.io)
  }

  predicate Oversized(cfg: Config, m: ClientMsg) {
    m.Chunk? && |m.data| > cfg.ReadLimit()
  }

  function OnFrame(srv: Server, conn: Conn, cfg: Config, m: ClientMsg, io: IO): Step {
    match m
    case Chunk(data) => if Oversized(cfg, m) then LeaveWith(srv, conn, ServerError) else OnChunk(srv, conn, data, io)
    case Pause => Step(srv.(w := PauseUpload(srv.w)), conn)
    case Cancel => LeaveWith(Abort(srv, io.removeOk), conn, CancelAck)
    case ClientError => Leave(Abort(srv, io.removeOk), conn)
    case _ => LeaveWith(srv, conn, ServerError)
  }

  function OnChunk(srv: Server, conn: Conn, data: Bytes, io: IO): Step {
    var c := Consume(srv.w, data, io);
    if c.err.None? then Step(srv.(w := c.w), Reply(conn, ChunkAck(|data|)))
    else Step(srv.(w := c.w), Reply(conn, ServerError).(phase := Failing))
  }

  /** After a chunk could not be consumed the upload is cancelled, whatever the reason. */
  function OnFailing(srv: Server, conn: Conn, env: Env): Step {
    Leave(if srv.w.up.state.Cancelled? then srv else Abort(srv, env.io.removeOk), conn)
  }

  /** Waiting for the handover routine. Only one receiver gets its error; any other reads a closed
      channel and looks at the state instead. */
  function OnHandover(srv: Server, conn: Conn, cfg: Config, env: Env): Step {
    if env.fromSocket then
      if conn.c2s != [] then if Oversized(cfg, conn.c2s[0]) then Leave(srv, Pop(conn)) else Step(srv, Pop(conn))
      else if conn.alive && !env.socketError then Step(srv, conn)
      else Leave(srv, conn)
    else if !srv.handover.Ended? then Step(srv, conn)
    else if !srv.handover.ok && env.takesError then LeaveWith(srv, conn, ServerError)
    else
      var conn' := Reply(conn, if srv.w.up.state.Finished? then AllDone else ServerError);
      Leave(if conn.alive || !env.socketError then CleanUpServer(srv, env.io.removeOk) else srv, conn')
  }

  function ServerStep(srv: Server, conn: Conn, cfg: Config, env: Env): Step {
    match conn.phase
    case AwaitReq => OnRequest(srv, conn, cfg, env)
    case AwaitAck => OnAck(srv, conn, env)
    case Receive => OnReceive(srv, conn, cfg, env)
    case Failing => OnFailing(srv, conn, env)
    case AwaitHandover => OnHandover(srv, conn, cfg, env)
    case Done => Step(srv, conn)
  }

  /** A cancel that overtakes the client's ack is read as its absence: the client gets an error
      instead of a cancel ack, and the upload is left as it was. */
  lemma HandshakeCancelIsNack(srv: Server, conn: Conn, cfg: Config, env: Env)
    requires conn.phase.AwaitAck? && conn.alive && conn.c2s != [] && conn.c2s[0].Cancel?
    ensures var r := ServerStep(srv, conn, cfg, env);
            r.srv == SetBound(srv, false) && r.conn.phase.Done? && r.conn.s2c == conn.s2c + [ServerError]
  {
  }

  // ---------------------------------------------------------------- the routine

  /** The steps of one handler that nobody disturbs, up to the handover or its return. */
  function Serve(srv: Server, conn: Conn, cfg: Config, io: nat -> IO, k: nat): (r: Step)
    requires conn.alive
    decreases conn.phase.Rank(), |conn.c2s|
  {
    if conn.phase.Done? || conn.phase.AwaitHandover? then Step(srv, conn)
    else
      var s := ServerStep(srv, conn, cfg, Env(io(k), true, false, false));
      Serve(s.srv, s.conn, cfg, io, k + 1)
  }

  /** What happens while a handler waits for the handover: it looks at its two channels, or the
      handover routine comes to its end. */
  datatype Wake = Wakes(env: Env) | RoutineEnds(reply: LocalFileUploads.Reply, confirmed: bool)

  function EndRoutine(srv: Server, reply: LocalFileUploads.Reply, confirmed: bool): Server {
    if srv.handover.Running?
    then
      var ok := reply.ReplyDone? || (reply.ReplyWait? && confirmed);
      srv.(w := Settle(srv.w, ok), handover := Ended(ok))
    else srv
  }

  /** The steps of a handler from the handover to its return. */
  function Await(srv: Server, conn: Conn, cfg: Config, wakes: seq<Wake>): Step
    decreases |wakes|
  {
    if wakes == [] || !conn.phase.AwaitHandover? then Step(srv, conn)
    else match wakes[0]
      case Wakes(env) =>
        var s := OnHandover(srv, conn, cfg, env);
        Await(s.srv, s.conn, cfg, wakes[1..])
      case RoutineEnds(reply, confirmed) => Await(EndRoutine(srv, reply, confirmed), conn, cfg, wakes[1..])
  }

  class Connection {
    var incoming: seq<ClientMsg>
    var outgoing: seq<ServerMsg>

    constructor (messages: seq<ClientMsg>)
      ensures incoming == messages && outgoing == []
    {
      incoming := messages;
      outgoing := [];
    }

    /** A read fails once everything that arrived has been read. */
    method Recv() returns (m: Option<ClientMsg>)
      modifies this`incoming
      ensures m == if old(incoming) == [] then None else Some(old(incoming)[0])
      ensures incoming == if old(incoming) == [] then [] else old(incoming)[1..]
    {
      if incoming == [] {
        return None;
      }
      m := Some(incoming[0]);
      incoming := incoming[1..];
    }

    method Send(m: ServerMsg)
      modifies this`outgoing
      ensures outgoing == old(outgoing) + [m]
    {
      outgoing := outgoing + [m];
    }

    function View(phase: Phase): Conn
      reads this
    {
      Conn(incoming, outgoing, true, phase)
    }
  }

  class WebsocketHandler {
    const pool: LockedUploaderPool<UploadToLocalFile>
    const uploader: UploadToLocalFile
    const conn: Connection
    const cfg: Config
    var handover: Handover

    constructor (pool: LockedUploaderPool<UploadToLocalFile>, uploader: UploadToLocalFile, conn: Connection,
                 cfg: Config, handover: Handover)
      ensures this.pool == pool && this.uploader == uploader && this.conn == conn
      ensures this.cfg == cfg && this.handover == handover
    {
      this.pool := pool;
      this.uploader := uploader;
      this.conn := conn;
      this.cfg := cfg;
      this.handover := handover;
    }

    ghost predicate Valid()
      reads this, uploader
    {
      uploader.Valid() && uploader.pool == pool && (handover.Running? ==> uploader.state.HandingOver?)
    }

    function View(): Server
      reads this, uploader, uploader.disk, pool
    {
      Server(uploader.View(), uploader.id in pool.uploaders, handover)
    }

    /** Cancel(true, ...) and CleanUp(), as the handler calls them after an error or a cancel message. */
    method AbortUpload(removeOk: bool)
      requires Valid()
      modifies uploader, uploader.disk, pool, pool.uidPool
      ensures Valid() && View() == Abort(old(View()), removeOk)
    {
      var requestOk: bool := *;
      var _ := uploader.Cancel(true, removeOk, requestOk);
      var _ := uploader.CleanUp(removeOk);
    }

    method Unbind() returns (phase: Phase)
      requires Valid()
      modifies uploader`boundToSocketHandler
      ensures Valid() && phase == Done && View() == SetBound(old(View()), false)
    {
      var _ := uploader.UnbindFromSocketHandler();
      phase := Done;
    }

    method UnbindWith(m: ServerMsg) returns (phase: Phase)
      requires Valid()
      modifies uploader`boundToSocketHandler, conn`outgoing
      ensures Valid()
      ensures Step(View(), conn.View(phase)) == LeaveWith(old(View()), old(conn.View(AwaitReq)), m)
    {
      conn.Send(m);
      phase := Unbind();
    }

    method HandleRequest(env: Env) returns (phase: Phase)
      requires Valid() && env.socketError && Disciplined(uploader.View().up)
      requires conn.incoming != [] && conn.incoming[0].UploadReq? && conn.incoming[0].id in pool.uploaders
               ==> conn.incoming[0].id == uploader.id && pool.uploaders[uploader.id] == uploader
      modifies uploader`boundToSocketHandler, uploader`fileSize, conn
      ensures Valid() && (phase.AwaitAck? || phase.Done?)
      ensures phase.AwaitAck? ==> Disciplined(uploader.View().up)
      ensures Step(View(), conn.View(phase)) == OnRequest(old(View()), old(conn.View(AwaitReq)), cfg, env)
    {
      var req := conn.Recv();
      if req.None? || !req.value.UploadReq? {
        conn.Send(ServerError);
        return Done;
      }
      var ul := pool.Get(req.value.id);
      if ul.None? {
        conn.Send(ServerError);
        return Done;
      }
      var free := ul.value.BindToSocketHandler();
      if !free {
        conn.Send(ServerError);
        return Done;
      }
      phase := AcceptRequest(req.value.length);
    }

    method AcceptRequest(length: int) returns (phase: Phase)
      requires Valid()
      modifies uploader`boundToSocketHandler, uploader`fileSize, conn`outgoing
      ensures Valid() && (phase.AwaitAck? || phase.Done?)
      ensures phase.AwaitAck? && old(Disciplined(uploader.View().up)) ==> Disciplined(uploader.View().up)
      ensures Step(View(), conn.View(phase)) == Accept(old(View()), old(conn.View(AwaitReq)), length, cfg)
    {
      var state := uploader.state;
      if state.Init? {
        var _ := uploader.SetFileSize(length);
      } else if uploader.fileSize != length {
        phase := UnbindWith(ServerError);
        return;
      }
      if state.Rank() >= Cancelled.Rank() {
        phase := UnbindWith(ServerError);
        return;
      }
      conn.Send(UploadConf(cfg.chunkKB, uploader.filePos, cfg.sendAhead));
      return AwaitAck;
    }

    method HandleAck(env: Env) returns (phase: Phase)
      requires Valid() && env.socketError
      modifies uploader`boundToSocketHandler, conn
      ensures Valid() && (phase.Receive? || phase.Done?)
      ensures phase.Receive? ==> View() == old(View())
      ensures Step(View(), conn.View(phase)) == OnAck(old(View()), old(conn.View(AwaitAck)), env)
    {
      var ack := conn.Recv();
      if ack != Some(Ack(true)) {
        phase := UnbindWith(ServerError);
      } else {
        phase := Receive;
      }
    }

    method HandleChunk(data: Bytes, io: IO) returns (phase: Phase)
      requires Valid() && Disciplined(uploader.View().up) && uploader.filePos != uploader.fileSize
      modifies uploader, uploader.disk, conn`outgoing
      ensures Valid() && Disciplined(uploader.View().up) && (phase.Receive? || phase.Failing?)
      ensures Step(View(), conn.View(phase)) == OnChunk(old(View()), old(conn.View(Receive)), data, io)
    {
      ConsumeDisciplined(uploader.View(), data, io);
      var err := uploader.ConsumeFileChunk(data, io);
      if err.None? {
        conn.Send(ChunkAck(|data|));
        phase := Receive;
      } else {
        conn.Send(ServerError);
        phase := Failing;
      }
    }

    method HandleFrame(m: ClientMsg, io: IO) returns (phase: Phase)
      requires Valid() && Disciplined(uploader.View().up) && uploader.filePos != uploader.fileSize
      modifies uploader, uploader.disk, pool, pool.uidPool, conn`outgoing
      ensures Valid() && (phase.Receive? ==> Disciplined(uploader.View().up))
      ensures phase.Receive? || phase.Failing? || phase.Done?
      ensures Step(View(), conn.View(phase)) == OnFrame(old(View()), old(conn.View(Receive)), cfg, m, io)
    {
      if Oversized(cfg, m) {
        phase := UnbindWith(ServerError);
      } else if m.Chunk? {
        phase := HandleChunk(m.data, io);
      } else if m.Pause? {
        var _ := uploader.Pause();
        phase := Receive;
      } else if m.Cancel? {
        AbortUpload(io.removeOk);
        phase := UnbindWith(CancelAck);
      } else if m.ClientError? {
        AbortUpload(io.removeOk);
        phase := Unbind();
      } else {
        phase := UnbindWith(ServerError);
      }
    }

    /** The receive loop. */
    method ReceiveChunks(io: nat -> IO, k: nat) returns (phase: Phase, n: nat)
      requires Valid() && Disciplined(uploader.View().up)
      modifies uploader, uploader.disk, pool, pool.uidPool, conn
      ensures Valid() && (phase.Receive? || phase.Failing? || phase.Done?)
      ensures phase.Receive? ==> uploader.filePos == uploader.fileSize
      ensures Serve(View(), conn.View(phase), cfg, io, n) == Serve(old(View()), old(conn.View(Receive)), cfg, io, k)
    {
      n := k;
      phase := Receive;
      while phase.Receive? && uploader.filePos != uploader.fileSize
        invariant Valid() && (phase.Receive? ==> Disciplined(uploader.View().up))
        invariant phase.Receive? || phase.Failing? || phase.Done?
        invariant Serve(View(), conn.View(phase), cfg, io, n) == Serve(old(View()), old(conn.View(Receive)), cfg, io, k)
        decreases |conn.incoming|, phase.Rank()
      {
        phase := ReceiveOne(Env(io(n), true, false, false));
        n := n + 1;
      }
    }

    /** One turn of the receive loop. */
    method ReceiveOne(env: Env) returns (phase: Phase)
      requires Valid() && Disciplined(uploader.View().up) && uploader.filePos != uploader.fileSize
      requires env.socketError
      modifies uploader, uploader.disk, pool, pool.uidPool, conn
      ensures Valid() && (phase.Receive? ==> Disciplined(uploader.View().up))
      ensures phase.Receive? || phase.Failing? || phase.Done?
      ensures phase.Receive? ==> |conn.incoming| < |old(conn.incoming)|
      ensures |conn.incoming| <= |old(conn.incoming)|
      ensures Step(View(), conn.View(phase)) == OnReceive(old(View()), old(conn.View(Receive)), cfg, env)
    {
      var m := conn.Recv();
      if m.None? {
        phase := UnbindWith(ServerError);
      } else {
        phase := HandleFrame(m.value, env.io);
      }
    }

    /** Leaving the loop: handing the file over, or giving it up after a chunk failed. */
    method AfterLoop(entered: Phase, io: IO) returns (phase: Phase)
      requires Valid() && (entered.Receive? || entered.Failing?)
      requires entered.Receive? ==> uploader.filePos == uploader.fileSize
      modifies this`handover, uploader, uploader.disk, pool, pool.uidPool
      ensures Valid() && (phase.AwaitHandover? || phase.Done?)
      ensures Step(View(), conn.View(phase))
              == ServerStep(old(View()), conn.View(entered), cfg, Env(io, true, false, false))
    {
      if entered.Receive? {
        var run := uploader.HandFileToApp();
        if run {
          handover := Running;
        }
        phase := AwaitHandover;
      } else {
        if !uploader.state.Cancelled? {
          AbortUpload(io.removeOk);
        }
        phase := Unbind();
      }
    }

    method ReceiveFile(io: nat -> IO, k: nat) returns (phase: Phase)
      requires Valid() && Disciplined(uploader.View().up)
      modifies this`handover, uploader, uploader.disk, pool, pool.uidPool, conn
      ensures Valid() && (phase.AwaitHandover? || phase.Done?)
      ensures Step(View(), conn.View(phase)) == Serve(old(View()), old(conn.View(Receive)), cfg, io, k)
    {
      var n: nat;
      phase, n := ReceiveChunks(io, k);
      if !phase.Done? {
        phase := AfterLoop(phase, io(n));
      }
    }

    /** The whole routine, from the upload request to the handover or the handler's return. */
    method ServeConnection(io: nat -> IO) returns (phase: Phase)
      requires Valid() && Disciplined(uploader.View().up)
      requires conn.incoming != [] && conn.incoming[0].UploadReq? && conn.incoming[0].id in pool.uploaders
               ==> conn.incoming[0].id == uploader.id && pool.uploaders[uploader.id] == uploader
      modifies this`handover, uploader, uploader.disk, pool, pool.uidPool, conn
      ensures Valid() && (phase.AwaitHandover? || phase.Done?)
      ensures Step(View(), conn.View(phase)) == Serve(old(View()), old(conn.View(AwaitReq)), cfg, io, 0)
    {
      ghost var all := Serve(View(), conn.View(AwaitReq), cfg, io, 0);
      phase := HandleRequest(Env(io(0), true, false, false));
      assert Serve(View(), conn.View(phase), cfg, io, 1) == all;
      if phase.AwaitAck? {
        phase := HandleAck(Env(io(1), true, false, false));
        assert Serve(View(), conn.View(phase), cfg, io, 2) == all;
        if phase.Receive? {
          phase := ReceiveFile(io, 2);
        }
      }
    }

    /** The wait loop: messages are read and ignored until the handover routine, which ends some time
        in between, is heard of, or the socket fails. */
    method AwaitOutcome(wakes: seq<Wake>) returns (phase: Phase)
      requires Valid()
      modifies this`handover, uploader, uploader.disk, pool, pool.uidPool, conn
      ensures Valid() && (phase.AwaitHandover? || phase.Done?)
      ensures Step(View(), conn.View(phase)) == Await(old(View()), old(conn.View(AwaitHandover)), cfg, wakes)
    {
      phase := AwaitHandover;
      var i := 0;
      while i < |wakes| && phase.AwaitHandover?
        invariant i <= |wakes| && Valid() && (phase.AwaitHandover? || phase.Done?)
        invariant Await(View(), conn.View(phase), cfg, wakes[i..])
                  == Await(old(View()), old(conn.View(AwaitHandover)), cfg, wakes)
      {
        assert wakes[i..][0] == wakes[i] && wakes[i..][1..] == wakes[i + 1..];
        match wakes[i] {
          case Wakes(env) => phase := WakeUp(env);
          case RoutineEnds(reply, confirmed) => FinishRoutine(reply, confirmed);
        }
        i := i + 1;
      }
    }

    /** The handover routine comes to its end while the handler waits. */
    method FinishRoutine(reply: LocalFileUploads.Reply, confirmed: bool)
      requires Valid()
      modifies this`handover, uploader, uploader.disk
      ensures Valid()
      ensures View() == EndRoutine(old(View()), reply, confirmed)
    {
      if handover.Running? {
        var received: bool := *;
        var ok := uploader.HandoverRoutine(reply, confirmed, received);
        handover := Ended(ok);
      }
    }

    method WakeUp(env: Env) returns (phase: Phase)
      requires Valid()
      modifies uploader, uploader.disk, pool, pool.uidPool, conn
      ensures Valid() && (phase.AwaitHandover? || phase.Done?)
      ensures Step(View(), conn.View(phase)) == OnHandover(old(View()), old(conn.View(AwaitHandover)), cfg, env)
    {
      phase := AwaitHandover;
      if env.fromSocket {
        if conn.incoming != [] || env.socketError {
          var m := conn.Recv();
          if m.None? || Oversized(cfg, m.value) {
            phase := Unbind();
          }
        }
      } else if handover.Ended? {
        ReportOutcome(env);
        phase := Done;
      }
    }

    /** What the handler reports once it has heard from the handover routine. */
    method ReportOutcome(env: Env)
      requires Valid() && handover.Ended? && !env.fromSocket
      modifies uploader, uploader.disk, pool, pool.uidPool, conn`outgoing
      ensures Valid() && conn.incoming == old(conn.incoming)
      ensures Step(View(), conn.View(Done)) == OnHandover(old(View()), old(conn.View(AwaitHandover)), cfg, env)
    {
      if !handover.ok && env.takesError {
        var _ := UnbindWith(ServerError);
        return;
      }
      if uploader.state.Finished? {
        conn.Send(AllDone);
      } else {
        conn.Send(ServerError);
      }
      var _ := uploader.CleanUp(env.io.removeOk);
      var _ := Unbind();
    }
  }
}
