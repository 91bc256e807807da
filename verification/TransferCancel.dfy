/** Behind a cancel message that its handler will read in the receive loop comes nothing but a pause: an
    invariant on top of TransferInv.dfy. */
module TransferCancel {
  import opened Protocol
  import opened UploadSpec
  import opened Session
  import opened Transfer
  import opened TransferInv
  import opened TransferServer
  import opened TransferHandshake
  import TransferClient
  import Sender

  predicate CancelLast(q: seq<ClientMsg>) {
    if q == [] then true
    else if q[0].Cancel? then forall m :: m in q[1..] ==> m.Pause?
    else CancelLast(q[1..])
  }

  /** For a handler that reads chunks, or will as soon as it has read the ack in front of it. */
  predicate Ordered(conn: Conn) {
    conn.phase.Receive? || (conn.phase.AwaitAck? && conn.c2s != [] && conn.c2s[0].Ack?) ==> CancelLast(conn.c2s)
  }

  /** There is a second cancel message only over another socket. */
  predicate OneCancel(s: Sys) {
    s.c.ws.Open? && s.cur.Some? && s.cur.value in s.conns && Cancel in s.conns[s.cur.value].c2s ==> !s.c.f.canCancel
  }

  predicate CancelOrder(s: Sys) {
    (forall i :: i in s.conns ==> Ordered(s.conns[i])) && OneCancel(s)
  }

  lemma {:induction false} CancelLastAppend(q: seq<ClientMsg>, m: ClientMsg)
    requires CancelLast(q) && (m.Pause? || Cancel !in q)
    ensures CancelLast(q + [m])
  {
    if q == [] {
      assert q + [m] == [m] && [m][1..] == [];
    } else {
      assert (q + [m])[1..] == q[1..] + [m];
      if !q[0].Cancel? {
        CancelLastAppend(q[1..], m);
      }
    }
  }

  lemma {:induction false} CancelLastPrefix(q: seq<ClientMsg>, k: nat)
    requires CancelLast(q) && k <= |q|
    ensures CancelLast(q[..k])
  {
    if k > 0 {
      assert q[..k][1..] == q[1..][..k - 1];
      if !q[0].Cancel? {
        CancelLastPrefix(q[1..], k - 1);
      }
    }
  }

  lemma {:induction false} CancelLastMeans(q: seq<ClientMsg>, i: nat, j: nat)
    requires CancelLast(q) && i < j < |q| && q[i].Cancel?
    ensures q[j].Pause?
  {
    if q[0].Cancel? {
      assert q[j] in q[1..];
    } else {
      CancelLastMeans(q[1..], i - 1, j - 1);
    }
  }

  lemma FeedKeepsOrder(conn: Conn, m: ClientMsg)
    requires Ordered(conn) && (m.Pause? || Cancel !in conn.c2s || (m.Ack? && !conn.phase.Receive? && !Acked(conn)))
    ensures Ordered(Feed(conn, [m]))
    ensures m.Cancel? || (Cancel in Feed(conn, [m]).c2s ==> Cancel in conn.c2s)
  {
    var q := conn.c2s + [m];
    assert q[0] == if conn.c2s == [] then m else conn.c2s[0];
    if conn.c2s == [] {
      assert q == [m] && [m][1..] == [];
    } else if CancelLast(conn.c2s) && (m.Pause? || Cancel !in conn.c2s) {
      CancelLastAppend(conn.c2s, m);
    }
  }

  // ---------------------------------------------------------------- the browser's turns

  /** What a turn must be like to keep the order. */
  lemma TurnKeepsOrder(s: Sys, t: Sender.Turn)
    requires CancelOrder(s) && |t.out| <= 1 && (t.out != [] ==> s.c.ws.Open? && s.cur.Some?)
    requires t.c.ws.Open? ==> s.c.ws.Open?
    requires t.out != [] && s.cur.value in s.conns ==>
               var conn, m := s.conns[s.cur.value], t.out[0];
               (m.Pause? || Cancel !in conn.c2s || (m.Ack? && !conn.phase.Receive? && !Acked(conn)))
    requires t.c.ws.Open? && t.c.f.canCancel ==> s.c.f.canCancel && (t.out == [] || !t.out[0].Cancel?)
    ensures CancelOrder(ClientTurn(s, t))
  {
    if s.cur.Some? && s.cur.value in s.conns {
      if t.out == [] {
        TransferClient.FeedNothing(s.conns[s.cur.value]);
      } else {
        assert t.out == [t.out[0]];
        FeedKeepsOrder(s.conns[s.cur.value], t.out[0]);
      }
    }
  }

  lemma CancelKeepsOrder(p: Params, s: Sys, c: Sender.Client)
    requires Inv(p, s) && CancelOrder(s) && c.ws == s.c.ws && c.f.canCancel == s.c.f.canCancel
    ensures CancelOrder(ClientTurn(s, Sender.CancelUploader(c)))
  {
    TurnKeepsOrder(s, Sender.CancelUploader(c));
  }

  lemma LoadKeepsOrder(p: Params, s: Sys)
    requires Inv(p, s) && CancelOrder(s) && s.c.loading.Some? && s.c.conf.Some?
    ensures CancelOrder(ClientTurn(s, Sender.OnLoad(s.c, p.file)))
  {
    TurnKeepsOrder(s, Sender.OnLoad(s.c, p.file));
  }

  lemma BrokenLoadKeepsOrder(p: Params, s: Sys)
    requires Inv(p, s) && CancelOrder(s) && s.c.loading.Some?
    ensures CancelOrder(ClientTurn(s, Sender.OnLoadError(s.c)))
  {
    TurnKeepsOrder(s, Sender.OnLoadError(s.c));
  }

  lemma DeliveryKeepsOrder(p: Params, s: Sys)
    requires Inv(p, s) && CancelOrder(s) && Enabled(s, Delivers)
    ensures CancelOrder(Apply(p, s, Delivers))
  {
    var i := s.cur.value;
    var conn := s.conns[i];
    TransferClient.TakenConn(p, s.srv, conn);
    var s1 := s.(conns := s.conns[i := TransferClient.Taken(conn)]);
    assert CancelOrder(s1);
    ReplyIsInOrder(p, s.srv, conn, s.c);
    TurnKeepsOrder(s1, Sender.Receive(s.c, conn.s2c[0], |p.file|));
  }

  lemma ReplyIsInOrder(p: Params, srv: Server, conn: Conn, c: Sender.Client)
    requires ConnOK(p, srv, conn) && CurOK(p, srv, conn, c) && conn.s2c != []
    requires Cancel in conn.c2s ==> !c.f.canCancel
    ensures var t := Sender.Receive(c, conn.s2c[0], |p.file|);
            && |t.out| <= 1
            && (t.out != [] ==> Cancel !in conn.c2s || (t.out[0].Ack? && !conn.phase.Receive? && !Acked(conn)))
            && (t.c.f.canCancel ==> c.f.canCancel && (t.out == [] || !t.out[0].Cancel?))
            && (t.c.ws.Open? ==> c.ws.Open?)
  {
    assert Acked(conn) ==> conn.c2s[0] in conn.c2s;
  }

  // ---------------------------------------------------------------- the server's steps

  lemma ServerKeepsOrder(p: Params, s: Sys, i: nat, env: Env)
    requires Inv(p, s) && CancelOrder(s) && i in s.conns
    ensures CancelOrder(ServerTurn(s, i, ServerStep(s.srv, s.conns[i], p.cfg, env)))
  {
    StepKeepsOrder(p, s.srv, s.conns[i], env);
  }

  lemma StepKeepsOrder(p: Params, srv: Server, conn: Conn, env: Env)
    requires ConnOK(p, srv, conn) && Ordered(conn)
    ensures var conn' := ServerStep(srv, conn, p.cfg, env).conn;
            Ordered(conn') && (Cancel in conn'.c2s ==> Cancel in conn.c2s)
  {
    StepPops(srv, conn, p.cfg, env);
    if conn.c2s != [] {
      PopFacts(p, conn.c2s);
      assert conn.c2s[1..] != [] ==> conn.c2s[1..][0] in conn.c2s;
    }
  }

  /** A step takes at most one message, goes on reading chunks after no cancel message, and begins to
      read chunks with the ack. */
  lemma StepPops(srv: Server, conn: Conn, cfg: Config, env: Env)
    ensures var conn' := ServerStep(srv, conn, cfg, env).conn;
            && (conn'.c2s == conn.c2s || (conn.c2s != [] && conn'.c2s == conn.c2s[1..]))
            && (conn'.phase.Receive? ==>
                  || (conn.phase.Receive? && (conn'.c2s == conn.c2s || !conn.c2s[0].Cancel?))
                  || (conn.phase.AwaitAck? && conn.c2s != [] && conn.c2s[0].Ack? && conn'.c2s == conn.c2s[1..]))
            && (conn'.phase.AwaitAck? ==> conn.phase.AwaitReq? || (conn.phase.AwaitAck? && conn'.c2s == conn.c2s))
  {
  }

  // ---------------------------------------------------------------- every step

  lemma BreakKeepsOrder(p: Params, s: Sys, i: nat, k: nat, m: nat)
    requires CancelOrder(s) && Enabled(s, Breaks(i, k, m))
    ensures CancelOrder(Apply(p, s, Breaks(i, k, m)))
  {
    var q := s.conns[i].c2s;
    assert forall x :: x in q[..k] ==> x in q;
    assert q[..k] != [] ==> q[..k][0] == q[0];
    if CancelLast(q) {
      CancelLastPrefix(q, k);
    }
  }

  lemma RestKeepsOrder(p: Params, s: Sys, e: Event)
    requires CancelOrder(s) && Enabled(s, e)
    requires e.Starts? || e.Opens? || e.SocketCloses? || e.HandoverEnds? || e.BackendCancels? || e.TimesOut?
    ensures CancelOrder(Apply(p, s, e))
  {
  }

  lemma StepKeeps(p: Params, s: Sys, e: Event)
    requires Inv(p, s) && CancelOrder(s) && Enabled(s, e)
    ensures CancelOrder(Apply(p, s, e))
  {
    match e
    case LoadDone => LoadKeepsOrder(p, s);
    case LoadBroke => BrokenLoadKeepsOrder(p, s);
    case Delivers => DeliveryKeepsOrder(p, s);
    case UserCancels => CancelKeepsOrder(p, s, s.c);
    case UserPauses => TurnKeepsOrder(s, Sender.PauseUploader(s.c));
    case ServerSteps(i, env) => ServerKeepsOrder(p, s, i, env);
    case Breaks(i, k, m) => BreakKeepsOrder(p, s, i, k, m);
    case _ => RestKeepsOrder(p, s, e);
  }
}
