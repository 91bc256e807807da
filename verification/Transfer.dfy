/** The whole transfer as a transition system: one browser uploader, any number of websocket
    connections of which at most one is current, and one upload on the server. Sockets may break
    and users, timeouts and the app backend may interfere at any moment. */
module Transfer {
  import opened Protocol
  import opened UploadSpec
  import opened Session
  import Sender

  datatype Params = Params(id: string, dir: string, removeWhenFinished: bool, file: Bytes, cfg: Config)

  /** The path the app backend was told, and what the file held at that moment. */
  datatype Handed = Handed(path: string, data: Bytes)

  /** `owner` is the connection whose handler has bound the upload, `cur` the one the browser's
      socket belongs to. */
  datatype Sys = Sys(srv: Server, conns: map<nat, Conn>, owner: Option<nat>,
                     c: Sender.Client, cur: Option<nat>, handed: Option<Handed>)

  datatype Event =
    | Starts(byUser: bool)  // by the user, or by the retry timer
    | Opens(sid: nat)
    | LoadDone
    | LoadBroke
    | Delivers
    | UserCancels
    | UserPauses
    | SocketCloses
    | ServerSteps(sid: nat, env: Env)
    | Breaks(sid: nat, keepC2s: nat, keepS2c: nat)
    | HandoverEnds(ok: bool)
    | BackendCancels(removeOk: bool)
    | TimesOut(removeOk: bool)

  function Initial(p: Params): Sys {
    var up := Upload(p.id, p.dir, p.removeWhenFinished, Init, false, "", Closed, 0, 0);
    Sys(Server(World(up, map[]), true, NotStarted), map[], None, Sender.FRESH, None, None)
  }

  /** A restart waits until the old socket's close event and any pending load are over. */
  predicate Enabled(s: Sys, e: Event) {
    match e
    case Starts(byUser) => (byUser || s.c.retryPending) && s.c.ws.NoSocket? && s.c.loading.None?
    case Opens(sid) => s.c.ws.Connecting? && s.cur.None? && sid !in s.conns
    case LoadDone => s.c.loading.Some? && s.c.conf.Some?
    case LoadBroke => s.c.loading.Some?
    case Delivers => s.c.ws.Open? && s.cur.Some? && s.cur.value in s.conns && s.conns[s.cur.value].s2c != []
                     && (s.c.onMessage.RecvChunkAcks? ==> s.c.conf.Some?)
    case UserCancels => true
    case UserPauses => true
    case SocketCloses => !s.c.ws.NoSocket?
    case ServerSteps(sid, env) => sid in s.conns
    case Breaks(sid, k, m) => sid in s.conns && k <= |s.conns[sid].c2s| && m <= |s.conns[sid].s2c|
    case HandoverEnds(ok) => s.srv.handover.Running?
    case BackendCancels(removeOk) => true
    case TimesOut(removeOk) => true
  }

  function Feed(conn: Conn, out: seq<ClientMsg>): Conn {
    if conn.alive then conn.(c2s := conn.c2s + out) else conn
  }

  /** A turn of the browser: its messages go out over the current socket; a socket that it closes
      still delivers them, but nothing comes back. */
  function ClientTurn(s: Sys, t: Sender.Turn): Sys {
    if s.cur.None? || s.cur.value !in s.conns then s.(c := t.c)
    else
      var i := s.cur.value;
      var conn := Feed(s.conns[i], t.out);
      if t.c.ws.Open? then s.(c := t.c, conns := s.conns[i := conn])
      else s.(c := t.c, conns := s.conns[i := conn.(alive := false)], cur := None)
  }

  function ServerTurn(s: Sys, i: nat, st: Step): Sys
    requires i in s.conns
  {
    s.(srv := st.srv, conns := s.conns[i := st.conn],
       owner := if st.conn.phase.Bound() then Some(i)
                else if s.conns[i].phase.Bound() then None else s.owner,
       handed := if st.srv.handover.Running? && !s.srv.handover.Running?
                 then Some(Handed(st.srv.w.up.path, st.srv.w.Stored())) else s.handed)
  }

  function Apply(p: Params, s: Sys, e: Event): Sys
    requires Enabled(s, e)
  {
    match e
    case Starts(byUser) => s.(c := Sender.Start(s.c))
    case Opens(sid) =>
      var t := Sender.OnOpen(s.c, p.id, |p.file|);
      s.(c := t.c, conns := s.conns[sid := Conn(t.out, [], true, AwaitReq)], cur := Some(sid))
    case LoadDone => ClientTurn(s, Sender.OnLoad(s.c, p.file))
    case LoadBroke => ClientTurn(s, Sender.OnLoadError(s.c))
    case Delivers =>
      var i := s.cur.value;
      var conn := s.conns[i];
      ClientTurn(s.(conns := s.conns[i := conn.(s2c := conn.s2c[1..])]),
                 Sender.Receive(s.c, conn.s2c[0], |p.file|))
    case UserCancels => ClientTurn(s, Sender.CancelUploader(s.c))
    case UserPauses => ClientTurn(s, Sender.PauseUploader(s.c))
    case SocketCloses =>
      var c := Sender.OnClose(s.c);
      if s.cur.None? || s.cur.value !in s.conns then s.(c := c)
      else s.(c := c, conns := s.conns[s.cur.value := s.conns[s.cur.value].(alive := false)], cur := None)
    case ServerSteps(sid, env) => ServerTurn(s, sid, ServerStep(s.srv, s.conns[sid], p.cfg, env))
    case Breaks(sid, k, m) =>
      var conn := s.conns[sid];
      s.(conns := s.conns[sid := Conn(conn.c2s[..k], conn.s2c[..m], false, conn.phase)])
    case HandoverEnds(ok) => s.(srv := s.srv.(w := Settle(s.srv.w, ok), handover := Ended(ok)))
    case BackendCancels(removeOk) =>
      if s.srv.w.up.state.Receiving() then s.(srv := Abort(s.srv, removeOk)) else s
    case TimesOut(removeOk) => s.(srv := Abort(s.srv, removeOk))
  }

  predicate Legal(p: Params, s: Sys, es: seq<Event>)
    decreases |es|
  {
    es == [] || (Enabled(s, es[0]) && Legal(p, Apply(p, s, es[0]), es[1..]))
  }

  function Exec(p: Params, s: Sys, es: seq<Event>): Sys
    requires Legal(p, s, es)
    decreases |es|
  {
    if es == [] then s else Exec(p, Apply(p, s, es[0]), es[1..])
  }
}
