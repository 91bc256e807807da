/** What the browser's uploader does when its socket is lost, when it is cancelled or paused, and when it
    fails, by itself and over every run. */
module TransferRetry {
  import opened Protocol
  import opened UploadSpec
  import opened Session
  import opened Transfer
  import TransferCancel
  import TransferClient
  import Sender

  // ---------------------------------------------------------------- one event

  /** The uploader is neither paused nor over. */
  predicate WantsToGoOn(c: Sender.Client) {
    !c.f.paused && !c.f.finished && !c.f.cancelled && !c.f.failed
  }

  /** A lost socket has the uploader try again, exactly unless it is paused or over; nothing else changes. */
  lemma CloseRetriesExactly(c: Sender.Client)
    requires !c.retryPending
    ensures Sender.OnClose(c).retryPending <==> WantsToGoOn(c)
    ensures Sender.OnClose(c) == c.(ws := Sender.NoSocket, retryPending := WantsToGoOn(c))
  {
  }

  /** A cancel takes effect whenever the uploader can be cancelled: over an open socket by exactly one
      cancel message whose ack is awaited, without one at once. In both cases nothing is loaded or
      retried any more. */
  lemma CancelTakes(c: Sender.Client)
    ensures var t := Sender.CancelUploader(c);
            if c.f.canCancel && !c.f.cancelled
            then
              && !t.c.f.canCancel && t.c.loading.None? && !t.c.retryPending && t.c.n == c.n && t.c.ws == c.ws
              && t.c.onMessage == c.onMessage && t.c.conf == c.conf && t.c.f.finished == c.f.finished
              && t.c.f.paused == c.f.paused
              && (if c.ws.Open?
                  then t.out == [Cancel] && t.c.f.cancelling && t.c.awaitingCancelAck && !t.c.f.cancelled
                       && t.c.f.failed == c.f.failed
                  else t.out == [] && t.c.f.cancelled && t.c.f.failed && t.c.f.cancelling == c.f.cancelling
                       && t.c.awaitingCancelAck == c.awaitingCancelAck)
            else t.c == c && t.out == []
  {
  }

  /** A load that fails drops the slice and cancels. */
  lemma FailedLoadCancels(c: Sender.Client)
    ensures var t := Sender.OnLoadError(c);
            && t.c.loading.None? && t.c.n == c.n && t.c.ws == c.ws
            && (c.f.canCancel && !c.f.cancelled ==>
                  if c.ws.Open? then t.out == [Cancel] && t.c.f.cancelling && t.c.awaitingCancelAck
                  else t.out == [] && t.c.f.cancelled && t.c.f.failed)
            && (!c.f.canCancel || c.f.cancelled ==> t.out == [] && t.c == c.(loading := None))
  {
  }

  /** A pause sends one pause message over an open socket and closes it; it stops loading and retrying. */
  lemma PauseTakes(c: Sender.Client)
    ensures var t := Sender.PauseUploader(c);
            if c.f.finished || c.f.cancelled || c.f.paused then t.c == c && t.out == []
            else
              && t.c.f == c.f.(paused := true, canCancel := false) && t.c.loading.None? && !t.c.retryPending
              && t.c.n == c.n && t.c.conf == c.conf && t.c.onMessage == c.onMessage
              && (if c.ws.Open? then t.out == [Pause] && t.c.ws.Closing? else t.out == [] && t.c.ws == c.ws)
  {
  }

  /** An error from the server fails the uploader. While chunks are still to come it is cancelled as well;
      afterwards the socket is closed. */
  lemma ServerErrorFails(c: Sender.Client, total: nat)
    requires !c.onMessage.Nothing? && (c.onMessage.RecvChunkAcks? ==> c.conf.Some?)
    ensures var t := Sender.Receive(c, ServerError, total);
            && t.c.f.failed && t.c.n == c.n && t.c.f.finished == c.f.finished
            && (if c.onMessage.RecvFinal? then t.c.ws.Closing? && t.out == []
                else if c.f.canCancel && !c.f.cancelled
                then !t.c.f.canCancel && t.c.loading.None?
                     && (if c.ws.Open? then t.out == [Cancel] && t.c.f.cancelling && t.c.awaitingCancelAck
                         else t.out == [] && t.c.f.cancelled)
                else t.c == c.(f := c.f.(failed := true)) && t.out == [])
  {
  }

  /** The final message finishes the uploader and closes its socket; the ack of a cancel cancels it and
      closes its socket. */
  lemma LastMessages(c: Sender.Client, total: nat)
    requires c.onMessage.RecvChunkAcks? ==> c.conf.Some?
    ensures c.onMessage.RecvFinal? && !c.awaitingCancelAck ==>
              Sender.Receive(c, AllDone, total)
              == Sender.Turn(c.(f := c.f.(finished := true), ws := Sender.Closing), [])
    ensures c.awaitingCancelAck ==>
              Sender.Receive(c, CancelAck, total)
              == Sender.Turn(c.(f := c.f.(cancelled := true, cancelling := false, canCancel := false),
                                ws := Sender.Closing), [])
  {
  }

  /** A start drops what is left of the last session, begins again at the acknowledged bytes, and can be
      cancelled; that an earlier cancel or error is remembered is all that is left. */
  lemma StartBeginsAgain(c: Sender.Client)
    ensures var c' := Sender.Start(c);
            && c'.ws.Connecting? && !c'.retryPending && !c'.awaitingCancelAck && !c'.f.paused && c'.f.canCancel
            && c'.n == Sender.Counters(c.n.bytesAcked, c.n.bytesAcked, 0, 0, 0)
            && c'.f.finished == c.f.finished && c'.f.cancelled == c.f.cancelled && c'.f.failed == c.f.failed
            && c'.f.cancelling == c.f.cancelling && c'.conf == c.conf && c'.loading == c.loading
  {
  }

  // ---------------------------------------------------------------- over every run

  /** Only an uploader without a socket that wants to go on has a retry pending. */
  predicate RetryOK(c: Sender.Client) {
    c.retryPending ==> c.ws.NoSocket? && WantsToGoOn(c)
  }

  lemma TurnKeepsRetry(c: Sender.Client, m: ServerMsg, file: Bytes)
    requires RetryOK(c)
    ensures RetryOK(Sender.Start(c)) && RetryOK(Sender.CancelUploader(c).c) && RetryOK(Sender.PauseUploader(c).c)
    ensures RetryOK(Sender.OnLoadError(c).c)
    ensures c.loading.Some? && c.conf.Some? ==> RetryOK(Sender.OnLoad(c, file).c)
    ensures c.ws.Open? && (c.onMessage.RecvChunkAcks? ==> c.conf.Some?) ==> RetryOK(Sender.Receive(c, m, |file|).c)
    ensures !c.ws.NoSocket? ==> RetryOK(Sender.OnClose(c))
  {
  }

  lemma StepKeepsRetry(p: Params, s: Sys, e: Event)
    requires RetryOK(s.c) && Enabled(s, e)
    ensures RetryOK(Apply(p, s, e).c)
  {
    var m := if e.Delivers? then s.conns[s.cur.value].s2c[0] else AllDone;
    TurnKeepsRetry(s.c, m, p.file);
  }

  /** The events that may take a pending retry back: the start itself, a cancel, also because a load fails,
      a pause. */
  predicate EndsRetry(e: Event) {
    e.Starts? || e.UserCancels? || e.LoadBroke? || e.UserPauses?
  }

  lemma RetryStays(p: Params, s: Sys, e: Event)
    requires Enabled(s, e) && s.c.ws.NoSocket? && s.c.retryPending && !EndsRetry(e)
    ensures Apply(p, s, e).c.ws.NoSocket? && Apply(p, s, e).c.retryPending
  {
  }

  /** Once pending, a retry stays so over every run until the uploader starts, is cancelled or paused. */
  lemma {:induction false} RetryLasts(p: Params, s: Sys, es: seq<Event>)
    requires Legal(p, s, es) && s.c.ws.NoSocket? && s.c.retryPending && forall e :: e in es ==> !EndsRetry(e)
    ensures Exec(p, s, es).c.ws.NoSocket? && Exec(p, s, es).c.retryPending
    decreases |es|
  {
    if es != [] {
      assert es[0] in es && forall e :: e in es[1..] ==> e in es;
      RetryStays(p, s, es[0]);
      RetryLasts(p, Apply(p, s, es[0]), es[1..]);
    }
  }

  /** No chunk is on its way that was not before; new connections carry none. */
  predicate NoNewChunks(s: Sys, s': Sys) {
    forall i :: i in s'.conns ==>
      Chunks(s'.conns[i].c2s) <= (if i in s.conns then Chunks(s.conns[i].c2s) else 0)
  }

  lemma {:induction false} ChunksPrefix(q: seq<ClientMsg>, k: nat)
    requires k <= |q|
    ensures Chunks(q[..k]) <= Chunks(q)
  {
    if k > 0 {
      assert q[..k][1..] == q[1..][..k - 1];
      ChunksPrefix(q[1..], k - 1);
    }
  }

  /** A cancelled uploader stays cancelled and sends no chunk. */
  lemma CancelledTurn(c: Sender.Client, m: ServerMsg, file: Bytes)
    requires c.f.cancelled
    ensures Sender.Start(c).f.cancelled && Sender.CancelUploader(c) == Sender.Turn(c, [])
    ensures Sender.PauseUploader(c) == Sender.Turn(c, []) && Sender.OnClose(c).f.cancelled
    ensures Sender.OnLoadError(c) == Sender.Turn(c.(loading := None), [])
    ensures c.loading.Some? && c.conf.Some? ==>
              Sender.OnLoad(c, file).c.f.cancelled && Sender.OnLoad(c, file).out == []
    ensures c.ws.Open? && (c.onMessage.RecvChunkAcks? ==> c.conf.Some?) ==>
              && Sender.Receive(c, m, |file|).c.f.cancelled
              && (Sender.Receive(c, m, |file|).out == [] || Sender.Receive(c, m, |file|).out == [Ack(true)])
  {
  }

  lemma TurnSendsNoChunk(s: Sys, s1: Sys, t: Sender.Turn)
    requires t.out == [] || (|t.out| == 1 && !t.out[0].Chunk?)
    requires NoNewChunks(s, s1)
    ensures NoNewChunks(s, ClientTurn(s1, t))
  {
    if s1.cur.Some? && s1.cur.value in s1.conns {
      if t.out == [] {
        TransferClient.FeedNothing(s1.conns[s1.cur.value]);
      } else {
        assert t.out == [t.out[0]];
        QueueAppend(s1.conns[s1.cur.value].c2s, t.out[0]);
      }
    }
  }

  lemma CancelledStep(p: Params, s: Sys, e: Event)
    requires Enabled(s, e) && s.c.f.cancelled
    ensures Apply(p, s, e).c.f.cancelled && NoNewChunks(s, Apply(p, s, e))
  {
    var m := if e.Delivers? then s.conns[s.cur.value].s2c[0] else AllDone;
    CancelledTurn(s.c, m, p.file);
    match e
    case LoadDone => TurnSendsNoChunk(s, s, Sender.OnLoad(s.c, p.file));
    case LoadBroke => TurnSendsNoChunk(s, s, Sender.OnLoadError(s.c));
    case Delivers => CancelledDelivery(p, s);
    case UserCancels => TurnSendsNoChunk(s, s, Sender.CancelUploader(s.c));
    case UserPauses => TurnSendsNoChunk(s, s, Sender.PauseUploader(s.c));
    case ServerSteps(i, env) => ServerTakesChunks(p, s, i, env);
    case Breaks(i, k, n) => ChunksPrefix(s.conns[i].c2s, k);
    case _ =>
  }

  lemma CancelledDelivery(p: Params, s: Sys)
    requires Enabled(s, Delivers) && s.c.f.cancelled
    ensures NoNewChunks(s, Apply(p, s, Delivers))
  {
    var i := s.cur.value;
    var conn := s.conns[i];
    CancelledTurn(s.c, conn.s2c[0], p.file);
    TurnSendsNoChunk(s, s.(conns := s.conns[i := conn.(s2c := conn.s2c[1..])]),
                     Sender.Receive(s.c, conn.s2c[0], |p.file|));
  }

  lemma ServerTakesChunks(p: Params, s: Sys, i: nat, env: Env)
    requires i in s.conns
    ensures NoNewChunks(s, Apply(p, s, ServerSteps(i, env))) && Apply(p, s, ServerSteps(i, env)).c == s.c
  {
    TransferCancel.StepPops(s.srv, s.conns[i], p.cfg, env);
  }

  lemma NoNewChunksJoins(s: Sys, s1: Sys, s2: Sys)
    requires NoNewChunks(s, s1) && NoNewChunks(s1, s2)
    ensures NoNewChunks(s, s2)
  {
    forall i | i in s2.conns
      ensures Chunks(s2.conns[i].c2s) <= (if i in s.conns then Chunks(s.conns[i].c2s) else 0)
    {
      if i !in s1.conns {
        assert Chunks(s2.conns[i].c2s) == 0;
      }
    }
  }

  /** Over every run a cancelled uploader stays cancelled, never retries, and sends no chunk over any
      connection. */
  lemma {:induction false} CancelledForEver(p: Params, s: Sys, es: seq<Event>)
    requires Legal(p, s, es) && s.c.f.cancelled && RetryOK(s.c)
    ensures var s' := Exec(p, s, es); s'.c.f.cancelled && !s'.c.retryPending && NoNewChunks(s, s')
    decreases |es|
  {
    if es != [] {
      CancelledStep(p, s, es[0]);
      StepKeepsRetry(p, s, es[0]);
      CancelledForEver(p, Apply(p, s, es[0]), es[1..]);
      NoNewChunksJoins(s, Apply(p, s, es[0]), Exec(p, s, es));
    }
  }

  lemma FailedTurn(c: Sender.Client, m: ServerMsg, file: Bytes)
    requires c.f.failed
    ensures Sender.Start(c).f.failed && Sender.CancelUploader(c).c.f.failed && Sender.PauseUploader(c).c.f.failed
    ensures Sender.OnLoadError(c).c.f.failed && Sender.OnClose(c).f.failed
    ensures c.loading.Some? && c.conf.Some? ==> Sender.OnLoad(c, file).c.f.failed
    ensures c.ws.Open? && (c.onMessage.RecvChunkAcks? ==> c.conf.Some?) ==> Sender.Receive(c, m, |file|).c.f.failed
  {
    if c.ws.Open? && (c.onMessage.RecvChunkAcks? ==> c.conf.Some?) {
      FailedReceive(c, m, |file|);
    }
  }

  lemma FailedReceive(c: Sender.Client, m: ServerMsg, total: nat)
    requires c.f.failed && (c.onMessage.RecvChunkAcks? ==> c.conf.Some?)
    ensures Sender.Receive(c, m, total).c.f.failed
  {
    if c.onMessage.RecvChunkAcks? {
      FailedAck(c, m, total);
    }
  }

  lemma FailedAck(c: Sender.Client, m: ServerMsg, total: nat)
    requires c.f.failed && c.conf.Some?
    ensures Sender.ReceiveChunkAck(c, m, total).c.f.failed
  {
  }

  lemma FailedStep(p: Params, s: Sys, e: Event)
    requires Enabled(s, e) && s.c.f.failed
    ensures Apply(p, s, e).c.f.failed
  {
    FailedTurn(s.c, if e.Delivers? then s.conns[s.cur.value].s2c[0] else AllDone, p.file);
  }

  /** Over every run a failed uploader stays failed and is never started by the retry timer again. */
  lemma {:induction false} FailedForEver(p: Params, s: Sys, es: seq<Event>)
    requires Legal(p, s, es) && s.c.f.failed && RetryOK(s.c)
    ensures Exec(p, s, es).c.f.failed && !Exec(p, s, es).c.retryPending
    decreases |es|
  {
    if es != [] {
      FailedStep(p, s, es[0]);
      StepKeepsRetry(p, s, es[0]);
      FailedForEver(p, Apply(p, s, es[0]), es[1..]);
    }
  }
}
