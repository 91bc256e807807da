/** The open handle and the name of the file, in every state of every run: an invariant on top of
    LifecycleInv.dfy that holds also while a handler gives up and in the middle of a call. */
module LifecycleFiles {
  import opened Protocol
  import opened UploadSpec
  import opened Lifecycle
  import opened LifecycleInv
  import LifecycleSteps

  /** An open handle stands at the end of the ".part" file of an incomplete upload. */
  predicate HandleOK(w: World) {
    w.up.fd.Open? ==>
      && w.up.path == w.up.PartPath() && w.up.path in w.files
      && w.up.fd.offset == |w.files[w.up.path]| && w.up.filePos != w.up.fileSize
  }

  predicate Tidy(w: World) {
    Disciplined(w.up) && HandleOK(w)
  }

  lemma PrepareStaysTidy(w: World, io: IO)
    requires Tidy(w) && w.up.filePos != w.up.fileSize
    ensures Tidy(ConsumeState(w, io).w)
  {
    ConsumeStateDisciplined(w, io);
  }

  lemma StoreStaysTidy(w: World, chunk: Bytes, io: IO)
    requires Tidy(w) && w.up.filePos != w.up.fileSize
    ensures Tidy(ConsumeWrite(w, chunk, io).w)
  {
    ConsumeWriteDisciplined(w, chunk, io);
    if w.up.fd.Open? {
      var c := w.files[w.up.path];
      WriteAtEnd(c, chunk);
      WriteAtEnd(c, chunk[..Min(io.written, |chunk|)]);
    }
  }

  lemma LoopStaysTidy(s: Sys, t: nat, ch: Choice)
    requires Tidy(s.w) && BinderOK(s) && t in s.threads && ThreadOK(s, t) && s.threads[t].pc.Looping?
    ensures Tidy(LoopStep(s, t, ch).w)
  {
    match s.threads[t].pc.l
    case HPrepare(chunk, io) => PrepareStaysTidy(s.w, io);
    case HStore(chunk, io) => StoreStaysTidy(s.w, chunk, io);
    case _ =>
  }

  lemma HandlerStaysTidy(s: Sys, t: nat, ch: Choice)
    requires Tidy(s.w) && t in s.threads
    requires s.threads[t].pc.Opening? || s.threads[t].pc.Pausing? || s.threads[t].pc.Closing?
    ensures Tidy(ThreadStep(s, t, ch).w)
  {
  }

  lemma CallStaysTidy(s: Sys, t: nat, ch: Choice)
    requires Tidy(s.w) && DataOK(s) && LogOK(s) && t in s.threads && ThreadOK(s, t) && !s.threads[t].pc.HandlerPart()
    ensures Tidy(ThreadStep(s, t, ch).w)
  {
  }

  lemma StepStaysTidy(s: Sys, e: Event)
    requires Inv(s) && Tidy(s.w) && Enabled(s, e)
    ensures Tidy(Apply(s, e).w)
  {
    if e.Runs? {
      assert ThreadOK(s, e.t);
      if s.threads[e.t].pc.Looping? {
        LoopStaysTidy(s, e.t, e.ch);
      } else if s.threads[e.t].pc.HandlerPart() {
        HandlerStaysTidy(s, e.t, e.ch);
      } else {
        CallStaysTidy(s, e.t, e.ch);
      }
    }
  }

  lemma {:induction false} RunStaysTidy(s: Sys, es: seq<Event>)
    requires Inv(s) && Tidy(s.w) && Legal(s, es)
    ensures Inv(Exec(s, es)) && Tidy(Exec(s, es).w)
    decreases |es|
  {
    if es != [] {
      LifecycleSteps.StepKeeps(s, es[0]);
      StepStaysTidy(s, es[0]);
      RunStaysTidy(Apply(s, es[0]), es[1..]);
    }
  }
}
