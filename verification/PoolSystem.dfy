/** Many uploads entering and leaving the two pools at the same time. Put and Remove each consist of
    two separately locked steps, so uploads interleave between them. */
module PoolSystem {
  import opened Protocol
  import opened UploadSpec

  /** Where an upload stands. It learns its own id only when Put has returned. */
  datatype Place =
    | Created
    | Reserved(id: string)   // id drawn, not inserted yet
    | Inserted(id: string)   // in the map, Put not returned yet
    | Pooled(id: string)
    | Deleted(id: string)    // out of the map, id not released yet
    | Out
  {
    predicate HasId() {
      !Created? && !Out?
    }

    predicate InMap() {
      Inserted? || Pooled?
    }
  }

  datatype Pool = Pool(uids: set<string>, uploaders: map<string, nat>, places: map<nat, Place>)

  datatype Event =
    | Creates(u: nat)
    | Reserves(u: nat, id: string)
    | Inserts(u: nat)
    | LearnsId(u: nat)
    | Deletes(u: nat)
    | Releases(u: nat)
    | StrayDelete            // Remove("") by an upload that times out before it has an id
    | StrayRelease

  predicate At(p: Pool, u: nat) {
    u in p.places
  }

  predicate Enabled(p: Pool, e: Event) {
    match e
    case Creates(u) => u !in p.places
    case Reserves(u, id) => At(p, u) && p.places[u].Created? && id !in p.uids && |id| == UUID_LENGTH
    case Inserts(u) => At(p, u) && p.places[u].Reserved?
    case LearnsId(u) => At(p, u) && p.places[u].Inserted?
    case Deletes(u) => At(p, u) && p.places[u].Pooled?
    case Releases(u) => At(p, u) && p.places[u].Deleted?
    case StrayDelete => true
    case StrayRelease => true
  }

  function Apply(p: Pool, e: Event): Pool
    requires Enabled(p, e)
  {
    match e
    case Creates(u) => p.(places := p.places[u := Created])
    case Reserves(u, id) => p.(uids := p.uids + {id}, places := p.places[u := Reserved(id)])
    case Inserts(u) =>
      var id := p.places[u].id;
      p.(uploaders := p.uploaders[id := u], places := p.places[u := Inserted(id)])
    case LearnsId(u) => p.(places := p.places[u := Pooled(p.places[u].id)])
    case Deletes(u) =>
      var id := p.places[u].id;
      p.(uploaders := p.uploaders - {id}, places := p.places[u := Deleted(id)])
    case Releases(u) => p.(uids := p.uids - {p.places[u].id}, places := p.places[u := Out])
    case StrayDelete => p.(uploaders := p.uploaders - {""})
    case StrayRelease => p.(uids := p.uids - {""})
  }

  predicate Legal(p: Pool, es: seq<Event>)
    decreases |es|
  {
    es == [] || (Enabled(p, es[0]) && Legal(Apply(p, es[0]), es[1..]))
  }

  function Exec(p: Pool, es: seq<Event>): Pool
    requires Legal(p, es)
    decreases |es|
  {
    if es == [] then p else Exec(Apply(p, es[0]), es[1..])
  }

  const EMPTY_POOL: Pool := Pool({}, map[], map[])

  // ---------------------------------------------------------------- the invariant

  predicate PlaceOK(p: Pool, u: nat)
    requires u in p.places
  {
    var place := p.places[u];
    && (place.HasId() ==> place.id in p.uids && |place.id| == UUID_LENGTH)
    && (place.InMap() ==> place.id in p.uploaders && p.uploaders[place.id] == u)
  }

  predicate SameId(p: Pool, u: nat, v: nat)
    requires u in p.places && v in p.places
  {
    && p.places[u].HasId() && p.places[v].HasId()
    && p.places[u].id == p.places[v].id
  }

  ghost predicate Inv(p: Pool) {
    && p.uploaders.Keys <= p.uids
    && (forall u :: u in p.places ==> PlaceOK(p, u))
    && (forall u, v :: u in p.places && v in p.places && SameId(p, u, v) ==> u == v)
    && (forall i :: i in p.uploaders ==>
          p.uploaders[i] in p.places && p.places[p.uploaders[i]].InMap() && p.places[p.uploaders[i]].id == i)
  }

  lemma EnterKeeps(p: Pool, e: Event)
    requires Inv(p) && Enabled(p, e) && (e.Creates? || e.Reserves? || e.LearnsId?)
    ensures Inv(Apply(p, e))
  {
    var p' := Apply(p, e);
    forall v | v in p'.places ensures PlaceOK(p', v) {
      assert v != e.u ==> PlaceOK(p, v);
    }
  }

  lemma InsertKeeps(p: Pool, u: nat)
    requires Inv(p) && Enabled(p, Inserts(u))
    ensures Inv(Apply(p, Inserts(u))) && p.places[u].id !in p.uploaders
  {
    var p' := Apply(p, Inserts(u));
    assert PlaceOK(p, u);
    forall v | v in p'.places ensures PlaceOK(p', v) {
      assert v != u ==> PlaceOK(p, v);
    }
  }

  lemma LeaveKeeps(p: Pool, e: Event)
    requires Inv(p) && Enabled(p, e) && (e.Deletes? || e.Releases?)
    ensures Inv(Apply(p, e))
  {
    var p' := Apply(p, e);
    assert PlaceOK(p, e.u);
    forall v | v in p'.places ensures PlaceOK(p', v) {
      assert v != e.u ==> PlaceOK(p, v);
    }
  }

  lemma StrayKeeps(p: Pool, e: Event)
    requires Inv(p) && (e.StrayDelete? || e.StrayRelease?)
    ensures Inv(Apply(p, e))
  {
    var p' := Apply(p, e);
    forall v | v in p'.places ensures PlaceOK(p', v) {
      assert PlaceOK(p, v);
    }
    forall i | i in p.uploaders ensures i != "" {
      assert PlaceOK(p, p.uploaders[i]);
    }
  }

  lemma StepKeeps(p: Pool, e: Event)
    requires Inv(p) && Enabled(p, e)
    ensures Inv(Apply(p, e))
  {
    match e
    case Inserts(u) => InsertKeeps(p, u);
    case Deletes(u) => LeaveKeeps(p, e);
    case Releases(u) => LeaveKeeps(p, e);
    case StrayDelete => StrayKeeps(p, e);
    case StrayRelease => StrayKeeps(p, e);
    case _ => EnterKeeps(p, e);
  }

  lemma {:induction false} RunKeeps(p: Pool, es: seq<Event>)
    requires Inv(p) && Legal(p, es)
    ensures Inv(Exec(p, es))
    decreases |es|
  {
    if es != [] {
      StepKeeps(p, es[0]);
      RunKeeps(Apply(p, es[0]), es[1..]);
    }
  }

  // ---------------------------------------------------------------- what follows

  /** The upload that has an id. */
  ghost predicate Owned(p: Pool, id: string) {
    exists u :: u in p.places && p.places[u].HasId() && p.places[u].id == id
  }

  /** No id stays reserved for nobody. */
  ghost predicate NoLeak(p: Pool) {
    forall id :: id in p.uids ==> Owned(p, id)
  }

  lemma StepLeaksNothing(p: Pool, e: Event)
    requires Inv(p) && NoLeak(p) && Enabled(p, e)
    ensures NoLeak(Apply(p, e))
  {
    var p' := Apply(p, e);
    forall id | id in p'.uids ensures Owned(p', id) {
      if e.Reserves? && id == e.id {
        assert p'.places[e.u].HasId() && p'.places[e.u].id == id;
      } else {
        assert Owned(p, id);
        var u :| u in p.places && p.places[u].HasId() && p.places[u].id == id;
        assert u in p'.places && p'.places[u].HasId() && p'.places[u].id == id;
      }
    }
  }

  lemma {:induction false} RunLeaksNothing(p: Pool, es: seq<Event>)
    requires Inv(p) && NoLeak(p) && Legal(p, es)
    ensures NoLeak(Exec(p, es))
    decreases |es|
  {
    if es != [] {
      StepKeeps(p, es[0]);
      StepLeaksNothing(p, es[0]);
      RunLeaksNothing(Apply(p, es[0]), es[1..]);
    }
  }

  /** The reserved ids are exactly those of the uploads that have one: an id can be drawn again as soon as
      its upload has left. */
  lemma IdsAreExact(es: seq<Event>, id: string)
    requires Legal(EMPTY_POOL, es)
    ensures id in Exec(EMPTY_POOL, es).uids <==> Owned(Exec(EMPTY_POOL, es), id)
  {
    RunKeeps(EMPTY_POOL, es);
    RunLeaksNothing(EMPTY_POOL, es);
    var p := Exec(EMPTY_POOL, es);
    if Owned(p, id) {
      var u :| u in p.places && p.places[u].HasId() && p.places[u].id == id;
      assert PlaceOK(p, u);
    }
  }

  /** However uploads come and go, every pooled id is reserved, Put never overwrites an entry, looking
      an id up finds the upload that has it, and no two uploads have the same id. */
  lemma PoolIsConsistent(es: seq<Event>, e: Event)
    requires Legal(EMPTY_POOL, es) && Enabled(Exec(EMPTY_POOL, es), e)
    ensures var p := Exec(EMPTY_POOL, es);
            && p.uploaders.Keys <= p.uids
            && (e.Inserts? ==> p.places[e.u].id !in p.uploaders)
            && (forall i :: i in p.uploaders ==>
                  p.uploaders[i] in p.places && p.places[p.uploaders[i]].InMap() && p.places[p.uploaders[i]].id == i)
            && (forall u, v :: u in p.places && v in p.places && SameId(p, u, v) ==> u == v)
  {
    RunKeeps(EMPTY_POOL, es);
    if e.Inserts? {
      InsertKeeps(Exec(EMPTY_POOL, es), e.u);
    }
  }

  /** Two uploads that share the storage directory and are alive in the pools at the same time:
      cancelling the one and cleaning it up, in whatever condition it is, or storing a chunk for it,
      leaves the other's bytes as they are. */
  lemma UploadsIsolated(es: seq<Event>, u: nat, v: nat, a: Upload, b: Upload, files: Files,
                        dataB: Bytes, chunk: Bytes, io: IO)
    requires Legal(EMPTY_POOL, es)
    requires var p := Exec(EMPTY_POOL, es);
             && u != v && u in p.places && v in p.places && p.places[u].HasId() && p.places[v].HasId()
             && p.places[u].id == a.id && p.places[v].id == b.id
    requires a.dir == b.dir && OwnPath(a, a.path)
    requires OwnPath(b, b.path) && UploadSpec.Holds(World(b, files), dataB)
    ensures UploadSpec.Holds(World(b, CancelUpload(World(a, files), io.removeOk).files), dataB)
    ensures UploadSpec.Holds(World(b, CleanUpUpload(World(a, files), io.removeOk).files), dataB)
    ensures !a.state.Receiving() || (Disciplined(a) && a.filePos != a.fileSize) ==>
              UploadSpec.Holds(World(b, Consume(World(a, files), chunk, io).w.files), dataB)
  {
    RunKeeps(EMPTY_POOL, es);
    assert PlaceOK(Exec(EMPTY_POOL, es), u) && PlaceOK(Exec(EMPTY_POOL, es), v);
    var w := World(a, files);
    TouchesOwnFilesOnly(w, io.removeOk);
    OthersUnaffected(a, b, files, CancelUpload(w, io.removeOk).files, dataB);
    OthersUnaffected(a, b, files, CleanUpUpload(w, io.removeOk).files, dataB);
    if !a.state.Receiving() || (Disciplined(a) && a.filePos != a.fileSize) {
      ConsumeTouchesOwn(w, chunk, io);
      OthersUnaffected(a, b, files, Consume(w, chunk, io).w.files, dataB);
    }
  }
}
