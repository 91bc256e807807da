/** Any number of uploads that store their files in one directory at the same time. */
module SharedDisk {
  import opened Protocol
  import opened UploadSpec

  /** An upload, the bytes of all chunks it has accepted, and whether a refused chunk has left it in a
      condition from which its handler only cancels. */
  datatype Entry = Entry(up: Upload, received: Bytes, spoilt: bool)

  datatype Disk = Disk(dir: string, entries: map<string, Entry>, files: Files)

  /** What the uploader's operations are called for. */
  datatype Call =
    | SetsSize(size: int)
    | Stores(chunk: Bytes, io: IO)
    | Pauses
    | HandsOver
    | Settles(ok: bool)
    | Cancels(removeOk: bool)
    | CleansUp(removeOk: bool)

  /** An upload enters under an id that no other has, and leaves when it is cleaned up. */
  datatype Event =
    | Enters(id: string, removeWhenFinished: bool)
    | Calls(id: string, call: Call)
    | Leaves(id: string)

  function WorldOf(d: Disk, e: Entry): World {
    World(e.up, d.files)
  }

  /** When the handler and the handover routine make a call. */
  predicate MayCall(e: Entry, c: Call) {
    match c
    case SetsSize(size) => e.up.state.Init?
    case Stores(chunk, io) => e.up.filePos != e.up.fileSize && !e.spoilt
    case Pauses => e.up.filePos != e.up.fileSize && !e.spoilt
    case HandsOver => e.up.filePos == e.up.fileSize && !e.spoilt
    case Settles(ok) => e.up.state.HandingOver?
    case Cancels(removeOk) => true
    case CleansUp(removeOk) => true
  }

  predicate Enabled(d: Disk, e: Event) {
    match e
    case Enters(id, rm) => id !in d.entries && |id| == UUID_LENGTH
    case Calls(id, c) => id in d.entries && MayCall(d.entries[id], c)
    case Leaves(id) => id in d.entries && d.entries[id].up.state.CleanedUp?
  }

  function After(w: World, c: Call): World {
    match c
    case SetsSize(size) => w.(up := w.up.(fileSize := size))
    case Stores(chunk, io) => Consume(w, chunk, io).w
    case Pauses => PauseUpload(w)
    case HandsOver => StartHandover(w)
    case Settles(ok) => Settle(w, ok)
    case Cancels(removeOk) => CancelUpload(w, removeOk)
    case CleansUp(removeOk) => CleanUpUpload(w, removeOk)
  }

  /** A chunk that is not stored spoils the upload if it leaves something behind. */
  predicate Spoils(w: World, c: Call) {
    c.Stores? && w.up.state.Receiving() && !CanStore(w, c.chunk, c.io)
    && (Irrevocable(w, c.chunk, c.io) || (w.up.state.Init? && !c.io.createOk))
  }

  function Called(d: Disk, e: Entry, c: Call): Entry {
    var w := WorldOf(d, e);
    Entry(After(w, c).up,
          if c.Stores? && Consume(w, c.chunk, c.io).err.None? then e.received + c.chunk else e.received,
          e.spoilt || Spoils(w, c))
  }

  function Apply(d: Disk, e: Event): Disk
    requires Enabled(d, e)
  {
    match e
    case Enters(id, rm) =>
      var up := Upload(id, d.dir, rm, Init, false, "", Closed, 0, 0);
      d.(entries := d.entries[id := Entry(up, [], false)])
    case Calls(id, c) =>
      d.(entries := d.entries[id := Called(d, d.entries[id], c)], files := After(WorldOf(d, d.entries[id]), c).files)
    case Leaves(id) => d.(entries := d.entries - {id})
  }

  predicate Legal(d: Disk, es: seq<Event>)
    decreases |es|
  {
    es == [] || (Enabled(d, es[0]) && Legal(Apply(d, es[0]), es[1..]))
  }

  function Exec(d: Disk, es: seq<Event>): Disk
    requires Legal(d, es)
    decreases |es|
  {
    if es == [] then d else Exec(Apply(d, es[0]), es[1..])
  }

  // ---------------------------------------------------------------- the invariant

  /** The entry's file holds exactly what it has accepted, unless it is spoilt. */
  predicate Sound(d: Disk, id: string)
    requires id in d.entries
  {
    var e := d.entries[id];
    && e.up.id == id && |id| == UUID_LENGTH && e.up.dir == d.dir && OwnPath(e.up, e.up.path)
    && (!e.spoilt ==> Holds(WorldOf(d, e), e.received))
  }

  predicate Inv(d: Disk) {
    forall id :: id in d.entries ==> Sound(d, id)
  }

  /** An upload that holds its bytes is in the condition the handler's calls need. */
  lemma HoldsIsDisciplined(w: World, data: Bytes)
    requires Holds(w, data) && OwnPath(w.up, w.up.path) && w.up.state.Receiving()
    ensures Disciplined(w.up)
  {
    StripPart(w.up);
  }

  /** A call keeps the caller's own upload sound. */
  lemma StoringKeepsOwn(w: World, data: Bytes, chunk: Bytes, io: IO)
    requires Holds(w, data) && OwnPath(w.up, w.up.path) && w.up.filePos != w.up.fileSize
    ensures var r := Consume(w, chunk, io);
            && (!Spoils(w, Stores(chunk, io)) ==> Holds(r.w, if r.err.None? then data + chunk else data))
            && OwnPath(r.w.up, r.w.up.path)
  {
    ConsumeKeeps(w, chunk, io);
    if w.up.state.Receiving() {
      HoldsIsDisciplined(w, data);
      ConsumeDisciplined(w, chunk, io);
      ConsumeAppends(w, data, chunk, io);
      if !CanStore(w, chunk, io) {
        ConsumeAllOrNothing(w, data, chunk, io);
      }
    }
  }

  lemma CallKeepsOwn(d: Disk, id: string, c: Call)
    requires Inv(d) && Enabled(d, Calls(id, c))
    ensures Sound(Apply(d, Calls(id, c)), id)
  {
    var e := d.entries[id];
    assert Sound(d, id);
    if c.Stores? {
      StoringKeepsOwn(WorldOf(d, e), e.received, c.chunk, c.io);
      ConsumeKeeps(WorldOf(d, e), c.chunk, c.io);
    }
  }

  /** A call touches no other upload's file. */
  lemma CallTouchesOwn(d: Disk, id: string, c: Call)
    requires Inv(d) && Enabled(d, Calls(id, c))
    ensures var w := WorldOf(d, d.entries[id]); SameElsewhere(w.up, d.files, After(w, c).files)
  {
    var e := d.entries[id];
    var w := WorldOf(d, e);
    assert Sound(d, id);
    if c.Stores? {
      if w.up.state.Receiving() {
        HoldsIsDisciplined(w, e.received);
      }
      ConsumeTouchesOwn(w, c.chunk, c.io);
    } else if c.Cancels? || c.CleansUp? {
      TouchesOwnFilesOnly(w, c.removeOk);
    }
  }

  lemma CallKeepsOthers(d: Disk, id: string, c: Call, other: string)
    requires Inv(d) && Enabled(d, Calls(id, c)) && other in d.entries && other != id
    ensures Sound(Apply(d, Calls(id, c)), other)
  {
    var a, b := d.entries[id], d.entries[other];
    assert Sound(d, id) && Sound(d, other);
    CallTouchesOwn(d, id, c);
    if !b.spoilt {
      OthersUnaffected(a.up, b.up, d.files, After(WorldOf(d, a), c).files, b.received);
    }
  }

  lemma StepKeeps(d: Disk, e: Event)
    requires Inv(d) && Enabled(d, e)
    ensures Inv(Apply(d, e))
  {
    var d' := Apply(d, e);
    forall id | id in d'.entries ensures Sound(d', id) {
      if e.Calls? {
        if id == e.id {
          CallKeepsOwn(d, id, e.call);
        } else {
          CallKeepsOthers(d, e.id, e.call, id);
        }
      } else {
        assert id in d.entries ==> Sound(d, id);
      }
    }
  }

  lemma {:induction false} RunKeeps(d: Disk, es: seq<Event>)
    requires Inv(d) && Legal(d, es)
    ensures Inv(Exec(d, es))
    decreases |es|
  {
    if es != [] {
      StepKeeps(d, es[0]);
      RunKeeps(Apply(d, es[0]), es[1..]);
    }
  }

  /** However many uploads share the directory and however their calls interleave: an upload that no
      refused chunk has spoilt and nobody has cancelled has in its file exactly the chunks it accepted,
      in order; when it is handed over, that is a file of the declared size under its final name. */
  lemma FilesAreSeparate(dir: string, es: seq<Event>, id: string)
    requires Legal(Disk(dir, map[], map[]), es)
    requires id in Exec(Disk(dir, map[], map[]), es).entries
    ensures var d := Exec(Disk(dir, map[], map[]), es);
            var e := d.entries[id];
            !e.spoilt ==>
              && (e.up.state.Receiving() ==> WorldOf(d, e).Stored() == e.received)
              && (e.up.state.HandingOver? ==>
                    && |e.received| == e.up.fileSize
                    && (e.received != [] ==> HasFile(WorldOf(d, e), dir + "/" + id, e.received)))
  {
    RunKeeps(Disk(dir, map[], map[]), es);
    SameDir(Disk(dir, map[], map[]), es);
    var d := Exec(Disk(dir, map[], map[]), es);
    assert Sound(d, id);
    StripPart(d.entries[id].up);
  }

  lemma {:induction false} SameDir(d: Disk, es: seq<Event>)
    requires Legal(d, es)
    ensures Exec(d, es).dir == d.dir
    decreases |es|
  {
    if es != [] {
      SameDir(Apply(d, es[0]), es[1..]);
    }
  }
}
