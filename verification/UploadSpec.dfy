/** The server-side upload as a value: what each critical section of the uploader does to its
    fields and to the file system. The class in Upload.dfy is proved against these functions, and
    the two step systems (Transfer.dfy, Lifecycle.dfy) are built from them. */
module UploadSpec {
  import opened Protocol

  datatype State = Init | Uploading | Paused | HandingOver | Cancelled | Finished | CleanedUp {
    /** The numbering the source compares states by. */
    function Rank(): nat {
      match this
      case Init => 0
      case Uploading => 1
      case Paused => 2
      case HandingOver => 3
      case Cancelled => 4
      case Finished => 5
      case CleanedUp => 6
    }

    predicate Receiving() {
      Rank() < HandingOver.Rank()
    }
  }

  type Files = map<string, Bytes>

  datatype Handle = Closed | Open(offset: nat)

  datatype Upload = Upload(
    id: string, dir: string, removeWhenFinished: bool,
    state: State, bound: bool,
    path: string, fd: Handle, filePos: nat, fileSize: int)
  {
    function PartPath(): string {
      dir + "/" + id + ".part"
    }

    function FinalPath(): string {
      dir + "/" + id
    }

    /** Slicing the suffix off the path cannot panic. */
    predicate NoPanic() {
      state.Uploading? || state.Paused? || fd.Open? ==> |path| >= 5
    }
  }

  datatype World = World(up: Upload, files: Files) {
    function Stored(): Bytes {
      if up.path != "" && up.path in files then files[up.path] else []
    }
  }

  /** What the operating system answers during one call of the uploader. A failing write may
      have written some of its bytes. */
  datatype IO = IO(createOk: bool, openOk: bool, writeOk: bool, written: nat,
                   truncOk: bool, renameOk: bool, removeOk: bool)

  datatype ConsumeError = CreateFailed | ReopenFailed | WrongState | TooLarge | WriteFailed | RenameFailed

  datatype Consumed = Consumed(w: World, err: Option<ConsumeError>)

  // ---------------------------------------------------------------- files

  function Zeros(n: nat): Bytes {
    seq(n, _ => 0 as Byte)
  }

  function WriteAt(c: Bytes, at: nat, d: Bytes): Bytes {
    (if at <= |c| then c[..at] else c + Zeros(at - |c|)) + d
    + (if at + |d| < |c| then c[at + |d|..] else [])
  }

  function Resize(c: Bytes, n: nat): Bytes {
    if n <= |c| then c[..n] else c + Zeros(n - |c|)
  }

  /** The name without its last five characters. */
  function Strip(p: string): string {
    if |p| < 5 then "" else p[..|p| - 5]
  }

  // ---------------------------------------------------------------- consuming chunks

  /** The part of ConsumeFileChunk that holds the state lock. */
  function ConsumeState(w: World, io: IO): Consumed {
    var up := w.up;
    if up.state.Init? then
      var named := up.(path := up.PartPath());
      if !io.createOk then Consumed(w.(up := named), Some(CreateFailed))
      else Consumed(World(named.(fd := Open(0), state := Uploading), w.files[named.path := []]), None)
    else if up.state.Paused? then
      if !io.openOk || up.path !in w.files then Consumed(w, Some(ReopenFailed))
      else Consumed(w.(up := up.(fd := Open(|w.files[up.path]|), state := Uploading)), None)
    else if up.state.Rank() > Paused.Rank() then Consumed(w, Some(WrongState))
    else Consumed(w, None)
  }

  /** Writing to the open handle: the new content of the file and the new offset. */
  function Written(w: World, d: Bytes): World
    requires w.up.fd.Open?
  {
    var files := if w.up.path in w.files
                 then w.files[w.up.path := WriteAt(w.files[w.up.path], w.up.fd.offset, d)] else w.files;
    World(w.up.(fd := Open(w.up.fd.offset + |d|)), files)
  }

  /** Truncating to `filePos` and seeking to the end; the truncation may fail unnoticed. */
  function Undone(w: World, truncOk: bool): World
    requires w.up.fd.Open?
  {
    if w.up.path !in w.files then w.(up := w.up.(fd := Open(0)))
    else
      var c := w.files[w.up.path];
      var c' := if truncOk then Resize(c, w.up.filePos) else c;
      World(w.up.(fd := Open(|c'|)), w.files[w.up.path := c'])
  }

  /** The rest of ConsumeFileChunk, after the state lock is released. A nil file handle makes
      every file operation fail. */
  function ConsumeWrite(w: World, chunk: Bytes, io: IO): Consumed {
    if w.up.filePos + |chunk| > w.up.fileSize then Consumed(w, Some(TooLarge))
    else if w.up.fd.Closed? then Consumed(w, Some(WriteFailed))
    else if !io.writeOk then
      Consumed(Undone(Written(w, chunk[..Min(io.written, |chunk|)]), io.truncOk), Some(WriteFailed))
    else
      var w1 := Written(w, chunk);
      var up := w1.up.(filePos := w.up.filePos + |chunk|);
      if up.filePos != up.fileSize then Consumed(w1.(up := up), None)
      else
        var closed := up.(fd := Closed);
        if !io.renameOk || up.path !in w1.files then Consumed(w1.(up := closed), Some(RenameFailed))
        else
          var newName := Strip(up.path);
          Consumed(World(closed.(path := newName), (w1.files - {up.path})[newName := w1.files[up.path]]), None)
  }

  function Consume(w: World, chunk: Bytes, io: IO): Consumed {
    var c := ConsumeState(w, io);
    if c.err.Some? then c else ConsumeWrite(c.w, chunk, io)
  }

  // ---------------------------------------------------------------- the other operations

  function PauseUpload(w: World): World {
    if w.up.state.Uploading? || w.up.state.Paused?
    then w.(up := w.up.(state := State.Paused, fd := Closed)) else w
  }

  /** The state-lock section of HandFileToApp; the routine is started iff the state changed. */
  function StartHandover(w: World): World {
    if w.up.state.Receiving() then w.(up := w.up.(state := HandingOver)) else w
  }

  /** The unconditional state write at the end of the handover routine. */
  function Settle(w: World, ok: bool): World {
    w.(up := w.up.(state := if ok then Finished else Cancelled))
  }

  function CancelState(w: World): World {
    w.(up := w.up.(state := Cancelled))
  }

  /** What Cancel does with the file once it has changed the state. */
  function CancelFile(w: World, removeOk: bool): World {
    World(w.up.(fd := Closed),
          if w.up.path != "" && removeOk then w.files - {w.up.path} else w.files)
  }

  function CancelUpload(w: World, removeOk: bool): World {
    if w.up.state.Receiving() then CancelFile(CancelState(w), removeOk) else w
  }

  predicate MayCleanUp(s: State) {
    s.Cancelled? || s.Finished?
  }

  function CleanFile(w: World, removeOk: bool): World {
    if w.up.removeWhenFinished && !w.up.state.Cancelled? && removeOk
    then w.(files := w.files - {w.up.path}) else w
  }

  function CleanUpUpload(w: World, removeOk: bool): World {
    if MayCleanUp(w.up.state)
    then var w1 := CleanFile(w, removeOk); w1.(up := w1.up.(state := CleanedUp)) else w
  }

  function CancelAndCleanUp(w: World, removeOk: bool): World {
    CleanUpUpload(CancelUpload(w, removeOk), removeOk)
  }

  // ---------------------------------------------------------------- what the file holds

  /** The upload has received exactly `data`, and path, handle and file are as its state demands:
      a handle is open only while uploading an incomplete file and stands at its end, the name
      carries ".part" until the file is complete. An empty upload has no file. */
  predicate Holds(w: World, data: Bytes) {
    && w.up.filePos == |data|
    && (w.up.fd.Open? ==> w.up.state.Uploading? && w.up.filePos != w.up.fileSize)
    && match w.up.state
       case Init => data == [] && w.up.path == ""
       case Uploading => w.up.fileSize != 0
                         && if w.up.filePos == w.up.fileSize then HasFile(w, w.up.FinalPath(), data)
                            else HasFile(w, w.up.PartPath(), data) && w.up.fd == Open(|data|)
       case Paused => w.up.fileSize != 0 && w.up.filePos != w.up.fileSize && HasFile(w, w.up.PartPath(), data)
       case HandingOver => w.up.filePos == w.up.fileSize
                           && if data == [] then w.up.path == "" else HasFile(w, w.up.FinalPath(), data)
       case _ => true
  }

  predicate HasFile(w: World, path: string, data: Bytes) {
    w.up.path == path && path in w.files && w.files[path] == data
  }

  /** The file holds some of `all`, from the start and no less than is counted. */
  predicate HoldsPrefix(w: World, all: Bytes) {
    w.up.filePos <= |w.Stored()| && w.Stored() <= all
  }

  /** Everything ConsumeFileChunk needs from its surroundings to store a chunk. */
  predicate CanStore(w: World, chunk: Bytes, io: IO) {
    && (w.up.state.Init? ==> io.createOk)
    && (w.up.state.Paused? ==> io.openOk)
    && w.up.filePos + |chunk| <= w.up.fileSize
    && io.writeOk
    && (w.up.filePos + |chunk| == w.up.fileSize ==> io.renameOk)
  }

  lemma WriteAtEnd(c: Bytes, d: Bytes)
    ensures WriteAt(c, |c|, d) == c + d
    ensures Resize(WriteAt(c, |c|, d), |c|) == c
  {
  }

  lemma StripPart(up: Upload)
    ensures |up.PartPath()| >= 5 && Strip(up.PartPath()) == up.FinalPath()
    ensures up.PartPath() != up.FinalPath() && up.PartPath() != "" && up.FinalPath() != ""
  {
    assert up.PartPath() == up.FinalPath() + ".part";
    assert |up.FinalPath()| >= 1;
  }

  /** After the state business a handle stands at the end of the ".part" file. */
  predicate Ready(w: World, data: Bytes) {
    w.up.state.Uploading? && w.up.filePos == |data| && w.up.filePos != w.up.fileSize
    && HasFile(w, w.up.PartPath(), data) && w.up.fd == Open(|data|)
  }

  predicate SameUpload(a: Upload, b: Upload) {
    a.id == b.id && a.dir == b.dir && a.removeWhenFinished == b.removeWhenFinished
    && a.bound == b.bound && a.fileSize == b.fileSize
  }

  lemma ConsumeStateReady(w: World, data: Bytes, io: IO)
    requires Holds(w, data) && w.up.filePos != w.up.fileSize
    ensures var r := ConsumeState(w, io);
            && (r.err.None? <==> w.up.state.Receiving() && (w.up.state.Init? ==> io.createOk)
                                 && (w.up.state.Paused? ==> io.openOk))
            && (r.err.None? ==> Ready(r.w, data))
            && (r.err.Some? ==> r.w.files == w.files && !r.err.value.RenameFailed? && !r.err.value.WriteFailed?
                                && (!w.up.state.Init? ==> r.w == w))
            && SameUpload(r.w.up, w.up) && r.w.up.filePos == w.up.filePos
  {
  }

  lemma ConsumeWriteAppends(w: World, data: Bytes, chunk: Bytes, io: IO)
    requires Ready(w, data)
    ensures var r := ConsumeWrite(w, chunk, io);
            && (r.err.None? <==> w.up.filePos + |chunk| <= w.up.fileSize && io.writeOk
                                 && (w.up.filePos + |chunk| == w.up.fileSize ==> io.renameOk))
            && (r.err.None? ==> Holds(r.w, data + chunk) && r.w.up.state.Uploading?)
            && SameUpload(r.w.up, w.up)
  {
    StripPart(w.up);
    WriteAtEnd(data, chunk);
    if w.up.filePos + |chunk| <= w.up.fileSize && !io.writeOk {
    } else if w.up.filePos + |chunk| <= w.up.fileSize {
      var w1 := Written(w, chunk);
      assert HasFile(w1, w.up.PartPath(), data + chunk);
    }
  }

  /** The only fields the writing part changes. */
  lemma ConsumeWriteFields(w: World, chunk: Bytes, io: IO)
    ensures var r := ConsumeWrite(w, chunk, io);
            && SameUpload(r.w.up, w.up) && r.w.up.state == w.up.state
            && (r.w.up.path == w.up.path
                || (r.w.up.path == Strip(w.up.path) && w.up.fd.Open? && r.w.up.fd.Closed?
                    && r.w.up.filePos == r.w.up.fileSize))
            && (r.w.up.fd.Open? ==> w.up.fd.Open?)
            && (w.up.fd.Closed? ==> r.w == w)
  {
  }

  /** A failing call neither moves the position back nor reopens a finished upload. */
  lemma ConsumeKeeps(w: World, chunk: Bytes, io: IO)
    ensures var r := Consume(w, chunk, io);
            && SameUpload(r.w.up, w.up)
            && w.up.filePos <= r.w.up.filePos
            && (w.up.state.Receiving() ==> r.w.up.state.Receiving())
            && (!w.up.state.Receiving() ==> r.w == w && r.err == Some(WrongState))
            && (r.w.up.filePos <= w.up.fileSize || r.w.up.filePos == w.up.filePos)
            && (r.w.up.fd.Open? ==> r.w.up.state.Uploading? || w.up.fd.Open?)
            && (r.w.up.state.Init? ==> w.up.state.Init?)
            && (!r.w.up.state.Init? ==> w.up.state.Init? || !r.w.up.state.Paused? || r.w.up.state == w.up.state)
  {
    ConsumeStateKeeps(w, io);
    ConsumeWriteFields(ConsumeState(w, io).w, chunk, io);
  }

  lemma ConsumeStateKeeps(w: World, io: IO)
    ensures var r := ConsumeState(w, io);
            && SameUpload(r.w.up, w.up) && r.w.up.filePos == w.up.filePos
            && (!w.up.state.Receiving() ==> r.w == w && r.err == Some(WrongState))
            && (r.err.None? ==> r.w.up.state.Uploading?)
            && (r.err.Some? ==> r.w.up.state == w.up.state && r.w.up.fd == w.up.fd)
  {
  }

  /** A chunk is stored exactly when the surroundings allow it; then the received bytes grow by
      it, at the end of the file, also for the first chunk and after a pause. */
  lemma ConsumeAppends(w: World, data: Bytes, chunk: Bytes, io: IO)
    requires Holds(w, data) && w.up.state.Receiving() && w.up.filePos != w.up.fileSize
    ensures w.up.NoPanic()
    ensures var r := Consume(w, chunk, io);
            && (r.err.None? <==> CanStore(w, chunk, io))
            && (r.err.None? ==> Holds(r.w, data + chunk) && r.w.up.state.Uploading?)
            && SameUpload(r.w.up, w.up)
  {
    StripPart(w.up);
    ConsumeStateReady(w, data, io);
    var c := ConsumeState(w, io);
    if c.err.None? {
      ConsumeWriteAppends(c.w, data, chunk, io);
    }
  }

  /** The state business succeeds and the chunk fits, so that a write is attempted. */
  predicate Attempted(w: World, chunk: Bytes, io: IO) {
    && (w.up.state.Init? ==> io.createOk)
    && (w.up.state.Paused? ==> io.openOk)
    && w.up.filePos + |chunk| <= w.up.fileSize
  }

  /** What a refused chunk cannot take back: a complete write whose rename failed, or a partial write
      that could not be truncated away. */
  predicate Irrevocable(w: World, chunk: Bytes, io: IO) {
    Attempted(w, chunk, io) && (io.writeOk || (!io.truncOk && io.written > 0 && chunk != []))
  }

  /** "On error the write never happened": position and stored bytes are as before a refused chunk if
      and only if it left nothing irrevocable. Then the upload is as if it had never been offered the
      chunk, except that a new upload has got its file. */
  lemma ConsumeAllOrNothing(w: World, data: Bytes, chunk: Bytes, io: IO)
    requires Holds(w, data) && w.up.state.Receiving() && w.up.filePos != w.up.fileSize
    requires !CanStore(w, chunk, io)
    ensures var w' := Consume(w, chunk, io).w;
            && (w'.up.filePos == w.up.filePos && (w'.up.state.Init? || w'.Stored() == data)
                <==> !Irrevocable(w, chunk, io))
            && (!Irrevocable(w, chunk, io) ==>
                  if w.up.state.Init? && !io.createOk then w' == w.(up := w.up.(path := w.up.PartPath()))
                  else Holds(w', data))
  {
    StripPart(w.up);
    ConsumeStateReady(w, data, io);
    var c := ConsumeState(w, io);
    if c.err.None? {
      WriteRefused(c.w, data, chunk, io);
    }
  }

  /** The same for the writing part alone. */
  lemma WriteRefused(w: World, data: Bytes, chunk: Bytes, io: IO)
    requires Ready(w, data)
    requires !(w.up.filePos + |chunk| <= w.up.fileSize && io.writeOk
               && (w.up.filePos + |chunk| == w.up.fileSize ==> io.renameOk))
    ensures var w' := ConsumeWrite(w, chunk, io).w;
            && (w'.up.filePos == w.up.filePos && w'.Stored() == data <==> !Irrevocable(w, chunk, io))
            && (!Irrevocable(w, chunk, io) ==> Ready(w', data))
            && w'.up.state.Uploading?
  {
    StripPart(w.up);
    if w.up.filePos + |chunk| <= w.up.fileSize && !io.writeOk {
      var part := chunk[..Min(io.written, |chunk|)];
      WriteAtEnd(data, part);
      var w1 := Written(w, part);
      assert w1.files[w.up.path] == data + part && |data + part| == |data| + |part|;
      assert Undone(w1, io.truncOk).Stored() == if io.truncOk then data else data + part;
    }
  }

  /** Whatever becomes of a chunk, the file holds a prefix of the bytes sent, no shorter than what is
      counted as received. */
  lemma ConsumeKeepsPrefix(w: World, data: Bytes, chunk: Bytes, io: IO)
    requires Holds(w, data) && w.up.state.Receiving() && w.up.filePos != w.up.fileSize
    requires w.up.state.Init? ==> w.up.PartPath() !in w.files
    ensures HoldsPrefix(Consume(w, chunk, io).w, data + chunk)
    ensures Consume(w, chunk, io).w.up.state.Init? ==> w.up.PartPath() !in Consume(w, chunk, io).w.files
  {
    StripPart(w.up);
    ConsumeStateReady(w, data, io);
    var c := ConsumeState(w, io);
    if c.err.None? {
      WriteKeepsPrefix(c.w, data, chunk, io);
    }
  }

  lemma WriteKeepsPrefix(w: World, data: Bytes, chunk: Bytes, io: IO)
    requires Ready(w, data)
    ensures HoldsPrefix(ConsumeWrite(w, chunk, io).w, data + chunk)
    ensures ConsumeWrite(w, chunk, io).w.up.state.Uploading?
  {
    StripPart(w.up);
    var part := if io.writeOk then chunk else chunk[..Min(io.written, |chunk|)];
    WriteAtEnd(data, part);
    WriteAtEnd(data, chunk);
    if w.up.filePos + |chunk| <= w.up.fileSize {
      assert Written(w, part).files[w.up.path] == data + part;
      assert !io.writeOk ==> ConsumeWrite(w, chunk, io).w.Stored() == if io.truncOk then data else data + part;
    }
  }

  /** So the next write lands at the position reached: after a refused chunk that left nothing
      irrevocable, the next one is stored under the same conditions and at the same place as if it
      had come first. */
  lemma RetryAfterRefusal(w: World, data: Bytes, chunk: Bytes, io: IO, chunk2: Bytes, io2: IO)
    requires Holds(w, data) && w.up.state.Receiving() && w.up.filePos != w.up.fileSize
    requires !CanStore(w, chunk, io) && !Irrevocable(w, chunk, io)
    ensures var w1 := Consume(w, chunk, io).w;
            var r := Consume(w1, chunk2, io2);
            && (r.err.None? <==> CanStore(w1, chunk2, io2))
            && (r.err.None? ==> Holds(r.w, data + chunk2))
  {
    ConsumeAllOrNothing(w, data, chunk, io);
    ConsumeStateReady(w, data, io);
    ConsumeKeeps(w, chunk, io);
    var w1 := Consume(w, chunk, io).w;
    if w.up.state.Init? && !io.createOk {
      assert Consume(w1, chunk2, io2) == Consume(w, chunk2, io2);
      ConsumeAppends(w, data, chunk2, io2);
    } else {
      ConsumeAppends(w1, data, chunk2, io2);
    }
  }

  // ---------------------------------------------------------------- whose files are touched

  predicate OwnPath(up: Upload, p: string) {
    p == "" || p == up.PartPath() || p == up.FinalPath()
  }

  ghost predicate SameElsewhere(up: Upload, a: Files, b: Files) {
    forall p :: !OwnPath(up, p) ==> (p in a <==> p in b) && (p in a && p in b ==> a[p] == b[p])
  }

  const UUID_LENGTH := 36

  /** Two uploads in one directory with equally long ids, as UUIDs are, share a path only if they
      have the same id. */
  lemma PathsDisjoint(a: Upload, b: Upload, p: string)
    requires a.dir == b.dir && |a.id| == |b.id|
    requires OwnPath(a, p) && OwnPath(b, p) && p != ""
    ensures a.id == b.id
  {
    var n := |a.dir| + 1;
    assert p[n..n + |a.id|] == a.id;
    assert p[n..n + |b.id|] == b.id;
  }

  /** What one upload does to the file system within its own paths cannot be seen by another. */
  lemma OthersUnaffected(a: Upload, b: Upload, files: Files, files': Files, data: Bytes)
    requires a.dir == b.dir && |a.id| == |b.id| && a.id != b.id
    requires SameElsewhere(a, files, files')
    requires OwnPath(b, b.path) && Holds(World(b, files), data)
    ensures World(b, files').Stored() == World(b, files).Stored()
    ensures Holds(World(b, files'), data)
  {
    StripPart(b);
    if b.path != "" && OwnPath(a, b.path) {
      PathsDisjoint(a, b, b.path);
    }
  }

  /** What keeps the handler's calls from panicking, whatever the system answers: the path is one
      of the upload's own, and only an incomplete file still carries the suffix. */
  predicate Disciplined(up: Upload) {
    && OwnPath(up, up.path)
    && (up.path == up.FinalPath() ==> up.filePos == up.fileSize && up.fd.Closed?)
    && (up.state.Init? ==> up.path != up.FinalPath() && up.fd.Closed?)
    && (up.state.Uploading? || up.state.Paused? ==> up.path != "")
    && (up.fd.Open? ==> up.path == up.PartPath())
  }

  lemma ConsumeStateDisciplined(w: World, io: IO)
    requires Disciplined(w.up) && w.up.filePos != w.up.fileSize
    ensures var r := ConsumeState(w, io);
            Disciplined(r.w.up) && r.w.up.filePos != r.w.up.fileSize && SameUpload(r.w.up, w.up)
  {
    StripPart(w.up);
  }

  lemma ConsumeWriteDisciplined(w: World, chunk: Bytes, io: IO)
    requires Disciplined(w.up) && w.up.filePos != w.up.fileSize
    ensures var r := ConsumeWrite(w, chunk, io); Disciplined(r.w.up) && SameUpload(r.w.up, w.up)
  {
    StripPart(w.up);
    ConsumeWriteFields(w, chunk, io);
    var up' := ConsumeWrite(w, chunk, io).w.up;
    assert up'.PartPath() == w.up.PartPath() && up'.FinalPath() == w.up.FinalPath();
  }

  lemma ConsumeDisciplined(w: World, chunk: Bytes, io: IO)
    requires Disciplined(w.up) && w.up.filePos != w.up.fileSize
    ensures w.up.NoPanic()
    ensures Disciplined(Consume(w, chunk, io).w.up)
  {
    StripPart(w.up);
    ConsumeStateDisciplined(w, io);
    var c := ConsumeState(w, io);
    if c.err.None? {
      ConsumeWriteDisciplined(c.w, chunk, io);
    }
  }

  lemma WriteTouchesOwn(w: World, chunk: Bytes, io: IO)
    requires Disciplined(w.up)
    ensures SameElsewhere(w.up, w.files, ConsumeWrite(w, chunk, io).w.files)
  {
    StripPart(w.up);
  }

  /** Whatever has happened to an upload, also after a chunk that failed, cancelling it and cleaning it
      up touch no file outside its own two paths. */
  lemma TouchesOwnFilesOnly(w: World, removeOk: bool)
    requires OwnPath(w.up, w.up.path)
    ensures SameElsewhere(w.up, w.files, CancelUpload(w, removeOk).files)
    ensures SameElsewhere(w.up, w.files, CleanUpUpload(w, removeOk).files)
    ensures SameElsewhere(w.up, w.files, CancelAndCleanUp(w, removeOk).files)
  {
  }

  /** Neither does consuming, unless the file is complete. */
  lemma ConsumeTouchesOwn(w: World, chunk: Bytes, io: IO)
    requires !w.up.state.Receiving() || (Disciplined(w.up) && w.up.filePos != w.up.fileSize)
    ensures SameElsewhere(w.up, w.files, Consume(w, chunk, io).w.files)
  {
    if w.up.state.Receiving() {
      ConsumeStateDisciplined(w, io);
      StateTouchesOwn(w, io);
      var c := ConsumeState(w, io);
      if c.err.None? {
        WriteTouchesOwn(c.w, chunk, io);
      }
    }
  }

  lemma StateTouchesOwn(w: World, io: IO)
    ensures SameElsewhere(w.up, w.files, ConsumeState(w, io).w.files)
  {
  }

  // ---------------------------------------------------------------- outside the handler's discipline

  /** The handler never consumes or pauses once the file is complete. A caller that did would find
      every chunk refused while the upload is Uploading, but a paused complete upload strips five
      more characters off its name, exactly for an empty chunk the system lets it write. */
  lemma ConsumeAfterCompletion(w: World, data: Bytes, chunk: Bytes, io: IO)
    requires w.up.fileSize == |data| == w.up.filePos && w.up.fd.Closed?
    requires HasFile(w, w.up.FinalPath(), data) && |w.up.FinalPath()| >= 5
    requires w.up.state.Uploading? || w.up.state.Paused?
    ensures Consume(w, chunk, io).w.up.path == w.up.FinalPath()[..|w.up.FinalPath()| - 5]
            <==> w.up.state.Paused? && chunk == [] && io.openOk && io.writeOk && io.renameOk
  {
    var c := ConsumeState(w, io);
    assert |Strip(w.up.FinalPath())| < |w.up.FinalPath()|;
    if c.err.None? && w.up.state.Paused? && chunk == [] && io.writeOk {
      WriteAtEnd(data, chunk);
    }
  }

  /** Cleaning up happens to finished and cancelled uploads only. It removes the file exactly of a finished
      upload that asks for it, if the system lets it, and no other file; any file that stays keeps its
      bytes. */
  lemma CleanUpExactly(w: World, removeOk: bool)
    ensures var r := CleanUpUpload(w, removeOk);
            if w.up.state.Cancelled? || w.up.state.Finished?
            then r.up == w.up.(state := CleanedUp)
                 && (w.up.path in r.files <==>
                       w.up.path in w.files && !(w.up.removeWhenFinished && w.up.state.Finished? && removeOk))
                 && (forall p :: p != w.up.path ==> (p in r.files <==> p in w.files))
                 && (forall p :: p in r.files ==> p in w.files && r.files[p] == w.files[p])
            else r == w
  {
  }

  /** Pausing closes the handle of an upload that is receiving chunks, and keeps every byte. */
  lemma PauseKeepsBytes(w: World, data: Bytes)
    requires Holds(w, data) && w.up.filePos != w.up.fileSize
    ensures var r := PauseUpload(w);
            && Holds(r, data) && r.files == w.files && r.up.path == w.up.path && r.up.filePos == w.up.filePos
            && (r.up.state.Paused? <==> w.up.state.Uploading? || w.up.state.Paused?)
            && (r.up.state.Paused? ==> r.up.fd.Closed?)
            && (!r.up.state.Paused? ==> r == w)
  {
  }

  /** Cancelling is not a no-op on a cancelled upload: it is refused like any late cancel. */
  lemma CancelChangesReceivingOnly(w: World, removeOk: bool)
    ensures var r := CancelUpload(w, removeOk);
            if w.up.state.Receiving()
            then r.up.state == Cancelled && r.up.fd == Closed && r.up.filePos == w.up.filePos
                 && (removeOk && w.up.path != "" ==> w.up.path !in r.files)
                 && (forall p :: p in r.files ==> p in w.files && r.files[p] == w.files[p])
            else r == w
  {
  }
}
