/** The uploader that stores a file in a local file system, field by field and call by call. Every
    method is proved to act on the fields and the file system as UploadSpec says. */
module LocalFileUploads {
  import opened Protocol
  import opened UploadSpec
  import opened Pools

  class FileSystem {
    var files: Files

    method Create(path: string, ok: bool) returns (created: bool)
      modifies this
      ensures created == ok && files == if ok then old(files)[path := []] else old(files)
    {
      created := ok;
      if ok {
        files := files[path := []];
      }
    }

    method Write(path: string, offset: nat, data: Bytes)
      modifies this
      ensures files == if path in old(files)
                       then old(files)[path := WriteAt(old(files)[path], offset, data)] else old(files)
    {
      if path in files {
        files := files[path := WriteAt(files[path], offset, data)];
      }
    }

    method Truncate(path: string, size: nat, ok: bool)
      modifies this
      ensures files == if ok && path in old(files)
                       then old(files)[path := Resize(old(files)[path], size)] else old(files)
    {
      if ok && path in files {
        files := files[path := Resize(files[path], size)];
      }
    }

    method Rename(from: string, to: string, ok: bool) returns (renamed: bool)
      modifies this
      ensures renamed == (ok && from in old(files))
      ensures files == if renamed then (old(files) - {from})[to := old(files)[from]] else old(files)
    {
      renamed := ok && from in files;
      if renamed {
        files := (files - {from})[to := files[from]];
      }
    }

    method Remove(path: string, ok: bool) returns (removed: bool)
      modifies this
      ensures removed == (ok && path in old(files))
      ensures files == if ok then old(files) - {path} else old(files)
    {
      removed := ok && path in files;
      if ok {
        files := files - {path};
      }
    }

    /** Where a seek to the end of the file leads. */
    function Size(path: string): nat
      reads this
    {
      if path in files then |files[path]| else 0
    }
  }

  /** A request to the app backend: the named file, and whether it announces a cancelled upload. */
  datatype Post = Post(filename: string, cancelled: bool)

  datatype Reply = ReplyDone | ReplyWait | ReplyFailed

  datatype CancelError = TooLateToCancel | RequestFailed

  datatype CleanUpError = TooEarlyToCleanUp | RemoveFailed

  class UploadToLocalFile {
    const dir: string
    const removeFileWhenFinished: bool
    const disk: FileSystem
    const pool: LockedUploaderPool<UploadToLocalFile>

    var id: string
    var state: State
    var boundToSocketHandler: bool
    var path: string
    var fd: Handle
    var filePos: nat
    var fileSize: int
    var timeoutClosed: bool  // chHandleTimeoutClosed
    var posts: seq<Post>     // requests sent to the app backend so far
    var waitSent: Option<bool>  // what went over chHandoverWait: whether the handover succeeded
    var waitClosed: bool        // chHandoverWait

    function View(): World
      reads this, disk
    {
      World(Upload(id, dir, removeFileWhenFinished, state, boundToSocketHandler, path, fd, filePos, fileSize),
            disk.files)
    }

    /** The channel that stops the timeout routine is closed by the clean-up and only there, the one a
        handler waits on not before the handover is over. Closing one twice would panic. */
    ghost predicate Valid()
      reads this
    {
      && (timeoutClosed <==> state.CleanedUp?)
      && (waitClosed ==> state.Rank() > HandingOver.Rank())
      && (waitSent.Some? ==> waitClosed)
    }

    constructor (pool: LockedUploaderPool<UploadToLocalFile>, disk: FileSystem, storageDir: string,
                 removeFileWhenFinished: bool, draws: seq<string>)
      requires pool.Valid() && exists i :: 0 <= i < |draws| && draws[i] !in pool.uidPool.uids
      modifies pool, pool.uidPool
      ensures Valid() && pool.Valid() && this.pool == pool && this.disk == disk
      ensures View() == World(Upload(id, storageDir, removeFileWhenFinished, Init, false, "", Closed, 0, 0),
                              old(disk.files))
      ensures posts == [] && waitSent.None? && !waitClosed && id !in old(pool.uploaders) && id in draws
      ensures pool.uploaders == old(pool.uploaders)[id := this]
    {
      this.pool := pool;
      this.disk := disk;
      dir := storageDir;
      this.removeFileWhenFinished := removeFileWhenFinished;
      boundToSocketHandler := false;
      state, path, fd, filePos, fileSize := Init, "", Closed, 0, 0;
      timeoutClosed, posts, id := false, [], "";
      waitSent, waitClosed := None, false;
      new;
      id := pool.Put(this, draws);
    }

    method SetFileSize(size: int) returns (ok: bool)
      modifies this`fileSize
      ensures ok == state.Init?
      ensures fileSize == if ok then size else old(fileSize)
    {
      ok := state.Init?;
      if ok {
        fileSize := size;
      }
    }

    method BindToSocketHandler() returns (ok: bool)
      modifies this`boundToSocketHandler
      ensures ok == !old(boundToSocketHandler) && boundToSocketHandler
    {
      ok := !boundToSocketHandler;
      boundToSocketHandler := true;
    }

    method UnbindFromSocketHandler() returns (ok: bool)
      modifies this`boundToSocketHandler
      ensures ok == old(boundToSocketHandler) && !boundToSocketHandler
    {
      ok := boundToSocketHandler;
      boundToSocketHandler := false;
    }

    method ConsumeFileChunk(chunk: Bytes, io: IO) returns (err: Option<ConsumeError>)
      requires Valid()
      requires View().up.NoPanic()
      modifies this`path, this`fd, this`state, this`filePos, disk
      ensures Valid()
      ensures Consumed(View(), err) == Consume(old(View()), chunk, io)
    {
      err := PrepareFile(io);
      if err.None? {
        err := StoreChunk(chunk, io);
      }
    }

    /** The "state business" of ConsumeFileChunk, done under the state lock. */
    method PrepareFile(io: IO) returns (err: Option<ConsumeError>)
      requires Valid()
      modifies this`path, this`fd, this`state, disk
      ensures Valid()
      ensures Consumed(View(), err) == ConsumeState(old(View()), io)
      ensures old(View()).up.NoPanic() ==> err.Some? || View().up.NoPanic()
    {
      if state.Init? {
        path := dir + "/" + id + ".part";
        var created := disk.Create(path, io.createOk);
        if !created {
          return Some(CreateFailed);
        }
        fd := Open(0);
      } else if state.Paused? {
        if !io.openOk || path !in disk.files {
          return Some(ReopenFailed);
        }
        fd := Open(disk.Size(path));
      }
      if state.Rank() > State.Paused.Rank() {
        return Some(WrongState);
      }
      state := Uploading;
      return None;
    }

    /** The rest of ConsumeFileChunk. */
    method StoreChunk(chunk: Bytes, io: IO) returns (err: Option<ConsumeError>)
      requires fd.Open? ==> |path| >= 5
      modifies this`path, this`fd, this`filePos, disk
      ensures Consumed(View(), err) == ConsumeWrite(old(View()), chunk, io)
    {
      if filePos + |chunk| > fileSize {
        return Some(TooLarge);
      }
      if fd.Closed? {
        return Some(WriteFailed);
      }
      var data := if io.writeOk then chunk else chunk[..Min(io.written, |chunk|)];
      disk.Write(path, fd.offset, data);
      fd := Open(fd.offset + |data|);
      if !io.writeOk {
        disk.Truncate(path, filePos, io.truncOk);
        fd := Open(disk.Size(path));
        return Some(WriteFailed);
      }
      filePos := filePos + |chunk|;
      if filePos == fileSize {
        err := FinishFile(io.renameOk);
      } else {
        err := None;
      }
    }

    /** Closes a complete file and takes the ".part" off its name. */
    method FinishFile(renameOk: bool) returns (err: Option<ConsumeError>)
      requires |path| >= 5
      modifies this`path, this`fd, disk
      ensures fd == Closed
      ensures err == if renameOk && old(path) in old(disk.files) then None else Some(RenameFailed)
      ensures path == if err.None? then Strip(old(path)) else old(path)
      ensures disk.files == if err.None? then (old(disk.files) - {old(path)})[path := old(disk.files)[old(path)]]
                            else old(disk.files)
    {
      fd := Closed;
      var newName := path[..|path| - 5];
      var renamed := disk.Rename(path, newName, renameOk);
      if !renamed {
        return Some(RenameFailed);
      }
      path := newName;
      return None;
    }

    method Pause() returns (ok: bool)
      requires Valid()
      modifies this`state, this`fd
      ensures Valid()
      ensures ok == (old(state).Uploading? || old(state).Paused?)
      ensures View() == PauseUpload(old(View()))
    {
      ok := state.Uploading? || state.Paused?;
      if !ok {
        return;
      }
      state := State.Paused;
      fd := Closed;
    }

    /** Claims the handover; `run` says whether the caller's call starts the handover routine. */
    method HandFileToApp() returns (run: bool)
      requires Valid()
      modifies this`state
      ensures Valid()
      ensures run == old(state).Receiving()
      ensures View() == StartHandover(old(View()))
    {
      run := state.Rank() < HandingOver.Rank();
      if run {
        state := HandingOver;
      }
    }

    /** The handover routine. `confirmed` says whether HandoverDone came before the timeout, `received`
        whether anybody took the outcome from the channel before the routine closed it. */
    method HandoverRoutine(reply: Reply, confirmed: bool, received: bool) returns (ok: bool)
      requires Valid() && state.HandingOver?
      modifies this`state, this`fd, this`posts, this`waitSent, this`waitClosed, disk
      ensures Valid()
      ensures waitClosed && waitSent == if received then Some(ok) else None
      ensures ok == (reply.ReplyDone? || (reply.ReplyWait? && confirmed))
      ensures View() == Settle(old(View()), ok)
      ensures posts == old(posts) + [Post(path, false)]
    {
      posts := posts + [Post(path, false)];
      ok := !reply.ReplyFailed?;
      if reply.ReplyWait? && !confirmed {
        ok := false;
      }
      if ok {
        state := Finished;
      } else {
        state := Cancelled;
        var _ := Cancel(false, true, true);
      }
      if received {
        waitSent := Some(ok);
      }
      waitClosed := true;
    }

    /** Called for the app backend; succeeds iff a handover routine takes the confirmation. */
    method HandoverDone(routineWaiting: bool) returns (ok: bool)
      ensures ok == (state.HandingOver? && routineWaiting)
    {
      if !state.HandingOver? {
        return false;
      }
      return routineWaiting;
    }

    /** An error means that the upload was not cancelled, or that the app backend does not know of it. */
    method Cancel(tellAppBackend: bool, removeOk: bool, requestOk: bool) returns (err: Option<CancelError>)
      requires Valid()
      modifies this`state, this`fd, this`posts, disk
      ensures Valid()
      ensures err == if !old(state).Receiving() then Some(TooLateToCancel)
                     else if tellAppBackend && !requestOk then Some(RequestFailed) else None
      ensures View() == CancelUpload(old(View()), removeOk)
      ensures posts == old(posts) + if old(state).Receiving() && tellAppBackend then [Post("", true)] else []
    {
      var canCancel := state.Rank() < HandingOver.Rank();
      if canCancel {
        state := Cancelled;
      }
      if !canCancel {
        return Some(TooLateToCancel);
      }
      fd := Closed;
      if path != "" {
        var _ := disk.Remove(path, removeOk);
      }
      if !tellAppBackend {
        return None;
      }
      posts := posts + [Post("", true)];
      return if requestOk then None else Some(RequestFailed);
    }

    /** That the file could not be removed, or was gone, is reported, but stops nothing. */
    method CleanUp(removeOk: bool) returns (err: Option<CleanUpError>)
      requires Valid()
      modifies this`state, this`timeoutClosed, disk, pool, pool.uidPool
      ensures Valid() && (old(pool.Valid()) ==> pool.Valid())
      ensures err.Some? && err.value.TooEarlyToCleanUp? <==> old(state).Rank() <= HandingOver.Rank()
      ensures err == Some(RemoveFailed) <==>
                old(state).Finished? && removeFileWhenFinished && !(removeOk && path in old(disk.files))
      ensures View() == CleanUpUpload(old(View()), removeOk)
      ensures pool.uploaders == if MayCleanUp(old(state)) then old(pool.uploaders) - {id} else old(pool.uploaders)
    {
      if state.Rank() <= HandingOver.Rank() {
        return Some(TooEarlyToCleanUp);
      }
      err := None;
      if state.CleanedUp? {
        return;
      }
      if removeFileWhenFinished && !state.Cancelled? {
        var removed := disk.Remove(path, removeOk);
        err := if removed then None else Some(RemoveFailed);
      }
      pool.Remove(id);
      state := CleanedUp;
      timeoutClosed := true;
    }
  }
}
