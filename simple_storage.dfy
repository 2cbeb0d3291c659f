/**
 * `SimpleStorage<IdsSet>`: an in-memory set of identifiers paired with the file
 * that mirrors it. The file is read only by `SyncMemFromFile` and written only
 * by `SyncFileFromMem`; changing the set never touches the file.
 *
 * The file is its contents as a string. Each lock of the source is represented
 * by a flag saying whether it is poisoned (a poisoned `RwLock` or `Mutex` fails
 * every later acquisition); a failing I/O call is chosen by the caller through
 * a `ReadIo` or `WriteIo` parameter. Clones of a `SimpleStorage` share their
 * state, so a clone is the same `Storage` object.
 */
module SimpleStorage {
  import opened Wrappers
  import opened Text
  import opened IdsSet

  datatype SyncError = IoError | PoisonError

  /** `Result<(), SyncError>`. */
  datatype SyncResult = Synced | Failed(error: SyncError)

  /** Which I/O call of a load fails, if any: the seek, `read_to_string` or the flush. */
  datatype ReadIo = ReadOk | ReadSeekFails | ReadToStringFails | ReadFlushFails

  /** Which I/O call of a save fails, if any: the seek, `set_len`, `write_all` or the flush. */
  datatype WriteIo = WriteOk | WriteSeekFails | SetLenFails | WriteAllFails | WriteFlushFails

  /**
   * The file after a save of `ids` that started from `before`: untouched when a
   * lock or the seek or the truncation fails, empty when the write fails after
   * the truncation, and an encoding of `ids` once the write has happened.
   */
  ghost predicate Saved(before: string, after: string, ids: set<Int64>, memPoisoned: bool, filePoisoned: bool, io: WriteIo) {
    if memPoisoned || filePoisoned || io == WriteSeekFails || io == SetLenFails then after == before
    else if io == WriteAllFails then after == ""
    else Encodes(after, ids)
  }

  class Storage {
    var mem: set<Int64>
    var file: string
    var memPoisoned: bool
    var filePoisoned: bool

    /** `SimpleStorage::new`: the default (empty) set beside the given file. */
    constructor (file: string)
      ensures mem == Default() && this.file == file
      ensures !memPoisoned && !filePoisoned
    {
      mem := Default();
      this.file := file;
      memPoisoned, filePoisoned := false, false;
    }

    /** `mem_storage`: a read of the set, which fails when its lock is poisoned. */
    function MemStorage(): (r: Option<set<Int64>>)
      reads this
      ensures r.Some? <==> !memPoisoned
      ensures r.Some? ==> r.value == mem
    {
      if memPoisoned then None else Some(mem)
    }

    /**
     * `mutable_mem_storage`: exclusive access to the set, through which the
     * caller replaces it by `update` of what it saw. Fails, changing nothing,
     * when the lock is poisoned. The file is not touched either way.
     */
    method MutableMemStorage(update: set<Int64> -> set<Int64>) returns (seen: Option<set<Int64>>)
      modifies this`mem
      ensures seen == if memPoisoned then None else Some(old(mem))
      ensures mem == if memPoisoned then old(mem) else update(old(mem))
    {
      if memPoisoned {
        seen := None;
      } else {
        seen := Some(mem);
        mem := update(mem);
      }
    }

    /**
     * `sync_mem_from_file`: lock the file, seek to its start, read it whole,
     * flush, and only then replace the set by the decoded contents. Any failure
     * returns early, leaving the set as it was; the file is never changed.
     */
    method SyncMemFromFile(io: ReadIo) returns (r: SyncResult)
      modifies this`mem
      ensures r == Failed(PoisonError) <==> filePoisoned || (io == ReadOk && memPoisoned)
      ensures r == Failed(IoError) <==> !filePoisoned && io != ReadOk
      ensures r == Synced <==> !filePoisoned && io == ReadOk && !memPoisoned
      ensures mem == if r == Synced then Decoded(file) else old(mem)
    {
      if filePoisoned {
        return Failed(PoisonError);
      }
      if io == ReadSeekFails {
        return Failed(IoError);
      }
      var contents := file;
      if io == ReadToStringFails {
        return Failed(IoError);
      }
      if io == ReadFlushFails {
        return Failed(IoError);
      }
      if memPoisoned {
        return Failed(PoisonError);
      }
      mem := Decode(contents);
      r := Synced;
    }

    /**
     * `sync_file_from_mem`: encode the set, lock the file, seek to its start,
     * truncate it, write the encoding and flush. Any failure returns early; the
     * set is never changed.
     */
    method SyncFileFromMem(io: WriteIo) returns (r: SyncResult)
      modifies this`file
      ensures r == Failed(PoisonError) <==> memPoisoned || filePoisoned
      ensures r == Failed(IoError) <==> !memPoisoned && !filePoisoned && io != WriteOk
      ensures r == Synced <==> !memPoisoned && !filePoisoned && io == WriteOk
      ensures Saved(old(file), file, mem, memPoisoned, filePoisoned, io)
    {
      if memPoisoned {
        return Failed(PoisonError);
      }
      var contents := Encode(mem);
      if filePoisoned {
        return Failed(PoisonError);
      }
      if io == WriteSeekFails {
        return Failed(IoError);
      }
      if io == SetLenFails {
        return Failed(IoError);
      }
      file := "";
      if io == WriteAllFails {
        return Failed(IoError);
      }
      file := contents;
      if io == WriteFlushFails {
        return Failed(IoError);
      }
      r := Synced;
    }
  }

  /** After a successful save, a successful load gives back the set that was saved. */
  method SaveThenLoad(st: Storage) returns (saved: SyncResult, loaded: SyncResult)
    requires !st.memPoisoned && !st.filePoisoned
    modifies st
    ensures saved == Synced && loaded == Synced
    ensures st.mem == old(st.mem) && Encodes(st.file, st.mem)
  {
    saved := st.SyncFileFromMem(WriteOk);
    EncodesDecodes(st.file, st.mem);
    loaded := st.SyncMemFromFile(ReadOk);
  }

  /** A second load gives the same outcome and the same set as the first. */
  method LoadTwice(st: Storage, io: ReadIo) returns (first: SyncResult, second: SyncResult)
    modifies st
    ensures second == first && st.file == old(st.file)
    ensures st.mem == if first == Synced then Decoded(st.file) else old(st.mem)
  {
    first := st.SyncMemFromFile(io);
    ghost var once := st.mem;
    second := st.SyncMemFromFile(io);
    assert st.mem == once;
  }

  /**
   * A second save gives the same outcome as the first. Both succeed exactly when
   * neither lock is poisoned, and then the first file and the second are both
   * encodings of the set: the same lines, each once, possibly in another order,
   * decoding to the same set.
   */
  method SaveTwice(st: Storage) returns (first: SyncResult, second: SyncResult, ghost firstFile: string)
    modifies st`file
    ensures second == first && st.mem == old(st.mem)
    ensures first == Synced <==> !st.memPoisoned && !st.filePoisoned
    ensures first == Synced ==> Encodes(firstFile, st.mem) && Encodes(st.file, st.mem)
    ensures first == Synced ==> Decoded(firstFile) == Decoded(st.file) == st.mem
    ensures first == Synced ==> multiset(Lines(firstFile)) == multiset(Lines(st.file))
  {
    first := st.SyncFileFromMem(WriteOk);
    firstFile := st.file;
    second := st.SyncFileFromMem(WriteOk);
    if first == Synced {
      EncodesDecodes(firstFile, st.mem);
      EncodesDecodes(st.file, st.mem);
      EncodingsSameLines(firstFile, st.file, st.mem);
    }
  }

  /** Save {10, -5, 42}, forget the set as a restart would, load the file again: the same set comes back. */
  method RestartKeepsIds() returns (ids: set<Int64>)
    ensures ids == {10, -5, 42}
  {
    var before := new Storage("");
    var seen := before.MutableMemStorage(_ => {10, -5, 42});
    var saved := before.SyncFileFromMem(WriteOk);
    var after := new Storage(before.file);
    var loaded := after.SyncMemFromFile(ReadOk);
    EncodesDecodes(after.file, {10, -5, 42});
    ids := after.MemStorage().value;
  }
}
