/**
 write of the file server over the RAM file system and its page cache: one
 request, served in chunks of a page.  The client is told that all its bytes are
 written; whether they are is decided by the cache.
 */
module ChunkedWrite {
  import opened Common
  import opened Wrappers
  import opened Bytes
  import opened CachedFile
  import opened PageCache
  import opened WriteRun
  import ChunkedIo

  // What happens around one chunk besides the write itself
  datatype Turn = Turn(luck: Luck, alive: bool, copied: bool, issued: bool)

  class WriteJob {
    const store: Store
    const fd: Fd
    const data: Buf              // the caller's buffer
    const start: nat
    var offset: nat
    var total: nat
    var remaining: nat
    var chunkLen: nat
    var chunk: Buf               // the bytes handed to the backend
    var result: Option<int>

    ghost predicate Valid() reads this {
      && offset == start + total && total <= |data|
      && (result.None? ==> total + remaining == |data| && 0 < remaining && chunkLen == Min(remaining, CHUNK))
      && (result.None? ==> chunk == data[total..total + chunkLen])
      && (result.Some? ==> result.value == total || (result.value < 0 && total == 0))
    }

    ghost predicate Ready() reads this, store { Valid() && store.Valid() && fd in store.handles }

    ghost function File(): Buf
      requires Ready()
      reads this, store
    {
      store.Seen(fd)
    }

    // The file with its entry, and the size the handle believes in
    ghost function Now(): State
      requires Ready()
      reads this, store
    {
      (store.CellAt(store.handles[fd].path), store.handles[fd].size)
    }

    // vfs_coop_start_rw: append moves the handle to where it believes the end is
    constructor (s: Store, d: Fd, off: nat, append: bool, bytes: Buf, copied: bool, issued: bool)
      requires s.Valid() && d in s.handles
      ensures Ready() && store == s && fd == d && data == bytes && total == 0
      ensures start == if append then s.handles[d].size else off
      ensures result == if bytes == [] then Some(0) else if !copied then Some(-EFAULT)
                        else if issued then None else Some(-EIO)
    {
      store, fd, data := s, d, bytes;
      var at := if append then s.handles[d].size else off;
      start, offset, total, remaining := at, at, 0, |bytes|;
      chunkLen := Min(|bytes|, CHUNK);
      chunk := bytes[..Min(|bytes|, CHUNK)];
      result := if bytes == [] then Some(0) else if !copied then Some(-EFAULT)
                else if issued then None else Some(-EIO);
    }

    method Finish(error: int)
      requires offset == start + total && total <= |data| && error < 0
      modifies this`result
      ensures Valid() && result == Some(if total > 0 then total else error)
    {
      result := Some(if total > 0 then total else error);
    }

    // vfs_coop_resume_rw with the answer n of the backend
    method Resume(n: int, alive: bool, copied: bool, issued: bool)
      requires Valid() && result.None? && n <= chunkLen
      modifies this`offset, this`total, this`remaining, this`chunkLen, this`chunk, this`result
      ensures Valid()
      ensures total == old(total) + if n > 0 && alive then n else 0
      ensures result.None? ==> remaining < old(remaining) && alive && n == old(chunkLen) == CHUNK
      ensures !alive || n < 0 ==> result == Some(if total > 0 then total else if alive then n else -EBADF)
      ensures alive && n >= 0 && copied && issued ==>
                result == if n < old(chunkLen) || total == |data| then Some(total) else None
    {
      if !alive {
        Finish(-EBADF);
      } else if n < 0 {
        Finish(n);
      } else if n == 0 {
        result := Some(total);
      } else {
        offset := offset + n;
        total := total + n;
        remaining := ChunkedIo.Minus(remaining, n);
        if remaining == 0 || n < chunkLen {
          result := Some(total);
          return;
        }
        chunkLen := Min(remaining, CHUNK);
        if !copied {
          result := Some(total);
          return;
        }
        chunk := data[total..total + chunkLen];
        if !issued {
          Finish(-EIO);
        }
      }
    }

    // The write of the backend
    method ToBackend(luck: Luck) returns (ret: Option<nat>)
      requires Ready() && result.None?
      modifies store
      ensures store.Valid() && fd in store.handles
      ensures ret == if old(Granted(Now().0, offset, chunk, luck)) then Some(chunkLen) else None
      ensures ret.None? ==> Now() == old(Now())
      ensures ret.Some? ==> Stepped(old(Now()), Now(), offset, chunk, luck)
    {
      ghost var x := Now();
      WroteIs(x.0, x.1, offset, chunk, luck);
      ret := store.Write(fd, offset, chunk, luck);
      if ret.Some? {
        StepIs(x, Now(), offset, chunk, luck);
      }
    }

    // One chunk: the backend writes it, the file server goes on.
    method Serve(turn: Turn, error: int) returns (ret: Option<nat>)
      requires Ready() && result.None? && error < 0
      modifies this`offset, this`total, this`remaining, this`chunkLen, this`chunk, this`result, store
      ensures Ready()
      ensures ret == if old(Granted(Now().0, offset, chunk, turn.luck)) then Some(old(chunkLen)) else None
      ensures ret.None? ==> Now() == old(Now())
      ensures ret.Some? ==> Stepped(old(Now()), Now(), old(offset), old(chunk), turn.luck)
      ensures total == old(total) + if ret.Some? && turn.alive then old(chunkLen) else 0
      ensures result.None? ==> remaining < old(remaining) && total == old(total) + CHUNK
      ensures ret.None? && turn.alive ==> result == Some(if total > 0 then total else error)
      ensures ret.Some? && turn.alive && turn.copied && turn.issued ==>
                result == if total == |data| then Some(total) else None
    {
      ret := ToBackend(turn.luck);
      Resume(if ret.Some? then ret.value else error, turn.alive, turn.copied, turn.issued);
    }

    // A chunk that the backend takes is counted if the caller lives.  Its bytes are in
    // the file exactly if no dirty entry is flushed over them, or the entry has them
    // already.
    method OneChunk(turn: Turn, error: int) returns (ret: Option<nat>)
      requires Ready() && result.None? && error < 0
      modifies this`offset, this`total, this`remaining, this`chunkLen, this`chunk, this`result, store
      ensures Ready()
      ensures ret == if old(Granted(Now().0, offset, chunk, turn.luck)) then Some(old(chunkLen)) else None
      ensures ret.None? ==> Now() == old(Now())
      ensures total == old(total) + if ret.Some? && turn.alive then old(chunkLen) else 0
      ensures ret.Some? ==>
                (Written(old(File()), File(), old(offset), old(chunk)) <==>
                   !old(Erases(Now().0, Now().1, offset + chunkLen, turn.luck))
                   || Written(old(File()), old(Cached(Now().0.view.value)), old(offset), old(chunk)))
    {
      ghost var x, off, piece := Now(), offset, chunk;
      ret := Serve(turn, error);
      if ret.Some? {
        StepWrittenIff(x, Now(), off, piece, turn.luck);
      }
    }

    // The request as it starts
    ghost function Asked(lucks: nat -> Luck): Request
      requires Ready()
      reads this, store
    {
      Request(Now().0, Now().1, start, data, lucks)
    }

    // Before chunk i, or at the end
    ghost predicate Served(r: Request, xs: seq<State>, i: nat, error: int) reads this, store {
      && Ready() && r.start == start && r.data == data && |xs| == i + 1 && xs[i] == Now()
      && Stands(r, xs, i, total, result, error)
    }

    // Chunk i, while the caller lives and its memory can be read
    method Round(ghost r: Request, ghost xs: seq<State>, i: nat, luck: Luck, error: int)
        returns (i': nat, ghost xs': seq<State>)
      requires Served(r, xs, i, error) && result.None? && luck == r.lucks(i) && error < 0
      modifies this`offset, this`total, this`remaining, this`chunkLen, this`chunk, this`result, store
      ensures Served(r, xs', i', error) && (result.None? ==> i' == i + 1)
    {
      ghost var was, len, piece := total, chunkLen, chunk;
      var ret := Serve(Turn(luck, true, true, true), error);
      if ret.Some? {
        StandsOn(r, xs, i, was, len, piece, Now(), error);
        i', xs' := i + 1, xs + [Now()];
      } else {
        StandsStill(r, xs, i, was, len, piece, error);
        i', xs' := i, xs;
      }
    }

    // The chunks up to the first that the backend refuses
    method AllChunks(ghost r: Request, lucks: nat -> Luck, error: int) returns (ghost m: nat, ghost xs: seq<State>)
      requires Ready() && result.None? && total == 0 && error < 0 && r == Asked(lucks)
      modifies this`offset, this`total, this`remaining, this`chunkLen, this`chunk, this`result, store
      ensures Served(r, xs, m, error) && result.Some?
    {
      var i: nat := 0;
      xs := [Now()];
      StandsAtStart(r, error);
      while result.None?
        invariant Served(r, xs, i, error) && i <= Chunks(r)
        decreases if result.None? then Chunks(r) - i + 1 else 0
      {
        i, xs := Round(r, xs, i, lucks(i), error);
        StandsIs(r, xs, i, total, result, error);
      }
      m := i;
    }

    // The whole request, while the caller lives and its memory can be read: the chunks
    // up to the first that the backend refuses.  The client is told that their bytes
    // are written, and the handle believes it.  On a file that its entry agrees with,
    // they are exactly if no chunk is flushed over, or what that chunk lost is restored.
    method Run(lucks: nat -> Luck, error: int) returns (ghost m: nat)
      requires Ready() && result.None? && total == 0 && error < 0
      modifies this`offset, this`total, this`remaining, this`chunkLen, this`chunk, this`result, store
      ensures Ready() && |old(Asked(lucks)).cell.file.data| <= MAX_FILE
      ensures var r := old(Asked(lucks));
              && m <= Chunks(r) && ServedUpTo(r, m) && (m < Chunks(r) ==> Refused(r, m))
              && offset == At(r, m) && total == At(r, m) - start && result == Some(if m > 0 then total else error)
      ensures m == 0 ==> Now() == old(Now())
      ensures m > 0 && old(Coherent(Now().0)) ==>
                var r := FirstChunks(old(Asked(lucks)), m);
                && r.start + |r.data| <= MAX_FILE && r.data == data[..total]
                && (Written(old(File()), File(), start, data[..total]) <==> !Overtaken(r) || Restored(r))
                && (Overtaken(r) && FirstDrop(r) + 1 == m ==> |File()| == |old(File())|)
                && Now().1 == Max(|old(File())|, start + total)
    {
      ghost var r := Asked(lucks);
      ghost var xs;
      m, xs := AllChunks(r, lucks, error);
      StandsIs(r, xs, m, total, result, error);
      FirstChunksRun(r, xs, m);
      if m > 0 && Coherent(r.cell) {
        WriteRunIff(FirstChunks(r, m), xs);
      }
    }
  }

  // A file of one page in a buffer that may be larger, read once
  method CachedPage(bytes: Buf, junk: nat -> Byte) returns (store: Store)
    requires CHUNK <= |bytes| <= MAX_FILE
    ensures fresh(store) && store.InStep(0) && store.handles[0] == Handle("f", CHUNK) && store.CellAt("f").view.Some?
    ensures store.files["f"] == Ram(bytes, CHUNK) && !store.CellAt("f").view.value.dirty
  {
    store := new Store(map["f" := Ram(bytes, CHUNK)]);
    store.Open(0, "f");
    var _ := store.Read(0, 0, 1, Lucky(junk));
  }

  lemma AllServed(r: Request, m: nat)
    requires |r.cell.file.data| <= MAX_FILE && r.start + |r.data| <= MAX_FILE && forall i :: r.lucks(i).memory
    requires m <= Chunks(r) && (m < Chunks(r) ==> Refused(r, m))
    ensures m == Chunks(r) && FirstChunks(r, m) == r
  {
    assert Between(r, 0, Chunks(r)) == r.data;
  }

  // One write of two pages to it: the client is told 8192 and the handle believes it,
  // the file has 4096 bytes.
  method SecondPageIsLost(junk: nat -> Byte, old1: Buf, data: Buf) returns (job: WriteJob)
    requires |old1| == CHUNK && |data| == 2 * CHUNK
    ensures fresh(job) && fresh(job.store) && job.Ready() && job.result == Some(2 * CHUNK)
    ensures |job.File()| == CHUNK && job.Now().1 == 2 * CHUNK
  {
    var store := CachedPage(old1, junk);
    job := new WriteJob(store, 0, 0, false, data, true, true);
    ghost var r := job.Asked((i: nat) => Lucky(junk));
    ghost var m := job.Run((i: nat) => Lucky(junk), -EIO);
    AllServed(r, m);
  }

  // A write with O_APPEND through the same handle then starts a page behind the end.
  method AppendLeavesAGap(junk: nat -> Byte, old1: Buf, data: Buf, more: Buf) returns (job: WriteJob)
    requires |old1| == CHUNK && |data| == 2 * CHUNK
    ensures fresh(job) && job.Ready() && job.start == 2 * CHUNK && |job.File()| == CHUNK
  {
    var first := SecondPageIsLost(junk, old1, data);
    job := new WriteJob(first.store, first.fd, 0, true, more, true, true);
  }

  // One write of three pages to a page in a buffer of four: the second chunk is
  // flushed over, and the third uncovers its bytes again.
  method ThirdPageRestores(junk: nat -> Byte, bytes: Buf, data: Buf) returns (job: WriteJob)
    requires |bytes| == 4 * CHUNK && |data| == 3 * CHUNK
    ensures fresh(job) && job.Ready() && job.result == Some(3 * CHUNK) && job.File() == data
  {
    var store := CachedPage(bytes, junk);
    job := new WriteJob(store, 0, 0, false, data, true, true);
    ghost var r, v := job.Asked((i: nat) => Lucky(junk)), job.File();
    ThirdUncovers(r);
    ghost var m := job.Run((i: nat) => Lucky(junk), -EIO);
    AllServed(r, m);
    WrittenIsWriteAt(v, job.File(), 0, data);
  }

  lemma ThirdUncovers(r: Request)
    requires RamOk(r.cell.file) && r.cell.file.size == r.believed == CHUNK && |r.cell.file.data| == 4 * CHUNK
    requires r.start == 0 && |r.data| == 3 * CHUNK && r.cell.view.Some? && forall i :: r.lucks(i).copies
    ensures Overtaken(r) && Restored(r)
  {
    assert FirstDrop(r) == 1 && Fits(r, 1);
  }
}
