/**
 read of the file server: one request, served in chunks of a page, parked between
 chunks and resumed with the answer of the backend.
 */
module ChunkedIo {
  import opened Common
  import opened Wrappers
  import opened Bytes

  function Minus(a: nat, b: nat): nat { if a >= b then a - b else 0 }

  lemma SliceJoin(file: Buf, off: nat, a: nat, b: nat)
    requires off + a + b <= |file|
    ensures Slice(file, off, a) + Slice(file, off + a, b) == Slice(file, off, a + b)
  {
  }

  // What the outside world answers when a chunk comes back: the backend's
  // result, whether task and handle still exist, whether the copy to or from
  // user memory works, and whether the next request can be issued.
  datatype Reply = Reply(n: int, alive: bool, copied: bool, issued: bool)

  class ReadJob {
    const file: Buf          // the file, unchanged while the request runs
    const start: nat           // offset of the handle at the start
    const count: nat
    var offset: nat            // offset of the handle
    var total: nat
    var remaining: nat
    var chunkLen: nat
    var stored: Buf          // what user memory has received
    var result: Option<int>    // the reply, once there is one

    // What holds whenever the job is parked or done.
    ghost predicate Valid() reads this {
      && offset == start + total && |stored| == total <= count
      && (total > 0 ==> start + total <= |file| && stored == Slice(file, start, total))
      && (result.None? ==> total + remaining == count && 0 < remaining && chunkLen == Min(remaining, CHUNK))
      && (result.Some? ==> result.value == total || (result.value < 0 && total == 0))
    }

    // vfs_coop_start_rw, once the handle has been checked
    constructor (f: Buf, off: nat, n: nat, issued: bool)
      ensures Valid() && file == f && start == off && count == n && total == 0
      ensures result == if n == 0 then Some(0) else if issued then None else Some(-EIO)
    {
      file, start, count := f, off, n;
      offset, total, remaining, stored := off, 0, n, [];
      chunkLen := Min(n, CHUNK);
      result := if n == 0 then Some(0) else if issued then None else Some(-EIO);
    }

    // A backend never returns more than it was asked for or than there is.
    ghost predicate Honest(r: Reply) reads this {
      r.n > 0 ==> r.n <= chunkLen && offset + r.n <= |file|
    }

    method Finish(error: int)
      requires Valid() && result.None? && error < 0
      modifies this`result
      ensures Valid() && result == Some(if total > 0 then total else error)
    {
      result := Some(if total > 0 then total else error);
    }

    // A chunk of n bytes goes to user memory and is counted.
    method Deliver(n: nat)
      requires Valid() && result.None? && 0 < n <= chunkLen && offset + n <= |file|
      modifies this`stored, this`offset, this`total, this`remaining
      ensures total == old(total) + n <= count && offset == start + total && remaining == count - total
      ensures |stored| == total && start + total <= |file| && stored == Slice(file, start, total)
    {
      SliceJoin(file, start, total, n);
      assert total == 0 ==> stored == Slice(file, start, 0);
      stored := stored + Slice(file, offset, n);
      offset := offset + n;
      total := total + n;
      remaining := Minus(remaining, n);
    }

    // vfs_coop_resume_rw for a read: whatever happens, the bytes delivered are
    // the bytes of one read at the original offset, and the reply counts them.
    method Resume(r: Reply)
      requires Valid() && result.None? && Honest(r)
      modifies this
      ensures Valid()
      ensures result.None? ==> remaining < old(remaining)
      ensures total == old(total) + if r.alive && r.copied && r.n > 0 then r.n else 0
      ensures r.alive && r.n >= 0 && r.copied && r.issued ==>
                result == if r.n < old(chunkLen) || total == count then Some(total) else None
    {
      if !r.alive {
        Finish(-EBADF);
      } else if r.n < 0 {
        Finish(r.n);
      } else if r.n == 0 {
        result := Some(total);
      } else if !r.copied {
        Finish(-EFAULT);
      } else {
        Deliver(r.n);
        if remaining == 0 || r.n < chunkLen {
          result := Some(total);
          return;
        }
        chunkLen := Min(remaining, CHUNK);
        if !r.issued {
          Finish(-EIO);
        }
      }
    }

    // The whole request when nothing fails: however many times it was parked, it
    // is one read of min(count, size - offset) bytes.
    method Run()
      requires Valid() && result.None? && total == 0
      modifies this
      ensures stored == Slice(file, start, count) && result == Some(|Slice(file, start, count)|)
      ensures offset == start + |Slice(file, start, count)|
    {
      while result.None?
        invariant Valid()
        invariant result.Some? ==> total == |Slice(file, start, count)| && result == Some(total)
        decreases if result.None? then remaining else 0
      {
        var left := if offset < |file| then |file| - offset else 0;
        Resume(Reply(Min(chunkLen, left), true, true, true));
      }
      assert total == 0 ==> stored == Slice(file, start, count);
    }
  }
}
