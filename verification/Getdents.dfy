/**
 getdents64: packing directory entries into a caller's buffer, call after call,
 and what a reader of the buffers finds.
 */
module Getdents {
  import opened Common
  import opened Wrappers
  import opened Bytes
  import opened UserMemory

  const HEADER: nat := 19        // VFS_DIRENT64_HDR
  const MAX_RECORD: nat := 512   // size of the packing buffer

  datatype Entry = Entry(ino: nat, kind: Byte, name: seq<Byte>)

  // What a reader of the buffer sees of an entry
  datatype Dirent = Dirent(ino: nat, next: nat, kind: Byte, name: seq<Byte>)

  // vfs_dirent64_reclen: a multiple of eight with room for the name and its NUL
  function Reclen(name: seq<Byte>): (r: nat)
    ensures r % 8 == 0 && HEADER + |name| + 1 <= r < HEADER + |name| + 9
  {
    (HEADER + |name| + 1 + 7) / 8 * 8
  }

  function Record(index: nat, e: Entry): (r: seq<Byte>)
    ensures |r| == Reclen(e.name)
  {
    LittleEndian(e.ino, 8) + LittleEndian(index + 1, 8) + LittleEndian(Reclen(e.name), 2) + [e.kind]
    + e.name + Zeros(Reclen(e.name) - HEADER - |e.name|)
  }

  // The records of entries [from, to)
  function Records(dir: seq<Entry>, from: nat, to: nat): seq<Byte>
    requires from <= to <= |dir|
    decreases |dir| - from
  {
    if from == to then [] else Record(from, dir[from]) + Records(dir, from + 1, to)
  }

  lemma {:induction false} RecordsJoin(dir: seq<Entry>, a: nat, b: nat, c: nat)
    requires a <= b <= c <= |dir|
    ensures Records(dir, a, b) + Records(dir, b, c) == Records(dir, a, c)
    decreases |dir| - a
  {
    if a < b {
      RecordsJoin(dir, a + 1, b, c);
    }
  }

  lemma RecordsOne(dir: seq<Entry>, a: nat)
    requires a < |dir|
    ensures Records(dir, a, a + 1) == Record(a, dir[a])
  {
    assert Records(dir, a + 1, a + 1) == [];
  }

  // The bytes that the records of entries [from, k) take
  function Used(dir: seq<Entry>, from: nat, k: nat): nat
    requires from <= k <= |dir|
  {
    if from == k then 0 else Used(dir, from, k - 1) + Reclen(dir[k - 1].name)
  }

  lemma {:induction false} UsedIs(dir: seq<Entry>, from: nat, k: nat)
    requires from <= k <= |dir|
    ensures Used(dir, from, k) == |Records(dir, from, k)|
  {
    if from < k {
      UsedIs(dir, from, k - 1);
      RecordsOne(dir, k - 1);
      RecordsJoin(dir, from, k - 1, k);
    }
  }

  // ---- parsing

  // Reads records by their own lengths; stops at the first that is not whole.
  function Parse(b: seq<Byte>): seq<Dirent>
    decreases |b|
  {
    if |b| < HEADER then []
    else
      var len := Value(b[16..18]);
      if len < HEADER || len > |b| then []
      else [Dirent(Value(b[..8]), Value(b[8..16]), b[18], CString(b[HEADER..len]))] + Parse(b[len..])
  }

  // Entries that the fields of a record can carry
  ghost predicate Packable(dir: seq<Entry>) {
    && |dir| < U64 - 1
    && forall i :: 0 <= i < |dir| ==> dir[i].ino < U64 && NoNul(dir[i].name) && Reclen(dir[i].name) <= MAX_RECORD
  }

  function Seen(dir: seq<Entry>, i: nat): Dirent
    requires i < |dir|
  {
    Dirent(dir[i].ino, i + 1, dir[i].kind, dir[i].name)
  }

  function AllSeen(dir: seq<Entry>, from: nat, to: nat): (ds: seq<Dirent>)
    requires from <= to <= |dir|
    ensures |ds| == to - from
    decreases |dir| - from
  {
    if from == to then [] else [Seen(dir, from)] + AllSeen(dir, from + 1, to)
  }

  lemma U64IsPow()
    ensures Pow256(8) == U64 && Pow256(2) == 65536
  {
    assert Pow256(4) == 0x1_0000_0000;
    assert Pow256(8) == 0x1_0000_0000 * Pow256(4);
  }

  // The fields of the first record
  lemma RecordFields(index: nat, e: Entry, rest: seq<Byte>)
    ensures var b := Record(index, e) + rest;
            && |b| >= HEADER + 1 && b[..8] == LittleEndian(e.ino, 8) && b[8..16] == LittleEndian(index + 1, 8)
            && b[16..18] == LittleEndian(Reclen(e.name), 2) && b[18] == e.kind
            && b[HEADER..Reclen(e.name)] == e.name + Zeros(Reclen(e.name) - HEADER - |e.name|)
            && b[Reclen(e.name)..] == rest
  {
  }

  lemma ParseRecord(index: nat, e: Entry, rest: seq<Byte>)
    requires e.ino < U64 && index + 1 < U64 && NoNul(e.name) && Reclen(e.name) <= MAX_RECORD
    ensures Parse(Record(index, e) + rest) == [Dirent(e.ino, index + 1, e.kind, e.name)] + Parse(rest)
  {
    RecordFields(index, e, rest);
    U64IsPow();
    ValueOfLittleEndian(e.ino, 8);
    ValueOfLittleEndian(index + 1, 8);
    ValueOfLittleEndian(Reclen(e.name), 2);
    CStringIs(e.name, Zeros(Reclen(e.name) - HEADER - |e.name|));
  }

  // Parse(b) == ds.  The quantifier over a single value keeps the parser out of
  // proofs that only pass this on.
  ghost predicate ParsesIn(seal: Seal, b: seq<Byte>, ds: seq<Dirent>) { Parse(b) == ds }

  ghost predicate Parses(b: seq<Byte>, ds: seq<Dirent>) { forall seal :: ParsesIn(seal, b, ds) }

  lemma ParsesMore(index: nat, e: Entry, rest: seq<Byte>, ds: seq<Dirent>)
    requires e.ino < U64 && index + 1 < U64 && NoNul(e.name) && Reclen(e.name) <= MAX_RECORD && Parses(rest, ds)
    ensures Parses(Record(index, e) + rest, [Dirent(e.ino, index + 1, e.kind, e.name)] + ds)
  {
    assert ParsesIn(Seal, rest, ds);
    ParseRecord(index, e, rest);
  }

  lemma {:induction false} ParsesRecords(dir: seq<Entry>, from: nat, to: nat)
    requires Packable(dir) && from <= to <= |dir|
    ensures Parses(Records(dir, from, to), AllSeen(dir, from, to))
    decreases |dir| - from
  {
    if from < to {
      ParsesRecords(dir, from + 1, to);
      ParsesMore(from, dir[from], Records(dir, from + 1, to), AllSeen(dir, from + 1, to));
    }
  }

  // A reader recovers the entries, in order, each once.
  lemma {:induction false} ParseRecords(dir: seq<Entry>, from: nat, to: nat)
    requires Packable(dir) && from <= to <= |dir|
    ensures Parse(Records(dir, from, to)) == AllSeen(dir, from, to)
  {
    ParsesRecords(dir, from, to);
    assert ParsesIn(Seal, Records(dir, from, to), AllSeen(dir, from, to));
  }

  // ---- one call

  // The bytes are the records of the entries [from, to); a handle may stand
  // behind the last entry.
  ghost predicate PackedIn(seal: Seal, b: seq<Byte>, dir: seq<Entry>, from: nat, to: nat) {
    if from <= |dir| then from <= to <= |dir| && b == Records(dir, from, to) else from == to && b == []
  }

  ghost predicate Packed(b: seq<Byte>, dir: seq<Entry>, from: nat, to: nat) {
    forall seal :: PackedIn(seal, b, dir, from, to)
  }

  lemma PackedMore(b: seq<Byte>, dir: seq<Entry>, from: nat, to: nat)
    requires Packed(b, dir, from, to) && to < |dir|
    ensures Packed(b + Record(to, dir[to]), dir, from, to + 1)
  {
    assert PackedIn(Seal, b, dir, from, to);
    RecordsOne(dir, to);
    RecordsJoin(dir, from, to, to + 1);
  }

  lemma PackedIs(b: seq<Byte>, dir: seq<Entry>, from: nat, to: nat)
    requires Packed(b, dir, from, to)
    ensures from <= |dir| ==> from <= to <= |dir| && b == Records(dir, from, to)
    ensures |b| == 0 <==> from == to
  {
    assert PackedIn(Seal, b, dir, from, to);
  }

  // How far a call gets from index k with total bytes packed
  function Reach(dir: seq<Entry>, k: nat, total: nat, count: nat): (r: nat)
    ensures k <= r && (k <= |dir| ==> r <= |dir|)
    decreases |dir| - k
  {
    if k >= |dir| || total + Reclen(dir[k].name) > count then k
    else Reach(dir, k + 1, total + Reclen(dir[k].name), count)
  }

  // What happens at one index: the namespace refuses, answers, or sends the job to
  // a backend; then the request is issued or not, and the backend answers with an
  // error, the end of the directory (positive) or an entry (0); then the task may
  // be gone, and the copy to the caller may fail.
  datatype Answer = Answer(error: int, parks: bool, issued: bool, nested: int, task: bool, copied: bool)

  // A directory ends where it ends, whoever lists it.
  ghost predicate Honest(dir: seq<Entry>, answers: nat -> Answer) {
    forall k :: k >= |dir| && answers(k).parks ==> answers(k).nested != 0
  }

  // How a call ends: with a count; with -EINVAL because the first record does not
  // fit; with an error after which the handle is moved; or with -EIO because a
  // nested request could not be issued.
  datatype Stop = Counted | TooSmall | Failed(err: int) | Refused

  // Where a call that is at index k with total bytes packed ends, and how
  function Outcome(dir: seq<Entry>, answers: nat -> Answer, k: nat, total: nat, count: nat): (r: (nat, Stop))
    ensures k <= r.0 && (r.1.Failed? ==> r.1.err < 0)
    ensures k <= |dir| ==> r.0 <= |dir|
    decreases |dir| - k
  {
    var a := answers(k);
    if total >= count then (k, Counted)
    else if a.error < 0 then (k, Failed(a.error))
    else if a.parks && !a.issued then (k, Refused)
    else if a.parks && a.nested < 0 then (k, Failed(a.nested))
    else if k >= |dir| || (a.parks && a.nested > 0) then (k, Counted)
    else if !a.task then (k, Failed(-ESRCH))
    else if total + Reclen(dir[k].name) > count then (k, if total == 0 then TooSmall else Counted)
    else if Reclen(dir[k].name) > MAX_RECORD then (k, Failed(-EINVAL))
    else if !a.copied then (k, if total == 0 then Failed(-EFAULT) else Counted)
    else Outcome(dir, answers, k + 1, total + Reclen(dir[k].name), count)
  }

  class Job {
    const dir: seq<Entry>      // unchanged while the directory is listed
    const count: nat           // size of the caller's buffer
    const start: nat           // offset of the handle when the call began
    const answers: nat -> Answer
    var offset: nat            // offset of the handle
    var dirIndex: nat
    var total: nat
    var buffer: seq<Byte>      // what user memory has received
    var parked: bool
    var result: Option<int>

    // In every state the buffer holds whole records, one for each entry passed.
    ghost predicate Valid() reads this {
      && total == |buffer| <= count && count > 0 && Honest(dir, answers)
      && Packed(buffer, dir, start, dirIndex)
      && (parked ==>
              result.None? && total < count && answers(dirIndex).error >= 0 && answers(dirIndex).parks
              && answers(dirIndex).issued)
      && (result.None? ==> offset == start)
      && (result.Some? ==> Closed(Final().1))
    }

    // How the call ends, seen from where it is
    ghost function Final(): (nat, Stop) reads this { Outcome(dir, answers, dirIndex, total, count) }

    // The call has ended in this way.
    ghost predicate Closed(stop: Stop) reads this {
      && Final() == (dirIndex, stop)
      && offset == (if stop.Counted? || stop.Failed? then dirIndex else start)
      && result == Some(match stop
                        case Counted => total
                        case TooSmall => -EINVAL
                        case Failed(err) => err
                        case Refused => -EIO)
    }

    // vfs_coop_start_getdents, once the handle has been checked
    constructor (d: seq<Entry>, off: nat, n: nat, a: nat -> Answer)
      requires n > 0 && Honest(d, a)
      ensures Valid() && dir == d && count == n && start == off && answers == a
      ensures dirIndex == off && total == 0 && result.None? && !parked
    {
      dir, count, start, answers := d, n, off, a;
      offset, dirIndex, total, buffer, parked, result := off, off, 0, [], false, None;
    }

    // vfs_coop_getdents_commit_offset and vfs_coop_finish
    method CommitAndFinish(r: int)
      requires Valid() && result.None?
      requires (Final() == (dirIndex, Counted) && r == total) || (r < 0 && Final() == (dirIndex, Failed(r)))
      modifies this`offset, this`parked, this`result
      ensures Valid() && Final() == old(Final()) && result.Some? && !parked
    {
      offset, parked, result := dirIndex, false, Some(r);
    }

    // vfs_coop_getdents_pack_one: bytes packed, 0 to stop, or an error
    method PackOne(a: Answer) returns (packed: int)
      requires Valid() && result.None? && dirIndex < |dir|
      modifies this`buffer
      ensures packed > 0 <==> a.task && a.copied && total + Reclen(dir[dirIndex].name) <= count
                              && Reclen(dir[dirIndex].name) <= MAX_RECORD
      ensures packed > 0 ==> packed == Reclen(dir[dirIndex].name)
                             && Packed(buffer, dir, start, dirIndex + 1) && |buffer| == total + packed
      ensures packed <= 0 ==> buffer == old(buffer)
      ensures packed == 0 <==> a.task && (total + Reclen(dir[dirIndex].name) > count
                                          || (Reclen(dir[dirIndex].name) <= MAX_RECORD && !a.copied && total > 0))
      ensures packed < 0 ==>
                packed == if !a.task then -ESRCH
                          else if Reclen(dir[dirIndex].name) > MAX_RECORD then -EINVAL
                          else -EFAULT
    {
      if !a.task {
        return -ESRCH;
      }
      var e := dir[dirIndex];
      var reclen := Reclen(e.name);
      if total + reclen > count {
        return 0;
      }
      if reclen > MAX_RECORD {
        return -EINVAL;
      }
      if !a.copied {
        return if total > 0 then 0 else -EFAULT;
      }
      PackedMore(buffer, dir, start, dirIndex);
      buffer := buffer + Record(dirIndex, e);
      return reclen;
    }

    // The namespace or the backend has given an entry: pack it or end the call.
    method PackOrFinish()
      requires Valid() && result.None? && !parked && dirIndex < |dir| && total < count && answers(dirIndex).error >= 0
      requires answers(dirIndex).parks ==> answers(dirIndex).issued && answers(dirIndex).nested == 0
      modifies this
      ensures Valid() && !parked && Final() == old(Final())
      ensures result.None? ==> dirIndex == old(dirIndex) + 1
      ensures result.Some? ==> dirIndex == old(dirIndex)
    {
      var packed := PackOne(answers(dirIndex));
      if packed < 0 {
        CommitAndFinish(packed);
      } else if packed == 0 {
        if total == 0 {
          result := Some(-EINVAL);
        } else {
          CommitAndFinish(total);
        }
      } else {
        total := total + packed;
        dirIndex := dirIndex + 1;
      }
    }

    // vfs_coop_getdents_fill: until the directory ends, the buffer is full, an
    // error comes or a backend has to be asked
    method Fill()
      requires Valid() && result.None? && !parked
      modifies this
      ensures Valid() && (parked || result.Some?) && Final() == old(Final())
      ensures dirIndex >= old(dirIndex)
    {
      while total < count
        invariant Valid() && result.None? && !parked && dirIndex >= old(dirIndex) && Final() == old(Final())
        decreases |dir| - dirIndex
      {
        var a := answers(dirIndex);
        if a.error < 0 {
          CommitAndFinish(a.error);
          return;
        }
        if a.parks {
          if a.issued {
            parked := true;
          } else {
            result := Some(-EIO);
          }
          return;
        }
        if dirIndex >= |dir| {
          CommitAndFinish(total);
          return;
        }
        PackOrFinish();
        if result.Some? {
          return;
        }
      }
      CommitAndFinish(total);
    }

    // vfs_coop_resume_getdents with the backend's entry, its error or its end
    method Resume()
      requires Valid() && parked
      modifies this
      ensures Valid() && (parked || result.Some?) && Final() == old(Final())
      ensures dirIndex >= old(dirIndex) && (parked ==> dirIndex > old(dirIndex) && old(dirIndex) < |dir|)
    {
      parked := false;
      var a := answers(dirIndex);
      if a.nested < 0 {
        CommitAndFinish(a.nested);
        return;
      }
      if a.nested > 0 {
        CommitAndFinish(total);
        return;
      }
      PackOrFinish();
      if result.None? {
        Fill();
      }
    }

    // One system call, parked as often as it takes, whatever fails on the way: how
    // it ends, what it answers, what the caller has, and where the handle stands.
    method Run()
      requires Valid() && result.None? && !parked && dirIndex == start && total == 0
      modifies this
      ensures Valid() && !parked && result.Some?
      ensures var (to, stop) := Outcome(dir, answers, start, 0, count);
              && dirIndex == to
              && buffer == (if start <= |dir| then Records(dir, start, to) else [])
              && offset == (if stop.Counted? || stop.Failed? then to else start)
              && result == Some(match stop
                                case Counted => |buffer|
                                case TooSmall => -EINVAL
                                case Failed(err) => err
                                case Refused => -EIO)
    {
      Fill();
      while parked
        invariant Valid() && (parked || result.Some?) && Final() == old(Final())
        decreases |dir| - dirIndex, parked
      {
        Resume();
      }
      PackedIs(buffer, dir, start, dirIndex);
    }
  }

  // ---- what a failing call loses

  // The caller gets an error although records have been packed, and the handle has
  // moved past them: they are not listed again.
  predicate LosesRecords(start: nat, to: nat, stop: Stop) { stop.Failed? && to > start }

  // What the call meets at index k, with used bytes packed, is an error that moves
  // the handle: a readdir error, a backend error, a task that is gone, or a name
  // too long for a record.
  predicate Breaks(dir: seq<Entry>, a: Answer, k: nat, used: nat, count: nat) {
    && used < count
    && (|| a.error < 0
        || (a.parks && a.issued && a.nested < 0)
        || (&& k < |dir| && (a.parks ==> a.issued && a.nested == 0)
            && (!a.task || (Reclen(dir[k].name) > MAX_RECORD && used + Reclen(dir[k].name) <= count))))
  }

  // The call packs the entry at index k and goes on.
  predicate Passes(dir: seq<Entry>, a: Answer, k: nat, used: nat, count: nat) {
    && k < |dir| && a.error >= 0 && (a.parks ==> a.issued && a.nested == 0) && a.task && a.copied
    && used < count && used + Reclen(dir[k].name) <= count && Reclen(dir[k].name) <= MAX_RECORD
  }

  // Every index from start to k passes.
  ghost predicate PassesTo(dir: seq<Entry>, answers: nat -> Answer, start: nat, k: nat, count: nat) {
    start <= k <= |dir| && forall j :: start <= j < k ==> Passes(dir, answers(j), j, Used(dir, start, j), count)
  }

  // A call loses records exactly when it passes at least one entry and then meets such
  // an error.  A copy that fails after a record is not reported, and a refused nested
  // request leaves the handle alone.
  lemma {:induction false} LosesRecordsIff(dir: seq<Entry>, answers: nat -> Answer, start: nat, count: nat)
    requires start <= |dir|
    ensures var (to, stop) := Outcome(dir, answers, start, 0, count);
            LosesRecords(start, to, stop) <==>
                      exists k :: && start < k <= |dir| && PassesTo(dir, answers, start, k, count)
                                  && Breaks(dir, answers(k), k, Used(dir, start, k), count)
  {
    var (to, stop) := Outcome(dir, answers, start, 0, count);
    if LosesRecords(start, to, stop) {
      StopIs(dir, answers, start, start, 0, count);
      GetsTo(dir, answers, start, to, count);
      assert PassesTo(dir, answers, start, to, count) && Breaks(dir, answers(to), to, Used(dir, start, to), count);
    }
    if k :| start < k <= |dir| && PassesTo(dir, answers, start, k, count)
            && Breaks(dir, answers(k), k, Used(dir, start, k), count)
    {
      GetsTo(dir, answers, start, k, count);
    }
  }

  lemma PassOn(dir: seq<Entry>, answers: nat -> Answer, k: nat, used: nat, count: nat)
    ensures Passes(dir, answers(k), k, used, count) ==>
              Outcome(dir, answers, k, used, count) == Outcome(dir, answers, k + 1, used + Reclen(dir[k].name), count)
    ensures Outcome(dir, answers, k, used, count).0 > k ==> Passes(dir, answers(k), k, used, count)
  {
  }

  // A call that passes every index before k is at k.
  lemma {:induction false} GetsTo(dir: seq<Entry>, answers: nat -> Answer, start: nat, k: nat, count: nat)
    requires PassesTo(dir, answers, start, k, count)
    ensures Outcome(dir, answers, start, 0, count) == Outcome(dir, answers, k, Used(dir, start, k), count)
  {
    if start < k {
      GetsTo(dir, answers, start, k - 1, count);
      PassOn(dir, answers, k - 1, Used(dir, start, k - 1), count);
    }
  }

  // For one: the first entry is packed, then readdir fails.  The caller gets the
  // error, and every later call begins at the second entry.
  lemma FirstEntryIsLost(dir: seq<Entry>, answers: nat -> Answer, count: nat)
    requires |dir| > 0 && Reclen(dir[0].name) <= MAX_RECORD && Reclen(dir[0].name) < count
    requires answers(0) == Answer(0, false, true, 0, true, true) && answers(1).error == -EIO
    ensures Outcome(dir, answers, 0, 0, count) == (1, Failed(-EIO))
    ensures LosesRecords(0, 1, Failed(-EIO))
  {
    assert Outcome(dir, answers, 1, Reclen(dir[0].name), count) == (1, Failed(-EIO));
  }

  // And a call passes every index before the one where it stops.
  lemma {:induction false} StopIs(dir: seq<Entry>, answers: nat -> Answer, from: nat, k: nat, total: nat, count: nat)
    requires from <= k <= |dir| && total == Used(dir, from, k) && PassesTo(dir, answers, from, k, count)
    ensures var (to, stop) := Outcome(dir, answers, k, total, count);
            PassesTo(dir, answers, from, to, count)
    decreases |dir| - k
  {
    if Outcome(dir, answers, k, total, count).0 > k {
      PassOn(dir, answers, k, total, count);
      StopIs(dir, answers, from, k + 1, total + Reclen(dir[k].name), count);
    }
  }

  // ---- many calls

  // Where a call leaves the handle
  function After(at: nat, to: nat, stop: Stop): nat { if stop.Counted? || stop.Failed? then to else at }

  // Some of the calls, from call i at offset at on, loses records.
  predicate LosesSome(dir: seq<Entry>, at: nat, sizes: seq<nat>, answers: nat -> nat -> Answer, i: nat)
    requires i <= |sizes|
    decreases |sizes| - i
  {
    if i == |sizes| then false
    else if sizes[i] == 0 then LosesSome(dir, at, sizes, answers, i + 1)
    else
      var (to, stop) := Outcome(dir, answers(i), at, 0, sizes[i]);
      LosesRecords(at, to, stop) || LosesSome(dir, After(at, to, stop), sizes, answers, i + 1)
  }

  // One of the calls: the caller keeps what it is told to have got.
  method OneCall(dir: seq<Entry>, at: nat, size: nat, answers: nat -> Answer) returns (got: seq<Byte>, at': nat)
    requires at <= |dir| && size > 0 && Honest(dir, answers)
    ensures var (to, stop) := Outcome(dir, answers, at, 0, size);
            && at' == After(at, to, stop) && at <= at' <= |dir|
            && got == (if LosesRecords(at, to, stop) then [] else Records(dir, at, at'))
            && (LosesRecords(at, to, stop) ==> |Records(dir, at, at')| > 0)
  {
    var job := new Job(dir, at, size, answers);
    job.Run();
    PackedIs(job.buffer, dir, at, job.dirIndex);
    got, at' := if job.result.value > 0 then job.buffer else [], job.offset;
  }

  // A listing in as many calls as there are sizes, with any failures.  The caller has
  // exactly the records before the handle, each once and in order, if and only if no
  // call loses records, whatever else went wrong.
  method ListDirectory(dir: seq<Entry>, sizes: seq<nat>, answers: nat -> nat -> Answer)
    returns (got: seq<Byte>, at: nat)
    requires forall i :: Honest(dir, answers(i))
    ensures at <= |dir| && (got == Records(dir, 0, at) <==> !LosesSome(dir, 0, sizes, answers, 0))
    ensures !LosesSome(dir, 0, sizes, answers, 0) && Packable(dir) ==> Parse(got) == AllSeen(dir, 0, at)
    ensures (forall i :: 0 <= i < |sizes| ==> Calm(dir, answers(i))) ==>
              !LosesSome(dir, 0, sizes, answers, 0) && at == Listing(dir, 0, sizes)
  {
    got, at := [], 0;
    var i := 0;
    ghost var lost := false;
    while i < |sizes|
      invariant i <= |sizes| && at <= |dir|
      invariant if lost then |got| < |Records(dir, 0, at)| else got == Records(dir, 0, at)
      invariant LosesSome(dir, 0, sizes, answers, 0) <==> lost || LosesSome(dir, at, sizes, answers, i)
      invariant (forall j :: 0 <= j < |sizes| ==> Calm(dir, answers(j))) ==>
                  !lost && Listing(dir, 0, sizes) == Listing(dir, at, sizes[i..])
    {
      assert sizes[i..][1..] == sizes[i + 1..];
      if sizes[i] > 0 {
        if Calm(dir, answers(i)) {
          CalmOutcome(dir, answers(i), at, 0, sizes[i]);
        }
        ghost var (to, stop) := Outcome(dir, answers(i), at, 0, sizes[i]);
        lost := lost || LosesRecords(at, to, stop);
        ghost var was := at;
        var more;
        more, at := OneCall(dir, at, sizes[i], answers(i));
        RecordsJoin(dir, 0, was, at);
        got := got + more;
      }
      i := i + 1;
    }
    if Packable(dir) {
      ParseRecords(dir, 0, at);
    }
  }

  // Nothing fails.
  ghost predicate Calm(dir: seq<Entry>, answers: nat -> Answer) {
    && Packable(dir)
    && forall k :: 0 <= k <= |dir| ==>
         && answers(k).error >= 0 && answers(k).task && answers(k).copied
         && (answers(k).parks ==>
                 answers(k).issued && (if k < |dir| then answers(k).nested == 0 else answers(k).nested > 0))
  }

  lemma {:induction false} CalmOutcome(dir: seq<Entry>, answers: nat -> Answer, k: nat, total: nat, count: nat)
    requires Calm(dir, answers) && k <= |dir|
    ensures var (to, stop) := Outcome(dir, answers, k, total, count);
            && to == Reach(dir, k, total, count) && (stop.Counted? || (stop.TooSmall? && to == k))
    decreases |dir| - k
  {
    if k < |dir| && total + Reclen(dir[k].name) <= count {
      CalmOutcome(dir, answers, k + 1, total + Reclen(dir[k].name), count);
    }
  }

  // The entries that calls with these buffer sizes get, one call after another
  function Listing(dir: seq<Entry>, from: nat, sizes: seq<nat>): (to: nat)
    requires from <= |dir|
    ensures from <= to <= |dir|
    decreases |sizes|
  {
    if sizes == [] then from else Listing(dir, Reach(dir, from, 0, sizes[0]), sizes[1..])
  }

  // Every buffer can hold the record that comes next.
  ghost predicate HoldNext(dir: seq<Entry>, from: nat, sizes: seq<nat>)
    requires from <= |dir|
    decreases |sizes|
  {
    sizes != [] ==>
      && (from < |dir| ==> Reclen(dir[from].name) <= sizes[0])
      && HoldNext(dir, Reach(dir, from, 0, sizes[0]), sizes[1..])
  }

  lemma {:induction false} EnoughCallsListAll(dir: seq<Entry>, from: nat, sizes: seq<nat>)
    requires from <= |dir| && HoldNext(dir, from, sizes) && |sizes| >= |dir| - from
    ensures Listing(dir, from, sizes) == |dir|
    decreases |sizes|
  {
    if sizes != [] {
      EnoughCallsListAll(dir, Reach(dir, from, 0, sizes[0]), sizes[1..]);
    }
  }

  // Whatever the buffer sizes, as long as each holds the next record, enough
  // calls in which nothing fails list every entry exactly once and in order.
  method GetdentsListsTheDirectory(dir: seq<Entry>, sizes: seq<nat>, answers: nat -> nat -> Answer)
      returns (got: seq<Byte>)
    requires HoldNext(dir, 0, sizes) && |sizes| >= |dir|
    requires forall i :: Honest(dir, answers(i)) && Calm(dir, answers(i))
    ensures Parse(got) == AllSeen(dir, 0, |dir|)
  {
    EnoughCallsListAll(dir, 0, sizes);
    assert Calm(dir, answers(0));
    var at;
    got, at := ListDirectory(dir, sizes, answers);
  }
}
