/**
 A write of the file server as a run of writes of one page each, on one file and its
 page cache entry: when the whole is one write of all the bytes.
 */
module WriteRun {
  import opened Common
  import opened Wrappers
  import opened Bytes
  import opened CachedFile

  // The file after one write of data at off, with a gap that reads as zeros
  function WriteAt(v: Buf, off: nat, data: Buf): Buf {
    if data == [] then v
    else
      var base := if |v| < off then v + Zeros(off - |v|) else v;
      base[..off] + data + if off + |data| < |base| then base[off + |data|..] else []
  }

  // Without a gap there is one way to be written.
  lemma {:induction false} WrittenIsWriteAt(v: Buf, v': Buf, off: nat, data: Buf)
    requires off <= |v| && data != []
    ensures Written(v, v', off, data) <==> v' == WriteAt(v, off, data)
  {
    var w := WriteAt(v, off, data);
    assert w[off..off + |data|] == data;
    if Written(v, v', off, data) {
      assert |v'| == |w|;
      forall i | 0 <= i < |w| ensures v'[i] == w[i] {
        if off <= i < off + |data| {
          assert v'[i] == v'[off..off + |data|][i - off];
          assert w[i] == w[off..off + |data|][i - off];
        }
      }
      assert v' == w;
    }
  }

  // The same byte by byte
  lemma {:induction false} WrittenBytes(v: Buf, v': Buf, off: nat, data: Buf)
    requires |v'| == Max(|v|, off + |data|)
    ensures Written(v, v', off, data) <==>
            && (forall j {:trigger v'[j]} :: off <= j < off + |data| ==> v'[j] == data[j - off])
            && (forall j {:trigger v'[j]} :: 0 <= j < |v| && !(off <= j < off + |data|) ==> v'[j] == v[j])
  {
    if v'[off..off + |data|] == data {
      forall j | off <= j < off + |data| ensures v'[j] == data[j - off] {
        assert v'[j] == v'[off..off + |data|][j - off];
      }
    }
  }

  // Two adjacent writes are one, a gap before the first included.
  lemma {:induction false} WrittenJoin(v: Buf, v1: Buf, v2: Buf, off: nat, a: Buf, b: Buf)
    requires a != [] && Written(v, v1, off, a) && Written(v1, v2, off + |a|, b)
    ensures Written(v, v2, off, a + b)
  {
    assert v2[off..off + |a|] == a by {
      forall i | off <= i < off + |a| ensures v2[i] == a[i - off] {
        assert v1[i] == v1[off..off + |a|][i - off];
      }
    }
    assert v2[off..off + |a| + |b|] == v2[off..off + |a|] + v2[off + |a|..off + |a| + |b|];
  }

  // The bytes in done have been written at off, if there are any.
  ghost predicate WrittenSoFar(v: Buf, v': Buf, off: nat, done: Buf) {
    if done == [] then v' == v else Written(v, v', off, done)
  }

  lemma {:induction false} WrittenOn(v: Buf, v1: Buf, v2: Buf, off: nat, done: Buf, piece: Buf)
    requires WrittenSoFar(v, v1, off, done) && Written(v1, v2, off + |done|, piece) && piece != []
    ensures WrittenSoFar(v, v2, off, done + piece)
  {
    if done == [] {
      assert done + piece == piece;
    } else {
      WrittenJoin(v, v1, v2, off, done, piece);
    }
  }

  // ---- the run

  // Where a write starts: the file with its entry, the size the handle believes in,
  // the bytes and where they go, and what the world does to each chunk
  datatype Request = Request(cell: Cell, believed: nat, start: nat, data: Buf, lucks: nat -> Luck)

  type State = (Cell, nat)

  // Where chunk i starts, and the one before it ends
  function At(r: Request, i: nat): nat { r.start + Min(i * CHUNK, |r.data|) }

  function Chunks(r: Request): (n: nat)
    ensures At(r, n) == r.start + |r.data|
    ensures forall i: nat {:trigger At(r, i)} :: i < n ==> At(r, i) == r.start + i * CHUNK < r.start + |r.data|
  {
    (|r.data| + CHUNK - 1) / CHUNK
  }

  // The bytes from chunk i to chunk k
  function Between(r: Request, i: nat, k: nat): (p: Buf)
    requires i <= k
    ensures |p| == At(r, k) - At(r, i)
  {
    r.data[At(r, i) - r.start..At(r, k) - r.start]
  }

  lemma ChunkIsNotEmpty(r: Request, i: nat)
    requires i < Chunks(r)
    ensures Between(r, i, i + 1) != []
  {
    assert At(r, i) < At(r, i + 1);
  }

  lemma CountIs(n: nat, i: nat)
    requires i * CHUNK < n
    ensures i < (n + CHUNK - 1) / CHUNK
    ensures i + 1 == (n + CHUNK - 1) / CHUNK <==> n <= i * CHUNK + CHUNK
  {
    var c := (n + CHUNK - 1) / CHUNK;
    assert c * CHUNK <= n + CHUNK - 1 < c * CHUNK + CHUNK;
  }

  // Chunk i by the counters of a job
  lemma ChunkIs(r: Request, i: nat, total: nat, len: nat)
    requires total == i * CHUNK < |r.data| && len == Min(|r.data| - total, CHUNK)
    ensures i < Chunks(r) && At(r, i) == r.start + total && At(r, i + 1) == r.start + total + len
    ensures i > 0 <==> total > 0
    ensures Between(r, i, i + 1) == r.data[total..total + len]
    ensures total + len == |r.data| <==> i + 1 == Chunks(r)
    ensures total + len < |r.data| ==> len == CHUNK && total + len == (i + 1) * CHUNK
  {
    CountIs(|r.data|, i);
    assert (i + 1) * CHUNK == total + CHUNK;
    assert At(r, i) - r.start == total && At(r, i + 1) - r.start == total + len;
  }

  // One chunk, sealed: what follows uses it through the lemmas below.
  ghost predicate SteppedIn(seal: Seal, x: State, y: State, off: nat, piece: Buf, luck: Luck) {
    && Sane(x.0) && |x.0.file.data| <= MAX_FILE && piece != []
    && Wrote(x.0, x.1, off, piece, luck) == Some(y)
  }

  ghost predicate Stepped(x: State, y: State, off: nat, piece: Buf, luck: Luck) {
    forall seal :: SteppedIn(seal, x, y, off, piece, luck)
  }

  ghost predicate IsRunTo(r: Request, xs: seq<State>, n: nat) {
    && |xs| == n + 1 && xs[0] == (r.cell, r.believed)
    && forall i :: 0 <= i < n ==> Stepped(xs[i], xs[i + 1], At(r, i), Between(r, i, i + 1), r.lucks(i))
  }

  // All chunks of the request, one after the other
  ghost predicate IsRun(r: Request, xs: seq<State>) { IsRunTo(r, xs, Chunks(r)) }

  lemma StepIs(x: State, y: State, off: nat, piece: Buf, luck: Luck)
    requires Sane(x.0) && |x.0.file.data| <= MAX_FILE && piece != [] && Wrote(x.0, x.1, off, piece, luck) == Some(y)
    ensures Stepped(x, y, off, piece, luck)
  {
  }

  lemma StepWrittenIff(x: State, y: State, off: nat, piece: Buf, luck: Luck)
    requires Stepped(x, y, off, piece, luck)
    ensures Sane(x.0) && Sane(y.0)
    ensures Written(Content(x.0.file), Content(y.0.file), off, piece) <==>
            !Erases(x.0, x.1, off + |piece|, luck)
            || Written(Content(x.0.file), Cached(x.0.view.value), off, piece)
  {
    assert SteppedIn(Seal, x, y, off, piece, luck);
    WroteIs(x.0, x.1, off, piece, luck);
    WrittenIff(x.0, x.1, off, piece, luck);
  }

  lemma StepSizes(x: State, y: State, off: nat, piece: Buf, luck: Luck)
    requires Stepped(x, y, off, piece, luck)
    ensures Sane(x.0) && Sane(y.0) && |y.0.file.data| <= MAX_FILE && off + |piece| <= MAX_FILE
    ensures |x.0.file.data| <= MAX_FILE && |y.0.file.data| == Capacity(|x.0.file.data|, off + |piece|)
    ensures y.1 == Max(x.0.file.size, off + |piece|)
    ensures x.0.view.None? ==> y.0.view.None?
    ensures y.1 > x.1 ==> y.0.view.None?
  {
    assert SteppedIn(Seal, x, y, off, piece, luck);
    WroteIs(x.0, x.1, off, piece, luck);
  }

  lemma StepViews(x: State, y: State, off: nat, piece: Buf, luck: Luck)
    requires Stepped(x, y, off, piece, luck)
    ensures y.0.view.Some? ==> x.0.view.Some? && y.0.view.value.size == x.0.view.value.size
    ensures y.0.file.size == if Erases(x.0, x.1, off + |piece|, luck) then x.0.view.value.size else y.1
  {
    assert SteppedIn(Seal, x, y, off, piece, luck);
    WroteIs(x.0, x.1, off, piece, luck);
  }

  lemma StepWrites(x: State, y: State, off: nat, piece: Buf, luck: Luck)
    requires Stepped(x, y, off, piece, luck) && RamOk(x.0.file) && RamOk(y.0.file)
    requires !Erases(x.0, x.1, off + |piece|, luck)
    ensures Written(Content(x.0.file), Content(y.0.file), off, piece) && y.1 == y.0.file.size
  {
    assert SteppedIn(Seal, x, y, off, piece, luck);
    WroteIs(x.0, x.1, off, piece, luck);
    WrittenIff(x.0, x.1, off, piece, luck);
  }

  lemma {:induction false} RunSizes(r: Request, xs: seq<State>, n: nat, i: nat)
    requires IsRunTo(r, xs, n) && i <= n <= Chunks(r) && Sane(r.cell)
    ensures Sane(xs[i].0)
    ensures i > 0 ==> |r.cell.file.data| <= MAX_FILE && At(r, i) <= MAX_FILE
                      && |xs[i].0.file.data| == Capacity(|r.cell.file.data|, At(r, i))
  {
    if i > 0 {
      RunSizes(r, xs, n, i - 1);
      StepSizes(xs[i - 1], xs[i], At(r, i - 1), Between(r, i - 1, i), r.lucks(i - 1));
      if i > 1 {
        CapacityTwice(|r.cell.file.data|, At(r, i - 1), At(r, i));
      }
    }
  }

  lemma RunOn(r: Request, xs: seq<State>, n: nat, y: State)
    requires IsRunTo(r, xs, n) && Stepped(xs[n], y, At(r, n), Between(r, n, n + 1), r.lucks(n))
    ensures IsRunTo(r, xs + [y], n + 1)
  {
  }

  // The buffer before chunk i
  function RoomAt(r: Request, i: nat): nat
    requires |r.cell.file.data| <= MAX_FILE && (i > 0 ==> At(r, i) <= MAX_FILE)
  {
    if i == 0 then |r.cell.file.data| else Capacity(|r.cell.file.data|, At(r, i))
  }

  // The backend refuses chunk i: it ends behind the largest file, or needs memory that
  // is not there.
  predicate Refused(r: Request, i: nat)
    requires |r.cell.file.data| <= MAX_FILE
  {
    At(r, i + 1) > MAX_FILE || (At(r, i + 1) > RoomAt(r, i) && !r.lucks(i).memory)
  }

  // No chunk before m is refused.
  ghost predicate ServedUpTo(r: Request, m: nat)
    requires |r.cell.file.data| <= MAX_FILE
  {
    forall i :: 0 <= i < m ==> !Refused(r, i)
  }

  lemma RefusedIff(r: Request, xs: seq<State>, i: nat)
    requires i < Chunks(r) && IsRunTo(r, xs, i) && Sane(r.cell) && |r.cell.file.data| <= MAX_FILE
    ensures Refused(r, i) <==>
            !(At(r, i + 1) <= MAX_FILE && (At(r, i + 1) <= |xs[i].0.file.data| || r.lucks(i).memory))
  {
    RunSizes(r, xs, i, i);
  }

  // A job that has total bytes behind it and this result stands before chunk i of the
  // run or at its end, sealed.
  ghost predicate StandsIn(
      seal: Seal, r: Request, xs: seq<State>, i: nat, total: nat, result: Option<int>, error: int)
  {
    && Sane(r.cell) && |r.cell.file.data| <= MAX_FILE && i <= Chunks(r) && IsRunTo(r, xs, i) && ServedUpTo(r, i)
    && r.start + total == At(r, i)
    && (result.None? ==> total == i * CHUNK && i < Chunks(r))
    && (result.Some? ==> result == Some(if i > 0 then total else error) && (i < Chunks(r) ==> Refused(r, i)))
  }

  ghost predicate Stands(r: Request, xs: seq<State>, i: nat, total: nat, result: Option<int>, error: int) {
    forall seal :: StandsIn(seal, r, xs, i, total, result, error)
  }

  lemma StandsAtStart(r: Request, error: int)
    requires Sane(r.cell) && |r.cell.file.data| <= MAX_FILE && r.data != []
    ensures Stands(r, [(r.cell, r.believed)], 0, 0, None, error)
  {
  }

  lemma StandsIs(r: Request, xs: seq<State>, i: nat, total: nat, result: Option<int>, error: int)
    requires Stands(r, xs, i, total, result, error)
    ensures |xs| == i + 1 && i <= Chunks(r) && (result.None? ==> i < Chunks(r) && total < |r.data|)
    ensures StandsIn(Seal, r, xs, i, total, result, error)
  {
    assert StandsIn(Seal, r, xs, i, total, result, error);
  }

  // The next chunk is taken,
  lemma StandsOn(r: Request, xs: seq<State>, i: nat, total: nat, len: nat, piece: Buf, y: State, error: int)
    requires Stands(r, xs, i, total, None, error) && |xs| == i + 1
    requires total < |r.data| && len == Min(|r.data| - total, CHUNK) && piece == r.data[total..total + len]
    requires Granted(xs[i].0, r.start + total, piece, r.lucks(i))
    requires Stepped(xs[i], y, r.start + total, piece, r.lucks(i))
    ensures Stands(r, xs + [y], i + 1, total + len, if total + len == |r.data| then Some(total + len) else None, error)
  {
    assert StandsIn(Seal, r, xs, i, total, None, error);
    ChunkStep(r, i, xs[i], y, total, len, piece);
    RunOn(r, xs, i, y);
    ChunkTaken(r, xs, i, total, len, piece);
    ChunkIs(r, i, total, len);
  }

  lemma ChunkStep(r: Request, i: nat, x: State, y: State, total: nat, len: nat, piece: Buf)
    requires total == i * CHUNK < |r.data| && len == Min(|r.data| - total, CHUNK) && piece == r.data[total..total + len]
    requires Stepped(x, y, r.start + total, piece, r.lucks(i))
    ensures Stepped(x, y, At(r, i), Between(r, i, i + 1), r.lucks(i))
  {
    ChunkIs(r, i, total, len);
  }

  lemma ChunkTaken(r: Request, xs: seq<State>, i: nat, total: nat, len: nat, piece: Buf)
    requires Sane(r.cell) && |r.cell.file.data| <= MAX_FILE && IsRunTo(r, xs, i) && ServedUpTo(r, i)
    requires total == i * CHUNK < |r.data| && len == Min(|r.data| - total, CHUNK) && piece == r.data[total..total + len]
    requires Granted(xs[i].0, r.start + total, piece, r.lucks(i))
    ensures ServedUpTo(r, i + 1)
  {
    ChunkIs(r, i, total, len);
    RefusedIff(r, xs, i);
  }

  // or refused.
  lemma StandsStill(r: Request, xs: seq<State>, i: nat, total: nat, len: nat, piece: Buf, error: int)
    requires Stands(r, xs, i, total, None, error) && |xs| == i + 1
    requires total < |r.data| && len == Min(|r.data| - total, CHUNK) && piece == r.data[total..total + len]
    requires !Granted(xs[i].0, r.start + total, piece, r.lucks(i))
    ensures Stands(r, xs, i, total, Some(if total > 0 then total else error), error)
  {
    assert StandsIn(Seal, r, xs, i, total, None, error);
    ChunkIs(r, i, total, len);
    RefusedIff(r, xs, i);
  }

  // The first m chunks as a request of their own
  function FirstChunks(r: Request, m: nat): Request { r.(data := Between(r, 0, m)) }

  lemma FirstChunksRun(r: Request, xs: seq<State>, m: nat)
    requires m <= Chunks(r) && IsRunTo(r, xs, m)
    ensures Chunks(FirstChunks(r, m)) == m && IsRun(FirstChunks(r, m), xs)
  {
    var q := FirstChunks(r, m);
    assert |q.data| == Min(m * CHUNK, |r.data|);
    forall i: nat | i < m
      ensures Stepped(xs[i], xs[i + 1], At(q, i), Between(q, i, i + 1), q.lucks(i))
    {
      assert At(q, i) == At(r, i) && At(q, i + 1) == At(r, i + 1);
      SliceOfPrefix(r.data, |q.data|, At(r, i) - r.start, At(r, i + 1) - r.start);
    }
  }

  // From v to v' the chunks from m to k were written, sealed.
  ghost predicate TookIn(seal: Seal, r: Request, v: Buf, v': Buf, m: nat, k: nat)
    requires m <= k
  {
    WrittenSoFar(v, v', At(r, m), Between(r, m, k))
  }

  ghost predicate Took(r: Request, v: Buf, v': Buf, m: nat, k: nat)
    requires m <= k
  {
    forall seal :: TookIn(seal, r, v, v', m, k)
  }

  lemma TookNothing(r: Request, v: Buf, m: nat)
    ensures Took(r, v, v, m, m)
  {
  }

  lemma TookAll(r: Request, v: Buf, v': Buf)
    requires Took(r, v, v', 0, Chunks(r)) && r.data != []
    ensures Written(v, v', r.start, r.data)
  {
    assert TookIn(Seal, r, v, v', 0, Chunks(r));
    assert Between(r, 0, Chunks(r)) == r.data;
  }

  lemma TookBytes(r: Request, v: Buf, v': Buf, m: nat, k: nat)
    requires m <= k && Took(r, v, v', m, k)
    ensures |v'| == if At(r, m) == At(r, k) then |v| else Max(|v|, At(r, k))
    ensures forall j {:trigger v'[j]} :: At(r, m) <= j < At(r, k) ==> v'[j] == r.data[j - r.start]
    ensures forall j {:trigger v'[j]} :: 0 <= j < |v| && !(At(r, m) <= j < At(r, k)) ==> v'[j] == v[j]
  {
    assert TookIn(Seal, r, v, v', m, k);
    var piece := Between(r, m, k);
    if piece != [] {
      WrittenBytes(v, v', At(r, m), piece);
      forall j | At(r, m) <= j < At(r, k) ensures v'[j] == r.data[j - r.start] {
        assert v'[j] == piece[j - At(r, m)];
      }
    }
  }

  lemma TookJoin(r: Request, v: Buf, v1: Buf, v2: Buf, m: nat, i: nat, k: nat)
    requires m <= i <= k && Took(r, v, v1, m, i) && Took(r, v1, v2, i, k)
    ensures Took(r, v, v2, m, k)
  {
    assert TookIn(Seal, r, v, v1, m, i) && TookIn(Seal, r, v1, v2, i, k);
    PartJoin(r.data, At(r, m) - r.start, At(r, i) - r.start, At(r, k) - r.start);
    SoFarJoin(v, v1, v2, At(r, m), Between(r, m, i), Between(r, i, k));
  }

  lemma SoFarJoin(v: Buf, v1: Buf, v2: Buf, off: nat, done: Buf, rest: Buf)
    requires WrittenSoFar(v, v1, off, done) && WrittenSoFar(v1, v2, off + |done|, rest)
    ensures WrittenSoFar(v, v2, off, done + rest)
  {
    if rest == [] {
      assert done + rest == done;
    } else {
      WrittenOn(v, v1, v2, off, done, rest);
    }
  }

  // A chunk that is not flushed over
  lemma ChunkOn(r: Request, v: Buf, x: State, y: State, m: nat, i: nat)
    requires m <= i < Chunks(r) && Sane(x.0) && Took(r, v, Content(x.0.file), m, i)
    requires Stepped(x, y, At(r, i), Between(r, i, i + 1), r.lucks(i)) && !Erases(x.0, x.1, At(r, i + 1), r.lucks(i))
    ensures Sane(y.0) && y.1 == y.0.file.size && Took(r, v, Content(y.0.file), m, i + 1)
  {
    StepSizes(x, y, At(r, i), Between(r, i, i + 1), r.lucks(i));
    StepWrites(x, y, At(r, i), Between(r, i, i + 1), r.lucks(i));
    ChunkIsNotEmpty(r, i);
    TookJoin(r, v, Content(x.0.file), Content(y.0.file), m, i, i + 1);
  }

  // Once the entry is gone, every chunk is written.
  lemma {:induction false} TailIsWritten(r: Request, xs: seq<State>, m: nat, i: nat)
    requires IsRun(r, xs) && m <= i <= Chunks(r) && Sane(xs[m].0) && xs[m].0.view.None?
    ensures Sane(xs[i].0) && xs[i].0.view.None? && Took(r, Content(xs[m].0.file), Content(xs[i].0.file), m, i)
  {
    if m == i {
      TookNothing(r, Content(xs[m].0.file), m);
    } else {
      TailIsWritten(r, xs, m, i - 1);
      StepSizes(xs[i - 1], xs[i], At(r, i - 1), Between(r, i - 1, i), r.lucks(i - 1));
      ChunkOn(r, Content(xs[m].0.file), xs[i - 1], xs[i], m, i - 1);
    }
  }

  // ---- the chunk that drops the entry

  // The first chunk at which the handle sees the file grow, or the number of chunks
  function FirstDrop(r: Request): (k: nat)
    ensures k <= Chunks(r)
  {
    var size := r.cell.file.size;
    if Max(size, At(r, 1)) > r.believed then 0
    else if r.start + |r.data| <= size then Chunks(r)
    else Min(Chunks(r), if size < r.start + CHUNK then 1 else (size - r.start) / CHUNK)
  }

  // File and believed size before chunk i <= FirstDrop(r)
  function SizeAt(r: Request, i: nat): nat {
    if i == 0 then r.cell.file.size else Max(r.cell.file.size, At(r, i))
  }

  function BelievedAt(r: Request, i: nat): nat { if i == 0 then r.believed else SizeAt(r, i) }

  lemma DropsIff(r: Request, i: nat)
    requires i < Chunks(r) && i <= FirstDrop(r)
    ensures Max(SizeAt(r, i), At(r, i + 1)) > BelievedAt(r, i) <==> i == FirstDrop(r)
    ensures 0 < i < FirstDrop(r) ==> At(r, i + 1) <= r.cell.file.size
  {
  }

  // The entry is dirty before chunk i.
  predicate DirtyAt(r: Request, i: nat) {
    r.cell.view.Some? && (r.cell.view.value.dirty || (i > 0 && r.start < r.cell.file.size))
  }

  // Byte j < size of the old file with the chunks before i in it
  function Overlaid(r: Request, i: nat, j: nat): Byte
    requires RamOk(r.cell.file) && j < r.cell.file.size
  {
    if r.start <= j < At(r, i) then r.data[j - r.start] else r.cell.file.data[j]
  }

  // Up to the first drop the file takes every chunk, and the entry what lies inside
  // the old file.
  ghost predicate Before(r: Request, x: State, i: nat)
    requires RamOk(r.cell.file)
  {
    && Sane(x.0) && x.0.file.size == SizeAt(r, i) && x.1 == BelievedAt(r, i)
    && Took(r, Content(r.cell.file), Content(x.0.file), 0, i)
    && (x.0.view.Some? <==> r.cell.view.Some?)
    && (x.0.view.Some? ==> ViewAt(r, x.0.view.value, i))
  }

  ghost predicate ViewAt(r: Request, v: View, i: nat)
    requires RamOk(r.cell.file)
  {
    && v.size == r.cell.file.size <= |v.bytes| && (v.dirty <==> DirtyAt(r, i))
    && forall j :: 0 <= j < v.size ==> v.bytes[j] == Overlaid(r, i, j)
  }

  // A chunk that is not dropped
  lemma StepSyncs(x: State, y: State, off: nat, piece: Buf, luck: Luck)
    requires Stepped(x, y, off, piece, luck) && Max(x.0.file.size, off + |piece|) <= x.1 && x.0.view.Some?
    ensures y.0.view.Some? && x.0.view.value.size <= |x.0.view.value.bytes|
    ensures y.0.view.value == Synced(x.0.view.value, off, piece)
  {
    assert SteppedIn(Seal, x, y, off, piece, luck);
  }

  lemma SyncedBytes(v: View, off: nat, piece: Buf)
    requires v.size <= |v.bytes| && piece != []
    ensures var w := Synced(v, off, piece);
            && w.size == v.size <= |w.bytes| && (w.dirty <==> v.dirty || off < v.size)
            && forall j :: 0 <= j < v.size ==>
                             w.bytes[j] == if off <= j < off + |piece| then piece[j - off] else v.bytes[j]
  {
  }

  lemma ViewOn(r: Request, v: View, i: nat)
    requires i < Chunks(r) && RamOk(r.cell.file) && r.cell.view.Some? && ViewAt(r, v, i)
    requires i > 0 ==> At(r, i + 1) <= r.cell.file.size
    ensures ViewAt(r, Synced(v, At(r, i), Between(r, i, i + 1)), i + 1)
  {
    var off, piece := At(r, i), Between(r, i, i + 1);
    ChunkIsNotEmpty(r, i);
    SyncedBytes(v, off, piece);
    var w := Synced(v, off, piece);
    forall j | 0 <= j < w.size ensures w.bytes[j] == Overlaid(r, i + 1, j) {
      assert v.bytes[j] == Overlaid(r, i, j);
    }
  }

  lemma {:induction false} BeforeDrop(r: Request, xs: seq<State>, i: nat)
    requires IsRun(r, xs) && i <= FirstDrop(r) && RamOk(r.cell.file) && Before(r, xs[0], 0)
    ensures Before(r, xs[i], i)
  {
    if i > 0 {
      BeforeDrop(r, xs, i - 1);
      BeforeStep(r, xs[i - 1], xs[i], i - 1);
    }
  }

  lemma BeforeAll(r: Request)
    requires Coherent(r.cell)
    ensures Before(r, (r.cell, r.believed), 0)
  {
    TookNothing(r, Content(r.cell.file), 0);
    if r.cell.view.Some? {
      var v := r.cell.view.value;
      forall j | 0 <= j < v.size ensures v.bytes[j] == Overlaid(r, 0, j) {
        assert Cached(v)[j] == Content(r.cell.file)[j];
      }
    }
  }

  lemma BeforeStep(r: Request, x: State, y: State, i: nat)
    requires i < FirstDrop(r) && RamOk(r.cell.file) && Before(r, x, i)
    requires Stepped(x, y, At(r, i), Between(r, i, i + 1), r.lucks(i))
    ensures Before(r, y, i + 1)
  {
    var off, piece, luck := At(r, i), Between(r, i, i + 1), r.lucks(i);
    DropsIff(r, i);
    StepSizes(x, y, off, piece, luck);
    ChunkOn(r, Content(r.cell.file), x, y, 0, i);
    if x.0.view.Some? {
      StepSyncs(x, y, off, piece, luck);
      ViewOn(r, x.0.view.value, i);
    }
  }

  // ---- behind it

  // The chunk that drops a dirty entry: the file is what the entry was, and behind
  // its end the buffer still has the bytes of the request.
  ghost predicate Lost(r: Request, y: State, k: nat)
    requires RamOk(r.cell.file)
  {
    && RamOk(y.0.file) && y.0.view.None? && y.0.file.size == r.cell.file.size && At(r, k + 1) <= |y.0.file.data|
    && (forall j :: 0 <= j < r.cell.file.size ==> y.0.file.data[j] == Overlaid(r, k, j))
    && forall j :: Max(r.cell.file.size, r.start) <= j < At(r, k + 1) ==> y.0.file.data[j] == r.data[j - r.start]
  }

  // A chunk that is flushed over
  lemma StepErases(x: State, y: State, off: nat, piece: Buf, luck: Luck)
    requires Stepped(x, y, off, piece, luck) && Erases(x.0, x.1, off + |piece|, luck)
    ensures Sane(x.0) && y.0.view.None? && y.0.file.size == x.0.view.value.size && RamOk(y.0.file)
    ensures off + |piece| <= |y.0.file.data|
    ensures forall j :: 0 <= j < y.0.file.size ==> y.0.file.data[j] == x.0.view.value.bytes[j]
    ensures forall j :: y.0.file.size <= j < x.0.file.size && j < off ==> y.0.file.data[j] == x.0.file.data[j]
    ensures forall j :: y.0.file.size <= j && off <= j < off + |piece| ==> y.0.file.data[j] == piece[j - off]
  {
    assert SteppedIn(Seal, x, y, off, piece, luck);
    WroteIs(x.0, x.1, off, piece, luck);
    var g := Grown(x.0.file, off + |piece|, luck).value;
    GrownBytes(x.0.file, off + |piece|, luck);
    StoredBytes(g, off, piece);
    FlushedBytes(x.0.view.value, Stored(g, off, piece));
    assert y.0.file == Flushed(x.0.view.value, Stored(g, off, piece));
  }

  // Byte by byte
  lemma GrownBytes(f: Ram, need: nat, luck: Luck)
    requires RamOk(f) && |f.data| <= MAX_FILE && need <= MAX_FILE && Grown(f, need, luck).Some?
    ensures var g := Grown(f, need, luck).value;
            RamOk(g) && g.size == f.size && forall j :: 0 <= j < f.size ==> g.data[j] == f.data[j]
  {
    var g := Grown(f, need, luck).value;
    forall j | 0 <= j < f.size ensures g.data[j] == f.data[j] {
      assert Content(g)[j] == Content(f)[j];
    }
  }

  lemma StoredBytes(g: Ram, off: nat, buf: Buf)
    requires off + |buf| <= |g.data|
    ensures var h := Stored(g, off, buf);
            && |h.data| == |g.data|
            && forall j :: 0 <= j < |g.data| ==> h.data[j] == if off <= j < off + |buf| then buf[j - off] else g.data[j]
  {
  }

  lemma FlushedBytes(v: View, h: Ram)
    requires ViewOk(v, h)
    ensures var f := Flushed(v, h);
            && |f.data| == |h.data|
            && forall j :: 0 <= j < |h.data| ==> f.data[j] == if j < v.size then v.bytes[j] else h.data[j]
  {
  }

  lemma DoneByte(r: Request, x: State, k: nat, j: nat)
    requires RamOk(r.cell.file) && Before(r, x, k) && r.start <= j < At(r, k)
    ensures j < x.0.file.size && x.0.file.data[j] == r.data[j - r.start]
  {
    TookBytes(r, Content(r.cell.file), Content(x.0.file), 0, k);
    assert Content(x.0.file)[j] == r.data[j - r.start];
  }

  // The buffer of f has the bytes of the chunks before k.
  ghost predicate HasDone(r: Request, f: Ram, k: nat) {
    && (r.start < At(r, k) ==> At(r, k) <= f.size <= |f.data|)
    && forall j :: r.start <= j < At(r, k) ==> f.data[j] == r.data[j - r.start]
  }

  lemma BeforeHasDone(r: Request, x: State, k: nat)
    requires RamOk(r.cell.file) && Before(r, x, k)
    ensures HasDone(r, x.0.file, k)
  {
    forall j | r.start <= j < At(r, k) ensures j < x.0.file.size && x.0.file.data[j] == r.data[j - r.start] {
      DoneByte(r, x, k, j);
    }
    if r.start < At(r, k) {
      DoneByte(r, x, k, At(r, k) - 1);
    }
  }

  lemma LostStep(r: Request, x: State, y: State, k: nat)
    requires k < Chunks(r) && RamOk(r.cell.file) && RamOk(x.0.file) && HasDone(r, x.0.file, k)
    requires x.0.view.Some? && ViewAt(r, x.0.view.value, k)
    requires Stepped(x, y, At(r, k), Between(r, k, k + 1), r.lucks(k))
    requires Erases(x.0, x.1, At(r, k + 1), r.lucks(k))
    ensures Lost(r, y, k)
  {
    var off, piece := At(r, k), Between(r, k, k + 1);
    StepErases(x, y, off, piece, r.lucks(k));
    forall j | Max(r.cell.file.size, r.start) <= j < At(r, k + 1) ensures y.0.file.data[j] == r.data[j - r.start] {
      if off <= j {
        assert y.0.file.data[j] == piece[j - off];
      }
    }
  }

  // A chunk behind the end of a file without an entry: the gap is what the buffer
  // held, or what a new one holds.
  lemma StepGap(x: State, y: State, off: nat, piece: Buf, luck: Luck)
    requires Stepped(x, y, off, piece, luck) && x.0.view.None? && RamOk(x.0.file)
    ensures RamOk(y.0.file) && off + |piece| <= y.0.file.size
    ensures var fits := off + |piece| <= |x.0.file.data|;
            forall j :: x.0.file.size <= j < off ==> y.0.file.data[j] == if fits then x.0.file.data[j] else luck.junk(j)
  {
    assert SteppedIn(Seal, x, y, off, piece, luck);
    WroteIs(x.0, x.1, off, piece, luck);
  }

  // The chunk after the lost one needs no new buffer.
  predicate Fits(r: Request, k: nat)
    requires |r.cell.file.data| <= MAX_FILE && At(r, k + 1) <= MAX_FILE
  {
    At(r, k + 2) <= Capacity(|r.cell.file.data|, At(r, k + 1))
  }

  // Byte j behind the old end and before chunk k + 1, after that chunk
  function GapByte(r: Request, k: nat, j: nat): Byte
    requires |r.cell.file.data| <= MAX_FILE && At(r, k + 1) <= MAX_FILE && r.start <= j < At(r, k + 1)
  {
    if Fits(r, k) then r.data[j - r.start] else r.lucks(k + 1).junk(j)
  }

  lemma GapIs(r: Request, xs: seq<State>, k: nat, j: nat)
    requires IsRun(r, xs) && k + 1 < Chunks(r) && Sane(r.cell) && Lost(r, xs[k + 1], k)
    requires Max(r.cell.file.size, r.start) <= j < At(r, k + 1)
    ensures |r.cell.file.data| <= MAX_FILE && At(r, k + 1) <= MAX_FILE
    ensures var f := xs[k + 2].0.file; RamOk(f) && j < f.size && f.data[j] == GapByte(r, k, j)
    ensures xs[k + 2].0.view.None?
  {
    RunSizes(r, xs, Chunks(r), k + 1);
    StepSizes(xs[k + 1], xs[k + 2], At(r, k + 1), Between(r, k + 1, k + 2), r.lucks(k + 1));
    StepGap(xs[k + 1], xs[k + 2], At(r, k + 1), Between(r, k + 1, k + 2), r.lucks(k + 1));
  }

  // It stays so.
  lemma GapStays(r: Request, xs: seq<State>, k: nat, j: nat)
    requires IsRun(r, xs) && k + 1 < Chunks(r) && Sane(r.cell) && Lost(r, xs[k + 1], k)
    requires Max(r.cell.file.size, r.start) <= j < At(r, k + 1)
    ensures |r.cell.file.data| <= MAX_FILE && At(r, k + 1) <= MAX_FILE
    ensures var f := xs[Chunks(r)].0.file; RamOk(f) && j < f.size && f.data[j] == GapByte(r, k, j)
  {
    var n := Chunks(r);
    GapIs(r, xs, k, j);
    RunSizes(r, xs, n, k + 2);
    TailIsWritten(r, xs, k + 2, n);
    TookBytes(r, Content(xs[k + 2].0.file), Content(xs[n].0.file), k + 2, n);
    assert Content(xs[n].0.file)[j] == Content(xs[k + 2].0.file)[j];
  }

  // The file after a lost chunk and all that follow
  ghost predicate AfterLoss(r: Request, f: Ram, k: nat)
    requires RamOk(r.cell.file) && k < Chunks(r)
  {
    && RamOk(f)
    && f.size == (if k + 1 == Chunks(r) then r.cell.file.size else Max(r.cell.file.size, r.start + |r.data|))
    && (forall j :: At(r, k + 1) <= j < r.start + |r.data| ==> f.data[j] == r.data[j - r.start])
    && forall j :: 0 <= j < r.cell.file.size && !(At(r, k + 1) <= j < r.start + |r.data|) ==>
                     f.data[j] == Overlaid(r, k, j)
  }

  lemma LossOn(r: Request, y: Ram, f: Ram, k: nat)
    requires RamOk(r.cell.file) && k < Chunks(r) && RamOk(y) && RamOk(f) && y.size == r.cell.file.size
    requires forall j :: 0 <= j < r.cell.file.size ==> y.data[j] == Overlaid(r, k, j)
    requires Took(r, Content(y), Content(f), k + 1, Chunks(r))
    ensures AfterLoss(r, f, k)
  {
    TookBytes(r, Content(y), Content(f), k + 1, Chunks(r));
    forall j | At(r, k + 1) <= j < r.start + |r.data| ensures f.data[j] == r.data[j - r.start] {
      assert Content(f)[j] == r.data[j - r.start];
    }
    forall j | 0 <= j < r.cell.file.size && !(At(r, k + 1) <= j < r.start + |r.data|)
      ensures f.data[j] == Overlaid(r, k, j)
    {
      assert Content(f)[j] == Content(y)[j];
    }
  }

  lemma AfterLossIs(r: Request, xs: seq<State>, k: nat)
    requires IsRun(r, xs) && k < Chunks(r) && Sane(r.cell) && Lost(r, xs[k + 1], k)
    ensures AfterLoss(r, xs[Chunks(r)].0.file, k)
  {
    RunSizes(r, xs, Chunks(r), k + 1);
    TailIsWritten(r, xs, k + 1, Chunks(r));
    LossOn(r, xs[k + 1].0.file, xs[Chunks(r)].0.file, k);
  }

  // ---- the whole request

  // The chunk at which the handle sees the file grow is flushed over.
  predicate Overtaken(r: Request) {
    FirstDrop(r) < Chunks(r) && DirtyAt(r, FirstDrop(r)) && r.lucks(FirstDrop(r)).copies
  }

  // The bytes of chunk k inside the old file are in f.
  ghost predicate Inside(r: Request, f: Ram, k: nat)
    requires RamOk(f) && f.size >= r.cell.file.size
  {
    forall j :: At(r, k) <= j < Min(At(r, k + 1), r.cell.file.size) ==> f.data[j] == r.data[j - r.start]
  }

  // The bytes behind the old file and before chunk k + 1 are what that chunk uncovers:
  // those of the request, or those of a new buffer that happen to be the same.
  ghost predicate GapIsData(r: Request, k: nat)
    requires |r.cell.file.data| <= MAX_FILE && At(r, k + 1) <= MAX_FILE
  {
    forall j :: Max(r.cell.file.size, r.start) <= j < At(r, k + 1) ==> GapByte(r, k, j) == r.data[j - r.start]
  }

  // And yet nothing is missing: the lost bytes inside the old file were there before,
  // and there are none behind it, or the next chunk uncovers them.
  ghost predicate Restored(r: Request)
    requires RamOk(r.cell.file) && |r.cell.file.data| <= MAX_FILE && r.start + |r.data| <= MAX_FILE
  {
    var k := FirstDrop(r);
    && Inside(r, r.cell.file, k)
    && (r.start + |r.data| <= r.cell.file.size || (k + 1 < Chunks(r) && GapIsData(r, k)))
  }

  // Without a chunk that is flushed over
  lemma NotOvertaken(r: Request, xs: seq<State>)
    requires IsRun(r, xs) && Coherent(r.cell) && r.data != [] && !Overtaken(r)
    ensures RamOk(xs[Chunks(r)].0.file)
    ensures Written(Content(r.cell.file), Content(xs[Chunks(r)].0.file), r.start, r.data)
  {
    BeforeAll(r);
    BeforeDrop(r, xs, FirstDrop(r));
    if FirstDrop(r) < Chunks(r) {
      DroppedWhole(r, xs, FirstDrop(r));
    }
    TookAll(r, Content(r.cell.file), Content(xs[Chunks(r)].0.file));
  }

  // The chunk that drops a clean entry is written, and so are all that follow.
  lemma DroppedWhole(r: Request, xs: seq<State>, k: nat)
    requires IsRun(r, xs) && k == FirstDrop(r) < Chunks(r) && Sane(r.cell) && Before(r, xs[k], k) && !Overtaken(r)
    ensures RamOk(xs[Chunks(r)].0.file)
    ensures Took(r, Content(r.cell.file), Content(xs[Chunks(r)].0.file), 0, Chunks(r))
  {
    var n, v := Chunks(r), Content(r.cell.file);
    DropsIff(r, k);
    StepSizes(xs[k], xs[k + 1], At(r, k), Between(r, k, k + 1), r.lucks(k));
    ChunkOn(r, v, xs[k], xs[k + 1], 0, k);
    TailIsWritten(r, xs, k + 1, n);
    TookJoin(r, v, Content(xs[k + 1].0.file), Content(xs[n].0.file), 0, k + 1, n);
  }

  // With one
  lemma OvertakenIsLost(r: Request, xs: seq<State>)
    requires IsRun(r, xs) && Coherent(r.cell) && r.data != [] && Overtaken(r)
    ensures Lost(r, xs[FirstDrop(r) + 1], FirstDrop(r))
  {
    var k := FirstDrop(r);
    BeforeAll(r);
    BeforeDrop(r, xs, k);
    BeforeHasDone(r, xs[k], k);
    DropsIff(r, k);
    LostStep(r, xs[k], xs[k + 1], k);
  }

  // The bytes of the request are in f.
  ghost predicate Holds(r: Request, f: Ram) {
    f.size >= r.start + |r.data| && RamOk(f)
    && forall j :: r.start <= j < r.start + |r.data| ==> f.data[j] == r.data[j - r.start]
  }

  // All other bytes of the old file are kept.
  lemma OthersKept(r: Request, f: Ram, k: nat)
    requires RamOk(r.cell.file) && k < Chunks(r) && AfterLoss(r, f, k)
    ensures f.size >= r.cell.file.size
    ensures forall j :: 0 <= j < r.cell.file.size && !(r.start <= j < r.start + |r.data|) ==>
                          f.data[j] == r.cell.file.data[j]
  {
    forall j | 0 <= j < r.cell.file.size && !(r.start <= j < r.start + |r.data|)
      ensures f.data[j] == r.cell.file.data[j]
    {
      assert f.data[j] == Overlaid(r, k, j);
    }
  }

  lemma WrittenIffHolds(r: Request, f: Ram, k: nat)
    requires RamOk(r.cell.file) && k < Chunks(r) && AfterLoss(r, f, k)
    ensures Written(Content(r.cell.file), Content(f), r.start, r.data) <==> Holds(r, f)
  {
    OthersKept(r, f, k);
    HoldsAsWritten(r, f);
    assert f.size == r.cell.file.size || f.size == Max(r.cell.file.size, r.start + |r.data|);
  }

  lemma HoldsAsWritten(r: Request, f: Ram)
    requires RamOk(r.cell.file) && RamOk(f) && f.size >= r.cell.file.size
    requires forall j :: 0 <= j < r.cell.file.size && !(r.start <= j < r.start + |r.data|) ==>
                           f.data[j] == r.cell.file.data[j]
    ensures f.size == Max(r.cell.file.size, r.start + |r.data|) ==>
              (Written(Content(r.cell.file), Content(f), r.start, r.data) <==> Holds(r, f))
  {
    if f.size == Max(r.cell.file.size, r.start + |r.data|) {
      WrittenBytes(Content(r.cell.file), Content(f), r.start, r.data);
      if !Holds(r, f) {
        var j :| r.start <= j < r.start + |r.data| && f.data[j] != r.data[j - r.start];
        assert Content(f)[j] == f.data[j];
      }
    }
  }

  // Those behind it are in f.
  ghost predicate Behind(r: Request, f: Ram, k: nat)
    requires RamOk(f) && f.size >= At(r, k + 1)
  {
    forall j :: Max(r.cell.file.size, r.start) <= j < At(r, k + 1) ==> f.data[j] == r.data[j - r.start]
  }

  lemma HoldsIff(r: Request, f: Ram, k: nat)
    requires RamOk(r.cell.file) && k < Chunks(r) && AfterLoss(r, f, k)
    ensures Holds(r, f) <==>
            Inside(r, f, k) && (r.start + |r.data| <= r.cell.file.size || (k + 1 < Chunks(r) && Behind(r, f, k)))
  {
    if Inside(r, f, k) && (r.start + |r.data| <= r.cell.file.size || (k + 1 < Chunks(r) && Behind(r, f, k))) {
      forall j | r.start <= j < r.start + |r.data| ensures f.data[j] == r.data[j - r.start] {
        if j < At(r, k) && j < r.cell.file.size {
          assert f.data[j] == Overlaid(r, k, j);
        }
      }
    }
  }

  lemma InsideIff(r: Request, f: Ram, k: nat)
    requires RamOk(r.cell.file) && k < Chunks(r) && AfterLoss(r, f, k)
    ensures Inside(r, f, k) <==> Inside(r, r.cell.file, k)
  {
    forall j | At(r, k) <= j < Min(At(r, k + 1), r.cell.file.size) ensures f.data[j] == r.cell.file.data[j] {
      assert f.data[j] == Overlaid(r, k, j);
    }
  }

  lemma BehindIff(r: Request, xs: seq<State>, k: nat)
    requires IsRun(r, xs) && k + 1 < Chunks(r) && Sane(r.cell) && Lost(r, xs[k + 1], k)
    requires |r.cell.file.data| <= MAX_FILE && r.start + |r.data| <= MAX_FILE
    requires RamOk(xs[Chunks(r)].0.file) && xs[Chunks(r)].0.file.size >= At(r, k + 1)
    ensures Behind(r, xs[Chunks(r)].0.file, k) <==> GapIsData(r, k)
  {
    var f := xs[Chunks(r)].0.file;
    forall j | Max(r.cell.file.size, r.start) <= j < At(r, k + 1) ensures j < f.size && f.data[j] == GapByte(r, k, j) {
      GapStays(r, xs, k, j);
    }
  }

  lemma HoldsIffRestored(r: Request, xs: seq<State>)
    requires IsRun(r, xs) && Sane(r.cell) && FirstDrop(r) < Chunks(r) && Lost(r, xs[FirstDrop(r) + 1], FirstDrop(r))
    requires AfterLoss(r, xs[Chunks(r)].0.file, FirstDrop(r))
    ensures |r.cell.file.data| <= MAX_FILE && r.start + |r.data| <= MAX_FILE
    ensures Holds(r, xs[Chunks(r)].0.file) <==> Restored(r)
  {
    var n, k := Chunks(r), FirstDrop(r);
    RunSizes(r, xs, n, n);
    HoldsIff(r, xs[n].0.file, k);
    InsideIff(r, xs[n].0.file, k);
    if k + 1 < n {
      BehindIff(r, xs, k);
    }
  }

  // A file never shrinks below its old size, nor does it outgrow what was written.
  lemma {:induction false} SizesStay(r: Request, xs: seq<State>, i: nat)
    requires IsRun(r, xs) && i <= Chunks(r) && Coherent(r.cell)
    ensures r.cell.file.size <= xs[i].0.file.size <= SizeAt(r, i)
    ensures xs[i].0.view.Some? ==> xs[i].0.view.value.size == r.cell.file.size
    ensures i > 0 ==> xs[i].1 == SizeAt(r, i)
  {
    if i > 0 {
      SizesStay(r, xs, i - 1);
      StepSizes(xs[i - 1], xs[i], At(r, i - 1), Between(r, i - 1, i), r.lucks(i - 1));
      StepViews(xs[i - 1], xs[i], At(r, i - 1), Between(r, i - 1, i), r.lucks(i - 1));
    }
  }

  // The request is one write exactly if no chunk is flushed over, or what it lost is
  // restored.  The handle believes in the size of one write in any case.
  lemma WriteRunIff(r: Request, xs: seq<State>)
    requires IsRun(r, xs) && Coherent(r.cell) && r.data != []
    ensures |r.cell.file.data| <= MAX_FILE && r.start + |r.data| <= MAX_FILE && RamOk(xs[Chunks(r)].0.file)
    ensures Written(Content(r.cell.file), Content(xs[Chunks(r)].0.file), r.start, r.data) <==>
            !Overtaken(r) || Restored(r)
    ensures Overtaken(r) && FirstDrop(r) + 1 == Chunks(r) ==> xs[Chunks(r)].0.file.size == r.cell.file.size
    ensures xs[Chunks(r)].1 == Max(r.cell.file.size, r.start + |r.data|)
  {
    RunSizes(r, xs, Chunks(r), Chunks(r));
    SizesStay(r, xs, Chunks(r));
    if Overtaken(r) {
      var k := FirstDrop(r);
      OvertakenIsLost(r, xs);
      AfterLossIs(r, xs, k);
      WrittenIffHolds(r, xs[Chunks(r)].0.file, k);
      HoldsIffRestored(r, xs);
    } else {
      NotOvertaken(r, xs);
    }
  }
}
