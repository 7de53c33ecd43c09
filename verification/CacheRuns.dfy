/**
 The page cache over whole runs: any sequence of opens, closes, reads, writes,
 truncates, flushes and evictions, on any files through any handles.  When it is as
 if there was no cache.
 */
module CacheRuns {
  import opened Wrappers
  import opened Bytes
  import opened CachedFile
  import opened PageCache

  // Every file with its entry, and the handles
  datatype Disk = Disk(cells: map<Path, Cell>, handles: map<Fd, Handle>)

  datatype Op =
    | Open(fd: Fd, path: Path)
    | OpenEmpty(fd: Fd, path: Path, luck: Luck)      // with O_TRUNC
    | Close(fd: Fd)
    | Read(fd: Fd, off: nat, len: nat, luck: Luck)
    | Write(fd: Fd, off: nat, buf: Buf, luck: Luck)
    | Truncate(fd: Fd, size: nat, luck: Luck)
    | Flush(fd: Fd, copies: bool)
    | Evict(victim: Path, copies: bool)

  datatype Answer = Refused | Done | Count(n: nat) | Data(buf: Buf)

  // Sizes are within buffers; what an entry or a handle says need not be the file.
  ghost predicate Sound(s: Disk) {
    && (forall p :: p in s.cells ==> Sane(s.cells[p]) && |s.cells[p].file.data| <= MAX_FILE)
    && (forall d :: d in s.handles ==>
          s.handles[d].path in s.cells && s.handles[d].size <= |s.cells[s.handles[d].path].file.data|)
  }

  // What a file holds
  function Held(s: Disk, p: Path): Buf
    requires p in s.cells && RamOk(s.cells[p].file)
  {
    Content(s.cells[p].file)
  }

  // The file an operation is on
  function Target(s: Disk, op: Op): Option<Path> {
    match op
    case Open(_, p) => Some(p)
    case OpenEmpty(_, p, _) => Some(p)
    case Evict(p, _) => Some(p)
    case _ => if op.fd in s.handles then Some(s.handles[op.fd].path) else None
  }

  // ---- one operation

  // A read may fill the entry, and evict another one for it.
  ghost predicate ReadStep(s: Disk, p: Path, b: nat, off: nat, len: nat, luck: Luck, s': Disk, buf: Buf)
    requires Sound(s) && p in s.cells
  {
    && s'.cells.Keys == s.cells.Keys && s'.handles == s.handles
    && Sane(s'.cells[p]) && s'.cells[p].file == s.cells[p].file
    && (s.cells[p].view.Some? ==> s'.cells[p].view == s.cells[p].view)
    && (s.cells[p].view.None? && s'.cells[p].view.Some? ==> Fills(s'.cells[p].view.value, s.cells[p].file, b))
    && buf == ReadFrom(s'.cells[p], b, off, len, luck.copies)
    && forall q :: q in s.cells && q != p ==>
         s'.cells[q] == s.cells[q] || (q == luck.victim && s'.cells[q] == Evicted(s.cells[q], luck.copies))
  }

  ghost predicate WriteStep(s: Disk, fd: Fd, off: nat, buf: Buf, luck: Luck, s': Disk, a: Answer)
    requires Sound(s) && fd in s.handles
  {
    var p, b := s.handles[fd].path, s.handles[fd].size;
    match Wrote(s.cells[p], b, off, buf, luck)
    case None => a == Refused && s' == s
    case Some((c, b')) =>
      a == Count(|buf|) && s' == Disk(s.cells[p := c], s.handles[fd := Handle(p, b')])
  }

  ghost predicate TruncateStep(s: Disk, fd: Fd, size: nat, luck: Luck, s': Disk, a: Answer)
    requires Sound(s) && fd in s.handles
  {
    var p := s.handles[fd].path;
    match Recut(s.cells[p], size, luck)
    case None => a == Refused && s' == s
    case Some(c) => a == Done && s' == Disk(s.cells[p := c], s.handles[fd := Handle(p, c.file.size)])
  }

  // What an operation does and answers; it is refused without its handle or file.
  ghost predicate Step(s: Disk, op: Op, a: Answer, s': Disk)
    requires Sound(s)
  {
    if Target(s, op).None? || Target(s, op).value !in s.cells then a == Refused && s' == s
    else
      var p := Target(s, op).value;
      match op
      case Open(fd, _) => a == Done && s' == s.(handles := s.handles[fd := Handle(p, s.cells[p].file.size)])
      case OpenEmpty(fd, _, luck) =>
        && a == Done && Recut(s.cells[p], 0, luck).Some?
        && s' == Disk(s.cells[p := Recut(s.cells[p], 0, luck).value], s.handles[fd := Handle(p, 0)])
      case Close(fd) => a == Done && s' == s.(handles := s.handles - {fd})
      case Read(fd, off, len, luck) => a.Data? && ReadStep(s, p, s.handles[fd].size, off, len, luck, s', a.buf)
      case Write(fd, off, buf, luck) => WriteStep(s, fd, off, buf, luck, s', a)
      case Truncate(fd, size, luck) => TruncateStep(s, fd, size, luck, s', a)
      case Flush(_, copies) => a == Done && s' == s.(cells := s.cells[p := Cleaned(s.cells[p], copies)])
      case Evict(_, copies) => a == Done && s' == s.(cells := s.cells[p := Evicted(s.cells[p], copies)])
  }

  // ---- as if there was no cache

  // Every entry is its file, and every handle knows the size of its file.
  ghost predicate InStep(s: Disk) {
    && (forall p :: p in s.cells ==> Coherent(s.cells[p]) && |s.cells[p].file.data| <= MAX_FILE)
    && (forall d :: d in s.handles ==>
          s.handles[d].path in s.cells && s.handles[d].size == s.cells[s.handles[d].path].file.size)
  }

  // What a file system without a cache would do to the contents, and answer
  ghost predicate Plain(s: Disk, op: Op, a: Answer, s': Disk)
    requires Sound(s) && Sound(s')
  {
    && s'.cells.Keys == s.cells.Keys
    && (forall q :: q in s.cells && Some(q) != Target(s, op) ==> Held(s', q) == Held(s, q))
    && (Target(s, op).Some? && Target(s, op).value in s.cells ==>
          var v, v' := Held(s, Target(s, op).value), Held(s', Target(s, op).value);
          match op
          case OpenEmpty(_, _, _) => v' == []
          case Read(_, off, len, _) => v' == v && a == Data(Slice(v, off, len))
          case Write(_, off, buf, _) => if a.Refused? || buf == [] then v' == v else Written(v, v', off, buf)
          case Truncate(_, size, _) => v' == if a.Refused? then v else Truncated(v, size)
          case _ => v' == v)
  }

  // No other handle is on the file.
  predicate Sole(s: Disk, fd: Fd, p: Path) {
    forall d :: d in s.handles && d != fd ==> s.handles[d].path != p
  }

  // A change of the size is seen by its own handle and by no flush.
  predicate Lonely(s: Disk, fd: Fd, p: Path, copies: bool)
    requires p in s.cells
  {
    Sole(s, fd, p) && !(s.cells[p].view.Some? && s.cells[p].view.value.dirty && copies)
  }

  // What a caller can check before the operation: it does not change the size of a
  // file that has another handle, or a dirty entry that can be flushed.
  ghost predicate Harmless(s: Disk, op: Op)
    requires Sound(s)
  {
    Target(s, op).Some? && Target(s, op).value in s.cells ==>
      var p := Target(s, op).value;
      var c := s.cells[p];
      match op
      case OpenEmpty(fd, _, luck) => c.file.size > 0 ==> Lonely(s, fd, p, luck.copies)
      case Write(fd, off, buf, luck) =>
        buf != [] && Granted(c, off, buf, luck) && off + |buf| > c.file.size ==> Lonely(s, fd, p, luck.copies)
      case Truncate(fd, size, luck) =>
        Cut(c.file, size, luck).Some? && size != c.file.size ==> Lonely(s, fd, p, luck.copies)
      case _ => true
  }

  // ---- which operations are

  // Entries may have come, gone or become clean; the files are the same.
  lemma SameFiles(s: Disk, s': Disk)
    requires InStep(s) && s'.cells.Keys == s.cells.Keys && s'.handles == s.handles
    requires forall q :: q in s.cells ==> Coherent(s'.cells[q]) && s'.cells[q].file == s.cells[q].file
    ensures InStep(s') && Sound(s') && forall q :: q in s.cells ==> Held(s', q) == Held(s, q)
  {
  }

  lemma ReadGood(s: Disk, fd: Fd, off: nat, len: nat, luck: Luck, s': Disk, buf: Buf)
    requires InStep(s) && Sound(s) && fd in s.handles
    requires ReadStep(s, s.handles[fd].path, s.handles[fd].size, off, len, luck, s', buf)
    ensures InStep(s') && Sound(s') && Plain(s, Read(fd, off, len, luck), Data(buf), s')
  {
    var p, b := s.handles[fd].path, s.handles[fd].size;
    if s.cells[p].view.None? && s'.cells[p].view.Some? {
      FillIsCoherentIff(s'.cells[p].view.value, s.cells[p].file, b);
    }
    ReadIsRightIff(s'.cells[p], b, off, len, luck.copies);
    forall q | q in s.cells ensures Coherent(s'.cells[q]) && s'.cells[q].file == s.cells[q].file {
      if q != p && s'.cells[q] != s.cells[q] {
        FlushedCell(s.cells[q], luck.copies);
      }
    }
    SameFiles(s, s');
  }

  lemma CleanGood(s: Disk, op: Op, a: Answer, s': Disk)
    requires InStep(s) && Sound(s) && (op.Flush? || op.Evict?) && Step(s, op, a, s')
    requires Target(s, op).Some? && Target(s, op).value in s.cells
    ensures InStep(s') && Sound(s') && Plain(s, op, a, s')
  {
    FlushedCell(s.cells[Target(s, op).value], op.copies);
    SameFiles(s, s');
  }

  // The file and the handle of the operation, and the other handles on the file
  lemma ResizeGoodIff(s: Disk, fd: Fd, p: Path, c: Cell, b: nat, s': Disk)
    requires InStep(s) && p in s.cells && Coherent(c) && |c.file.data| <= MAX_FILE
    requires s' == Disk(s.cells[p := c], s.handles[fd := Handle(p, b)])
    ensures InStep(s') <==> b == c.file.size && (c.file.size == s.cells[p].file.size || Sole(s, fd, p))
  {
    if b == c.file.size && (c.file.size == s.cells[p].file.size || Sole(s, fd, p)) {
      forall d | d in s'.handles
        ensures s'.handles[d].path in s'.cells && s'.handles[d].size == s'.cells[s'.handles[d].path].file.size
      {
      }
    } else if b != c.file.size {
      assert fd in s'.handles;
    } else {
      var d :| d in s.handles && d != fd && s.handles[d].path == p;
      assert d in s'.handles && s'.handles[d] == s.handles[d];
    }
  }

  lemma WriteGoodIff(s: Disk, fd: Fd, off: nat, buf: Buf, luck: Luck, s': Disk, a: Answer)
    requires InStep(s) && Sound(s) && Sound(s') && fd in s.handles && WriteStep(s, fd, off, buf, luck, s', a)
    ensures InStep(s') && Plain(s, Write(fd, off, buf, luck), a, s') <==> Harmless(s, Write(fd, off, buf, luck))
  {
    var c := s.cells[s.handles[fd].path];
    if buf == [] {
      assert s' == s;
    } else {
      WroteIs(c, c.file.size, off, buf, luck);
      if Granted(c, off, buf, luck) {
        GrantedGoodIff(s, fd, off, buf, luck, s');
      }
    }
  }

  lemma GrantedGoodIff(s: Disk, fd: Fd, off: nat, buf: Buf, luck: Luck, s': Disk)
    requires InStep(s) && Sound(s) && Sound(s') && fd in s.handles && buf != []
    requires var c := s.cells[s.handles[fd].path];
             && Granted(c, off, buf, luck) && Wrote(c, c.file.size, off, buf, luck).Some?
             && WriteStep(s, fd, off, buf, luck, s', Count(|buf|))
    ensures InStep(s') && Plain(s, Write(fd, off, buf, luck), Count(|buf|), s') <==>
            Harmless(s, Write(fd, off, buf, luck))
  {
    var p := s.handles[fd].path;
    var c := s.cells[p];
    var (c', b') := Wrote(c, c.file.size, off, buf, luck).value;
    InStepWriteIff(c, off, buf, luck);
    WroteSound(c, c.file.size, off, buf, luck);
    ResizeGoodIff(s, fd, p, c', b', s');
  }

  lemma CutIs(c: Cell, size: nat, luck: Luck)
    requires Coherent(c) && |c.file.data| <= MAX_FILE && Recut(c, size, luck).Some?
    ensures var c', d := Recut(c, size, luck).value, c.view.Some? && c.view.value.dirty && luck.copies;
            && Coherent(c') && |c'.file.data| <= MAX_FILE && c'.file.size == (if d then c.file.size else size)
            && (Content(c'.file) == Truncated(Content(c.file), size) <==> !d || size == c.file.size)
  {
    RecutIff(c, size, luck);
    assert |Truncated(Content(c.file), size)| == size;
  }

  lemma TruncateGoodIff(s: Disk, fd: Fd, size: nat, luck: Luck, s': Disk, a: Answer)
    requires InStep(s) && Sound(s) && Sound(s') && fd in s.handles && TruncateStep(s, fd, size, luck, s', a)
    ensures InStep(s') && Plain(s, Truncate(fd, size, luck), a, s') <==> Harmless(s, Truncate(fd, size, luck))
  {
    var p := s.handles[fd].path;
    if Recut(s.cells[p], size, luck).Some? {
      var c' := Recut(s.cells[p], size, luck).value;
      CutIs(s.cells[p], size, luck);
      ResizeGoodIff(s, fd, p, c', c'.file.size, s');
    }
  }

  lemma OpenEmptyGoodIff(s: Disk, fd: Fd, p: Path, luck: Luck, s': Disk, a: Answer)
    requires InStep(s) && Sound(s) && Sound(s') && p in s.cells && Step(s, OpenEmpty(fd, p, luck), a, s')
    ensures InStep(s') && Plain(s, OpenEmpty(fd, p, luck), a, s') <==> Harmless(s, OpenEmpty(fd, p, luck))
  {
    var c' := Recut(s.cells[p], 0, luck).value;
    CutIs(s.cells[p], 0, luck);
    ResizeGoodIff(s, fd, p, c', 0, s');
    assert Content(c'.file) == [] <==> c'.file.size == 0;
  }

  // Buffers never shrink, so sizes stay within them.
  lemma StepSound(s: Disk, op: Op, a: Answer, s': Disk)
    requires Sound(s) && Step(s, op, a, s')
    ensures Sound(s')
  {
    if Target(s, op).Some? && Target(s, op).value in s.cells {
      var c := s.cells[Target(s, op).value];
      match op {
        case OpenEmpty(_, _, luck) => RecutIff(c, 0, luck);
        case Read(_, _, _, luck) => EvictsSound(s, luck.copies);
        case Write(fd, off, buf, luck) => WroteSound(c, s.handles[fd].size, off, buf, luck);
        case Truncate(_, size, luck) =>
          if Recut(c, size, luck).Some? {
            RecutIff(c, size, luck);
          }
        case Flush(_, copies) => FlushedCell(c, copies);
        case Evict(_, copies) => FlushedCell(c, copies);
        case _ =>
      }
    }
  }

  lemma EvictsSound(s: Disk, copies: bool)
    requires Sound(s)
    ensures forall q :: q in s.cells ==>
              && Sane(Evicted(s.cells[q], copies))
              && |Evicted(s.cells[q], copies).file.data| == |s.cells[q].file.data|
  {
    forall q | q in s.cells
      ensures Sane(Evicted(s.cells[q], copies))
              && |Evicted(s.cells[q], copies).file.data| == |s.cells[q].file.data|
    {
      FlushedCell(s.cells[q], copies);
    }
  }

  lemma WroteSound(c: Cell, b: nat, off: nat, buf: Buf, luck: Luck)
    requires Sane(c) && |c.file.data| <= MAX_FILE
    ensures Wrote(c, b, off, buf, luck).Some? ==>
              var (c', b') := Wrote(c, b, off, buf, luck).value;
              Sane(c') && |c.file.data| <= |c'.file.data| <= MAX_FILE && b' <= |c'.file.data|
  {
    if buf != [] {
      WroteIs(c, b, off, buf, luck);
    } else if c.view.Some? {
      FlushIsIdentityIff(c.view.value, c.file);
    }
  }

  lemma HandleGood(s: Disk, op: Op, a: Answer, s': Disk)
    requires InStep(s) && Sound(s) && (op.Open? || op.Close?) && Step(s, op, a, s')
    ensures InStep(s') && Sound(s') && Plain(s, op, a, s')
  {
  }

  // From a state in step, an operation does and answers what it would without a cache,
  // and leaves a state in step, exactly if it is harmless.
  lemma StepGoodIff(s: Disk, op: Op, a: Answer, s': Disk)
    requires InStep(s) && Sound(s) && Step(s, op, a, s')
    ensures Sound(s') && (InStep(s') && Plain(s, op, a, s') <==> Harmless(s, op))
  {
    StepSound(s, op, a, s');
    if Target(s, op).Some? && Target(s, op).value in s.cells {
      match op {
        case OpenEmpty(fd, p, luck) => OpenEmptyGoodIff(s, fd, p, luck, s', a);
        case Read(fd, off, len, luck) => ReadGood(s, fd, off, len, luck, s', a.buf);
        case Write(fd, off, buf, luck) => WriteGoodIff(s, fd, off, buf, luck, s', a);
        case Truncate(fd, size, luck) => TruncateGoodIff(s, fd, size, luck, s', a);
        case Flush(_, _) => CleanGood(s, op, a, s');
        case Evict(_, _) => CleanGood(s, op, a, s');
        case _ => HandleGood(s, op, a, s');
      }
    }
  }

  // ---- runs

  ghost predicate Follows(s: Disk, op: Op, a: Answer, s': Disk) { Sound(s) && Sound(s') && Step(s, op, a, s') }

  // The operation was as without a cache.
  ghost predicate Unseen(s: Disk, op: Op, a: Answer, s': Disk) {
    Sound(s) && Sound(s') && InStep(s') && Plain(s, op, a, s')
  }

  ghost predicate Safe(s: Disk, op: Op) { Sound(s) && Harmless(s, op) }

  ghost predicate IsRun(states: seq<Disk>, ops: seq<Op>, answers: seq<Answer>) {
    && |states| == |ops| + 1 && |answers| == |ops| && Sound(states[0])
    && forall i :: 0 <= i < |ops| ==> Follows(states[i], ops[i], answers[i], states[i + 1])
  }

  ghost predicate SafeUpTo(states: seq<Disk>, ops: seq<Op>, n: nat)
    requires n <= |ops| <= |states|
  {
    forall i :: 0 <= i < n ==> Safe(states[i], ops[i])
  }

  ghost predicate UnseenUpTo(states: seq<Disk>, ops: seq<Op>, answers: seq<Answer>, n: nat)
    requires |states| == |ops| + 1 && |answers| == |ops| && n <= |ops|
  {
    forall i :: 0 <= i < n ==> Unseen(states[i], ops[i], answers[i], states[i + 1])
  }

  lemma FollowsGoodIff(s: Disk, op: Op, a: Answer, s': Disk)
    requires InStep(s) && Follows(s, op, a, s')
    ensures Unseen(s, op, a, s') <==> Safe(s, op)
    ensures Unseen(s, op, a, s') ==> InStep(s')
  {
    StepGoodIff(s, op, a, s');
  }

  // Up to any point, a run is as if there was no cache exactly if every operation
  // before that point was harmless when it came.  So the first that is not is the
  // first that shows.
  lemma {:induction false} RunIsPlainIff(states: seq<Disk>, ops: seq<Op>, answers: seq<Answer>, n: nat)
    requires IsRun(states, ops, answers) && InStep(states[0]) && n <= |ops|
    ensures UnseenUpTo(states, ops, answers, n) <==> SafeUpTo(states, ops, n)
    ensures UnseenUpTo(states, ops, answers, n) ==> InStep(states[n])
  {
    if n > 0 {
      RunIsPlainIff(states, ops, answers, n - 1);
      assert Follows(states[n - 1], ops[n - 1], answers[n - 1], states[n - 1 + 1]);
      if InStep(states[n - 1]) {
        FollowsGoodIff(states[n - 1], ops[n - 1], answers[n - 1], states[n]);
      }
    }
  }

  // A read, an overwrite, a flush, an eviction, an open or a close
  ghost predicate KeepsSizes(s: Disk, op: Op) {
    match op
    case OpenEmpty(_, _, _) => false
    case Truncate(_, _, _) => false
    case Write(fd, off, buf, _) =>
      fd in s.handles && s.handles[fd].path in s.cells ==> off + |buf| <= s.cells[s.handles[fd].path].file.size
    case _ => true
  }

  // Any number of these, through any handles, keep every entry equal to its file, so
  // that every read gives what the file holds.
  lemma CacheIsTransparent(states: seq<Disk>, ops: seq<Op>, answers: seq<Answer>, i: nat)
    requires IsRun(states, ops, answers) && InStep(states[0]) && i < |ops|
    requires forall k :: 0 <= k < |ops| ==> KeepsSizes(states[k], ops[k])
    ensures InStep(states[i]) && Unseen(states[i], ops[i], answers[i], states[i + 1])
    ensures ops[i].Read? && ops[i].fd in states[i].handles ==>
              var p := states[i].handles[ops[i].fd].path;
              && p in states[i].cells && RamOk(states[i].cells[p].file)
              && answers[i] == Data(Slice(Held(states[i], p), ops[i].off, ops[i].len))
  {
    forall k | 0 <= k < |ops| ensures Safe(states[k], ops[k]) {
      assert Follows(states[k], ops[k], answers[k], states[k + 1]) && KeepsSizes(states[k], ops[k]);
    }
    RunIsPlainIff(states, ops, answers, i);
    RunIsPlainIff(states, ops, answers, i + 1);
    assert Unseen(states[i], ops[i], answers[i], states[i + 1]);
  }

  // ---- the store as it runs

  ghost function Abs(store: Store): Disk reads store {
    Disk(map p | p in store.files :: store.CellAt(p), store.handles)
  }

  lemma AbsSound(store: Store)
    requires store.Valid()
    ensures Sound(Abs(store))
  {
  }

  method DoRead(store: Store, fd: Fd, off: nat, len: nat, luck: Luck) returns (a: Answer)
    requires store.Valid()
    modifies store
    ensures store.Valid() && Follows(old(Abs(store)), Read(fd, off, len, luck), a, Abs(store))
  {
    if fd !in store.handles {
      return Refused;
    }
    var buf := store.Read(fd, off, len, luck);
    a := Data(buf);
  }

  // Only the file p and the handle fd have changed.
  ghost predicate OnlyThese(s: Disk, s': Disk, fd: Fd, p: Path) {
    && p in s.cells && s'.cells.Keys == s.cells.Keys && fd in s'.handles && s'.handles.Keys == s.handles.Keys + {fd}
    && (forall q :: q in s.cells && q != p ==> s'.cells[q] == s.cells[q])
    && (forall d :: d in s.handles && d != fd ==> s'.handles[d] == s.handles[d])
  }

  lemma OnlyTheseIs(s: Disk, s': Disk, fd: Fd, p: Path)
    requires OnlyThese(s, s', fd, p)
    ensures s' == Disk(s.cells[p := s'.cells[p]], s.handles[fd := s'.handles[fd]])
  {
  }

  lemma WriteFollows(s: Disk, fd: Fd, off: nat, buf: Buf, luck: Luck, s': Disk, a: Answer)
    requires Sound(s) && Sound(s') && fd in s.handles && OnlyThese(s, s', fd, s.handles[fd].path)
    requires var p, b := s.handles[fd].path, s.handles[fd].size;
             var r := Wrote(s.cells[p], b, off, buf, luck);
             && a == (if r.Some? then Count(|buf|) else Refused)
             && s'.cells[p] == (if r.Some? then r.value.0 else s.cells[p])
             && s'.handles[fd] == Handle(p, if r.Some? then r.value.1 else b)
    ensures Follows(s, Write(fd, off, buf, luck), a, s')
  {
    OnlyTheseIs(s, s', fd, s.handles[fd].path);
    assert s.cells[s.handles[fd].path := s.cells[s.handles[fd].path]] == s.cells;
    assert s.handles[fd := s.handles[fd]] == s.handles;
  }

  method DoWrite(store: Store, fd: Fd, off: nat, buf: Buf, luck: Luck) returns (a: Answer)
    requires store.Valid()
    modifies store
    ensures store.Valid() && Follows(old(Abs(store)), Write(fd, off, buf, luck), a, Abs(store))
  {
    if fd !in store.handles {
      return Refused;
    }
    ghost var s, p := Abs(store), store.handles[fd].path;
    var ret := store.Write(fd, off, buf, luck);
    a := if ret.Some? then Count(ret.value) else Refused;
    AbsSound(store);
    assert OnlyThese(s, Abs(store), fd, p);
    WriteFollows(s, fd, off, buf, luck, Abs(store), a);
  }

  lemma TruncateFollows(s: Disk, fd: Fd, size: nat, luck: Luck, s': Disk, a: Answer)
    requires Sound(s) && Sound(s') && fd in s.handles && OnlyThese(s, s', fd, s.handles[fd].path)
    requires var p := s.handles[fd].path;
             var r := Recut(s.cells[p], size, luck);
             && a == (if r.Some? then Done else Refused)
             && s'.cells[p] == (if r.Some? then r.value else s.cells[p])
             && s'.handles[fd] == Handle(p, if r.Some? then r.value.file.size else s.handles[fd].size)
    ensures Follows(s, Truncate(fd, size, luck), a, s')
  {
    OnlyTheseIs(s, s', fd, s.handles[fd].path);
    assert s.cells[s.handles[fd].path := s.cells[s.handles[fd].path]] == s.cells;
    assert s.handles[fd := s.handles[fd]] == s.handles;
  }

  method DoTruncate(store: Store, fd: Fd, size: nat, luck: Luck) returns (a: Answer)
    requires store.Valid()
    modifies store
    ensures store.Valid() && Follows(old(Abs(store)), Truncate(fd, size, luck), a, Abs(store))
  {
    if fd !in store.handles {
      return Refused;
    }
    ghost var s, p := Abs(store), store.handles[fd].path;
    var ok := store.Truncate(fd, size, luck);
    a := if ok then Done else Refused;
    AbsSound(store);
    assert OnlyThese(s, Abs(store), fd, p);
    TruncateFollows(s, fd, size, luck, Abs(store), a);
  }

  method DoOpen(store: Store, fd: Fd, p: Path) returns (a: Answer)
    requires store.Valid()
    modifies store
    ensures store.Valid() && Follows(old(Abs(store)), Open(fd, p), a, Abs(store))
  {
    if p !in store.files {
      return Refused;
    }
    store.Open(fd, p);
    a := Done;
  }

  method DoOpenEmpty(store: Store, fd: Fd, p: Path, luck: Luck) returns (a: Answer)
    requires store.Valid()
    modifies store
    ensures store.Valid() && Follows(old(Abs(store)), OpenEmpty(fd, p, luck), a, Abs(store))
  {
    if p !in store.files {
      return Refused;
    }
    ghost var s := Abs(store);
    store.OpenEmpty(fd, p, luck);
    a := Done;
    AbsSound(store);
    assert OnlyThese(s, Abs(store), fd, p);
    OnlyTheseIs(s, Abs(store), fd, p);
  }

  method DoClose(store: Store, fd: Fd) returns (a: Answer)
    requires store.Valid()
    modifies store
    ensures store.Valid() && Follows(old(Abs(store)), Close(fd), a, Abs(store))
  {
    if fd !in store.handles {
      return Refused;
    }
    store.Close(fd);
    a := Done;
  }

  method DoFlush(store: Store, fd: Fd, copies: bool) returns (a: Answer)
    requires store.Valid()
    modifies store
    ensures store.Valid() && Follows(old(Abs(store)), Flush(fd, copies), a, Abs(store))
  {
    if fd !in store.handles {
      return Refused;
    }
    ghost var s, p := Abs(store), store.handles[fd].path;
    store.Flush(fd, copies);
    a := Done;
    AbsSound(store);
    assert Abs(store).cells == s.cells[p := Cleaned(s.cells[p], copies)];
  }

  method DoEvict(store: Store, victim: Path, copies: bool) returns (a: Answer)
    requires store.Valid()
    modifies store
    ensures store.Valid() && Follows(old(Abs(store)), Evict(victim, copies), a, Abs(store))
  {
    if victim !in store.files {
      return Refused;
    }
    ghost var s := Abs(store);
    store.Evict(victim, copies);
    a := Done;
    AbsSound(store);
    assert Abs(store).cells == s.cells[victim := Evicted(s.cells[victim], copies)];
  }

  method Do(store: Store, op: Op) returns (a: Answer)
    requires store.Valid()
    modifies store
    ensures store.Valid() && Follows(old(Abs(store)), op, a, Abs(store))
  {
    match op {
      case Open(fd, p) => a := DoOpen(store, fd, p);
      case OpenEmpty(fd, p, luck) => a := DoOpenEmpty(store, fd, p, luck);
      case Close(fd) => a := DoClose(store, fd);
      case Read(fd, off, len, luck) => a := DoRead(store, fd, off, len, luck);
      case Write(fd, off, buf, luck) => a := DoWrite(store, fd, off, buf, luck);
      case Truncate(fd, size, luck) => a := DoTruncate(store, fd, size, luck);
      case Flush(fd, copies) => a := DoFlush(store, fd, copies);
      case Evict(victim, copies) => a := DoEvict(store, victim, copies);
    }
  }

  lemma RunMore(states: seq<Disk>, ops: seq<Op>, answers: seq<Answer>, op: Op, a: Answer, s: Disk)
    requires IsRun(states, ops, answers) && Follows(states[|ops|], op, a, s)
    ensures IsRun(states + [s], ops + [op], answers + [a])
  {
  }

  // Any operations on any store: the answers are those of a run, and on a store in
  // step they are those of files without a cache up to the first operation that is
  // not harmless.
  method Serve(store: Store, ops: seq<Op>) returns (answers: seq<Answer>, ghost states: seq<Disk>)
    requires store.Valid()
    modifies store
    ensures store.Valid() && IsRun(states, ops, answers)
    ensures states[0] == old(Abs(store)) && states[|ops|] == Abs(store)
    ensures InStep(old(Abs(store))) ==>
              forall n :: 0 <= n <= |ops| ==>
                (UnseenUpTo(states, ops, answers, n) <==> SafeUpTo(states, ops, n))
  {
    AbsSound(store);
    answers, states := [], [Abs(store)];
    var i := 0;
    while i < |ops|
      invariant i <= |ops| && store.Valid() && IsRun(states, ops[..i], answers)
      invariant states[0] == old(Abs(store)) && states[i] == Abs(store)
    {
      var a := Do(store, ops[i]);
      RunMore(states, ops[..i], answers, ops[i], a, Abs(store));
      assert ops[..i] + [ops[i]] == ops[..i + 1];
      answers, states := answers + [a], states + [Abs(store)];
      i := i + 1;
    }
    assert ops[..i] == ops;
    if InStep(states[0]) {
      forall n | 0 <= n <= |ops| ensures UnseenUpTo(states, ops, answers, n) <==> SafeUpTo(states, ops, n) {
        RunIsPlainIff(states, ops, answers, n);
      }
    }
  }

  // A new store is in step, whatever its files.
  method NewStore(files: map<Path, Ram>) returns (store: Store)
    requires forall p :: p in files ==> RamOk(files[p]) && |files[p].data| <= MAX_FILE
    ensures fresh(store) && store.Valid() && InStep(Abs(store))
  {
    store := new Store(files);
  }
}
