/**
 linux_exec_build_initial_stack: the stores, stage by stage, and what a program
 that starts at the returned stack pointer reads.
 */
module ExecBuild {
  import opened Wrappers
  import opened Bytes
  import opened UserMemory
  import opened ExecStack

  // Every store so far lies at lo or above.
  ghost predicate Above(log: seq<Chunk>, lo: int) {
    forall i :: 0 <= i < |log| ==> lo <= log[i].lo
  }

  lemma LoggedAbove(log: seq<Chunk>, lo: int, cur: int, above: int)
    requires Logged(log, lo, cur, above) && lo <= above
    ensures Above(log, lo)
  {
  }

  lemma AboveLogged(log: seq<Chunk>, lo: int, a: int)
    requires Above(log, lo)
    ensures Logged(log, a, a, lo)
  {
  }

  // Words stored right below others
  lemma Prepend(m: Memory, m': Memory, a: int, ws: seq<nat>, vs: seq<nat>)
    requires HasWords(m, a + 8 * |ws|, vs) && HasWords(m', a, ws) && Within(m, m', a, a + 8 * |ws|)
    ensures HasWords(m', a, ws + vs)
  {
    HasWordsKept(m, m', a, a + 8 * |ws|, a + 8 * |ws|, vs);
    HasWordsJoin(m', a, ws, vs);
  }

  lemma Widen(m: Memory, m': Memory, m'': Memory, lo: int, hi: int, lo': int, hi': int, l: int, h: int)
    requires Within(m, m', lo, hi) && Within(m', m'', lo', hi') && l <= lo && l <= lo' && hi <= h && hi' <= h
    ensures Within(m, m'', l, h)
  {
  }

  // ---- strings

  lemma SizeStep(ss: seq<seq<Byte>>, i: nat)
    requires i < |ss|
    ensures Size(ss[..i + 1]) == Size(ss[..i]) + |ss[i]| + 1
  {
    assert ss[..i + 1][..i] == ss[..i];
  }

  lemma {:induction false} SizeBound(ss: seq<seq<Byte>>, i: nat)
    requires i <= |ss|
    ensures Size(ss[..i]) <= Size(ss)
    decreases |ss| - i
  {
    if i < |ss| {
      SizeStep(ss, i);
      SizeBound(ss, i + 1);
    } else {
      assert ss[..i] == ss;
    }
  }

  ghost predicate StringsDone(m: Memory, log: seq<Chunk>, base: int, done: seq<seq<Byte>>, top: int) {
    && HasStrings(m, base, done) && NoOverlap(log) && Logged(log, base, base + Size(done), top)
  }

  // A string that was there before stays.
  lemma {:induction false} StringKept(m: Memory, m': Memory, base: int, done: seq<seq<Byte>>, i: nat, hi: int)
    requires HasStrings(m, base, done) && i < |done| && Within(m, m', base + Size(done), hi)
    ensures HasString(m', base + Size(done[..i]), done[i])
  {
    SizeStep(done, i);
    SizeBound(done, i + 1);
    var a, bytes := base + Size(done[..i]), done[i] + [0];
    assert HasStringAt(m, base, done, i);
    HasKept(m, m', base + Size(done), hi, a, bytes);
  }

  lemma {:induction false} StringsMore(m: Memory, m': Memory, base: int, done: seq<seq<Byte>>, s: seq<Byte>, hi: int)
    requires HasStrings(m, base, done) && Within(m, m', base + Size(done), hi) && HasString(m', base + Size(done), s)
    ensures HasStrings(m', base, done + [s])
  {
    var all := done + [s];
    forall i | 0 <= i < |all| ensures HasStringAt(m', base, all, i) {
      if i < |done| {
        assert all[..i] == done[..i];
        StringKept(m, m', base, done, i, hi);
      } else {
        assert all[..i] == done;
      }
    }
  }

  lemma {:induction false} StringsKept(m: Memory, m': Memory, base: int, ss: seq<seq<Byte>>, lo: int, hi: int)
    requires HasStrings(m, base, ss) && Within(m, m', lo, hi) && hi <= base
    ensures HasStrings(m', base, ss)
  {
    forall i | 0 <= i < |ss| ensures HasStringAt(m', base, ss, i) {
      assert HasStringAt(m, base, ss, i);
      HasKept(m, m', lo, hi, base + Size(ss[..i]), ss[i] + [0]);
    }
  }

  method StoreString(vs: Space, base: int, va: int, ghost done: seq<seq<Byte>>, s: seq<Byte>, ghost top: int)
      returns (ok: bool)
    requires StringsDone(vs.mem, vs.log, base, done, top) && va == base + Size(done) && va + |s| + 1 <= top
    modifies vs
    ensures ok ==> va >= 0 && StringsDone(vs.mem, vs.log, base, done + [s], top)
    ensures ok ==> Within(old(vs.mem), vs.mem, va, va + |s| + 1)
    ensures vs.Willing() && va >= 0 ==> ok
  {
    ok := vs.Store(va, s + [0]);
    if ok {
      StringsMore(old(vs.mem), vs.mem, base, done, s, va + |s| + 1);
      LogMore(old(vs.log), base, va, top, va + |s| + 1);
      assert (done + [s])[..|done|] == done;
    }
  }

  // Strings stored so far, all in [base, top)
  ghost predicate Progress(m: Memory, m': Memory, log: seq<Chunk>, base: int, done: seq<seq<Byte>>, top: int) {
    && StringsDone(m', log, base, done, top) && Within(m, m', base, top)
    && (done != [] ==> base >= 0)
  }

  method StoreNext(vs: Space, ghost m: Memory, base: int, va: int, ghost done: seq<seq<Byte>>, s: seq<Byte>,
      ghost top: int) returns (ok: bool)
    requires Progress(m, vs.mem, vs.log, base, done, top) && va == base + Size(done) && va + |s| + 1 <= top
    modifies vs
    ensures ok ==> Progress(m, vs.mem, vs.log, base, done + [s], top)
    ensures vs.Willing() && va >= 0 ==> ok
  {
    ok := StoreString(vs, base, va, done, s, top);
    if ok {
      Widen(m, old(vs.mem), vs.mem, base, top, va, va + |s| + 1, base, top);
    }
  }

  // The argument strings
  method StoreArguments(vs: Space, base: int, argv: seq<seq<Byte>>, ghost top: int) returns (ok: bool, va: int)
    requires vs.log == [] && base + Size(argv) <= top
    modifies vs
    ensures ok ==> Progress(old(vs.mem), vs.mem, vs.log, base, argv, top) && va == base + Size(argv)
    ensures vs.Willing() && base >= 0 ==> ok
  {
    va := base;
    var i := 0;
    ghost var m, done := vs.mem, [];
    while i < |argv|
      invariant i <= |argv| && done == argv[..i] && va == base + Size(done)
      invariant Progress(m, vs.mem, vs.log, base, done, top)
    {
      SizeStep(argv, i);
      SizeBound(argv, i + 1);
      assert argv[..i + 1] == done + [argv[i]];
      ok := StoreNext(vs, m, base, va, done, argv[i], top);
      if !ok {
        return;
      }
      va, done, i := va + |argv[i]| + 1, done + [argv[i]], i + 1;
    }
    assert argv[..i] == argv;
    ok := true;
  }

  // The argument strings, then the name of the executable
  method StoreStrings(vs: Space, base: int, argv: seq<seq<Byte>>, execfn: Option<seq<Byte>>, ghost top: int)
      returns (ok: bool, execfnVa: int)
    requires vs.log == [] && base + Size(Strings(argv, execfn)) <= top
    modifies vs
    ensures ok ==> Progress(old(vs.mem), vs.mem, vs.log, base, Strings(argv, execfn), top)
    ensures ok ==> execfnVa == if execfn.Some? then base + Size(argv) else 0
    ensures vs.Willing() && base >= 0 ==> ok
  {
    ghost var all, m := Strings(argv, execfn), vs.mem;
    SizeBound(all, |argv|);
    assert all[..|argv|] == argv;
    var va;
    ok, va := StoreArguments(vs, base, argv, top);
    execfnVa := 0;
    if ok && execfn.Some? {
      execfnVa := va;
      SizeStep(all, |argv|);
      assert all[..|argv| + 1] == all == argv + [execfn.value];
      ok := StoreNext(vs, m, base, va, argv, execfn.value, top);
    } else {
      assert execfn.None? ==> all == argv;
    }
  }

  // ---- the vector

  // m' holds ws at a, where m held nothing of interest
  ghost predicate Stored(m: Memory, m': Memory, log: seq<Chunk>, a: int, ws: seq<nat>, above: int) {
    && HasWords(m', a, ws) && Within(m, m', a, a + 8 * |ws|)
    && NoOverlap(log) && Logged(log, a, a + 8 * |ws|, above)
  }

  method AppendWord(vs: Space, ghost m: Memory, a: int, at: int, ghost ws: seq<nat>, w: nat, ghost above: int)
      returns (ok: bool)
    requires Stored(m, vs.mem, vs.log, a, ws, above) && at == a + 8 * |ws| && at + 8 <= above
    modifies vs
    ensures ok ==> at >= 0 && Stored(m, vs.mem, vs.log, a, ws + [w], above)
    ensures vs.Willing() && at >= 0 ==> ok
  {
    ok := vs.StoreWord(at, w);
    if ok {
      HasWordsKept(old(vs.mem), vs.mem, at, at + 8, a, ws);
      HasWordsJoin(vs.mem, a, ws, [w]);
      Widen(m, old(vs.mem), vs.mem, a, at, at, at + 8, a, at + 8);
      LogMore(old(vs.log), a, at, above, at + 8);
    }
  }

  method StorePairs(vs: Space, a: int, pairs: seq<Pair>, ghost above: int) returns (ok: bool)
    requires NoOverlap(vs.log) && Logged(vs.log, a, a, above) && a + 16 * |pairs| <= above
    modifies vs
    ensures ok ==> Stored(old(vs.mem), vs.mem, vs.log, a, PairWords(pairs), above)
    ensures vs.Willing() && a >= 0 ==> ok
  {
    var j := 0;
    ghost var m, ws := vs.mem, [];
    while j < |pairs|
      invariant j <= |pairs| && ws == PairWords(pairs[..j])
      invariant Stored(m, vs.mem, vs.log, a, ws, above)
    {
      assert pairs[..j + 1][..j] == pairs[..j];
      assert ws + [pairs[j].tag] + [pairs[j].val] == PairWords(pairs[..j + 1]);
      ok := AppendWord(vs, m, a, a + 16 * j, ws, pairs[j].tag, above);
      if !ok {
        return;
      }
      ok := AppendWord(vs, m, a, a + 16 * j + 8, ws + [pairs[j].tag], pairs[j].val, above);
      if !ok {
        return;
      }
      ws := ws + [pairs[j].tag] + [pairs[j].val];
      j := j + 1;
    }
    assert pairs[..j] == pairs;
    ok := true;
  }

  // The argv pointers and the NULL behind them
  method StorePointers(vs: Space, a: int, base: int, argv: seq<seq<Byte>>, ghost above: int) returns (ok: bool)
    requires NoOverlap(vs.log) && Logged(vs.log, a, a, above) && a + 8 * |argv| + 8 <= above && base >= 0
    modifies vs
    ensures ok ==> Stored(old(vs.mem), vs.mem, vs.log, a, Pointers(base, argv) + [0], above)
    ensures vs.Willing() && a >= 0 ==> ok
  {
    var i, va := 0, base;
    ghost var m, ws := vs.mem, [];
    while i < |argv|
      invariant i <= |argv| && va == base + Size(argv[..i]) && ws == Pointers(base, argv[..i])
      invariant Stored(m, vs.mem, vs.log, a, ws, above)
    {
      assert argv[..i + 1][..i] == argv[..i];
      ok := AppendWord(vs, m, a, a + 8 * i, ws, va, above);
      if !ok {
        return;
      }
      ws := ws + [va];
      va := va + |argv[i]| + 1;
      i := i + 1;
    }
    assert argv[..i] == argv;
    ok := AppendWord(vs, m, a, a + 8 * i, ws, 0, above);
  }

  // From the auxiliary vector down to argc
  method StoreVector(vs: Space, sp: int, base: int, argv: seq<seq<Byte>>, pairs: seq<Pair>, ghost above: int)
      returns (ok: bool)
    requires NoOverlap(vs.log) && Above(vs.log, above) && sp + 8 * |argv| + 24 + 16 * |pairs| <= above && base >= 0
    modifies vs
    ensures ok ==> HasWords(vs.mem, sp, Vector(base, argv, pairs))
    ensures ok ==> sp >= 0 && Within(old(vs.mem), vs.mem, sp, above) && NoOverlap(vs.log) && Above(vs.log, sp)
    ensures vs.Willing() && sp >= 0 ==> ok
  {
    ghost var m0 := vs.mem;
    var auxv := sp + 8 * |argv| + 24;
    AboveLogged(vs.log, above, auxv);
    ok := StorePairs(vs, auxv, pairs, above);
    if !ok {
      return;
    }
    LoggedAbove(vs.log, auxv, auxv + 16 * |pairs|, above);

    ghost var m1 := vs.mem;
    var envp := auxv - 8;
    ok := PushWord(vs, envp, 0, PairWords(pairs));
    if !ok {
      return;
    }

    ghost var m2 := vs.mem;
    var area := sp + 8;
    AboveLogged(vs.log, envp, area);
    ok := StorePointers(vs, area, base, argv, envp);
    if !ok {
      return;
    }
    LoggedAbove(vs.log, area, envp, envp);

    ghost var m3 := vs.mem;
    ghost var ptrs := Pointers(base, argv) + [0];
    Prepend(m2, m3, area, ptrs, [0] + PairWords(pairs));
    ok := PushWord(vs, sp, |argv|, ptrs + ([0] + PairWords(pairs)));
    if ok {
      Widen(m0, m1, m2, auxv, above, envp, auxv, sp, above);
      Widen(m0, m2, m3, sp, above, area, envp, sp, above);
      Widen(m0, m3, vs.mem, sp, above, sp, area, sp, above);
      assert [|argv|] + (ptrs + ([0] + PairWords(pairs))) == Vector(base, argv, pairs);
    }
  }

  // One word right below what is already stored
  method PushWord(vs: Space, at: int, w: nat, ghost ws: seq<nat>) returns (ok: bool)
    requires NoOverlap(vs.log) && Above(vs.log, at + 8) && HasWords(vs.mem, at + 8, ws)
    modifies vs
    ensures ok ==> at >= 0 && HasWords(vs.mem, at, [w] + ws) && Within(old(vs.mem), vs.mem, at, at + 8)
    ensures ok ==> NoOverlap(vs.log) && Above(vs.log, at)
    ensures vs.Willing() && at >= 0 ==> ok
  {
    ok := vs.StoreWord(at, w);
    if ok {
      Prepend(old(vs.mem), vs.mem, at, [w], ws);
      AboveLogged(old(vs.log), at + 8, at);
      LogMore(old(vs.log), at, at, at + 8, at + 8);
    }
  }

  // ---- the whole image

  // The upper half: strings and random bytes, all at sp or above
  ghost predicate Upper(m: Memory, sp: int, top: nat, argv: seq<seq<Byte>>, execfn: Option<seq<Byte>>, elf: Option<Elf>,
      random: seq<Byte>) {
    var base := StringsBase(top, argv, execfn);
    && 0 <= sp <= base
    && HasStrings(m, base, Strings(argv, execfn))
    && (elf.Some? ==> sp <= RandomVa(base) && Has(m, RandomVa(base), random))
  }

  lemma UpperKept(m: Memory, m': Memory, sp: int, sp': int, top: nat, argv: seq<seq<Byte>>, execfn: Option<seq<Byte>>,
      elf: Option<Elf>, random: seq<Byte>)
    requires Upper(m, sp, top, argv, execfn, elf, random) && Within(m, m', sp', sp) && 0 <= sp' <= sp
    ensures Upper(m', sp', top, argv, execfn, elf, random)
  {
    var base := StringsBase(top, argv, execfn);
    StringsKept(m, m', base, Strings(argv, execfn), sp', sp);
    if elf.Some? {
      HasKept(m, m', sp', sp, RandomVa(base), random);
    }
  }

  method StoreUpper(vs: Space, top: nat, argv: seq<seq<Byte>>, execfn: Option<seq<Byte>>, elf: Option<Elf>,
      random: seq<Byte>)
    returns (ok: bool, sp: int, base: int, randomVa: int, execfnVa: int)
    requires |random| == RANDOM_BYTES
    modifies vs
    ensures ok ==> base == StringsBase(top, argv, execfn) && Upper(vs.mem, sp, top, argv, execfn, elf, random)
    ensures ok ==> Within(old(vs.mem), vs.mem, sp, top) && NoOverlap(vs.log) && Above(vs.log, sp)
    ensures ok ==> randomVa == (if elf.Some? then RandomVa(base) else 0)
    ensures ok ==> execfnVa == (if execfn.Some? then base + Size(argv) else 0)
    ensures ok ==> sp == UpperEnd(top, argv, execfn, elf)
    ensures vs.Willing() && UpperEnd(top, argv, execfn, elf) >= 0 ==> ok
  {
    vs.log := [];
    base := AlignDown(top - Size(Strings(argv, execfn)));
    sp, randomVa := base, 0;
    ok, execfnVa := StoreStrings(vs, base, argv, execfn, top);
    if !ok {
      return false, 0, 0, 0, 0;
    }
    ghost var m := vs.mem;
    LoggedAbove(vs.log, base, base + Size(Strings(argv, execfn)), top);
    if elf.Some? {
      sp := AlignDown(sp - RANDOM_BYTES);
      randomVa := sp;
      AboveLogged(vs.log, base, sp);
      LogMore(vs.log, sp, sp, base, sp + 16);
      ok := vs.Store(randomVa, random);
      if ok {
        LoggedAbove(vs.log, sp, sp + 16, base);
        StringsKept(m, vs.mem, base, Strings(argv, execfn), sp, sp + 16);
        Widen(old(vs.mem), m, vs.mem, base, top, sp, sp + 16, sp, top);
      }
    }
  }

  // Where the strings and random bytes end, downwards
  function UpperEnd(top: nat, argv: seq<seq<Byte>>, execfn: Option<seq<Byte>>, elf: Option<Elf>): int {
    var base := StringsBase(top, argv, execfn);
    if elf.Some? then RandomVa(base) else base
  }

  function LowerEnd(arch: Arch, sp: int, argv: seq<seq<Byte>>, pairs: seq<Pair>): int {
    EntrySp(arch, sp - (16 * |pairs| + 8 + 8 * (|argv| + 1) + 8))
  }

  lemma LowerIsBelow(arch: Arch, sp: int, argv: seq<seq<Byte>>, pairs: seq<Pair>)
    ensures LowerEnd(arch, sp, argv, pairs) < sp
  {
  }

  // The vector, at the first address below sp that suits the architecture
  method StoreLower(vs: Space, arch: Arch, sp: int, base: int, argv: seq<seq<Byte>>, pairs: seq<Pair>)
      returns (ok: bool, entry: int)
    requires NoOverlap(vs.log) && Above(vs.log, sp) && base >= 0
    modifies vs
    ensures ok ==> 0 <= entry <= sp && entry % 16 == (if arch.X86_64? then 8 else 0)
    ensures ok ==> HasWords(vs.mem, entry, Vector(base, argv, pairs)) && Within(old(vs.mem), vs.mem, entry, sp)
    ensures ok ==> NoOverlap(vs.log)
    ensures entry == LowerEnd(arch, sp, argv, pairs)
    ensures vs.Willing() && entry >= 0 ==> ok
  {
    var total := 16 * |pairs| + 8 + 8 * (|argv| + 1) + 8;
    entry := EntrySp(arch, sp - total);
    ok := StoreVector(vs, entry, base, argv, pairs, sp);
  }

  // Everything a program finds at its start
  ghost predicate Image(m: Memory, sp: int, arch: Arch, top: nat, argv: seq<seq<Byte>>, execfn: Option<seq<Byte>>,
                        elf: Option<Elf>, random: seq<Byte>)
  {
    && Upper(m, sp, top, argv, execfn, elf, random) && sp % 16 == (if arch.X86_64? then 8 else 0)
    && HasWords(m, sp, Vector(StringsBase(top, argv, execfn), argv, Auxv(arch, top, argv, execfn, elf)))
  }

  function Auxv(arch: Arch, top: nat, argv: seq<seq<Byte>>, execfn: Option<seq<Byte>>, elf: Option<Elf>): seq<Pair> {
    var base := StringsBase(top, argv, execfn);
    AuxvFill(arch, elf, Nat(if elf.Some? then RandomVa(base) else 0),
        Nat(if execfn.Some? then base + Size(argv) else 0))
  }

  function Nat(x: int): nat { if x < 0 then 0 else x }

  // A negative argc and NULL pointers, which the call refuses, cannot be
  // written with these types.
  method BuildInitialStack(vs: Space, arch: Arch, top: nat, argv: seq<seq<Byte>>, execfn: Option<seq<Byte>>,
      elf: Option<Elf>,
                           random: seq<Byte>)
    returns (ok: bool, sp: int, argvUser: int)
    requires |random| == RANDOM_BYTES
    modifies vs
    ensures ok ==> Image(vs.mem, sp, arch, top, argv, execfn, elf, random)
    ensures ok ==> argvUser == sp + 8
    ensures ok ==> Within(old(vs.mem), vs.mem, sp, top)
    ensures ok ==> NoOverlap(vs.log)
    ensures ok ==> sp == LowerEnd(arch, UpperEnd(top, argv, execfn, elf), argv, Auxv(arch, top, argv, execfn, elf))
    ensures vs.Willing() ==>
              (ok <==> LowerEnd(arch, UpperEnd(top, argv, execfn, elf), argv, Auxv(arch, top, argv, execfn, elf)) >= 0)
  {
    var base, randomVa, execfnVa;
    LowerIsBelow(arch, UpperEnd(top, argv, execfn, elf), argv, Auxv(arch, top, argv, execfn, elf));
    ok, sp, base, randomVa, execfnVa := StoreUpper(vs, top, argv, execfn, elf, random);
    if !ok {
      return false, 0, 0;
    }
    var pairs := AuxvFill(arch, elf, Nat(randomVa), Nat(execfnVa));
    assert pairs == Auxv(arch, top, argv, execfn, elf);
    ghost var upper, m := sp, vs.mem;
    ok, sp := StoreLower(vs, arch, sp, base, argv, pairs);
    argvUser := sp + 8;
    if ok {
      UpperKept(m, vs.mem, upper, sp, top, argv, execfn, elf, random);
      Widen(old(vs.mem), m, vs.mem, upper, top, sp, upper, sp, top);
    }
  }

  // ---- what the program reads

  lemma WordOf(m: Memory, sp: int, ws: seq<nat>, i: nat, w: nat, a: int)
    requires HasWords(m, sp, ws) && i < |ws| && ws[i] == w < U64 && a == sp + 8 * i
    ensures Reads(m, a, w)
  {
    assert HasWordAt(m, sp, ws, i);
    WordReads(m, a, w);
  }

  // Where the parts of the vector are
  lemma {:induction false} VectorFixed(base: int, argv: seq<seq<Byte>>, pairs: seq<Pair>)
    requires base >= 0
    ensures var v := Vector(base, argv, pairs);
            |v| == |argv| + 3 + 2 * |pairs| && v[0] == |argv| && v[|argv| + 1] == 0 && v[|argv| + 2] == 0
  {
  }

  lemma {:induction false} VectorPointer(base: int, argv: seq<seq<Byte>>, pairs: seq<Pair>, i: nat)
    requires base >= 0 && i < |argv|
    ensures |Vector(base, argv, pairs)| > i + 1 && Vector(base, argv, pairs)[1 + i] == base + Size(argv[..i])
  {
    PointerAt(base, argv, i);
    Middle([|argv|], Pointers(base, argv), [0] + [0] + PairWords(pairs), i);
    assert Vector(base, argv, pairs) == [|argv|] + Pointers(base, argv) + ([0] + [0] + PairWords(pairs));
  }

  lemma {:induction false} VectorPair(base: int, argv: seq<seq<Byte>>, pairs: seq<Pair>, j: nat)
    requires base >= 0 && j < |pairs|
    ensures var v, k := Vector(base, argv, pairs), |argv| + 3 + 2 * j;
            |v| > k + 1 && v[k] == pairs[j].tag && v[k + 1] == pairs[j].val
  {
    var head, ws := [|argv|] + Pointers(base, argv) + [0] + [0], PairWords(pairs);
    PairWordsAt(pairs, j);
    Middle(head, ws, [], 2 * j);
    Middle(head, ws, [], 2 * j + 1);
    assert Vector(base, argv, pairs) == head + ws + [];
  }

  lemma Middle(a: seq<nat>, b: seq<nat>, c: seq<nat>, k: nat)
    requires k < |b|
    ensures (a + b + c)[|a| + k] == b[k]
  {
  }

  lemma PointersBelow(base: int, argv: seq<seq<Byte>>, execfn: Option<seq<Byte>>, top: nat, i: nat)
    requires 0 <= base && base + Size(Strings(argv, execfn)) <= top && i <= |argv|
    ensures base + Size(argv[..i]) <= top
  {
    var all := Strings(argv, execfn);
    SizeBound(all, i);
    assert all[..i] == argv[..i];
  }

  // Whatever the arguments, the program finds argc at its stack pointer, a
  // pointer to each argument in order, the two NULLs, and the pairs behind them.
  lemma {:induction false} ProgramReads(m: Memory, sp: int, arch: Arch, top: nat, argv: seq<seq<Byte>>,
      execfn: Option<seq<Byte>>,
                                        elf: Option<Elf>, random: seq<Byte>, i: nat)
    requires Image(m, sp, arch, top, argv, execfn, elf, random) && top < U64 && |argv| < U64
    ensures Reads(m, sp, |argv|)
    ensures i < |argv| ==> exists p: nat :: Reads(m, sp + 8 + 8 * i, p) && HasString(m, p, argv[i])
    ensures Reads(m, sp + 8 + 8 * |argv|, 0) && Reads(m, sp + 16 + 8 * |argv|, 0)
  {
    var base, pairs := StringsBase(top, argv, execfn), Auxv(arch, top, argv, execfn, elf);
    ReadsFixed(m, sp, base, argv, pairs);
    if i < |argv| {
      var p := base + Size(argv[..i]);
      PointersBelow(base, argv, execfn, top, i);
      ReadsPointer(m, sp, base, argv, pairs, i);
      var all := Strings(argv, execfn);
      assert HasStringAt(m, base, all, i);
      assert all[..i] == argv[..i] && all[i] == argv[i];
    }
  }

  lemma {:induction false} ReadsFixed(m: Memory, sp: int, base: int, argv: seq<seq<Byte>>, pairs: seq<Pair>)
    requires base >= 0 && HasWords(m, sp, Vector(base, argv, pairs)) && |argv| < U64
    ensures Reads(m, sp, |argv|) && Reads(m, sp + 8 + 8 * |argv|, 0) && Reads(m, sp + 16 + 8 * |argv|, 0)
  {
    var v := Vector(base, argv, pairs);
    VectorFixed(base, argv, pairs);
    WordOf(m, sp, v, 0, |argv|, sp);
    WordOf(m, sp, v, |argv| + 1, 0, sp + 8 + 8 * |argv|);
    WordOf(m, sp, v, |argv| + 2, 0, sp + 16 + 8 * |argv|);
  }

  lemma {:induction false} ReadsPointer(m: Memory, sp: int, base: int, argv: seq<seq<Byte>>, pairs: seq<Pair>, i: nat)
    requires base >= 0 && HasWords(m, sp, Vector(base, argv, pairs)) && i < |argv| && base + Size(argv[..i]) < U64
    ensures Reads(m, sp + 8 + 8 * i, base + Size(argv[..i]))
  {
    VectorPointer(base, argv, pairs, i);
    WordOf(m, sp, Vector(base, argv, pairs), 1 + i, base + Size(argv[..i]), sp + 8 + 8 * i);
  }

  lemma {:induction false} ProgramReadsAuxv(m: Memory, sp: int, arch: Arch, top: nat, argv: seq<seq<Byte>>,
      execfn: Option<seq<Byte>>,
                                            elf: Option<Elf>, random: seq<Byte>, j: nat)
    requires Image(m, sp, arch, top, argv, execfn, elf, random)
    requires j < |Auxv(arch, top, argv, execfn, elf)|
    requires var p := Auxv(arch, top, argv, execfn, elf)[j]; p.tag < U64 && p.val < U64
    ensures var p := Auxv(arch, top, argv, execfn, elf)[j];
            var a := sp + 24 + 8 * |argv| + 16 * j;
            Reads(m, a, p.tag) && Reads(m, a + 8, p.val)
  {
    var base, pairs := StringsBase(top, argv, execfn), Auxv(arch, top, argv, execfn, elf);
    ReadsPair(m, sp, base, argv, pairs, j);
  }

  lemma {:induction false} ReadsPair(m: Memory, sp: int, base: int, argv: seq<seq<Byte>>, pairs: seq<Pair>, j: nat)
    requires base >= 0 && HasWords(m, sp, Vector(base, argv, pairs)) && j < |pairs| && pairs[j].tag < U64
             && pairs[j].val < U64
    ensures var a := sp + 24 + 8 * |argv| + 16 * j;
            Reads(m, a, pairs[j].tag) && Reads(m, a + 8, pairs[j].val)
  {
    var v, k, a := Vector(base, argv, pairs), |argv| + 3 + 2 * j, sp + 24 + 8 * |argv| + 16 * j;
    VectorPair(base, argv, pairs, j);
    WordOf(m, sp, v, k, pairs[j].tag, a);
    WordOf(m, sp, v, k + 1, pairs[j].val, a + 8);
  }

  // The pairs end with AT_NULL and not before; the entries a C library needs
  // have their values, AT_RANDOM points to the random bytes and AT_EXECFN to
  // the name of the executable.
  lemma {:induction false} AuxvIsRight(m: Memory, sp: int, arch: Arch, top: nat, argv: seq<seq<Byte>>,
      execfn: Option<seq<Byte>>,
                                       elf: Elf, random: seq<Byte>)
    requires Image(m, sp, arch, top, argv, execfn, Some(elf), random)
    ensures var pairs := Auxv(arch, top, argv, execfn, Some(elf));
            && Terminated(pairs)
            && Lookup(pairs, AT_PHDR) == Some(elf.phdr) && Lookup(pairs, AT_PHNUM) == Some(elf.phnum)
            && Lookup(pairs, AT_PHENT) == Some(elf.phent) && Lookup(pairs, AT_ENTRY) == Some(elf.entry)
            && Lookup(pairs, AT_RANDOM).Some? && Has(m, Lookup(pairs, AT_RANDOM).value, random)
            && (execfn.Some? && Lookup(pairs, AT_EXECFN).Some? ==>
                HasString(m, Lookup(pairs, AT_EXECFN).value, execfn.value))
            && (Lookup(pairs, AT_EXECFN).None? ==> execfn.None? || (StringsBase(top, argv, execfn) == 0 && argv == []))
  {
    var base := StringsBase(top, argv, execfn);
    AuxvIsTerminated(arch, Some(elf), Nat(RandomVa(base)), Nat(if execfn.Some? then base + Size(argv) else 0));
    AuxvLookups(arch, elf, Nat(RandomVa(base)), Nat(if execfn.Some? then base + Size(argv) else 0));
    if execfn.Some? {
      var all := Strings(argv, execfn);
      assert HasStringAt(m, base, all, |argv|);
      assert all[..|argv|] == argv && all[|argv|] == execfn.value;
    }
  }

  // The first pair with the tag decides.
  lemma {:induction false} LookupFinds(pairs: seq<Pair>, tag: nat, i: nat)
    requires i < |pairs| && pairs[i].tag == tag != AT_NULL
    requires forall j :: 0 <= j < i ==> pairs[j].tag != AT_NULL && pairs[j].tag != tag
    ensures Lookup(pairs, tag) == Some(pairs[i].val)
  {
    if i > 0 {
      LookupFinds(pairs[1..], tag, i - 1);
    }
  }

  lemma {:induction false} LookupMisses(pairs: seq<Pair>, tag: nat)
    requires forall j :: 0 <= j < |pairs| ==> pairs[j].tag != tag
    ensures Lookup(pairs, tag) == None
  {
    if pairs != [] {
      LookupMisses(pairs[1..], tag);
    }
  }

  lemma AuxvLookups(arch: Arch, elf: Elf, randomVa: nat, execfnVa: nat)
    ensures var pairs := AuxvFill(arch, Some(elf), randomVa, execfnVa);
            && Lookup(pairs, AT_PHDR) == Some(elf.phdr) && Lookup(pairs, AT_PHNUM) == Some(elf.phnum)
            && Lookup(pairs, AT_PHENT) == Some(elf.phent) && Lookup(pairs, AT_ENTRY) == Some(elf.entry)
            && Lookup(pairs, AT_RANDOM) == Some(randomVa)
            && Lookup(pairs, AT_EXECFN) == if execfnVa != 0 then Some(execfnVa) else None
  {
    var pairs := AuxvFill(arch, Some(elf), randomVa, execfnVa);
    LookupFinds(pairs, AT_PHDR, 0);
    LookupFinds(pairs, AT_PHENT, 1);
    LookupFinds(pairs, AT_PHNUM, 2);
    LookupFinds(pairs, AT_ENTRY, 4);
    LookupFinds(pairs, AT_RANDOM, 12);
    if execfnVa != 0 {
      LookupFinds(pairs, AT_EXECFN, 13);
    } else {
      LookupMisses(pairs, AT_EXECFN);
    }
  }
}
