/**
 The initial stack of a program: strings at the top, sixteen random bytes, then
 from the stack pointer up argc, the argv pointers and NULL, the empty
 environment's NULL and the auxiliary vector.
 */
module ExecStack {
  import opened Common
  import opened Wrappers
  import opened Bytes
  import opened UserMemory

  datatype Arch = Aarch64 | X86_64

  // linux_exec_elf_auxv_t with have_elf set
  datatype Elf = Elf(phdr: nat, phent: nat, phnum: nat, entry: nat)
  datatype Pair = Pair(tag: nat, val: nat)

  const AT_NULL: nat := 0
  const AT_PHDR: nat := 3
  const AT_PHENT: nat := 4
  const AT_PHNUM: nat := 5
  const AT_PAGESZ: nat := 6
  const AT_ENTRY: nat := 9
  const AT_UID: nat := 11
  const AT_EUID: nat := 12
  const AT_GID: nat := 13
  const AT_EGID: nat := 14
  const AT_HWCAP: nat := 16
  const AT_CLKTCK: nat := 17
  const AT_SECURE: nat := 23
  const AT_RANDOM: nat := 25
  const AT_EXECFN: nat := 31

  const MAX_PAIRS: nat := 24
  const RANDOM_BYTES: nat := 16

  // ---- auxiliary vector

  function Hwcap(arch: Arch): nat { if arch.Aarch64? then 7 else 0 }

  // The pushes of linux_exec_auxv_fill_pairs, each dropped when the array is full
  function Push(pairs: seq<Pair>, tag: nat, val: nat): seq<Pair> {
    if |pairs| < MAX_PAIRS then pairs + [Pair(tag, val)] else pairs
  }

  function AuxvFill(arch: Arch, elf: Option<Elf>, randomVa: nat, execfnVa: nat): seq<Pair> {
    if elf.None? then Push(Push([], AT_PAGESZ, PAGE_SIZE), AT_NULL, 0)
    else
      var p := Push([], AT_PHDR, elf.value.phdr);
      var p := Push(p, AT_PHENT, elf.value.phent);
      var p := Push(p, AT_PHNUM, elf.value.phnum);
      var p := Push(p, AT_PAGESZ, PAGE_SIZE);
      var p := Push(p, AT_ENTRY, elf.value.entry);
      var p := Push(p, AT_UID, 0);
      var p := Push(p, AT_EUID, 0);
      var p := Push(p, AT_GID, 0);
      var p := Push(p, AT_EGID, 0);
      var p := Push(p, AT_SECURE, 0);
      var p := Push(p, AT_CLKTCK, 100);
      var p := Push(p, AT_HWCAP, Hwcap(arch));
      var p := Push(p, AT_RANDOM, randomVa);
      var p := if execfnVa != 0 then Push(p, AT_EXECFN, execfnVa) else p;
      Push(p, AT_NULL, 0)
  }

  // How a program looks a tag up: it stops at AT_NULL.
  function Lookup(pairs: seq<Pair>, tag: nat): Option<nat> {
    if pairs == [] || pairs[0].tag == AT_NULL then None
    else if pairs[0].tag == tag then Some(pairs[0].val)
    else Lookup(pairs[1..], tag)
  }

  ghost predicate Terminated(pairs: seq<Pair>) {
    && |pairs| > 0 && pairs[|pairs| - 1] == Pair(AT_NULL, 0)
    && forall i :: 0 <= i < |pairs| - 1 ==> pairs[i].tag != AT_NULL
  }

  lemma AuxvIsTerminated(arch: Arch, elf: Option<Elf>, randomVa: nat, execfnVa: nat)
    ensures Terminated(AuxvFill(arch, elf, randomVa, execfnVa))
    ensures |AuxvFill(arch, elf, randomVa, execfnVa)| <= 15
  {
  }

  // ---- strings

  function Size(argv: seq<seq<Byte>>): nat {
    if argv == [] then 0 else Size(argv[..|argv| - 1]) + |argv[|argv| - 1]| + 1
  }

  // All strings in the order they are stored
  function Strings(argv: seq<seq<Byte>>, execfn: Option<seq<Byte>>): seq<seq<Byte>> {
    argv + if execfn.Some? then [execfn.value] else []
  }

  ghost predicate HasStrings(m: Memory, base: int, ss: seq<seq<Byte>>) {
    forall i :: 0 <= i < |ss| ==> HasStringAt(m, base, ss, i)
  }

  ghost predicate HasStringAt(m: Memory, base: int, ss: seq<seq<Byte>>, i: int)
    requires 0 <= i < |ss|
  {
    HasString(m, base + Size(ss[..i]), ss[i])
  }

  // The argv pointers
  function Pointers(base: int, argv: seq<seq<Byte>>): (ws: seq<nat>)
    requires base >= 0
    ensures |ws| == |argv|
  {
    if argv == [] then []
    else Pointers(base, argv[..|argv| - 1]) + [base + Size(argv[..|argv| - 1])]
  }

  lemma {:induction false} PointerAt(base: int, argv: seq<seq<Byte>>, i: nat)
    requires base >= 0 && i < |argv|
    ensures Pointers(base, argv)[i] == base + Size(argv[..i])
  {
    var init := argv[..|argv| - 1];
    if i < |init| {
      PointerAt(base, init, i);
      assert init[..i] == argv[..i];
    }
  }

  function PairWords(pairs: seq<Pair>): (ws: seq<nat>)
    ensures |ws| == 2 * |pairs|
  {
    if pairs == [] then [] else PairWords(pairs[..|pairs| - 1]) + [pairs[|pairs| - 1].tag, pairs[|pairs| - 1].val]
  }

  lemma {:induction false} PairWordsAt(pairs: seq<Pair>, j: nat)
    requires j < |pairs|
    ensures PairWords(pairs)[2 * j] == pairs[j].tag && PairWords(pairs)[2 * j + 1] == pairs[j].val
  {
    if j < |pairs| - 1 {
      PairWordsAt(pairs[..|pairs| - 1], j);
    }
  }

  // ---- layout

  function AlignDown(x: int): (r: int)
    ensures r % 16 == 0 && r <= x < r + 16
  {
    x - x % 16
  }

  // The stack pointer at or below x with the residue the entry code expects
  function EntrySp(arch: Arch, x: int): (r: int)
    ensures r <= x < r + 16 && r % 16 == if arch.X86_64? then 8 else 0
  {
    match arch
    case Aarch64 => AlignDown(x)
    case X86_64 => var aligned := AlignDown(x) + 8; if aligned > x then aligned - 16 else aligned
  }

  function StringsBase(top: nat, argv: seq<seq<Byte>>, execfn: Option<seq<Byte>>): int {
    AlignDown(top - Size(Strings(argv, execfn)))
  }

  function RandomVa(base: int): int { AlignDown(base - RANDOM_BYTES) }

  // The words from the stack pointer up
  function Vector(base: int, argv: seq<seq<Byte>>, pairs: seq<Pair>): seq<nat>
    requires base >= 0
  {
    [|argv|] + Pointers(base, argv) + [0] + [0] + PairWords(pairs)
  }
}
