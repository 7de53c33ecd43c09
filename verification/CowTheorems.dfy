/**
 Copy-on-write isolation, for every interleaving of forks, stores, unmaps, page
 faults and splits.
 */
module CowTheorems {
  import opened Wrappers
  import opened Bytes
  import opened CowModel
  import opened CowProofs
  import opened CowSteps

  lemma InitialInv()
    ensures Inv(INITIAL) && Shows(INITIAL, map[])
  {
    Fold(INITIAL);
  }

  lemma {:induction false} RunKeeps(run: seq<State>, steps: seq<Step>, i: nat)
    requires IsRun(run, steps) && i < |run|
    ensures Inv(run[i])
  {
    if i == 0 {
      InitialInv();
    } else {
      RunKeeps(run, steps, i - 1);
      StepKeeps(run[i - 1], steps[i - 1]);
    }
  }

  // The bytes of every space if each had its own memory.
  function PrivateAfter(steps: seq<Step>): Views {
    if steps == [] then map[] else Private(PrivateAfter(steps[..|steps| - 1]), steps[|steps| - 1])
  }

  // Sharing is invisible: after every run each space reads exactly what it would
  // read if fork had copied every page.
  lemma {:induction false} CowRefinesPrivateCopies(run: seq<State>, steps: seq<Step>, i: nat)
    requires IsRun(run, steps) && i < |run|
    ensures Shows(run[i], PrivateAfter(steps[..i]))
  {
    if i == 0 {
      InitialInv();
    } else {
      CowRefinesPrivateCopies(run, steps, i - 1);
      RunKeeps(run, steps, i - 1);
      assert steps[..i][..i - 1] == steps[..i - 1];
      StepShows(run[i - 1], steps[i - 1], PrivateAfter(steps[..i - 1]));
    }
  }

  // What page k reads.
  function Reads(s: State, k: Key): Option<Content> {
    if k in s.cells && s.cells[k].frame in s.mem then Some(s.mem[s.cells[k].frame]) else None
  }

  // A store is seen through the page it was made through and no other.
  lemma StoreIsPrivate(run: seq<State>, steps: seq<Step>, i: nat, k: Key, off: nat, b: Byte, l: Key)
    requires IsRun(run, steps) && i < |steps| && steps[i] == Write(k, off, b)
    ensures Reads(run[i], k).Some? && off < |Reads(run[i], k).value|
    ensures Reads(run[i + 1], l) == if l == k then Some(Reads(run[i], k).value[off := b]) else Reads(run[i], l)
  {
    CowRefinesPrivateCopies(run, steps, i);
    CowRefinesPrivateCopies(run, steps, i + 1);
    RunKeeps(run, steps, i);
    WriteKeeps(run[i], k, off, b);
    var v := PrivateAfter(steps[..i]);
    assert Shows(run[i + 1], v[k := v[k][off := b]]);
  }

  // A writable page-table entry means that no other page, in any space, maps
  // the frame.
  lemma WritableMeansUnshared(run: seq<State>, steps: seq<Step>, i: nat, k: Key, l: Key)
    requires IsRun(run, steps) && i < |run| && k in run[i].cells && l in run[i].cells && k != l
    requires run[i].cells[k].pte.Some? && run[i].cells[k].pte.value.flags.write
    ensures run[i].cells[l].frame != run[i].cells[k].pte.value.frame
    ensures run[i].cells[l].pte.Some? ==> run[i].cells[l].pte.value.frame != run[i].cells[k].pte.value.frame
  {
    RunKeeps(run, steps, i);
    Unfold(run[i]);
    assert CellOk(run[i], k) && CellOk(run[i], l);
  }

  // Shares are balanced in every state, in the middle of splits included.
  lemma SharesBalance(run: seq<State>, steps: seq<Step>, i: nat, f: Frame)
    requires IsRun(run, steps) && i < |run|
    ensures f in run[i].mem <==> Holders(run[i], f) != {}
    ensures f in run[i].refs <==> f in run[i].mem
    ensures f in run[i].mem ==> run[i].refs[f] == |Holders(run[i], f)|
  {
    var s, hs := run[i], Holders(run[i], f);
    RunKeeps(run, steps, i);
    Unfold(s);
    if f in s.mem {
      assert s.refs[f] == |hs|;
    } else {
      forall h ensures h !in hs {
        NoHolder(s, f, h);
      }
    }
  }

  lemma NoHolder(s: State, f: Frame, h: Holder)
    requires CellsOk(s) && ThreadsOk(s) && f !in s.mem
    ensures !Holds(s, h, f)
  {
    match h {
      case OfPage(k) => assert k in s.cells ==> CellOk(s, k);
      case OfPin(t) => assert t in s.pcs ==> PcOk(s, s.pcs[t]);
      case OfNew(t) => assert t in s.pcs ==> PcOk(s, s.pcs[t]);
    }
  }

  // When no split is under way every frame is mapped and has one share per page
  // that maps it: no exit path of a split leaks a frame, a pin or a share.
  lemma NothingLeaks(run: seq<State>, steps: seq<Step>, i: nat, f: Frame)
    requires IsRun(run, steps) && i < |run| && forall t :: t in run[i].pcs ==> run[i].pcs[t].Idle?
    ensures var pages := set k | k in run[i].cells && run[i].cells[k].frame == f;
            && (f in run[i].mem <==> pages != {})
            && (f in run[i].mem ==> f in run[i].refs && run[i].refs[f] == |pages|)
  {
    var s := run[i];
    var pages := set k | k in s.cells && s.cells[k].frame == f;
    SharesBalance(run, steps, i, f);
    var hs := Holders(s, f);
    assert forall h :: h in hs ==> h.OfPage? && h.key in pages;
    assert forall k :: k in pages ==> OfPage(k) in hs;
    SameSize(pages, hs);
  }

  lemma {:induction false} SameSize(pages: set<Key>, hs: set<Holder>)
    requires forall h :: h in hs ==> h.OfPage? && h.key in pages
    requires forall k :: k in pages ==> OfPage(k) in hs
    ensures |pages| == |hs|
    decreases |pages|
  {
    if pages == {} {
      if h :| h in hs {
        assert false;
      }
    } else {
      var k :| k in pages;
      SameSize(pages - {k}, hs - {OfPage(k)});
    }
  }

  // No step but a new mapping gives a page the right to be written: a page that
  // is read-only in the radix tree stays so.
  lemma WriteIntentIsStable(run: seq<State>, steps: seq<Step>, i: nat, k: Key)
    requires IsRun(run, steps) && i < |steps| && k in run[i].cells && k in run[i + 1].cells
    ensures run[i + 1].cells[k].flags.write == run[i].cells[k].flags.write
  {
    var s, step := run[i], steps[i];
    RunKeeps(run, steps, i);
    match step {
      case Split(t, m) =>
        ThreadOk(s, t);
      case Clone(parent, child) => ForkCellsAre(s, parent, child);
      case _ =>
    }
  }

  // No other page maps the frame of k.
  ghost predicate Alone(s: State, k: Key)
    requires k in s.cells
  {
    forall l :: l in s.cells && l != k ==> s.cells[l].frame != s.cells[k].frame
  }

  // A split that ends with its remap leaves the page writable, on a frame of its
  // own, with the bytes it had.
  lemma SplitGivesOwnCopy(run: seq<State>, steps: seq<Step>, i: nat, t: Tid)
    requires IsRun(run, steps) && i < |steps| && steps[i] == Split(t, Swap(true)) && RemapFits(run[i], run[i].pcs[t])
    ensures var k := run[i].pcs[t].key;
            && k in run[i].cells && k in run[i + 1].cells
            && CanStore(run[i + 1], k, 0)
            && Alone(run[i + 1], k)
            && Reads(run[i + 1], k) == Reads(run[i], k)
  {
    var s, s', k := run[i], run[i + 1], run[i].pcs[t].key;
    RunKeeps(run, steps, i);
    RunKeeps(run, steps, i + 1);
    CowRefinesPrivateCopies(run, steps, i);
    MoveShows(s, t, Swap(true), PrivateAfter(steps[..i]));
    Unfold(s');
    assert CellOk(s', k);
  }

  // ---- the page-fault guard

  // linux_trap_pf_handler splits on a hardware write to a present page whose
  // page-table entry is read-only and whose radix leaf is writable.
  predicate SplitGuard(s: State, k: Key, isWrite: bool, isPresent: bool) {
    && k in s.cells && s.cells[k].pte.Some? && s.cells[k].pte.value.flags.valid
    && isWrite && isPresent && s.cells[k].flags.write && !s.cells[k].pte.value.flags.write
  }

  // In every reachable state that is exactly a write to a page fork has shared,
  // so a page that is really read-only is never split.
  lemma GuardIsCopyOnWrite(run: seq<State>, steps: seq<Step>, i: nat, k: Key)
    requires IsRun(run, steps) && i < |run| && k in run[i].cells && run[i].cells[k].pte.Some?
    ensures SplitGuard(run[i], k, true, true) <==> run[i].cells[k].flags.write && run[i].cells[k].flags.cow
  {
    RunKeeps(run, steps, i);
    Unfold(run[i]);
    assert CellOk(run[i], k);
  }
}
