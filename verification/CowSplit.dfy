/**
 linux_mm_cow_split_page as one call with nothing running beside it.
 */
module CowSplit {
  import opened Wrappers
  import opened CowModel
  import opened CowProofs

  predicate NeedsSplit(s: State, k: Key) {
    && k in s.cells && s.cells[k].pte.Some? && s.cells[k].pte.value.flags.valid && !s.cells[k].pte.value.flags.write
  }

  // The page is writable in the radix tree and every primitive succeeds.
  predicate CanSplit(s: State, k: Key, frame: Option<Frame>, copied: bool, locked: bool) {
    NeedsSplit(s, k) && s.cells[k].flags.write && frame.Some? && copied && locked
  }

  // The page on its new frame, with its bytes, its other permissions and write
  // access; one share of the old frame is gone.
  function AfterSplit(s: State, k: Key, dst: Frame): State
    requires k in s.cells && s.cells[k].frame in s.mem && s.cells[k].frame in s.refs
  {
    var src := s.cells[k].frame;
    Deref(Alloc(s, dst, s.mem[src]), src).(cells := s.cells[k := Installed(dst, SplitFlags(s.cells[k].flags))])
  }

  function AddShare(s: State, f: Frame): State
    requires f in s.refs
  {
    s.(refs := s.refs[f := s.refs[f] + 1])
  }

  // A share that is taken and dropped leaves no trace.
  lemma UnpinRestores(s: State, f: Frame)
    requires f in s.refs && s.refs[f] > 0
    ensures Deref(AddShare(s, f), f) == s
  {
    assert s.refs[f := s.refs[f] + 1][f := s.refs[f]] == s.refs;
  }

  // Nor does a frame that is allocated and freed, even with a pin in between.
  lemma FreeRestores(s: State, f: Frame, c: Content)
    requires f !in s.mem && f !in s.refs
    ensures Deref(Alloc(s, f, c), f) == s
  {
    assert s.mem[f := c] - {f} == s.mem;
    assert s.refs[f := 1] - {f} == s.refs;
  }

  lemma UnpinUnderAlloc(s: State, f: Frame, g: Frame, c: Content)
    requires f in s.refs && s.refs[f] > 0 && g != f
    ensures Deref(Alloc(AddShare(s, f), g, c), f) == Alloc(s, g, c)
  {
    assert s.refs[f := s.refs[f] + 1][g := 1][f := s.refs[f]] == s.refs[g := 1];
  }

  // The running kernel; where other threads are is a ghost.
  class Memory {
    var spaces: set<Space>
    var cells: map<Key, Cell>
    var mem: map<Frame, Content>
    var refs: map<Frame, nat>
    ghost var pcs: map<Tid, Pc>

    ghost function Abs(): State reads this { State(spaces, cells, mem, refs, pcs) }

    // pmm_free
    method FreeFrame(f: Frame)
      requires f in refs
      modifies this`mem, this`refs
      ensures Abs() == Deref(old(Abs()), f)
    {
      if refs[f] <= 1 {
        refs, mem := refs - {f}, mem - {f};
      } else {
        refs := refs[f := refs[f] - 1];
      }
    }

    // frame is the answer of the allocator; copied and locked say whether the
    // copy and the range lock succeed.  Every exit path but the remap restores
    // the memory exactly.
    method CowSplitPage(k: Key, frame: Option<Frame>, junk: Content, copied: bool, locked: bool) returns (ok: bool)
      requires Inv(Abs()) && (frame.Some? ==> frame.value !in mem)
      modifies this`cells, this`mem, this`refs
      ensures ok <==> !NeedsSplit(old(Abs()), k) || CanSplit(old(Abs()), k, frame, copied, locked)
      ensures !CanSplit(old(Abs()), k, frame, copied, locked) ==> Abs() == old(Abs())
      ensures CanSplit(old(Abs()), k, frame, copied, locked) ==>
                && old(Abs()).cells[k].frame in old(Abs()).mem && old(Abs()).cells[k].frame in old(Abs()).refs
                && Abs() == AfterSplit(old(Abs()), k, frame.value)
    {
      if k !in cells || cells[k].pte.None? || !cells[k].pte.value.flags.valid {
        return true;
      }
      ghost var s := Abs();
      SourceIsHeld(s, k);
      var src, pt := cells[k].pte.value.frame, cells[k].pte.value.flags;
      refs := refs[src := refs[src] + 1];
      UnpinRestores(s, src);
      if pt.write {
        FreeFrame(src);
        return true;
      }
      var radix := cells[k].flags;
      if !radix.write || frame.None? {
        FreeFrame(src);
        return false;
      }
      ok := CopyAndRemap(k, src, frame.value, radix, junk, copied, locked, s);
    }

    // The rest of the call, with the old frame pinned and the new one granted
    method CopyAndRemap(k: Key, src: Frame, dst: Frame, radix: Flags, junk: Content, copied: bool, locked: bool,
        ghost s: State)
      returns (ok: bool)
      requires k in s.cells && s.cells[k].frame == src && src in s.mem && src in s.refs && s.refs[src] > 0
      requires dst !in s.mem && dst !in s.refs && radix == s.cells[k].flags
      requires Abs() == AddShare(s, src)
      modifies this`cells, this`mem, this`refs
      ensures ok <==> copied && locked
      ensures Abs() == if ok then AfterSplit(s, k, dst) else s
    {
      UnpinRestores(s, src);
      mem, refs := mem[dst := junk], refs[dst := 1];
      if !copied {
        FreeRestores(AddShare(s, src), dst, junk);
        FreeFrame(dst);
        FreeFrame(src);
        return false;
      }
      mem := mem[dst := mem[src]];
      assert mem == s.mem[dst := s.mem[src]];
      assert Abs() == Alloc(AddShare(s, src), dst, s.mem[src]);
      ok := RemapAndUnpin(k, src, dst, radix, locked, s);
    }

    // The remap drops the share of the page; then the pin goes.
    method RemapAndUnpin(k: Key, src: Frame, dst: Frame, radix: Flags, locked: bool, ghost s: State) returns (ok: bool)
      requires k in s.cells && s.cells[k].frame == src && src in s.mem && src in s.refs && s.refs[src] > 0
      requires dst !in s.mem && dst !in s.refs && radix == s.cells[k].flags
      requires Abs() == Alloc(AddShare(s, src), dst, s.mem[src])
      modifies this`cells, this`mem, this`refs
      ensures ok == locked
      ensures Abs() == if ok then AfterSplit(s, k, dst) else s
    {
      UnpinUnderAlloc(s, src, dst, s.mem[src]);
      if locked {
        cells := cells[k := Installed(dst, SplitFlags(radix))];
        FreeFrame(src);
      }
      FreeFrame(src);
      if !locked {
        FreeRestores(s, dst, s.mem[src]);
        FreeFrame(dst);
      }
      return locked;
    }
  }

  lemma SourceIsHeld(s: State, k: Key)
    requires Inv(s) && k in s.cells && s.cells[k].pte.Some?
    ensures var f := s.cells[k].frame;
            s.cells[k].pte.value.frame == f && f in s.mem && f in s.refs && s.refs[f] > 0 && s.refs.Keys == s.mem.Keys
  {
    Unfold(s);
    assert CellOk(s, k);
  }
}
