/**
 Each step keeps the invariant and does to the bytes what the reference does.
 */
module CowSteps {
  import opened Wrappers
  import opened Bytes
  import opened CowModel
  import opened CowProofs

  // A page of s' as a split in progress may find it: an old page that gained no
  // right, a page on a new frame, or a read-only twin in a new space.
  ghost predicate Carried(s: State, s': State, k: Key)
    requires k in s'.cells
  {
    || (k in s.cells && s'.cells[k].frame == s.cells[k].frame && SamePerms(s'.cells[k].flags, s.cells[k].flags)
        && (Owned(s'.cells[k]) ==> Owned(s.cells[k])))
    || s'.cells[k].frame !in s.mem
    || (k.space !in s.spaces && !Owned(s'.cells[k])
        && exists l :: l in s.cells && s.cells[l].frame == s'.cells[k].frame)
  }

  ghost predicate StillThere(s: State, s': State, f: Option<Frame>) {
    f.Some? && f.value in s.mem ==> f.value in s'.mem && s'.mem[f.value] == s.mem[f.value]
  }

  predicate Unheld(pc: Pc, f: Frame) { OldOf(pc) != Some(f) && NewOf(pc) != Some(f) }

  lemma PcKept(s: State, s': State, pc: Pc)
    requires PcOk(s, pc) && s.spaces <= s'.spaces
    requires forall k :: k in s'.cells ==> Carried(s, s', k) || Unheld(pc, s'.cells[k].frame)
    requires StillThere(s, s', OldOf(pc)) && StillThere(s, s', NewOf(pc))
    ensures PcOk(s', pc)
  {
  }

  lemma ThreadsKept(s: State, s': State)
    requires ThreadsOk(s) && s'.pcs == s.pcs && s.spaces <= s'.spaces
    requires forall k :: k in s'.cells ==> Carried(s, s', k)
    requires forall t :: t in s.pcs ==> StillThere(s, s', OldOf(s.pcs[t])) && StillThere(s, s', NewOf(s.pcs[t]))
    ensures ThreadsOk(s')
  {
    forall t | t in s.pcs ensures PcOk(s', s.pcs[t]) {
      PcKept(s, s', s.pcs[t]);
    }
  }

  // ---- map

  lemma MapKeeps(s: State, k: Key, f: Frame, flags: Flags)
    requires Inv(s) && Enabled(s, Map(k, f, flags))
    ensures Inv(MapPage(s, k, f, flags))
  {
    Unfold(s);
    MapCells(s, k, f, flags);
    MapThreads(s, k, f, flags);
    MapShares(s, k, f, flags);
    Fold(MapPage(s, k, f, flags));
  }

  lemma MapCells(s: State, k: Key, f: Frame, flags: Flags)
    requires CellsOk(s) && Exclusive(s) && Enabled(s, Map(k, f, flags))
    ensures CellsOk(MapPage(s, k, f, flags)) && Exclusive(MapPage(s, k, f, flags))
  {
    var s' := MapPage(s, k, f, flags);
    forall l | l in s'.cells ensures CellOk(s', l) {
      assert l != k ==> CellOk(s, l);
    }
  }

  lemma MapThreads(s: State, k: Key, f: Frame, flags: Flags)
    requires CellsOk(s) && ThreadsOk(s) && Enabled(s, Map(k, f, flags))
    ensures ThreadsOk(MapPage(s, k, f, flags))
  {
    ThreadsKept(s, MapPage(s, k, f, flags));
  }

  lemma MapShows(s: State, v: Views, k: Key, f: Frame, flags: Flags)
    requires Shows(s, v) && Enabled(s, Map(k, f, flags))
    ensures Shows(MapPage(s, k, f, flags), v[k := ZeroPage()])
  {
  }

  lemma MapShares(s: State, k: Key, f: Frame, flags: Flags)
    requires CellsOk(s) && ThreadsOk(s) && SharesOk(s) && Enabled(s, Map(k, f, flags))
    ensures SharesOk(MapPage(s, k, f, flags))
  {
    var s' := MapPage(s, k, f, flags);
    forall e, hs | e in s'.refs && AreHolders(hs, s', e) ensures s'.refs[e] == |hs| {
      if e == f {
        assert hs == {OfPage(k)};
      } else {
        CountSame(s, s', e, hs);
      }
    }
  }

  // ---- unmap

  lemma UnmapKeeps(s: State, k: Key)
    requires Inv(s) && Enabled(s, Unmap(k))
    ensures Inv(UnmapPage(s, k))
    ensures forall v :: Shows(s, v) ==> Shows(UnmapPage(s, k), v - {k})
  {
    Unfold(s);
    var s', f := UnmapPage(s, k), s.cells[k].frame;
    DerefKeeps(s, f, OfPage(k));
    UnmapCells(s, k);
    UnmapThreads(s, k);
    DerefShares(s, s', f, OfPage(k));
    Fold(s');
  }

  lemma UnmapCells(s: State, k: Key)
    requires CellsOk(s) && Exclusive(s) && SharesOk(s) && k in s.cells
    ensures CellsOk(UnmapPage(s, k)) && Exclusive(UnmapPage(s, k))
    ensures forall v :: Shows(s, v) ==> Shows(UnmapPage(s, k), v - {k})
  {
    var s', f := UnmapPage(s, k), s.cells[k].frame;
    DerefKeeps(s, f, OfPage(k));
    forall l | l in s'.cells ensures CellOk(s', l) {
      assert Holds(s, OfPage(l), s.cells[l].frame);
    }
  }

  lemma UnmapThreads(s: State, k: Key)
    requires CellsOk(s) && ThreadsOk(s) && SharesOk(s) && k in s.cells
    ensures ThreadsOk(UnmapPage(s, k))
  {
    var s', f := UnmapPage(s, k), s.cells[k].frame;
    DerefKeeps(s, f, OfPage(k));
    forall t | t in s.pcs ensures StillThere(s, s', OldOf(s.pcs[t])) && StillThere(s, s', NewOf(s.pcs[t])) {
      assert OldOf(s.pcs[t]).Some? ==> Holds(s, OfPin(t), OldOf(s.pcs[t]).value);
      assert NewOf(s.pcs[t]).Some? ==> Holds(s, OfNew(t), NewOf(s.pcs[t]).value);
    }
    ThreadsKept(s, s');
  }

  // ---- fork

  lemma ForkCellsAre(s: State, parent: Space, child: Space)
    requires forall k :: k in s.cells ==> k.space != child
    requires parent != child
    ensures var cs := ForkCells(s, parent, child);
            && (forall k :: k in cs <==> k in s.cells || (k.space == child && Key(parent, k.page) in s.cells))
            && (forall k :: k in cs && k.space == child ==> cs[k] == Shared(s.cells[Key(parent, k.page)]))
            && (forall k :: k in cs && k.space == parent ==> cs[k] == Shared(s.cells[k]))
            && (forall k :: k in cs && k.space != child && k.space != parent ==> cs[k] == s.cells[k])
  {
    var copies := set k | k in s.cells && k.space == parent :: Key(child, k.page);
    forall k ensures k in copies <==> k.space == child && Key(parent, k.page) in s.cells {
      if k.space == child && Key(parent, k.page) in s.cells {
        assert Key(child, Key(parent, k.page).page) == k;
      }
    }
  }

  lemma ForkKeeps(s: State, parent: Space, child: Space)
    requires Inv(s) && Enabled(s, Clone(parent, child))
    ensures Inv(Fork(s, parent, child))
  {
    Unfold(s);
    var s' := Fork(s, parent, child);
    ForkShape(s, parent, child);
    ForkThreads(s, parent, child);
    ForkShares(s, parent, child);
    Fold(s');
  }

  lemma ForkShape(s: State, parent: Space, child: Space)
    requires CellsOk(s) && Exclusive(s) && Enabled(s, Clone(parent, child))
    ensures CellsOk(Fork(s, parent, child)) && Exclusive(Fork(s, parent, child))
  {
    var s' := Fork(s, parent, child);
    ForkCellsAre(s, parent, child);
    forall k | k in s'.cells ensures CellOk(s', k) {
      assert k.space == child ==> CellOk(s, Key(parent, k.page));
    }
    forall k, l | k in s'.cells && l in s'.cells && k != l && s'.cells[k].frame == s'.cells[l].frame
      ensures !Owned(s'.cells[k]) && k.space != l.space
    {
      var k0 := if k.space == child then Key(parent, k.page) else k;
      var l0 := if l.space == child then Key(parent, l.page) else l;
      assert s.cells[k0].frame == s.cells[l0].frame;
    }
  }

  lemma ForkThreads(s: State, parent: Space, child: Space)
    requires CellsOk(s) && ThreadsOk(s) && Enabled(s, Clone(parent, child))
    ensures ThreadsOk(Fork(s, parent, child))
  {
    var s' := Fork(s, parent, child);
    ForkCellsAre(s, parent, child);
    forall k | k in s'.cells ensures Carried(s, s', k) {
      if k.space == child {
        assert s.cells[Key(parent, k.page)].frame == s'.cells[k].frame;
      }
    }
    ThreadsKept(s, s');
  }

  lemma ForkShares(s: State, parent: Space, child: Space)
    requires CellsOk(s) && Exclusive(s) && SharesOk(s) && Enabled(s, Clone(parent, child))
    ensures SharesOk(Fork(s, parent, child))
  {
    var s' := Fork(s, parent, child);
    ForkCellsAre(s, parent, child);
    forall f, hs | f in s'.refs && AreHolders(hs, s', f) ensures s'.refs[f] == |hs| {
      if MappedIn(s, parent, f) {
        var k :| k in s.cells && k.space == parent && s.cells[k].frame == f;
        var twin := OfPage(Key(child, k.page));
        assert Key(parent, Key(child, k.page).page) == k;
        ForkHolders(s, parent, child, f, k);
        CountGain(s, s', f, twin, hs);
      } else {
        ForkOthers(s, parent, child, f);
        CountSame(s, s', f, hs);
      }
    }
  }

  lemma ForkHolders(s: State, parent: Space, child: Space, f: Frame, k: Key)
    requires CellsOk(s) && Exclusive(s) && Enabled(s, Clone(parent, child))
    requires k in s.cells && k.space == parent && s.cells[k].frame == f
    ensures Gains(s, Fork(s, parent, child), f, OfPage(Key(child, k.page)))
  {
    var s' := Fork(s, parent, child);
    ForkCellsAre(s, parent, child);
    var twin := OfPage(Key(child, k.page));
    assert Key(parent, Key(child, k.page).page) == k;
    forall g | g != twin ensures Holds(s', g, f) <==> Holds(s, g, f) {
      if g.OfPage? && g.key.space == child {
        var k1 := Key(parent, g.key.page);
        assert g.key == Key(child, k1.page);
        assert k1 in s.cells && s.cells[k1].frame == f ==> k1 == k;
      }
    }
  }

  lemma ForkOthers(s: State, parent: Space, child: Space, f: Frame)
    requires CellsOk(s) && Enabled(s, Clone(parent, child)) && !MappedIn(s, parent, f)
    ensures forall g :: Holds(Fork(s, parent, child), g, f) <==> Holds(s, g, f)
  {
    var s' := Fork(s, parent, child);
    ForkCellsAre(s, parent, child);
    forall g ensures Holds(s', g, f) <==> Holds(s, g, f) {
      if g.OfPage? && g.key.space == child {
        assert Key(parent, g.key.page) in s.cells ==> s.cells[Key(parent, g.key.page)].frame != f;
      }
    }
  }

  lemma ForkShows(s: State, v: Views, parent: Space, child: Space)
    requires Shows(s, v) && Enabled(s, Clone(parent, child))
    ensures Shows(Fork(s, parent, child), ForkBytes(v, parent, child))
  {
    ForkCellsAre(s, parent, child);
    ForkBytesAre(v, parent, child);
  }

  lemma ForkBytesAre(v: Views, parent: Space, child: Space)
    ensures var w := ForkBytes(v, parent, child);
            && (forall k :: k in w <==> k in v || (k.space == child && Key(parent, k.page) in v))
            && (forall k :: k in w ==> w[k] == if k in v then v[k] else v[Key(parent, k.page)])
  {
    var copies := set k | k in v && k.space == parent :: Key(child, k.page);
    forall k ensures k in copies <==> k.space == child && Key(parent, k.page) in v {
      if k.space == child && Key(parent, k.page) in v {
        assert Key(child, Key(parent, k.page).page) == k;
      }
    }
  }

  // ---- store and page-table repair

  lemma WriteKeeps(s: State, k: Key, off: nat, b: Byte)
    requires Inv(s) && CanStore(s, k, off)
    ensures Inv(Store(s, k, off, b))
    ensures forall v :: Shows(s, v) ==> off < |v[k]| && Shows(Store(s, k, off, b), v[k := v[k][off := b]])
  {
    Unfold(s);
    var s' := Store(s, k, off, b);
    assert CellOk(s, k);
    assert Owned(s.cells[k]);
    assert CellsOk(s') by {
      assert forall l :: l in s'.cells ==> CellOk(s, l);
    }
    WriteThreads(s, k, off, b);
    SharesSame(s, s');
    Fold(s');
  }

  lemma WriteThreads(s: State, k: Key, off: nat, b: Byte)
    requires CellsOk(s) && ThreadsOk(s) && CanStore(s, k, off)
    ensures ThreadsOk(Store(s, k, off, b))
  {
    var s' := Store(s, k, off, b);
    assert CellOk(s, k);
    assert Owned(s.cells[k]);
    forall t | t in s.pcs ensures PcOk(s', s.pcs[t]) {
      assert PcOk(s, s.pcs[t]);
    }
  }

  function WithPte(s: State, k: Key, pte: Option<Pte>): State
    requires k in s.cells
  {
    s.(cells := s.cells[k := s.cells[k].(pte := pte)])
  }

  // Only the page-table entry of k changes.
  lemma PteKeeps(s: State, k: Key, pte: Option<Pte>)
    requires Inv(s) && k in s.cells
    requires var c := s.cells[k];
             pte.Some? ==> pte.value.frame == c.frame && pte.value.flags.valid && (pte.value.flags.write <==> Owned(c))
    ensures Inv(WithPte(s, k, pte))
    ensures forall v :: Shows(s, v) ==> Shows(WithPte(s, k, pte), v)
  {
    Unfold(s);
    var s' := WithPte(s, k, pte);
    PteCells(s, k, pte);
    PteExclusive(s, k, pte);
    PteThreads(s, k, pte);
    PteShares(s, k, pte);
    Fold(s');
  }

  lemma PteCells(s: State, k: Key, pte: Option<Pte>)
    requires CellsOk(s) && k in s.cells
    requires var c := s.cells[k];
             pte.Some? ==> pte.value.frame == c.frame && pte.value.flags.valid && (pte.value.flags.write <==> Owned(c))
    ensures CellsOk(WithPte(s, k, pte))
  {
    var s' := WithPte(s, k, pte);
    forall l | l in s'.cells ensures CellOk(s', l) {
      assert CellOk(s, l);
    }
  }

  lemma PteExclusive(s: State, k: Key, pte: Option<Pte>)
    requires Exclusive(s) && k in s.cells
    ensures Exclusive(WithPte(s, k, pte))
  {
  }

  lemma PteThreads(s: State, k: Key, pte: Option<Pte>)
    requires ThreadsOk(s) && k in s.cells
    ensures ThreadsOk(WithPte(s, k, pte))
  {
    ThreadsKept(s, WithPte(s, k, pte));
  }

  lemma PteShares(s: State, k: Key, pte: Option<Pte>)
    requires SharesOk(s) && k in s.cells
    ensures SharesOk(WithPte(s, k, pte))
  {
    SharesSame(s, WithPte(s, k, pte));
  }

  lemma ReinstallKeeps(s: State, k: Key)
    requires Inv(s) && k in s.cells
    ensures Inv(Reinstall(s, k))
    ensures forall v :: Shows(s, v) ==> Shows(Reinstall(s, k), v)
  {
    assert CellOk(s, k) by { Unfold(s); }
    PteKeeps(s, k, Some(Pte(s.cells[k].frame, LeafPteFlags(s.cells[k].flags))));
  }

  // ---- the split

  // Only the place of thread t changes, and it holds what it held.
  lemma GotoKeeps(s: State, t: Tid, pc: Pc)
    requires Inv(s) && t in s.pcs && PcOk(s, pc)
    requires OldOf(pc) == OldOf(s.pcs[t]) && NewOf(pc) == NewOf(s.pcs[t])
    ensures Inv(Goto(s, t, pc))
  {
    Unfold(s);
    var s' := Goto(s, t, pc);
    GotoThreads(s, s', t);
    SharesSame(s, s');
    Fold(s');
  }

  lemma GotoThreads(s: State, s': State, t: Tid)
    requires ThreadsOk(s) && t in s'.pcs && s' == s.(pcs := s.pcs[t := s'.pcs[t]]) && PcOk(s, s'.pcs[t])
    requires t in s.pcs && NewOf(s'.pcs[t]) == NewOf(s.pcs[t]) && OldOf(s'.pcs[t]) == OldOf(s.pcs[t])
    ensures ThreadsOk(s')
  {
    forall u | u in s'.pcs ensures PcOk(s', s'.pcs[u]) {
      assert PcOk(s, s'.pcs[u]);
    }
  }

  lemma StartKeeps(s: State, t: Tid)
    requires Inv(s) && t !in s.pcs
    ensures Inv(Goto(s, t, Idle))
  {
    Unfold(s);
    var s' := Goto(s, t, Idle);
    forall u | u in s'.pcs ensures PcOk(s', s'.pcs[u]) {
      assert PcOk(s, s'.pcs[u]);
    }
    SharesSame(s, s');
    Fold(s');
  }

  // A read-only page-table entry freezes its frame: an owned page of the same
  // frame would be the only page of that frame.
  lemma ReadOnlyIsFrozen(s: State, k: Key)
    requires CellsOk(s) && Exclusive(s) && k in s.cells && s.cells[k].pte.Some? && !s.cells[k].pte.value.flags.write
    ensures Frozen(s, s.cells[k].frame)
  {
    assert CellOk(s, k);
    assert !Owned(s.cells[k]);
  }

  lemma PinKeeps(s: State, t: Tid, k: Key)
    requires Inv(s) && CanMove(s, t, Pin(k))
    ensures Inv(PinPage(s, t, k))
  {
    var s' := PinPage(s, t, k);
    if s' != s {
      Unfold(s);
      assert CellOk(s, k);
      PinCells(s, t, k);
      PinThreads(s, t, k);
      PinShares(s, t, k);
      Fold(s');
    }
  }

  ghost predicate CanPin(s: State, t: Tid, k: Key) {
    && t in s.pcs && s.pcs[t].Idle? && k in s.cells && s.cells[k].pte.Some?
    && s.cells[k].frame == s.cells[k].pte.value.frame && s.cells[k].frame in s.refs
    && s.cells[k].pte.value.flags.valid
  }

  lemma PinCells(s: State, t: Tid, k: Key)
    requires CellsOk(s) && Exclusive(s) && CanPin(s, t, k)
    ensures CellsOk(PinPage(s, t, k)) && Exclusive(PinPage(s, t, k))
  {
    var s' := PinPage(s, t, k);
    assert s'.cells == s.cells && s'.mem == s.mem;
    forall l | l in s'.cells ensures CellOk(s', l) {
      assert CellOk(s, l);
    }
  }

  lemma PinThreads(s: State, t: Tid, k: Key)
    requires CellsOk(s) && Exclusive(s) && ThreadsOk(s) && CanPin(s, t, k)
    ensures ThreadsOk(PinPage(s, t, k))
  {
    var s' := PinPage(s, t, k);
    assert CellOk(s, k);
    if !s.cells[k].pte.value.flags.write {
      ReadOnlyIsFrozen(s, k);
    }
    forall u | u in s'.pcs ensures PcOk(s', s'.pcs[u]) {
      assert u != t ==> PcOk(s, s'.pcs[u]);
    }
    assert forall u :: u in s.pcs && NewOf(s.pcs[u]).Some? ==> PcOk(s, s.pcs[u]);
  }

  lemma PinShares(s: State, t: Tid, k: Key)
    requires SharesOk(s) && CanPin(s, t, k)
    ensures SharesOk(PinPage(s, t, k))
  {
    var s', f := PinPage(s, t, k), s.cells[k].frame;
    assert Gains(s, s', f, OfPin(t));
    forall e, hs | e in s'.refs && AreHolders(hs, s', e) ensures s'.refs[e] == |hs| {
      if e == f {
        CountGain(s, s', f, OfPin(t), hs);
      } else {
        CountSame(s, s', e, hs);
      }
    }
  }

  lemma QueryKeeps(s: State, t: Tid)
    requires Inv(s) && CanMove(s, t, AskRadix)
    ensures Inv(Query(s, t, s.pcs[t]))
  {
    var pc := s.pcs[t];
    var s' := Query(s, t, pc);
    assert PcOk(s, s'.pcs[t]) by {
      Unfold(s);
      assert PcOk(s, pc);
    }
    GotoKeeps(s, t, s'.pcs[t]);
  }

  lemma TakeKeeps(s: State, t: Tid, f: Frame, junk: Content)
    requires Inv(s) && CanMove(s, t, TakeFrame(Some(f), junk))
    ensures Inv(AllocPage(s, t, s.pcs[t], Some(f), junk))
  {
    Unfold(s);
    TakeCells(s, t, f, junk);
    TakeThreads(s, t, f, junk);
    TakeShares(s, t, f, junk);
    Fold(AllocPage(s, t, s.pcs[t], Some(f), junk));
  }

  lemma TakeCells(s: State, t: Tid, f: Frame, junk: Content)
    requires CellsOk(s) && Exclusive(s) && CanMove(s, t, TakeFrame(Some(f), junk))
    ensures var s' := AllocPage(s, t, s.pcs[t], Some(f), junk);
            CellsOk(s') && Exclusive(s') && forall v :: Shows(s, v) ==> Shows(s', v)
  {
    var s' := AllocPage(s, t, s.pcs[t], Some(f), junk);
    forall l | l in s'.cells ensures CellOk(s', l) {
      assert CellOk(s, l);
    }
  }

  lemma TakeThreads(s: State, t: Tid, f: Frame, junk: Content)
    requires CellsOk(s) && ThreadsOk(s) && CanMove(s, t, TakeFrame(Some(f), junk))
    ensures ThreadsOk(AllocPage(s, t, s.pcs[t], Some(f), junk))
  {
    var s' := AllocPage(s, t, s.pcs[t], Some(f), junk);
    assert forall k :: k in s.cells ==> CellOk(s, k);
    forall u | u in s'.pcs ensures PcOk(s', s'.pcs[u]) {
      PcKept(s, s', s.pcs[u]);
    }
    assert forall u :: u in s.pcs ==> PcOk(s, s.pcs[u]);
  }

  lemma TakeShares(s: State, t: Tid, f: Frame, junk: Content)
    requires CellsOk(s) && ThreadsOk(s) && SharesOk(s) && CanMove(s, t, TakeFrame(Some(f), junk))
    ensures SharesOk(AllocPage(s, t, s.pcs[t], Some(f), junk))
  {
    var s' := AllocPage(s, t, s.pcs[t], Some(f), junk);
    forall e, hs | e in s'.refs && AreHolders(hs, s', e) ensures s'.refs[e] == |hs| {
      if e == f {
        assert forall u :: u in s.pcs ==> PcOk(s, s.pcs[u]);
        assert forall k :: k in s.cells ==> CellOk(s, k);
        assert hs == {OfNew(t)};
      } else {
        CountSame(s, s', e, hs);
      }
    }
  }

  lemma CopyKeeps(s: State, t: Tid)
    requires Inv(s) && CanMove(s, t, Copy(true))
    ensures Inv(CopyPage(s, t, s.pcs[t], true))
    ensures forall v :: Shows(s, v) ==> Shows(CopyPage(s, t, s.pcs[t], true), v)
  {
    Unfold(s);
    var s', pc := CopyPage(s, t, s.pcs[t], true), s.pcs[t];
    assert PcOk(s, pc);
    forall l | l in s'.cells ensures CellOk(s', l) {
      assert CellOk(s, l);
    }
    assert Exclusive(s');
    CopyThreads(s, t);
    SharesSame(s, s');
    Fold(s');
  }

  lemma CopyThreads(s: State, t: Tid)
    requires ThreadsOk(s) && CanMove(s, t, Copy(true))
    ensures ThreadsOk(CopyPage(s, t, s.pcs[t], true))
  {
    var s', pc := CopyPage(s, t, s.pcs[t], true), s.pcs[t];
    assert PcOk(s, pc) && OldOf(pc) != NewOf(pc);
    forall u | u in s'.pcs ensures PcOk(s', s'.pcs[u]) {
      if u != t {
        PcKept(s, s', s.pcs[u]);
      }
    }
  }

  // ---- the end of a split

  lemma SwapKeeps(s: State, t: Tid)
    requires Inv(s) && CanMove(s, t, Swap(true)) && RemapFits(s, s.pcs[t])
    ensures Inv(Remap(s, t, s.pcs[t], true))
    ensures forall v :: Shows(s, v) ==> Shows(Remap(s, t, s.pcs[t], true), v)
  {
    Unfold(s);
    SwapCells(s, t);
    SwapThreads(s, t);
    SwapShares(s, t);
    Fold(Remap(s, t, s.pcs[t], true));
  }

  // The pin keeps the old frame alive while the page lets go of it.
  lemma SwapSource(s: State, t: Tid)
    requires SharesOk(s) && CanMove(s, t, Swap(true)) && RemapFits(s, s.pcs[t])
    ensures var s', pc := Remap(s, t, s.pcs[t], true), s.pcs[t];
            && s'.mem == s.mem && s.refs[pc.src] >= 2 && s'.refs == s.refs[pc.src := s.refs[pc.src] - 1]
            && s'.cells == s.cells[pc.key := Installed(pc.dst, SplitFlags(pc.radix))]
            && s'.pcs == s.pcs[t := Unpin(pc.src)] && s'.spaces == s.spaces
  {
    TwoHolders(s, s.pcs[t].src, OfPin(t), OfPage(s.pcs[t].key));
  }

  lemma SwapCells(s: State, t: Tid)
    requires CellsOk(s) && Exclusive(s) && ThreadsOk(s) && SharesOk(s)
    requires CanMove(s, t, Swap(true)) && RemapFits(s, s.pcs[t])
    ensures var s' := Remap(s, t, s.pcs[t], true);
            CellsOk(s') && Exclusive(s') && forall v :: Shows(s, v) ==> Shows(s', v)
  {
    SwapSource(s, t);
    var s', pc := Remap(s, t, s.pcs[t], true), s.pcs[t];
    assert PcOk(s, pc);
    SwapCellsOk(s, s', pc);
    SwapExclusive(s, s', pc);
  }

  ghost predicate SwapsCell(s: State, s': State, pc: Pc) {
    && pc.Copied? && pc.key in s.cells && s'.spaces == s.spaces && s'.mem == s.mem
    && s'.cells == s.cells[pc.key := Installed(pc.dst, SplitFlags(pc.radix))]
    && pc.dst in s.mem && forall k :: k in s.cells ==> s.cells[k].frame != pc.dst
  }

  lemma SwapCellsOk(s: State, s': State, pc: Pc)
    requires CellsOk(s) && SwapsCell(s, s', pc) && s'.refs.Keys == s.refs.Keys
    requires forall f :: f in s'.refs ==> s'.refs[f] > 0
    ensures CellsOk(s')
  {
    forall l | l in s'.cells ensures CellOk(s', l) {
      assert CellOk(s, l);
    }
  }

  lemma SwapExclusive(s: State, s': State, pc: Pc)
    requires Exclusive(s) && SwapsCell(s, s', pc)
    ensures Exclusive(s')
  {
  }

  lemma SwapThreads(s: State, t: Tid)
    requires ThreadsOk(s) && SharesOk(s) && CanMove(s, t, Swap(true)) && RemapFits(s, s.pcs[t])
    ensures ThreadsOk(Remap(s, t, s.pcs[t], true))
  {
    var s', pc := Remap(s, t, s.pcs[t], true), s.pcs[t];
    SwapSource(s, t);
    assert PcOk(s, pc);
    forall u | u in s'.pcs ensures PcOk(s', s'.pcs[u]) {
      if u != t {
        assert Unheld(s.pcs[u], pc.dst);
        PcKept(s, s', s.pcs[u]);
      }
    }
  }

  lemma SwapShares(s: State, t: Tid)
    requires ThreadsOk(s) && SharesOk(s) && CanMove(s, t, Swap(true)) && RemapFits(s, s.pcs[t])
    ensures SharesOk(Remap(s, t, s.pcs[t], true))
  {
    var s', pc := Remap(s, t, s.pcs[t], true), s.pcs[t];
    SwapSource(s, t);
    assert PcOk(s, pc) && pc.src != pc.dst;
    forall e, hs | e in s'.refs && AreHolders(hs, s', e) ensures s'.refs[e] == |hs| {
      SwapCount(s, s', t, pc, e, hs);
    }
  }

  // What the swap does to the holders of one frame
  lemma SwapCount(s: State, s': State, t: Tid, pc: Pc, e: Frame, hs: set<Holder>)
    requires SharesOk(s) && e in s.refs && AreHolders(hs, s', e) && pc.Copied? && t in s.pcs && s.pcs[t] == pc
    requires pc.src != pc.dst && pc.key in s.cells && s.cells[pc.key].frame == pc.src
    requires s'.cells == s.cells[pc.key := Installed(pc.dst, SplitFlags(pc.radix))]
             && s'.pcs == s.pcs[t := Unpin(pc.src)]
    ensures |hs| + (if e == pc.src then 1 else 0) == s.refs[e]
  {
    if e == pc.src {
      assert Gains(s', s, e, OfPage(pc.key));
      CountLoss(s, s', e, OfPage(pc.key), hs);
    } else if e == pc.dst {
      assert Holds(s', OfPage(pc.key), e) && Holds(s, OfNew(t), e);
      assert !Holds(s, OfPage(pc.key), e) && !Holds(s', OfNew(t), e);
      assert AreHolders(hs - {OfPage(pc.key)} + {OfNew(t)}, s, e);
    } else {
      CountSame(s, s', e, hs);
    }
  }

  // Thread t gives back one share of f, which it held as h.
  ghost predicate GivesBack(s: State, t: Tid, f: Frame, h: Holder, pc: Pc) {
    && t in s.pcs && f in s.refs && Holds(s, h, f)
    && (h == OfPin(t) || h == OfNew(t))
    && OldOf(pc) == (if h == OfPin(t) then None else OldOf(s.pcs[t]))
    && NewOf(pc) == (if h == OfNew(t) then None else NewOf(s.pcs[t]))
    && (pc.Idle? || pc.Discard? || pc.Unpin?)
  }

  lemma GiveBackKeeps(s: State, t: Tid, f: Frame, h: Holder, pc: Pc)
    requires Inv(s) && GivesBack(s, t, f, h, pc)
    ensures Inv(Goto(Deref(s, f), t, pc))
    ensures forall v :: Shows(s, v) ==> Shows(Goto(Deref(s, f), t, pc), v)
  {
    Unfold(s);
    var s' := Goto(Deref(s, f), t, pc);
    GiveBackCells(s, t, f, h, pc);
    GiveBackThreads(s, t, f, h, pc);
    GiveBackShares(s, t, f, h, pc);
    Fold(s');
  }

  lemma GiveBackCells(s: State, t: Tid, f: Frame, h: Holder, pc: Pc)
    requires CellsOk(s) && Exclusive(s) && SharesOk(s) && GivesBack(s, t, f, h, pc)
    ensures var s' := Goto(Deref(s, f), t, pc);
            CellsOk(s') && Exclusive(s') && forall v :: Shows(s, v) ==> Shows(s', v)
  {
    var s' := Goto(Deref(s, f), t, pc);
    DerefKeeps(s, f, h);
    forall l | l in s'.cells ensures CellOk(s', l) {
      assert CellOk(s, l);
      assert Holds(s, OfPage(l), s.cells[l].frame);
    }
  }

  lemma GiveBackThreads(s: State, t: Tid, f: Frame, h: Holder, pc: Pc)
    requires CellsOk(s) && ThreadsOk(s) && SharesOk(s) && GivesBack(s, t, f, h, pc)
    ensures ThreadsOk(Goto(Deref(s, f), t, pc))
  {
    var s' := Goto(Deref(s, f), t, pc);
    forall u | u in s'.pcs ensures PcOk(s', s'.pcs[u]) {
      GiveBackThread(s, t, f, h, pc, u);
    }
  }

  lemma GiveBackThread(s: State, t: Tid, f: Frame, h: Holder, pc: Pc, u: Tid)
    requires s.refs.Keys == s.mem.Keys && SharesOk(s) && GivesBack(s, t, f, h, pc) && u in s.pcs && PcOk(s, s.pcs[u])
    ensures PcOk(Goto(Deref(s, f), t, pc), if u == t then pc else s.pcs[u])
  {
    var s' := Goto(Deref(s, f), t, pc);
    DerefKeeps(s, f, h);
    assert OldOf(s.pcs[u]).Some? ==> Holds(s, OfPin(u), OldOf(s.pcs[u]).value);
    assert NewOf(s.pcs[u]).Some? ==> Holds(s, OfNew(u), NewOf(s.pcs[u]).value);
    if u != t {
      PcKept(s, s', s.pcs[u]);
    }
  }

  lemma GiveBackShares(s: State, t: Tid, f: Frame, h: Holder, pc: Pc)
    requires SharesOk(s) && GivesBack(s, t, f, h, pc)
    ensures SharesOk(Goto(Deref(s, f), t, pc))
  {
    var s' := Goto(Deref(s, f), t, pc);
    assert Gains(s', s, f, h);
    DerefShares(s, s', f, h);
  }

  lemma FreeKeeps(s: State, t: Tid)
    requires Inv(s) && CanMove(s, t, GiveBack)
    ensures Inv(Free(s, t, s.pcs[t]))
    ensures forall v :: Shows(s, v) ==> Shows(Free(s, t, s.pcs[t]), v)
  {
    match s.pcs[t] {
      case CopyFailed(src, dst) => if dst in s.refs { GiveBackKeeps(s, t, dst, OfNew(t), Unpin(src)); }
      case RemapFailed(src, dst) => if src in s.refs { GiveBackKeeps(s, t, src, OfPin(t), Discard(dst)); }
      case Discard(dst) => if dst in s.refs { GiveBackKeeps(s, t, dst, OfNew(t), Idle); }
      case Unpin(src) => if src in s.refs { GiveBackKeeps(s, t, src, OfPin(t), Idle); }
    }
  }

  lemma MoveKeeps(s: State, t: Tid, m: Move)
    requires Inv(s) && CanMove(s, t, m)
    ensures Inv(Advance(s, t, m))
  {
    match m {
      case Pin(k) => PinKeeps(s, t, k);
      case AskRadix => QueryKeeps(s, t);
      case TakeFrame(f, junk) =>
        if f.Some? {
          TakeKeeps(s, t, f.value, junk);
        } else {
          ThreadOk(s, t);
          GotoKeeps(s, t, Unpin(s.pcs[t].src));
        }
      case Copy(ok) =>
        if ok {
          CopyKeeps(s, t);
        } else {
          ThreadOk(s, t);
          GotoKeeps(s, t, CopyFailed(s.pcs[t].src, s.pcs[t].dst));
        }
      case Swap(ok) =>
        if ok && RemapFits(s, s.pcs[t]) {
          SwapKeeps(s, t);
        } else {
          ThreadOk(s, t);
          GotoKeeps(s, t, RemapFailed(s.pcs[t].src, s.pcs[t].dst));
        }
      case GiveBack => FreeKeeps(s, t);
    }
  }

  lemma ThreadOk(s: State, t: Tid)
    requires Inv(s) && t in s.pcs
    ensures PcOk(s, s.pcs[t])
  {
    Unfold(s);
  }

  // A split changes no byte that any space reads, at any of its steps.
  lemma MoveShows(s: State, t: Tid, m: Move, v: Views)
    requires Inv(s) && CanMove(s, t, m) && Shows(s, v)
    ensures Shows(Advance(s, t, m), v)
  {
    match m {
      case Pin(k) =>
      case AskRadix =>
      case TakeFrame(f, junk) =>
        if f.Some? {
          Unfold(s);
          TakeCells(s, t, f.value, junk);
        }
      case Copy(ok) =>
        if ok {
          CopyKeeps(s, t);
        }
      case Swap(ok) =>
        if ok && RemapFits(s, s.pcs[t]) {
          SwapKeeps(s, t);
        }
      case GiveBack => FreeKeeps(s, t);
    }
  }

  lemma StepKeeps(s: State, step: Step)
    requires Inv(s) && Enabled(s, step)
    ensures Inv(Apply(s, step))
  {
    match step {
      case Map(k, f, flags) => MapKeeps(s, k, f, flags);
      case Unmap(k) => UnmapKeeps(s, k);
      case Clone(parent, child) => ForkKeeps(s, parent, child);
      case Write(k, off, b) => WriteKeeps(s, k, off, b);
      case LosePte(k) => PteKeeps(s, k, None);
      case FixPte(k) => ReinstallKeeps(s, k);
      case Start(t) => StartKeeps(s, t);
      case Split(t, m) => MoveKeeps(s, t, m);
    }
  }

  // Shared frames behave like private bytes.
  lemma StepShows(s: State, step: Step, v: Views)
    requires Inv(s) && Enabled(s, step) && Shows(s, v)
    ensures Shows(Apply(s, step), Private(v, step))
  {
    match step {
      case Map(k, f, flags) => MapShows(s, v, k, f, flags);
      case Unmap(k) => UnmapKeeps(s, k);
      case Clone(parent, child) => ForkShows(s, v, parent, child);
      case Write(k, off, b) => WriteKeeps(s, k, off, b);
      case LosePte(k) => PteKeeps(s, k, None);
      case FixPte(k) => ReinstallKeeps(s, k);
      case Start(t) =>
      case Split(t, m) => MoveShows(s, t, m, v);
    }
  }
}
