/**
 What every step keeps: where frames are, who may write them, what a split in
 progress knows, and how many shares each frame has.
 */
module CowProofs {
  import opened Common
  import opened Wrappers
  import opened CowModel

  // The write permission a page has for good: no split needed.
  predicate Owned(c: Cell) { c.flags.write && !c.flags.cow }

  ghost predicate CellOk(s: State, k: Key)
    requires k in s.cells
  {
    var c := s.cells[k];
    && k.space in s.spaces
    && c.frame in s.mem
    && c.flags.valid
    && (c.pte.Some? ==> c.pte.value.frame == c.frame && c.pte.value.flags.valid
                        && (c.pte.value.flags.write <==> Owned(c)))
  }

  ghost predicate CellsOk(s: State) {
    && (forall k :: k in s.cells ==> CellOk(s, k))
    && s.refs.Keys == s.mem.Keys
    && (forall f :: f in s.refs ==> s.refs[f] > 0)
    && (forall f :: f in s.mem ==> |s.mem[f]| == PAGE_SIZE)
  }

  // An owned page shares its frame with no page, and no space maps a frame twice.
  ghost predicate Exclusive(s: State) {
    forall k, l :: k in s.cells && l in s.cells && k != l && s.cells[k].frame == s.cells[l].frame ==>
      !Owned(s.cells[k]) && k.space != l.space
  }

  // Nobody can change the bytes of this frame.
  ghost predicate Frozen(s: State, f: Frame) {
    forall k :: k in s.cells && s.cells[k].frame == f ==> !Owned(s.cells[k])
  }

  predicate SamePerms(f: Flags, g: Flags) {
    f.valid == g.valid && f.read == g.read && f.write == g.write && f.exec == g.exec
  }

  // What a thread knows about the page it is splitting, if that page still maps src
  ghost predicate Knows(s: State, key: Key, src: Frame, radix: Flags) {
    && key.space in s.spaces && radix.write && Frozen(s, src)
    && (key in s.cells && s.cells[key].frame == src ==> SamePerms(s.cells[key].flags, radix))
  }

  ghost predicate PcOk(s: State, pc: Pc) {
    && (OldOf(pc).Some? ==> OldOf(pc).value in s.mem)
    && (NewOf(pc).Some? ==>
          NewOf(pc).value in s.mem && forall k :: k in s.cells ==> s.cells[k].frame != NewOf(pc).value)
    && match pc
       case Pinned(key, src, pt) => key.space in s.spaces && (!pt.write ==> Frozen(s, src))
       case Queried(key, src, radix) => Knows(s, key, src, radix)
       case Holding(key, src, radix, _) => Knows(s, key, src, radix)
       case Copied(key, src, radix, dst) => Knows(s, key, src, radix) && s.mem[dst] == s.mem[src]
       case _ => true
  }

  // The new frame of a split belongs to that split alone.
  ghost predicate NewIsPrivate(s: State) {
    && (forall t, u :: t in s.pcs && u in s.pcs && NewOf(s.pcs[t]).Some? ==> OldOf(s.pcs[u]) != NewOf(s.pcs[t]))
    && (forall t, u :: t in s.pcs && u in s.pcs && t != u && NewOf(s.pcs[t]).Some? ==>
        NewOf(s.pcs[u]) != NewOf(s.pcs[t]))
  }

  ghost predicate ThreadsOk(s: State) {
    NewIsPrivate(s) && forall t :: t in s.pcs ==> PcOk(s, s.pcs[t])
  }

  // ---- shares

  datatype Holder = OfPage(key: Key) | OfPin(tid: Tid) | OfNew(tid: Tid)

  predicate Holds(s: State, h: Holder, f: Frame) {
    match h
    case OfPage(k) => k in s.cells && s.cells[k].frame == f
    case OfPin(t) => t in s.pcs && OldOf(s.pcs[t]) == Some(f)
    case OfNew(t) => t in s.pcs && NewOf(s.pcs[t]) == Some(f)
  }

  ghost predicate AreHolders(hs: set<Holder>, s: State, f: Frame) {
    forall h :: h in hs <==> Holds(s, h, f)
  }

  // A frame has exactly as many shares as holders.
  ghost predicate SharesOk(s: State) {
    forall f, hs :: f in s.refs && AreHolders(hs, s, f) ==> s.refs[f] == |hs|
  }

  ghost function Holders(s: State, f: Frame): (hs: set<Holder>)
    ensures AreHolders(hs, s, f)
  {
    (set k | k in s.cells && s.cells[k].frame == f :: OfPage(k))
    + (set t | t in s.pcs && OldOf(s.pcs[t]) == Some(f) :: OfPin(t))
    + (set t | t in s.pcs && NewOf(s.pcs[t]) == Some(f) :: OfNew(t))
  }

  datatype Part = PCells | PExclusive | PThreads | PShares

  ghost predicate Keeps(part: Part, s: State) {
    match part
    case PCells => CellsOk(s)
    case PExclusive => Exclusive(s)
    case PThreads => ThreadsOk(s)
    case PShares => SharesOk(s)
  }

  ghost predicate Inv(s: State) { forall part :: Keeps(part, s) }

  lemma Unfold(s: State)
    requires Inv(s)
    ensures CellsOk(s) && Exclusive(s) && ThreadsOk(s) && SharesOk(s)
  {
    assert Keeps(PCells, s) && Keeps(PExclusive, s) && Keeps(PThreads, s) && Keeps(PShares, s);
  }

  lemma Fold(s: State)
    requires CellsOk(s) && Exclusive(s) && ThreadsOk(s) && SharesOk(s)
    ensures Inv(s)
  {
  }

  // ---- how shares change

  // The holders of f are the same and so is its count.
  lemma SharesSame(s: State, s': State)
    requires SharesOk(s) && s'.refs == s.refs
    requires forall h, f :: f in s.refs ==> (Holds(s', h, f) <==> Holds(s, h, f))
    ensures SharesOk(s')
  {
    forall f, hs | f in s'.refs && AreHolders(hs, s', f) ensures s'.refs[f] == |hs| {
      assert AreHolders(hs, s, f);
    }
  }

  // The only difference between two sets of holders of f is h.
  ghost predicate Gains(s: State, s': State, f: Frame, h: Holder) {
    && !Holds(s, h, f) && Holds(s', h, f)
    && forall g :: g != h ==> (Holds(s', g, f) <==> Holds(s, g, f))
  }

  lemma CountGain(s: State, s': State, f: Frame, h: Holder, hs: set<Holder>)
    requires SharesOk(s) && f in s.refs && Gains(s, s', f, h) && AreHolders(hs, s', f)
    ensures |hs| == s.refs[f] + 1
  {
    assert AreHolders(hs - {h}, s, f);
  }

  lemma CountLoss(s: State, s': State, f: Frame, h: Holder, hs: set<Holder>)
    requires SharesOk(s) && f in s.refs && Gains(s', s, f, h) && AreHolders(hs, s', f)
    ensures |hs| + 1 == s.refs[f]
  {
    assert AreHolders(hs + {h}, s, f);
  }

  lemma CountSame(s: State, s': State, f: Frame, hs: set<Holder>)
    requires SharesOk(s) && f in s.refs && AreHolders(hs, s', f)
    requires forall h :: Holds(s', h, f) <==> Holds(s, h, f)
    ensures |hs| == s.refs[f]
  {
    assert AreHolders(hs, s, f);
  }

  // Two different holders: the count is at least two.
  lemma TwoHolders(s: State, f: Frame, h: Holder, g: Holder)
    requires SharesOk(s) && f in s.refs && Holds(s, h, f) && Holds(s, g, f) && h != g
    ensures s.refs[f] >= 2
  {
    var hs := Holders(s, f);
    assert h in hs && g in hs;
    assert |{h, g}| == 2 && {h, g} <= hs;
    SubsetSize({h, g}, hs);
  }

  lemma SubsetSize(a: set<Holder>, b: set<Holder>)
    requires a <= b
    ensures |a| <= |b|
  {
    assert b == a + (b - a);
  }

  // h is the only holder exactly when the count is one.
  lemma LastHolder(s: State, f: Frame, h: Holder)
    requires SharesOk(s) && f in s.refs && s.refs[f] <= 1 && Holds(s, h, f)
    ensures forall g :: Holds(s, g, f) ==> g == h
  {
    forall g | Holds(s, g, f) ensures g == h {
      if g != h {
        TwoHolders(s, f, h, g);
      }
    }
  }

  // Dropping one share of f together with its holder h, in a step from s to s'.
  lemma DerefShares(s: State, s': State, f: Frame, h: Holder)
    requires SharesOk(s) && f in s.refs && s'.refs == Deref(s, f).refs && Gains(s', s, f, h)
    requires forall e, g :: e in s.refs && e != f ==> (Holds(s', g, e) <==> Holds(s, g, e))
    ensures SharesOk(s')
  {
    forall e, hs | e in s'.refs && AreHolders(hs, s', e) ensures s'.refs[e] == |hs| {
      if e == f {
        CountLoss(s, s', f, h, hs);
      } else {
        CountSame(s, s', e, hs);
      }
    }
  }

  // ---- frames and threads under a change of cells

  // What is left of f after one share is dropped
  lemma DerefKeeps(s: State, f: Frame, h: Holder)
    requires SharesOk(s) && f in s.refs && s.refs.Keys == s.mem.Keys && Holds(s, h, f)
    ensures var s' := Deref(s, f);
            && s'.refs.Keys == s'.mem.Keys
            && (forall e :: e in s'.mem ==> e in s.mem && s'.mem[e] == s.mem[e])
            && (forall e :: e in s.mem && e != f ==> e in s'.mem)
            && (forall e :: e in s'.refs && s.refs[e] > 0 ==> s'.refs[e] > 0)
            && (forall e, g :: g != h && e in s.mem && Holds(s, g, e) ==> e in s'.mem)
            && s'.cells == s.cells && s'.pcs == s.pcs && s'.spaces == s.spaces
  {
    if s.refs[f] <= 1 {
      LastHolder(s, f, h);
    }
  }
}
