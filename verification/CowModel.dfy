/**
 Copy-on-write memory: address spaces that share frames after fork, and the
 split that gives a writer its own copy.

 Every lock section of linux_mm_cow_split_page is one step, so any number of
 threads may be splitting, forking, storing and unmapping at the same time.
 */
module CowModel {
  import opened Common
  import opened Wrappers
  import opened Bytes

  type Frame = nat
  type Tid = nat
  type Space = nat
  type Content = seq<Byte>

  function ZeroPage(): Content { Zeros(PAGE_SIZE) }

  datatype Flags = Flags(valid: bool, read: bool, write: bool, exec: bool, cow: bool, lazy: bool, remap: bool)

  // entry_flags_rm_sw_flags: without the bits the page table does not have
  function Hard(f: Flags): Flags { f.(cow := false, lazy := false, remap := false) }

  // linux_mm_leaf_pte_flags
  function LeafPteFlags(f: Flags): Flags {
    var pte := Hard(f);
    var pte := if pte.valid then pte else pte.(valid := true);
    if f.cow then pte.(write := false) else pte
  }

  // The flags of a page after its split: the radix tree is the truth about permissions
  function SplitFlags(radix: Flags): Flags {
    Hard(radix).(valid := true, write := true, read := true)
  }

  datatype Key = Key(space: Space, page: nat)
  datatype Pte = Pte(frame: Frame, flags: Flags)

  // A user page: its radix leaf (frame and flags) and its page-table entry
  datatype Cell = Cell(frame: Frame, flags: Flags, pte: Option<Pte>)

  // Where a thread is in linux_mm_cow_split_page
  datatype Pc =
    | Idle
    | Pinned(key: Key, src: Frame, pt: Flags)
    | Queried(key: Key, src: Frame, radix: Flags)
    | Holding(key: Key, src: Frame, radix: Flags, dst: Frame)
    | Copied(key: Key, src: Frame, radix: Flags, dst: Frame)
    | CopyFailed(src: Frame, dst: Frame)
    | RemapFailed(src: Frame, dst: Frame)
    | Discard(dst: Frame)
    | Unpin(src: Frame)

  function OldOf(pc: Pc): Option<Frame> {
    if pc.Idle? || pc.Discard? then None else Some(pc.src)
  }

  function NewOf(pc: Pc): Option<Frame> {
    match pc
    case Holding(_, _, _, n) => Some(n)
    case Copied(_, _, _, n) => Some(n)
    case CopyFailed(_, n) => Some(n)
    case RemapFailed(_, n) => Some(n)
    case Discard(n) => Some(n)
    case _ => None
  }

  datatype State = State(
    spaces: set<Space>,          // every space there has been
    cells: map<Key, Cell>,
    mem: map<Frame, Content>,    // allocated frames
    refs: map<Frame, nat>,
    pcs: map<Tid, Pc>)

  // pmm_free: drop one share, and the frame with the last one
  function Deref(s: State, f: Frame): State
    requires f in s.refs
  {
    if s.refs[f] <= 1 then s.(refs := s.refs - {f}, mem := s.mem - {f})
    else s.(refs := s.refs[f := s.refs[f] - 1])
  }

  function Alloc(s: State, f: Frame, c: Content): State {
    s.(mem := s.mem[f := c], refs := s.refs[f := 1])
  }

  function Goto(s: State, t: Tid, pc: Pc): State { s.(pcs := s.pcs[t := pc]) }

  // ---- outside a split

  function Installed(f: Frame, flags: Flags): Cell {
    Cell(f, flags, Some(Pte(f, LeafPteFlags(flags))))
  }

  // mm_user_utils_set_range_and_fill, one page
  function MapPage(s: State, k: Key, f: Frame, flags: Flags): State {
    Alloc(s, f, ZeroPage()).(spaces := s.spaces + {k.space}, cells := s.cells[k := Installed(f, flags)])
  }

  // mm_user_utils_clean_range_and_unfill, one page
  function UnmapPage(s: State, k: Key): State
    requires k in s.cells && s.cells[k].frame in s.refs
  {
    Deref(s, s.cells[k].frame).(cells := s.cells - {k})
  }

  // clone_vspace(COW_PREP): the page table loses WRITE, the radix leaf keeps it
  // and gains COW
  function Shared(c: Cell): Cell {
    c.(flags := c.flags.(cow := true),
       pte := if c.pte.Some? then Some(c.pte.value.(flags := c.pte.value.flags.(write := false))) else None)
  }

  function ForkCells(s: State, parent: Space, child: Space): map<Key, Cell>
    requires forall k :: k in s.cells ==> k.space != child
  {
    var copies := set k | k in s.cells && k.space == parent :: Key(child, k.page);
    map k | k in s.cells.Keys + copies ::
      if k.space == child then Shared(s.cells[Key(parent, k.page)])
      else if k.space == parent then Shared(s.cells[k])
      else s.cells[k]
  }

  predicate MappedIn(s: State, space: Space, f: Frame) {
    exists k :: k in s.cells && k.space == space && s.cells[k].frame == f
  }

  function Fork(s: State, parent: Space, child: Space): State
    requires forall k :: k in s.cells ==> k.space != child
  {
    s.(spaces := s.spaces + {child},
       cells := ForkCells(s, parent, child),
       refs := map f | f in s.refs :: s.refs[f] + if MappedIn(s, parent, f) then 1 else 0)
  }

  // A user store; the hardware asks the page table
  predicate CanStore(s: State, k: Key, off: nat) {
    && k in s.cells && s.cells[k].pte.Some? && off < PAGE_SIZE
    && s.cells[k].pte.value.flags.valid && s.cells[k].pte.value.flags.write
    && s.cells[k].pte.value.frame in s.mem && |s.mem[s.cells[k].pte.value.frame]| == PAGE_SIZE
  }

  function Store(s: State, k: Key, off: nat, b: Byte): State
    requires CanStore(s, k, off)
  {
    var f := s.cells[k].pte.value.frame;
    s.(mem := s.mem[f := s.mem[f][off := b]])
  }

  // linux_mm_reinstall_user_pte: the frame of the page table if it has one, or
  // that of the leaf
  function Reinstall(s: State, k: Key): State
    requires k in s.cells
  {
    var c := s.cells[k];
    if !c.flags.valid then s
    else
      var f := if c.pte.Some? && c.pte.value.flags.valid then c.pte.value.frame else c.frame;
      s.(cells := s.cells[k := c.(pte := Some(Pte(f, LeafPteFlags(c.flags))))])
  }

  // ---- linux_mm_cow_split_page

  // have_mapped with a pin
  function PinPage(s: State, t: Tid, k: Key): State {
    if k in s.cells && s.cells[k].pte.Some? && s.cells[k].pte.value.frame in s.refs
        && s.cells[k].pte.value.flags.valid then
      var p := s.cells[k].pte.value;
      Goto(s, t, Pinned(k, p.frame, p.flags)).(refs := s.refs[p.frame := s.refs[p.frame] + 1])
    else s
  }

  function Query(s: State, t: Tid, pc: Pc): State
    requires pc.Pinned?
  {
    if pc.pt.write || pc.key !in s.cells || !s.cells[pc.key].flags.write then Goto(s, t, Unpin(pc.src))
    else Goto(s, t, Queried(pc.key, pc.src, s.cells[pc.key].flags))
  }

  function AllocPage(s: State, t: Tid, pc: Pc, f: Option<Frame>, junk: Content): State
    requires pc.Queried?
  {
    match f
    case None => Goto(s, t, Unpin(pc.src))
    case Some(n) => Goto(Alloc(s, n, junk), t, Holding(pc.key, pc.src, pc.radix, n))
  }

  function CopyPage(s: State, t: Tid, pc: Pc, ok: bool): State
    requires pc.Holding? && pc.src in s.mem
  {
    if ok then Goto(s.(mem := s.mem[pc.dst := s.mem[pc.src]]), t, Copied(pc.key, pc.src, pc.radix, pc.dst))
    else Goto(s, t, CopyFailed(pc.src, pc.dst))
  }

  // linux_mm_remap_user_leaf fails when the page no longer maps the expected frame
  predicate RemapFits(s: State, pc: Pc)
    requires pc.Copied?
  {
    pc.key in s.cells && s.cells[pc.key].frame == pc.src && s.cells[pc.key].pte.Some?
    && s.cells[pc.key].pte.value.frame == pc.src && pc.src in s.refs
  }

  function Remap(s: State, t: Tid, pc: Pc, ok: bool): State
    requires pc.Copied?
  {
    if ok && RemapFits(s, pc) then
      Goto(Deref(s, pc.src).(cells := s.cells[pc.key := Installed(pc.dst, SplitFlags(pc.radix))]), t, Unpin(pc.src))
    else Goto(s, t, RemapFailed(pc.src, pc.dst))
  }

  // The frees at the end of each path
  function Free(s: State, t: Tid, pc: Pc): State
    requires pc.CopyFailed? || pc.RemapFailed? || pc.Discard? || pc.Unpin?
  {
    match pc
    case CopyFailed(src, dst) => if dst in s.refs then Goto(Deref(s, dst), t, Unpin(src)) else s
    case RemapFailed(src, dst) => if src in s.refs then Goto(Deref(s, src), t, Discard(dst)) else s
    case Discard(dst) => if dst in s.refs then Goto(Deref(s, dst), t, Idle) else s
    case Unpin(src) => if src in s.refs then Goto(Deref(s, src), t, Idle) else s
  }

  datatype Move =
    | Pin(key: Key)
    | AskRadix
    | TakeFrame(frame: Option<Frame>, junk: Content)
    | Copy(copied: bool)
    | Swap(locked: bool)
    | GiveBack

  predicate CanMove(s: State, t: Tid, m: Move) {
    && t in s.pcs
    && match m
       case Pin(k) => s.pcs[t].Idle?
       case AskRadix => s.pcs[t].Pinned?
       case TakeFrame(f, junk) => s.pcs[t].Queried? && (f.Some? ==> f.value !in s.mem) && |junk| == PAGE_SIZE
       case Copy(_) => s.pcs[t].Holding? && s.pcs[t].src in s.mem
       case Swap(_) => s.pcs[t].Copied?
       case GiveBack => s.pcs[t].CopyFailed? || s.pcs[t].RemapFailed? || s.pcs[t].Discard? || s.pcs[t].Unpin?
  }

  function Advance(s: State, t: Tid, m: Move): State
    requires CanMove(s, t, m)
  {
    match m
    case Pin(k) => PinPage(s, t, k)
    case AskRadix => Query(s, t, s.pcs[t])
    case TakeFrame(f, junk) => AllocPage(s, t, s.pcs[t], f, junk)
    case Copy(ok) => CopyPage(s, t, s.pcs[t], ok)
    case Swap(ok) => Remap(s, t, s.pcs[t], ok)
    case GiveBack => Free(s, t, s.pcs[t])
  }

  datatype Step =
    | Map(k: Key, frame: Frame, flags: Flags)
    | Unmap(k: Key)
    | Clone(parent: Space, child: Space)
    | Write(k: Key, off: nat, b: Byte)
    | LosePte(k: Key)
    | FixPte(k: Key)
    | Start(t: Tid)
    | Split(t: Tid, move: Move)

  predicate Enabled(s: State, step: Step) {
    match step
    case Map(k, f, flags) => k !in s.cells && f !in s.mem && flags.valid && !flags.cow
    case Unmap(k) => k in s.cells && s.cells[k].frame in s.refs
    case Clone(parent, child) =>
      parent in s.spaces && child !in s.spaces && forall k :: k in s.cells ==> k.space != child
    case Write(k, off, _) => CanStore(s, k, off)
    case LosePte(k) => k in s.cells
    case FixPte(k) => k in s.cells
    case Start(t) => t !in s.pcs
    case Split(t, m) => CanMove(s, t, m)
  }

  function Apply(s: State, step: Step): State
    requires Enabled(s, step)
  {
    match step
    case Map(k, f, flags) => MapPage(s, k, f, flags)
    case Unmap(k) => UnmapPage(s, k)
    case Clone(parent, child) => Fork(s, parent, child)
    case Write(k, off, b) => Store(s, k, off, b)
    case LosePte(k) => s.(cells := s.cells[k := s.cells[k].(pte := None)])
    case FixPte(k) => Reinstall(s, k)
    case Start(t) => Goto(s, t, Idle)
    case Split(t, m) => Advance(s, t, m)
  }

  const INITIAL := State({}, map[], map[], map[], map[])

  predicate IsRun(run: seq<State>, steps: seq<Step>) {
    && |run| == |steps| + 1 && run[0] == INITIAL
    && forall i :: 0 <= i < |steps| ==> Enabled(run[i], steps[i]) && run[i + 1] == Apply(run[i], steps[i])
  }

  // ---- the reference: every space has bytes of its own, fork copies them all

  type Views = map<Key, Content>

  // v is what the spaces of s read.
  ghost predicate Shows(s: State, v: Views) {
    && v.Keys == s.cells.Keys
    && forall k :: k in s.cells ==> s.cells[k].frame in s.mem && v[k] == s.mem[s.cells[k].frame]
  }

  function ForkBytes(v: Views, parent: Space, child: Space): Views {
    var copies := set k | k in v && k.space == parent :: Key(child, k.page);
    map k | k in v.Keys + copies :: if k in v then v[k] else v[Key(parent, k.page)]
  }

  function Private(v: Views, step: Step): Views {
    match step
    case Map(k, _, _) => v[k := ZeroPage()]
    case Unmap(k) => v - {k}
    case Clone(parent, child) => ForkBytes(v, parent, child)
    case Write(k, off, b) => if k in v && off < |v[k]| then v[k := v[k][off := b]] else v
    case _ => v
  }
}
