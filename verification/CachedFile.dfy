/**
 One file of the RAM file system with its page cache entry, as values: what a read,
 a write, a truncate and a flush do to it, seen through a handle that has its own
 copy of the size.  The code compares with that copy, not with the file.
 */
module CachedFile {
  import opened Common
  import opened Wrappers
  import opened Bytes

  const MAX_CACHED: nat := 262144
  const MAX_FILE: nat := 262144

  // ramfs_entry_t: a buffer of some capacity, of which size bytes count
  datatype Ram = Ram(data: Buf, size: nat)

  // vfs_pcache_entry_t: whole pages, of which size bytes count
  datatype View = View(bytes: Buf, size: nat, dirty: bool)

  datatype Cell = Cell(file: Ram, view: Option<View>)

  predicate RamOk(f: Ram) { f.size <= |f.data| }

  // What a read of the whole file gives
  function Content(f: Ram): Buf
    requires RamOk(f)
  {
    f.data[..f.size]
  }

  predicate ViewOk(v: View, f: Ram) { v.size <= |v.bytes| && v.size <= |f.data| }

  function Cached(v: View): Buf
    requires v.size <= |v.bytes|
  {
    v.bytes[..v.size]
  }

  // What always holds: sizes are within the buffers.
  predicate Sane(c: Cell) { RamOk(c.file) && (c.view.Some? ==> ViewOk(c.view.value, c.file)) }

  // What holds as long as all goes well: the entry is the file.
  predicate Coherent(c: Cell) {
    Sane(c) && (c.view.Some? ==> c.view.value.size == c.file.size && Cached(c.view.value) == Content(c.file))
  }

  // What the outside world decides: which entry is the victim of an eviction,
  // whether there is a slot and memory, whether a copy out of a slice works, and
  // what new memory holds
  datatype Luck = Luck(victim: string, slot: bool, memory: bool, copies: bool, junk: nat -> Byte)

  // ---- flush and drop

  // vfs_pcache_flush_entry of a dirty entry: bytes and size of the entry go to the file
  function Flushed(v: View, f: Ram): Ram
    requires ViewOk(v, f)
  {
    Ram(Cached(v) + f.data[v.size..], v.size)
  }

  // A flush changes nothing exactly if the entry is the file.
  lemma FlushIsIdentityIff(v: View, f: Ram)
    requires RamOk(f) && ViewOk(v, f)
    ensures Flushed(v, f) == f <==> Coherent(Cell(f, Some(v)))
    ensures RamOk(Flushed(v, f)) && Content(Flushed(v, f)) == Cached(v) && |Flushed(v, f).data| == |f.data|
  {
    var g := Flushed(v, f);
    assert g.data[..v.size] == Cached(v);
    if v.size == f.size && Cached(v) == Content(f) {
      assert f.data == f.data[..f.size] + f.data[f.size..];
    }
  }

  // vfs_pcache_flush_entry: a dirty entry goes to the file, unless the copy fails
  function Cleaned(c: Cell, copies: bool): Cell
    requires Sane(c)
  {
    if c.view.None? || !c.view.value.dirty || !copies then c
    else Cell(Flushed(c.view.value, c.file), Some(c.view.value.(dirty := false)))
  }

  // vfs_pcache_evict_one with this entry as its victim
  function Evicted(c: Cell, copies: bool): Cell
    requires Sane(c)
  {
    if c.view.Some? && c.view.value.dirty && !copies then c else Cell(Cleaned(c, copies).file, None)
  }

  // Both leave a coherent file as it is, and only a dirty entry can change one.
  lemma FlushedCell(c: Cell, copies: bool)
    requires Sane(c)
    ensures Sane(Cleaned(c, copies)) && Sane(Evicted(c, copies))
    ensures Evicted(c, copies).file == Cleaned(c, copies).file
    ensures |Cleaned(c, copies).file.data| == |c.file.data|
    ensures Cleaned(c, copies).file == c.file <==>
            Coherent(c) || c.view.None? || !c.view.value.dirty || !copies
    ensures Coherent(c) ==> Coherent(Cleaned(c, copies)) && Coherent(Evicted(c, copies))
  {
    if c.view.Some? {
      FlushIsIdentityIff(c.view.value, c.file);
    }
  }

  // vfs_page_cache_drop once the file is h
  function Dropped(view: Option<View>, h: Ram, copies: bool): Cell
    requires view.Some? ==> ViewOk(view.value, h)
  {
    Cell(if view.Some? && view.value.dirty && copies then Flushed(view.value, h) else h, None)
  }

  // ---- growth

  // The loop of ramfs_grow
  function Doubled(cap: nat, need: nat): (r: nat)
    requires 0 < cap <= MAX_FILE && need <= MAX_FILE
    ensures need <= r <= MAX_FILE && cap <= r
    decreases MAX_FILE - cap
  {
    if cap >= need then cap else Doubled(Min(2 * cap, MAX_FILE), need)
  }

  // The capacity after room for need bytes was made
  function Capacity(cap: nat, need: nat): (r: nat)
    requires cap <= MAX_FILE && need <= MAX_FILE
    ensures need <= r && cap <= r <= MAX_FILE
  {
    if need <= cap then cap else Doubled(if cap > 0 then cap else 64, need)
  }

  lemma {:induction false} DoubledTwice(cap: nat, a: nat, b: nat)
    requires 0 < cap <= MAX_FILE && a <= b <= MAX_FILE
    ensures Doubled(Doubled(cap, a), b) == Doubled(cap, b)
    decreases MAX_FILE - cap
  {
    if cap < a {
      DoubledTwice(Min(2 * cap, MAX_FILE), a, b);
    }
  }

  // Growing in two steps is growing at once.
  lemma CapacityTwice(cap: nat, a: nat, b: nat)
    requires cap <= MAX_FILE && a <= b <= MAX_FILE
    ensures Capacity(Capacity(cap, a), b) == Capacity(cap, b)
  {
    if a > cap {
      DoubledTwice(if cap > 0 then cap else 64, a, b);
    }
  }

  // A new buffer of n bytes with the content of f; the rest is what the memory held.
  function Moved(f: Ram, n: nat, junk: nat -> Byte): (g: Ram)
    requires RamOk(f) && f.size <= n
    ensures |g.data| == n && g.size == f.size && RamOk(g) && Content(g) == Content(f)
    ensures forall j :: f.size <= j < n ==> g.data[j] == junk(j)
  {
    Ram(f.data[..f.size] + seq(n - f.size, i requires 0 <= i => junk(f.size + i)), f.size)
  }

  // ramfs_grow
  function Grown(f: Ram, need: nat, luck: Luck): Option<Ram>
    requires RamOk(f) && |f.data| <= MAX_FILE && need <= MAX_FILE
  {
    if need <= |f.data| then Some(f)
    else if !luck.memory then None
    else Some(Moved(f, Capacity(|f.data|, need), luck.junk))
  }

  // ---- write

  // ramfs_write once there is room
  function Stored(f: Ram, off: nat, buf: Buf): Ram
    requires off + |buf| <= |f.data|
  {
    Ram(Splice(f.data, off, buf), Max(f.size, off + |buf|))
  }

  // The bytes of the write are there, the others of the old content are kept, and
  // the file has grown if need be.  A gap between the two is unspecified.
  ghost predicate Written(v: Buf, v': Buf, off: nat, buf: Buf) {
    && |v'| == Max(|v|, off + |buf|)
    && v'[off..off + |buf|] == buf
    && (forall i :: 0 <= i < |v| && (i < off || off + |buf| <= i) ==> v'[i] == v[i])
  }

  lemma StoredIsWritten(f: Ram, g: Ram, off: nat, buf: Buf)
    requires RamOk(f) && RamOk(g) && Content(g) == Content(f) && off + |buf| <= |g.data|
    ensures RamOk(Stored(g, off, buf)) && Written(Content(f), Content(Stored(g, off, buf)), off, buf)
  {
    var h := Stored(g, off, buf);
    var v := Content(h);
    SliceOfPrefix(h.data, h.size, off, off + |buf|);
    assert h.data[off..off + |buf|] == buf;
    forall i | 0 <= i < |Content(f)| && (i < off || off + |buf| <= i) ensures v[i] == Content(f)[i] {
      assert Content(f)[i] == Content(g)[i];
    }
  }

  // vfs_pcache_write_entry: the part of the write that lies inside the entry
  function Synced(v: View, off: nat, buf: Buf): View
    requires v.size <= |v.bytes|
  {
    if off >= v.size || buf == [] then v
    else v.(bytes := Splice(v.bytes, off, buf[..Min(|buf|, v.size - off)]), dirty := true)
  }

  // vfs_backend_ramfs_write with the size the handle believes in: the new state and
  // the size it believes in then
  function Wrote(c: Cell, believed: nat, off: nat, buf: Buf, luck: Luck): Option<(Cell, nat)>
    requires Sane(c) && |c.file.data| <= MAX_FILE
  {
    if buf == [] then Some((Settled(c, c.file, believed, off, buf, luck.copies), c.file.size))
    else if off + |buf| > MAX_FILE || Grown(c.file, off + |buf|, luck).None? then None
    else
      var h := Stored(Grown(c.file, off + |buf|, luck).value, off, buf);
      Some((Settled(c, h, believed, off, buf, luck.copies), h.size))
  }

  // The file is h: the entry is dropped if the handle sees the file grow, and
  // written as well otherwise.
  function Settled(c: Cell, h: Ram, believed: nat, off: nat, buf: Buf, copies: bool): Cell
    requires Sane(c) && |c.file.data| <= |h.data|
  {
    if h.size > believed then Dropped(c.view, h, copies)
    else Cell(h, if c.view.Some? then Some(Synced(c.view.value, off, buf)) else None)
  }

  // Nothing refuses the write.
  predicate Granted(c: Cell, off: nat, buf: Buf, luck: Luck) {
    off + |buf| <= MAX_FILE && (off + |buf| <= |c.file.data| || luck.memory)
  }

  // The handle sees the file grow, and the entry is flushed over the write.
  predicate Erases(c: Cell, believed: nat, end: nat, luck: Luck) {
    Max(c.file.size, end) > believed && c.view.Some? && c.view.value.dirty && luck.copies
  }

  // The state a write leaves behind, whatever was before
  lemma WroteIs(c: Cell, believed: nat, off: nat, buf: Buf, luck: Luck)
    requires Sane(c) && |c.file.data| <= MAX_FILE && buf != []
    ensures Wrote(c, believed, off, buf, luck).Some? <==> Granted(c, off, buf, luck)
    ensures Granted(c, off, buf, luck) ==>
              var (c', b') := Wrote(c, believed, off, buf, luck).value;
              && Sane(c') && |c.file.data| <= |c'.file.data| <= MAX_FILE
              && |c'.file.data| == Capacity(|c.file.data|, off + |buf|)
              && b' == Max(c.file.size, off + |buf|) <= |c'.file.data|
              && c'.file.size == (if Erases(c, believed, off + |buf|, luck) then c.view.value.size else b')
              && (b' > believed ==> c'.view.None?)
              && (b' <= believed ==> c'.view.Some? == c.view.Some?)
  {
  }

  // The bytes are in the file exactly if the entry is not flushed over them, or the
  // entry has them already.
  lemma WrittenIff(c: Cell, believed: nat, off: nat, buf: Buf, luck: Luck)
    requires Sane(c) && |c.file.data| <= MAX_FILE && buf != [] && Granted(c, off, buf, luck)
    ensures RamOk(Wrote(c, believed, off, buf, luck).value.0.file)
    ensures var v' := Content(Wrote(c, believed, off, buf, luck).value.0.file);
            Written(Content(c.file), v', off, buf) <==>
              !Erases(c, believed, off + |buf|, luck) || Written(Content(c.file), Cached(c.view.value), off, buf)
  {
    WroteIs(c, believed, off, buf, luck);
    var g := Grown(c.file, off + |buf|, luck).value;
    var h := Stored(g, off, buf);
    StoredIsWritten(c.file, g, off, buf);
    if Erases(c, believed, off + |buf|, luck) {
      FlushIsIdentityIff(c.view.value, h);
    }
  }

  // On a coherent file: exactly if it is not flushed, or the bytes were there before.
  lemma WrittenIffThere(c: Cell, believed: nat, off: nat, buf: Buf, luck: Luck)
    requires Coherent(c) && |c.file.data| <= MAX_FILE && buf != [] && Granted(c, off, buf, luck)
    ensures RamOk(Wrote(c, believed, off, buf, luck).value.0.file)
    ensures var v, v' := Content(c.file), Content(Wrote(c, believed, off, buf, luck).value.0.file);
            && (Written(v, v', off, buf) <==>
                  !Erases(c, believed, off + |buf|, luck) || (off + |buf| <= |v| && v[off..off + |buf|] == buf))
            && (Erases(c, believed, off + |buf|, luck) ==> v' == v)
  {
    WrittenIff(c, believed, off, buf, luck);
    if Erases(c, believed, off + |buf|, luck) {
      var g := Grown(c.file, off + |buf|, luck).value;
      FlushIsIdentityIff(c.view.value, Stored(g, off, buf));
    }
  }

  // A coherent file stays coherent exactly if the entry is dropped, there is none, or
  // the write stays inside the file.
  lemma WriteKeepsCoherenceIff(c: Cell, believed: nat, off: nat, buf: Buf, luck: Luck)
    requires Coherent(c) && |c.file.data| <= MAX_FILE && buf != [] && Granted(c, off, buf, luck)
    ensures Coherent(Wrote(c, believed, off, buf, luck).value.0) <==>
            Max(c.file.size, off + |buf|) > believed || c.view.None? || off + |buf| <= c.file.size
  {
    WroteIs(c, believed, off, buf, luck);
    if Max(c.file.size, off + |buf|) <= believed && c.view.Some? {
      var v, f := c.view.value, c.file;
      if off + |buf| <= f.size {
        SplicePrefix(v.bytes, f.size, off, buf);
        SplicePrefix(f.data, f.size, off, buf);
        assert buf[..|buf|] == buf;
      }
    }
  }

  lemma SplicePrefix(b: Buf, n: nat, off: nat, buf: Buf)
    requires off + |buf| <= n <= |b|
    ensures Splice(b, off, buf)[..n] == Splice(b[..n], off, buf)
  {
  }

  // After a write the handle knows the size of the file, unless the entry was
  // flushed over it with another size.
  lemma WriterKnowsSizeIff(c: Cell, believed: nat, off: nat, buf: Buf, luck: Luck)
    requires Sane(c) && |c.file.data| <= MAX_FILE && buf != [] && Granted(c, off, buf, luck)
    ensures var (c', b') := Wrote(c, believed, off, buf, luck).value;
            b' == c'.file.size <==>
              !Erases(c, believed, off + |buf|, luck) || c.view.value.size == Max(c.file.size, off + |buf|)
  {
    WroteIs(c, believed, off, buf, luck);
  }

  // Through a handle that knows the size, a coherent file takes the bytes, stays
  // coherent and stays known exactly if the entry is not flushed over a growing write.
  lemma InStepWriteIff(c: Cell, off: nat, buf: Buf, luck: Luck)
    requires Coherent(c) && |c.file.data| <= MAX_FILE && buf != [] && Granted(c, off, buf, luck)
    ensures var (c', b') := Wrote(c, c.file.size, off, buf, luck).value;
            var erased := off + |buf| > c.file.size && c.view.Some? && c.view.value.dirty && luck.copies;
            && RamOk(c'.file) && Coherent(c') && b' == Max(c.file.size, off + |buf|)
            && (b' == c'.file.size <==> !erased)
            && (Written(Content(c.file), Content(c'.file), off, buf) <==> !erased)
            && (erased ==> Content(c'.file) == Content(c.file))
            && (c'.view.Some? <==> c.view.Some? && off + |buf| <= c.file.size)
            && (c'.view.Some? ==> c'.view.value.dirty)
  {
    WrittenIffThere(c, c.file.size, off, buf, luck);
    WriteKeepsCoherenceIff(c, c.file.size, off, buf, luck);
    WriterKnowsSizeIff(c, c.file.size, off, buf, luck);
  }

  // ---- read

  // vfs_page_cache_read_inode once the entry, if any, is there.  An offset behind the
  // end of the entry makes the number of bytes left there wrap around, so nothing is
  // cut off then, and the copy decides.
  function ReadFrom(c: Cell, believed: nat, off: nat, len: nat, copies: bool): Buf
    requires Sane(c)
  {
    if off >= believed then []
    else
      var n := Min(len, believed - off);
      match c.view
      case None => Slice(Content(c.file), off, n)
      case Some(v) =>
        var m := if off <= v.size then Min(n, v.size - off) else n;
        if copies && off + m <= |v.bytes| then v.bytes[off..off + m] else Slice(Content(c.file), off, m)
  }

  // The handle does not cut the read short.
  predicate Sees(believed: nat, size: nat, off: nat, len: nat) {
    len == 0 || off + len <= believed || size <= believed || size <= off
  }

  // The copy takes bytes behind the end of the entry.
  predicate Spills(v: View, believed: nat, off: nat, len: nat, copies: bool) {
    v.size < off < believed && len > 0 && copies && off + Min(len, believed - off) <= |v.bytes|
  }

  // A read of a coherent file is the read of the file, exactly if the handle does not
  // cut it short and nothing is taken from behind the end.
  lemma ReadIsRightIff(c: Cell, believed: nat, off: nat, len: nat, copies: bool)
    requires Coherent(c)
    ensures ReadFrom(c, believed, off, len, copies) == Slice(Content(c.file), off, len) <==>
            Sees(believed, c.file.size, off, len)
            && !(c.view.Some? && Spills(c.view.value, believed, off, len, copies))
  {
    var size, v := c.file.size, Content(c.file);
    if off < believed && c.view.Some? && off <= size {
      var m := Min(Min(len, believed - off), size - off);
      var w := c.view.value;
      SliceOfPrefix(w.bytes, size, off, off + m);
      assert w.bytes[off..off + m] == v[off..off + m];
    }
    if !Sees(believed, size, off, len) {
      assert |ReadFrom(c, believed, off, len, copies)| < |Slice(v, off, len)|;
    }
  }

  // A new entry has the size the handle believes in, and what is in the buffer.
  predicate Fills(v: View, f: Ram, believed: nat) {
    v.size == believed <= |f.data| && believed <= |v.bytes| && !v.dirty && Cached(v) == f.data[..believed]
  }

  // It is coherent exactly if the handle knows the size.
  lemma FillIsCoherentIff(v: View, f: Ram, believed: nat)
    requires RamOk(f) && Fills(v, f, believed)
    ensures Sane(Cell(f, Some(v))) && (Coherent(Cell(f, Some(v))) <==> believed == f.size)
  {
  }

  // A read that fills the entry is right exactly if the handle does not cut it short
  // and it does not reach behind the end of the file, where the handle sees more.
  lemma FillingReadIsRightIff(v: View, f: Ram, believed: nat, off: nat, len: nat, copies: bool)
    requires RamOk(f) && Fills(v, f, believed)
    ensures ReadFrom(Cell(f, Some(v)), believed, off, len, copies) == Slice(Content(f), off, len) <==>
            Sees(believed, f.size, off, len)
            && (believed <= f.size || off >= believed || len == 0 || !copies || off + len <= f.size)
  {
    if off < believed {
      var m := Min(len, believed - off);
      SliceOfPrefix(v.bytes, believed, off, off + m);
      SliceOfPrefix(f.data, believed, off, off + m);
      assert v.bytes[off..off + m] == f.data[off..off + m];
      if off + m <= f.size {
        SliceOfPrefix(f.data, f.size, off, off + m);
      }
    }
  }

  // ---- truncate

  // ramfs_truncate once there is room
  function Resized(f: Ram, size: nat): Ram
    requires RamOk(f) && size <= |f.data|
  {
    if size <= f.size then Ram(f.data, size) else Ram(Splice(f.data, f.size, Zeros(size - f.size)), size)
  }

  function Truncated(v: Buf, size: nat): Buf {
    if size <= |v| then v[..size] else v + Zeros(size - |v|)
  }

  lemma ResizedIsTruncated(f: Ram, g: Ram, size: nat)
    requires RamOk(f) && RamOk(g) && Content(g) == Content(f) && size <= |g.data|
    ensures RamOk(Resized(g, size)) && Content(Resized(g, size)) == Truncated(Content(f), size)
  {
  }

  // ramfs_truncate
  function Cut(f: Ram, size: nat, luck: Luck): (g: Option<Ram>)
    requires RamOk(f) && |f.data| <= MAX_FILE
    ensures g.Some? ==>
              && RamOk(g.value) && |f.data| <= |g.value.data| <= MAX_FILE && g.value.size == size
              && Content(g.value) == Truncated(Content(f), size)
  {
    if size > MAX_FILE then None
    else if size < f.size then Some(Resized(f, size))
    else
      match Grown(f, size, luck)
      case None => None
      case Some(g) => ResizedIsTruncated(f, g, size); Some(Resized(g, size))
  }

  // vfs_backend_ramfs_truncate: resize, then drop
  function Recut(c: Cell, size: nat, luck: Luck): Option<Cell>
    requires Sane(c) && |c.file.data| <= MAX_FILE
  {
    match Cut(c.file, size, luck)
    case None => None
    case Some(g) => Some(Dropped(c.view, g, luck.copies))
  }

  // The file has the new size exactly if no dirty entry is flushed over it, or one
  // that has that very content.
  lemma RecutIff(c: Cell, size: nat, luck: Luck)
    requires Sane(c) && |c.file.data| <= MAX_FILE && Recut(c, size, luck).Some?
    ensures var c' := Recut(c, size, luck).value;
            && Coherent(c') && |c.file.data| <= |c'.file.data| <= MAX_FILE && size <= |c'.file.data|
            && (Content(c'.file) == Truncated(Content(c.file), size) <==>
                  !(c.view.Some? && c.view.value.dirty && luck.copies)
                  || Cached(c.view.value) == Truncated(Content(c.file), size))
  {
    if c.view.Some? && c.view.value.dirty && luck.copies {
      FlushIsIdentityIff(c.view.value, Cut(c.file, size, luck).value);
    }
  }

  // The content that a dirty entry is flushed over a truncate with is the old one.
  lemma DirtyCutIsLost(c: Cell, size: nat, luck: Luck)
    requires Coherent(c) && |c.file.data| <= MAX_FILE && c.view.Some? && c.view.value.dirty && luck.copies
    requires Recut(c, size, luck).Some?
    ensures var c' := Recut(c, size, luck).value;
            c'.view.None? && RamOk(c'.file) && c'.file.size == c.file.size && Content(c'.file) == Content(c.file)
  {
    FlushIsIdentityIff(c.view.value, Cut(c.file, size, luck).value);
  }

  // ---- gaps

  // A write beyond the end: the gap is not cleared, so it reads as zeros exactly
  // when the memory behind the end of the file happens to be zero.
  lemma {:induction false} GapIsWhatWasThere(f: Ram, g: Ram, off: nat, buf: Buf)
    requires RamOk(f) && RamOk(g) && Content(g) == Content(f) && off + |buf| <= |g.data| && f.size < off && buf != []
    ensures var v := Content(Stored(g, off, buf));
            && |v| == off + |buf| && v[f.size..off] == g.data[f.size..off]
            && (v == Content(f) + Zeros(off - f.size) + buf <==> g.data[f.size..off] == Zeros(off - f.size))
  {
    var v := Content(Stored(g, off, buf));
    assert v == g.data[..off] + buf;
    assert g.data[..off] == Content(g) + g.data[f.size..off];
    if v == Content(f) + Zeros(off - f.size) + buf {
      assert v[f.size..off] == Zeros(off - f.size);
    }
  }
}
