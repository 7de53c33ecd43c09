/**
 The page cache over the RAM file system as it runs: any number of files, entries
 and open handles, reads, writes, truncates, flushes and evictions.  A file has one
 path; links and unlinks are not part of this model.
 */
module PageCache {
  import opened Common
  import opened Wrappers
  import opened Bytes
  import opened PageSlice
  import opened CachedFile

  type Path = string
  type Fd = nat

  const SOFT_MAX: nat := 64

  // vfs_pcache_entry_t
  datatype Ent = Ent(pages: seq<Buf>, size: nat, dirty: bool)

  function ViewOf(e: Ent): View { View(Flat(e.pages), e.size, e.dirty) }

  // The inode of an open handle: each has its own copy of the size.
  datatype Handle = Handle(path: Path, size: nat)

  method NewCapacity(cap: nat, need: nat) returns (newCap: nat)
    requires cap < need <= MAX_FILE
    ensures newCap == Capacity(cap, need)
  {
    newCap := if cap > 0 then cap else 64;
    while newCap < need
      invariant 0 < newCap <= MAX_FILE && Capacity(cap, need) == Doubled(newCap, need)
      decreases MAX_FILE - newCap
    {
      newCap := newCap * 2;
      if newCap > MAX_FILE {
        newCap := MAX_FILE;
      }
    }
  }

  class Store {
    var files: map<Path, Ram>
    var cache: map<Path, Ent>
    var handles: map<Fd, Handle>

    // Sizes are within buffers; what an entry or a handle says need not be the file.
    ghost predicate Valid() reads this {
      && (forall p :: p in files ==> RamOk(files[p]) && |files[p].data| <= MAX_FILE)
      && (forall p :: p in cache ==> p in files && Whole(cache[p].pages) && ViewOk(ViewOf(cache[p]), files[p]))
      && (forall d :: d in handles ==> handles[d].path in files && handles[d].size <= |files[handles[d].path].data|)
    }

    ghost function Entry(p: Path): Option<View> reads this {
      if p in cache then Some(ViewOf(cache[p])) else None
    }

    ghost function CellAt(p: Path): Cell
      requires p in files
      reads this
    {
      Cell(files[p], Entry(p))
    }

    constructor (files: map<Path, Ram>)
      requires forall p :: p in files ==> RamOk(files[p]) && |files[p].data| <= MAX_FILE
      ensures Valid() && this.files == files && cache == map[] && handles == map[]
    {
      this.files, cache, handles := files, map[], map[];
    }

    // Lookup and vfs_handle_open
    method Open(fd: Fd, p: Path)
      requires Valid() && p in files
      modifies this`handles
      ensures Valid() && handles == old(handles)[fd := Handle(p, files[p].size)]
    {
      handles := handles[fd := Handle(p, files[p].size)];
    }

    // The last vfs_handle_close of a handle
    method Close(fd: Fd)
      requires Valid()
      modifies this`handles
      ensures Valid() && handles == old(handles) - {fd}
    {
      handles := handles - {fd};
    }

    // vfs_pcache_flush_entry.  It changes the file exactly if the entry is dirty and
    // not what the file is.
    method FlushEntry(p: Path, copies: bool) returns (ok: bool)
      requires Valid() && p in cache
      modifies this`files, this`cache
      ensures Valid() && (ok <==> !old(cache[p].dirty) || copies)
      ensures cache == if ok then old(cache)[p := old(cache[p]).(dirty := false)] else old(cache)
      ensures files == old(files)[p := files[p]]
      ensures files[p] == if old(cache[p].dirty) && copies then Flushed(old(ViewOf(cache[p])), old(files[p]))
                          else old(files[p])
      ensures files[p] == old(files[p]) <==> !(old(cache[p].dirty) && copies) || old(Coherent(CellAt(p)))
      ensures CellAt(p) == old(Cleaned(CellAt(p), copies))
      ensures forall q :: q in files && q != p ==> CellAt(q) == old(CellAt(q))
    {
      FlushIsIdentityIff(ViewOf(cache[p]), files[p]);
      if !cache[p].dirty {
        assert cache[p] == cache[p].(dirty := false);
        return true;
      }
      if !copies {
        return false;
      }
      files := files[p := Flushed(View(Flat(cache[p].pages), cache[p].size, true), files[p])];
      cache := cache[p := cache[p].(dirty := false)];
      return true;
    }

    // vfs_pcache_evict_one, with any choice of victim.  It changes a file exactly if
    // the victim is dirty and not what the file is.
    method Evict(victim: Path, copies: bool)
      requires Valid()
      modifies this`files, this`cache
      ensures Valid() && files.Keys == old(files.Keys) && cache.Keys <= old(cache.Keys)
      ensures forall q :: q in files && q != victim ==> CellAt(q) == old(CellAt(q))
      ensures victim in files ==>
                && CellAt(victim) == old(Evicted(CellAt(victim), copies))
                && (files[victim] == old(files[victim]) <==>
                      !(victim in old(cache) && old(cache[victim].dirty) && copies) || old(Coherent(CellAt(victim))))
    {
      if victim in cache {
        var flushed := FlushEntry(victim, copies);
        if flushed {
          cache := cache - {victim};
        }
      }
    }

    // A slot for a new entry: vfs_pcache_alloc_slot
    method MakeSlot(luck: Luck) returns (ok: bool)
      requires Valid()
      modifies this`files, this`cache
      ensures Valid() && files.Keys == old(files.Keys) && cache.Keys <= old(cache.Keys)
      ensures forall q :: q in files ==>
                CellAt(q) == old(CellAt(q))
                || (q == luck.victim && CellAt(q) == old(Evicted(CellAt(q), luck.copies)))
      ensures forall q :: q in files && old(Coherent(CellAt(q))) ==> files[q] == old(files[q])
      ensures |old(cache)| < SOFT_MAX && luck.slot ==> ok && files == old(files) && cache == old(cache)
    {
      if |cache| >= SOFT_MAX || !luck.slot {
        Evict(luck.victim, luck.copies);
        return |cache| < SOFT_MAX;
      }
      return true;
    }

    // vfs_pcache_ensure: find the entry, or take a slot and fill it with as many bytes
    // as the handle believes there are
    method Ensure(fd: Fd, luck: Luck) returns (cached: bool)
      requires Valid() && fd in handles
      modifies this`files, this`cache
      ensures Valid() && files.Keys == old(files.Keys)
      ensures var p := handles[fd].path;
              && files[p] == old(files[p])
              && (p in old(cache) ==> Entry(p) == old(Entry(p)))
              && (p !in old(cache) && p in cache ==> Fills(ViewOf(cache[p]), files[p], handles[fd].size))
              && (cached ==> p in cache) && (p in cache && !cached ==> p in old(cache))
              && (p in cache && 0 < handles[fd].size <= MAX_CACHED ==> cached)
              && (0 < handles[fd].size <= MAX_CACHED && |old(cache)| < SOFT_MAX && luck.slot && luck.memory ==>
                    p in cache && files == old(files) && cache.Keys == old(cache.Keys) + {p})
      ensures forall q :: q in files && old(Coherent(CellAt(q))) ==> files[q] == old(files[q])
      ensures forall q :: q in files && q != handles[fd].path ==>
                CellAt(q) == old(CellAt(q))
                || (q == luck.victim && CellAt(q) == old(Evicted(CellAt(q), luck.copies)))
    {
      var p, size := handles[fd].path, handles[fd].size;
      if size == 0 || size > MAX_CACHED {
        return false;
      }
      if p in cache {
        return true;
      }
      var slot := MakeSlot(luck);
      if !slot || !luck.memory {
        return false;
      }
      Fill(p, size);
      return true;
    }

    // vfs_pcache_fill_from_inode
    method Fill(p: Path, size: nat)
      requires Valid() && p in files && p !in cache && size <= |files[p].data|
      modifies this`cache
      ensures Valid() && p in cache && Fills(ViewOf(cache[p]), files[p], size)
      ensures cache.Keys == old(cache.Keys) + {p}
      ensures forall q :: q in files && q != p ==> CellAt(q) == old(CellAt(q))
    {
      var pages := FillPages(files[p].data[..size]);
      cache := cache[p := Ent(pages, size, false)];
    }

    // vfs_page_cache_read_inode: what the handle reads, and what becomes of the cache.
    // Coherence of the file survives exactly if there was an entry, none was made, or
    // the handle knows the size.
    method Read(fd: Fd, off: nat, len: nat, luck: Luck) returns (buf: Buf)
      requires Valid() && fd in handles
      modifies this`files, this`cache
      ensures Valid() && files.Keys == old(files.Keys)
      ensures var p, b := handles[fd].path, handles[fd].size;
              && files[p] == old(files[p])
              && buf == ReadFrom(CellAt(p), b, off, len, luck.copies)
              && (p in old(cache) ==> Entry(p) == old(Entry(p)))
              && (p !in old(cache) && p in cache ==> Fills(ViewOf(cache[p]), files[p], b))
              && (old(Coherent(CellAt(p))) ==>
                    (Coherent(CellAt(p)) <==> p in old(cache) || p !in cache || b == files[p].size))
              && (old(Coherent(CellAt(p))) && b == files[p].size ==> buf == Slice(Content(files[p]), off, len))
              && (off < b <= MAX_CACHED && |old(cache)| < SOFT_MAX && luck.slot && luck.memory ==>
                    p in cache && files == old(files) && cache.Keys == old(cache.Keys) + {p})
      ensures forall q :: q in files && old(Coherent(CellAt(q))) ==> files[q] == old(files[q])
      ensures forall q :: q in files && q != handles[fd].path ==>
                CellAt(q) == old(CellAt(q))
                || (q == luck.victim && CellAt(q) == old(Evicted(CellAt(q), luck.copies)))
    {
      var p, b := handles[fd].path, handles[fd].size;
      if off >= b {
        return [];
      }
      var cached := Ensure(fd, luck);
      if p !in old(cache) && p in cache {
        FillIsCoherentIff(ViewOf(cache[p]), files[p], b);
      }
      RightWhenInStep(p, b, off, len, luck.copies);
      buf := ReadNow(p, b, off, len, luck.copies);
    }

    // The rest of the read, from the entry or from the file
    method ReadNow(p: Path, b: nat, off: nat, len: nat, copies: bool) returns (buf: Buf)
      requires Valid() && p in files && off < b
      ensures buf == ReadFrom(CellAt(p), b, off, len, copies)
    {
      var n := if len > b - off then b - off else len;
      if p !in cache {
        return Slice(files[p].data[..files[p].size], off, n);
      }
      var e := cache[p];
      if off <= e.size && n > e.size - off {
        n := e.size - off;
      }
      if !copies || off + n > |Flat(e.pages)| {
        return Slice(files[p].data[..files[p].size], off, n);
      }
      return Flat(e.pages)[off..off + n];
    }

    lemma RightWhenInStep(p: Path, b: nat, off: nat, len: nat, copies: bool)
      requires p in files && Sane(CellAt(p))
      ensures Coherent(CellAt(p)) && b == files[p].size ==>
                ReadFrom(CellAt(p), b, off, len, copies) == Slice(Content(files[p]), off, len)
    {
      if Coherent(CellAt(p)) && b == files[p].size {
        ReadIsRightIff(CellAt(p), b, off, len, copies);
      }
    }

    // The file and its entry from now on
    method Put(p: Path, h: Ram, e: Option<Ent>)
      requires Valid() && p in files && RamOk(h) && |files[p].data| <= |h.data| <= MAX_FILE
      requires e.Some? ==> Whole(e.value.pages) && ViewOk(ViewOf(e.value), h)
      modifies this`files, this`cache
      ensures Valid() && files == old(files)[p := h]
      ensures cache == if e.Some? then old(cache)[p := e.value] else old(cache) - {p}
    {
      files := files[p := h];
      cache := if e.Some? then cache[p := e.value] else cache - {p};
    }

    // vfs_page_cache_drop after the file has become h
    method DropAfter(p: Path, h: Ram, copies: bool)
      requires Valid() && p in files && RamOk(h) && |files[p].data| <= |h.data| <= MAX_FILE
      modifies this`files, this`cache
      ensures Valid() && p in files && CellAt(p) == Dropped(old(Entry(p)), h, copies)
      ensures cache == old(cache) - {p} && files == old(files)[p := files[p]]
    {
      if p in cache && cache[p].dirty && copies {
        var v := View(Flat(cache[p].pages), cache[p].size, true);
        FlushIsIdentityIff(v, h);
        Put(p, Flushed(v, h), None);
      } else {
        Put(p, h, None);
      }
    }

    // vfs_page_cache_sync_write after the file has become h: the part of the write
    // that lies inside the entry goes there, too
    method SyncWrite(p: Path, h: Ram, off: nat, buf: Buf)
      requires Valid() && p in files && RamOk(h) && |files[p].data| <= |h.data| <= MAX_FILE
      modifies this`files, this`cache
      ensures Valid() && p in files && files == old(files)[p := h]
      ensures Entry(p) == if p in old(cache) then Some(Synced(old(ViewOf(cache[p])), off, buf)) else None
      ensures cache.Keys <= old(cache.Keys) && forall q :: q != p ==> Entry(q) == old(Entry(q))
    {
      if p !in cache {
        Put(p, h, None);
        return;
      }
      var e := cache[p];
      if off < e.size && buf != [] {
        var n := if |buf| < e.size - off then |buf| else e.size - off;
        var pages := WritePages(e.pages, off, buf[..n]);
        e := Ent(pages, e.size, true);
      }
      Put(p, h, Some(e));
    }

    // ramfs_grow
    method Grow(f: Ram, need: nat, luck: Luck) returns (g: Option<Ram>)
      requires RamOk(f) && |f.data| <= MAX_FILE && need <= MAX_FILE
      ensures g == Grown(f, need, luck)
    {
      if need <= |f.data| {
        return Some(f);
      }
      if !luck.memory {
        return None;
      }
      var cap := NewCapacity(|f.data|, need);
      return Some(Moved(f, cap, luck.junk));
    }

    // vfs_backend_ramfs_write: the number of bytes or an error.  The whole new state of
    // the file, its entry and the handle; all other files, entries and handles stay.
    method Write(fd: Fd, off: nat, buf: Buf, luck: Luck) returns (ret: Option<nat>)
      requires Valid() && fd in handles
      modifies this
      ensures Valid() && handles.Keys == old(handles.Keys) && handles[fd].path == old(handles[fd].path)
      ensures var p := handles[fd].path;
              var r := Wrote(old(CellAt(handles[fd].path)), old(handles[fd].size), off, buf, luck);
              && ret == (if r.Some? then Some(|buf|) else None)
              && CellAt(p) == (if r.Some? then r.value.0 else old(CellAt(handles[fd].path)))
              && handles[fd].size == (if r.Some? then r.value.1 else old(handles[fd].size))
      ensures files == old(files)[handles[fd].path := files[handles[fd].path]]
      ensures cache.Keys <= old(cache.Keys) && forall q :: q != handles[fd].path ==> Entry(q) == old(Entry(q))
      ensures forall d :: d in handles && d != fd ==> handles[d] == old(handles[d])
    {
      var p, b := handles[fd].path, handles[fd].size;
      assert files == files[p := files[p]];
      var h := files[p];
      if buf != [] {
        if off + |buf| > MAX_FILE {
          return None;
        }
        var g := Grow(files[p], off + |buf|, luck);
        if g.None? {
          return None;
        }
        StoredIsWritten(files[p], g.value, off, buf);
        h := Stored(g.value, off, buf);
      }
      Settle(fd, h, off, buf, luck.copies);
      ret := Some(|buf|);
    }

    // The file is h: drop the entry if the handle sees it grow, write it otherwise,
    // and refresh the handle.
    method Settle(fd: Fd, h: Ram, off: nat, buf: Buf, copies: bool)
      requires Valid() && fd in handles && RamOk(h)
      requires |files[handles[fd].path].data| <= |h.data| <= MAX_FILE
      modifies this
      ensures Valid() && handles == old(handles)[fd := Handle(old(handles[fd].path), h.size)]
      ensures var p := handles[fd].path;
              CellAt(p) == Settled(old(CellAt(handles[fd].path)), h, old(handles[fd].size), off, buf, copies)
      ensures files == old(files)[handles[fd].path := files[handles[fd].path]]
      ensures cache.Keys <= old(cache.Keys) && forall q :: q != handles[fd].path ==> Entry(q) == old(Entry(q))
    {
      var p := handles[fd].path;
      if h.size > handles[fd].size {
        DropAfter(p, h, copies);
      } else {
        SyncWrite(p, h, off, buf);
      }
      handles := handles[fd := Handle(p, h.size)];
    }

    // vfs_backend_ramfs_truncate
    method Truncate(fd: Fd, size: nat, luck: Luck) returns (ok: bool)
      requires Valid() && fd in handles
      modifies this
      ensures Valid() && handles.Keys == old(handles.Keys) && handles[fd].path == old(handles[fd].path)
      ensures var p := handles[fd].path;
              var r := Recut(old(CellAt(handles[fd].path)), size, luck);
              && ok == r.Some? && CellAt(p) == (if ok then r.value else old(CellAt(handles[fd].path)))
              && handles[fd].size == (if ok then files[p].size else old(handles[fd].size))
      ensures files == old(files)[handles[fd].path := files[handles[fd].path]]
      ensures forall q :: q != handles[fd].path ==> Entry(q) == old(Entry(q))
      ensures forall d :: d in handles && d != fd ==> handles[d] == old(handles[d])
    {
      var p := handles[fd].path;
      assert files == files[p := files[p]];
      var g := Resize(files[p], size, luck);
      if g.None? {
        return false;
      }
      DropAfter(p, g.value, luck.copies);
      handles := handles[fd := Handle(p, files[p].size)];
      return true;
    }

    // An open with O_TRUNC: the backend truncates, then the handle gets size 0,
    // whatever the file has
    method OpenEmpty(fd: Fd, p: Path, luck: Luck)
      requires Valid() && p in files
      modifies this
      ensures Valid() && handles == old(handles)[fd := Handle(p, 0)]
      ensures files.Keys == old(files.Keys) && Some(CellAt(p)) == old(Recut(CellAt(p), 0, luck))
      ensures forall q :: q in files && q != p ==> CellAt(q) == old(CellAt(q))
    {
      var g := Resize(files[p], 0, luck);
      DropAfter(p, g.value, luck.copies);
      handles := handles[fd := Handle(p, 0)];
    }

    // ramfs_truncate
    method Resize(f: Ram, size: nat, luck: Luck) returns (g: Option<Ram>)
      requires RamOk(f) && |f.data| <= MAX_FILE
      ensures g == Cut(f, size, luck)
    {
      if size > MAX_FILE {
        return None;
      }
      if size < f.size {
        return Some(Resized(f, size));
      }
      var room := Grow(f, size, luck);
      return if room.None? then None else Some(Resized(room.value, size));
    }

    // vfs_page_cache_flush_backing: afterwards the entry, if it was dirty, is the file
    method Flush(fd: Fd, copies: bool)
      requires Valid() && fd in handles
      modifies this`files, this`cache
      ensures Valid() && cache.Keys == old(cache.Keys) && files.Keys == old(files.Keys)
      ensures CellAt(handles[fd].path) == old(Cleaned(CellAt(handles[fd].path), copies))
      ensures forall q :: q in files && q != handles[fd].path ==> CellAt(q) == old(CellAt(q))
      ensures var p := handles[fd].path;
              && (p in cache && copies ==> !cache[p].dirty)
              && (p in cache ==> cache[p].pages == old(cache[p].pages) && cache[p].size == old(cache[p].size))
              && (p in cache && old(cache[p].dirty) && copies ==> Coherent(CellAt(p)))
              && (files[p] == old(files[p]) <==>
                    !(p in cache && old(cache[p].dirty) && copies) || old(Coherent(CellAt(handles[fd].path))))
    {
      var p := handles[fd].path;
      if p in cache {
        FlushIsIdentityIff(ViewOf(cache[p]), files[p]);
        var _ := FlushEntry(p, copies);
      }
    }

    // The handle knows the size of its file, and the entry is the file.
    ghost predicate InStep(fd: Fd) reads this {
      Valid() && fd in handles && Coherent(CellAt(handles[fd].path)) && handles[fd].size == files[handles[fd].path].size
    }

    // What the file holds
    ghost function Seen(fd: Fd): Buf
      requires Valid() && fd in handles
      reads this
    {
      Content(files[handles[fd].path])
    }

    // A write through a handle in step: the bytes are in the file, and the handle stays
    // in step, exactly if no dirty entry is flushed over a write that grows the file.
    method WriteInStep(fd: Fd, off: nat, buf: Buf, luck: Luck) returns (ret: Option<nat>)
      requires InStep(fd) && buf != []
      modifies this
      ensures Valid() && fd in handles && handles[fd].path == old(handles[fd].path)
      ensures ret == if old(Granted(CellAt(handles[fd].path), off, buf, luck)) then Some(|buf|) else None
      ensures cache.Keys <= old(cache.Keys) && handles.Keys == old(handles.Keys) && files.Keys == old(files.Keys)
      ensures forall d :: d in handles && d != fd ==> handles[d] == old(handles[d])
      ensures forall q :: q in files && q != handles[fd].path ==> CellAt(q) == old(CellAt(q))
      ensures ret.None? ==> InStep(fd) && Seen(fd) == old(Seen(fd))
      ensures ret.Some? ==>
                var p, size := handles[fd].path, old(handles[fd].size);
                var dirty := p in old(cache) && old(cache[handles[fd].path].dirty);
                var erased := off + |buf| > size && dirty && luck.copies;
                && handles[fd].size == Max(size, off + |buf|) && Coherent(CellAt(p))
                && (InStep(fd) <==> !erased) && (Written(old(Seen(fd)), Seen(fd), off, buf) <==> !erased)
                && (erased ==> Seen(fd) == old(Seen(fd)))
                && (p in cache <==> p in old(cache) && off + |buf| <= size) && (p in cache ==> cache[p].dirty)
    {
      ghost var c := CellAt(handles[fd].path);
      WroteIs(c, c.file.size, off, buf, luck);
      if Granted(c, off, buf, luck) {
        InStepWriteIff(c, off, buf, luck);
      }
      ret := Write(fd, off, buf, luck);
    }
  }

  // A machine that lacks nothing
  function Lucky(junk: nat -> Byte): Luck { Luck("", true, true, true, junk) }

  lemma WrittenByte(v: Buf, v': Buf, off: nat, x: Byte)
    requires Written(v, v', off, [x])
    ensures off < |v| ==> v' == v[off := x]
    ensures off == |v| ==> v' == v + [x]
  {
    assert v'[off] == v'[off..off + 1][0];
  }

  method OverwriteFirst(store: Store, fd: Fd, x: Byte, luck: Luck)
    requires store.InStep(fd) && store.handles[fd].path in store.cache && 0 < store.handles[fd].size
    modifies store
    ensures store.InStep(fd) && store.handles[fd] == old(store.handles[fd])
    ensures store.handles[fd].path in store.cache && store.cache[store.handles[fd].path].dirty
    ensures store.Seen(fd) == old(store.Seen(fd))[0 := x]
    ensures store.handles.Keys == old(store.handles.Keys) && store.cache.Keys <= old(store.cache.Keys)
    ensures forall d :: d in store.handles && d != fd ==> store.handles[d] == old(store.handles[d])
  {
    ghost var v := store.Seen(fd);
    var ret := store.WriteInStep(fd, 0, [x], luck);
    WrittenByte(v, store.Seen(fd), 0, x);
  }

  // Overwrite the first byte of a cached file, then append one: the append is lost
  // unless a flush came in between, and then the handle is one byte ahead.
  method OverwriteThenAppend(store: Store, fd: Fd, x: Byte, y: Byte, flush: bool, luck: Luck)
      returns (ret: Option<nat>)
    requires store.InStep(fd) && store.handles[fd].path in store.cache && luck.copies
    requires 0 < store.handles[fd].size < MAX_FILE
    modifies store
    ensures store.Valid() && fd in store.handles && store.handles[fd].path == old(store.handles[fd].path)
    ensures (luck.memory ==> ret == Some(1)) && store.cache.Keys <= old(store.cache.Keys)
    ensures ret.Some? ==>
              && store.handles[fd].size == old(store.handles[fd].size) + 1 && store.handles[fd].path !in store.cache
              && store.Seen(fd) == old(store.Seen(fd))[0 := x] + if flush then [y] else []
  {
    var p, b := store.handles[fd].path, store.handles[fd].size;
    OverwriteFirst(store, fd, x, luck);
    if flush {
      store.Flush(fd, true);
    }
    ghost var v1 := store.Seen(fd);
    ret := store.WriteInStep(fd, b, [y], luck);
    if ret.Some? && flush {
      WrittenByte(v1, store.Seen(fd), b, y);
    }
  }

  // A store with one file of one byte and a handle on it that has read it
  method OneByteFile(x: Byte, junk: nat -> Byte) returns (store: Store)
    ensures fresh(store) && store.InStep(0) && store.handles[0] == Handle("f", 1) && store.cache.Keys == {"f"}
    ensures store.Seen(0) == [x] && !store.cache["f"].dirty
  {
    store := new Store(map["f" := Ram([x], 1)]);
    store.Open(0, "f");
    var _ := store.Read(0, 0, 1, Lucky(junk));
  }

  // The loss on a machine that lacks nothing: a file of one byte is read, its byte
  // is overwritten, a byte is appended.  The append reports one byte written, and the
  // handle believes in two.
  method AppendIsLost(junk: nat -> Byte, x: Byte, y: Byte, z: Byte) returns (store: Store, ret: Option<nat>)
    ensures fresh(store) && store.Valid() && ret == Some(1) && store.cache == map[] && 0 in store.handles
    ensures store.handles[0] == Handle("f", 2) && store.Seen(0) == [y]
  {
    store := OneByteFile(x, junk);
    ret := OverwriteThenAppend(store, 0, y, z, false, Lucky(junk));
    assert store.cache.Keys == {};
  }

  // The same handle then reads a byte behind the end of the file, where a direct read
  // gives none.  That fills an entry with two bytes.
  method ReadBehindTheEnd(junk: nat -> Byte, x: Byte, y: Byte, z: Byte) returns (store: Store, buf: Buf)
    ensures fresh(store) && store.Valid() && 0 in store.handles && store.handles[0] == Handle("f", 2)
    ensures "f" in store.cache && |buf| == 1 && store.Seen(0) == [y] && Slice(store.Seen(0), 1, 1) == []
    ensures !Coherent(store.CellAt("f")) && store.cache["f"].size == 2
  {
    var ret;
    store, ret := AppendIsLost(junk, x, y, z);
    buf := store.Read(0, 1, 1, Lucky(junk));
  }

  // The next overwrite and flush make the entry the file.
  method FlushGrowsTheFile(store: Store, junk: nat -> Byte, w: Byte)
    requires store.Valid() && 0 in store.handles && store.handles[0] == Handle("f", 2) && "f" in store.cache
    requires store.files["f"].size == 1 && store.cache["f"].size == 2
    modifies store
    ensures store.Valid() && 0 in store.handles && |store.Seen(0)| == 2
  {
    var ret := store.Write(0, 0, [w], Lucky(junk));
    assert store.files["f"].size == 1 && store.Entry("f").Some?;
    store.Flush(0, true);
  }

  // Two handles on a file of one byte: the second appends,
  method TwoHandles(junk: nat -> Byte, x: Byte, y: Byte) returns (store: Store)
    ensures fresh(store) && store.InStep(1) && store.cache == map[] && 0 in store.handles
    ensures store.handles[0] == Handle("f", 1) && store.handles[1] == Handle("f", 2) && store.Seen(1) == [x, y]
  {
    store := OneByteFile(x, junk);
    store.Open(1, "f");
    var ret := store.WriteInStep(1, 1, [y], Lucky(junk));
    WrittenByte([x], store.Seen(1), 1, y);
    assert store.cache.Keys == {};
  }

  // reads, and overwrites.
  method ReadAndOverwrite(store: Store, junk: nat -> Byte, z: Byte)
    requires store.InStep(1) && store.cache == map[] && store.handles[1] == Handle("f", 2)
    modifies store
    ensures store.InStep(1) && store.handles[1] == Handle("f", 2) && "f" in store.cache && store.cache["f"].dirty
    ensures store.handles.Keys == old(store.handles.Keys)
    ensures forall d :: d in store.handles && d != 1 ==> store.handles[d] == old(store.handles[d])
    ensures store.Seen(1) == old(store.Seen(1))[0 := z]
  {
    var _ := store.Read(1, 0, 1, Lucky(junk));
    OverwriteFirst(store, 1, z, Lucky(junk));
  }

  // The first then overwrites a byte through its old size.  The file does not grow,
  // the write reports one byte, and the byte is lost.
  method OverwriteIsLost(junk: nat -> Byte, x: Byte, y: Byte, z: Byte, w: Byte) returns (store: Store, ret: Option<nat>)
    ensures fresh(store) && store.Valid() && 0 in store.handles && ret == Some(1) && store.Seen(0) == [z, y]
  {
    store := TwoHandles(junk, x, y);
    ReadAndOverwrite(store, junk, z);
    WroteIs(store.CellAt("f"), 1, 0, [w], Lucky(junk));
    WrittenIffThere(store.CellAt("f"), 1, 0, [w], Lucky(junk));
    ret := store.Write(0, 0, [w], Lucky(junk));
  }

  // An open with O_TRUNC of a file with a dirty entry: the handle has size 0, the file
  // has its byte, and a read through the handle does not find it.
  method EmptyOpenIsLost(junk: nat -> Byte, x: Byte, y: Byte) returns (store: Store, buf: Buf)
    ensures fresh(store) && store.Valid() && 1 in store.handles && store.handles[1] == Handle("f", 0)
    ensures store.Seen(1) == [y] && buf == []
  {
    store := OneByteFile(x, junk);
    OverwriteFirst(store, 0, y, Lucky(junk));
    DirtyCutIsLost(store.CellAt("f"), 0, Lucky(junk));
    store.OpenEmpty(1, "f", Lucky(junk));
    buf := store.Read(1, 0, 1, Lucky(junk));
  }

  lemma GapOfNewFile(junk: nat -> Byte, x: Byte)
    ensures var r := Wrote(Cell(Ram([], 0), None), 0, 1, [x], Lucky(junk));
            r.Some? && RamOk(r.value.0.file) && Content(r.value.0.file) == [junk(0), x]
  {
    var g := Grown(Ram([], 0), 2, Lucky(junk)).value;
    assert g.data[0] == junk(0);
  }

  // The gap in a file, seen through the whole backend: a new file, one byte
  // written at offset 1, and offset 0 reads what the memory held before.
  method WriteBehindTheEnd(junk: nat -> Byte, x: Byte) returns (store: Store)
    ensures fresh(store) && store.Valid() && 0 in store.handles && store.Seen(0) == [junk(0), x]
  {
    store := new Store(map["f" := Ram([], 0)]);
    store.Open(0, "f");
    GapOfNewFile(junk, x);
    var ret := store.Write(0, 1, [x], Lucky(junk));
  }
}
