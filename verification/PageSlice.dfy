/**
 A cached file as a list of pages, and the two loops over it: filling it from a
 buffer and writing into it page by page.
 */
module PageSlice {
  import opened Common
  import opened Bytes

  ghost predicate Whole(pages: seq<Buf>) {
    forall i :: 0 <= i < |pages| ==> |pages[i]| == PAGE_SIZE
  }

  function Flat(pages: seq<Buf>): Buf {
    if pages == [] then [] else Flat(pages[..|pages| - 1]) + pages[|pages| - 1]
  }

  lemma {:induction false} FlatLength(pages: seq<Buf>)
    requires Whole(pages)
    ensures |Flat(pages)| == PAGE_SIZE * |pages|
  {
    if pages != [] {
      FlatLength(pages[..|pages| - 1]);
    }
  }

  lemma {:induction false} FlatAppend(a: seq<Buf>, b: seq<Buf>)
    ensures Flat(a + b) == Flat(a) + Flat(b)
  {
    if b == [] {
      assert a + b == a;
    } else {
      var b0, last := b[..|b| - 1], b[|b| - 1];
      assert (a + b)[..|a + b| - 1] == a + b0;
      FlatAppend(a, b0);
      assert Flat(a) + Flat(b0) + last == Flat(a) + (Flat(b0) + last);
    }
  }

  lemma FlatOne(p: Buf)
    ensures Flat([p]) == p
  {
    assert [p][..0] == [];
  }

  // A page in its place
  lemma {:induction false} FlatSplit(pages: seq<Buf>, k: nat)
    requires k < |pages|
    ensures Flat(pages) == Flat(pages[..k]) + pages[k] + Flat(pages[k + 1..])
  {
    assert pages == pages[..k] + [pages[k]] + pages[k + 1..];
    FlatAppend(pages[..k] + [pages[k]], pages[k + 1..]);
    FlatAppend(pages[..k], [pages[k]]);
    FlatOne(pages[k]);
  }

  lemma SpliceJoin(b: Buf, at: nat, x: Buf, y: Buf)
    requires at + |x| + |y| <= |b|
    ensures Splice(Splice(b, at, x), at + |x|, y) == Splice(b, at, x + y)
  {
  }

  lemma SpliceInside(a: Buf, p: Buf, c: Buf, at: nat, x: Buf)
    requires at + |x| <= |p|
    ensures a + Splice(p, at, x) + c == Splice(a + p + c, |a| + at, x)
  {
  }

  // Writing into one page is writing into the file.
  lemma {:induction false} WriteOnePage(pages: seq<Buf>, k: nat, at: nat, x: Buf)
    requires Whole(pages) && k < |pages| && at + |x| <= PAGE_SIZE
    ensures PAGE_SIZE * k + at + |x| <= |Flat(pages)|
    ensures Flat(pages[k := Splice(pages[k], at, x)]) == Splice(Flat(pages), PAGE_SIZE * k + at, x)
    ensures Whole(pages[k := Splice(pages[k], at, x)])
  {
    var pages' := pages[k := Splice(pages[k], at, x)];
    FlatSplit(pages, k);
    FlatSplit(pages', k);
    assert pages'[..k] == pages[..k] && pages'[k + 1..] == pages[k + 1..];
    FlatLength(pages[..k]);
    FlatLength(pages);
    SpliceInside(Flat(pages[..k]), pages[k], Flat(pages[k + 1..]), at, x);
  }

  function PageCount(size: nat): (n: nat)
    ensures size <= PAGE_SIZE * n < size + PAGE_SIZE
  {
    (size + PAGE_SIZE - 1) / PAGE_SIZE
  }

  // The slice holds the first |src| bytes.
  ghost predicate Caches(pages: seq<Buf>, src: Buf) {
    Whole(pages) && |pages| == PageCount(|src|) && |Flat(pages)| >= |src| && Flat(pages)[..|src|] == src
  }

  lemma PrefixOn(a: Buf, b: Buf, src: Buf, off: nat, len: nat)
    requires |a| == off && off + len <= |src| && len <= |b| && a[..off] == src[..off] && b[..len] == src[off..off + len]
    ensures (a + b)[..off + len] == src[..off + len]
  {
    assert (a + b)[..off + len] == a[..off] + b[..len];
  }

  // vfs_pcache_fill_slice_from_kva: page by page, the last one padded with zeros
  method FillPages(src: Buf) returns (pages: seq<Buf>)
    ensures Caches(pages, src)
  {
    pages := [];
    var n := PageCount(|src|);
    var i := 0;
    while i < n
      invariant i <= n && |pages| == i && Whole(pages)
      invariant |Flat(pages)| == PAGE_SIZE * i
      invariant var done := if PAGE_SIZE * i < |src| then PAGE_SIZE * i else |src|; Flat(pages)[..done] == src[..done]
    {
      var off := PAGE_SIZE * i;
      var len := if off + PAGE_SIZE > |src| then |src| - off else PAGE_SIZE;
      var page := src[off..off + len] + Zeros(PAGE_SIZE - len);
      FlatAppend(pages, [page]);
      FlatOne(page);
      PrefixOn(Flat(pages), page, src, off, len);
      pages := pages + [page];
      i := i + 1;
    }
  }

  // vfs_pcache_write_entry: each round writes up to the end of a page
  method WritePages(pages: seq<Buf>, offset: nat, buf: Buf) returns (pages': seq<Buf>)
    requires Whole(pages) && offset + |buf| <= |Flat(pages)|
    ensures Whole(pages') && |pages'| == |pages| && Flat(pages') == Splice(Flat(pages), offset, buf)
  {
    pages' := pages;
    var done := 0;
    FlatLength(pages);
    assert Splice(Flat(pages), offset, buf[..0]) == Flat(pages);
    while done < |buf|
      invariant done <= |buf| && Whole(pages') && |pages'| == |pages|
      invariant Flat(pages') == Splice(Flat(pages), offset, buf[..done])
    {
      pages', done := WriteRound(pages', Flat(pages), offset, buf, done);
    }
    assert buf[..done] == buf;
  }

  // One round of the loop
  method WriteRound(pages: seq<Buf>, ghost was: Buf, offset: nat, buf: Buf, done: nat)
      returns (pages': seq<Buf>, done': nat)
    requires Whole(pages) && done < |buf| && offset + |buf| <= |was| && Flat(pages) == Splice(was, offset, buf[..done])
    ensures done < done' <= |buf| && Whole(pages') && |pages'| == |pages|
    ensures Flat(pages') == Splice(was, offset, buf[..done'])
  {
    var chunk := ChunkOf(offset + done, |buf| - done);
    pages' := WriteChunk(pages, offset + done, buf[done..done + chunk]);
    SpliceOn(was, offset, buf, done, chunk);
    done' := done + chunk;
  }

  // What fits into the page at off
  function ChunkOf(off: nat, left: nat): (n: nat)
    requires left > 0
    ensures 0 < n <= left && off % PAGE_SIZE + n <= PAGE_SIZE
  {
    if PAGE_SIZE - off % PAGE_SIZE > left then left else PAGE_SIZE - off % PAGE_SIZE
  }

  lemma SpliceOn(b: Buf, offset: nat, buf: Buf, done: nat, chunk: nat)
    requires done + chunk <= |buf| && offset + |buf| <= |b|
    ensures Splice(Splice(b, offset, buf[..done]), offset + done, buf[done..done + chunk])
            == Splice(b, offset, buf[..done + chunk])
  {
    SpliceJoin(b, offset, buf[..done], buf[done..done + chunk]);
    assert buf[..done] + buf[done..done + chunk] == buf[..done + chunk];
  }

  // The part of a round that lies in one page
  method WriteChunk(pages: seq<Buf>, off: nat, x: Buf) returns (pages': seq<Buf>)
    requires Whole(pages) && off + |x| <= |Flat(pages)| && off % PAGE_SIZE + |x| <= PAGE_SIZE && x != []
    ensures Whole(pages') && |pages'| == |pages| && Flat(pages') == Splice(Flat(pages), off, x)
  {
    var k, at := off / PAGE_SIZE, off % PAGE_SIZE;
    FlatLength(pages);
    WriteOnePage(pages, k, at, x);
    pages' := pages[k := Splice(pages[k], at, x)];
  }
}
