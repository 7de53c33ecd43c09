/**
 Mapping and unmapping ranges of user pages.  A range is filled in physically
 contiguous chunks, large ones first, and unmapped in contiguous runs found in
 the page table, which need not be the chunks it was mapped in.
 */
module MapRange {
  import opened Common
  import opened Wrappers

  type Frame = nat

  datatype Entry = Entry(frame: Frame, flags: nat)

  // shares holds each allocated frame once per owner
  datatype Space = Space(pages: map<nat, Entry>, shares: multiset<Frame>)

  function Ascending(b: Frame, n: nat): (fs: seq<Frame>)
    ensures |fs| == n && forall i :: 0 <= i < n ==> fs[i] == b + i
  {
    if n == 0 then [] else Ascending(b, n - 1) + [b + n - 1]
  }

  // One share of each frame
  function Bag(fs: seq<Frame>): multiset<Frame> {
    if fs == [] then multiset{} else Bag(fs[..|fs| - 1]) + multiset{fs[|fs| - 1]}
  }

  lemma {:induction false} BagAppend(a: seq<Frame>, b: seq<Frame>)
    ensures Bag(a + b) == Bag(a) + Bag(b)
  {
    if b == [] {
      assert a + b == a;
    } else {
      assert (a + b)[..|a + b| - 1] == a + b[..|b| - 1];
      BagAppend(a, b[..|b| - 1]);
    }
  }

  lemma {:induction false} InBag(fs: seq<Frame>, i: nat)
    requires i < |fs|
    ensures fs[i] in Bag(fs)
  {
    if i < |fs| - 1 {
      InBag(fs[..|fs| - 1], i);
    }
  }

  function Put(pages: map<nat, Entry>, page: nat, fs: seq<Frame>, flags: nat): map<nat, Entry> {
    if fs == [] then pages
    else Put(pages, page, fs[..|fs| - 1], flags)[page + |fs| - 1 := Entry(fs[|fs| - 1], flags)]
  }

  function Cut(pages: map<nat, Entry>, page: nat, n: nat): map<nat, Entry> {
    map p | p in pages && !(page <= p < page + n) :: pages[p]
  }

  // The pages from page on are mapped to exactly these frames.
  predicate MappedTo(s: Space, page: nat, fs: seq<Frame>) {
    forall i :: 0 <= i < |fs| ==> Maps(s, page + i, fs[i])
  }

  predicate Maps(s: Space, p: nat, f: Frame) { p in s.pages && s.pages[p].frame == f }

  predicate NoneMapped(s: Space, page: nat, n: nat) {
    forall p :: page <= p < page + n ==> p !in s.pages
  }

  function Mapped(s: Space, page: nat, fs: seq<Frame>, flags: nat): Space {
    Space(Put(s.pages, page, fs, flags), s.shares + Bag(fs))
  }

  // What is left when |fs| pages, mapped to fs, go.
  function Unmapped(s: Space, page: nat, fs: seq<Frame>): Space {
    Space(Cut(s.pages, page, |fs|), s.shares - Bag(fs))
  }

  // ---- algebra of ranges

  lemma {:induction false} PutIs(pages: map<nat, Entry>, page: nat, fs: seq<Frame>, flags: nat)
    ensures var r := Put(pages, page, fs, flags);
            && (forall p :: p in r <==> p in pages || page <= p < page + |fs|)
            && (forall p :: p in r ==> r[p] == if page <= p < page + |fs| then Entry(fs[p - page], flags) else pages[p])
  {
    if fs != [] {
      PutIs(pages, page, fs[..|fs| - 1], flags);
    }
  }

  lemma {:induction false} PutThenPut(pages: map<nat, Entry>, page: nat, a: seq<Frame>, b: seq<Frame>, flags: nat)
    ensures Put(Put(pages, page, a, flags), page + |a|, b, flags) == Put(pages, page, a + b, flags)
  {
    if b == [] {
      assert a + b == a;
    } else {
      assert (a + b)[..|a + b| - 1] == a + b[..|b| - 1];
      PutThenPut(pages, page, a, b[..|b| - 1], flags);
    }
  }

  lemma CutThenCut(pages: map<nat, Entry>, page: nat, m: nat, n: nat)
    ensures Cut(Cut(pages, page, m), page + m, n) == Cut(pages, page, m + n)
  {
    var l, r := Cut(Cut(pages, page, m), page + m, n), Cut(pages, page, m + n);
    assert forall p :: p in l <==> p in r;
    assert l == r;
  }

  lemma MappedThenMapped(s: Space, page: nat, a: seq<Frame>, b: seq<Frame>, flags: nat)
    ensures Mapped(Mapped(s, page, a, flags), page + |a|, b, flags) == Mapped(s, page, a + b, flags)
  {
    PutThenPut(s.pages, page, a, b, flags);
    BagAppend(a, b);
    assert (s.shares + Bag(a)) + Bag(b) == s.shares + (Bag(a) + Bag(b));
  }

  lemma UnmappedThenUnmapped(s: Space, page: nat, a: seq<Frame>, b: seq<Frame>)
    ensures Unmapped(Unmapped(s, page, a), page + |a|, b) == Unmapped(s, page, a + b)
  {
    CutThenCut(s.pages, page, |a|, |b|);
    BagAppend(a, b);
    MinusMinus(s.shares, Bag(a), Bag(b));
  }

  lemma MinusMinus(x: multiset<Frame>, a: multiset<Frame>, b: multiset<Frame>)
    ensures (x - a) - b == x - (a + b)
  {
  }

  // Unmapping a range that was just mapped gives back the space, for any frames
  // it was mapped to.
  lemma UnmapUndoesMap(s: Space, page: nat, fs: seq<Frame>, flags: nat)
    requires NoneMapped(s, page, |fs|)
    ensures MappedTo(Mapped(s, page, fs, flags), page, fs)
    ensures Unmapped(Mapped(s, page, fs, flags), page, fs) == s
  {
    PutIs(s.pages, page, fs, flags);
    var r := Cut(Put(s.pages, page, fs, flags), page, |fs|);
    assert forall p :: p in r <==> p in s.pages;
    assert r == s.pages;
  }

  // Frames that nobody has, each once
  ghost predicate FreshFrames(shares: multiset<Frame>, fs: seq<Frame>) {
    && (forall i :: 0 <= i < |fs| ==> fs[i] !in shares)
    && (forall i, j :: 0 <= i < j < |fs| ==> fs[i] != fs[j])
  }

  lemma FreshMore(shares: multiset<Frame>, a: seq<Frame>, b: seq<Frame>)
    requires FreshFrames(shares, a) && FreshFrames(shares + Bag(a), b)
    ensures FreshFrames(shares, a + b)
  {
    forall i, j | 0 <= i < |a| && 0 <= j < |b| ensures a[i] != b[j] {
      InBag(a, i);
    }
  }

  // ---- chunks

  function Pow2(k: nat): (r: nat)
    ensures r >= 1
  {
    if k == 0 then 1 else 2 * Pow2(k - 1)
  }

  // c is the largest power of two that a single allocation can have and that is
  // not larger than what remains.
  ghost predicate IsChunk(c: nat, remaining: nat, maxOrder: nat) {
    exists k :: 0 <= k <= maxOrder && c == Pow2(k) && c <= remaining && (k == maxOrder || remaining < 2 * c)
  }

  method BuddyChunk(remaining: nat, maxOrder: nat) returns (chunk: nat)
    requires remaining > 0
    ensures IsChunk(chunk, remaining, maxOrder) && chunk >= 1
  {
    var k := maxOrder;
    chunk := Pow2(maxOrder);
    while chunk > remaining
      invariant 0 <= k <= maxOrder && chunk == Pow2(k)
      invariant k < maxOrder ==> remaining < 2 * chunk
      decreases k
    {
      chunk, k := chunk / 2, k - 1;
    }
    assert 0 <= k <= maxOrder && chunk == Pow2(k);
  }

  // ---- the address space

  // The core's answer to a request for n contiguous frames: their first one
  type Answers = nat -> Option<Frame>

  predicate CanFill(s: Space, page: nat, n: nat, base: Option<Frame>) {
    && base.Some? && NoneMapped(s, page, n)
    && forall f :: base.value <= f < base.value + n ==> f !in s.shares
  }

  predicate Contiguous(s: Space, page: nat, n: nat, ppn: Frame) {
    MappedTo(s, page, Ascending(ppn, n))
  }

  // Runs of pages that an unmap treats as one
  datatype Run = Run(page: nat, len: nat, frame: Frame)

  // The frames of some runs, one after the other
  function RunFrames(runs: seq<Run>): seq<Frame> {
    if runs == [] then []
    else RunFrames(runs[..|runs| - 1]) + Ascending(runs[|runs| - 1].frame, runs[|runs| - 1].len)
  }

  // The runs follow one another from page on and none is empty.
  ghost predicate Covers(runs: seq<Run>, page: nat)
    decreases |runs|
  {
    runs != [] ==>
      var init, last := runs[..|runs| - 1], runs[|runs| - 1];
      last.len > 0 && last.page == page + |RunFrames(init)| && Covers(init, page)
  }

  // Unmapping fs from s has led to cur.  The quantifier keeps the two halves out
  // of proofs that only pass them on.
  datatype Aspect = Before | After

  ghost predicate Says(a: Aspect, cur: Space, s: Space, page: nat, fs: seq<Frame>) {
    match a
    case Before => MappedTo(s, page, fs)
    case After => cur == Unmapped(s, page, fs)
  }

  ghost predicate Progress(cur: Space, s: Space, page: nat, fs: seq<Frame>) {
    forall a :: Says(a, cur, s, page, fs)
  }

  lemma Unfold(cur: Space, s: Space, page: nat, fs: seq<Frame>)
    requires Progress(cur, s, page, fs)
    ensures MappedTo(s, page, fs) && cur == Unmapped(s, page, fs)
  {
    assert Says(Before, cur, s, page, fs) && Says(After, cur, s, page, fs);
  }

  class AddressSpace {
    const answers: Answers
    var pages: map<nat, Entry>
    var shares: multiset<Frame>
    var asked: nat

    ghost function Abs(): Space reads this { Space(pages, shares) }

    // mm_user_utils_set_range_and_fill: all of the chunk or nothing
    method SetRangeAndFill(page: nat, n: nat, flags: nat) returns (base: Option<Frame>)
      modifies this
      ensures base.None? ==> Abs() == old(Abs())
      ensures asked == old(asked) + 1 && (base.None? <==> !CanFill(old(Abs()), page, n, answers(old(asked))))
      ensures base.Some? ==>
                CanFill(old(Abs()), page, n, base) && Abs() == Mapped(old(Abs()), page, Ascending(base.value, n), flags)
    {
      base := answers(asked);
      asked := asked + 1;
      if !CanFill(Space(pages, shares), page, n, base) {
        return None;
      }
      var fs := Ascending(base.value, n);
      pages := Put(pages, page, fs, flags);
      shares := shares + Bag(fs);
    }

    // mm_user_utils_clean_range_and_unfill: refuses a run that is not contiguous
    method CleanRangeAndUnfill(page: nat, n: nat, ppn: Frame) returns (ok: bool)
      modifies this`pages, this`shares
      ensures ok <==> Contiguous(old(Abs()), page, n, ppn)
      ensures Abs() == if ok then Unmapped(old(Abs()), page, Ascending(ppn, n)) else old(Abs())
    {
      ok := Contiguous(Space(pages, shares), page, n, ppn);
      if ok {
        pages := Cut(pages, page, n);
        shares := shares - Bag(Ascending(ppn, n));
      }
    }

    // linux_mm_fill_one_span: the greedy chunk, then smaller ones
    method FillOneSpan(page: nat, remaining: nat, maxOrder: nat, flags: nat)
        returns (got: nat, ghost frames: seq<Frame>)
      requires remaining > 0
      modifies this
      ensures got <= remaining && |frames| == got && FreshFrames(old(shares), frames)
      ensures NoneMapped(old(Abs()), page, got) && Abs() == Mapped(old(Abs()), page, frames, flags)
      ensures got == 0 ==> asked > 0 && !CanFill(old(Abs()), page, 1, answers(asked - 1))
    {
      var chunk := BuddyChunk(remaining, maxOrder);
      while chunk >= 1
        invariant 1 <= chunk <= remaining && Abs() == old(Abs())
      {
        var base := SetRangeAndFill(page, chunk, flags);
        if base.Some? {
          return chunk, Ascending(base.value, chunk);
        }
        if chunk == 1 {
          break;
        }
        chunk := chunk / 2;
      }
      return 0, [];
    }

    // One page of a prefix that is being unmapped from the space s
    method UnmapPage(page: nat, done: nat, ghost s: Space, ghost fs: seq<Frame>)
      requires done < |fs| && MappedTo(s, page, fs) && Abs() == Unmapped(s, page, fs[..done])
      modifies this`pages, this`shares
      ensures Abs() == Unmapped(s, page, fs[..done + 1])
    {
      NextPage(s, page, fs, done);
      if page + done in pages {
        var cleaned := CleanRangeAndUnfill(page + done, 1, pages[page + done].frame);
        assert cleaned;
      }
    }

    // linux_mm_unmap_prefix_pages: page by page
    method UnmapPrefix(page: nat, ghost fs: seq<Frame>, mapped: nat)
      requires |fs| == mapped && MappedTo(Space(pages, shares), page, fs)
      modifies this`pages, this`shares
      ensures Abs() == Unmapped(old(Abs()), page, fs)
    {
      var done := 0;
      ghost var s := Abs();
      UnmappedNothing(s, page);
      assert fs[..0] == [];
      while done < mapped
        invariant done <= mapped && Abs() == Unmapped(s, page, fs[..done])
      {
        UnmapPage(page, done, s, fs);
        done := done + 1;
      }
      assert fs[..mapped] == fs;
    }

    // The way back from a range that is mapped in part
    method Undo(page: nat, ghost frames: seq<Frame>, mapped: nat, ghost flags: nat, ghost s: Space)
      requires |frames| == mapped && InPart(s, page, frames, flags)
      modifies this`pages, this`shares
      ensures Abs() == s
    {
      UnmapUndoesMap(s, page, frames, flags);
      UnmapPrefix(page, frames, mapped);
    }

    // With part of the range mapped, not even the next page could be had.
    ghost predicate OnePageRefused(s: Space, page: nat, done: seq<Frame>, n: nat, flags: nat) reads this`asked {
      |done| < n && asked > 0 && !CanFill(Mapped(s, page, done, flags), page + |done|, 1, answers(asked - 1))
    }

    // linux_mm_map_user_range; locked and fits are the answers of the core about
    // the range lock and the end of the range.  Whatever the allocator does, the
    // call maps exactly the range, to frames nobody had, or changes nothing; in the
    // second case, with proper arguments, the allocator has refused a single page.
    method MapUserRange(hint: nat, n: nat, flags: nat, maxOrder: nat, locked: bool, fits: bool)
      returns (ok: bool, ghost frames: seq<Frame>)
      modifies this
      ensures ok ==> n > 0 && hint != 0 && hint % PAGE_SIZE == 0 && locked && fits
      ensures ok ==> |frames| == n && NoneMapped(old(Abs()), hint / PAGE_SIZE, n) && FreshFrames(old(shares), frames)
                     && Abs() == Mapped(old(Abs()), hint / PAGE_SIZE, frames, flags)
      ensures !ok ==> Abs() == old(Abs())
      ensures !ok && n > 0 && hint != 0 && hint % PAGE_SIZE == 0 && locked && fits ==>
                OnePageRefused(old(Abs()), hint / PAGE_SIZE, frames, n, flags)
    {
      frames := [];
      if n == 0 || hint == 0 || hint % PAGE_SIZE != 0 || !fits || !locked {
        return false, [];
      }
      var page := hint / PAGE_SIZE;
      var mapped := 0;
      ghost var s := Abs();
      while mapped < n
        invariant mapped <= n && |frames| == mapped && InPart(s, page, frames, flags)
      {
        var got;
        got, frames := MapMore(page, mapped, n, flags, maxOrder, s, frames);
        if got == 0 {
          Undo(page, frames, mapped, flags, s);
          return false, frames;
        }
        mapped := mapped + got;
      }
      ok := true;
    }

    // The first pages of the range are mapped, to frames nobody had.
    ghost predicate InPart(s: Space, page: nat, frames: seq<Frame>, flags: nat) reads this {
      && NoneMapped(s, page, |frames|) && FreshFrames(s.shares, frames)
      && Abs() == Mapped(s, page, frames, flags)
    }

    // One span more, or none
    method MapMore(page: nat, mapped: nat, n: nat, flags: nat, maxOrder: nat, ghost s: Space, ghost frames: seq<Frame>)
      returns (got: nat, ghost all: seq<Frame>)
      requires |frames| == mapped < n && InPart(s, page, frames, flags)
      modifies this
      ensures mapped + got <= n && |all| == mapped + got && InPart(s, page, all, flags)
      ensures got == 0 ==> OnePageRefused(s, page, all, n, flags)
    {
      ghost var more;
      got, more := FillOneSpan(page + mapped, n - mapped, maxOrder, flags);
      MappedThenMapped(s, page, frames, more, flags);
      FreshMore(s.shares, frames, more);
      NoneMappedMore(s, page, frames, flags, got);
      all := frames + more;
      assert got == 0 ==> all == frames;
    }

    // The longest contiguous run from page on, not past the end of the range
    method FindRun(page: nat, room: nat) returns (r: Run)
      requires room > 0 && page in pages
      ensures r.page == page && 0 < r.len <= room && r.frame == pages[page].frame
              && Contiguous(Abs(), page, r.len, r.frame)
      ensures r.len < room ==> page + r.len !in pages || pages[page + r.len].frame != r.frame + r.len
    {
      var len := 1;
      while len < room && page + len in pages && pages[page + len].frame == pages[page].frame + len
        invariant 1 <= len <= room && Contiguous(Abs(), page, len, pages[page].frame)
      {
        len := len + 1;
      }
      return Run(page, len, pages[page].frame);
    }

    // One run of the loop of linux_mm_unmap_user_range, with fs already unmapped
    // from the space s
    method UnmapRun(at: nat, room: nat, ghost s: Space, ghost page: nat, ghost fs: seq<Frame>) returns (r: Run)
      requires room > 0 && at in pages && at == page + |fs| && Progress(Abs(), s, page, fs)
      modifies this`pages, this`shares
      ensures r.page == at && 0 < r.len <= room
      ensures Progress(Abs(), s, page, fs + Ascending(r.frame, r.len))
    {
      Unfold(Abs(), s, page, fs);
      r := FindRun(at, room);
      RunWasThere(s, page, fs, r);
      UnmappedThenUnmapped(s, page, fs, Ascending(r.frame, r.len));
      var cleaned := CleanRangeAndUnfill(r.page, r.len, r.frame);
      assert cleaned;
    }

    // The loop of linux_mm_unmap_user_range
    method UnmapRuns(page: nat, n: nat) returns (runs: seq<Run>)
      modifies this`pages, this`shares
      ensures Covers(runs, page) && |RunFrames(runs)| <= n && Progress(Abs(), old(Abs()), page, RunFrames(runs))
      ensures |RunFrames(runs)| < n ==> page + |RunFrames(runs)| !in old(Abs()).pages
    {
      runs := [];
      ghost var s, fs := Abs(), [];
      Nothing(s, page);
      var done := 0;
      while done < n
        invariant done == |fs| <= n && Covers(runs, page) && fs == RunFrames(runs) && Progress(Abs(), s, page, fs)
      {
        StillMapped(Abs(), s, page, fs);
        if page + done !in pages {
          return;
        }
        var r := UnmapRun(page + done, n - done, s, page, fs);
        RunsMore(runs, page, r);
        runs, fs := runs + [r], fs + Ascending(r.frame, r.len);
        done := done + r.len;
      }
    }

    // linux_mm_unmap_user_range: every run it hands to the core is contiguous,
    // so none is refused; the runs cover the range in order, and the call fails
    // only at the first page that is not mapped.
    method UnmapUserRange(start: nat, n: nat, locked: bool, fits: bool) returns (ok: bool, runs: seq<Run>)
      modifies this`pages, this`shares
      ensures Covers(runs, start / PAGE_SIZE) && |RunFrames(runs)| <= n
      ensures Progress(Abs(), old(Abs()), start / PAGE_SIZE, RunFrames(runs))
      ensures ok <==> n > 0 && start % PAGE_SIZE == 0 && locked && fits && |RunFrames(runs)| == n
      ensures !ok && n > 0 && start % PAGE_SIZE == 0 && locked && fits ==>
              start / PAGE_SIZE + |RunFrames(runs)| !in old(Abs()).pages
    {
      if n == 0 || start % PAGE_SIZE != 0 || !fits || !locked {
        Nothing(Abs(), start / PAGE_SIZE);
        return false, [];
      }
      runs := UnmapRuns(start / PAGE_SIZE, n);
      ok := |RunFrames(runs)| == n;
    }
  }

  lemma UnmappedNothing(s: Space, page: nat)
    ensures Unmapped(s, page, []) == s
  {
    assert Cut(s.pages, page, 0) == s.pages;
  }

  lemma Nothing(s: Space, page: nat)
    ensures Progress(s, s, page, [])
  {
    UnmappedNothing(s, page);
  }

  lemma StillMapped(cur: Space, s: Space, page: nat, fs: seq<Frame>)
    requires Progress(cur, s, page, fs)
    ensures page + |fs| in s.pages <==> page + |fs| in cur.pages
  {
    Unfold(cur, s, page, fs);
  }

  // One more page of a prefix
  lemma NextPage(s: Space, page: nat, fs: seq<Frame>, done: nat)
    requires MappedTo(s, page, fs) && done < |fs|
    ensures var s1 := Unmapped(s, page, fs[..done]);
            && page + done in s1.pages && s1.pages[page + done].frame == fs[done]
            && Contiguous(s1, page + done, 1, fs[done])
            && Unmapped(s1, page + done, Ascending(fs[done], 1)) == Unmapped(s, page, fs[..done + 1])
  {
    assert Ascending(fs[done], 1) == [fs[done]];
    assert fs[..done] + [fs[done]] == fs[..done + 1];
    UnmappedThenUnmapped(s, page, fs[..done], [fs[done]]);
  }

  lemma NoneMappedMore(s: Space, page: nat, fs: seq<Frame>, flags: nat, more: nat)
    requires NoneMapped(s, page, |fs|) && NoneMapped(Mapped(s, page, fs, flags), page + |fs|, more)
    ensures NoneMapped(s, page, |fs| + more)
  {
    PutIs(s.pages, page, fs, flags);
  }

  lemma RunWasThere(s: Space, page: nat, fs: seq<Frame>, r: Run)
    requires MappedTo(s, page, fs) && r.page == page + |fs| && Contiguous(Unmapped(s, page, fs), r.page, r.len, r.frame)
    ensures MappedTo(s, page, fs + Ascending(r.frame, r.len))
  {
    var all := fs + Ascending(r.frame, r.len);
    var s1 := Unmapped(s, page, fs);
    forall i | 0 <= i < |all| ensures Maps(s, page + i, all[i]) {
      if i >= |fs| {
        assert Maps(s1, r.page + (i - |fs|), Ascending(r.frame, r.len)[i - |fs|]);
      } else {
        assert all[i] == fs[i];
      }
    }
  }

  lemma RunsMore(runs: seq<Run>, page: nat, r: Run)
    requires Covers(runs, page) && r.len > 0 && r.page == page + |RunFrames(runs)|
    ensures Covers(runs + [r], page) && RunFrames(runs + [r]) == RunFrames(runs) + Ascending(r.frame, r.len)
  {
    assert (runs + [r])[..|runs|] == runs;
  }

  // Map a range and unmap it again: the space is as it was.
  method MapThenUnmap(a: AddressSpace, hint: nat, n: nat, flags: nat, maxOrder: nat) returns (ok: bool)
    modifies a
    ensures a.Abs() == old(a.Abs())
  {
    ghost var frames;
    ok, frames := a.MapUserRange(hint, n, flags, maxOrder, true, true);
    if ok {
      ghost var s, page := a.Abs(), hint / PAGE_SIZE;
      var unmapped, runs := a.UnmapUserRange(hint, n, true, true);
      MapUnmapIdentity(old(a.Abs()), page, frames, flags, a.Abs(), RunFrames(runs));
    }
  }

  // Whatever chunks a range was mapped in and whatever runs it is unmapped in
  lemma MapUnmapIdentity(s: Space, page: nat, frames: seq<Frame>, flags: nat, cur: Space, fs: seq<Frame>)
    requires NoneMapped(s, page, |frames|) && Progress(cur, Mapped(s, page, frames, flags), page, fs)
    requires |fs| <= |frames| && (|fs| < |frames| ==> page + |fs| !in Mapped(s, page, frames, flags).pages)
    ensures fs == frames && cur == s
  {
    var s1 := Mapped(s, page, frames, flags);
    Unfold(cur, s1, page, fs);
    UnmapUndoesMap(s, page, frames, flags);
    SameFrames(s1, page, frames, fs);
  }

  // A range is mapped to one list of frames only.
  lemma SameFrames(s: Space, page: nat, a: seq<Frame>, b: seq<Frame>)
    requires MappedTo(s, page, a) && MappedTo(s, page, b) && |b| <= |a| && (|b| < |a| ==> page + |b| !in s.pages)
    ensures a == b
  {
    MappedUpTo(s, page, a, |b|);
    assert forall i :: 0 <= i < |a| ==> Maps(s, page + i, a[i]);
  }

  lemma MappedUpTo(s: Space, page: nat, fs: seq<Frame>, i: nat)
    requires MappedTo(s, page, fs)
    ensures i < |fs| ==> page + i in s.pages
  {
    if i < |fs| {
      assert Maps(s, page + i, fs[i]);
    }
  }
}
