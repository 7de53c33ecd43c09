/**
 The parser recovers what was archived, from every archive, and the data of every
 entry it accepts lie inside the image.  (The name of an entry is read up to its
 NUL; a last name without one ends here with the image, where the C code reads on.)
 */
module CpioProofs {
  import opened Wrappers
  import opened Bytes
  import opened CpioFormat

  // What the fields of a header can carry
  predicate Sound(e: Entry) {
    && e.mode < U32 && e.nlink < U32 && |e.data| < U32 && |e.name| + 1 < U32
    && NoNul(e.name)
  }

  // The header's fields are what the parser reads back.
  lemma {:induction false} FieldReads(pre: seq<Byte>, fs: seq<nat>, rest: seq<Byte>, k: nat)
    requires k < |fs| == 13 && fs[k] < U32
    ensures Field(pre + (MAGIC + Fields(fs)) + rest, |pre|, k) == fs[k]
  {
    FieldAt(fs, k);
    HexField(fs[k]);
    FieldMiddle(pre, Fields(fs), rest, k, Hex(fs[k], 8));
  }

  lemma FieldMiddle(pre: seq<Byte>, b: seq<Byte>, rest: seq<Byte>, k: nat, h: seq<Byte>)
    requires |b| == 104 && k < 13 && b[8 * k..8 * k + 8] == h
    ensures (pre + (MAGIC + b) + rest)[|pre| + 6 + 8 * k..|pre| + 14 + 8 * k] == h
  {
    Middle(pre + MAGIC, b, rest, 8 * k, 8 * k + 8);
    assert pre + (MAGIC + b) + rest == (pre + MAGIC) + b + rest;
  }

  lemma Middle(a: seq<Byte>, b: seq<Byte>, c: seq<Byte>, i: nat, j: nat)
    requires i <= j <= |b|
    ensures (a + b + c)[|a| + i..|a| + j] == b[i..j]
  {
  }

  lemma {:induction false} FieldsRead(pre: seq<Byte>, e: Entry, rest: seq<Byte>)
    requires Sound(e)
    ensures var image := pre + Head(e) + rest;
            && Field(image, |pre|, 11) == |e.name| + 1 && Field(image, |pre|, 6) == |e.data|
            && Field(image, |pre|, 1) == e.mode && Field(image, |pre|, 4) == e.nlink
            && image[|pre|..|pre| + 6] == MAGIC
  {
    var fs := FieldsOf(e);
    FieldReads(pre, fs, rest, 11);
    FieldReads(pre, fs, rest, 6);
    FieldReads(pre, fs, rest, 1);
    FieldReads(pre, fs, rest, 4);
    Middle(pre, Head(e), rest, 0, 6);
    assert Head(e)[0..6] == MAGIC;
  }

  lemma {:induction false} NameReads(pre: seq<Byte>, e: Entry, rest: seq<Byte>)
    requires NoNul(e.name)
    ensures CString((pre + Head(e) + (NameField(e) + rest))[|pre| + HDR_LEN..]) == e.name
  {
    var pad := Zeros(Align4(HDR_LEN + |e.name| + 1) - HDR_LEN - |e.name|);
    assert (pre + Head(e) + (NameField(e) + rest))[|pre| + HDR_LEN..] == e.name + (pad + rest);
    assert |pad| > 0;
    CStringIs(e.name, pad + rest);
  }

  // The table entry of an archived entry whose block starts at cur
  function Listed(e: Entry, cur: nat): Parsed {
    Parsed(PathOf(e.name), e.mode, e.nlink, cur + Align4(HDR_LEN + |e.name| + 1), |e.data|,
           TypeBits(e.mode) == 4, TypeBits(e.mode) == 10)
  }

  lemma Regroup(pre: seq<Byte>, h: seq<Byte>, n: seq<Byte>, d: seq<Byte>, p: seq<Byte>, rest: seq<Byte>)
    ensures pre + (h + n + d + p) + rest == pre + h + (n + (d + p + rest))
    ensures pre + (h + n + d + p) + rest == (pre + h + n) + d + (p + rest)
  {
  }

  // The fields and the name of e can be read at cur.
  ghost predicate ReadsAs(image: seq<Byte>, cur: nat, e: Entry) {
    && cur + BlockSize(e) <= |image| && image[cur..cur + 6] == MAGIC
    && Field(image, cur, 11) == |e.name| + 1 && Field(image, cur, 6) == |e.data|
    && Field(image, cur, 1) == e.mode && Field(image, cur, 4) == e.nlink
    && CString(image[cur + HDR_LEN..]) == e.name
  }

  lemma {:induction false} BlockReads(pre: seq<Byte>, e: Entry, rest: seq<Byte>)
    requires Sound(e)
    ensures ReadsAs(pre + Block(e) + rest, |pre|, e)
  {
    var p := Zeros(Align4(|e.data|) - |e.data|);
    Regroup(pre, Head(e), NameField(e), e.data, p, rest);
    FieldsRead(pre, e, NameField(e) + (e.data + p + rest));
    NameReads(pre, e, e.data + p + rest);
  }

  // What a round does with what it has read
  lemma {:induction false} LookIs(image: seq<Byte>, cur: nat, e: Entry)
    requires ReadsAs(image, cur, e)
    ensures Look(image, cur) == if e.name == TRAILER then Done else Next(e.name, Listed(e, cur), cur + BlockSize(e))
  {
    assert HDR_LEN + |e.name| + 1 <= Align4(HDR_LEN + |e.name| + 1) && |e.data| <= Align4(|e.data|);
  }

  // One round over a block
  lemma {:induction false} LookAtBlock(pre: seq<Byte>, e: Entry, rest: seq<Byte>)
    requires Sound(e)
    ensures var image := pre + Block(e) + rest;
            && |image| >= |pre| + HDR_LEN
            && Look(image, |pre|) == if e.name == TRAILER then Done
                else Next(e.name, Listed(e, |pre|), |pre| + BlockSize(e))
  {
    BlockReads(pre, e, rest);
    LookIs(pre + Block(e) + rest, |pre|, e);
  }

  // The data of the table entry are the archived bytes.
  lemma {:induction false} DataReads(pre: seq<Byte>, e: Entry, rest: seq<Byte>)
    ensures var image, p := pre + Block(e) + rest, Listed(e, |pre|);
            p.data + p.size <= |image| && image[p.data..p.data + p.size] == e.data
  {
    var h, n, p := Head(e), NameField(e), Zeros(Align4(|e.data|) - |e.data|);
    Regroup(pre, h, n, e.data, p, rest);
    DataMiddle(pre + h + n, e.data, p + rest);
  }

  lemma DataMiddle(a: seq<Byte>, d: seq<Byte>, c: seq<Byte>)
    ensures (a + d + c)[|a|..|a| + |d|] == d
  {
  }

  // ---- whole archives

  // The quantifiers over a single value keep blocks and the parser out of proofs
  // that only pass them on.
  ghost predicate IsBlockIn(seal: Seal, b: seq<Byte>, e: Entry) { b == Block(e) }

  ghost predicate IsBlock(b: seq<Byte>, e: Entry) { forall seal :: IsBlockIn(seal, b, e) }

  ghost predicate YieldsIn(seal: Seal, image: seq<Byte>, cur: nat, ps: seq<Parsed>) {
    ParseFrom(image, cur) == Some(ps)
  }

  ghost predicate Yields(image: seq<Byte>, cur: nat, ps: seq<Parsed>) { forall seal :: YieldsIn(seal, image, cur, ps) }

  function Table(es: seq<Entry>, cur: nat): seq<Parsed> {
    if es == [] then []
    else (if Skipped(es[0].name) then [] else [Listed(es[0], cur)]) + Table(es[1..], cur + BlockSize(es[0]))
  }

  ghost predicate AllSound(es: seq<Entry>) {
    forall i :: 0 <= i < |es| ==> Sound(es[i]) && es[i].name != TRAILER
  }

  lemma IsBlockSize(b: seq<Byte>, e: Entry)
    requires IsBlock(b, e)
    ensures |b| == BlockSize(e)
  {
    assert IsBlockIn(Seal, b, e);
  }

  lemma YieldsStep(image: seq<Byte>, cur: nat, name: seq<Byte>, p: Parsed, next: nat, ps: seq<Parsed>)
    requires cur + HDR_LEN <= |image| && Look(image, cur) == Next(name, p, next) && Yields(image, next, ps)
    ensures Yields(image, cur, (if Skipped(name) then [] else [p]) + ps)
  {
    assert YieldsIn(Seal, image, next, ps);
  }

  lemma LookAtIts(pre: seq<Byte>, b: seq<Byte>, e: Entry, rest: seq<Byte>)
    requires IsBlock(b, e) && Sound(e) && e.name != TRAILER
    ensures |pre + b + rest| >= |pre| + HDR_LEN
    ensures Look(pre + b + rest, |pre|) == Next(e.name, Listed(e, |pre|), |pre| + BlockSize(e))
  {
    assert IsBlockIn(Seal, b, e);
    LookAtBlock(pre, e, rest);
  }

  lemma YieldsMore(pre: seq<Byte>, b: seq<Byte>, e: Entry, rest: seq<Byte>, ps: seq<Parsed>)
    requires IsBlock(b, e) && Sound(e) && e.name != TRAILER && Yields(pre + b + rest, |pre| + BlockSize(e), ps)
    ensures Yields(pre + b + rest, |pre|, (if Skipped(e.name) then [] else [Listed(e, |pre|)]) + ps)
  {
    LookAtIts(pre, b, e, rest);
    YieldsStep(pre + b + rest, |pre|, e.name, Listed(e, |pre|), |pre| + BlockSize(e), ps);
  }

  lemma YieldsEnd(pre: seq<Byte>, b: seq<Byte>, junk: seq<Byte>)
    requires IsBlock(b, END)
    ensures Yields(pre + b + junk, |pre|, [])
  {
    assert IsBlockIn(Seal, b, END);
    assert NoNul(TRAILER);
    LookAtBlock(pre, END, junk);
  }

  ghost predicate AreBlocks(bs: seq<seq<Byte>>, es: seq<Entry>) {
    |bs| == |es| && forall i :: 0 <= i < |es| ==> IsBlock(bs[i], es[i])
  }

  lemma {:induction false} BlocksAre(es: seq<Entry>)
    ensures AreBlocks(Blocks(es), es)
    decreases |es|
  {
    if es != [] {
      BlocksAre(es[1..]);
      assert IsBlock(Block(es[0]), es[0]);
      BlocksCons(Block(es[0]), Blocks(es[1..]), es);
    }
  }

  lemma BlocksCons(b: seq<Byte>, bs: seq<seq<Byte>>, es: seq<Entry>)
    requires es != [] && IsBlock(b, es[0]) && AreBlocks(bs, es[1..])
    ensures AreBlocks([b] + bs, es)
  {
    forall i | 0 <= i < |es| ensures IsBlock(([b] + bs)[i], es[i]) {
      if i > 0 {
        assert IsBlock(bs[i - 1], es[1..][i - 1]);
      }
    }
  }

  lemma BlocksTail(bs: seq<seq<Byte>>, es: seq<Entry>)
    requires es != [] && AreBlocks(bs, es)
    ensures IsBlock(bs[0], es[0]) && AreBlocks(bs[1..], es[1..])
  {
    forall i | 0 <= i < |es[1..]| ensures IsBlock(bs[1..][i], es[1..][i]) {
      assert IsBlock(bs[i + 1], es[i + 1]);
    }
  }

  lemma {:induction false} YieldsArchive(pre: seq<Byte>, bs: seq<seq<Byte>>, es: seq<Entry>, end: seq<Byte>,
      junk: seq<Byte>)
    requires AllSound(es) && AreBlocks(bs, es) && IsBlock(end, END)
    ensures Yields(pre + (Concat(bs) + end + junk), |pre|, Table(es, |pre|))
    decreases |es|
  {
    if es == [] {
      YieldsEnd(pre, end, junk);
      assert pre + (Concat(bs) + end + junk) == pre + end + junk;
    } else {
      BlocksTail(bs, es);
      IsBlockSize(bs[0], es[0]);
      var b, rest := bs[0], Concat(bs[1..]) + end + junk;
      YieldsArchive(pre + b, bs[1..], es[1..], end, junk);
      assert pre + (Concat(bs) + end + junk) == pre + b + rest;
      YieldsMore(pre, b, es[0], rest, Table(es[1..], |pre| + BlockSize(es[0])));
    }
  }

  // Parsing an archive, whatever follows its trailer, gives back its entries in
  // order, without those named ".", ".." or nothing.
  lemma ParseOfArchive(es: seq<Entry>, junk: seq<Byte>)
    requires AllSound(es)
    ensures Parse(Archive(es) + Block(END) + junk) == Some(Table(es, 0))
  {
    BlocksAre(es);
    assert IsBlock(Block(END), END);
    ParseOfBlocks(Blocks(es), es, Block(END), junk);
  }

  lemma {:induction false} ParseOfBlocks(bs: seq<seq<Byte>>, es: seq<Entry>, end: seq<Byte>, junk: seq<Byte>)
    requires AllSound(es) && AreBlocks(bs, es) && IsBlock(end, END)
    ensures Parse(Concat(bs) + end + junk) == Some(Table(es, 0))
  {
    var image := Concat(bs) + end + junk;
    YieldsArchive([], bs, es, end, junk);
    assert [] + image == image;
    assert YieldsIn(Seal, image, 0, Table(es, 0));
    IsBlockSize(end, END);
  }

  // The table entry p describes e, and its data in the image are e's.
  ghost predicate IsCopy(image: seq<Byte>, p: Parsed, e: Entry) {
    && p.path == PathOf(e.name) && p.mode == e.mode && p.nlink == e.nlink && p.size == |e.data|
    && p.isDir == (TypeBits(e.mode) == 4) && p.isSymlink == (TypeBits(e.mode) == 10)
    && p.data + p.size <= |image| && image[p.data..p.data + p.size] == e.data
  }

  ghost predicate Copies(image: seq<Byte>, ps: seq<Parsed>, es: seq<Entry>) {
    |ps| == |es| && forall k :: 0 <= k < |es| ==> IsCopy(image, ps[k], es[k])
  }

  // The entries that make it into the table
  function Kept(es: seq<Entry>): seq<Entry> {
    if es == [] then [] else (if Skipped(es[0].name) then [] else [es[0]]) + Kept(es[1..])
  }

  lemma CopiesCons(image: seq<Byte>, p: Parsed, e: Entry, ps: seq<Parsed>, es: seq<Entry>)
    requires IsCopy(image, p, e) && Copies(image, ps, es)
    ensures Copies(image, [p] + ps, [e] + es)
  {
    forall k | 0 <= k < |[e] + es| ensures IsCopy(image, ([p] + ps)[k], ([e] + es)[k]) {
      if k > 0 {
        assert IsCopy(image, ps[k - 1], es[k - 1]);
      }
    }
  }

  lemma {:induction false} TableCopies(pre: seq<Byte>, bs: seq<seq<Byte>>, es: seq<Entry>, rest: seq<Byte>)
    requires AreBlocks(bs, es)
    ensures Copies(pre + Concat(bs) + rest, Table(es, |pre|), Kept(es))
    decreases |es|
  {
    if es != [] {
      var b, tail := bs[0], Concat(bs[1..]);
      BlocksTail(bs, es);
      IsBlockSize(b, es[0]);
      TableCopies(pre + b, bs[1..], es[1..], rest);
      Shift(pre, b, tail, rest);
      TableMore(pre, b, es, tail + rest);
    }
  }

  lemma Shift(pre: seq<Byte>, b: seq<Byte>, tail: seq<Byte>, rest: seq<Byte>)
    ensures pre + (b + tail) + rest == (pre + b) + tail + rest == pre + b + (tail + rest)
  {
  }

  lemma {:induction false} TableMore(pre: seq<Byte>, b: seq<Byte>, es: seq<Entry>, rest: seq<Byte>)
    requires es != [] && IsBlock(b, es[0]) && Copies(pre + b + rest, Table(es[1..], |pre| + BlockSize(es[0])),
             Kept(es[1..]))
    ensures Copies(pre + b + rest, Table(es, |pre|), Kept(es))
  {
    var e, ps, ks := es[0], Table(es[1..], |pre| + BlockSize(es[0])), Kept(es[1..]);
    if Skipped(e.name) {
      assert [] + ps == ps && [] + ks == ks;
    } else {
      BlockData(pre, b, e, rest);
      CopiesCons(pre + b + rest, Listed(e, |pre|), e, ps, ks);
    }
  }

  // The whole round trip: each entry of the table describes its archived entry
  // and points at its bytes.
  lemma ArchiveRoundTrip(es: seq<Entry>, junk: seq<Byte>)
    requires AllSound(es)
    ensures var image := Archive(es) + Block(END) + junk;
            Parse(image).Some? && Copies(image, Parse(image).value, Kept(es))
  {
    BlocksAre(es);
    assert IsBlock(Block(END), END);
    RoundTripOfBlocks(Blocks(es), es, Block(END), junk);
  }

  lemma {:induction false} RoundTripOfBlocks(bs: seq<seq<Byte>>, es: seq<Entry>, end: seq<Byte>, junk: seq<Byte>)
    requires AllSound(es) && AreBlocks(bs, es) && IsBlock(end, END)
    ensures var image := Concat(bs) + end + junk;
            Parse(image).Some? && Copies(image, Parse(image).value, Kept(es))
  {
    ParseOfBlocks(bs, es, end, junk);
    TableCopies([], bs, es, end + junk);
    assert [] + Concat(bs) + (end + junk) == Concat(bs) + end + junk;
  }

  lemma BlockData(pre: seq<Byte>, b: seq<Byte>, e: Entry, rest: seq<Byte>)
    requires IsBlock(b, e)
    ensures var image, p := pre + b + rest, Listed(e, |pre|);
            p.data + p.size <= |image| && image[p.data..p.data + p.size] == e.data
  {
    assert IsBlockIn(Seal, b, e);
    DataReads(pre, e, rest);
  }

  // On every image, well formed or not, the data of every accepted entry lie
  // inside it.
  lemma {:induction false} DataInside(image: seq<Byte>, cur: nat)
    ensures ParseFrom(image, cur).Some? ==>
              forall i :: 0 <= i < |ParseFrom(image, cur).value| ==>
                var p := ParseFrom(image, cur).value[i]; cur < p.data && p.data + p.size <= |image|
    decreases |image| - cur
  {
    if cur + HDR_LEN <= |image| {
      match Look(image, cur) {
        case Next(name, entry, next) => DataInside(image, next);
        case _ =>
      }
    }
  }

  // One round of the loop
  method LookAt(image: seq<Byte>, cur: nat) returns (r: Round)
    requires cur + HDR_LEN <= |image|
    ensures r == Look(image, cur)
  {
    if image[cur..cur + 6] != MAGIC {
      return Bad;
    }
    var namesize := HexField8(image[cur + 94..cur + 102]);
    var filesize := HexField8(image[cur + 54..cur + 62]);
    var mode := HexField8(image[cur + 14..cur + 22]);
    var nlink := HexField8(image[cur + 38..cur + 46]);
    var at := cur + HDR_LEN;
    if at + namesize > |image| {
      return Bad;
    }
    var name := ReadName(image, at);
    if name == TRAILER {
      return Done;
    }
    var data := cur + Align4(HDR_LEN + namesize);
    if data + filesize > |image| {
      return Bad;
    }
    return Next(name, Parsed(PathOf(name), mode, nlink, data, filesize, TypeBits(mode) == 4, TypeBits(mode) == 10),
                data + Align4(filesize));
  }

  // What has been collected and what is still to come make up total.
  ghost predicate LeftIn(seal: Seal, image: seq<Byte>, cur: nat, ps: seq<Parsed>, total: Option<seq<Parsed>>) {
    total == Prepend(ps, ParseFrom(image, cur))
  }

  ghost predicate Left(image: seq<Byte>, cur: nat, ps: seq<Parsed>, total: Option<seq<Parsed>>) {
    forall seal :: LeftIn(seal, image, cur, ps, total)
  }

  lemma LeftNext(image: seq<Byte>, cur: nat, ps: seq<Parsed>, total: Option<seq<Parsed>>, r: Round)
    requires Left(image, cur, ps, total) && cur + HDR_LEN <= |image| && r == Look(image, cur)
    ensures r.Bad? ==> total == None
    ensures r.Done? ==> total == Some(ps)
    ensures r.Next? ==> Left(image, r.cur, ps + (if Skipped(r.name) then [] else [r.entry]), total) && r.cur > cur
  {
    assert LeftIn(Seal, image, cur, ps, total);
    assert ps + [] == ps;
    if r.Next? {
      PrependTwice(ps, if Skipped(r.name) then [] else [r.entry], ParseFrom(image, r.cur));
    }
  }

  lemma LeftNothing(image: seq<Byte>, cur: nat, ps: seq<Parsed>, total: Option<seq<Parsed>>)
    requires Left(image, cur, ps, total) && cur + HDR_LEN > |image|
    ensures total == Some(ps)
  {
    assert LeftIn(Seal, image, cur, ps, total);
    assert ps + [] == ps;
  }

  lemma LeftAll(image: seq<Byte>)
    requires |image| >= HDR_LEN
    ensures Left(image, 0, [], Parse(image))
    ensures Parse(image).Some? ==> forall i :: 0 <= i < |Parse(image).value| ==>
            Parse(image).value[i].data + Parse(image).value[i].size <= |image|
  {
    DataInside(image, 0);
    if Parse(image).Some? {
      assert [] + Parse(image).value == Parse(image).value;
    }
  }

  // cpio_rofs_init: the cursor loop; it ends on every image because the cursor
  // moves by at least a header.
  method Init(image: seq<Byte>) returns (table: Option<seq<Parsed>>)
    ensures table == Parse(image)
    ensures table.Some? ==> forall i :: 0 <= i < |table.value| ==> table.value[i].data + table.value[i].size <= |image|
  {
    if |image| < HDR_LEN {
      return None;
    }
    LeftAll(image);
    ghost var total := Parse(image);
    var cur := 0;
    var ps: seq<Parsed> := [];
    while cur + HDR_LEN <= |image|
      invariant Left(image, cur, ps, total)
      decreases |image| - cur
    {
      var r := LookAt(image, cur);
      LeftNext(image, cur, ps, total, r);
      match r {
        case Bad => return None;
        case Done => return Some(ps);
        case Next(name, entry, next) =>
          ps := ps + if Skipped(name) then [] else [entry];
          cur := next;
      }
    }
    LeftNothing(image, cur, ps, total);
    return Some(ps);
  }

  function Prepend(ps: seq<Parsed>, r: Option<seq<Parsed>>): Option<seq<Parsed>> {
    match r
    case None => None
    case Some(rest) => Some(ps + rest)
  }

  lemma PrependTwice(a: seq<Parsed>, b: seq<Parsed>, r: Option<seq<Parsed>>)
    ensures Prepend(a, Prepend(b, r)) == Prepend(a + b, r)
  {
    if r.Some? {
      assert a + (b + r.value) == (a + b) + r.value;
    }
  }

  method ReadName(image: seq<Byte>, at: nat) returns (name: seq<Byte>)
    requires at <= |image|
    ensures name == CString(image[at..])
  {
    name := [];
    var i := at;
    while i < |image| && image[i] != 0
      invariant at <= i <= |image| && CString(image[at..]) == name + CString(image[i..])
    {
      assert image[i..][1..] == image[i + 1..];
      assert name + ([image[i]] + CString(image[i + 1..])) == (name + [image[i]]) + CString(image[i + 1..]);
      name := name + [image[i]];
      i := i + 1;
    }
  }
}
