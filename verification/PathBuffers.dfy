/**
 The path functions as they run: index loops over C strings that fill component
 arrays and fixed buffers.  A C string is given without its NUL.
 */
module PathBuffers {
  import opened Wrappers
  import opened PathAlgebra

  lemma {:induction false} HeadIs(s: string, k: nat)
    requires k <= |s| && NoSlash(s[..k]) && (k == |s| || s[k] == '/')
    ensures Head(s) == s[..k]
  {
    if k == |s| {
      assert s[..k] == s;
      HeadAlone(s);
    } else {
      assert s == s[..k] + "/" + s[k + 1..];
      HeadOfJoin(s[..k], s[k + 1..]);
    }
  }

  method ComponentLength(raw: string, src: nat) returns (clen: nat)
    requires src <= |raw|
    ensures src + clen <= |raw| && Head(raw[src..]) == raw[src..src + clen]
  {
    clen := 0;
    while src + clen < |raw| && raw[src + clen] != '/'
      invariant src + clen <= |raw| && NoSlash(raw[src..src + clen])
    {
      assert raw[src..src + clen + 1] == raw[src..src + clen] + [raw[src + clen]];
      clen := clen + 1;
    }
    assert raw[src..][..clen] == raw[src..src + clen];
    HeadIs(raw[src..], clen);
  }

  // The components kept so far are slices of the raw path.
  ghost predicate Kept(raw: string, off: seq<nat>, len: seq<nat>, st: Comps) {
    && |off| == |len| && |st| <= |off|
    && forall d :: 0 <= d < |st| ==> off[d] + len[d] <= |raw| && raw[off[d]..off[d] + len[d]] == st[d]
  }

  // The bytes that the code writes to when it is given a buffer of cap bytes: one
  // behind the end of a buffer of one byte
  function Room(cap: nat): nat { if cap == 1 then 2 else cap }

  // Copies s behind position i as far as the buffer goes; x is what the buffer
  // would hold without its end.
  method PutChars(out: array<char>, cap: nat, i: nat, s: string, ghost x: string) returns (i': nat)
    requires out.Length == cap || (out.Length == Room(cap) && i > 0)
    requires i < out.Length && out[..i] == Take(x, out.Length - 1)
    modifies out
    ensures i <= i' < out.Length && out[..i'] == Take(x + s, out.Length - 1)
  {
    var j := 0;
    i' := i;
    assert x + s[..0] == x;
    while j < |s| && i' + 1 < cap
      invariant j <= |s| && i <= i' < out.Length && out[..i'] == Take(x + s[..j], out.Length - 1)
    {
      out[i'] := s[j];
      assert x + s[..j + 1] == x + s[..j] + [s[j]];
      i', j := i' + 1, j + 1;
    }
    if j < |s| {
      assert |x + s[..j]| >= out.Length - 1;
      assert (x + s)[..out.Length - 1] == (x + s[..j])[..out.Length - 1];
    } else {
      assert s[..j] == s;
    }
  }

  // ---- collapse

  // What is left to fold when the cursor is behind a component.
  lemma {:induction false} NextComponent(raw: string, src: nat, clen: nat, st: Comps)
    requires src + clen <= |raw| && Head(raw[src..]) == raw[src..src + clen] && |st| < MAX_DEPTH
    ensures var src' := if src + clen < |raw| then src + clen + 1 else src + clen;
            Fold(st, Split(raw[src..])) == Fold(Visit(st, raw[src..src + clen]), Split(raw[src'..]))
  {
    var s, c := raw[src..], raw[src..src + clen];
    var st' := Visit(st, c);
    if src + clen == |raw| {
      assert c == s && Split(s) == [s];
      var one: Comps := [s];
      assert one[1..] == [];
      assert Fold(st, one) == Fold(st', []);
      assert raw[src + clen..] == "";
      FoldOneDot(st');
    } else {
      assert s[clen + 1..] == raw[src + clen + 1..];
      assert Split(s) == [c] + Split(raw[src + clen + 1..]);
      assert ([c] + Split(raw[src + clen + 1..]))[1..] == Split(raw[src + clen + 1..]);
    }
  }

  // One round of the loop: the component goes, or pops, or is kept as a slice.
  method VisitComponent(raw: string, src: nat, clen: nat, off: array<nat>, len: array<nat>, depth: nat, ghost st: Comps)
    returns (depth': nat)
    requires off.Length == len.Length == MAX_DEPTH && off != len && depth == |st| < MAX_DEPTH
    requires Kept(raw, off[..], len[..], st) && src + clen <= |raw|
    modifies off, len
    ensures depth' == |Visit(st, raw[src..src + clen])| <= MAX_DEPTH
    ensures Kept(raw, off[..], len[..], Visit(st, raw[src..src + clen]))
  {
    depth' := depth;
    if clen > 0 {
      if clen == 1 && raw[src] == '.' {
        assert raw[src..src + clen] == ".";
      } else if clen == 2 && raw[src] == '.' && raw[src + 1] == '.' {
        assert raw[src..src + clen] == "..";
        if depth > 0 {
          depth' := depth - 1;
        }
      } else {
        var copy := clen;
        if copy >= MAX_COMP {
          copy := MAX_COMP - 1;
        }
        off[depth] := src;
        len[depth] := copy;
        depth' := depth + 1;
        ghost var c := raw[src..src + clen];
        assert clen == 1 ==> c[0] != '.';
        assert clen == 2 ==> c[0] != '.' || c[1] != '.';
        assert Clip(c) == raw[src..src + copy];
        KeptMore(raw, old(off[..]), old(len[..]), st, off[..], len[..], Clip(c));
      }
    }
  }

  lemma KeptMore(raw: string, off: seq<nat>, len: seq<nat>, st: Comps, off': seq<nat>, len': seq<nat>, c: string)
    requires Kept(raw, off, len, st) && |st| < |off| && |off'| == |off| == |len'|
    requires off' == off[|st| := off'[|st|]] && len' == len[|st| := len'[|st|]]
    requires off'[|st|] + len'[|st|] <= |raw| && raw[off'[|st|]..off'[|st|] + len'[|st|]] == c
    ensures Kept(raw, off', len', st + [c])
  {
  }

  // The components of a raw path
  function RawComps(raw: string): Comps {
    Split(if raw != "" && raw[0] == '/' then raw[1..] else raw)
  }

  // Folding what is behind the cursor onto st gives total.  The quantifier over
  // a single value keeps the fold out of proofs that only pass it on.
  ghost predicate RemainsIn(seal: Seal, raw: string, src: nat, st: Comps, total: Comps) {
    src <= |raw| && total == Fold(st, Split(raw[src..]))
  }

  ghost predicate Remains(raw: string, src: nat, st: Comps, total: Comps) {
    forall seal :: RemainsIn(seal, raw, src, st, total)
  }

  // The cursor is at src, the components before it make up st, all of them total.
  ghost predicate Scanned(raw: string, src: nat, off: seq<nat>, len: seq<nat>, st: Comps, total: Comps) {
    src <= |raw| && |st| <= MAX_DEPTH && Kept(raw, off, len, st) && Remains(raw, src, st, total)
  }

  function Behind(raw: string, src: nat, clen: nat): nat {
    if src + clen < |raw| then src + clen + 1 else src + clen
  }

  lemma RemainsNext(raw: string, src: nat, clen: nat, st: Comps, total: Comps)
    requires Remains(raw, src, st, total) && src + clen <= |raw| && Head(raw[src..]) == raw[src..src + clen]
             && |st| < MAX_DEPTH
    ensures Remains(raw, Behind(raw, src, clen), Visit(st, raw[src..src + clen]), total)
  {
    assert RemainsIn(Seal, raw, src, st, total);
    NextComponent(raw, src, clen, st);
  }

  method TakeComponent(raw: string, src: nat, ghost st: Comps, ghost total: Comps) returns (clen: nat)
    requires src < |raw| && |st| < MAX_DEPTH && Remains(raw, src, st, total)
    ensures src + clen <= |raw| && (clen == 0 ==> src + clen < |raw|)
    ensures Remains(raw, Behind(raw, src, clen), Visit(st, raw[src..src + clen]), total)
  {
    clen := ComponentLength(raw, src);
    RemainsNext(raw, src, clen, st, total);
  }

  method NextRound(raw: string, src: nat, off: array<nat>, len: array<nat>, depth: nat, ghost st: Comps,
      ghost total: Comps)
    returns (src': nat, depth': nat, ghost st': Comps)
    requires off.Length == len.Length == MAX_DEPTH && off != len && depth == |st| < MAX_DEPTH && src < |raw|
    requires Scanned(raw, src, off[..], len[..], st, total)
    modifies off, len
    ensures src < src' && depth' == |st'| && Scanned(raw, src', off[..], len[..], st', total)
  {
    var clen := TakeComponent(raw, src, st, total);
    depth' := VisitComponent(raw, src, clen, off, len, depth, st);
    st' := Visit(st, raw[src..src + clen]);
    src' := Behind(raw, src, clen);
  }

  lemma ScanEnds(raw: string, src: nat, off: seq<nat>, len: seq<nat>, st: Comps, total: Comps)
    requires Scanned(raw, src, off, len, st, total) && (src == |raw| || |st| == MAX_DEPTH)
    ensures total == st
  {
    assert RemainsIn(Seal, raw, src, st, total);
    if src == |raw| {
      assert raw[src..] == "";
      FoldOneDot(st);
    }
  }

  method FindComponents(raw: string, off: array<nat>, len: array<nat>, ghost total: Comps) returns (depth: nat)
    requires off.Length == len.Length == MAX_DEPTH && off != len && total == Fold([], RawComps(raw))
    modifies off, len
    ensures depth == |total| && Kept(raw, off[..], len[..], total)
  {
    depth := 0;
    var src := if raw != "" && raw[0] == '/' then 1 else 0;
    ghost var st: Comps := [];
    assert raw[0..] == raw;
    while src < |raw| && depth < MAX_DEPTH
      invariant depth == |st| && Scanned(raw, src, off[..], len[..], st, total)
      decreases |raw| - src
    {
      src, depth, st := NextRound(raw, src, off, len, depth, st, total);
    }
    ScanEnds(raw, src, off[..], len[..], st, total);
  }

  // The rendered components, with a slash behind each but the last
  method WriteComponents(raw: string, off: array<nat>, len: array<nat>, depth: nat, out: array<char>, cap: nat,
                         ghost st: Comps)
      returns (i: nat)
    requires off.Length == len.Length == MAX_DEPTH && 0 < depth == |st| <= MAX_DEPTH && Kept(raw, off[..], len[..], st)
    requires out.Length == Room(cap) >= 2
    modifies out
    ensures i < out.Length && out[..i] == Take(Slashed(st), out.Length - 1)
  {
    i := WriteRoot(out, st);
    var d := 0;
    while d < depth
      invariant d <= depth && 0 < i < out.Length && out[..i] == Take(Written(st, d), out.Length - 1)
    {
      i := WriteNth(raw, off, len, d, depth, out, cap, i, st);
      d := d + 1;
    }
    assert Written(st, depth) == Slashed(st);
  }

  method WriteRoot(out: array<char>, ghost st: Comps) returns (i: nat)
    requires out.Length >= 2 && st != []
    modifies out
    ensures 0 < i < out.Length && out[..i] == Take(Written(st, 0), out.Length - 1)
  {
    out[0] := '/';
    assert st[..0] == [] && Slashed([]) + "/" == "/";
    assert out[..1] == "/";
    i := 1;
  }

  method WriteNth(raw: string, off: array<nat>, len: array<nat>, d: nat, depth: nat, out: array<char>, cap: nat,
                  i: nat, ghost st: Comps)
      returns (i': nat)
    requires off.Length == len.Length == MAX_DEPTH && d < depth == |st| <= MAX_DEPTH && Kept(raw, off[..], len[..], st)
    requires 0 < i < out.Length == Room(cap) && out[..i] == Take(Written(st, d), out.Length - 1)
    modifies out
    ensures 0 < i' < out.Length && out[..i'] == Take(Written(st, d + 1), out.Length - 1)
  {
    KeptAt(raw, off[..], len[..], st, d);
    i' := WriteOne(raw, off[d], len[d], d, depth, out, cap, i, st);
  }

  lemma KeptAt(raw: string, off: seq<nat>, len: seq<nat>, st: Comps, d: nat)
    requires Kept(raw, off, len, st) && d < |st|
    ensures d < |off| == |len| && off[d] + len[d] <= |raw| && raw[off[d]..off[d] + len[d]] == st[d]
  {
  }

  method WriteOne(raw: string, off: nat, len: nat, d: nat, depth: nat, out: array<char>, cap: nat, i: nat,
                  ghost st: Comps)
      returns (i': nat)
    requires d < depth == |st| && off + len <= |raw| && raw[off..off + len] == st[d]
    requires 0 < i < out.Length == Room(cap) && out[..i] == Take(Written(st, d), out.Length - 1)
    modifies out
    ensures 0 < i' < out.Length && out[..i'] == Take(Written(st, d + 1), out.Length - 1)
  {
    WrittenNext(st, d);
    i' := PutComponent(out, cap, i, raw[off..off + len], d + 1 < depth, Written(st, d));
  }

  method PutComponent(out: array<char>, cap: nat, i: nat, c: string, more: bool, ghost x: string) returns (i': nat)
    requires 0 < i < out.Length == Room(cap) && out[..i] == Take(x, out.Length - 1)
    modifies out
    ensures 0 < i' < out.Length && out[..i'] == Take(x + c + (if more then "/" else ""), out.Length - 1)
  {
    i' := PutChars(out, cap, i, c, x);
    if more {
      i' := PutChars(out, cap, i', "/", x + c);
    } else {
      assert x + c + "" == x + c;
    }
  }

  // What has been written after d components
  function Written(st: Comps, d: nat): string {
    if d < |st| then Slashed(st[..d]) + "/" else Slashed(st)
  }

  lemma {:induction false} WrittenNext(st: Comps, d: nat)
    requires d < |st|
    ensures Written(st, d + 1) == Written(st, d) + st[d] + if d + 1 < |st| then "/" else ""
  {
    assert st[..d + 1][..d] == st[..d];
    assert d + 1 == |st| ==> st[..d + 1] == st;
  }

  // vfs_path_collapse; the result is cut off at the end of the buffer.  A buffer of
  // one byte is overrun: "/" and its NUL are always written.
  method Collapse(raw: string, out: array<char>, cap: nat) returns (n: nat)
    requires out.Length == Room(cap) >= 2
    modifies out
    ensures n < out.Length && out[n] == '\0' && out[..n] == Take(Render(Fold([], RawComps(raw))), out.Length - 1)
  {
    var off, len := new nat[MAX_DEPTH], new nat[MAX_DEPTH];
    ghost var st := Fold([], RawComps(raw));
    var depth := FindComponents(raw, off, len, st);
    if depth == 0 {
      out[0], out[1] := '/', '\0';
      return 1;
    }
    n := WriteComponents(raw, off, len, depth, out, cap, st);
    out[n] := '\0';
  }

  // ---- normalize

  lemma ScratchComps(body: string)
    ensures RawComps(Take("/" + body, PATH_MAX - 1)) == Split(Take(body, PATH_MAX - 2))
  {
    var t := Take("/" + body, PATH_MAX - 1);
    assert t[1..] == Take(body, PATH_MAX - 2);
  }

  // The buffer holds s, cut off at its end, and a NUL.
  ghost predicate Holds(out: seq<char>, n: nat, s: string) {
    n < |out| && out[n] == '\0' && out[..n] == Take(s, |out| - 1)
  }

  method NormalizePath(path: string, out: array<char>, cap: nat) returns (n: nat)
    requires out.Length == Room(cap)
    modifies out
    ensures if cap == 0 then n == 0 else Holds(out[..], n, Normalize(path))
  {
    if cap == 0 {
      return 0;
    }
    var scratch := new char[PATH_MAX];
    var src := 0;
    if |path| >= 2 && path[0] == '.' && path[1] == '/' {
      assert path[..2] == "./";
      src := 2;
    } else if |path| == 1 && path[0] == '.' {
      assert path == ".";
      src := 1;
    } else {
      assert |path| >= 2 ==> path[..2][0] == path[0] && path[..2][1] == path[1];
      assert path[0..] == path;
    }
    if src < |path| && path[src] == '/' {
      src := src + 1;
    }
    assert path[src..] == Body(path);
    scratch[0] := '/';
    assert scratch[..1] == Take("/", PATH_MAX - 1);
    var i := PutChars(scratch, PATH_MAX, 1, path[src..], "/");
    ScratchComps(Body(path));
    n := Collapse(scratch[..i], out, cap);
  }

  // The scan back to the last slash
  method FindCut(norm: string) returns (i: nat)
    ensures i == CutPoint(norm) <= |norm|
  {
    i := |norm|;
    assert norm[..i] == norm;
    while i > 1 && norm[i - 1] != '/'
      invariant i <= |norm| && CutPoint(norm) == CutPoint(norm[..i])
    {
      assert norm[..i][..i - 1] == norm[..i - 1];
      i := i - 1;
    }
  }

  // memcpy or strncpy of a string that fits
  method CopyString(s: string, out: array<char>)
    requires |s| < out.Length
    modifies out
    ensures Holds(out[..], |s|, s)
  {
    for k := 0 to |s|
      invariant forall j :: 0 <= j < k ==> out[j] == s[j]
    {
      out[k] := s[k];
    }
    out[|s|] := '\0';
    assert out[..|s|] == s;
  }

  // A buffer of one byte is overrun when the parent is the root.
  method ParentPath(path: string, out: array<char>, cap: nat) returns (ok: bool, n: nat)
    requires out.Length == Room(cap)
    modifies out
    ensures ok == (Parent(path).Some? && |Parent(path).value| < out.Length)
    ensures ok ==> n == |Parent(path).value| && Holds(out[..], n, Parent(path).value)
  {
    if cap == 0 {
      return false, 0;
    }
    var buf := new char[PATH_MAX];
    NormalizeFits(path);
    var len := NormalizePath(path, buf, PATH_MAX);
    var norm := buf[..len];
    assert norm == Normalize(path);
    if norm == "/" {
      return false, 0;
    }
    var i := FindCut(norm);
    if i <= 1 {
      CopyString("/", out);
      return true, 1;
    }
    ok, n := i < cap, i;
    if ok {
      CopyString(norm[..i], out);
    }
  }

  // For every buffer; a name has at most 63 characters, so one of 64 bytes, as
  // rename and link use it, holds all of it.
  method BasenamePath(path: string, out: array<char>) returns (ok: bool, n: nat)
    modifies out
    ensures ok == (Basename(path).Some? && out.Length >= 2)
    ensures ok ==> Holds(out[..], n, Basename(path).value)
    ensures ok && out.Length >= MAX_COMP ==> out[..n] == Basename(path).value
  {
    if out.Length == 0 {
      return false, 0;
    }
    var buf := new char[PATH_MAX];
    NormalizeFits(path);
    var len := NormalizePath(path, buf, PATH_MAX);
    var norm := buf[..len];
    assert norm == Normalize(path);
    if norm == "/" {
      return false, 0;
    }
    var i := FindCut(norm);
    NameIs(path);
    ok, n := CutString(norm[i..], out);
  }

  lemma NameIs(path: string)
    requires Normalize(path) != "/"
    ensures var norm := Normalize(path);
            var i := CutPoint(norm);
            i <= |norm| && Basename(path) == Some(norm[i..]) && 0 < |norm[i..]| < MAX_COMP
  {
    ParentAndBasename(path);
    StackIsTidy(path);
    NormalizeFits(path);
    assert Plain(Stack(path)[|Stack(path)| - 1]);
  }

  // strncpy and a NUL: as much of the string as fits, if anything does
  method CutString(s: string, out: array<char>) returns (any: bool, n: nat)
    requires out.Length > 0 && s != ""
    modifies out
    ensures any == (out.Length >= 2)
    ensures any ==> Holds(out[..], n, s)
  {
    n := PutChars(out, out.Length, 0, s, "");
    assert "" + s == s;
    any := n > 0;
    if any {
      out[n] := '\0';
    }
  }

  // ---- join

  method JoinGeneral(norm: string, r: string, out: array<char>, cap: nat) returns (ok: bool, n: nat)
    requires out.Length == Room(cap) >= 2 && 0 < |norm| < PATH_MAX
    modifies out
    ensures ok == JoinPlain(norm, r).Some? && (ok ==> Holds(out[..], n, JoinPlain(norm, r).value))
  {
    var scratch := new char[PATH_MAX];
    var i := PutChars(scratch, PATH_MAX, 0, norm, "");
    assert "" + norm == norm;
    ghost var s := norm;
    if scratch[i - 1] != '/' && i + 1 < PATH_MAX {
      i := PutChars(scratch, PATH_MAX, i, "/", s);
      s := s + "/";
    }
    i := PutChars(scratch, PATH_MAX, i, r, s);
    n := NormalizePath(scratch[..i], out, cap);
    ok := true;
  }

  method JoinParent(norm: string, rest: Option<string>, out: array<char>, cap: nat) returns (ok: bool, n: nat)
    requires out.Length == Room(cap) >= 2 && |norm| < PATH_MAX
    modifies out
    ensures ok == JoinUpward(norm, rest).Some? && (ok ==> Holds(out[..], n, JoinUpward(norm, rest).value))
  {
    var scratch := new char[PATH_MAX];
    var found, len := ParentPath(norm, scratch, PATH_MAX);
    if !found {
      CopyString(norm, scratch);
      len := |norm|;
    }
    var up := scratch[..len];
    assert up == match Parent(norm) case Some(x) => x case None => norm by {
      NormalizeFits(norm);
    }
    if rest.None? {
      n := NormalizePath(up, out, cap);
      return true, n;
    }
    var joined := AppendTo(up, rest.value);
    if joined.None? {
      return false, 0;
    }
    n := NormalizePath(joined.value, out, cap);
    ok := true;
  }

  // vfs_path_append_to_scratch
  method AppendTo(s: string, r: string) returns (joined: Option<string>)
    ensures joined == Append(s, r)
  {
    var scratch := s;
    if |scratch| > 0 && scratch[|scratch| - 1] != '/' {
      if |scratch| + 1 >= PATH_MAX {
        return None;
      }
      scratch := scratch + "/";
    }
    ghost var start := scratch;
    var j := 0;
    while j < |r|
      invariant j <= |r| && scratch == start + r[..j] && (j > 0 ==> |scratch| < PATH_MAX)
    {
      if |scratch| + 1 >= PATH_MAX {
        return None;
      }
      scratch := scratch + [r[j]];
      j := j + 1;
    }
    assert r[..j] == r;
    joined := Some(scratch);
  }

  // A buffer of one byte is overrun unless the relative path is ".".
  method JoinPath(base: string, rel: string, out: array<char>, cap: nat) returns (ok: bool, n: nat)
    requires out.Length == Room(cap)
    modifies out
    ensures ok == (Join(base, rel).Some? && cap > 0)
    ensures ok ==> if cap == 1 && rel == "." then out[0] == '\0' && out[1] == old(out[1])
                   else Holds(out[..], n, Join(base, rel).value)
  {
    if cap == 0 {
      return false, 0;
    }
    if Starts(rel, "/") {
      assert rel[0] == rel[..1][0] == '/';
      n := NormalizePath(rel, out, cap);
      return true, n;
    }
    var buf := new char[PATH_MAX];
    NormalizeFits(base);
    var len := NormalizePath(base, buf, PATH_MAX);
    var norm := buf[..len];
    assert norm == Normalize(base);
    if rel == "." && cap == 1 {
      out[0] := '\0';
      return true, 0;
    }
    ok, n := JoinRelative(norm, rel, out, cap);
  }

  method JoinRelative(norm: string, rel: string, out: array<char>, cap: nat) returns (ok: bool, n: nat)
    requires out.Length == Room(cap) >= 2 && 0 < |norm| < PATH_MAX && !Starts(rel, "/") && (rel == "." ==> cap > 1)
    modifies out
    ensures ok == JoinNorm(norm, rel).Some? && (ok ==> Holds(out[..], n, JoinNorm(norm, rel).value))
  {
    if Starts(rel, "./") {
      ok, n := JoinGeneral(norm, rel[2..], out, cap);
    } else if rel == "." {
      ok, n := CutString(norm, out);
    } else if rel == ".." {
      ok, n := JoinParent(norm, None, out, cap);
    } else if Starts(rel, "../") {
      ok, n := JoinParent(norm, Some(rel[3..]), out, cap);
    } else {
      ok, n := JoinGeneral(norm, rel, out, cap);
    }
  }
}
