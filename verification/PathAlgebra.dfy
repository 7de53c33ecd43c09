/**
 Paths of the virtual file system: collapse, normalize, parent, basename and
 join as functions on strings, and the laws between them.
 */
module PathAlgebra {
  import opened Wrappers

  type Comps = seq<string>

  const PATH_MAX: nat := 256
  const MAX_DEPTH: nat := 32
  const MAX_COMP: nat := 64

  // ---- components

  // The characters before the first slash
  function Head(s: string): (h: string)
    ensures |h| <= |s| && h == s[..|h|] && (forall i :: 0 <= i < |h| ==> h[i] != '/')
    ensures |h| < |s| ==> s[|h|] == '/'
  {
    if s == "" || s[0] == '/' then "" else [s[0]] + Head(s[1..])
  }

  function Split(s: string): (cs: Comps)
    ensures |cs| > 0
    decreases |s|
  {
    var h := Head(s);
    if |h| == |s| then [s] else [h] + Split(s[|h| + 1..])
  }

  // A component as it is kept: at most 63 characters
  function Clip(c: string): string {
    if |c| >= MAX_COMP then c[..MAX_COMP - 1] else c
  }

  // What one component does to the stack
  function Visit(st: Comps, c: string): Comps {
    if c == "" || c == "." then st
    else if c == ".." then (if |st| > 0 then st[..|st| - 1] else st)
    else st + [Clip(c)]
  }

  // The loop of vfs_path_collapse: it stops for good at 32 components.
  function Fold(st: Comps, cs: Comps): Comps
    decreases |cs|
  {
    if cs == [] || |st| >= MAX_DEPTH then st else Fold(Visit(st, cs[0]), cs[1..])
  }

  function Slashed(st: Comps): string {
    if st == [] then "" else Slashed(st[..|st| - 1]) + "/" + st[|st| - 1]
  }

  function Render(st: Comps): string {
    if st == [] then "/" else Slashed(st)
  }

  // ---- normalize

  // What is copied behind the leading slash of the scratch buffer
  function Body(p: string): string {
    var s := if |p| >= 2 && p[..2] == "./" then p[2..] else if p == "." then "" else p;
    if s != "" && s[0] == '/' then s[1..] else s
  }

  function Take(s: string, n: nat): string { if |s| <= n then s else s[..n] }

  function Stack(p: string): Comps {
    Fold([], Split(Take(Body(p), PATH_MAX - 2)))
  }

  function Normalize(p: string): string { Render(Stack(p)) }

  // ---- laws of components

  predicate Plain(c: string) {
    c != "" && c != "." && c != ".." && |c| < MAX_COMP && forall i :: 0 <= i < |c| ==> c[i] != '/'
  }

  ghost predicate Tidy(st: Comps) {
    |st| <= MAX_DEPTH && forall i :: 0 <= i < |st| ==> Plain(st[i])
  }

  predicate NoSlash(c: string) { forall i :: 0 <= i < |c| ==> c[i] != '/' }

  lemma {:induction false} HeadOfJoin(a: string, b: string)
    requires NoSlash(a)
    ensures Head(a + "/" + b) == a
  {
    var s := a + "/" + b;
    if a != "" {
      assert s[1..] == a[1..] + "/" + b;
      HeadOfJoin(a[1..], b);
    }
  }

  lemma {:induction false} HeadAlone(a: string)
    requires NoSlash(a)
    ensures Head(a) == a
  {
    if a != "" {
      HeadAlone(a[1..]);
    }
  }

  // Splitting distributes over a slash.
  lemma {:induction false} SplitJoin(a: string, b: string)
    ensures Split(a + "/" + b) == Split(a) + Split(b)
    decreases |a|
  {
    var h, s := Head(a), a + "/" + b;
    if |h| == |a| {
      HeadOfJoin(a, b);
      assert s[|a| + 1..] == b;
    } else {
      var rest := a[|h| + 1..];
      assert a == h + "/" + rest;
      assert s == h + "/" + (rest + "/" + b);
      HeadOfJoin(h, rest + "/" + b);
      assert s[|h| + 1..] == rest + "/" + b;
      SplitJoin(rest, b);
    }
  }

  lemma {:induction false} SplitHasNoSlash(s: string, i: nat)
    requires i < |Split(s)|
    ensures NoSlash(Split(s)[i])
    decreases |s|
  {
    var h := Head(s);
    if |h| < |s| && i > 0 {
      SplitHasNoSlash(s[|h| + 1..], i - 1);
    }
  }

  lemma {:induction false} FoldAppend(st: Comps, xs: Comps, ys: Comps)
    ensures Fold(st, xs + ys) == Fold(Fold(st, xs), ys)
    decreases |xs|
  {
    if xs == [] {
      assert xs + ys == ys;
    } else if |st| < MAX_DEPTH {
      assert (xs + ys)[1..] == xs[1..] + ys;
      FoldAppend(Visit(st, xs[0]), xs[1..], ys);
    }
  }

  // Whatever is folded, the stack stays tidy.
  lemma {:induction false} FoldTidy(st: Comps, cs: Comps)
    requires Tidy(st) && forall i :: 0 <= i < |cs| ==> NoSlash(cs[i])
    ensures Tidy(Fold(st, cs))
    decreases |cs|
  {
    if cs != [] && |st| < MAX_DEPTH {
      assert NoSlash(cs[0]);
      FoldTidy(Visit(st, cs[0]), cs[1..]);
    }
  }

  lemma StackIsTidy(p: string)
    ensures Tidy(Stack(p))
  {
    var cs := Split(Take(Body(p), PATH_MAX - 2));
    forall i | 0 <= i < |cs| ensures NoSlash(cs[i]) {
      SplitHasNoSlash(Take(Body(p), PATH_MAX - 2), i);
    }
    FoldTidy([], cs);
  }

  // A tidy stack folds to itself.
  lemma {:induction false} FoldOfTidy(st: Comps, cs: Comps)
    requires Tidy(st + cs)
    ensures Fold(st, cs) == st + cs
    decreases |cs|
  {
    if cs != [] {
      var all := st + cs;
      assert Plain(all[|st|]);
      assert Visit(st, cs[0]) == st + [cs[0]];
      assert st + [cs[0]] + cs[1..] == all;
      FoldOfTidy(st + [cs[0]], cs[1..]);
    } else {
      assert st + cs == st;
    }
  }

  // ---- laws of rendering

  function Weight(cs: Comps): nat {
    if cs == [] then 0 else Weight(cs[..|cs| - 1]) + |cs[|cs| - 1]| + 1
  }

  lemma {:induction false} WeightAppend(a: Comps, b: Comps)
    ensures Weight(a + b) == Weight(a) + Weight(b)
    decreases |b|
  {
    if b == [] {
      assert a + b == a;
    } else {
      assert (a + b)[..|a + b| - 1] == a + b[..|b| - 1];
      WeightAppend(a, b[..|b| - 1]);
    }
  }

  lemma {:induction false} SlashedLength(st: Comps)
    ensures |Slashed(st)| == Weight(st)
  {
    if st != [] {
      SlashedLength(st[..|st| - 1]);
    }
  }

  lemma {:induction false} SplitWeight(s: string)
    ensures Weight(Split(s)) == |s| + 1
    decreases |s|
  {
    var h := Head(s);
    if |h| == |s| {
      assert [s][..0] == [];
    } else {
      SplitWeight(s[|h| + 1..]);
      WeightAppend([h], Split(s[|h| + 1..]));
      assert [h][..0] == [];
    }
  }

  lemma WeightOfOne(c: string)
    ensures Weight([c]) == |c| + 1
  {
    assert [c][..0] == [];
  }

  lemma VisitWeight(st: Comps, c: string)
    ensures Weight(Visit(st, c)) <= Weight(st) + |c| + 1
  {
    if c != "" && c != "." && c != ".." {
      WeightAppend(st, [Clip(c)]);
      WeightOfOne(Clip(c));
    }
  }

  lemma {:induction false} FoldWeight(st: Comps, cs: Comps)
    ensures Weight(Fold(st, cs)) <= Weight(st) + Weight(cs)
    decreases |cs|
  {
    if cs != [] {
      assert cs == [cs[0]] + cs[1..];
      WeightAppend([cs[0]], cs[1..]);
      WeightOfOne(cs[0]);
      if |st| < MAX_DEPTH {
        VisitWeight(st, cs[0]);
        FoldWeight(Visit(st, cs[0]), cs[1..]);
      }
    }
  }

  // A normalized path fits every buffer of 256 bytes.
  lemma NormalizeFits(p: string)
    ensures 1 <= |Normalize(p)| < PATH_MAX
  {
    var t := Take(Body(p), PATH_MAX - 2);
    FoldWeight([], Split(t));
    SplitWeight(t);
    SlashedLength(Stack(p));
    if Stack(p) != [] {
      SlashedStarts(Stack(p));
    }
  }

  lemma SplitOne(c: string)
    requires NoSlash(c)
    ensures Split(c) == [c]
  {
    HeadAlone(c);
  }

  lemma {:induction false} SlashedStarts(st: Comps)
    requires st != []
    ensures |Slashed(st)| > 0 && Slashed(st)[0] == '/'
  {
    if |st| > 1 {
      SlashedStarts(st[..|st| - 1]);
    } else {
      assert Slashed(st[..|st| - 1]) == "";
    }
  }

  // What follows the leading slash
  function Inner(st: Comps): string {
    if |Slashed(st)| > 0 then Slashed(st)[1..] else ""
  }

  lemma InnerStep(init: Comps, last: string)
    requires init != []
    ensures Inner(init + [last]) == Inner(init) + "/" + last
  {
    assert (init + [last])[..|init|] == init;
    SlashedStarts(init);
  }

  lemma InnerOne(c: string)
    ensures Inner([c]) == c
  {
    assert [c][..0] == [];
    assert Slashed([c]) == "/" + c;
  }

  lemma {:induction false} SplitInner(st: Comps)
    requires st != [] && forall i :: 0 <= i < |st| ==> NoSlash(st[i])
    ensures Split(Inner(st)) == st
    decreases |st|
  {
    var init, last := st[..|st| - 1], st[|st| - 1];
    SplitOne(last);
    assert st == init + [last];
    if init == [] {
      InnerOne(last);
    } else {
      SplitInner(init);
      InnerStep(init, last);
      SplitJoin(Inner(init), last);
    }
  }

  // Reading back what was rendered gives the stack.
  lemma StackOfRender(st: Comps)
    requires Tidy(st) && |Render(st)| < PATH_MAX
    ensures Stack(Render(st)) == st
  {
    if st == [] {
      assert Body("/") == "";
      assert Split("") == [""];
      assert Visit([], "") == [] && [""][1..] == [];
    } else {
      BodyOfRender(st);
      TidyHasNoSlash(st);
      SplitInner(st);
      FoldOfTidy([], st);
      assert [] + st == st;
    }
  }

  lemma TidyHasNoSlash(st: Comps)
    requires Tidy(st)
    ensures forall i :: 0 <= i < |st| ==> NoSlash(st[i])
  {
    forall i | 0 <= i < |st| ensures NoSlash(st[i]) {
      assert Plain(st[i]);
    }
  }

  lemma BodyOfRender(st: Comps)
    requires st != []
    ensures Body(Render(st)) == Inner(st) && |Inner(st)| + 1 == |Render(st)| && Render(st)[0] == '/'
  {
    SlashedStarts(st);
  }

  // ---- the laws of normalize

  lemma NormalizeIsIdempotent(p: string)
    ensures Normalize(Normalize(p)) == Normalize(p)
  {
    StackIsTidy(p);
    NormalizeFits(p);
    StackOfRender(Stack(p));
  }

  // Every component of the result is proper.
  lemma NormalizedComponents(p: string, i: nat)
    requires Normalize(p) != "/" && i < |Split(Normalize(p)[1..])|
    ensures Plain(Split(Normalize(p)[1..])[i])
  {
    StackIsTidy(p);
    var st := Stack(p);
    BodyOfRender(st);
    TidyHasNoSlash(st);
    SplitInner(st);
    assert Normalize(p)[1..] == Inner(st);
    assert Plain(st[i]);
  }

  // ---- parent and basename

  // The scan back over a normalized path: the index behind its last slash
  function CutPoint(norm: string): nat {
    if |norm| <= 1 || norm[|norm| - 1] == '/' then |norm| else CutPoint(norm[..|norm| - 1])
  }

  function Parent(p: string): Option<string> {
    var norm := Normalize(p);
    if norm == "/" then None
    else
      var i := CutPoint(norm);
      if i <= 1 then Some("/")
      else if i >= PATH_MAX || i > |norm| then None
      else Some(norm[..i])
  }

  function Basename(p: string): Option<string> {
    var norm := Normalize(p);
    if norm == "/" then None
    else
      var i := CutPoint(norm);
      var name := if i > |norm| then "" else Take(norm[i..], PATH_MAX - 1);
      if name == "" then None else Some(name)
  }

  lemma {:induction false} CutPointIs(pre: string, name: string)
    requires NoSlash(name) && |pre| > 0 && pre[|pre| - 1] == '/'
    ensures CutPoint(pre + name) == |pre|
    decreases |name|
  {
    var s := pre + name;
    if name == "" {
      assert s == pre;
    } else {
      assert s[|s| - 1] == name[|name| - 1];
      assert s[..|s| - 1] == pre + name[..|name| - 1];
      CutPointIs(pre, name[..|name| - 1]);
    }
  }

  lemma RenderIsRoot(st: Comps)
    requires Tidy(st)
    ensures Render(st) == "/" <==> st == []
  {
    if st != [] {
      var last := st[|st| - 1];
      assert Plain(last);
      assert Slashed(st)[|Slashed(st)| - 1] == last[|last| - 1];
    }
  }

  // Parent and basename split the stack at its last component; the parent of a
  // path two levels deep or more comes with a trailing slash.
  lemma ParentAndBasename(p: string)
    requires Normalize(p) != "/"
    ensures var st := Stack(p);
            && st != []
            && Parent(p) == Some(Slashed(st[..|st| - 1]) + "/")
            && Basename(p) == Some(st[|st| - 1])
  {
    var st := Stack(p);
    StackIsTidy(p);
    RenderIsRoot(st);
    NormalizeFits(p);
    var pre, last := Slashed(st[..|st| - 1]) + "/", st[|st| - 1];
    assert Plain(last);
    assert Normalize(p) == pre + last;
    CutPointIs(pre, last);
    assert (pre + last)[..|pre|] == pre && (pre + last)[|pre|..] == last;
    if |pre| <= 1 {
      assert pre == "/";
    }
  }

  // A path of depth zero, and only that, has neither.
  lemma RootHasNoParent(p: string)
    ensures Parent(p).None? <==> Stack(p) == []
    ensures Basename(p).None? <==> Stack(p) == []
  {
    StackIsTidy(p);
    RenderIsRoot(Stack(p));
    if Stack(p) != [] {
      ParentAndBasename(p);
    }
  }

  // ---- join

  predicate Starts(s: string, pre: string) { |pre| <= |s| && s[..|pre|] == pre }

  // The general case: base, a slash unless there is one, and the rest, cut at
  // the end of the scratch buffer
  function JoinPlain(norm: string, r: string): Option<string> {
    var base := Take(norm, PATH_MAX - 1);
    if base == "" then None
    else
      var s := if base[|base| - 1] != '/' && |base| + 1 < PATH_MAX then base + "/" else base;
      Some(Normalize(Take(s + r, PATH_MAX - 1)))
  }

  // vfs_path_append_to_scratch
  function Append(s: string, r: string): Option<string> {
    if s != "" && s[|s| - 1] != '/' then
      if |s| + 1 >= PATH_MAX || |s| + 1 + |r| >= PATH_MAX then None else Some(s + "/" + r)
    else if |s| + |r| >= PATH_MAX && r != "" then None
    else Some(s + r)
  }

  // The special case for two dots, with what follows them and a slash if anything does
  function JoinUpward(norm: string, rest: Option<string>): Option<string> {
    var up := match Parent(norm) case Some(x) => x case None => norm;
    match rest
    case None => Some(Normalize(up))
    case Some(r) =>
      match Append(up, r)
      case None => None
      case Some(s) => Some(Normalize(s))
  }

  function Join(base: string, rel: string): Option<string> {
    if Starts(rel, "/") then Some(Normalize(rel)) else JoinNorm(Normalize(base), rel)
  }

  function JoinNorm(norm: string, rel: string): Option<string> {
    if Starts(rel, "./") then JoinPlain(norm, rel[2..])
    else if rel == "." then Some(norm)
    else if rel == ".." then JoinUpward(norm, None)
    else if Starts(rel, "../") then JoinUpward(norm, Some(rel[3..]))
    else JoinPlain(norm, rel)
  }

  // ---- laws of join

  lemma VisitNothing(st: Comps, c: string, cs: Comps)
    requires c == "" || c == "."
    ensures Fold(st, [c] + cs) == Fold(st, cs)
  {
    assert ([c] + cs)[1..] == cs;
  }

  // Without truncation the stripped prefix does not matter.
  lemma StackIs(p: string)
    requires |Body(p)| < PATH_MAX - 1
    ensures Stack(p) == Fold([], Split(p))
  {
    var s := if Starts(p, "./") then p[2..] else if p == "." then "" else p;
    DotStripped(p);
    if s != "" && s[0] == '/' {
      assert s == "" + "/" + s[1..];
      SplitJoin("", s[1..]);
      SplitOne("");
      VisitNothing([], "", Split(s[1..]));
    }
  }

  lemma DotStripped(p: string)
    ensures var s := if Starts(p, "./") then p[2..] else if p == "." then "" else p;
            Fold([], Split(s)) == Fold([], Split(p))
  {
    SplitOne(".");
    SplitOne("");
    if Starts(p, "./") {
      assert p == "." + "/" + p[2..];
      SplitJoin(".", p[2..]);
      VisitNothing([], ".", Split(p[2..]));
    } else if p == "." {
      VisitNothing([], ".", []);
      VisitNothing([], "", []);
      assert ["."] + [] == ["."] && [""] + [] == [""];
    }
  }

  // A path below another, if nothing is cut off
  lemma StackBelow(a: string, b: string)
    requires |Body(a + "/" + b)| < PATH_MAX - 1 && |Body(a)| < PATH_MAX - 1
    ensures Stack(a + "/" + b) == Fold(Stack(a), Split(b))
  {
    StackIs(a + "/" + b);
    StackIs(a);
    SplitJoin(a, b);
    FoldAppend([], Split(a), Split(b));
  }

  // The same for a base that has been rendered
  lemma {:induction false} StackBelowRoot(r: string)
    requires |r| < PATH_MAX - 1
    ensures Stack("/" + r) == Fold([], Split(r))
  {
    BodyOfSlashed("/" + r);
    assert ("/" + r)[1..] == r;
  }

  lemma {:induction false} StackBelowSlashed(st: Comps, r: string)
    requires Tidy(st) && st != [] && |Slashed(st)| + 1 + |r| < PATH_MAX
    ensures Stack(Slashed(st) + "/" + r) == Fold(st, Split(r))
  {
    var a := Slashed(st);
    SlashedStarts(st);
    StackOfRender(st);
    BodyOfSlashed(a);
    BodyOfSlashed(a + "/" + r);
    StackBelow(a, r);
  }

  lemma BodyOfSlashed(s: string)
    requires s != "" && s[0] == '/'
    ensures Body(s) == s[1..]
  {
  }

  // What JoinPlain computes when nothing is cut off
  lemma {:induction false} JoinPlainIs(st: Comps, r: string)
    requires Tidy(st) && |Render(st)| + 1 + |r| < PATH_MAX
    ensures JoinPlain(Render(st), r) == Some(Render(Fold(st, Split(r))))
  {
    if st == [] {
      StackBelowRoot(r);
      assert Take("/" + r, PATH_MAX - 1) == "/" + r;
    } else {
      SlashedEnds(st);
      StackBelowSlashed(st, r);
      assert Take(Slashed(st) + "/" + r, PATH_MAX - 1) == Slashed(st) + "/" + r;
    }
  }

  lemma SlashedEnds(st: Comps)
    requires Tidy(st) && st != []
    ensures |Slashed(st)| > 0 && Slashed(st)[|Slashed(st)| - 1] != '/'
  {
    var last := st[|st| - 1];
    assert Plain(last);
    assert Slashed(st)[|Slashed(st)| - 1] == last[|last| - 1];
  }

  function Up(st: Comps): Comps { if st == [] then [] else st[..|st| - 1] }

  // One level up and down again along r
  lemma {:induction false} JoinUpIs(p: string, r: string)
    requires |Normalize(p)| + 1 + |r| < PATH_MAX
    ensures var up := match Parent(Normalize(p)) case Some(x) => x case None => Normalize(p);
            Append(up, r) == Some(up + r) && Stack(up + r) == Fold(Up(Stack(p)), Split(r))
  {
    var st := Stack(p);
    StackIsTidy(p);
    NormalizeFits(p);
    NormalizeIsIdempotent(p);
    StackOfRender(st);
    RenderIsRoot(st);
    if st == [] {
      StackBelowRoot(r);
    } else {
      ParentAndBasename(Normalize(p));
      UpIs(st, r);
    }
  }

  lemma {:induction false} UpIs(st: Comps, r: string)
    requires Tidy(st) && st != [] && |Slashed(st[..|st| - 1])| + 1 + |r| < PATH_MAX
    ensures var up := Slashed(st[..|st| - 1]) + "/";
            |up| + |r| < PATH_MAX && Stack(up + r) == Fold(Up(st), Split(r))
  {
    var init := st[..|st| - 1];
    if init == [] {
      StackBelowRoot(r);
      assert "" + "/" + r == "/" + r;
    } else {
      assert Tidy(init);
      StackBelowSlashed(init, r);
    }
  }

  // Nothing is cut off on either side of the law
  predicate JoinFits(base: string, rel: string) {
    |Normalize(base)| + 1 + |rel| < PATH_MAX && |Body(base + "/" + rel)| < PATH_MAX - 1 && |Body(base)| < PATH_MAX - 1
  }

  predicate GoesUp(rel: string) { rel == ".." || Starts(rel, "../") }

  // What follows the two dots
  function AfterUp(rel: string): string
    requires GoesUp(rel)
  {
    if rel == ".." then "" else rel[3..]
  }

  lemma SplitUp(rel: string)
    requires GoesUp(rel)
    ensures rel == ".." ==> Split(rel) == [".."]
    ensures rel != ".." ==> Split(rel) == [".."] + Split(rel[3..])
  {
    SplitOne("..");
    if rel != ".." {
      assert rel == ".." + "/" + rel[3..];
      SplitJoin("..", rel[3..]);
    }
  }

  lemma FoldUp(st: Comps, cs: Comps)
    ensures Fold(st, [".."] + cs) == if |st| >= MAX_DEPTH then st else Fold(Up(st), cs)
  {
    assert ([".."] + cs)[1..] == cs;
  }

  // Join, case by case, on stacks
  lemma {:induction false} FoldDot(st: Comps, rel: string)
    requires Starts(rel, "./")
    ensures Fold(st, Split(rel)) == Fold(st, Split(rel[2..]))
  {
    SplitOne(".");
    assert rel == "." + "/" + rel[2..];
    SplitJoin(".", rel[2..]);
    VisitNothing(st, ".", Split(rel[2..]));
  }

  lemma {:induction false} FoldOneDot(st: Comps)
    ensures Fold(st, Split(".")) == st && Fold(st, Split("")) == st
  {
    SplitOne(".");
    SplitOne("");
    VisitNothing(st, ".", []);
    VisitNothing(st, "", []);
    assert ["."] + [] == ["."] && [""] + [] == [""];
  }

  lemma {:induction false} JoinUpwardIs(base: string, rest: Option<string>)
    requires |Normalize(base)| + 1 + (if rest.Some? then |rest.value| else 0) < PATH_MAX
    ensures JoinUpward(Normalize(base), rest) ==
            Some(Render(Fold(Up(Stack(base)), Split(if rest.Some? then rest.value else ""))))
  {
    var r := if rest.Some? then rest.value else "";
    JoinUpIs(base, r);
    var up := match Parent(Normalize(base)) case Some(x) => x case None => Normalize(base);
    assert up + "" == up;
  }

  lemma {:induction false} JoinIs(base: string, rel: string)
    requires !Starts(rel, "/") && |Normalize(base)| + 1 + |rel| < PATH_MAX
    ensures Join(base, rel) ==
            Some(Render(if GoesUp(rel) then Fold(Up(Stack(base)), Split(AfterUp(rel)))
                else Fold(Stack(base), Split(rel))))
  {
    StackIsTidy(base);
    if Starts(rel, "./") {
      assert rel[1] == rel[..2][1] == '/';
      assert !GoesUp(rel);
      FoldDot(Stack(base), rel);
      JoinPlainIs(Stack(base), rel[2..]);
    } else if rel == "." {
      FoldOneDot(Stack(base));
    } else if GoesUp(rel) {
      JoinUpwardIs(base, if rel == ".." then None else Some(rel[3..]));
    } else {
      JoinPlainIs(Stack(base), rel);
    }
  }

  // For a relative path join is normalization of base "/" rel, except that it
  // can leave a directory at the depth limit, which normalization cannot.
  lemma {:induction false} JoinIsNormalize(base: string, rel: string)
    requires !Starts(rel, "/") && JoinFits(base, rel)
    requires !(GoesUp(rel) && |Stack(base)| == MAX_DEPTH)
    ensures Join(base, rel) == Some(Normalize(base + "/" + rel))
  {
    JoinIs(base, rel);
    StackBelow(base, rel);
    StackIsTidy(base);
    if GoesUp(rel) {
      SplitUp(rel);
      FoldUp(Stack(base), Split(AfterUp(rel)));
      FoldUp(Stack(base), []);
      SplitOne("");
      VisitNothing(Up(Stack(base)), "", []);
      assert [".."] + [] == [".."] && [""] + [] == [""];
    }
  }

  lemma UpIsRelative(rel: string)
    requires GoesUp(rel)
    ensures !Starts(rel, "/")
  {
    assert rel[0] == '.' by {
      assert |rel| >= 3 ==> rel[..3][0] == rel[0];
    }
    assert rel[..1][0] == rel[0];
  }

  // Rendering loses nothing.
  lemma RenderIsInjective(a: Comps, b: Comps)
    requires Tidy(a) && Tidy(b) && |Render(a)| < PATH_MAX && |Render(b)| < PATH_MAX && Render(a) == Render(b)
    ensures a == b
  {
    StackOfRender(a);
    StackOfRender(b);
  }

  lemma {:induction false} BackDownFits(st: Comps, r: string)
    requires Tidy(st) && st != [] && |Render(st)| + 1 + |r| < PATH_MAX
    ensures Tidy(Fold(Up(st), Split(r))) && |Render(Fold(Up(st), Split(r)))| < PATH_MAX
  {
    forall i | 0 <= i < |Split(r)| ensures NoSlash(Split(r)[i]) {
      SplitHasNoSlash(r, i);
    }
    FoldTidy(Up(st), Split(r));
    FoldWeight(Up(st), Split(r));
    SplitWeight(r);
    SlashedLength(st);
    SlashedLength(Fold(Up(st), Split(r)));
  }

  // At the limit the law holds exactly when the path comes back to where it
  // started, so never for "..".
  lemma {:induction false} JoinAtTheLimit(base: string, rel: string)
    requires GoesUp(rel) && JoinFits(base, rel) && |Stack(base)| == MAX_DEPTH
    ensures Stack(base + "/" + rel) == Stack(base)
    ensures Join(base, rel) == Some(Normalize(base + "/" + rel)) <==>
            Fold(Up(Stack(base)), Split(AfterUp(rel))) == Stack(base)
    ensures rel == ".." ==> Join(base, rel) != Some(Normalize(base + "/" + rel))
  {
    var st := Stack(base);
    UpIsRelative(rel);
    JoinIs(base, rel);
    StackAtTheLimit(base, rel);
    StackIsTidy(base);
    NormalizeFits(base);
    BackDownFits(st, AfterUp(rel));
    if Render(Fold(Up(st), Split(AfterUp(rel)))) == Render(st) {
      RenderIsInjective(Fold(Up(st), Split(AfterUp(rel))), st);
    }
    FoldOneDot(Up(st));
  }

  // For one: the path with 32 components "a".  Joined with ".." it goes up, but the
  // normalized text stays where it was.
  function Deep(n: nat): Comps { seq(n, i => "a") }

  lemma {:induction false} DeepLength(n: nat)
    ensures |Slashed(Deep(n))| == 2 * n
  {
    if n > 0 {
      assert Deep(n)[..n - 1] == Deep(n - 1);
      DeepLength(n - 1);
    }
  }

  lemma JoinFailsAtTheLimit()
    ensures var base := Render(Deep(MAX_DEPTH));
            && Normalize(base + "/" + "..") == base
            && Join(base, "..") != Some(Normalize(base + "/" + ".."))
  {
    var st := Deep(MAX_DEPTH);
    var base := Render(st);
    DeepLength(MAX_DEPTH);
    assert Tidy(st);
    StackOfRender(st);
    JoinAtTheLimit(base, "..");
  }

  lemma {:induction false} StackAtTheLimit(base: string, rel: string)
    requires GoesUp(rel) && JoinFits(base, rel) && |Stack(base)| == MAX_DEPTH
    ensures Stack(base + "/" + rel) == Stack(base)
  {
    StackBelow(base, rel);
    SplitUp(rel);
    FoldUp(Stack(base), if rel == ".." then [] else Split(rel[3..]));
    assert [".."] + [] == [".."];
  }

  // Taking a path apart and joining it again normalizes it, for every path but
  // the root.
  lemma {:induction false} JoinOfParentAndBasename(p: string)
    requires Normalize(p) != "/"
    ensures Parent(p).Some? && Basename(p).Some?
    ensures Join(Parent(p).value, Basename(p).value) == Some(Normalize(p))
  {
    var st := Stack(p);
    ParentAndBasename(p);
    StackIsTidy(p);
    NormalizeFits(p);
    var init, last := st[..|st| - 1], st[|st| - 1];
    LastFits(st);
    ParentStack(st);
    JoinParts(init, last, Slashed(init) + "/");
  }

  lemma {:induction false} LastFits(st: Comps)
    requires Tidy(st) && st != [] && |Render(st)| < PATH_MAX
    ensures var init, last := st[..|st| - 1], st[|st| - 1];
            Plain(last) && init + [last] == st && |Render(init)| + 1 + |last| < PATH_MAX
  {
    assert Plain(st[|st| - 1]);
  }

  lemma {:induction false} JoinParts(init: Comps, last: string, q: string)
    requires Stack(q) == init && Plain(last) && Tidy(init + [last]) && |Render(init)| + 1 + |last| < PATH_MAX
    ensures Join(q, last) == Some(Render(init + [last]))
  {
    SplitOne(last);
    NotSpecial(last);
    JoinIs(q, last);
    FoldOfTidy(init, [last]);
  }

  lemma NotSpecial(c: string)
    requires Plain(c)
    ensures !Starts(c, "/") && !GoesUp(c) && NoSlash(c)
  {
    assert c[..1][0] == c[0];
    assert |c| >= 3 ==> c[..3][2] == c[2];
  }

  // The parent, with its trailing slash, has the stack without the last component.
  lemma {:induction false} ParentStack(st: Comps)
    requires Tidy(st) && st != [] && |Render(st)| < PATH_MAX
    ensures Stack(Slashed(st[..|st| - 1]) + "/") == st[..|st| - 1]
  {
    var up, last := Slashed(st[..|st| - 1]) + "/", st[|st| - 1];
    assert Plain(last);
    UpIs(st, "");
    SplitOne("");
    VisitNothing(Up(st), "", []);
    assert [""] + [] == [""] && up + "" == up;
  }
}
