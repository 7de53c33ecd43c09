/**
 The namespace over all runs: lists stay sorted whatever jobs interleave, a
 prepared change is seen at one path and nowhere else, and a listing is exactly
 what lookup finds.
 */
module NamespaceTheorems {
  import opened Lists
  import opened Wrappers
  import opened NamespaceModel
  import opened NamespaceProofs

  // ---- changes of flags

  // Name, parent, children and cover stay.
  predicate SameShape(n: Node, n': Node) {
    n'.name == n.name && n'.parent == n.parent && n'.kids == n.kids && n'.covered == n.covered
  }

  lemma FlagsKeep(t: Tree, x: Id, n: Node)
    requires Inv(t) && x in t.nodes && SameShape(t.nodes[x], n)
    ensures Inv(SetNode(t, x, n))
  {
    var t' := SetNode(t, x, n);
    forall a | a in t'.nodes ensures a < t'.next && KidsOk(t', a) {
      assert KidsOk(t, a);
    }
  }

  // A change of flags is seen through the name of the node alone.
  lemma FlagsAreSeen(t: Tree, x: Id, n: Node, d: Id)
    requires Inv(t) && x in t.nodes && SameShape(t.nodes[x], n) && t.nodes[x].parent == Some(d)
    ensures OnlyName(t, SetNode(t, x, n), d, t.nodes[x].name)
  {
    var t' := SetNode(t, x, n);
    forall id, m | id in t.nodes && (id != d || m != t.nodes[x].name)
      ensures Child(t', id, m, false) == Child(t, id, m, false)
    {
      assert KidsOk(t, id);
      FindInSame(t.nodes, t'.nodes, t.nodes[id].kids, m);
      FindInIs(t.nodes, t.nodes[id].kids, m);
    }
  }

  // ---- linking

  lemma LinkKeeps(t: Tree, d: Id, k: Id)
    requires Inv(t) && d in t.nodes && k in t.nodes && t.nodes[k].parent == Some(d)
    ensures Inv(Link(t, d, k)) && Link(t, d, k).nodes.Keys == t.nodes.Keys && Link(t, d, k).next == t.next
    ensures forall a :: a in t.nodes && a != d ==> Link(t, d, k).nodes[a] == t.nodes[a]
    ensures Link(t, d, k).nodes[d] == t.nodes[d].(kids := Link(t, d, k).nodes[d].kids)
  {
    var t', p := Link(t, d, k), t.nodes[d];
    assert KidsOk(t, d);
    if t' != t {
      InsertSorted(t.nodes, p.kids, k);
      InsertedKids(t, t', d, k);
    }
  }

  lemma InsertedKids(t: Tree, t': Tree, d: Id, k: Id)
    requires Inv(t) && d in t.nodes && k in t.nodes && t.nodes[k].parent == Some(d)
    requires var p := t.nodes[d];
             var i := Position(t.nodes, p.kids, t.nodes[k].name);
             Sorted(t.nodes, p.kids[..i] + [k] + p.kids[i..])
                 && t' == SetNode(t, d, p.(kids := p.kids[..i] + [k] + p.kids[i..]))
    ensures Inv(t')
  {
    var kids := t'.nodes[d].kids;
    forall a | a in t'.nodes ensures a < t'.next && KidsOk(t', a) {
      assert KidsOk(t, a) && KidsOk(t, d);
      assert Sorted(t'.nodes, t'.nodes[a].kids);
    }
  }

  // A node that is linked is seen under its name; if the name has a node already
  // nothing is linked.
  lemma LinkIsSeen(t: Tree, d: Id, k: Id)
    requires Inv(t) && d in t.nodes && k in t.nodes && t.nodes[k].parent == Some(d)
    ensures FindIn(t.nodes, t.nodes[d].kids, t.nodes[k].name).Some? ==> Link(t, d, k) == t
    ensures FindIn(t.nodes, t.nodes[d].kids, t.nodes[k].name).None? ==>
              && OnlyName(t, Link(t, d, k), d, t.nodes[k].name)
              && k in Link(t, d, k).nodes[d].kids
  {
    var t', p, name := Link(t, d, k), t.nodes[d], t.nodes[k].name;
    assert KidsOk(t, d);
    PositionFinds(t.nodes, p.kids, name);
    if FindIn(t.nodes, p.kids, name).None? {
      var i := Position(t.nodes, p.kids, name);
      assert t'.nodes[d].kids[i] == k;
      forall id, m | id in t.nodes && (id != d || m != name) ensures Child(t', id, m, false) == Child(t, id, m, false) {
        InsertedElsewhere(t, t', d, k, i, id, m);
      }
    }
  }

  lemma {:induction false} InsertedElsewhere(t: Tree, t': Tree, d: Id, k: Id, i: nat, id: Id, m: Name)
    requires Inv(t) && d in t.nodes && k in t.nodes && i <= |t.nodes[d].kids|
    requires t' == SetNode(t, d, t.nodes[d].(kids := t.nodes[d].kids[..i] + [k] + t.nodes[d].kids[i..]))
    requires id in t.nodes && (id != d || m != t.nodes[k].name)
    ensures Child(t', id, m, false) == Child(t, id, m, false)
  {
    assert KidsOk(t, id);
    InsertedFind(t, t', d, k, i, id, m);
    SameChild(t, t', id, m);
  }

  lemma {:induction false} InsertedFind(t: Tree, t': Tree, d: Id, k: Id, i: nat, id: Id, m: Name)
    requires d in t.nodes && k in t.nodes && i <= |t.nodes[d].kids| && id in t.nodes && KidsOk(t, id)
    requires t' == SetNode(t, d, t.nodes[d].(kids := t.nodes[d].kids[..i] + [k] + t.nodes[d].kids[i..]))
    requires id != d || m != t.nodes[k].name
    ensures FindIn(t'.nodes, t'.nodes[id].kids, m) == FindIn(t.nodes, t.nodes[id].kids, m)
  {
    var kids := t.nodes[d].kids;
    if id == d {
      FindInInsert(t.nodes, kids, i, k, m);
      FindInSame(t.nodes, t'.nodes, kids[..i] + [k] + kids[i..], m);
    } else {
      FindInSame(t.nodes, t'.nodes, t.nodes[id].kids, m);
    }
  }

  predicate SameFlags(n: Node, n': Node) {
    n'.name == n.name && n'.isDir == n.isDir && n'.deleted == n.deleted && n'.inCpio == n.inCpio
    && n'.overlay == n.overlay && n'.covered == n.covered
  }

  // A child is found as before if the list leads to it and the flags are the same.
  lemma SameChild(t: Tree, t': Tree, id: Id, m: Name)
    requires id in t.nodes && t'.nodes.Keys == t.nodes.Keys
             && (forall a :: a in t.nodes ==> SameFlags(t.nodes[a], t'.nodes[a]))
    requires FindIn(t'.nodes, t'.nodes[id].kids, m) == FindIn(t.nodes, t.nodes[id].kids, m)
    ensures Child(t', id, m, false) == Child(t, id, m, false)
  {
  }

  // ---- allocation

  lemma AllocKeeps(t: Tree, d: Id, name: Name, isDir: bool)
    requires Inv(t) && d in t.nodes
    ensures Inv(Alloc(t, d, name, isDir)) && t.next !in t.nodes
    ensures forall id, m, allow :: id in t.nodes ==>
            Child(Alloc(t, d, name, isDir), id, m, allow) == Child(t, id, m, allow)
  {
    var t' := Alloc(t, d, name, isDir);
    forall a | a in t'.nodes ensures a < t'.next && KidsOk(t', a) {
      if a != t.next {
        assert KidsOk(t, a);
      }
    }
    forall id, m, allow | id in t.nodes ensures Child(t', id, m, allow) == Child(t, id, m, allow) {
      assert KidsOk(t, id);
      FindInSame(t.nodes, t'.nodes, t.nodes[id].kids, m);
      FindInIs(t.nodes, t.nodes[id].kids, m);
    }
  }

  // ---- every commit keeps the lists sorted, prepared or not

  lemma EnsureChildKeeps(t: Tree, id: Id, name: Name, isDir: bool, room: Room)
    requires Inv(t) && id in t.nodes && id < t.next
    ensures Inv(EnsureChild(t, id, name, isDir, room).0)
  {
    ChildIs(t, id, name, true);
    match Child(t, id, name, true) {
      case Some(k) => FlagsKeep(t, k, t.nodes[k].(deleted := false, isDir := isDir || t.nodes[k].isDir));
      case None =>
        if room(t.next) {
          AllocKeeps(t, id, name, isDir);
          LinkKeeps(Alloc(t, id, name, isDir), id, t.next);
        }
    }
  }

  lemma {:induction false} EnsurePathKeeps(t: Tree, path: Path, isDir: bool, room: Room)
    requires Inv(t)
    ensures var r := EnsurePath(t, path, isDir, room);
            Inv(r.0) && (r.1.Some? ==> r.1.value in r.0.nodes)
    decreases |path|
  {
    if path != [] {
      EnsurePathKeeps(t, path[..|path| - 1], true, room);
      var (t1, d) := EnsurePath(t, path[..|path| - 1], true, room);
      if d.Some? {
        EnsureChildKeeps(t1, d.value, path[|path| - 1], isDir, room);
      }
    }
  }

  lemma CreateKeeps(t: Tree, path: Path, isDir: bool, room: Room)
    requires Inv(t)
    ensures Inv(CreateCommit(t, path, isDir, room))
  {
    EnsurePathKeeps(t, path, isDir, room);
    var (t1, x) := EnsurePath(t, path, isDir, room);
    if x.Some? {
      FlagsKeep(t1, x.value, Created(t1.nodes[x.value], isDir));
    }
  }

  lemma UnlinkKeeps(t: Tree, path: Path)
    requires Inv(t)
    ensures Inv(UnlinkCommit(t, path))
  {
    WalkIsNode(t, path, false);
    var x := Lookup(t, path);
    if x.Some? {
      FlagsKeep(t, x.value, t.nodes[x.value].(overlay := false, deleted := true));
    }
  }

  lemma {:induction false} DetachKeeps(t: Tree, x: Id)
    requires Inv(t) && x in t.nodes
    ensures Inv(Detach(t, x)) && Detach(t, x).nodes.Keys == t.nodes.Keys && Detach(t, x).next == t.next
    ensures forall a :: a in t.nodes ==> x !in Detach(t, x).nodes[a].kids
  {
    var n := t.nodes[x];
    OneParent(t, x);
    if n.parent.Some? && n.parent.value in t.nodes && x in t.nodes[n.parent.value].kids {
      var a := n.parent.value;
      KidsWithout(t, a, x);
      DetachIs(t, x, a);
      DetachedKids(t, Detach(t, x), x, a);
    }
  }

  lemma OneParent(t: Tree, x: Id)
    requires Inv(t) && x in t.nodes
    ensures forall b :: b in t.nodes && x in t.nodes[b].kids ==> t.nodes[x].parent == Some(b)
  {
    forall b | b in t.nodes && x in t.nodes[b].kids ensures t.nodes[x].parent == Some(b) {
      assert KidsOk(t, b);
    }
  }

  lemma {:induction false} KidsWithout(t: Tree, a: Id, x: Id)
    requires Inv(t) && a in t.nodes
    ensures forall k :: k in Without(t.nodes[a].kids, x) <==> k in t.nodes[a].kids && k != x
    ensures Sorted(t.nodes, Without(t.nodes[a].kids, x))
  {
    assert KidsOk(t, a);
    SortedIsDistinct(t.nodes, t.nodes[a].kids);
    WithoutIs(t.nodes[a].kids, x);
    WithoutSorted(t.nodes, t.nodes[a].kids, x);
  }

  lemma {:induction false} DetachIs(t: Tree, x: Id, a: Id)
    requires x in t.nodes && a in t.nodes && t.nodes[x].parent == Some(a) && x in t.nodes[a].kids
    ensures Detaches(t, Detach(t, x), x, a, Without(t.nodes[a].kids, x))
  {
    DetachedIs(t, x, a, Without(t.nodes[a].kids, x));
  }

  // The two updates of a detach, for any new list
  lemma DetachedIs(t: Tree, x: Id, a: Id, kids: seq<Id>)
    requires x in t.nodes && a in t.nodes
    ensures var t1 := SetNode(t, a, t.nodes[a].(kids := kids));
            Detaches(t, SetNode(t1, x, t1.nodes[x].(parent := None)), x, a, kids)
  {
  }

  lemma SortedIsDistinct(nodes: map<Id, Node>, kids: seq<Id>)
    requires Sorted(nodes, kids)
    ensures Distinct(kids)
  {
    forall i, j | 0 <= i < j < |kids| ensures kids[i] != kids[j] {
      LessIsStrict(nodes[kids[i]].name);
    }
  }

  // What a detach leaves as it was
  ghost predicate Detaches(t: Tree, t': Tree, x: Id, a: Id, kids: seq<Id>) {
    && x in t.nodes && a in t.nodes && t'.nodes.Keys == t.nodes.Keys && t'.next == t.next
    && (forall k :: k in t.nodes ==>
            SameFlags(t.nodes[k], t'.nodes[k]) && (k != x ==> t'.nodes[k].parent == t.nodes[k].parent))
    && (forall k :: k in t.nodes ==> t'.nodes[k].kids == if k == a then kids else t.nodes[k].kids)
  }

  lemma {:induction false} DetachedKids(t: Tree, t': Tree, x: Id, a: Id)
    requires Inv(t) && a in t.nodes && Detaches(t, t', x, a, Without(t.nodes[a].kids, x)) && x != ROOT
    requires forall k :: k in Without(t.nodes[a].kids, x) <==> k in t.nodes[a].kids && k != x
    requires Sorted(t.nodes, Without(t.nodes[a].kids, x))
    requires forall b :: b in t.nodes && x in t.nodes[b].kids ==> b == a
    ensures Inv(t')
  {
    forall b | b in t'.nodes ensures b < t'.next && KidsOk(t', b) {
      assert KidsOk(t, b);
      DetachedNode(t, t', x, a, b);
    }
  }

  lemma {:induction false} DetachedNode(t: Tree, t': Tree, x: Id, a: Id, b: Id)
    requires x in t.nodes && a in t.nodes && b in t.nodes && KidsOk(t, b)
    requires forall k :: k in Without(t.nodes[a].kids, x) <==> k in t.nodes[a].kids && k != x
    requires Sorted(t.nodes, Without(t.nodes[a].kids, x))
    requires x in t.nodes[b].kids ==> b == a
    requires t'.nodes.Keys == t.nodes.Keys
    requires t'.nodes[b].kids == if b == a then Without(t.nodes[a].kids, x) else t.nodes[b].kids
    requires forall k :: k in t.nodes ==>
              t'.nodes[k].name == t.nodes[k].name && (k != x ==> t'.nodes[k].parent == t.nodes[k].parent)
    ensures KidsOk(t', b)
  {
    var kids := t'.nodes[b].kids;
    forall i | 0 <= i < |kids| ensures kids[i] in t'.nodes && t'.nodes[kids[i]].parent == Some(b) {
      assert kids[i] in t.nodes[b].kids && kids[i] != x;
    }
  }

  // Renaming a node that is in no list
  lemma {:induction false} RelabelKeeps(t: Tree, x: Id, name: Name, d: Id)
    requires Inv(t) && x in t.nodes && x != ROOT && forall a :: a in t.nodes ==> x !in t.nodes[a].kids
    ensures Inv(SetNode(t, x, t.nodes[x].(name := name, parent := Some(d))))
  {
    var t' := SetNode(t, x, t.nodes[x].(name := name, parent := Some(d)));
    forall a | a in t'.nodes ensures a < t'.next && KidsOk(t', a) {
      assert KidsOk(t, a);
      forall i | 0 <= i < |t.nodes[a].kids| ensures t.nodes[a].kids[i] != x {
        assert t.nodes[a].kids[i] in t.nodes[a].kids;
      }
    }
  }

  lemma RenameKeeps(t: Tree, from: Path, dest: Path, name: Name)
    requires Inv(t) && from != []
    ensures Inv(RenameCommit(t, from, dest, name))
  {
    WalkIsNode(t, from, false);
    WalkIsNode(t, dest, false);
    var x, d := Lookup(t, from), Lookup(t, dest);
    if x.Some? && d.Some? && t.nodes[d.value].isDir {
      LastStep(t, from, false);
      DetachKeeps(t, x.value);
      RelabelKeeps(Detach(t, x.value), x.value, name, d.value);
      var t1 := Detach(t, x.value);
      LinkKeeps(SetNode(t1, x.value, t1.nodes[x.value].(name := name, parent := Some(d.value))), d.value, x.value);
    }
  }

  lemma LinkableKeeps(t: Tree, x: Id, d: Id, name: Name)
    requires Inv(t) && x in t.nodes && d in t.nodes
    ensures Inv(Linkable(t, x, d, name)) && t.next !in t.nodes
  {
    AllocKeeps(t, d, name, false);
    var t1 := Alloc(t, d, name, false);
    FlagsKeep(t1, t.next, t1.nodes[t.next].(inCpio := t.nodes[x].inCpio, overlay := true));
  }

  lemma LinkCommitKeeps(t: Tree, from: Path, dest: Path, name: Name, room: Room)
    requires Inv(t)
    ensures Inv(LinkCommit(t, from, dest, name, room))
  {
    WalkIsNode(t, from, false);
    WalkIsNode(t, dest, false);
    var x, d := Lookup(t, from), Lookup(t, dest);
    if x.Some? && d.Some? && t.nodes[d.value].isDir && room(t.next) {
      LinkableKeeps(t, x.value, d.value, name);
      LinkKeeps(Linkable(t, x.value, d.value, name), d.value, t.next);
    }
  }

  // The steps that change the tree.  A job's prepare and its commit are apart,
  // and any other job's commit may come between them, so a commit may meet a tree
  // its prepare never saw.
  datatype Step =
    | Create(path: Path, isDir: bool, room: Room)
    | Unlink(path: Path)
    | Rename(from: Path, dest: Path, name: Name)
    | HardLink(from: Path, dest: Path, name: Name, room: Room)
    | Cover(path: Path, on: bool)

  function Apply(t: Tree, step: Step): Tree {
    match step
    case Create(path, isDir, room) => CreateCommit(t, path, isDir, room)
    case Unlink(path) => UnlinkCommit(t, path)
    case Rename(from, dest, name) => RenameCommit(t, from, dest, name)
    case HardLink(from, dest, name, room) => LinkCommit(t, from, dest, name, room)
    case Cover(path, on) =>
      (match Walk(t, path, true)
       case None => t
       case Some(x) => if x in t.nodes && t.nodes[x].isDir then SetNode(t, x, t.nodes[x].(covered := on)) else t)
  }

  // The root is refused by every prepare.
  predicate Allowed(step: Step) {
    match step
    case Create(path, _, _) => path != []
    case Unlink(path) => path != []
    case Rename(from, _, _) => from != []
    case HardLink(from, _, _, _) => from != []
    case _ => true
  }

  function Run(t: Tree, steps: seq<Step>): Tree
    decreases |steps|
  {
    if steps == [] then t else Run(Apply(t, steps[0]), steps[1..])
  }

  const INITIAL := Tree(map[ROOT := Node("", None, [], true, false, false, false, false)], 1)

  lemma StepKeeps(t: Tree, step: Step)
    requires Inv(t) && Allowed(step)
    ensures Inv(Apply(t, step))
  {
    match step {
      case Create(path, isDir, room) => CreateKeeps(t, path, isDir, room);
      case Unlink(path) => UnlinkKeeps(t, path);
      case Rename(from, dest, name) => RenameKeeps(t, from, dest, name);
      case HardLink(from, dest, name, room) => LinkCommitKeeps(t, from, dest, name, room);
      case Cover(path, on) => CoverKeeps(t, path, on);
    }
  }

  lemma CoverKeeps(t: Tree, path: Path, on: bool)
    requires Inv(t)
    ensures Inv(Apply(t, Cover(path, on)))
  {
    var t' := Apply(t, Cover(path, on));
    forall a | a in t'.nodes ensures a < t'.next && KidsOk(t', a) {
      assert KidsOk(t, a);
    }
  }

  // Every sibling list is strictly sorted, so free of duplicates, after every
  // interleaving of jobs, renames of a directory into itself included.
  lemma {:induction false} SiblingsStaySorted(t: Tree, steps: seq<Step>)
    requires Inv(t) && forall i :: 0 <= i < |steps| ==> Allowed(steps[i])
    ensures Inv(Run(t, steps))
    decreases |steps|
  {
    if steps != [] {
      StepKeeps(t, steps[0]);
      SiblingsStaySorted(Apply(t, steps[0]), steps[1..]);
    }
  }

  lemma InitialInv()
    ensures Inv(INITIAL)
  {
    assert KidsOk(INITIAL, ROOT);
  }

  // ---- listing a directory

  // A listing from index 2 on: the visible children in list order
  function Listing(t: Tree, d: Id): seq<Id>
    requires d in t.nodes
  {
    VisibleKids(t, t.nodes[d], t.nodes[d].kids)
  }

  lemma {:induction false} VisibleKidsAre(t: Tree, n: Node, kids: seq<Id>)
    requires Sorted(t.nodes, kids)
    ensures var vs := VisibleKids(t, n, kids);
            && (forall k :: k in vs <==> k in kids && Visible(n, t.nodes[k], false))
            && Sorted(t.nodes, vs)
    decreases |kids|
  {
    if kids != [] {
      assert kids == [kids[0]] + kids[1..];
      VisibleKidsAre(t, n, kids[1..]);
      var vs := VisibleKids(t, n, kids[1..]);
      forall j | 0 <= j < |vs| ensures vs[j] in t.nodes && Less(t.nodes[kids[0]].name, t.nodes[vs[j]].name) {
        assert vs[j] in kids[1..];
        var i :| 0 <= i < |kids[1..]| && kids[1..][i] == vs[j];
        assert kids[i + 1] == vs[j];
      }
    }
  }

  // Readdir enumerates, once each and in strictly increasing order, exactly the
  // names that lookup finds in the directory.
  lemma ListingIsLookup(t: Tree, dir: Path, d: Id, name: Name)
    requires Inv(t) && Lookup(t, dir) == Some(d) && d in t.nodes
    ensures Sorted(t.nodes, Listing(t, d))
    ensures Lookup(t, dir + [name]).Some? <==> exists k :: k in Listing(t, d) && t.nodes[k].name == name
    ensures forall k :: k in Listing(t, d) && t.nodes[k].name == name ==> Lookup(t, dir + [name]) == Some(k)
  {
    var n := t.nodes[d];
    assert KidsOk(t, d);
    VisibleKidsAre(t, n, n.kids);
    FindInIs(t.nodes, n.kids, name);
    var path := dir + [name];
    assert path[..|path| - 1] == dir;
    forall k | k in Listing(t, d) && t.nodes[k].name == name ensures Lookup(t, path) == Some(k) {
      FindInUnique(t.nodes, n.kids, k);
    }
  }
}
