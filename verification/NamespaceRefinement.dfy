/**
 The tree is a map from paths.  A prepared change, on any tree that prepared
 changes can lead to, mounts anywhere included, alters lookup as an update of
 that map does: create puts one path, unlink drops one, rename moves a subtree,
 link puts one.  Where the code does less than that, the exact condition is the
 name table of one directory.
 */
module NamespaceRefinement {
  import opened Lists
  import opened Wrappers
  import opened NamespaceModel
  import opened NamespaceProofs
  import opened NamespaceTheorems

  // Only directories that are not deleted have children.  Prepared changes keep
  // this; the refusal to unlink a directory and the test of the parent are why.
  ghost predicate Orderly(t: Tree) {
    forall a :: a in t.nodes && (!t.nodes[a].isDir || t.nodes[a].deleted) ==> t.nodes[a].kids == []
  }

  ghost predicate Ready(t: Tree) { Inv(t) && Orderly(t) && t.nodes[ROOT].isDir && !t.nodes[ROOT].deleted }

  // vfs_namespace_create_prepare and mkdir_prepare: the name is free or deleted,
  // the parent is a directory that is found.
  predicate Prepared(t: Tree, dir: Path, name: Name) {
    var w := Walk(t, dir + [name], true);
    (w.None? || (w.value in t.nodes && t.nodes[w.value].deleted)) && DirAt(t, dir)
  }

  // Some node has the name in d, tombstones and covered nodes included.
  predicate Taken(t: Tree, d: Id, name: Name) {
    d in t.nodes && FindIn(t.nodes, t.nodes[d].kids, name).Some?
  }

  // The node with that name is one a mount on d covers.
  predicate Hidden(t: Tree, d: Id, name: Name) {
    Taken(t, d, name) && Child(t, d, name, true).None?
  }

  lemma OnlyMountsHide(t: Tree, d: Id, name: Name)
    requires Inv(t) && d in t.nodes && !t.nodes[d].covered
    ensures !Hidden(t, d, name)
  {
    assert KidsOk(t, d);
    FindInIs(t.nodes, t.nodes[d].kids, name);
  }

  // ---- walking with and without tombstones

  // A path that is found is found with tombstones, too.
  lemma {:induction false} WalkAllows(t: Tree, path: Path)
    requires Lookup(t, path).Some?
    ensures Walk(t, path, true) == Lookup(t, path)
    decreases |path|
  {
    if path != [] {
      WalkAllows(t, path[..|path| - 1]);
    }
  }

  // Every directory on the way has a child, so it is a live directory.
  lemma {:induction false} FoundIsLive(t: Tree, path: Path)
    requires Ready(t) && Lookup(t, path).Some?
    ensures var x := Lookup(t, path).value; x in t.nodes && !t.nodes[x].deleted
  {
    if path != [] {
      ChildIs(t, Lookup(t, path[..|path| - 1]).value, path[|path| - 1], false);
    }
  }

  lemma {:induction false} AboveIsDir(t: Tree, path: Path)
    requires Ready(t) && path != [] && Lookup(t, path).Some?
    ensures var y := Lookup(t, path[..|path| - 1]); y.Some? && y.value in t.nodes && t.nodes[y.value].isDir
  {
    ChildIs(t, Lookup(t, path[..|path| - 1]).value, path[|path| - 1], false);
  }

  // A directory that is there is left alone.
  lemma {:induction false} EnsureExisting(t: Tree, dir: Path, room: Room)
    requires Ready(t) && DirAt(t, dir)
    ensures EnsurePath(t, dir, true, room) == (t, Lookup(t, dir)) && Lookup(t, dir).value < t.next
    decreases |dir|
  {
    if dir != [] {
      AboveIsDir(t, dir);
      EnsureExisting(t, dir[..|dir| - 1], room);
      WalkAllows(t, dir);
      WalkAllows(t, dir[..|dir| - 1]);
      FoundIsLive(t, dir);
      var k := Lookup(t, dir).value;
      assert t.nodes[k := t.nodes[k]] == t.nodes;
    }
  }

  // ---- create and mkdir

  // The node a commit gives the name: a new one, or the tombstone
  function Target(t: Tree, dir: Path, name: Name): Id
    requires Lookup(t, dir).Some?
  {
    match Child(t, Lookup(t, dir).value, name, true)
    case None => t.next
    case Some(k) => k
  }

  // The commit in the one directory it touches
  function Committed(t: Tree, d: Id, name: Name, isDir: bool, room: Room): Tree
    requires d in t.nodes && d < t.next
  {
    var (t1, x) := EnsureChild(t, d, name, isDir, room);
    if x.None? then t1 else SetNode(t1, x.value, Created(t1.nodes[x.value], isDir))
  }

  lemma {:induction false} CommitIs(t: Tree, dir: Path, name: Name, isDir: bool, room: Room)
    requires Ready(t) && Prepared(t, dir, name)
    ensures Lookup(t, dir).value < t.next
    ensures CreateCommit(t, dir + [name], isDir, room) == Committed(t, Lookup(t, dir).value, name, isDir, room)
    ensures CreateOk(t, dir + [name], isDir, room) <==> Child(t, Lookup(t, dir).value, name, true).Some? || room(t.next)
  {
    EnsureExisting(t, dir, room);
    var path := dir + [name];
    assert path[..|path| - 1] == dir && path[|path| - 1] == name;
    assert EnsurePath(t, path, isDir, room) == EnsureChild(t, Lookup(t, dir).value, name, isDir, room);
  }

  // The name leads to a new node.
  lemma {:induction false} FreshCommit(t: Tree, d: Id, name: Name, isDir: bool, room: Room)
    requires Ready(t) && d in t.nodes && t.nodes[d].isDir && !t.nodes[d].deleted && !Taken(t, d, name) && room(t.next)
    ensures d < t.next && t.next !in t.nodes
    ensures var t' := Committed(t, d, name, isDir, room);
            && Ready(t') && OnlyName(t, t', d, name) && Child(t', d, name, false) == Some(t.next)
            && t'.nodes[t.next] == Created(Node(name, Some(d), [], isDir, false, false, false, false), isDir)
            && (forall a :: a in t.nodes ==> a in t'.nodes && t'.nodes[a] == t.nodes[a].(kids := t'.nodes[a].kids))
  {
    var x := t.next;
    FreshLinked(t, d, name, isDir);
    assert Child(t, d, name, true).None?;
    var t2 := Link(Alloc(t, d, name, isDir), d, x);
    var n := Created(t2.nodes[x], isDir);
    FlagsKeep(t2, x, n);
    FlagsAreSeen(t2, x, n, d);
    var t' := SetNode(t2, x, n);
    FreshSeen(t', d, x);
    forall id, m | id in t.nodes && (id != d || m != name) ensures Child(t', id, m, false) == Child(t, id, m, false) {
      assert Child(t', id, m, false) == Child(t2, id, m, false);
    }
  }

  // After allocation and linking
  lemma {:induction false} FreshLinked(t: Tree, d: Id, name: Name, isDir: bool)
    requires Ready(t) && d in t.nodes && t.nodes[d].isDir && !t.nodes[d].deleted && !Taken(t, d, name)
    ensures d < t.next
    ensures var t2 := Link(Alloc(t, d, name, isDir), d, t.next);
            var x := t.next;
            && Inv(t2) && Orderly(t2) && x !in t.nodes && x in t2.nodes && x in t2.nodes[d].kids
            && t2.nodes[x] == Node(name, Some(d), [], isDir, false, false, false, false)
            && OnlyName(t, t2, d, name) && t2.nodes.Keys == t.nodes.Keys + {x}
            && (forall a :: a in t.nodes ==> t2.nodes[a] == t.nodes[a].(kids := t2.nodes[a].kids))
  {
    AllocKeeps(t, d, name, isDir);
    FreshNameIsFree(t, d, name, isDir);
    FreshShape(t, Alloc(t, d, name, isDir), d, name, isDir);
    FreshOnlyChild(t, Alloc(t, d, name, isDir), d, name);
  }

  lemma {:induction false} FreshNameIsFree(t: Tree, d: Id, name: Name, isDir: bool)
    requires Inv(t) && d in t.nodes
    ensures var t1 := Alloc(t, d, name, isDir);
            d in t1.nodes && FindIn(t1.nodes, t1.nodes[d].kids, name) == FindIn(t.nodes, t.nodes[d].kids, name)
  {
    assert KidsOk(t, d);
    FindInSame(t.nodes, Alloc(t, d, name, isDir).nodes, t.nodes[d].kids, name);
  }

  lemma {:induction false} FreshShape(t: Tree, t1: Tree, d: Id, name: Name, isDir: bool)
    requires Orderly(t) && d in t.nodes && t.nodes[d].isDir && !t.nodes[d].deleted
    requires t1 == Alloc(t, d, name, isDir) && Inv(t1) && t.next !in t.nodes
    requires FindIn(t1.nodes, t1.nodes[d].kids, name).None?
    ensures var t2, x := Link(t1, d, t.next), t.next;
            && Inv(t2) && Orderly(t2) && x in t2.nodes && x in t2.nodes[d].kids
            && t2.nodes[x] == Node(name, Some(d), [], isDir, false, false, false, false)
            && t2.nodes.Keys == t.nodes.Keys + {x}
            && (forall a :: a in t.nodes ==> t2.nodes[a] == t.nodes[a].(kids := t2.nodes[a].kids))
  {
    LinkKeeps(t1, d, t.next);
    LinkIsSeen(t1, d, t.next);
  }

  // A live child, overlay or in no covered directory, is seen.
  lemma FreshSeen(t: Tree, d: Id, x: Id)
    requires Inv(t) && d in t.nodes && x in t.nodes[d].kids && x in t.nodes && t.nodes[x].overlay && !t.nodes[x].deleted
    ensures Child(t, d, t.nodes[x].name, false) == Some(x)
  {
    assert KidsOk(t, d);
    FindInUnique(t.nodes, t.nodes[d].kids, x);
  }

  // The name leads to its old node again.
  lemma {:induction false} RevivedCommit(t: Tree, d: Id, name: Name, isDir: bool, room: Room)
    requires Ready(t) && d in t.nodes && t.nodes[d].isDir && !t.nodes[d].deleted && Child(t, d, name, true).Some?
    requires var k := Child(t, d, name, true).value; k in t.nodes && t.nodes[k].deleted
    ensures d < t.next
    ensures var t' := Committed(t, d, name, isDir, room);
            var k := Child(t, d, name, true).value;
            && Ready(t') && OnlyName(t, t', d, name) && Child(t', d, name, false) == Some(k)
            && k in t'.nodes && t'.nodes[k] == Created(t.nodes[k], isDir) && t'.nodes[k].kids == []
            && (forall a :: a in t.nodes && a != k ==> a in t'.nodes && t'.nodes[a] == t.nodes[a])
  {
    ChildIs(t, d, name, true);
    var k := Child(t, d, name, true).value;
    var n := Created(t.nodes[k], isDir);
    FlagsKeep(t, k, n);
    FlagsAreSeen(t, k, n, d);
    var t' := SetNode(t, k, n);
    var t1 := EnsureChild(t, d, name, isDir, room).0;
    assert SetNode(t1, k, Created(t1.nodes[k], isDir)) == t';
    assert KidsOk(t', d);
    FindInUnique(t'.nodes, t'.nodes[d].kids, k);
  }

  // A covered node has the name: the commit makes a node that is in no list.
  lemma {:induction false} LostCommit(t: Tree, d: Id, name: Name, isDir: bool, room: Room)
    requires Ready(t) && d in t.nodes && Hidden(t, d, name) && room(t.next)
    ensures d < t.next
    ensures var t' := Committed(t, d, name, isDir, room);
            && Ready(t') && SameChildren(t, t') && t'.nodes.Keys == t.nodes.Keys + {t.next}
            && (forall a :: a in t.nodes ==> t'.nodes[a] == t.nodes[a])
  {
    var t1, x := Alloc(t, d, name, isDir), t.next;
    AllocKeeps(t, d, name, isDir);
    FreshNameIsFree(t, d, name, isDir);
    LinkIsSeen(t1, d, x);
    FlagsKeep(t1, x, Created(t1.nodes[x], isDir));
    var t' := SetNode(t1, x, Created(t1.nodes[x], isDir));
    forall id, m | id in t.nodes ensures Child(t', id, m, false) == Child(t, id, m, false) {
      OrphanUnseen(t, t', x, id, m);
    }
  }

  // Every directory leads where it led.
  ghost predicate SameChildren(t: Tree, t': Tree) {
    forall id, m :: id in t.nodes ==> Child(t', id, m, false) == Child(t, id, m, false)
  }

  // A node that is in no list is not found.
  lemma {:induction false} OrphanUnseen(t: Tree, t': Tree, x: Id, id: Id, m: Name)
    requires Inv(t) && x !in t.nodes && id in t.nodes && t'.nodes.Keys == t.nodes.Keys + {x}
    requires forall a :: a in t.nodes ==> t'.nodes[a] == t.nodes[a]
    ensures Child(t', id, m, false) == Child(t, id, m, false)
  {
    assert KidsOk(t, id);
    FindInIs(t.nodes, t.nodes[id].kids, m);
    FindInSame(t.nodes, t'.nodes, t.nodes[id].kids, m);
  }

  lemma {:induction false} SameLookup(t: Tree, t': Tree, q: Path)
    requires Inv(t) && SameChildren(t, t')
    ensures Lookup(t', q) == Lookup(t, q)
    decreases |q|
  {
    if q != [] {
      SameLookup(t, t', q[..|q| - 1]);
      WalkIsNode(t, q[..|q| - 1], false);
    }
  }

  // A create that is given a name to show
  predicate CreateShows(t: Tree, dir: Path, name: Name, room: Room)
    requires Lookup(t, dir).Some?
  {
    var d := Lookup(t, dir).value;
    !Hidden(t, d, name) && (Child(t, d, name, true).Some? || room(t.next))
  }

  // A prepared create or mkdir: its path, and no other, is looked up anew, and
  // no other node changes but for the list it is in.  The one exception is a
  // name that a mount covers in that very directory: then no path changes.
  lemma {:induction false} CreateChangesOnePath(t: Tree, dir: Path, name: Name, isDir: bool, room: Room, q: Path)
    requires Ready(t) && Prepared(t, dir, name)
    ensures var t' := CreateCommit(t, dir + [name], isDir, room);
            var x := Target(t, dir, name);
            && Ready(t')
            && Lookup(t, dir + [name]) == None
            && Lookup(t', q) == (if CreateShows(t, dir, name, room) && q == dir + [name] then Some(x) else Lookup(t, q))
            && (CreateShows(t, dir, name, room) ==> x in t'.nodes && t'.nodes[x] == Created(t'.nodes[x], isDir))
            && (forall a :: a in t.nodes && a != x ==>
                a in t'.nodes && t'.nodes[a] == t.nodes[a].(kids := t'.nodes[a].kids))
            && (CreateOk(t, dir + [name], isDir, room) <==> t' != t)
  {
    var path, d := dir + [name], Lookup(t, dir).value;
    CommitIs(t, dir, name, isDir, room);
    FoundIsLive(t, dir);
    PreparedIsFree(t, dir, name);
    assert path[..|path| - 1] == dir;
    if Child(t, d, name, true).Some? {
      RevivedCommit(t, d, name, isDir, room);
      CreatedLookup(t, CreateCommit(t, path, isDir, room), dir, name, Target(t, dir, name), q);
      CreatedLookup(t, CreateCommit(t, path, isDir, room), dir, name, Target(t, dir, name), path);
    } else if room(t.next) && Hidden(t, d, name) {
      LostCommit(t, d, name, isDir, room);
      assert t.next !in t.nodes;
      SameLookup(t, CreateCommit(t, path, isDir, room), q);
    } else if room(t.next) {
      FreshCommit(t, d, name, isDir, room);
      CreatedLookup(t, CreateCommit(t, path, isDir, room), dir, name, t.next, q);
    }
  }

  lemma {:induction false} CreatedLookup(t: Tree, t': Tree, dir: Path, name: Name, x: Id, q: Path)
    requires Inv(t) && Lookup(t, dir).Some? && OnlyName(t, t', Lookup(t, dir).value, name)
    requires Child(t', Lookup(t, dir).value, name, false) == Some(x) && x in t'.nodes && t'.nodes[x].kids == []
    requires Lookup(t, dir + [name]) == None
    ensures Lookup(t', q) == if q == dir + [name] then Some(x) else Lookup(t, q)
  {
    var d, path := Lookup(t, dir).value, dir + [name];
    DirStays(t, t', dir, d, name);
    if !Under(q, path) {
      OthersUnchanged(t, t', dir, d, name, q);
    } else if q != path {
      NothingBelow(t, path, q);
      NothingBelowLeaf(t', path, x, q);
    }
  }

  lemma {:induction false} PreparedIsFree(t: Tree, dir: Path, name: Name)
    requires Ready(t) && Prepared(t, dir, name)
    ensures Lookup(t, dir + [name]) == None
    ensures Walk(t, dir + [name], true) == Child(t, Lookup(t, dir).value, name, true)
  {
    var path := dir + [name];
    assert path[..|path| - 1] == dir;
    WalkAllows(t, dir);
  }

  // The directory itself is found as before.
  lemma {:induction false} DirStays(t: Tree, t': Tree, dir: Path, d: Id, name: Name)
    requires Inv(t) && Lookup(t, dir) == Some(d) && OnlyName(t, t', d, name)
    ensures Lookup(t', dir) == Some(d)
    ensures Lookup(t', dir + [name]) == Child(t', d, name, false)
  {
    OthersUnchanged(t, t', dir, d, name, dir);
    assert (dir + [name])[..|dir|] == dir;
  }

  // ---- unlink

  // vfs_namespace_unlink_prepare: the path is found and is not a directory.
  predicate Unlinkable(t: Tree, path: Path) {
    path != [] && Lookup(t, path).Some? && Lookup(t, path).value in t.nodes && !t.nodes[Lookup(t, path).value].isDir
  }

  // Unlink hides the path and whatever is below it, prepared or not; a prepared
  // unlink has nothing below.
  lemma {:induction false} UnlinkHides(t: Tree, path: Path, q: Path)
    requires Inv(t) && path != [] && Lookup(t, path).Some?
    ensures Lookup(UnlinkCommit(t, path), q) == if Under(q, path) then None else Lookup(t, q)
  {
    var x, t' := Lookup(t, path).value, UnlinkCommit(t, path);
    var dir, name := path[..|path| - 1], path[|path| - 1];
    LastStep(t, path, false);
    var d := Lookup(t, dir).value;
    var n := t.nodes[x].(overlay := false, deleted := true);
    FlagsKeep(t, x, n);
    FlagsAreSeen(t, x, n, d);
    DirStays(t, t', dir, d, name);
    assert path == dir + [name];
    HiddenChild(t, t', d, x);
    if Under(q, path) {
      NothingBelow(t', path, q);
    } else {
      OthersUnchanged(t, t', dir, d, name, q);
    }
  }

  lemma HiddenChild(t: Tree, t': Tree, d: Id, x: Id)
    requires Inv(t) && x in t.nodes && Child(t, d, t.nodes[x].name, false) == Some(x)
    requires t' == SetNode(t, x, t.nodes[x].(overlay := false, deleted := true))
    ensures Child(t', d, t.nodes[x].name, false) == None
  {
    assert KidsOk(t, d);
    FindInSame(t.nodes, t'.nodes, t.nodes[d].kids, t.nodes[x].name);
  }

  lemma {:induction false} UnlinkChangesOnePath(t: Tree, path: Path, q: Path)
    requires Ready(t) && Unlinkable(t, path)
    ensures var t' := UnlinkCommit(t, path);
            Ready(t') && Lookup(t', q) == if q == path then None else Lookup(t, q)
  {
    var x := Lookup(t, path).value;
    UnlinkHides(t, path, q);
    UnlinkKeeps(t, path);
    LastStep(t, path, false);
    if Under(q, path) && q != path {
      NothingBelowLeaf(t, path, x, q);
    }
  }

  // Unlink undoes create: every path is looked up as before.
  lemma UnlinkUndoesCreate(t: Tree, dir: Path, name: Name, room: Room, q: Path)
    requires Ready(t) && Prepared(t, dir, name)
    ensures Lookup(UnlinkCommit(CreateCommit(t, dir + [name], false, room), dir + [name]), q) == Lookup(t, q)
  {
    var path := dir + [name];
    CreateChangesOnePath(t, dir, name, false, room, q);
    CreateChangesOnePath(t, dir, name, false, room, path);
    if CreateShows(t, dir, name, room) {
      UnlinkChangesOnePath(CreateCommit(t, path, false, room), path, q);
    }
  }

  // ---- rename

  lemma {:induction false} DetachIsSeen(t: Tree, x: Id, d: Id)
    requires Inv(t) && x in t.nodes && d in t.nodes && x in t.nodes[d].kids
    ensures OnlyName(t, Detach(t, x), d, t.nodes[x].name) && Child(Detach(t, x), d, t.nodes[x].name, false) == None
    ensures FindIn(Detach(t, x).nodes, Detach(t, x).nodes[d].kids, t.nodes[x].name) == None
  {
    var t', name := Detach(t, x), t.nodes[x].name;
    assert KidsOk(t, d);
    FindInWithout(t.nodes, t.nodes[d].kids, x, name);
    WithoutSorted(t.nodes, t.nodes[d].kids, x);
    FindInSame(t.nodes, t'.nodes, t'.nodes[d].kids, name);
    forall id, m | id in t.nodes && (id != d || m != name) ensures Child(t', id, m, false) == Child(t, id, m, false) {
      DetachedElsewhere(t, x, d, id, m);
    }
  }

  lemma {:induction false} DetachedElsewhere(t: Tree, x: Id, d: Id, id: Id, m: Name)
    requires Inv(t) && x in t.nodes && d in t.nodes && x in t.nodes[d].kids && id in t.nodes
             && (id != d || m != t.nodes[x].name)
    ensures Child(Detach(t, x), id, m, false) == Child(t, id, m, false)
  {
    var t' := Detach(t, x);
    assert KidsOk(t, id) && KidsOk(t, d);
    DetachShape(t, x, d);
    if id == d {
      FindInWithout(t.nodes, t.nodes[d].kids, x, m);
      WithoutSorted(t.nodes, t.nodes[d].kids, x);
      FindInSame(t.nodes, t'.nodes, t'.nodes[d].kids, m);
    } else {
      FindInSame(t.nodes, t'.nodes, t.nodes[id].kids, m);
    }
    SameChild(t, t', id, m);
  }

  lemma {:induction false} DetachShape(t: Tree, x: Id, d: Id)
    requires Inv(t) && x in t.nodes && d in t.nodes && x in t.nodes[d].kids
    ensures var t' := Detach(t, x);
            && t'.nodes.Keys == t.nodes.Keys
            && (forall a :: a in t.nodes ==> SameFlags(t.nodes[a], t'.nodes[a]))
            && (forall a :: a in t.nodes && a != d ==> t'.nodes[a].kids == t.nodes[a].kids)
            && t'.nodes[d].kids == Without(t.nodes[d].kids, x)
  {
    OneParent(t, x);
    DetachIs(t, x, d);
  }

  // The new name and the old one, once x is under the name in d
  lemma {:induction false} RelabelIsUnseen(t: Tree, x: Id, name: Name, d: Id, id: Id, m: Name)
    requires Inv(t) && x in t.nodes && (forall a :: a in t.nodes ==> x !in t.nodes[a].kids) && id in t.nodes
    ensures var t' := SetNode(t, x, t.nodes[x].(name := name, parent := Some(d)));
            Child(t', id, m, false) == Child(t, id, m, false)
            && FindIn(t'.nodes, t'.nodes[id].kids, m) == FindIn(t.nodes, t.nodes[id].kids, m)
  {
    var t' := SetNode(t, x, t.nodes[x].(name := name, parent := Some(d)));
    assert KidsOk(t, id);
    FindInIs(t.nodes, t.nodes[id].kids, m);
    forall i | 0 <= i < |t.nodes[id].kids| ensures t.nodes[id].kids[i] != x {
      assert t.nodes[id].kids[i] in t.nodes[id].kids;
    }
    FindInSame(t.nodes, t'.nodes, t.nodes[id].kids, m);
  }

  // The tree when the node is detached and relabelled, before it is linked
  function Loose(t: Tree, x: Id, name: Name, d: Id): Tree
    requires x in t.nodes
  {
    var t1 := Detach(t, x);
    SetNode(t1, x, t1.nodes[x].(name := name, parent := Some(d)))
  }

  // Then the old path, and whatever is below it, is gone and the rest is as before.
  lemma {:induction false} LooseLookup(t: Tree, from: Path, x: Id, name: Name, d: Id, q: Path)
    requires Inv(t) && from != [] && Lookup(t, from) == Some(x)
    ensures x in t.nodes && Inv(Loose(t, x, name, d))
    ensures Lookup(Loose(t, x, name, d), q) == if Under(q, from) then None else Lookup(t, q)
  {
    var dir, last := from[..|from| - 1], from[|from| - 1];
    LastStep(t, from, false);
    var p, t2 := Lookup(t, dir).value, Loose(t, x, name, d);
    ChildIs(t, p, last, false);
    LooseIsSeen(t, x, p, name, d);
    DirStays(t, t2, dir, p, last);
    assert from == dir + [last];
    if Under(q, from) {
      NothingBelow(t2, from, q);
    } else {
      OthersUnchanged(t, t2, dir, p, last, q);
    }
  }

  lemma {:induction false} LooseIsSeen(t: Tree, x: Id, p: Id, name: Name, d: Id)
    requires Inv(t) && x in t.nodes && x != ROOT && p in t.nodes && x in t.nodes[p].kids
    ensures var t2 := Loose(t, x, name, d);
            Inv(t2) && OnlyName(t, t2, p, t.nodes[x].name) && Child(t2, p, t.nodes[x].name, false) == None
  {
    DetachKeeps(t, x);
    DetachIsSeen(t, x, p);
    var t1, t2 := Detach(t, x), Loose(t, x, name, d);
    RelabelKeeps(t1, x, name, d);
    forall id, m | id in t.nodes ensures Child(t2, id, m, false) == Child(t1, id, m, false) {
      RelabelIsUnseen(t1, x, name, d, id, m);
    }
  }

  // vfs_namespace_rename_prepare: the old path is found and is not the image's,
  // the new one is not found, and its parent is a directory that is found.
  predicate Renamable(t: Tree, from: Path, dest: Path, name: Name) {
    && from != [] && Lookup(t, from).Some? && Lookup(t, from).value in t.nodes && t.nodes[Lookup(t, from).value].overlay
    && Lookup(t, dest + [name]) == None && DirAt(t, dest)
  }

  // The commit finds what it needs.
  predicate Movable(t: Tree, from: Path, dest: Path) {
    from != [] && Lookup(t, from).Some? && Lookup(t, from).value in t.nodes && DirAt(t, dest)
  }

  // The node comes back under its new name: the directory is not below the node
  // itself, no other node has the name there, tombstones and covered ones included,
  // and no mount covers it there.  (The prepare only asks that the new path is not
  // found.)
  predicate RenameShows(t: Tree, from: Path, dest: Path, name: Name) {
    && Movable(t, from, dest) && !Under(dest, from)
    && (dest + [name] == from || !Taken(t, Lookup(t, dest).value, name))
    && Visible(t.nodes[Lookup(t, dest).value], t.nodes[Lookup(t, from).value], false)
  }

  // Where a path leads after the rename
  function Renamed(t: Tree, from: Path, dest: Path, name: Name, q: Path): Option<Id> {
    if !Movable(t, from, dest) then Lookup(t, q)
    else if RenameShows(t, from, dest, name) && Under(q, dest + [name]) then Lookup(t, from + q[|dest| + 1..])
    else if Under(q, from) then None
    else Lookup(t, q)
  }

  // A rename on any tree, for every path: the whole subtree moves, or the whole
  // subtree is lost, and which it is is RenameShows; all else stays.
  lemma {:induction false} RenameIs(t: Tree, from: Path, dest: Path, name: Name, q: Path)
    requires Inv(t) && from != []
    ensures Lookup(RenameCommit(t, from, dest, name), q) == Renamed(t, from, dest, name, q)
  {
    WalkIsNode(t, from, false);
    WalkIsNode(t, dest, false);
    if Movable(t, from, dest) {
      MovesOrGoes(t, from, dest, name, q);
    }
  }

  lemma {:induction false} MovesOrGoes(t: Tree, from: Path, dest: Path, name: Name, q: Path)
    requires Inv(t) && Movable(t, from, dest)
    ensures Lookup(RenameCommit(t, from, dest, name), q) == Renamed(t, from, dest, name, q)
  {
    var x, d := Lookup(t, from).value, Lookup(t, dest).value;
    RenameFinds(t, from, dest, name);
    RenameLoosens(t, from, dest, name);
    var t2 := Loose(t, x, name, d);
    LinkIsSeen(t2, d, x);
    LooseLookup(t, from, x, name, d, q);
    if Under(dest, from) {
      UnreachableLink(t, t2, Link(t2, d, x), from, dest, name, x, d, q);
    } else if RenameShows(t, from, dest, name) {
      MovedLookup(t, from, dest, name, q);
    } else if dest + [name] == from || !Taken(t, d, name) {
      CoveredLink(t, from, dest, name, q);
    }
  }

  // The node is linked where a mount covers it: it is not found, as if it was loose.
  lemma {:induction false} CoveredLink(t: Tree, from: Path, dest: Path, name: Name, q: Path)
    requires Inv(t) && Movable(t, from, dest) && !Under(dest, from)
    requires dest + [name] == from || !Taken(t, Lookup(t, dest).value, name)
    requires !Visible(t.nodes[Lookup(t, dest).value], t.nodes[Lookup(t, from).value], false)
    ensures Lookup(RenameCommit(t, from, dest, name), q) == if Under(q, from) then None else Lookup(t, q)
  {
    var x, d := Lookup(t, from).value, Lookup(t, dest).value;
    RenameFinds(t, from, dest, name);
    RenameLoosens(t, from, dest, name);
    var t2 := Loose(t, x, name, d);
    var t' := Link(t2, d, x);
    LinkIsSeen(t2, d, x);
    LinkKeeps(t2, d, x);
    assert KidsOk(t', d);
    FindInUnique(t'.nodes, t'.nodes[d].kids, x);
    assert Child(t2, d, name, false) == None;
    LooseLookup(t, from, x, name, d, q);
    SameLookup(t2, t', q);
  }

  // What was under the old path is under the new one; no other path changes.
  lemma {:induction false} MovedLookup(t: Tree, from: Path, dest: Path, name: Name, q: Path)
    requires Inv(t) && RenameShows(t, from, dest, name)
    ensures Lookup(RenameCommit(t, from, dest, name), q) == Renamed(t, from, dest, name, q)
  {
    var t' := RenameCommit(t, from, dest, name);
    MovedRoot(t, from, dest, name);
    if Under(q, dest + [name]) {
      var rest := q[|dest| + 1..];
      assert q == dest + [name] + rest;
      MovedBelow(t, t', from, dest, name, rest);
    } else {
      MovedElsewhere(t, t', from, dest, name, q);
    }
  }

  // The moved node itself, and what its directories see
  ghost predicate Moves(t: Tree, t': Tree, from: Path, dest: Path, name: Name) {
    forall seal: Seal :: MovesIn(seal, t, t', from, dest, name)
  }

  ghost predicate MovesIn(seal: Seal, t: Tree, t': Tree, from: Path, dest: Path, name: Name) {
    && Lookup(t, from).Some? && Lookup(t, from).value in t.nodes && Lookup(t, dest).Some?
    && var x, d := Lookup(t, from).value, Lookup(t, dest).value;
       var t2 := Loose(t, x, name, d);
       && Inv(t2) && OnlyName(t2, t', d, name) && t2.nodes.Keys == t.nodes.Keys
       && Lookup(t2, dest) == Some(d) && Lookup(t', dest + [name]) == Some(x)
  }

  lemma MovedTop(t: Tree, t': Tree, from: Path, dest: Path, name: Name)
    requires Moves(t, t', from, dest, name)
    ensures Lookup(t', dest + [name]) == Lookup(t, from)
  {
    assert MovesIn(Seal, t, t', from, dest, name);
  }

  lemma {:induction false} MovedRoot(t: Tree, from: Path, dest: Path, name: Name)
    requires Inv(t) && RenameShows(t, from, dest, name)
    ensures Moves(t, RenameCommit(t, from, dest, name), from, dest, name)
  {
    var x, d := Lookup(t, from).value, Lookup(t, dest).value;
    RenameFinds(t, from, dest, name);
    RenameLoosens(t, from, dest, name);
    LooseLookup(t, from, x, name, d, dest);
    LinkedShows(Loose(t, x, name, d), dest, name, x, d);
  }

  lemma {:induction false} LinkedShows(t2: Tree, dest: Path, name: Name, x: Id, d: Id)
    requires Inv(t2) && x in t2.nodes && d in t2.nodes && t2.nodes[x].parent == Some(d) && t2.nodes[x].name == name
    requires FindIn(t2.nodes, t2.nodes[d].kids, name).None? && Lookup(t2, dest) == Some(d)
    requires Visible(t2.nodes[d], t2.nodes[x], false)
    ensures OnlyName(t2, Link(t2, d, x), d, name) && Lookup(Link(t2, d, x), dest + [name]) == Some(x)
  {
    LinkIsSeen(t2, d, x);
    LinkKeeps(t2, d, x);
    var t' := Link(t2, d, x);
    assert KidsOk(t', d);
    FindInUnique(t'.nodes, t'.nodes[d].kids, x);
    DirStays(t2, Link(t2, d, x), dest, d, name);
  }

  lemma {:induction false} MovedElsewhere(t: Tree, t': Tree, from: Path, dest: Path, name: Name, q: Path)
    requires Inv(t) && Movable(t, from, dest) && Moves(t, t', from, dest, name) && !Under(q, dest + [name])
    ensures Lookup(t', q) == if Under(q, from) then None else Lookup(t, q)
  {
    assert MovesIn(Seal, t, t', from, dest, name);
    var x, d := Lookup(t, from).value, Lookup(t, dest).value;
    OthersUnchanged(Loose(t, x, name, d), t', dest, d, name, q);
    LooseLookup(t, from, x, name, d, q);
  }

  // By induction on the part below the moved node
  lemma {:induction false} MovedBelow(t: Tree, t': Tree, from: Path, dest: Path, name: Name, rest: Path)
    requires Inv(t) && Movable(t, from, dest) && !Under(dest, from) && Moves(t, t', from, dest, name)
    ensures Lookup(t', dest + [name] + rest) == Lookup(t, from + rest)
    decreases |rest|
  {
    if rest == [] {
      assert dest + [name] + rest == dest + [name] && from + rest == from;
      MovedTop(t, t', from, dest, name);
    } else {
      var r0, m := rest[..|rest| - 1], rest[|rest| - 1];
      assert rest == r0 + [m];
      MovedBelow(t, t', from, dest, name, r0);
      OneMore(t, from + r0, m);
      OneMore(t', dest + [name] + r0, m);
      assert from + r0 + [m] == from + rest && dest + [name] + r0 + [m] == dest + [name] + rest;
      if Lookup(t, from + r0).Some? {
        ChildMoves(t, t', from, dest, name, r0, m);
      }
    }
  }

  lemma OneMore(t: Tree, q0: Path, m: Name)
    ensures Lookup(t, q0 + [m]) == match Lookup(t, q0) case None => None case Some(y) => Child(t, y, m, false)
  {
    assert (q0 + [m])[..|q0|] == q0;
  }

  lemma {:induction false} ChildMoves(t: Tree, t': Tree, from: Path, dest: Path, name: Name, r0: Path, m: Name)
    requires Inv(t) && Movable(t, from, dest) && !Under(dest, from) && Lookup(t, from + r0).Some?
    requires Moves(t, t', from, dest, name)
    ensures var y := Lookup(t, from + r0).value; Child(t', y, m, false) == Child(t, y, m, false)
  {
    assert MovesIn(Seal, t, t', from, dest, name);
    var x, d, y := Lookup(t, from).value, Lookup(t, dest).value, Lookup(t, from + r0).value;
    var dir, last := from[..|from| - 1], from[|from| - 1];
    WalkIsNode(t, from + r0, false);
    LastStep(t, from, false);
    ChildIs(t, Lookup(t, dir).value, last, false);
    LooseIsSeen(t, x, Lookup(t, dir).value, name, d);
    if y == Lookup(t, dir).value {
      PathIsUnique(t, from + r0, dir, false);
      assert false;
    }
    if y == d {
      PathIsUnique(t, from + r0, dest, false);
      assert false;
    }
  }

  // A directory moved into itself hangs from no reachable directory.
  lemma {:induction false} UnreachableLink(
      t: Tree, t2: Tree, t': Tree, from: Path, dest: Path, name: Name, x: Id, d: Id, q: Path)
    requires Inv(t) && Inv(t2) && from != [] && Lookup(t, from) == Some(x) && Lookup(t, dest) == Some(d)
    requires Under(dest, from) && x in t.nodes && t2 == Loose(t, x, name, d)
    requires t' == t2 || OnlyName(t2, t', d, name)
    ensures Lookup(t', q) == Lookup(t2, q)
    decreases |q|
  {
    if q != [] {
      var q0 := q[..|q| - 1];
      UnreachableLink(t, t2, t', from, dest, name, x, d, q0);
      WalkIsNode(t2, q0, false);
      LooseLookup(t, from, x, name, d, q0);
      if Lookup(t2, q0) == Some(d) {
        PathIsUnique(t, q0, dest, false);
      }
    }
  }

  // The tree a rename links into
  lemma {:induction false} RenameLoosens(t: Tree, from: Path, dest: Path, name: Name)
    requires Inv(t) && Movable(t, from, dest)
    ensures var x, d := Lookup(t, from).value, Lookup(t, dest).value;
            var t2 := Loose(t, x, name, d);
            && Inv(t2) && x in t2.nodes && d in t2.nodes && t2.nodes[x].name == name && t2.nodes[x].parent == Some(d)
            && t2.nodes.Keys == t.nodes.Keys && t2.next == t.next
            && (forall a :: a in t.nodes ==> AlikeNode(t.nodes[a], t2.nodes[a]))
            && RenameCommit(t, from, dest, name) == Link(t2, d, x)
  {
    var x, d := Lookup(t, from).value, Lookup(t, dest).value;
    LooseLookup(t, from, x, name, d, dest);
    LooseShape(t, x, name, d);
  }

  // The same but for its name and where it hangs
  predicate AlikeNode(n: Node, n': Node) {
    n'.isDir == n.isDir && n'.deleted == n.deleted && n'.inCpio == n.inCpio && n'.overlay == n.overlay
    && n'.covered == n.covered
  }

  lemma LooseShape(t: Tree, x: Id, name: Name, d: Id)
    requires x in t.nodes && d in t.nodes
    ensures var t2 := Loose(t, x, name, d);
            && x in t2.nodes && d in t2.nodes && t2.nodes[x].name == name && t2.nodes[x].parent == Some(d)
            && t2.nodes.Keys == t.nodes.Keys && t2.next == t.next
            && (forall a :: a in t.nodes ==> AlikeNode(t.nodes[a], t2.nodes[a]))
  {
  }

  lemma {:induction false} RenameFinds(t: Tree, from: Path, dest: Path, name: Name)
    requires Inv(t) && Movable(t, from, dest)
    ensures var x, d := Lookup(t, from).value, Lookup(t, dest).value;
            && d in Loose(t, x, name, d).nodes
            && FindIn(Loose(t, x, name, d).nodes, Loose(t, x, name, d).nodes[d].kids, name)
               == if dest + [name] == from then None else FindIn(t.nodes, t.nodes[d].kids, name)
  {
    var x, d := Lookup(t, from).value, Lookup(t, dest).value;
    var dir, last := from[..|from| - 1], from[|from| - 1];
    assert from == dir + [last];
    LastStep(t, from, false);
    var p := Lookup(t, dir).value;
    ChildIs(t, p, last, false);
    if d == p {
      PathIsUnique(t, dest, dir, false);
    }
    if d == p && name == last {
      DetachKeeps(t, x);
      DetachIsSeen(t, x, p);
      RelabelIsUnseen(Detach(t, x), x, name, d, d, name);
    } else {
      assert dest + [name] != from;
      LooseFind(t, x, p, name, d);
    }
  }

  // A rename keeps the tree ready, into the node's own subtree included.
  lemma {:induction false} RenameReady(t: Tree, from: Path, dest: Path, name: Name)
    requires Ready(t) && Renamable(t, from, dest, name)
    ensures Ready(RenameCommit(t, from, dest, name))
  {
    var x, d := Lookup(t, from).value, Lookup(t, dest).value;
    RenameLoosens(t, from, dest, name);
    var t2 := Loose(t, x, name, d);
    FoundIsLive(t, from);
    FoundIsLive(t, dest);
    LooseShape(t, x, name, d);
    LinkKeeps(t2, d, x);
    forall a | a in t.nodes && (!t.nodes[a].isDir || t.nodes[a].deleted) ensures t2.nodes[a].kids == [] {
      LooseKids(t, x, name, d, a);
    }
  }

  lemma LooseKids(t: Tree, x: Id, name: Name, d: Id, a: Id)
    requires x in t.nodes && a in t.nodes && t.nodes[a].kids == []
    ensures a in Loose(t, x, name, d).nodes && Loose(t, x, name, d).nodes[a].kids == []
  {
    assert Without([], x) == [];
  }

  // Detaching and relabelling x does not change who has the name in d.
  lemma {:induction false} LooseFind(t: Tree, x: Id, p: Id, name: Name, d: Id)
    requires Inv(t) && x in t.nodes && x != ROOT && p in t.nodes && x in t.nodes[p].kids && d in t.nodes
    requires d != p || name != t.nodes[x].name
    ensures var t2 := Loose(t, x, name, d);
            d in t2.nodes && FindIn(t2.nodes, t2.nodes[d].kids, name) == FindIn(t.nodes, t.nodes[d].kids, name)
  {
    var t1 := Detach(t, x);
    assert KidsOk(t, p) && KidsOk(t, d);
    DetachKeeps(t, x);
    DetachShape(t, x, p);
    if d == p {
      FindInWithout(t.nodes, t.nodes[p].kids, x, name);
      WithoutSorted(t.nodes, t.nodes[p].kids, x);
      FindInSame(t.nodes, t1.nodes, t1.nodes[p].kids, name);
    } else {
      FindInSame(t.nodes, t1.nodes, t.nodes[d].kids, name);
    }
    RelabelIsUnseen(t1, x, name, d, d, name);
  }

  // ---- hard link

  // vfs_namespace_link_prepare: the old path is a file of the overlay, the new
  // one is not found, and its parent is a directory that is found.
  predicate HardLinkable(t: Tree, from: Path, dest: Path, name: Name) {
    Renamable(t, from, dest, name) && !t.nodes[Lookup(t, from).value].isDir
  }

  predicate LinkShows(t: Tree, from: Path, dest: Path, name: Name, room: Room) {
    LinkOk(t, from, dest, room) && !Taken(t, Lookup(t, dest).value, name)
  }

  // A link, on any tree, puts its path and changes no other exactly when its commit
  // finds what it needs, no node has the name, tombstones included, and a node can be
  // had; otherwise it changes no path, whatever it answers.
  lemma {:induction false} LinkChangesOnePath(t: Tree, from: Path, dest: Path, name: Name, room: Room, q: Path)
    requires Inv(t)
    ensures var t' := LinkCommit(t, from, dest, name, room);
            && Lookup(t', q) ==
                 (if LinkShows(t, from, dest, name, room) && q == dest + [name] then Some(t.next) else Lookup(t, q))
            && (LinkShows(t, from, dest, name, room) ==>
                  t.next in t'.nodes && !t'.nodes[t.next].isDir && Lookup(t, from).value in t.nodes
                  && t'.nodes[t.next].inCpio == t.nodes[Lookup(t, from).value].inCpio)
            && (!LinkOk(t, from, dest, room) ==> t' == t)
  {
    WalkIsNode(t, from, false);
    WalkIsNode(t, dest, false);
    if LinkOk(t, from, dest, room) {
      var x, d := Lookup(t, from).value, Lookup(t, dest).value;
      LinkedIs(t, x, d, name);
      var t' := Link(Linkable(t, x, d, name), d, t.next);
      if Taken(t, d, name) {
        SameLookup(t, t', q);
      } else {
        OneMore(t, dest, name);
        CreatedLookup(t, t', dest, name, t.next, q);
      }
    }
  }

  // A prepared link keeps the tree ready.
  lemma {:induction false} LinkReady(t: Tree, from: Path, dest: Path, name: Name, room: Room)
    requires Ready(t) && HardLinkable(t, from, dest, name)
    ensures Ready(LinkCommit(t, from, dest, name, room))
  {
    if room(t.next) {
      var x, d := Lookup(t, from).value, Lookup(t, dest).value;
      FoundIsLive(t, dest);
      LinkableIs(t, x, d, name);
      LinkKeeps(Linkable(t, x, d, name), d, t.next);
    }
  }

  lemma {:induction false} LinkedIs(t: Tree, x: Id, d: Id, name: Name)
    requires Inv(t) && x in t.nodes && d in t.nodes
    ensures t.next !in t.nodes && d in Linkable(t, x, d, name).nodes
    ensures var t' := Link(Linkable(t, x, d, name), d, t.next);
            && Inv(t') && t.next in t'.nodes
            && t'.nodes[t.next] == Node(name, Some(d), [], false, false, t.nodes[x].inCpio, true, false)
            && (Taken(t, d, name) ==> SameChildren(t, t'))
            && (!Taken(t, d, name) ==> OnlyName(t, t', d, name) && Child(t', d, name, false) == Some(t.next))
  {
    var t1 := Linkable(t, x, d, name);
    LinkableIs(t, x, d, name);
    LinkKeeps(t1, d, t.next);
    if Taken(t, d, name) {
      LinkIsSeen(t1, d, t.next);
    } else {
      FreshOnlyChild(t, t1, d, name);
      LinkIsSeen(t1, d, t.next);
      FreshSeen(Link(t1, d, t.next), d, t.next);
    }
  }

  lemma {:induction false} LinkableIs(t: Tree, x: Id, d: Id, name: Name)
    requires Inv(t) && x in t.nodes && d in t.nodes
    ensures t.next !in t.nodes && d in Linkable(t, x, d, name).nodes
    ensures var t1 := Linkable(t, x, d, name);
            && Inv(t1) && t1.nodes.Keys == t.nodes.Keys + {t.next}
                && (forall a :: a in t.nodes ==> t1.nodes[a] == t.nodes[a])
            && t1.nodes[t.next] == Node(name, Some(d), [], false, false, t.nodes[x].inCpio, true, false)
            && SameChildren(t, t1) && FindIn(t1.nodes, t1.nodes[d].kids, name) == FindIn(t.nodes, t.nodes[d].kids, name)
  {
    var t1 := Linkable(t, x, d, name);
    LinkableKeeps(t, x, d, name);
    assert KidsOk(t, d);
    FindInSame(t.nodes, t1.nodes, t.nodes[d].kids, name);
    forall id, m | id in t.nodes ensures Child(t1, id, m, false) == Child(t, id, m, false) {
      OrphanUnseen(t, t1, t.next, id, m);
    }
  }

  lemma {:induction false} FreshOnlyChild(t: Tree, t1: Tree, d: Id, name: Name)
    requires Inv(t1) && d in t1.nodes && t.next in t1.nodes && t.nodes.Keys <= t1.nodes.Keys
    requires t1.nodes[t.next].parent == Some(d) && t1.nodes[t.next].name == name
    requires FindIn(t1.nodes, t1.nodes[d].kids, name).None? && SameChildren(t, t1)
    ensures OnlyName(t, Link(t1, d, t.next), d, name)
  {
    LinkIsSeen(t1, d, t.next);
    var t2 := Link(t1, d, t.next);
    forall id, m | id in t.nodes && (id != d || m != name) ensures Child(t2, id, m, false) == Child(t, id, m, false) {
      assert Child(t2, id, m, false) == Child(t1, id, m, false);
    }
  }

  // ---- covering

  // A mount or its end changes no path but those below it.
  lemma {:induction false} CoverChangesBelow(t: Tree, path: Path, on: bool, q: Path)
    requires Inv(t)
    ensures !Under(q, path) || q == path ==> Lookup(Apply(t, Cover(path, on)), q) == Lookup(t, q)
    decreases |q|
  {
    var t' := Apply(t, Cover(path, on));
    CoverKeeps(t, path, on);
    WalkIsNode(t, path, true);
    if t' != t && q != [] && (!Under(q, path) || q == path) {
      var q0, m, x := q[..|q| - 1], q[|q| - 1], Walk(t, path, true).value;
      assert q == q0 + [m];
      UnderMore(q0, m, path);
      CoverChangesBelow(t, path, on, q0);
      var y := Lookup(t, q0);
      if y.Some? {
        WalkIsNode(t, q0, false);
        WalkAllows(t, q0);
        if y.value == x {
          PathIsUnique(t, q0, path, true);
          assert false;
        }
        CoveredChild(t, t', x, on, y.value, m);
      }
    }
  }

  lemma CoverReady(t: Tree, path: Path, on: bool)
    requires Ready(t)
    ensures Ready(Apply(t, Cover(path, on)))
  {
    CoverKeeps(t, path, on);
  }

  lemma {:induction false} CoveredChild(t: Tree, t': Tree, x: Id, on: bool, id: Id, m: Name)
    requires Inv(t) && x in t.nodes && id in t.nodes && id != x && t' == SetNode(t, x, t.nodes[x].(covered := on))
    ensures Child(t', id, m, false) == Child(t, id, m, false)
  {
    assert KidsOk(t, id);
    FindInSame(t.nodes, t'.nodes, t.nodes[id].kids, m);
  }

  // ---- prepared steps

  // The prepare of the step lets it through in this tree.
  predicate Ripe(t: Tree, step: Step) {
    match step
    case Create(path, _, _) => path != [] && Prepared(t, Front(path), Last(path))
    case Unlink(path) => Unlinkable(t, path)
    case Rename(from, dest, name) => Renamable(t, from, dest, name)
    case HardLink(from, dest, name, _) => HardLinkable(t, from, dest, name)
    case Cover(_, _) => true
  }

  predicate RipeRun(t: Tree, steps: seq<Step>)
    decreases |steps|
  {
    steps == [] || (Ripe(t, steps[0]) && RipeRun(Apply(t, steps[0]), steps[1..]))
  }

  lemma InitialReady()
    ensures Ready(INITIAL)
  {
    InitialInv();
  }

  // ---- renames that lose a file

  const ALWAYS: Room := (i: Id) => true

  function FileNode(name: Name, deleted: bool): Node {
    Node(name, Some(ROOT), [], false, deleted, false, !deleted, false)
  }

  function Top(kids: seq<Id>): Node { Node("", None, kids, true, false, false, false, false) }

  function WithA(): Tree { Tree(map[ROOT := Top([1]), 1 := FileNode("a", false)], 2) }

  function WithAB(deleted: bool): Tree {
    Tree(map[ROOT := Top([1, 2]), 1 := FileNode("a", false), 2 := FileNode("b", deleted)], 3)
  }

  lemma LookupTop(t: Tree, name: Name, allow: bool)
    ensures Walk(t, [name], allow) == Child(t, ROOT, name, allow) && Walk(t, [], allow) == Some(ROOT)
  {
    assert [name][..0] == [];
  }

  lemma CreateTop(t: Tree, name: Name)
    requires ROOT in t.nodes && ROOT < t.next
    ensures CreateCommit(t, [name], false, ALWAYS) == Committed(t, ROOT, name, false, ALWAYS)
  {
    assert [name][..0] == [];
    assert EnsurePath(t, [], true, ALWAYS) == (t, Some(ROOT));
    assert EnsurePath(t, [name], false, ALWAYS) == EnsureChild(t, ROOT, name, false, ALWAYS);
  }

  lemma CreateA()
    ensures CreateCommit(INITIAL, ["a"], false, ALWAYS) == WithA()
  {
    CreateTop(INITIAL, "a");
    assert FindIn(INITIAL.nodes, [], "a") == None;
    var t1 := Alloc(INITIAL, ROOT, "a", false);
    assert [][..0] + [1] + [][0..] == [1];
    assert Link(t1, ROOT, 1).nodes[ROOT] == Top([1]);
    assert Committed(INITIAL, ROOT, "a", false, ALWAYS).nodes == WithA().nodes;
  }

  lemma CreateB()
    ensures CreateCommit(WithA(), ["b"], false, ALWAYS) == WithAB(false)
  {
    CreateTop(WithA(), "b");
    assert FindIn(WithA().nodes, [1], "b") == FindIn(WithA().nodes, [], "b") by { assert [1][1..] == []; }
    var t1 := Alloc(WithA(), ROOT, "b", false);
    assert Less("a", "b");
    assert Position(t1.nodes, [1], "b") == 1 by { assert [1][1..] == []; }
    assert [1][..1] + [2] + [1][1..] == [1, 2];
    assert Link(t1, ROOT, 2).nodes[ROOT] == Top([1, 2]);
    assert Committed(WithA(), ROOT, "b", false, ALWAYS).nodes == WithAB(false).nodes;
  }

  lemma FindB(deleted: bool)
    ensures FindIn(WithAB(deleted).nodes, [1, 2], "b") == Some(2)
    ensures FindIn(WithAB(deleted).nodes, [1, 2], "a") == Some(1)
  {
    assert [1, 2][1..] == [2];
    assert "a" != "b";
  }

  lemma UnlinkB()
    ensures Unlinkable(WithAB(false), ["b"]) && UnlinkCommit(WithAB(false), ["b"]) == WithAB(true)
  {
    LookupTop(WithAB(false), "b", false);
    FindB(false);
    assert UnlinkCommit(WithAB(false), ["b"]).nodes == WithAB(true).nodes;
  }

  // Create a, create b, unlink b, rename a to b: every prepare lets its step
  // through and the rename answers 0, but neither name is found afterwards.
  lemma RenameOntoTombstone()
    ensures var steps := [Create(["a"], false, ALWAYS), Create(["b"], false, ALWAYS), Unlink(["b"]),
            Rename(["a"], [], "b")];
            && RipeRun(INITIAL, steps) && RenameOk(Run(INITIAL, steps[..3]), ["a"], [])
            && Lookup(Run(INITIAL, steps), ["a"]) == None && Lookup(Run(INITIAL, steps), ["b"]) == None
  {
    var s1, s2, s3, s4 :=
      Create(["a"], false, ALWAYS), Create(["b"], false, ALWAYS), Unlink(["b"]), Rename(["a"], [], "b");
    CreateA();
    CreateB();
    UnlinkB();
    CreatesRipe();
    RenameRipe();
    BothGone();
    RunOfFour(INITIAL, WithA(), WithAB(false), WithAB(true), s1, s2, s3, s4);
    assert [s1, s2, s3, s4][..3] == [s1, s2, s3];
  }

  lemma RunOfFour(t: Tree, t1: Tree, t2: Tree, t3: Tree, s1: Step, s2: Step, s3: Step, s4: Step)
    requires Apply(t, s1) == t1 && Apply(t1, s2) == t2 && Apply(t2, s3) == t3
    requires Ripe(t, s1) && Ripe(t1, s2) && Ripe(t2, s3) && Ripe(t3, s4)
    ensures Run(t, [s1, s2, s3]) == t3 && Run(t, [s1, s2, s3, s4]) == Apply(t3, s4)
    ensures RipeRun(t, [s1, s2, s3, s4])
  {
    RunCons(t3, s4, []);
    RunCons(t2, s3, []);
    RunCons(t2, s3, [s4]);
    RunCons(t1, s2, [s3]);
    RunCons(t1, s2, [s3, s4]);
    RunCons(t, s1, [s2, s3]);
    RunCons(t, s1, [s2, s3, s4]);
    assert [s1] + [s2, s3] == [s1, s2, s3] && [s1] + [s2, s3, s4] == [s1, s2, s3, s4];
    assert [s2] + [s3] == [s2, s3] && [s2] + [s3, s4] == [s2, s3, s4] && [s3] + [s4] == [s3, s4];
    assert [s3] + [] == [s3] && [s4] + [] == [s4];
  }

  lemma RunCons(t: Tree, step: Step, rest: seq<Step>)
    ensures Run(t, [step] + rest) == Run(Apply(t, step), rest)
    ensures RipeRun(t, [step] + rest) <==> Ripe(t, step) && RipeRun(Apply(t, step), rest)
  {
    assert ([step] + rest)[1..] == rest;
  }

  // The prepares of the creates and of the rename
  lemma CreatesRipe()
    ensures Ripe(INITIAL, Create(["a"], false, ALWAYS)) && Ripe(WithA(), Create(["b"], false, ALWAYS))
  {
    assert Front(["a"]) == [] && Front(["b"]) == [] && [] + ["a"] == ["a"] && [] + ["b"] == ["b"];
    LookupTop(INITIAL, "a", true);
    LookupTop(WithA(), "b", true);
    assert FindIn(WithA().nodes, [1], "b") == FindIn(WithA().nodes, [], "b") by { assert [1][1..] == []; }
  }

  lemma RenameRipe()
    ensures Ripe(WithAB(true), Rename(["a"], [], "b")) && RenameOk(WithAB(true), ["a"], [])
    ensures Taken(WithAB(true), ROOT, "b") && Lookup(WithAB(true), []) == Some(ROOT)
  {
    var t := WithAB(true);
    assert [] + ["b"] == ["b"];
    LookupTop(t, "a", false);
    LookupTop(t, "b", false);
    FindB(true);
  }

  lemma {:induction false} BothGone()
    ensures var t' := RenameCommit(WithAB(true), ["a"], [], "b");
            Lookup(t', ["a"]) == None && Lookup(t', ["b"]) == None
  {
    var t := WithAB(true);
    TombstoneReady();
    RenameRipe();
    assert [] + ["b"] == ["b"];
    assert Lookup(t, ["b"]) == None && !Under(["b"], ["a"]);
    RenameIs(t, ["a"], [], "b", ["a"]);
    RenameIs(t, ["a"], [], "b", ["b"]);
  }

  lemma TombstoneReady()
    ensures Ready(WithAB(true))
  {
    var t := WithAB(true);
    assert Less("a", "b");
    assert KidsOk(t, 0) && KidsOk(t, 1) && KidsOk(t, 2);
  }
}
