/**
 Commits on trees their prepares never saw.  Any other job's commit may come between
 a prepare and its commit, so all that is known of the tree is that its lists are in
 order.  On every such tree unlink, rename and link still act as one update of the
 map from paths; create does so under an exact condition.
 */
module NamespaceInterleaving {
  import opened Lists
  import opened Wrappers
  import opened NamespaceModel
  import opened NamespaceProofs
  import opened NamespaceTheorems
  import opened NamespaceRefinement

  // The updates of a map from paths
  datatype Update =
    | Put(path: Path, id: Id)
    | Drop(path: Path)              // with all that is below
    | Move(from: Path, dest: Path)  // a subtree
    | Replace(path: Path, sub: Path -> Option<Id>)   // all that is below
    | Keep

  // Where a path leads after the updates, in order
  function Seen(t: Tree, updates: seq<Update>, q: Path): Option<Id>
    decreases |updates|
  {
    if updates == [] then Lookup(t, q)
    else
      var rest := updates[..|updates| - 1];
      match updates[|updates| - 1]
      case Put(path, x) => if q == path then Some(x) else Seen(t, rest, q)
      case Drop(path) => if Under(q, path) then None else Seen(t, rest, q)
      case Move(from, dest) =>
        if Under(q, dest) then Seen(t, rest, from + q[|dest|..])
        else if Under(q, from) then None
        else Seen(t, rest, q)
      case Replace(path, sub) => if Under(q, path) && q != path then sub(q[|path|..]) else Seen(t, rest, q)
      case Keep => Seen(t, rest, q)
  }

  lemma {:induction false} OneUpdate(t: Tree, u: Update, q: Path)
    ensures Seen(t, [u], q) ==
            match u
            case Put(path, x) => if q == path then Some(x) else Lookup(t, q)
            case Drop(path) => if Under(q, path) then None else Lookup(t, q)
            case Move(from, dest) =>
              if Under(q, dest) then Lookup(t, from + q[|dest|..]) else if Under(q, from) then None else Lookup(t, q)
            case Replace(path, sub) => if Under(q, path) && q != path then sub(q[|path|..]) else Lookup(t, q)
            case Keep => Lookup(t, q)
  {
    assert [u][..0] == [];
  }

  // A child of x when its cover is on or off
  function ChildIf(t: Tree, x: Id, on: bool, m: Name): Option<Id> {
    if x !in t.nodes then None else Child(SetNode(t, x, t.nodes[x].(covered := on)), x, m, false)
  }

  // Where a path below x leads when its cover is on or off
  function Below(t: Tree, x: Id, on: bool, rest: Path): Option<Id>
    decreases |rest|
  {
    if rest == [] then Some(x)
    else if |rest| == 1 then ChildIf(t, x, on, rest[0])
    else
      match Below(t, x, on, Front(rest))
      case None => None
      case Some(y) => Child(t, y, Last(rest), false)
  }

  // What a step means for the map
  function Meaning(t: Tree, step: Step): Update {
    match step
    case Create(path, _, room) =>
      if path != [] && Lookup(t, Front(path)).Some? && CreateShows(t, Front(path), Last(path), room)
      then Put(path, Target(t, Front(path), Last(path))) else Keep
    case Unlink(path) => Drop(path)
    case Rename(from, dest, name) =>
      if RenameShows(t, from, dest, name) then Move(from, dest + [name])
      else if Movable(t, from, dest) then Drop(from)
      else Keep
    case HardLink(from, dest, name, room) =>
      if LinkShows(t, from, dest, name, room) then Put(dest + [name], t.next) else Keep
    case Cover(path, on) =>
      if DirAt(t, path) then Replace(path, rest => Below(t, Lookup(t, path).value, on, rest)) else Keep
  }

  // t' is t with the update.
  ghost predicate ActsAs(t: Tree, t': Tree, u: Update) {
    forall q :: Lookup(t', q) == Seen(t, [u], q)
  }

  // ---- unlink, rename and link

  lemma {:induction false} UnlinkActs(t: Tree, path: Path)
    requires Inv(t) && path != []
    ensures ActsAs(t, UnlinkCommit(t, path), Drop(path))
  {
    forall q ensures Lookup(UnlinkCommit(t, path), q) == Seen(t, [Drop(path)], q) {
      OneUpdate(t, Drop(path), q);
      if Lookup(t, path).Some? {
        UnlinkHides(t, path, q);
      } else if Under(q, path) {
        NothingBelow(t, path, q);
      }
    }
  }

  lemma {:induction false} RenameActs(t: Tree, from: Path, dest: Path, name: Name)
    requires Inv(t) && from != []
    ensures ActsAs(t, RenameCommit(t, from, dest, name), Meaning(t, Rename(from, dest, name)))
  {
    var u := Meaning(t, Rename(from, dest, name));
    forall q ensures Lookup(RenameCommit(t, from, dest, name), q) == Seen(t, [u], q) {
      OneUpdate(t, u, q);
      RenameIs(t, from, dest, name, q);
    }
  }

  lemma {:induction false} LinkActs(t: Tree, from: Path, dest: Path, name: Name, room: Room)
    requires Inv(t)
    ensures ActsAs(t, LinkCommit(t, from, dest, name, room), Meaning(t, HardLink(from, dest, name, room)))
  {
    var u := Meaning(t, HardLink(from, dest, name, room));
    forall q ensures Lookup(LinkCommit(t, from, dest, name, room), q) == Seen(t, [u], q) {
      OneUpdate(t, u, q);
      LinkChangesOnePath(t, from, dest, name, room, q);
    }
  }

  // ---- mounts

  // A mount or its end shows below its path what the tree has there with the cover on
  // or off, and changes no other path.
  lemma {:induction false} CoverActs(t: Tree, path: Path, on: bool)
    requires Inv(t)
    ensures ActsAs(t, Apply(t, Cover(path, on)), Meaning(t, Cover(path, on)))
  {
    var u, t' := Meaning(t, Cover(path, on)), Apply(t, Cover(path, on));
    forall q ensures Lookup(t', q) == Seen(t, [u], q) {
      OneUpdate(t, u, q);
      CoverChangesBelow(t, path, on, q);
      if Under(q, path) && q != path {
        CoverChangesBelow(t, path, on, path);
        if DirAt(t, path) {
          assert q == path + q[|path|..];
          CoveredBelow(t, path, on, q[|path|..]);
        } else if Lookup(t, path).None? {
          NothingBelow(t, path, q);
          NothingBelow(t', path, q);
        } else {
          WalkAllows(t, path);
          WalkIsNode(t, path, false);
        }
      }
    }
  }

  lemma {:induction false} CoveredBelow(t: Tree, path: Path, on: bool, rest: Path)
    requires Inv(t) && DirAt(t, path)
    ensures Lookup(Apply(t, Cover(path, on)), path + rest) == Below(t, Lookup(t, path).value, on, rest)
    decreases |rest|
  {
    var t', x := Apply(t, Cover(path, on)), Lookup(t, path).value;
    WalkAllows(t, path);
    CoverChangesBelow(t, path, on, path);
    if rest == [] {
      assert path + rest == path;
    } else {
      CoveredBelow(t, path, on, Front(rest));
      CoveredStep(t, path, on, rest);
    }
  }

  lemma {:induction false} CoveredStep(t: Tree, path: Path, on: bool, rest: Path)
    requires Inv(t) && DirAt(t, path) && rest != []
    requires Lookup(Apply(t, Cover(path, on)), path + Front(rest)) == Below(t, Lookup(t, path).value, on, Front(rest))
    ensures Lookup(Apply(t, Cover(path, on)), path + rest) == Below(t, Lookup(t, path).value, on, rest)
  {
    var t', x, r0, m := Apply(t, Cover(path, on)), Lookup(t, path).value, Front(rest), Last(rest);
    assert rest == r0 + [m] && path + rest == path + r0 + [m];
    WalkAllows(t, path);
    OneMore(t', path + r0, m);
    if r0 == [] {
      assert path + r0 == path;
    } else if Lookup(t', path + r0).Some? {
      BelowIsElse(t, path, on, r0);
      CoveredChild(t, t', x, on, Lookup(t', path + r0).value, m);
    }
  }

  // What is found below the path is another node.
  lemma {:induction false} BelowIsElse(t: Tree, path: Path, on: bool, r0: Path)
    requires Inv(t) && DirAt(t, path) && r0 != [] && Lookup(Apply(t, Cover(path, on)), path + r0).Some?
    ensures var y := Lookup(Apply(t, Cover(path, on)), path + r0).value; y in t.nodes && y != Lookup(t, path).value
  {
    var t' := Apply(t, Cover(path, on));
    CoverKeeps(t, path, on);
    CoverChangesBelow(t, path, on, path);
    WalkIsNode(t', path + r0, false);
    if Lookup(t', path + r0) == Lookup(t, path) {
      PathIsUnique(t', path + r0, path, false);
      assert false;
    }
  }

  // The name has a node that only the boot image has.
  predicate OnlyInImage(t: Tree, x: Id, m: Name) {
    x in t.nodes
    && var k := FindIn(t.nodes, t.nodes[x].kids, m);
       k.Some? && k.value in t.nodes && t.nodes[k.value].inCpio && !t.nodes[k.value].overlay
  }

  // A mount hides the names below its path that only the image has, with all below
  // them, and nothing else.
  lemma {:induction false} MountHides(t: Tree, path: Path, q: Path)
    requires Inv(t) && DirAt(t, path)
    ensures Lookup(Apply(t, Cover(path, true)), q) ==
            if |q| > |path| && Under(q, path) && OnlyInImage(t, Lookup(t, path).value, q[|path|]) then None
            else Lookup(t, q)
    decreases |q|
  {
    CoverChangesBelow(t, path, true, q);
    if |q| > |path| && Under(q, path) {
      var t', x := Apply(t, Cover(path, true)), Lookup(t, path).value;
      var q0, m := Front(q), Last(q);
      assert q == q0 + [m];
      WalkAllows(t, path);
      OneMore(t, q0, m);
      OneMore(t', q0, m);
      if |q0| == |path| {
        assert q0 == path && q[|path|] == m;
        CoverChangesBelow(t, path, true, path);
        MountedChild(t, x, m);
      } else {
        assert Under(q0, path) && q0[|path|] == q[|path|];
        MountHides(t, path, q0);
        if Lookup(t', q0).Some? {
          WalkIsNode(t, q0, false);
          if Lookup(t, q0) == Some(x) {
            PathIsUnique(t, q0, path, false);
            assert false;
          }
          CoveredChild(t, t', x, true, Lookup(t, q0).value, m);
        }
      }
    }
  }

  lemma {:induction false} MountedChild(t: Tree, x: Id, m: Name)
    requires Inv(t) && x in t.nodes
    ensures ChildIf(t, x, true, m) == if OnlyInImage(t, x, m) then None else Child(t, x, m, false)
  {
    var t' := SetNode(t, x, t.nodes[x].(covered := true));
    assert KidsOk(t, x);
    FindInSame(t.nodes, t'.nodes, t.nodes[x].kids, m);
    FindInIs(t.nodes, t.nodes[x].kids, m);
  }

  // ---- what making a path leaves alone

  // Old nodes are as they were, but some may have become directories.
  ghost predicate OldSame(t: Tree, t': Tree) {
    forall a :: a in t.nodes ==> a in t'.nodes && t'.nodes[a] == t.nodes[a].(isDir := t'.nodes[a].isDir)
  }

  lemma OldChild(t: Tree, t': Tree, id: Id, m: Name, allow: bool)
    requires Inv(t) && OldSame(t, t') && id in t.nodes
    ensures Child(t', id, m, allow) == Child(t, id, m, allow)
    ensures FindIn(t'.nodes, t'.nodes[id].kids, m) == FindIn(t.nodes, t.nodes[id].kids, m)
  {
    assert KidsOk(t, id);
    FindInSame(t.nodes, t'.nodes, t.nodes[id].kids, m);
    FindInIs(t.nodes, t.nodes[id].kids, m);
  }

  lemma OldSameChildren(t: Tree, t': Tree)
    requires Inv(t) && OldSame(t, t')
    ensures SameChildren(t, t')
  {
    forall id, m | id in t.nodes ensures Child(t', id, m, false) == Child(t, id, m, false) {
      OldChild(t, t', id, m, false);
    }
  }

  // What was found is found.
  ghost predicate Grows(t: Tree, t': Tree) {
    forall id, m :: id in t.nodes && Child(t, id, m, false).Some? ==>
                      id in t'.nodes && Child(t', id, m, false) == Child(t, id, m, false)
  }

  lemma {:induction false} GrowsLookup(t: Tree, t': Tree, q: Path)
    requires Inv(t) && Grows(t, t') && Lookup(t, q).Some?
    ensures Lookup(t', q) == Lookup(t, q)
    decreases |q|
  {
    if q != [] {
      GrowsLookup(t, t', q[..|q| - 1]);
      WalkIsNode(t, q[..|q| - 1], false);
    }
  }

  lemma GrowsTwice(t: Tree, t1: Tree, t2: Tree)
    requires Grows(t, t1) && Grows(t1, t2)
    ensures Grows(t, t2)
  {
  }

  // Only one name leads elsewhere, and if it led somewhere it still does.
  lemma OnlyNameGrows(t: Tree, t': Tree, d: Id, name: Name)
    requires OnlyName(t, t', d, name) && t.nodes.Keys <= t'.nodes.Keys
    requires Child(t, d, name, false).Some? ==> Child(t', d, name, false) == Child(t, d, name, false)
    ensures Grows(t, t')
  {
  }

  // ---- one component

  // The name has a node: it is found from now on.
  lemma {:induction false} KeptChild(t: Tree, d: Id, name: Name, n: Node)
    requires Inv(t) && d in t.nodes && Child(t, d, name, true).Some?
    requires var k := Child(t, d, name, true).value;
             && k in t.nodes && SameShape(t.nodes[k], n) && !n.deleted
             && (t.nodes[d].covered && n.inCpio && !n.overlay ==> t.nodes[k].inCpio && !t.nodes[k].overlay)
    ensures var k := Child(t, d, name, true).value;
            var t' := SetNode(t, k, n);
            && Inv(t') && OnlyName(t, t', d, name) && Child(t', d, name, false) == Some(k)
            && (Child(t, d, name, false).Some? ==> Child(t, d, name, false) == Some(k))
  {
    var k := Child(t, d, name, true).value;
    ChildIs(t, d, name, true);
    FlagsKeep(t, k, n);
    FlagsAreSeen(t, k, n, d);
    var t' := SetNode(t, k, n);
    assert KidsOk(t', d) && KidsOk(t, d);
    FindInUnique(t'.nodes, t'.nodes[d].kids, k);
  }

  // The name is free: a new node is found under it.
  lemma {:induction false} NewChild(t: Tree, d: Id, name: Name, isDir: bool)
    requires Inv(t) && d in t.nodes && !Taken(t, d, name)
    ensures t.next !in t.nodes
    ensures var t' := Link(Alloc(t, d, name, isDir), d, t.next);
            && Inv(t') && OnlyName(t, t', d, name) && Child(t', d, name, false) == Some(t.next)
            && t'.nodes.Keys == t.nodes.Keys + {t.next} && t'.nodes[t.next].kids == []
            && t'.nodes[t.next].parent == Some(d) && t'.nodes[t.next].name == name && t.next in t'.nodes[d].kids
            && (forall a :: a in t.nodes && a != d ==> t'.nodes[a] == t.nodes[a])
  {
    var t1, x := Alloc(t, d, name, isDir), t.next;
    AllocKeeps(t, d, name, isDir);
    FreshNameIsFree(t, d, name, isDir);
    LinkIsSeen(t1, d, x);
    LinkKeeps(t1, d, x);
    FreshOnlyChild(t, t1, d, name);
    var t' := Link(t1, d, x);
    assert KidsOk(t', d);
    FindInUnique(t'.nodes, t'.nodes[d].kids, x);
  }

  // A covered node has the name: the new node is in no list.
  lemma {:induction false} LostChild(t: Tree, d: Id, name: Name, isDir: bool)
    requires Inv(t) && d in t.nodes && Taken(t, d, name)
    ensures t.next !in t.nodes
    ensures var t' := Link(Alloc(t, d, name, isDir), d, t.next);
            && Inv(t') && OldSame(t, t') && t'.nodes.Keys == t.nodes.Keys + {t.next} && t'.nodes[t.next].kids == []
  {
    AllocKeeps(t, d, name, isDir);
    FreshNameIsFree(t, d, name, isDir);
    LinkIsSeen(Alloc(t, d, name, isDir), d, t.next);
  }

  // vfs_ns_ensure_child on any tree
  lemma {:induction false} EnsureChildGrows(t: Tree, d: Id, name: Name, isDir: bool, room: Room)
    requires Inv(t) && d in t.nodes && d < t.next
    ensures var (t', x) := EnsureChild(t, d, name, isDir, room);
            && Inv(t') && Grows(t, t') && t.nodes.Keys <= t'.nodes.Keys
            && (Child(t, d, name, true).Some? || (!Taken(t, d, name) && room(t.next)) ==>
                  OnlyName(t, t', d, name) && Child(t', d, name, false).Some? && x == Child(t', d, name, false))
  {
    match Child(t, d, name, true) {
      case Some(k) =>
        var n := t.nodes[k].(deleted := false, isDir := isDir || t.nodes[k].isDir);
        KeptChild(t, d, name, n);
        OnlyNameGrows(t, SetNode(t, k, n), d, name);
      case None =>
        if room(t.next) && Taken(t, d, name) {
          LostChild(t, d, name, isDir);
          OldSameChildren(t, Link(Alloc(t, d, name, isDir), d, t.next));
        } else if room(t.next) {
          NewChild(t, d, name, isDir);
          assert Child(t, d, name, false) == None;
          OnlyNameGrows(t, Link(Alloc(t, d, name, isDir), d, t.next), d, name);
        }
    }
  }

  // vfs_ns_ensure_path_nodes on any tree
  lemma {:induction false} EnsurePathGrows(t: Tree, path: Path, isDir: bool, room: Room)
    requires Inv(t)
    ensures var (t', x) := EnsurePath(t, path, isDir, room);
            Inv(t') && Grows(t, t') && t.nodes.Keys <= t'.nodes.Keys && (x.Some? ==> x.value in t'.nodes)
    decreases |path|
  {
    if path != [] {
      EnsurePathGrows(t, path[..|path| - 1], true, room);
      var (t1, d) := EnsurePath(t, path[..|path| - 1], true, room);
      if d.Some? {
        EnsureChildGrows(t1, d.value, path[|path| - 1], isDir, room);
        GrowsTwice(t, t1, EnsureChild(t1, d.value, path[|path| - 1], isDir, room).0);
      }
    }
  }

  // A path that is found is left alone, but its nodes are directories from now on.
  lemma {:induction false} EnsureFound(t: Tree, dir: Path, room: Room)
    requires Inv(t) && Lookup(t, dir).Some?
    ensures var (t1, x) := EnsurePath(t, dir, true, room);
            && x == Lookup(t, dir) && x.value in t1.nodes && Inv(t1) && OldSame(t, t1)
            && t1.nodes.Keys == t.nodes.Keys && t1.next == t.next
    decreases |dir|
  {
    if dir != [] {
      EnsureFound(t, Front(dir), room);
      var (t0, d) := EnsurePath(t, Front(dir), true, room);
      WalkIsNode(t, Front(dir), false);
      EnsureLive(t, t0, d.value, Last(dir), Lookup(t, dir).value, room);
    }
  }

  // A live child is left alone, but it is a directory from now on.
  lemma {:induction false} EnsureLive(t: Tree, t0: Tree, d: Id, name: Name, k: Id, room: Room)
    requires Inv(t) && Inv(t0) && OldSame(t, t0) && t0.nodes.Keys == t.nodes.Keys && t0.next == t.next
    requires d in t.nodes && d < t0.next && Child(t, d, name, false) == Some(k)
    ensures var (t1, x) := EnsureChild(t0, d, name, true, room);
            && x == Some(k) && k in t1.nodes && Inv(t1) && OldSame(t, t1)
            && t1.nodes.Keys == t.nodes.Keys && t1.next == t.next
  {
    OldChild(t, t0, d, name, false);
    OldChild(t, t0, d, name, true);
    ChildIs(t0, d, name, true);
    FlagsKeep(t0, k, t0.nodes[k].(deleted := false, isDir := true));
    LiveSame(t, t0, k);
  }

  lemma LiveSame(t: Tree, t0: Tree, k: Id)
    requires OldSame(t, t0) && k in t.nodes && !t.nodes[k].deleted
    ensures OldSame(t, SetNode(t0, k, t0.nodes[k].(deleted := false, isDir := true)))
  {
  }

  // A path whose directory is found: one child is ensured, in a tree that differs in
  // isDir at most.
  lemma {:induction false} EnsureInFound(t: Tree, path: Path, isDir: bool, room: Room) returns (t0: Tree)
    requires Inv(t) && path != [] && Lookup(t, Front(path)).Some?
    ensures Inv(t0) && OldSame(t, t0) && t0.nodes.Keys == t.nodes.Keys && t0.next == t.next
    ensures Lookup(t0, Front(path)) == Lookup(t, Front(path))
    ensures var d := Lookup(t, Front(path)).value;
            && d in t.nodes && d < t0.next
            && EnsurePath(t, path, isDir, room) == EnsureChild(t0, d, Last(path), isDir, room)
  {
    EnsureFound(t, Front(path), room);
    t0 := EnsurePath(t, Front(path), true, room).0;
    OldSameChildren(t, t0);
    SameLookup(t, t0, Front(path));
  }

  // ---- the commit in a directory that is found

  lemma {:induction false} CommittedIs(t: Tree, d: Id, name: Name, isDir: bool, room: Room)
    requires Inv(t) && d in t.nodes && d < t.next
    ensures var t' := Committed(t, d, name, isDir, room);
            && (Child(t, d, name, true).Some? ==>
                  var k := Child(t, d, name, true).value;
                  && OnlyName(t, t', d, name) && Child(t', d, name, false) == Some(k)
                  && k in t.nodes && k in t'.nodes && t.nodes.Keys == t'.nodes.Keys)
            && (Child(t, d, name, true).None? && room(t.next) && !Taken(t, d, name) ==>
                  && OnlyName(t, t', d, name) && Child(t', d, name, false) == Some(t.next)
                  && t.next in t'.nodes && t'.nodes[t.next].kids == [])
            && (Child(t, d, name, true).None? && (!room(t.next) || Taken(t, d, name)) ==> OldSame(t, t'))
  {
    if Child(t, d, name, true).Some? {
      KeptCommitted(t, d, name, isDir, room);
    } else if room(t.next) && !Taken(t, d, name) {
      NewCommitted(t, d, name, isDir);
    } else if room(t.next) {
      LostChild(t, d, name, isDir);
    }
  }

  lemma {:induction false} KeptCommitted(t: Tree, d: Id, name: Name, isDir: bool, room: Room)
    requires Inv(t) && d in t.nodes && d < t.next && Child(t, d, name, true).Some?
    ensures var t', k := Committed(t, d, name, isDir, room), Child(t, d, name, true).value;
            && OnlyName(t, t', d, name) && Child(t', d, name, false) == Some(k)
            && k in t.nodes && k in t'.nodes && t.nodes.Keys == t'.nodes.Keys
  {
    var k, t1 := Child(t, d, name, true).value, EnsureChild(t, d, name, isDir, room).0;
    var n := Created(t.nodes[k], isDir);
    KeptChild(t, d, name, n);
    assert SetNode(t1, k, Created(t1.nodes[k], isDir)) == SetNode(t, k, n);
  }

  lemma {:induction false} NewCommitted(t: Tree, d: Id, name: Name, isDir: bool)
    requires Inv(t) && d in t.nodes && !Taken(t, d, name)
    ensures t.next !in t.nodes && t.next in Link(Alloc(t, d, name, isDir), d, t.next).nodes
    ensures var t1, x := Link(Alloc(t, d, name, isDir), d, t.next), t.next;
            var t' := SetNode(t1, x, Created(t1.nodes[x], isDir));
            OnlyName(t, t', d, name) && Child(t', d, name, false) == Some(x) && t'.nodes[x].kids == []
  {
    NewChild(t, d, name, isDir);
    var t1, x := Link(Alloc(t, d, name, isDir), d, t.next), t.next;
    var n := Created(t1.nodes[x], isDir);
    FlagsKeep(t1, x, n);
    FlagsAreSeen(t1, x, n, d);
    FreshSeen(SetNode(t1, x, n), d, x);
    var t' := SetNode(t1, x, n);
    forall id, m | id in t.nodes && (id != d || m != name) ensures Child(t', id, m, false) == Child(t, id, m, false) {
      assert Child(t', id, m, false) == Child(t1, id, m, false);
    }
  }

  // The node of a deleted name has nothing to show.
  ghost predicate Barren(t: Tree, k: Id) { forall m :: Child(t, k, m, false).None? }

  // In a directory that is found the commit acts as its update unless it brings back
  // a node with children.
  ghost predicate Harmless(t: Tree, d: Id, name: Name) {
    var k := Child(t, d, name, true);
    k.Some? && Child(t, d, name, false).None? ==> Barren(t, k.value)
  }

  lemma {:induction false} NothingBelowBarren(t: Tree, p: Path, k: Id, q: Path)
    requires Lookup(t, p) == Some(k) && Barren(t, k) && Under(q, p) && q != p
    ensures Lookup(t, q) == None
    decreases |q|
  {
    var q0 := q[..|q| - 1];
    assert q0[..|p|] == q[..|p|];
    if q0 != p {
      NothingBelowBarren(t, p, k, q0);
    }
  }

  // The name leads to its node from now on.
  lemma {:induction false} PutLookup(t: Tree, t': Tree, dir: Path, name: Name, x: Id, q: Path)
    requires Inv(t) && Lookup(t, dir).Some? && OnlyName(t, t', Lookup(t, dir).value, name)
    requires Child(t', Lookup(t, dir).value, name, false) == Some(x)
    requires Lookup(t, dir + [name]) == Some(x) || (Lookup(t, dir + [name]) == None && Barren(t', x))
    ensures Lookup(t', q) == if q == dir + [name] then Some(x) else Lookup(t, q)
  {
    var d, path := Lookup(t, dir).value, dir + [name];
    DirStays(t, t', dir, d, name);
    OneMore(t, dir, name);
    if Lookup(t, path) == Some(x) {
      SameLookup(t, t', q);
    } else if !Under(q, path) {
      OthersUnchanged(t, t', dir, d, name, q);
    } else if q != path {
      NothingBelow(t, path, q);
      NothingBelowBarren(t', path, x, q);
    }
  }

  // The directory is found: the commit in a tree that differs in isDir at most
  lemma {:induction false} CreateInFound(t: Tree, path: Path, isDir: bool, room: Room) returns (t1: Tree)
    requires Inv(t) && path != [] && Lookup(t, Front(path)).Some?
    ensures Inv(t1) && OldSame(t, t1) && t1.nodes.Keys == t.nodes.Keys && t1.next == t.next
    ensures var d := Lookup(t, Front(path)).value;
            && d in t1.nodes && d < t1.next
            && CreateCommit(t, path, isDir, room) == Committed(t1, d, Last(path), isDir, room)
  {
    t1 := EnsureInFound(t, path, isDir, room);
  }

  lemma {:induction false} FoundCreateActs(t: Tree, path: Path, isDir: bool, room: Room, q: Path)
    requires Inv(t) && path != [] && Lookup(t, Front(path)).Some?
    requires Harmless(t, Lookup(t, Front(path)).value, Last(path))
    ensures Lookup(CreateCommit(t, path, isDir, room), q) == Seen(t, [Meaning(t, Create(path, isDir, room))], q)
  {
    var dir, name, d := Front(path), Last(path), Lookup(t, Front(path)).value;
    var t' := CreateCommit(t, path, isDir, room);
    OneUpdate(t, Meaning(t, Create(path, isDir, room)), q);
    assert path == dir + [name];
    WalkIsNode(t, dir, false);
    var t1 := CreateInFound(t, path, isDir, room);
    CommittedIs(t1, d, name, isDir, room);
    OldChild(t, t1, d, name, true);
    OldChild(t, t1, d, name, false);
    OldSameChildren(t, t1);
    SameLookup(t, t1, q);
    SameLookup(t, t1, dir);
    SameLookup(t, t1, path);
    OneMore(t, dir, name);
    if CreateShows(t, dir, name, room) {
      var x := Target(t, dir, name);
      if Lookup(t, path) == None {
        NotItsOwnParent(t, dir);
        NewIsBarren(t, t1, t', d, name, x);
      }
      PutLookup(t1, t', dir, name, x, q);
    } else {
      OldSameChildren(t1, t');
      SameLookup(t1, t', q);
    }
  }

  // The node under the new name shows nothing.
  lemma {:induction false} NewIsBarren(t: Tree, t1: Tree, t': Tree, d: Id, name: Name, x: Id)
    requires Inv(t) && OldSame(t, t1) && d in t.nodes && Harmless(t, d, name) && Child(t, d, name, false) == None
    requires OnlyName(t1, t', d, name) && t1.nodes.Keys == t.nodes.Keys
    requires Child(t, d, name, true) == Some(x) || (x in t'.nodes && t'.nodes[x].kids == [])
    requires t.nodes[d].parent != Some(d)
    ensures Barren(t', x)
  {
    if Child(t, d, name, true) == Some(x) {
      ChildIs(t, d, name, true);
      forall m ensures Child(t', x, m, false).None? {
        OldChild(t, t1, x, m, false);
      }
    }
  }

  lemma {:induction false} NotItsOwnParent(t: Tree, dir: Path)
    requires Inv(t) && Lookup(t, dir).Some?
    ensures Lookup(t, dir).value in t.nodes && t.nodes[Lookup(t, dir).value].parent != Lookup(t, dir)
  {
    WalkIsNode(t, dir, false);
    if dir != [] && t.nodes[Lookup(t, dir).value].parent == Lookup(t, dir) {
      LastStep(t, dir, false);
      PathIsUnique(t, dir, dir[..|dir| - 1], false);
    }
  }

  // A node with children comes back, and they with it.
  lemma {:induction false} ChildComesBack(t: Tree, path: Path, isDir: bool, room: Room, k: Id, m: Name)
    requires Inv(t) && path != [] && Lookup(t, Front(path)).Some?
    requires Child(t, Lookup(t, Front(path)).value, Last(path), true) == Some(k) && Child(t, k, m, false).Some?
    ensures Lookup(CreateCommit(t, path, isDir, room), path + [m]).Some?
  {
    var dir, name, d := Front(path), Last(path), Lookup(t, Front(path)).value;
    assert path == dir + [name];
    NotItsOwnParent(t, dir);
    ChildIs(t, d, name, true);
    var t1 := CreateInFound(t, path, isDir, room);
    CommittedIs(t1, d, name, isDir, room);
    OldChild(t, t1, d, name, true);
    OldChild(t, t1, k, m, false);
    OldSameChildren(t, t1);
    SameLookup(t, t1, dir);
    DirStays(t1, CreateCommit(t, path, isDir, room), dir, d, name);
    OneMore(CreateCommit(t, path, isDir, room), path, m);
  }

  lemma {:induction false} FoundCreateBrings(t: Tree, path: Path, isDir: bool, room: Room)
    requires Inv(t) && path != [] && Lookup(t, Front(path)).Some?
    requires !Harmless(t, Lookup(t, Front(path)).value, Last(path))
    ensures !ActsAs(t, CreateCommit(t, path, isDir, room), Meaning(t, Create(path, isDir, room)))
  {
    var dir, name, d := Front(path), Last(path), Lookup(t, Front(path)).value;
    var k := Child(t, d, name, true).value;
    var m :| Child(t, k, m, false).Some?;
    ChildComesBack(t, path, isDir, room, k, m);
    assert path == dir + [name] && path + [m] != path;
    OneMore(t, dir, name);
    OneMore(t, path, m);
    OneUpdate(t, Meaning(t, Create(path, isDir, room)), path + [m]);
  }

  // ---- the commit below a directory that is not found

  // The first component that is missing cannot be shown: a covered node has its name,
  // or there is no memory for it.
  predicate Stuck(t: Tree, path: Path, room: Room) {
    && path != []
    && (if Lookup(t, Front(path)).Some? then
          var d := Lookup(t, Front(path)).value;
          Child(t, d, Last(path), true).None? && (Taken(t, d, Last(path)) || !room(t.next))
        else Stuck(t, Front(path), room))
  }

  // Then whatever is made is in no list that is reached.
  ghost predicate Aside(t: Tree, r: (Tree, Option<Id>)) {
    && Inv(r.0) && OldSame(t, r.0)
    && (r.1.Some? ==> r.1.value in r.0.nodes && r.1.value !in t.nodes && r.0.nodes[r.1.value].kids == [])
  }

  lemma {:induction false} StuckHere(t: Tree, path: Path, isDir: bool, room: Room)
    requires Inv(t) && Stuck(t, path, room) && Lookup(t, Front(path)).Some?
    ensures Aside(t, EnsurePath(t, path, isDir, room))
  {
    var d, name := Lookup(t, Front(path)).value, Last(path);
    var t0 := EnsureInFound(t, path, isDir, room);
    OldChild(t, t0, d, name, true);
    if room(t.next) {
      LostChild(t0, d, name, isDir);
    }
  }

  // A new node gets a new child.
  lemma {:induction false} AsideMore(t: Tree, t0: Tree, d: Id, name: Name, isDir: bool, room: Room)
    requires Aside(t, (t0, Some(d))) && d < t0.next
    ensures Aside(t, EnsureChild(t0, d, name, isDir, room))
  {
    assert FindIn(t0.nodes, t0.nodes[d].kids, name) == None;
    if room(t0.next) {
      NewChild(t0, d, name, isDir);
    }
  }

  lemma {:induction false} StuckPath(t: Tree, path: Path, isDir: bool, room: Room)
    requires Inv(t) && Stuck(t, path, room)
    ensures Aside(t, EnsurePath(t, path, isDir, room))
    decreases |path|
  {
    if Lookup(t, Front(path)).Some? {
      StuckHere(t, path, isDir, room);
    } else {
      StuckPath(t, Front(path), true, room);
      var (t0, d) := EnsurePath(t, Front(path), true, room);
      if d.Some? {
        AsideMore(t, t0, d.value, Last(path), isDir, room);
      }
    }
  }

  lemma {:induction false} StuckCreateKeeps(t: Tree, path: Path, isDir: bool, room: Room, q: Path)
    requires Inv(t) && path != [] && Lookup(t, Front(path)).None? && Stuck(t, Front(path), room)
    ensures Lookup(CreateCommit(t, path, isDir, room), q) == Lookup(t, q)
  {
    StuckPath(t, path, isDir, room);
    OldSameChildren(t, CreateCommit(t, path, isDir, room));
    SameLookup(t, CreateCommit(t, path, isDir, room), q);
  }

  // Otherwise some directory on the way appears.
  lemma {:induction false} AppearsIn(t: Tree, path: Path, d: Id, isDir: bool, room: Room, t': Tree)
    requires Inv(t) && path != [] && Lookup(t, Front(path)) == Some(d) && d in t.nodes && d < t.next
    requires Child(t, d, Last(path), true).Some? || (!Taken(t, d, Last(path)) && room(t.next))
    requires t' == EnsureChild(t, d, Last(path), isDir, room).0
    ensures Lookup(t', path).Some?
  {
    EnsureChildGrows(t, d, Last(path), isDir, room);
    ShownAt(t, t', path, d);
  }

  lemma {:induction false} ShownAt(t: Tree, t': Tree, path: Path, d: Id)
    requires Inv(t) && path != [] && Lookup(t, Front(path)) == Some(d) && OnlyName(t, t', d, Last(path))
    ensures Lookup(t', path) == Child(t', d, Last(path), false)
  {
    DirStays(t, t', Front(path), d, Last(path));
    assert path == Front(path) + [Last(path)];
  }

  lemma {:induction false} AppearsHere(t: Tree, path: Path, isDir: bool, room: Room)
    requires Inv(t) && path != [] && Lookup(t, Front(path)).Some?
    requires var d := Lookup(t, Front(path)).value;
             Child(t, d, Last(path), true).Some? || (!Taken(t, d, Last(path)) && room(t.next))
    ensures Lookup(EnsurePath(t, path, isDir, room).0, path).Some?
  {
    var d := Lookup(t, Front(path)).value;
    var t0 := EnsureInFound(t, path, isDir, room);
    OldChild(t, t0, d, Last(path), true);
    AppearsIn(t0, path, d, isDir, room, EnsurePath(t, path, isDir, room).0);
  }

  lemma {:induction false} AppearsStill(t: Tree, path: Path, isDir: bool, room: Room, p: Path)
    requires Inv(t) && path != [] && Lookup(EnsurePath(t, Front(path), true, room).0, p).Some?
    ensures Lookup(EnsurePath(t, path, isDir, room).0, p).Some?
  {
    EnsurePathGrows(t, Front(path), true, room);
    var (t0, d) := EnsurePath(t, Front(path), true, room);
    if d.Some? {
      EnsureChildGrows(t0, d.value, Last(path), isDir, room);
      GrowsLookup(t0, EnsureChild(t0, d.value, Last(path), isDir, room).0, p);
    }
  }

  lemma {:induction false} PrefixAppears(t: Tree, path: Path, isDir: bool, room: Room) returns (p: Path)
    requires Inv(t) && Lookup(t, path) == None && !Stuck(t, path, room)
    ensures Under(path, p) && Lookup(t, p) == None && Lookup(EnsurePath(t, path, isDir, room).0, p).Some?
    decreases |path|
  {
    if Lookup(t, Front(path)).Some? {
      p := path;
      AppearsHere(t, path, isDir, room);
    } else {
      p := PrefixAppears(t, Front(path), true, room);
      AppearsStill(t, path, isDir, room, p);
    }
  }

  lemma {:induction false} LostCreateBrings(t: Tree, path: Path, isDir: bool, room: Room)
    requires Inv(t) && path != [] && Lookup(t, Front(path)).None? && !Stuck(t, Front(path), room)
    ensures !ActsAs(t, CreateCommit(t, path, isDir, room), Meaning(t, Create(path, isDir, room)))
  {
    var p := PrefixAppears(t, Front(path), true, room);
    AppearsStill(t, path, isDir, room, p);
    CommitAppears(t, path, isDir, room, p);
    OneUpdate(t, Keep, p);
  }

  // The flags a commit sets hide nothing.
  lemma {:induction false} CreatedGrows(t: Tree, x: Id, isDir: bool)
    requires Inv(t) && x in t.nodes
    ensures Grows(t, SetNode(t, x, Created(t.nodes[x], isDir)))
  {
    var t' := SetNode(t, x, Created(t.nodes[x], isDir));
    forall id, m | id in t.nodes && Child(t, id, m, false).Some?
      ensures Child(t', id, m, false) == Child(t, id, m, false)
    {
      assert KidsOk(t, id);
      FindInSame(t.nodes, t'.nodes, t.nodes[id].kids, m);
    }
  }

  lemma CommitAppears(t: Tree, path: Path, isDir: bool, room: Room, p: Path)
    requires Inv(t) && Lookup(EnsurePath(t, path, isDir, room).0, p).Some?
    ensures Lookup(CreateCommit(t, path, isDir, room), p).Some?
  {
    EnsurePathGrows(t, path, isDir, room);
    var (t1, x) := EnsurePath(t, path, isDir, room);
    if x.Some? {
      CreatedGrows(t1, x.value, isDir);
      GrowsLookup(t1, CreateCommit(t, path, isDir, room), p);
    }
  }

  // ---- when a commit acts as its update

  // Unlink, rename, link, mount and umount always do.  Create does if its directory is found and it
  // brings back no node with children, or if nothing it makes can be shown.
  ghost predicate Intact(t: Tree, step: Step) {
    match step
    case Create(path, _, room) =>
      path != []
      && if Lookup(t, Front(path)).Some? then Harmless(t, Lookup(t, Front(path)).value, Last(path))
         else Stuck(t, Front(path), room)
    case _ => true
  }

  lemma {:induction false} CreateActsIff(t: Tree, path: Path, isDir: bool, room: Room)
    requires Inv(t) && path != []
    ensures ActsAs(t, CreateCommit(t, path, isDir, room), Meaning(t, Create(path, isDir, room))) <==>
            Intact(t, Create(path, isDir, room))
  {
    var u := Meaning(t, Create(path, isDir, room));
    if !Intact(t, Create(path, isDir, room)) {
      if Lookup(t, Front(path)).Some? {
        FoundCreateBrings(t, path, isDir, room);
      } else {
        LostCreateBrings(t, path, isDir, room);
      }
    } else {
      forall q ensures Lookup(CreateCommit(t, path, isDir, room), q) == Seen(t, [u], q) {
        if Lookup(t, Front(path)).Some? {
          FoundCreateActs(t, path, isDir, room, q);
        } else {
          StuckCreateKeeps(t, path, isDir, room, q);
          OneUpdate(t, Keep, q);
        }
      }
    }
  }

  // A commit on any tree acts as its update of the map exactly if it is intact.
  lemma {:induction false} CommitActsIff(t: Tree, step: Step)
    requires Inv(t) && Allowed(step)
    ensures ActsAs(t, Apply(t, step), Meaning(t, step)) <==> Intact(t, step)
  {
    match step {
      case Create(path, isDir, room) => CreateActsIff(t, path, isDir, room);
      case Unlink(path) => UnlinkActs(t, path);
      case Rename(from, dest, name) => RenameActs(t, from, dest, name);
      case HardLink(from, dest, name, room) => LinkActs(t, from, dest, name, room);
      case Cover(path, on) => CoverActs(t, path, on);
    }
  }

  // ---- runs

  ghost predicate IntactRun(t: Tree, steps: seq<Step>)
    decreases |steps|
  {
    steps == [] || (Allowed(steps[0]) && Intact(t, steps[0]) && IntactRun(Apply(t, steps[0]), steps[1..]))
  }

  function Meanings(t: Tree, steps: seq<Step>): (r: seq<Update>)
    ensures |r| == |steps|
    decreases |steps|
  {
    if steps == [] then [] else [Meaning(t, steps[0])] + Meanings(Apply(t, steps[0]), steps[1..])
  }

  // Updates of the map of a tree that looks like another's are the same.
  lemma {:induction false} SeenThrough(t: Tree, t': Tree, u: Update, updates: seq<Update>, q: Path)
    requires ActsAs(t, t', u)
    ensures Seen(t', updates, q) == Seen(t, [u] + updates, q)
    decreases |updates|
  {
    var all := [u] + updates;
    if updates == [] {
      assert all == [u];
    } else {
      var rest := updates[..|updates| - 1];
      assert all[..|all| - 1] == [u] + rest && all[|all| - 1] == updates[|updates| - 1];
      SeenThrough(t, t', u, rest, q);
      match updates[|updates| - 1] {
        case Move(from, dest) =>
          if Under(q, dest) {
            SeenThrough(t, t', u, rest, from + q[|dest|..]);
          }
        case _ =>
      }
    }
  }

  // After any interleaving of commits, prepared on whatever tree, every path leads
  // where the updates of the map say, as long as each commit is intact when it comes.
  lemma {:induction false} InterleavedRefinesMap(t: Tree, steps: seq<Step>, q: Path)
    requires Inv(t) && IntactRun(t, steps)
    ensures Inv(Run(t, steps)) && Lookup(Run(t, steps), q) == Seen(t, Meanings(t, steps), q)
    decreases |steps|
  {
    if steps != [] {
      StepKeeps(t, steps[0]);
      CommitActsIff(t, steps[0]);
      InterleavedRefinesMap(Apply(t, steps[0]), steps[1..], q);
      SeenThrough(t, Apply(t, steps[0]), Meaning(t, steps[0]), Meanings(Apply(t, steps[0]), steps[1..]), q);
    }
  }

  // ---- prepared steps are intact

  lemma {:induction false} RipeIsIntact(t: Tree, step: Step)
    requires Ready(t) && Ripe(t, step)
    ensures Allowed(step) && Intact(t, step) && Ready(Apply(t, step))
  {
    match step {
      case Create(path, isDir, room) =>
        assert path == Front(path) + [Last(path)];
        CreateChangesOnePath(t, Front(path), Last(path), isDir, room, []);
        RipeIsHarmless(t, path);
      case Unlink(path) => UnlinkChangesOnePath(t, path, []);
      case Rename(from, dest, name) => RenameReady(t, from, dest, name);
      case HardLink(from, dest, name, room) => LinkReady(t, from, dest, name, room);
      case Cover(path, on) => CoverReady(t, path, on);
    }
  }

  lemma {:induction false} RipeIsHarmless(t: Tree, path: Path)
    requires Ready(t) && path != [] && Prepared(t, Front(path), Last(path))
    ensures Harmless(t, Lookup(t, Front(path)).value, Last(path))
  {
    PreparedIsFree(t, Front(path), Last(path));
    var k := Child(t, Lookup(t, Front(path)).value, Last(path), true);
    if k.Some? {
      assert t.nodes[k.value].kids == [];
    }
  }

  // After any number of prepared steps every path leads where the updates of the
  // map say, and the next prepared step finds a tree it may rely on.
  lemma {:induction false} TreeRefinesMap(t: Tree, steps: seq<Step>, q: Path)
    requires Ready(t) && RipeRun(t, steps)
    ensures Ready(Run(t, steps)) && IntactRun(t, steps) && Lookup(Run(t, steps), q) == Seen(t, Meanings(t, steps), q)
  {
    RipeRunIsIntact(t, steps);
    InterleavedRefinesMap(t, steps, q);
  }

  lemma {:induction false} RipeRunIsIntact(t: Tree, steps: seq<Step>)
    requires Ready(t) && RipeRun(t, steps)
    ensures Ready(Run(t, steps)) && IntactRun(t, steps)
    decreases |steps|
  {
    if steps != [] {
      RipeIsIntact(t, steps[0]);
      RipeRunIsIntact(Apply(t, steps[0]), steps[1..]);
    }
  }

  // ---- a create that comes too late

  // One directory under the root
  function OneDir(name: Name): Tree {
    Tree(map[ROOT := Top([1]), 1 := Node(name, Some(ROOT), [], true, false, false, true, false)], 2)
  }

  lemma OneDirIs(name: Name, other: Name)
    requires other != name
    ensures Inv(OneDir(name)) && Lookup(OneDir(name), [name]) == Some(1) && Walk(OneDir(name), [name], true) == Some(1)
    ensures Lookup(OneDir(name), [other]) == None && !Taken(OneDir(name), ROOT, other)
  {
    var t := OneDir(name);
    LookupTop(t, name, false);
    LookupTop(t, name, true);
    LookupTop(t, other, false);
    assert [1][1..] == [];
    assert FindIn(t.nodes, [1], name) == Some(1);
    assert FindIn(t.nodes, [1], other) == FindIn(t.nodes, [], other) == None;
    assert KidsOk(t, ROOT) && KidsOk(t, 1);
  }

  lemma MakeA()
    ensures CreateCommit(INITIAL, ["a"], true, ALWAYS) == OneDir("a")
  {
    assert ["a"][..0] == [];
    assert EnsurePath(INITIAL, [], true, ALWAYS) == (INITIAL, Some(ROOT));
    assert FindIn(INITIAL.nodes, [], "a") == None;
    var t1 := Alloc(INITIAL, ROOT, "a", true);
    assert [][..0] + [1] + [][0..] == [1];
    assert Link(t1, ROOT, 1).nodes[ROOT] == Top([1]);
    assert CreateCommit(INITIAL, ["a"], true, ALWAYS).nodes == OneDir("a").nodes;
  }

  lemma RenameA()
    ensures RenameCommit(OneDir("a"), ["a"], [], "b") == OneDir("b")
  {
    var t := OneDir("a");
    OneDirIs("a", "b");
    assert Lookup(t, []) == Some(ROOT);
    assert Without([1], 1) == [] by { assert [1][1..] == []; }
    assert Loose(t, 1, "b", ROOT).nodes[ROOT] == Top([]);
    assert [][..0] + [1] + [][0..] == [1];
    assert RenameCommit(t, ["a"], [], "b").nodes == OneDir("b").nodes;
  }

  const LATE := Create(["a", "f"], false, ALWAYS)

  lemma LateIsPrepared()
    ensures Ripe(OneDir("a"), LATE)
  {
    var path: Path := ["a", "f"];
    OneDirIs("a", "b");
    assert Front(path) == ["a"] && Last(path) == "f" && path == ["a"] + ["f"];
    assert Walk(OneDir("a"), path, true) == Child(OneDir("a"), 1, "f", true) == None;
  }

  lemma LateIsNotIntact()
    ensures Lookup(OneDir("b"), ["a"]) == None && !Intact(OneDir("b"), LATE)
    ensures Lookup(Apply(OneDir("b"), LATE), ["a"]).Some?
  {
    var path: Path, a: Path, t: Tree := ["a", "f"], ["a"], OneDir("b");
    OneDirIs("b", "a");
    assert Front(path) == a && Last(path) == "f" && Front(a) == [] && Last(a) == "a";
    assert Lookup(t, []) == Some(ROOT);
    AppearsHere(t, a, true, ALWAYS);
    AppearsStill(t, path, false, ALWAYS, a);
    CommitAppears(t, path, false, ALWAYS, a);
  }

  // mkdir a; a create of a/f is prepared; a is renamed to b; the create commits: the
  // directory a is there again.
  lemma StaleCreateBringsDirectoryBack()
    ensures var t := Run(INITIAL, [Create(["a"], true, ALWAYS)]);
            var t1 := Apply(t, Rename(["a"], [], "b"));
            && Ripe(t, LATE) && Lookup(t1, ["a"]) == None && Lookup(Apply(t1, LATE), ["a"]).Some? && !Intact(t1, LATE)
  {
    MakeA();
    RunCons(INITIAL, Create(["a"], true, ALWAYS), []);
    assert [Create(["a"], true, ALWAYS)] + [] == [Create(["a"], true, ALWAYS)];
    RenameA();
    LateIsPrepared();
    LateIsNotIntact();
  }
}
