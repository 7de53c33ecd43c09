/**
 The namespace as it runs: a node table edited in place, with cursor loops over
 sibling lists and path components.
 */
module NamespaceStore {
  import opened Lists
  import opened Wrappers
  import opened NamespaceModel
  import opened NamespaceProofs
  import opened NamespaceTheorems

  class Namespace {
    var nodes: map<Id, Node>
    var next: Id

    ghost function Abs(): Tree reads this { Tree(nodes, next) }

    ghost predicate Valid() reads this { Inv(Abs()) }

    constructor ()
      ensures Valid() && Abs() == INITIAL
    {
      nodes, next := map[ROOT := Node("", None, [], true, false, false, false, false)], 1;
      new;
      InitialInv();
    }

    // vfs_ns_find_child
    method FindChild(id: Id, name: Name, allowDeleted: bool) returns (r: Option<Id>)
      requires Valid() && id in nodes
      ensures r == Child(Abs(), id, name, allowDeleted)
    {
      assert KidsOk(Abs(), id);
      var kids, i := nodes[id].kids, 0;
      while i < |kids|
        invariant i <= |kids| && FindIn(nodes, kids, name) == FindIn(nodes, kids[i..], name)
      {
        assert kids[i..][1..] == kids[i + 1..];
        if nodes[kids[i]].name == name {
          return if Visible(nodes[id], nodes[kids[i]], allowDeleted) then Some(kids[i]) else None;
        }
        i := i + 1;
      }
      return None;
    }

    // vfs_ns_lookup_node
    method LookupNode(path: Path, allowDeleted: bool) returns (r: Option<Id>)
      requires Valid()
      ensures r == Walk(Abs(), path, allowDeleted)
    {
      var i := 0;
      r := Some(ROOT);
      while i < |path|
        invariant i <= |path| && r == Walk(Abs(), path[..i], allowDeleted) && r.Some? && r.value in nodes
      {
        assert path[..i + 1][..i] == path[..i];
        WalkIsNode(Abs(), path[..i + 1], allowDeleted);
        r := FindChild(r.value, path[i], allowDeleted);
        if r.None? {
          NotFoundBelow(Abs(), path, i + 1, allowDeleted);
          return;
        }
        i := i + 1;
      }
      assert path[..i] == path;
    }

    // The cursor loop of vfs_ns_link_child
    method FindPosition(kids: seq<Id>, name: Name) returns (i: nat, taken: bool)
      requires forall j :: 0 <= j < |kids| ==> kids[j] in nodes
      ensures i == Position(nodes, kids, name) && (taken <==> i < |kids| && nodes[kids[i]].name == name)
    {
      i := 0;
      LessIsStrict(name);
      while i < |kids|
        invariant i <= |kids| && Position(nodes, kids, name) == i + Position(nodes, kids[i..], name)
      {
        assert kids[i..][1..] == kids[i + 1..];
        if nodes[kids[i]].name == name {
          return i, true;
        }
        if !Less(nodes[kids[i]].name, name) {
          return i, false;
        }
        i := i + 1;
      }
      taken := false;
    }

    // vfs_ns_link_child
    method LinkChild(parent: Id, kid: Id)
      requires Valid() && parent in nodes && kid in nodes && nodes[kid].parent == Some(parent)
      modifies this`nodes
      ensures Valid() && Abs() == Link(old(Abs()), parent, kid)
    {
      LinkKeeps(Abs(), parent, kid);
      var kids := nodes[parent].kids;
      assert KidsOk(Abs(), parent);
      var i, taken := FindPosition(kids, nodes[kid].name);
      if !taken {
        nodes := nodes[parent := nodes[parent].(kids := kids[..i] + [kid] + kids[i..])];
      }
    }

    // vfs_ns_detach
    method DetachNode(x: Id)
      requires Valid() && x in nodes
      modifies this`nodes
      ensures Valid() && Abs() == Detach(old(Abs()), x)
    {
      DetachKeeps(Abs(), x);
      if nodes[x].parent.None? || nodes[x].parent.value !in nodes {
        return;
      }
      var a := nodes[x].parent.value;
      var kids, found := Removed(nodes[a].kids, x);
      if found {
        nodes := nodes[a := nodes[a].(kids := kids)];
        nodes := nodes[x := nodes[x].(parent := None)];
      }
    }

    // vfs_namespace_rename_commit
    method CommitRename(from: Path, dest: Path, name: Name) returns (ok: bool)
      requires Valid() && from != []
      modifies this`nodes
      ensures Valid() && Abs() == RenameCommit(old(Abs()), from, dest, name) && ok == RenameOk(old(Abs()), from, dest)
    {
      ghost var t := Abs();
      WalkIsNode(t, from, false);
      WalkIsNode(t, dest, false);
      var x := LookupNode(from, false);
      if x.None? {
        return false;
      }
      var d := LookupNode(dest, false);
      if d.None? || !nodes[d.value].isDir {
        return false;
      }
      LastStep(t, from, false);
      DetachKeeps(t, x.value);
      RelabelKeeps(Detach(t, x.value), x.value, name, d.value);
      DetachNode(x.value);
      nodes := nodes[x.value := nodes[x.value].(name := name, parent := Some(d.value))];
      LinkChild(d.value, x.value);
      return true;
    }

    // vfs_ns_ensure_child
    method EnsureNode(id: Id, name: Name, isDir: bool, room: Room) returns (r: Option<Id>)
      requires Valid() && id in nodes && id < next
      modifies this
      ensures Valid() && (Abs(), r) == EnsureChild(old(Abs()), id, name, isDir, room)
    {
      EnsureChildKeeps(Abs(), id, name, isDir, room);
      ChildIs(Abs(), id, name, true);
      r := FindChild(id, name, true);
      if r.Some? {
        var k := r.value;
        nodes := nodes[k := nodes[k].(deleted := false, isDir := isDir || nodes[k].isDir)];
        return;
      }
      if !room(next) {
        return None;
      }
      AllocKeeps(Abs(), id, name, isDir);
      var k := next;
      nodes := nodes[k := Node(name, Some(id), [], isDir, false, false, false, false)];
      next := next + 1;
      LinkChild(id, k);
      return Some(k);
    }

    // vfs_ns_ensure_path_nodes
    method EnsureNodes(path: Path, isDir: bool, room: Room) returns (r: Option<Id>)
      requires Valid()
      modifies this
      ensures Valid() && (Abs(), r) == EnsurePath(old(Abs()), path, isDir, room) && (r.Some? ==> r.value in nodes)
    {
      r := Some(ROOT);
      var i := 0;
      while i < |path|
        invariant i <= |path| && Valid() && r.Some? && r.value in nodes
        invariant EnsurePath(old(Abs()), path[..i], i < |path| || isDir, room) == (Abs(), r)
      {
        assert path[..i + 1][..i] == path[..i];
        r := EnsureNode(r.value, path[i], i + 1 < |path| || isDir, room);
        i := i + 1;
        if r.None? {
          EnsureStops(old(Abs()), path, i, isDir, room);
          return;
        }
      }
      assert path[..i] == path;
    }

    // vfs_namespace_create_commit and mkdir_commit
    method CommitCreate(path: Path, isDir: bool, room: Room) returns (ok: bool)
      requires Valid() && path != []
      modifies this
      ensures Valid() && Abs() == CreateCommit(old(Abs()), path, isDir, room)
              && ok == CreateOk(old(Abs()), path, isDir, room)
    {
      CreateKeeps(Abs(), path, isDir, room);
      var r := EnsureNodes(path, isDir, room);
      if r.None? {
        return false;
      }
      var k := r.value;
      nodes := nodes[k := nodes[k].(deleted := false, isDir := isDir, inCpio := false, overlay := true)];
      return true;
    }

    // vfs_namespace_link_commit
    method CommitLink(from: Path, dest: Path, name: Name, room: Room) returns (ok: bool)
      requires Valid()
      modifies this
      ensures Valid() && Abs() == LinkCommit(old(Abs()), from, dest, name, room)
              && ok == LinkOk(old(Abs()), from, dest, room)
    {
      ghost var t := Abs();
      WalkIsNode(t, from, false);
      WalkIsNode(t, dest, false);
      var x := LookupNode(from, false);
      if x.None? {
        return false;
      }
      var d := LookupNode(dest, false);
      if d.None? || !nodes[d.value].isDir || !room(next) {
        return false;
      }
      LinkableKeeps(t, x.value, d.value, name);
      var k := next;
      nodes := nodes[k := Node(name, Some(d.value), [], false, false, nodes[x.value].inCpio, true, false)];
      next := next + 1;
      assert Abs() == Linkable(t, x.value, d.value, name);
      LinkChild(d.value, k);
      return true;
    }

    // vfs_namespace_unlink_commit
    method CommitUnlink(path: Path) returns (ok: bool)
      requires Valid() && path != []
      modifies this`nodes
      ensures Valid() && Abs() == UnlinkCommit(old(Abs()), path) && ok == Lookup(old(Abs()), path).Some?
    {
      UnlinkKeeps(Abs(), path);
      WalkIsNode(Abs(), path, false);
      var x := LookupNode(path, false);
      if x.None? {
        return false;
      }
      nodes := nodes[x.value := nodes[x.value].(overlay := false, deleted := true)];
      return true;
    }

    // vfs_namespace_readdir_prepare from index 2 on: the visible child with this
    // number, by a walk along the list
    method ReaddirAt(d: Id, index: nat) returns (r: Option<Id>)
      requires Valid() && d in nodes
      ensures var vs := Listing(Abs(), d);
              r == if index < |vs| then Some(vs[index]) else None
    {
      assert KidsOk(Abs(), d);
      var kids, i, seen := nodes[d].kids, 0, 0;
      while i < |kids|
        invariant i <= |kids| && seen <= index
        invariant |Listing(Abs(), d)| == seen + |VisibleKids(Abs(), nodes[d], kids[i..])|
        invariant Listing(Abs(), d)[seen..] == VisibleKids(Abs(), nodes[d], kids[i..])
      {
        assert kids[i..][1..] == kids[i + 1..];
        if Visible(nodes[d], nodes[kids[i]], false) {
          if seen == index {
            return Some(kids[i]);
          }
          seen := seen + 1;
        }
        i := i + 1;
      }
      return None;
    }
  }

  // The cursor loop of vfs_ns_detach
  method Removed(kids: seq<Id>, x: Id) returns (rest: seq<Id>, found: bool)
    ensures rest == Without(kids, x) && (found <==> x in kids)
  {
    var i := 0;
    while i < |kids| && kids[i] != x
      invariant i <= |kids| && x !in kids[..i] && Without(kids, x) == kids[..i] + Without(kids[i..], x)
    {
      assert kids[i..][1..] == kids[i + 1..];
      i := i + 1;
    }
    found := i < |kids|;
    if found {
      assert kids[i..][1..] == kids[i + 1..];
      rest := kids[..i] + kids[i + 1..];
    } else {
      assert kids[..i] == kids;
      rest := kids;
    }
  }

  // A walk that has failed to make a node makes no more.
  lemma {:induction false} EnsureStops(t: Tree, path: Path, i: nat, isDir: bool, room: Room)
    requires 0 < i <= |path| && EnsurePath(t, path[..i], i < |path| || isDir, room).1.None?
    ensures EnsurePath(t, path, isDir, room) == EnsurePath(t, path[..i], i < |path| || isDir, room)
    decreases |path| - i
  {
    if i == |path| {
      assert path[..i] == path;
    } else {
      assert path[..i + 1][..i] == path[..i];
      EnsureStops(t, path, i + 1, isDir, room);
    }
  }

  lemma {:induction false} NotFoundBelow(t: Tree, path: Path, i: nat, allow: bool)
    requires i <= |path| && Walk(t, path[..i], allow) == None
    ensures Walk(t, path, allow) == None
    decreases |path| - i
  {
    if i == |path| {
      assert path[..i] == path;
    } else {
      assert path[..i + 1][..i] == path[..i];
      NotFoundBelow(t, path, i + 1, allow);
    }
  }
}
