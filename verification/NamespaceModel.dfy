/**
 The tree of names: nodes in a table, children in sorted lists, deleted names
 kept as tombstones.  Paths are lists of components, as normalization leaves
 them.
 */
module NamespaceModel {
  import opened Lists
  import opened Wrappers

  type Id = nat
  type Name = string
  type Path = seq<Name>

  const ROOT: Id := 0

  function Front(path: Path): Path
    requires path != []
  {
    path[..|path| - 1]
  }

  function Last(path: Path): Name
    requires path != []
  {
    path[|path| - 1]
  }

  datatype Node = Node(
    name: Name,
    parent: Option<Id>,
    kids: seq<Id>,          // first_child and the next_sibling chain
    isDir: bool,
    deleted: bool,          // a tombstone
    inCpio: bool,
    overlay: bool,
    covered: bool)          // mount_covered

  datatype Tree = Tree(nodes: map<Id, Node>, next: Id)

  // ---- order of names

  // strcmp
  predicate Less(a: Name, b: Name) {
    b != "" && (a == "" || a[0] < b[0] || (a[0] == b[0] && Less(a[1..], b[1..])))
  }

  lemma {:induction false} LessIsTransitive(a: Name, b: Name, c: Name)
    requires Less(a, b) && Less(b, c)
    ensures Less(a, c)
  {
    if a != "" && a[0] == b[0] && b[0] == c[0] {
      LessIsTransitive(a[1..], b[1..], c[1..]);
    }
  }

  lemma {:induction false} LessIsStrict(a: Name)
    ensures !Less(a, a)
  {
    if a != "" {
      LessIsStrict(a[1..]);
    }
  }

  lemma {:induction false} LessIsTotal(a: Name, b: Name)
    ensures Less(a, b) || Less(b, a) || a == b
  {
    if a != "" && b != "" && a[0] == b[0] {
      LessIsTotal(a[1..], b[1..]);
      assert a == [a[0]] + a[1..] && b == [b[0]] + b[1..];
    }
  }

  // ---- lookup

  // The first child with this name, whatever its state
  function FindIn(nodes: map<Id, Node>, kids: seq<Id>, name: Name): Option<Id> {
    if kids == [] then None
    else if kids[0] in nodes && nodes[kids[0]].name == name then Some(kids[0])
    else FindIn(nodes, kids[1..], name)
  }

  // vfs_ns_child_visible
  predicate Visible(parent: Node, kid: Node, allowDeleted: bool) {
    (allowDeleted || !kid.deleted) && !(parent.covered && kid.inCpio && !kid.overlay)
  }

  // vfs_ns_find_child
  function Child(t: Tree, id: Id, name: Name, allowDeleted: bool): Option<Id> {
    if id !in t.nodes then None
    else
      match FindIn(t.nodes, t.nodes[id].kids, name)
      case None => None
      case Some(k) => if k in t.nodes && Visible(t.nodes[id], t.nodes[k], allowDeleted) then Some(k) else None
  }

  // vfs_ns_lookup_node
  function Walk(t: Tree, path: Path, allowDeleted: bool): Option<Id> {
    if path == [] then Some(ROOT)
    else
      match Walk(t, path[..|path| - 1], allowDeleted)
      case None => None
      case Some(d) => Child(t, d, path[|path| - 1], allowDeleted)
  }

  function Lookup(t: Tree, path: Path): Option<Id> { Walk(t, path, false) }

  // ---- changes

  function SetNode(t: Tree, id: Id, n: Node): Tree { t.(nodes := t.nodes[id := n]) }

  // vfs_ns_alloc_node: not yet in any list
  function Alloc(t: Tree, parent: Id, name: Name, isDir: bool): Tree {
    Tree(t.nodes[t.next := Node(name, Some(parent), [], isDir, false, false, false, false)], t.next + 1)
  }

  // Where a child of this name goes: before the first name that is not smaller
  function Position(nodes: map<Id, Node>, kids: seq<Id>, name: Name): (i: nat)
    ensures i <= |kids|
  {
    if kids == [] || kids[0] !in nodes || !Less(nodes[kids[0]].name, name) then 0
    else 1 + Position(nodes, kids[1..], name)
  }

  // vfs_ns_link_child: silently refuses a name that has a node
  function Link(t: Tree, parent: Id, kid: Id): Tree
    requires parent in t.nodes && kid in t.nodes
  {
    var p := t.nodes[parent];
    var i := Position(t.nodes, p.kids, t.nodes[kid].name);
    if i < |p.kids| && p.kids[i] in t.nodes && t.nodes[p.kids[i]].name == t.nodes[kid].name then t
    else SetNode(t, parent, p.(kids := p.kids[..i] + [kid] + p.kids[i..]))
  }

  // vfs_ns_detach
  function Detach(t: Tree, id: Id): Tree
    requires id in t.nodes
  {
    var n := t.nodes[id];
    if n.parent.None? || n.parent.value !in t.nodes || id !in t.nodes[n.parent.value].kids then t
    else
      var p := t.nodes[n.parent.value];
      var t1 := SetNode(t, n.parent.value, p.(kids := Without(p.kids, id)));
      SetNode(t1, id, t1.nodes[id].(parent := None))
  }

  // Whether the node with this number can be allocated
  type Room = Id -> bool

  // vfs_ns_ensure_child; it fails only when it needs a node and gets none.
  function EnsureChild(t: Tree, id: Id, name: Name, isDir: bool, room: Room): (r: (Tree, Option<Id>))
    requires id in t.nodes && id < t.next
    ensures id in r.0.nodes && (r.1.Some? ==> r.1.value in r.0.nodes)
  {
    match Child(t, id, name, true)
    case Some(k) =>
      (SetNode(t, k, t.nodes[k].(deleted := false, isDir := isDir || t.nodes[k].isDir)), Some(k))
    case None =>
      if room(t.next) then (Link(Alloc(t, id, name, isDir), id, t.next), Some(t.next)) else (t, None)
  }

  // vfs_ns_ensure_path_nodes: every component but the last is a directory.  When
  // it fails, the components before the failure stay.
  function EnsurePath(t: Tree, path: Path, isDir: bool, room: Room): (r: (Tree, Option<Id>)) {
    if path == [] then (t, Some(ROOT))
    else
      var (t1, d) := EnsurePath(t, path[..|path| - 1], true, room);
      if d.Some? && d.value in t1.nodes && d.value < t1.next then
          EnsureChild(t1, d.value, path[|path| - 1], isDir, room)
      else (t1, None)
  }

  // What a commit makes of the node it has found or created
  function Created(n: Node, isDir: bool): Node {
    n.(deleted := false, isDir := isDir, inCpio := false, overlay := true)
  }

  // vfs_namespace_create_commit and mkdir_commit
  function CreateCommit(t: Tree, path: Path, isDir: bool, room: Room): Tree {
    var (t1, x) := EnsurePath(t, path, isDir, room);
    if x.None? || x.value !in t1.nodes then t1 else SetNode(t1, x.value, Created(t1.nodes[x.value], isDir))
  }

  function CreateOk(t: Tree, path: Path, isDir: bool, room: Room): bool {
    EnsurePath(t, path, isDir, room).1.Some?
  }

  // vfs_namespace_unlink_commit
  function UnlinkCommit(t: Tree, path: Path): Tree {
    match Lookup(t, path)
    case None => t
    case Some(x) => if x !in t.nodes then t else SetNode(t, x, t.nodes[x].(overlay := false, deleted := true))
  }

  // vfs_namespace_rename_commit: from old to the name in the directory dest
  function RenameCommit(t: Tree, from: Path, dest: Path, name: Name): Tree {
    match Lookup(t, from)
    case None => t
    case Some(x) =>
      match Lookup(t, dest)
      case None => t
      case Some(d) =>
        if x !in t.nodes || d !in t.nodes || !t.nodes[d].isDir then t
        else
          var t1 := Detach(t, x);
          var t2 := SetNode(t1, x, t1.nodes[x].(name := name, parent := Some(d)));
          Link(t2, d, x)
  }

  function RenameOk(t: Tree, from: Path, dest: Path): bool {
    Lookup(t, from).Some? && DirAt(t, dest)
  }

  // The path is found and is a directory.
  predicate DirAt(t: Tree, path: Path) {
    Lookup(t, path).Some? && Lookup(t, path).value in t.nodes && t.nodes[Lookup(t, path).value].isDir
  }

  // The new node of a hard link to x, before it is in a list
  function Linkable(t: Tree, x: Id, d: Id, name: Name): Tree
    requires x in t.nodes
  {
    var t1 := Alloc(t, d, name, false);
    SetNode(t1, t.next, t1.nodes[t.next].(inCpio := t.nodes[x].inCpio, overlay := true))
  }

  // vfs_namespace_link_commit
  function LinkCommit(t: Tree, from: Path, dest: Path, name: Name, room: Room): Tree {
    match Lookup(t, from)
    case None => t
    case Some(x) =>
      match Lookup(t, dest)
      case None => t
      case Some(d) =>
        if x !in t.nodes || d !in t.nodes || !t.nodes[d].isDir || !room(t.next) then t
        else Link(Linkable(t, x, d, name), d, t.next)
  }

  function LinkOk(t: Tree, from: Path, dest: Path, room: Room): bool {
    RenameOk(t, from, dest) && room(t.next)
  }

  // ---- listing

  function VisibleKids(t: Tree, d: Node, kids: seq<Id>): seq<Id> {
    if kids == [] then []
    else
      (if kids[0] in t.nodes && Visible(d, t.nodes[kids[0]], false) then [kids[0]] else [])
      + VisibleKids(t, d, kids[1..])
  }
}
