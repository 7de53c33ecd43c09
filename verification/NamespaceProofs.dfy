/**
 What every change of the tree keeps, and what a change of one name does to the
 lookup of every path.
 */
module NamespaceProofs {
  import opened Lists
  import opened Wrappers
  import opened NamespaceModel

  // The list is strictly sorted by name, so it has no name twice.
  ghost predicate Sorted(nodes: map<Id, Node>, kids: seq<Id>) {
    && (forall i :: 0 <= i < |kids| ==> kids[i] in nodes)
    && (forall i, j :: 0 <= i < j < |kids| ==> Less(nodes[kids[i]].name, nodes[kids[j]].name))
  }

  // The children of a know their parent.
  ghost predicate Claimed(nodes: map<Id, Node>, a: Id, kids: seq<Id>) {
    forall i :: 0 <= i < |kids| ==> kids[i] in nodes && nodes[kids[i]].parent == Some(a)
  }

  ghost predicate KidsOk(t: Tree, a: Id)
    requires a in t.nodes
  {
    Sorted(t.nodes, t.nodes[a].kids) && Claimed(t.nodes, a, t.nodes[a].kids)
  }

  ghost predicate Inv(t: Tree) {
    && ROOT in t.nodes && t.nodes[ROOT].parent == None
    && (forall a :: a in t.nodes ==> a < t.next && KidsOk(t, a))
  }

  // ---- finding

  lemma {:induction false} FindInIs(nodes: map<Id, Node>, kids: seq<Id>, name: Name)
    requires forall i :: 0 <= i < |kids| ==> kids[i] in nodes
    ensures var r := FindIn(nodes, kids, name);
            && (r.Some? ==> r.value in kids && r.value in nodes && nodes[r.value].name == name)
            && (r.None? ==> forall k :: k in kids ==> nodes[k].name != name)
    decreases |kids|
  {
    if kids != [] {
      FindInIs(nodes, kids[1..], name);
      assert kids == [kids[0]] + kids[1..];
    }
  }

  // In a sorted list a name leads to one child.
  lemma FindInUnique(nodes: map<Id, Node>, kids: seq<Id>, k: Id)
    requires Sorted(nodes, kids) && k in kids
    ensures k in nodes && FindIn(nodes, kids, nodes[k].name) == Some(k)
  {
    var i :| 0 <= i < |kids| && kids[i] == k;
    FindInIs(nodes, kids, nodes[k].name);
    var r := FindIn(nodes, kids, nodes[k].name).value;
    var j :| 0 <= j < |kids| && kids[j] == r;
    LessIsStrict(nodes[k].name);
  }

  // A child that is found is a child with that name.
  lemma ChildIs(t: Tree, id: Id, name: Name, allow: bool)
    requires Inv(t)
    ensures var r := Child(t, id, name, allow);
            r.Some? ==> id in t.nodes && r.value in t.nodes && t.nodes[r.value].name == name
                        && t.nodes[r.value].parent == Some(id) && r.value in t.nodes[id].kids
  {
    if id in t.nodes {
      assert KidsOk(t, id);
      FindInIs(t.nodes, t.nodes[id].kids, name);
    }
  }

  lemma {:induction false} WalkIsNode(t: Tree, path: Path, allow: bool)
    requires Inv(t)
    ensures Walk(t, path, allow).Some? ==> Walk(t, path, allow).value in t.nodes
  {
    if path != [] {
      var d := Walk(t, path[..|path| - 1], allow);
      if d.Some? {
        ChildIs(t, d.value, path[|path| - 1], allow);
      }
    }
  }

  // Two paths never lead to the same node.
  lemma {:induction false} PathIsUnique(t: Tree, p: Path, q: Path, allow: bool)
    requires Inv(t) && Walk(t, p, allow).Some? && Walk(t, p, allow) == Walk(t, q, allow)
    ensures p == q
    decreases |p|
  {
    if p != [] {
      LastStep(t, p, allow);
    }
    if q != [] {
      LastStep(t, q, allow);
    }
    if p != [] && q != [] {
      PathIsUnique(t, p[..|p| - 1], q[..|q| - 1], allow);
      assert p == p[..|p| - 1] + [p[|p| - 1]] && q == q[..|q| - 1] + [q[|q| - 1]];
    }
  }

  // The last step of a walk, seen from the node it reaches
  lemma LastStep(t: Tree, p: Path, allow: bool)
    requires Inv(t) && p != [] && Walk(t, p, allow).Some?
    ensures var x := Walk(t, p, allow).value;
            && x in t.nodes && t.nodes[x].name == p[|p| - 1]
            && Walk(t, p[..|p| - 1], allow).Some? && t.nodes[x].parent == Walk(t, p[..|p| - 1], allow)
  {
    ChildIs(t, Walk(t, p[..|p| - 1], allow).value, p[|p| - 1], allow);
  }

  // ---- a change of one name

  // Seen from every directory, only name n in directory d leads elsewhere.
  ghost predicate OnlyName(t: Tree, t': Tree, d: Id, n: Name) {
    forall id, m :: id in t.nodes && (id != d || m != n) ==> Child(t', id, m, false) == Child(t, id, m, false)
  }

  predicate Under(q: Path, p: Path) { |p| <= |q| && q[..|p|] == p }

  lemma UnderMore(q0: Path, m: Name, p: Path)
    ensures Under(q0, p) ==> Under(q0 + [m], p)
  {
  }

  // Then only the paths through that name are looked up differently.
  lemma {:induction false} OthersUnchanged(t: Tree, t': Tree, dir: Path, d: Id, n: Name, q: Path)
    requires Inv(t) && Lookup(t, dir) == Some(d) && OnlyName(t, t', d, n) && !Under(q, dir + [n])
    ensures Lookup(t', q) == Lookup(t, q)
    decreases |q|
  {
    if q != [] {
      var q0, m := q[..|q| - 1], q[|q| - 1];
      assert q == q0 + [m];
      UnderMore(q0, m, dir + [n]);
      OthersUnchanged(t, t', dir, d, n, q0);
      var y := Lookup(t, q0);
      if y.Some? {
        WalkIsNode(t, q0, false);
        if y.value == d && m == n {
          PathIsUnique(t, q0, dir, false);
        }
      }
    }
  }

  // Nothing is found below a path that is not found.
  lemma {:induction false} NothingBelow(t: Tree, p: Path, q: Path)
    requires Lookup(t, p) == None && Under(q, p)
    ensures Lookup(t, q) == None
    decreases |q|
  {
    if |q| == |p| {
      assert q == p;
    } else {
      assert q[..|q| - 1][..|p|] == q[..|p|];
      NothingBelow(t, p, q[..|q| - 1]);
    }
  }

  // Nor below a node without children.
  lemma {:induction false} NothingBelowLeaf(t: Tree, p: Path, x: Id, q: Path)
    requires Lookup(t, p) == Some(x) && x in t.nodes && t.nodes[x].kids == [] && Under(q, p) && q != p
    ensures Lookup(t, q) == None
    decreases |q|
  {
    var q0 := q[..|q| - 1];
    assert q0[..|p|] == q[..|p|];
    if q0 != p {
      NothingBelowLeaf(t, p, x, q0);
    }
  }

  // ---- lists

  // Names before the position are smaller, names from it on are not.
  lemma {:induction false} PositionIs(nodes: map<Id, Node>, kids: seq<Id>, name: Name)
    requires forall i :: 0 <= i < |kids| ==> kids[i] in nodes
    ensures var p := Position(nodes, kids, name);
            && (forall i :: 0 <= i < p ==> Less(nodes[kids[i]].name, name))
            && (p < |kids| ==> !Less(nodes[kids[p]].name, name))
    decreases |kids|
  {
    if kids != [] && Less(nodes[kids[0]].name, name) {
      PositionIs(nodes, kids[1..], name);
      assert forall i :: 0 < i < |kids| ==> kids[i] == kids[1..][i - 1];
    }
  }

  // Inserting at the position keeps the list sorted, if the name is not there.
  lemma {:induction false} InsertSorted(nodes: map<Id, Node>, kids: seq<Id>, k: Id)
    requires Sorted(nodes, kids) && k in nodes
    requires var p := Position(nodes, kids, nodes[k].name); p < |kids| ==> nodes[kids[p]].name != nodes[k].name
    ensures var p := Position(nodes, kids, nodes[k].name); Sorted(nodes, kids[..p] + [k] + kids[p..])
  {
    var name := nodes[k].name;
    var p := Position(nodes, kids, name);
    PositionIs(nodes, kids, name);
    if p < |kids| {
      LessIsTotal(nodes[kids[p]].name, name);
    }
    forall i | p <= i < |kids| ensures Less(name, nodes[kids[i]].name) {
      if i > p {
        LessIsTransitive(name, nodes[kids[p]].name, nodes[kids[i]].name);
      }
    }
    InsertOrder(nodes, kids, p, k);
  }

  lemma InsertOrder(nodes: map<Id, Node>, kids: seq<Id>, p: nat, k: Id)
    requires Sorted(nodes, kids) && k in nodes && p <= |kids|
    requires forall i :: 0 <= i < p ==> Less(nodes[kids[i]].name, nodes[k].name)
    requires forall i :: p <= i < |kids| ==> Less(nodes[k].name, nodes[kids[i]].name)
    ensures Sorted(nodes, kids[..p] + [k] + kids[p..])
  {
  }

  // The name at the position decides whether the name is in the list.
  lemma {:induction false} PositionFinds(nodes: map<Id, Node>, kids: seq<Id>, name: Name)
    requires Sorted(nodes, kids)
    ensures var p := Position(nodes, kids, name);
            FindIn(nodes, kids, name).Some? <==> p < |kids| && nodes[kids[p]].name == name
  {
    var p := Position(nodes, kids, name);
    PositionIs(nodes, kids, name);
    FindInIs(nodes, kids, name);
    var r := FindIn(nodes, kids, name);
    LessIsStrict(name);
    if r.Some? {
      var i :| 0 <= i < |kids| && kids[i] == r.value;
      assert i >= p;
    }
  }

  lemma {:induction false} FindInInsert(nodes: map<Id, Node>, kids: seq<Id>, p: nat, k: Id, m: Name)
    requires p <= |kids| && k in nodes && (forall i :: 0 <= i < |kids| ==> kids[i] in nodes)
    ensures m != nodes[k].name ==> FindIn(nodes, kids[..p] + [k] + kids[p..], m) == FindIn(nodes, kids, m)
    decreases p
  {
    var kids' := kids[..p] + [k] + kids[p..];
    if p == 0 {
      assert kids'[0] == k && kids'[1..] == kids;
    } else {
      assert kids'[0] == kids[0] && kids'[1..] == kids[1..][..p - 1] + [k] + kids[1..][p - 1..];
      FindInInsert(nodes, kids[1..], p - 1, k, m);
    }
  }

  // What a lookup in a list depends on: the names of its members.
  lemma {:induction false} FindInSame(nodes: map<Id, Node>, nodes': map<Id, Node>, kids: seq<Id>, m: Name)
    requires forall i :: 0 <= i < |kids| ==>
             kids[i] in nodes && kids[i] in nodes' && nodes'[kids[i]].name == nodes[kids[i]].name
    ensures FindIn(nodes', kids, m) == FindIn(nodes, kids, m)
    decreases |kids|
  {
    if kids != [] {
      FindInSame(nodes, nodes', kids[1..], m);
    }
  }

  lemma {:induction false} WithoutSorted(nodes: map<Id, Node>, kids: seq<Id>, id: Id)
    requires Sorted(nodes, kids)
    ensures Sorted(nodes, Without(kids, id))
    decreases |kids|
  {
    if kids != [] && kids[0] != id {
      WithoutSorted(nodes, kids[1..], id);
      WithoutIn(kids[1..], id);
      var rest := Without(kids[1..], id);
      forall j | 0 <= j < |rest| ensures Less(nodes[kids[0]].name, nodes[rest[j]].name) {
        assert rest[j] in kids[1..];
        var i :| 0 <= i < |kids[1..]| && kids[1..][i] == rest[j];
        assert kids[i + 1] == rest[j];
      }
    }
  }

  // The first name does not come again.
  lemma {:induction false} NotLater(nodes: map<Id, Node>, kids: seq<Id>)
    requires Sorted(nodes, kids) && kids != []
    ensures FindIn(nodes, kids[1..], nodes[kids[0]].name) == None
  {
    forall k | k in kids[1..] ensures nodes[k].name != nodes[kids[0]].name {
      var i :| 0 <= i < |kids[1..]| && kids[1..][i] == k;
      assert Less(nodes[kids[0]].name, nodes[kids[i + 1]].name);
      LessIsStrict(nodes[k].name);
    }
    FindInIs(nodes, kids[1..], nodes[kids[0]].name);
  }

  lemma {:induction false} FindInWithout(nodes: map<Id, Node>, kids: seq<Id>, id: Id, m: Name)
    requires Sorted(nodes, kids) && id in nodes
    ensures m != nodes[id].name ==> FindIn(nodes, Without(kids, id), m) == FindIn(nodes, kids, m)
    ensures id in kids ==> FindIn(nodes, Without(kids, id), nodes[id].name) == None
    decreases |kids|
  {
    if kids != [] {
      if kids[0] != id {
        assert kids == [kids[0]] + kids[1..];
        FindInWithout(nodes, kids[1..], id, m);
        if id in kids {
          var i :| 0 <= i < |kids| && kids[i] == id;
          LessIsStrict(nodes[id].name);
        }
      } else {
        NotLater(nodes, kids);
      }
    }
  }
}
