/**
 What getdents64 lists is what lookup finds: the entries of a directory of the
 namespace, as readdir hands them out one by one.
 */
module DirListing {
  import opened Wrappers
  import opened Bytes
  import opened NamespaceModel
  import opened NamespaceProofs
  import opened NamespaceTheorems
  import GD = Getdents

  const DT_DIR: Byte := 4
  const DT_REG: Byte := 8

  // A name as it is kept in C: bytes, no NUL
  predicate Narrow(name: Name) { forall i :: 0 <= i < |name| ==> 0 < name[i] as int < 256 }

  function Encode(name: Name): (b: seq<Byte>)
    ensures |b| == |name| && forall i :: 0 <= i < |name| ==> b[i] as int == name[i] as int % 256
  {
    seq(|name|, i requires 0 <= i < |name| => (name[i] as int % 256) as Byte)
  }

  lemma EncodeIsInjective(a: Name, b: Name)
    requires Narrow(a) && Narrow(b) && Encode(a) == Encode(b)
    ensures a == b
  {
    forall i | 0 <= i < |a| ensures a[i] == b[i] {
      assert Encode(a)[i] == Encode(b)[i];
    }
  }

  ghost predicate AllNarrow(t: Tree) { forall a :: a in t.nodes ==> Narrow(t.nodes[a].name) }

  // One answer of vfs_namespace_readdir_prepare from index 2 on
  function EntryOf(t: Tree, k: Id, ino: Id -> nat): GD.Entry
    requires k in t.nodes
  {
    GD.Entry(ino(k), if t.nodes[k].isDir then DT_DIR else DT_REG, Encode(t.nodes[k].name))
  }

  function EntriesOf(t: Tree, ks: seq<Id>, ino: Id -> nat): (es: seq<GD.Entry>)
    requires forall i :: 0 <= i < |ks| ==> ks[i] in t.nodes
    ensures |es| == |ks| && forall i :: 0 <= i < |ks| ==> es[i] == EntryOf(t, ks[i], ino)
  {
    if ks == [] then [] else [EntryOf(t, ks[0], ino)] + EntriesOf(t, ks[1..], ino)
  }

  // All of them: the directory itself, its parent, and the visible children
  function Directory(t: Tree, d: Id, ino: Id -> nat, self: nat, parent: nat): seq<GD.Entry>
    requires d in t.nodes && forall i :: 0 <= i < |Listing(t, d)| ==> Listing(t, d)[i] in t.nodes
  {
    [GD.Entry(self, DT_DIR, [46]), GD.Entry(parent, DT_DIR, [46, 46])] + EntriesOf(t, Listing(t, d), ino)
  }

  lemma ListedNodes(t: Tree, d: Id)
    requires Inv(t) && d in t.nodes
    ensures forall i :: 0 <= i < |Listing(t, d)| ==> Listing(t, d)[i] in t.nodes
    ensures Sorted(t.nodes, Listing(t, d))
  {
    assert KidsOk(t, d);
    VisibleKidsAre(t, t.nodes[d], t.nodes[d].kids);
  }

  lemma {:induction false} SeenAt(dir: seq<GD.Entry>, from: nat, i: nat)
    requires from + i < |dir|
    ensures GD.AllSeen(dir, from, |dir|)[i] == GD.Seen(dir, from + i)
    decreases i
  {
    if i > 0 {
      SeenAt(dir, from + 1, i - 1);
    }
  }

  // The name is among the records behind the two dots.
  ghost predicate Lists(ds: seq<GD.Dirent>, name: Name) {
    exists i :: 2 <= i < |ds| && ds[i].name == Encode(name)
  }

  // A caller who has got all records of the directory finds a name among them,
  // behind the two dots, exactly if lookup finds it in the directory, and finds no
  // name twice.
  lemma ListedIffFound(t: Tree, dir: Path, d: Id, name: Name, ino: Id -> nat, self: nat, parent: nat)
    requires Inv(t) && AllNarrow(t) && Narrow(name) && Lookup(t, dir) == Some(d) && d in t.nodes
    ensures forall i :: 0 <= i < |Listing(t, d)| ==> Listing(t, d)[i] in t.nodes
    ensures var es := Directory(t, d, ino, self, parent);
            var ds := GD.AllSeen(es, 0, |es|);
            && (Lookup(t, dir + [name]).Some? <==> Lists(ds, name))
            && (forall i, j :: 2 <= i < j < |ds| ==> ds[i].name != ds[j].name)
  {
    ListedNodes(t, d);
    SeenNames(t, d, ino, self, parent);
    var es := Directory(t, d, ino, self, parent);
    FoundIffNamed(t, dir, d, name, GD.AllSeen(es, 0, |es|));
    NoNameTwice(t, Listing(t, d), GD.AllSeen(es, 0, |es|));
  }

  // The records behind the two dots have the names of the listed nodes.
  ghost predicate Named(t: Tree, ks: seq<Id>, ds: seq<GD.Dirent>) {
    && |ds| == |ks| + 2 && (forall i :: 0 <= i < |ks| ==> ks[i] in t.nodes)
    && (forall i :: 0 <= i < |ks| ==> ds[i + 2].name == Encode(t.nodes[ks[i]].name))
  }

  lemma SeenNames(t: Tree, d: Id, ino: Id -> nat, self: nat, parent: nat)
    requires d in t.nodes && forall i :: 0 <= i < |Listing(t, d)| ==> Listing(t, d)[i] in t.nodes
    ensures var es := Directory(t, d, ino, self, parent);
            Named(t, Listing(t, d), GD.AllSeen(es, 0, |es|))
  {
    var es := Directory(t, d, ino, self, parent);
    forall i | 0 <= i < |Listing(t, d)|
      ensures GD.AllSeen(es, 0, |es|)[i + 2].name == Encode(t.nodes[Listing(t, d)[i]].name)
    {
      SeenAt(es, 0, i + 2);
    }
  }

  lemma {:induction false} FoundIffNamed(t: Tree, dir: Path, d: Id, name: Name, ds: seq<GD.Dirent>)
    requires Inv(t) && AllNarrow(t) && Narrow(name) && Lookup(t, dir) == Some(d) && d in t.nodes
    requires Named(t, Listing(t, d), ds)
    ensures Lookup(t, dir + [name]).Some? <==> Lists(ds, name)
  {
    ListingIsLookup(t, dir, d, name);
    var ks := Listing(t, d);
    if Lookup(t, dir + [name]).Some? {
      var k :| k in ks && t.nodes[k].name == name;
      var i :| 0 <= i < |ks| && ks[i] == k;
      assert ds[i + 2].name == Encode(name);
    }
    if i :| 2 <= i < |ds| && ds[i].name == Encode(name) {
      var k := ks[i - 2];
      assert ds[i - 2 + 2].name == Encode(t.nodes[k].name);
      EncodeIsInjective(t.nodes[k].name, name);
      assert k in ks;
    }
  }

  lemma {:induction false} NoNameTwice(t: Tree, ks: seq<Id>, ds: seq<GD.Dirent>)
    requires Sorted(t.nodes, ks) && AllNarrow(t) && Named(t, ks, ds)
    ensures forall i, j :: 2 <= i < j < |ds| ==> ds[i].name != ds[j].name
  {
    forall i, j | 2 <= i < j < |ds| ensures ds[i].name != ds[j].name {
      NamesDiffer(t, ks, i - 2, j - 2);
      assert ds[i - 2 + 2].name == Encode(t.nodes[ks[i - 2]].name);
      assert ds[j - 2 + 2].name == Encode(t.nodes[ks[j - 2]].name);
    }
  }

  lemma NamesDiffer(t: Tree, ks: seq<Id>, i: nat, j: nat)
    requires Sorted(t.nodes, ks) && AllNarrow(t) && i < j < |ks|
    ensures Encode(t.nodes[ks[i]].name) != Encode(t.nodes[ks[j]].name)
  {
    var a, b := t.nodes[ks[i]].name, t.nodes[ks[j]].name;
    if Encode(a) == Encode(b) {
      EncodeIsInjective(a, b);
      LessIsStrict(a);
    }
  }
}
