/**
 User memory as the exec code writes it: bytes at addresses, through a store
 that can fail, with a log of every store that succeeded.
 */
module UserMemory {
  import opened Bytes

  type Memory = map<int, Byte>

  // ---- words

  function LittleEndian(v: nat, n: nat): (b: seq<Byte>)
    ensures |b| == n
  {
    if n == 0 then [] else [(v % 256) as Byte] + LittleEndian(v / 256, n - 1)
  }

  function Value(b: seq<Byte>): nat {
    if b == [] then 0 else b[0] as nat + 256 * Value(b[1..])
  }

  function Pow256(n: nat): nat { if n == 0 then 1 else 256 * Pow256(n - 1) }

  lemma {:induction false} ValueOfLittleEndian(v: nat, n: nat)
    requires v < Pow256(n)
    ensures Value(LittleEndian(v, n)) == v
  {
    if n > 0 {
      ValueOfLittleEndian(v / 256, n - 1);
      assert LittleEndian(v, n)[1..] == LittleEndian(v / 256, n - 1);
    }
  }

  function Word(w: nat): (b: seq<Byte>)
    ensures |b| == 8
  {
    LittleEndian(w, 8)
  }

  predicate At(m: Memory, a: int, b: Byte) { a in m && m[a] == b }

  ghost predicate Has(m: Memory, a: int, bytes: seq<Byte>) {
    forall k :: 0 <= k < |bytes| ==> At(m, a + k, bytes[k])
  }

  ghost predicate HasWords(m: Memory, a: int, ws: seq<nat>) {
    forall i :: 0 <= i < |ws| ==> HasWordAt(m, a, ws, i)
  }

  ghost predicate HasWordAt(m: Memory, a: int, ws: seq<nat>, i: int)
    requires 0 <= i < |ws|
  {
    Has(m, a + 8 * i, Word(ws[i]))
  }

  // A string of the program: its bytes, then NUL
  ghost predicate HasString(m: Memory, a: int, s: seq<Byte>) {
    Has(m, a, s + [0])
  }

  // ---- what a program reads

  // The eight bytes at a, lowest first, have the value w.
  ghost predicate Reads(m: Memory, a: int, w: nat) {
    exists bytes: seq<Byte> :: |bytes| == 8 && Has(m, a, bytes) && Value(bytes) == w
  }

  lemma WordReads(m: Memory, a: int, w: nat)
    requires Has(m, a, Word(w)) && w < U64
    ensures Reads(m, a, w)
  {
    assert Pow256(4) == 0x1_0000_0000;
    assert Pow256(8) == 0x1_0000_0000 * Pow256(4);
    ValueOfLittleEndian(w, 8);
  }

  // An address holds one word.
  lemma WordIsUnique(m: Memory, a: int, v: nat, w: nat)
    requires Reads(m, a, v) && Reads(m, a, w)
    ensures v == w
  {
    var b: seq<Byte> :| |b| == 8 && Has(m, a, b) && Value(b) == v;
    var c: seq<Byte> :| |c| == 8 && Has(m, a, c) && Value(c) == w;
    forall k | 0 <= k < 8 ensures b[k] == c[k] {
      assert At(m, a + k, b[k]) && At(m, a + k, c[k]);
    }
    assert b == c;
  }

  // An address holds one string at most.
  lemma StringIsUnique(m: Memory, a: int, s: seq<Byte>, t: seq<Byte>)
    requires HasString(m, a, s) && HasString(m, a, t) && NoNul(s) && NoNul(t)
    ensures s == t
  {
    NotLonger(m, a, s, t);
    NotLonger(m, a, t, s);
    forall k | 0 <= k < |s| ensures s[k] == t[k] {
      assert At(m, a + k, (s + [0])[k]) && At(m, a + k, (t + [0])[k]);
    }
  }

  lemma NotLonger(m: Memory, a: int, s: seq<Byte>, t: seq<Byte>)
    requires HasString(m, a, s) && HasString(m, a, t) && NoNul(s)
    ensures |s| <= |t|
  {
    StringAt(m, a, t, |t|);
    StringAt(m, a, s, |t|);
  }

  lemma StringAt(m: Memory, a: int, s: seq<Byte>, k: nat)
    requires HasString(m, a, s)
    ensures k < |s| ==> At(m, a + k, s[k])
    ensures k == |s| ==> At(m, a + k, 0)
  {
    if k <= |s| {
      assert At(m, a + k, (s + [0])[k]);
    }
  }

  // ---- stores

  // Only addresses in [lo, hi) differ.
  ghost predicate Within(m: Memory, m': Memory, lo: int, hi: int) {
    && (forall a :: a in m && (a < lo || hi <= a) ==> a in m' && m'[a] == m[a])
    && (forall a :: a in m' && (a < lo || hi <= a) ==> a in m)
  }

  lemma HasKept(m: Memory, m': Memory, lo: int, hi: int, a: int, bytes: seq<Byte>)
    requires Within(m, m', lo, hi) && Has(m, a, bytes) && (a + |bytes| <= lo || hi <= a)
    ensures Has(m', a, bytes)
  {
    forall k | 0 <= k < |bytes| ensures At(m', a + k, bytes[k]) {
      assert At(m, a + k, bytes[k]);
    }
  }

  lemma HasWordsKept(m: Memory, m': Memory, lo: int, hi: int, a: int, ws: seq<nat>)
    requires Within(m, m', lo, hi) && HasWords(m, a, ws) && (a + 8 * |ws| <= lo || hi <= a)
    ensures HasWords(m', a, ws)
  {
    forall i | 0 <= i < |ws| ensures HasWordAt(m', a, ws, i) {
      assert HasWordAt(m, a, ws, i);
      HasKept(m, m', lo, hi, a + 8 * i, Word(ws[i]));
    }
  }

  lemma HasWordsJoin(m: Memory, a: int, ws: seq<nat>, vs: seq<nat>)
    requires HasWords(m, a, ws) && HasWords(m, a + 8 * |ws|, vs)
    ensures HasWords(m, a, ws + vs)
  {
    forall i | 0 <= i < |ws + vs| ensures HasWordAt(m, a, ws + vs, i) {
      if i >= |ws| {
        assert HasWordAt(m, a + 8 * |ws|, vs, i - |ws|);
      } else {
        assert HasWordAt(m, a, ws, i);
      }
    }
  }

  datatype Chunk = Chunk(lo: int, hi: int)

  ghost predicate NoOverlap(log: seq<Chunk>) {
    forall i, j :: 0 <= i < j < |log| ==> log[i].hi <= log[j].lo || log[j].hi <= log[i].lo
  }

  // Every store went to [lo, cur) or lies above.
  ghost predicate Logged(log: seq<Chunk>, lo: int, cur: int, above: int) {
    forall i :: 0 <= i < |log| ==> (lo <= log[i].lo && log[i].hi <= cur) || above <= log[i].lo
  }

  lemma LogMore(log: seq<Chunk>, lo: int, cur: int, above: int, hi: int)
    requires NoOverlap(log) && Logged(log, lo, cur, above) && lo <= cur <= hi <= above
    ensures NoOverlap(log + [Chunk(cur, hi)]) && Logged(log + [Chunk(cur, hi)], lo, hi, above)
  {
  }

  class Space {
    const answers: nat -> bool
    var asked: nat
    var mem: Memory
    ghost var log: seq<Chunk>

    // The core refuses no store.
    ghost predicate Willing() { forall i :: answers(i) }

    // linux_mm_store_to_user: fails when the core says so, and below address 0
    method Store(va: int, bytes: seq<Byte>) returns (ok: bool)
      modifies this
      ensures Willing() && va >= 0 ==> ok
      ensures ok ==> va >= 0 && Has(mem, va, bytes) && Within(old(mem), mem, va, va + |bytes|)
                     && log == old(log) + [Chunk(va, va + |bytes|)]
    {
      ok := answers(asked) && va >= 0;
      asked := asked + 1;
      if ok {
        var i := 0;
        while i < |bytes|
          invariant i <= |bytes| && Within(old(mem), mem, va, va + |bytes|)
          invariant log == old(log)
          invariant forall k :: 0 <= k < i ==> At(mem, va + k, bytes[k])
        {
          mem := mem[va + i := bytes[i]];
          i := i + 1;
        }
        log := log + [Chunk(va, va + |bytes|)];
      }
    }

    method StoreWord(va: int, w: nat) returns (ok: bool)
      modifies this
      ensures Willing() && va >= 0 ==> ok
      ensures ok ==> va >= 0 && HasWords(mem, va, [w]) && Within(old(mem), mem, va, va + 8)
                     && log == old(log) + [Chunk(va, va + 8)]
    {
      ok := Store(va, Word(w));
    }
  }
}
