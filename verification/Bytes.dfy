/**
 Bytes and buffers, runs of zeros and C strings.
 */
module Bytes {

  newtype Byte = x: int | 0 <= x < 256

  type Buf = seq<Byte>

  const U32: nat := 0x1_0000_0000
  const U64: nat := 0x1_0000_0000_0000_0000

  // The bytes that a read of len bytes at off delivers
  function Slice(b: Buf, off: nat, len: nat): Buf {
    if off >= |b| then [] else if off + len > |b| then b[off..] else b[off..off + len]
  }

  // b with x written over it at a position
  function Splice(b: Buf, at: nat, x: Buf): Buf
    requires at + |x| <= |b|
  {
    b[..at] + x + b[at + |x|..]
  }

  // Parts of parts
  lemma SliceOfPrefix(b: Buf, n: nat, i: nat, j: nat)
    requires i <= j <= n <= |b|
    ensures b[..n][i..j] == b[i..j]
  {
  }

  lemma SliceOfFirst(a: Buf, b: Buf, i: nat, j: nat)
    requires i <= j <= |a|
    ensures (a + b)[i..j] == a[i..j]
  {
  }

  lemma PartJoin(b: Buf, i: nat, j: nat, k: nat)
    requires i <= j <= k <= |b|
    ensures b[i..j] + b[j..k] == b[i..k]
  {
  }

  function Zeros(n: nat): (z: seq<Byte>)
    ensures |z| == n && forall i :: 0 <= i < n ==> z[i] == 0
  {
    if n == 0 then [] else Zeros(n - 1) + [0]
  }

  predicate NoNul(s: seq<Byte>) { forall k :: 0 <= k < |s| ==> s[k] != 0 }

  // The bytes up to the first NUL, as a reader of a C string sees them
  function CString(b: seq<Byte>): seq<Byte> {
    if b == [] || b[0] == 0 then [] else [b[0]] + CString(b[1..])
  }

  lemma {:induction false} CStringIs(name: seq<Byte>, rest: seq<Byte>)
    requires NoNul(name) && |rest| > 0 && rest[0] == 0
    ensures CString(name + rest) == name
  {
    if name != [] {
      assert (name + rest)[1..] == name[1..] + rest;
      CStringIs(name[1..], rest);
    } else {
      assert name + rest == rest;
    }
  }
}
