/**
 Request payloads: a little-endian parameter count, then (tag, length, bytes)
 for each parameter.  A caller appends the name of its reply port as a last
 parameter of tag 't'; the server takes the last such parameter.
 */
module ReplyPortTlv {
  import opened Wrappers
  import opened Bytes
  import opened NestToken

  const PORT_TAG: Byte := 116      // 't'

  datatype Param = Param(tag: Byte, value: seq<Byte>)

  function Le32(n: nat): (b: seq<Byte>)
    ensures |b| == 4
  {
    [(n % 256) as Byte, (n / 256 % 256) as Byte, (n / 65536 % 256) as Byte, (n / 16777216 % 256) as Byte]
  }

  function Read32(b: seq<Byte>, off: nat): nat
    requires off + 4 <= |b|
  {
    b[off] as nat + 256 * b[off + 1] as nat + 65536 * b[off + 2] as nat + 16777216 * b[off + 3] as nat
  }

  lemma Read32OfLe32(n: nat)
    requires n < U32
    ensures Read32(Le32(n), 0) == n
  {
    assert n == n % 256 + 256 * (n / 256);
    assert n / 256 == n / 256 % 256 + 256 * (n / 65536);
    assert n / 65536 == n / 65536 % 256 + 256 * (n / 16777216);
  }

  function Item(p: Param): seq<Byte> {
    [p.tag] + Le32(|p.value|) + p.value
  }

  function Body(ps: seq<Param>): seq<Byte> {
    if ps == [] then [] else Item(ps[0]) + Body(ps[1..])
  }

  function Encode(ps: seq<Param>): seq<Byte> {
    Le32(|ps|) + Body(ps)
  }

  // What the 32-bit length and count fields can carry
  predicate Fits(ps: seq<Param>) {
    |ps| < U32 && |Encode(ps)| < U32
  }

  lemma {:induction false} BodyAppend(ps: seq<Param>, p: Param)
    ensures Body(ps + [p]) == Body(ps) + Item(p)
  {
    var all := ps + [p];
    if ps == [] {
      assert all[1..] == [];
      assert Body([]) == [];
    } else {
      assert all[1..] == ps[1..] + [p];
      BodyAppend(ps[1..], p);
    }
  }

  // ---- the server's scan

  // Where the scan ends: with the offset of a value, with none, or reading behind the
  // end of the payload
  datatype Scanned = Port(last: Option<nat>) | Outside

  // The sum of two numbers of 32 bits, in 32 bits
  function Sum32(a: nat, b: nat): nat { if a + b < U32 then a + b else a + b - U32 }

  function Scan(payload: seq<Byte>, off: nat, left: nat, last: Option<nat>): Scanned
    requires off <= |payload| < U32
    decreases left
  {
    if left == 0 || Sum32(off, 5) > |payload| then Port(last)
    else if off + 5 > |payload| then Outside
    else
      var vlen := Read32(payload, off + 1);
      var next := Sum32(off + 5, vlen);
      if next > |payload| then Port(last)
      else Scan(payload, next, left - 1, if payload[off] == PORT_TAG && vlen > 0 then Some(off + 5) else last)
  }

  function FindPort(payload: seq<Byte>): Scanned
    requires |payload| < U32
  {
    if |payload| < 4 then Port(None) else Scan(payload, 4, Read32(payload, 0), None)
  }

  // Only a payload of almost 4 GiB makes the sum wrap around.
  lemma {:induction false} StaysInside(payload: seq<Byte>, off: nat, left: nat, last: Option<nat>)
    requires off <= |payload| < U32 - 5
    ensures Scan(payload, off, left, last).Port?
    decreases left
  {
    if left > 0 && off + 5 <= |payload| {
      var vlen := Read32(payload, off + 1);
      var next := Sum32(off + 5, vlen);
      if next <= |payload| {
        StaysInside(payload, next, left - 1, if payload[off] == PORT_TAG && vlen > 0 then Some(off + 5) else last);
      }
    }
  }

  method FindReplyPort(payload: seq<Byte>) returns (r: Scanned)
    requires |payload| < U32
    ensures r == FindPort(payload)
    ensures |payload| < U32 - 5 ==> r.Port?
  {
    if |payload| < 4 {
      return Port(None);
    }
    var count := Read32(payload, 0);
    var off, i := 4, 0;
    var last: Option<nat> := None;
    if |payload| < U32 - 5 {
      StaysInside(payload, 4, count, None);
    }
    while i < count
      invariant i <= count && 0 <= off <= |payload|
      invariant FindPort(payload) == Scan(payload, off, count - i, last)
    {
      if Sum32(off, 5) > |payload| {
        return Port(last);
      }
      if off + 5 > |payload| {
        return Outside;
      }
      var tag, vlen := payload[off], Read32(payload, off + 1);
      off := off + 5;
      if Sum32(off, vlen) > |payload| {
        return Port(last);
      }
      if tag == PORT_TAG && vlen > 0 {
        last := Some(off);
      }
      off := Sum32(off, vlen);
      i := i + 1;
    }
    r := Port(last);
  }

  predicate IsPort(p: Param) { p.tag == PORT_TAG && p.value != [] }

  ghost predicate IsLastPort(ps: seq<Param>, i: nat) {
    i < |ps| && IsPort(ps[i]) && forall j :: i < j < |ps| ==> !IsPort(ps[j])
  }

  ghost predicate HasNoPort(ps: seq<Param>) {
    forall j :: 0 <= j < |ps| ==> !IsPort(ps[j])
  }

  // One round of the scan over a parameter that is really there
  lemma ScanItem(all: seq<Byte>, off: nat, p: Param, rest: seq<Byte>, left: nat, last: Option<nat>)
    requires left > 0 && off <= |all| < U32 && all[off..] == Item(p) + rest
    ensures off + |Item(p)| <= |all| && all[off + |Item(p)|..] == rest
    ensures Scan(all, off, left, last)
         == Scan(all, off + |Item(p)|, left - 1, if IsPort(p) then Some(off + 5) else last)
  {
    assert all == all[..off] + Item(p) + rest;
    ReadItem(all[..off], p, rest);
    ScanStep(all, off, |p.value|, left, last);
  }

  lemma ScanStep(all: seq<Byte>, off: nat, vlen: nat, left: nat, last: Option<nat>)
    requires left > 0 && off + 5 + vlen <= |all| < U32 && Read32(all, off + 1) == vlen
    ensures Scan(all, off, left, last)
         == Scan(all, off + 5 + vlen, left - 1, if all[off] == PORT_TAG && vlen > 0 then Some(off + 5) else last)
  {
    assert Sum32(off + 5, vlen) == off + 5 + vlen && Sum32(off, 5) == off + 5;
  }

  lemma ReadItem(pre: seq<Byte>, p: Param, rest: seq<Byte>)
    requires |p.value| < U32
    ensures var all := pre + Item(p) + rest;
            all[|pre|] == p.tag && Read32(all, |pre| + 1) == |p.value|
  {
    ReadMiddle(pre + [p.tag], |p.value|, p.value + rest);
    assert pre + Item(p) + rest == pre + [p.tag] + Le32(|p.value|) + (p.value + rest);
  }

  lemma ReadMiddle(pre: seq<Byte>, n: nat, rest: seq<Byte>)
    requires n < U32
    ensures Read32(pre + Le32(n) + rest, |pre|) == n
  {
    Read32OfLe32(n);
    var all, k := pre + Le32(n) + rest, |pre|;
    assert all[k] == Le32(n)[0] && all[k + 1] == Le32(n)[1] && all[k + 2] == Le32(n)[2] && all[k + 3] == Le32(n)[3];
  }

  // What the scan has found after the parameters ps, the last of which is at off
  function LastAt(off: nat, ps: seq<Param>, last: Option<nat>): Option<nat>
    decreases |ps|
  {
    if ps == [] then last
    else LastAt(off + |Item(ps[0])|, ps[1..], if IsPort(ps[0]) then Some(off + 5) else last)
  }

  // The scan from off ends with r, sealed.
  ghost predicate EndsIn(seal: Seal, all: seq<Byte>, off: nat, left: nat, last: Option<nat>, r: Scanned) {
    off <= |all| < U32 && Scan(all, off, left, last) == r
  }

  ghost predicate Ends(all: seq<Byte>, off: nat, left: nat, last: Option<nat>, r: Scanned) {
    forall seal :: EndsIn(seal, all, off, left, last, r)
  }

  lemma EndsOn(all: seq<Byte>, off: nat, p: Param, rest: seq<Byte>, left: nat, last: Option<nat>, r: Scanned)
    requires left > 0 && off <= |all| < U32 && all[off..] == Item(p) + rest
    requires Ends(all, off + |Item(p)|, left - 1, if IsPort(p) then Some(off + 5) else last, r)
    ensures Ends(all, off, left, last, r)
  {
    assert EndsIn(Seal, all, off + |Item(p)|, left - 1, if IsPort(p) then Some(off + 5) else last, r);
    ScanItem(all, off, p, rest, left, last);
  }

  lemma RestAt(all: seq<Byte>, off: nat, head: seq<Byte>, rest: seq<Byte>)
    requires off <= |all| && all[off..] == head + rest
    ensures off + |head| <= |all| && all[off + |head|..] == rest
  {
    assert all == all[..off] + head + rest;
  }

  lemma {:induction false} ScanBody(all: seq<Byte>, off: nat, ps: seq<Param>, last: Option<nat>)
    requires off <= |all| < U32 && all[off..] == Body(ps)
    ensures Ends(all, off, |ps|, last, Port(LastAt(off, ps, last)))
    decreases |ps|
  {
    if ps != [] {
      var last' := if IsPort(ps[0]) then Some(off + 5) else last;
      RestAt(all, off, Item(ps[0]), Body(ps[1..]));
      ScanBody(all, off + |Item(ps[0])|, ps[1..], last');
      EndsOn(all, off, ps[0], Body(ps[1..]), |ps|, last, Port(LastAt(off, ps, last)));
    }
  }

  lemma {:induction false} LastAtNone(off: nat, ps: seq<Param>, last: Option<nat>)
    requires HasNoPort(ps)
    ensures LastAt(off, ps, last) == last
    decreases |ps|
  {
    if ps != [] {
      LastAtNone(off + |Item(ps[0])|, ps[1..], last);
    }
  }

  lemma {:induction false} LastAtIs(off: nat, ps: seq<Param>, last: Option<nat>, i: nat)
    requires IsLastPort(ps, i)
    ensures LastAt(off, ps, last) == Some(off + |Body(ps[..i])| + 5)
    decreases |ps|
  {
    var last' := if IsPort(ps[0]) then Some(off + 5) else last;
    LastPortOfTail(ps, i);
    if i > 0 {
      LastAtIs(off + |Item(ps[0])|, ps[1..], last', i - 1);
    } else {
      LastAtNone(off + |Item(ps[0])|, ps[1..], last');
    }
  }

  lemma LastPortOfTail(ps: seq<Param>, i: nat)
    requires ps != [] && IsLastPort(ps, i)
    ensures i > 0 ==> IsLastPort(ps[1..], i - 1) && Body(ps[..i]) == Item(ps[0]) + Body(ps[1..][..i - 1])
    ensures i == 0 ==> HasNoPort(ps[1..]) && Body(ps[..i]) == []
  {
    if i > 0 {
      assert ps[..i][1..] == ps[1..][..i - 1];
      forall j | i - 1 < j < |ps[1..]| ensures !IsPort(ps[1..][j]) {
        assert ps[1..][j] == ps[j + 1];
      }
    }
  }

  lemma CountOfEncode(ps: seq<Param>)
    requires Fits(ps)
    ensures Read32(Encode(ps), 0) == |ps|
  {
    ReadMiddle([], |ps|, Body(ps));
    assert Encode(ps) == [] + Le32(|ps|) + Body(ps);
  }

  // On every well-formed payload the scan finds the last port parameter, or
  // nothing when there is none.
  lemma ScanFindsLastPort(ps: seq<Param>)
    requires Fits(ps)
    ensures HasNoPort(ps) ==> FindPort(Encode(ps)) == Port(None)
    ensures forall i: nat :: IsLastPort(ps, i) ==>
              var off := 4 + |Body(ps[..i])| + 5;
              FindPort(Encode(ps)) == Port(Some(off)) && off + |ps[i].value| <= |Encode(ps)|
              && Encode(ps)[off..off + |ps[i].value|] == ps[i].value
  {
    CountOfEncode(ps);
    assert Encode(ps)[4..] == Body(ps);
    ScanBody(Encode(ps), 4, ps, None);
    assert EndsIn(Seal, Encode(ps), 4, |ps|, None, Port(LastAt(4, ps, None)));
    if HasNoPort(ps) {
      LastAtNone(4, ps, None);
    }
    forall i: nat | IsLastPort(ps, i)
      ensures var off := 4 + |Body(ps[..i])| + 5;
              LastAt(4, ps, None) == Some(off) && off + |ps[i].value| <= |Encode(ps)|
              && Encode(ps)[off..off + |ps[i].value|] == ps[i].value
    {
      LastAtIs(4, ps, None, i);
      ValueAt(ps, i);
    }
  }

  // Where the value of parameter i lies
  lemma ValueAt(ps: seq<Param>, i: nat)
    requires i < |ps|
    ensures var off := 4 + |Body(ps[..i])| + 5;
            off + |ps[i].value| <= |Encode(ps)| && Encode(ps)[off..off + |ps[i].value|] == ps[i].value
  {
    BodySplit(ps, i);
    Inside(Le32(|ps|), Body(ps[..i]), [ps[i].tag] + Le32(|ps[i].value|), ps[i].value, Body(ps[i + 1..]), Encode(ps));
  }

  lemma Inside(a: seq<Byte>, b: seq<Byte>, c: seq<Byte>, v: seq<Byte>, d: seq<Byte>, all: seq<Byte>)
    requires all == a + (b + (c + v) + d)
    ensures var off := |a| + |b| + |c|;
            off + |v| <= |all| && all[off..off + |v|] == v
  {
    assert all == (a + b + c) + v + d;
  }

  lemma {:induction false} BodySplit(ps: seq<Param>, i: nat)
    requires i < |ps|
    ensures Body(ps) == Body(ps[..i]) + Item(ps[i]) + Body(ps[i + 1..])
    decreases i
  {
    if i > 0 {
      BodySplit(ps[1..], i - 1);
      assert ps[..i][1..] == ps[1..][..i - 1];
      assert ps[1..][i..] == ps[i + 1..];
    }
  }

  // ---- the caller's append

  // A name as it is stored: with its terminator
  function Stored(name: seq<Byte>): seq<Byte> { name + [0] }

  // The name at an offset, as a reader sees it
  function NameAt(b: seq<Byte>, off: nat): seq<Byte>
    requires off <= |b|
  {
    CString(b[off..])
  }

  lemma NameOfStored(b: seq<Byte>, off: nat, name: seq<Byte>)
    requires NoNul(name) && off + |name| < |b| && b[off..off + |name| + 1] == Stored(name)
    ensures NameAt(b, off) == name
  {
    var rest := b[off + |name|..];
    assert b[off + |name|] == Stored(name)[|name|];
    assert b[off..] == name + rest by {
      assert b[off..] == b[off..off + |name| + 1] + b[off + |name| + 1..];
      assert rest == [0] + b[off + |name| + 1..];
    }
    CStringIs(name, rest);
  }

  // Appends the port in place; the buffer beyond the new length is untouched.
  method AppendReplyPort(buf: array<Byte>, len: nat, port: seq<Byte>, ghost ps: seq<Param>)
      returns (ok: bool, len': nat)
    requires 4 <= len <= buf.Length < U32 && buf[..len] == Encode(ps) && |ps| + 1 < U32
    modifies buf
    ensures ok <==> len + 5 + |port| + 1 <= buf.Length
    ensures ok ==> len' <= buf.Length && buf[..len'] == Encode(ps + [Param(PORT_TAG, Stored(port))])
                   && buf[len'..] == old(buf[len'..])
    ensures !ok ==> len' == len && buf[..] == old(buf[..])
  {
    var slen := |port| + 1;
    if len + 5 + slen > buf.Length {
      return false, len;
    }
    ghost var was := buf[..];
    CountOfEncodeAt(buf[..], len, ps);
    var count := Read32(buf[..], 0);
    Put(buf, 0, Le32(count + 1));
    Put(buf, len, [PORT_TAG] + Le32(slen));
    Put(buf, len + 5, Stored(port));
    AppendSplices(was, len, Le32(count + 1), [PORT_TAG] + Le32(slen), Stored(port));
    AppendEncoded(was, len, ps, Param(PORT_TAG, Stored(port)));
    len' := len + 5 + slen;
    ok := true;
  }

  lemma AppendSplices(b: seq<Byte>, len: nat, count: seq<Byte>, head: seq<Byte>, name: seq<Byte>)
    requires 4 == |count| <= len && len + |head| + |name| <= |b|
    ensures var len' := len + |head| + |name|;
            var b' := Splice(Splice(Splice(b, 0, count), len, head), len + |head|, name);
            b'[..len'] == count + b[4..len] + head + name && b'[len'..] == b[len'..]
  {
  }

  lemma AppendEncoded(b: seq<Byte>, len: nat, ps: seq<Param>, p: Param)
    requires 4 <= len <= |b| && b[..len] == Encode(ps)
    ensures Le32(|ps| + 1) + b[4..len] + ([p.tag] + Le32(|p.value|)) + p.value == Encode(ps + [p])
  {
    assert b[4..len] == b[..len][4..] == Body(ps);
    BodyAppend(ps, p);
  }

  lemma CountOfEncodeAt(b: seq<Byte>, len: nat, ps: seq<Param>)
    requires 4 <= len <= |b| < U32 && b[..len] == Encode(ps) && |ps| < U32
    ensures Read32(b, 0) == |ps|
  {
    CountOfEncode(ps);
    assert b[0] == b[..len][0] && b[1] == b[..len][1] && b[2] == b[..len][2] && b[3] == b[..len][3];
  }

  // memcpy
  method Put(buf: array<Byte>, at: nat, bytes: seq<Byte>)
    requires at + |bytes| <= buf.Length
    modifies buf
    ensures buf[..] == Splice(old(buf[..]), at, bytes)
  {
    for i := 0 to |bytes|
      invariant forall k :: 0 <= k < buf.Length ==>
                  buf[k] == if at <= k < at + i then bytes[k - at] else old(buf[k])
    {
      buf[at + i] := bytes[i];
    }
  }

  // The scan returns the port just appended, whatever the parameters before it.
  lemma AppendedPortIsFound(ps: seq<Param>, port: seq<Byte>)
    requires NoNul(port) && Fits(ps + [Param(PORT_TAG, Stored(port))])
    ensures var payload := Encode(ps + [Param(PORT_TAG, Stored(port))]);
            && FindPort(payload).Port? && FindPort(payload).last.Some? && FindPort(payload).last.value <= |payload|
            && NameAt(payload, FindPort(payload).last.value) == port
  {
    var all := ps + [Param(PORT_TAG, Stored(port))];
    ScanFindsLastPort(all);
    assert IsLastPort(all, |ps|);
    var off := 4 + |Body(all[..|ps|])| + 5;
    NameOfStored(Encode(all), off, port);
  }

  // From the caller's cookie to the leaf's: print, append, scan, parse.
  lemma CookieReachesLeaf(cookie: nat, ps: seq<Param>)
    requires cookie < U64 && Fits(ps + [Param(PORT_TAG, Stored(Token(cookie)))])
    ensures var payload := Encode(ps + [Param(PORT_TAG, Stored(Token(cookie)))]);
            && FindPort(payload).Port? && FindPort(payload).last.Some? && FindPort(payload).last.value <= |payload|
            && var name := NameAt(payload, FindPort(payload).last.value);
               IsToken(name) && Value(name[2..]) % U64 == cookie
  {
    AppendedPortIsFound(ps, Token(cookie));
    TokenRoundTrip(cookie);
  }
}
