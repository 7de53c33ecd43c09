/**
 The reply name "@n<cookie>" of a nested request: printed by the caller, parsed
 by the leaf that answers.
 */
module NestToken {
  import opened Bytes

  const DIGITS: nat := 24     // size of the digit buffer

  predicate IsDigit(b: Byte) { 48 <= b <= 57 }

  function Digit(d: nat): (b: Byte)
    requires d < 10
    ensures IsDigit(b) && Worth(b) == d
  {
    (48 + d) as Byte
  }

  function Worth(b: Byte): nat
    requires IsDigit(b)
  {
    b as int - 48
  }

  // n in decimal, without leading zeros
  function Decimal(n: nat): (ds: seq<Byte>)
    ensures |ds| > 0 && forall i :: 0 <= i < |ds| ==> IsDigit(ds[i])
  {
    if n < 10 then [Digit(n)] else Decimal(n / 10) + [Digit(n % 10)]
  }

  // The number a string of digits stands for
  function Value(ds: seq<Byte>): nat
    requires forall i :: 0 <= i < |ds| ==> IsDigit(ds[i])
  {
    if ds == [] then 0 else Value(ds[..|ds| - 1]) * 10 + Worth(ds[|ds| - 1])
  }

  const PREFIX: seq<Byte> := [64, 110]    // "@n"

  function Token(cookie: nat): seq<Byte> {
    PREFIX + Decimal(cookie)
  }

  predicate IsToken(name: seq<Byte>) {
    && |name| > 2 && name[0] == 64 && name[1] == 110
    && forall i :: 2 <= i < |name| ==> IsDigit(name[i])
  }

  function Pow10(k: nat): nat { if k == 0 then 1 else 10 * Pow10(k - 1) }

  lemma {:induction false} DecimalLength(n: nat, k: nat)
    requires n < Pow10(k) && k > 0
    ensures |Decimal(n)| <= k
  {
    if n >= 10 {
      assert k > 1 by { assert Pow10(0) == 1; }
      DecimalLength(n / 10, k - 1);
    }
  }

  lemma CookieDigits(cookie: nat)
    requires cookie < U64
    ensures |Decimal(cookie)| <= 20
  {
    assert Pow10(5) == 100000;
    assert Pow10(10) == 100000 * Pow10(5);
    assert Pow10(15) == 100000 * Pow10(10);
    assert Pow10(20) == 100000 * Pow10(15);
    DecimalLength(cookie, 20);
  }

  lemma {:induction false} ValueOfDecimal(n: nat)
    ensures Value(Decimal(n)) == n
  {
    if n >= 10 {
      ValueOfDecimal(n / 10);
      assert Decimal(n)[..|Decimal(n)| - 1] == Decimal(n / 10);
    } else {
      assert Decimal(n)[..0] == [];
      assert Value([]) == 0;
    }
  }

  lemma {:induction false} DecimalOfValue(ds: seq<Byte>)
    requires |ds| > 0 && forall i :: 0 <= i < |ds| ==> IsDigit(ds[i])
    ensures Decimal(Value(ds)) == ds <==> (|ds| == 1 || ds[0] != 48)
    ensures ds[0] != 48 ==> Value(ds) > 0
  {
    var init, last := ds[..|ds| - 1], ds[|ds| - 1];
    assert ds == init + [last];
    if |ds| == 1 {
      assert init == [];
      assert Value(init) == 0;
    } else {
      DecimalOfValue(init);
      var n := Value(ds);
      assert n / 10 == Value(init) && n % 10 == Worth(last);
      if n < 10 {
        assert Value(init) == 0;
      } else {
        assert Decimal(n) == Decimal(Value(init)) + [last];
        if Decimal(Value(init)) != init {
          assert Decimal(n)[..|Decimal(n)| - 1] == Decimal(Value(init));
        }
      }
    }
  }

  // Print into a buffer of the given size: least significant digit first into a
  // scratch buffer, then reversed.
  method FormatToken(size: nat, cookie: nat) returns (ok: bool, buf: seq<Byte>)
    requires cookie < U64
    ensures ok <==> |Token(cookie)| < size && 4 <= size
    ensures ok ==> buf == Token(cookie)
  {
    if size < 4 {
      return false, [];
    }
    var digits: seq<Byte> := [];
    var rest := cookie;
    ghost var done: seq<Byte> := [];
    CookieDigits(cookie);
    if rest == 0 {
      digits := [48];
      assert Decimal(0) == [48];
      assert Mirrors(digits, Decimal(cookie));
    } else {
      while rest > 0 && |digits| < DIGITS
        invariant 0 <= rest < U64
        invariant Mirrors(digits, done)
        invariant Decimal(cookie) == (if rest == 0 then done else Decimal(rest) + done)
        decreases rest
      {
        ghost var d := Digit(rest % 10);
        assert rest >= 10 ==> Decimal(rest) + done == Decimal(rest / 10) + ([d] + done);
        assert rest < 10 ==> Decimal(rest) + done == [d] + done;
        MirrorsMore(digits, done, d);
        done := [d] + done;
        digits := digits + [Digit(rest % 10)];
        rest := rest / 10;
      }
      assert rest > 0 ==> |Decimal(cookie)| > |digits|;
    }
    if 2 + |digits| >= size {
      return false, [];
    }
    buf := PREFIX;
    var i := 0;
    while i < |digits|
      invariant i <= |digits|
      invariant buf == PREFIX + Decimal(cookie)[..i]
    {
      buf := buf + [digits[|digits| - 1 - i]];
      i := i + 1;
    }
    assert Decimal(cookie)[..i] == Decimal(cookie);
    ok := true;
  }

  ghost predicate Mirrors(a: seq<Byte>, b: seq<Byte>) {
    |a| == |b| && forall i :: 0 <= i < |a| ==> b[i] == a[|a| - 1 - i]
  }

  lemma MirrorsMore(a: seq<Byte>, b: seq<Byte>, d: Byte)
    requires Mirrors(a, b)
    ensures Mirrors(a + [d], [d] + b)
  {
  }

  // The test and the parse of the leaf, on a name without its terminator
  method ParseToken(name: seq<Byte>) returns (cookie: nat)
    ensures cookie == if IsToken(name) then Value(name[2..]) % U64 else 0
  {
    if |name| <= 2 || name[0] != 64 || name[1] != 110 {
      return 0;
    }
    var i := 2;
    while i < |name|
      invariant 2 <= i <= |name| && forall j :: 2 <= j < i ==> IsDigit(name[j])
    {
      if !IsDigit(name[i]) {
        return 0;
      }
      i := i + 1;
    }
    cookie, i := 0, 2;
    while i < |name|
      invariant 2 <= i <= |name|
      invariant cookie == Value(name[2..i]) % U64
    {
      var d := Worth(name[i]);
      assert name[2..i + 1][..i - 2] == name[2..i];
      Carry(Value(name[2..i]), d);
      cookie := (cookie * 10 + d) % U64;
      i := i + 1;
    }
    assert name[2..i] == name[2..];
  }

  lemma Carry(v: nat, d: nat)
    ensures ((v % U64) * 10 + d) % U64 == (v * 10 + d) % U64
  {
    var q := v / U64;
    assert v * 10 + d == (v % U64) * 10 + d + (10 * q) * U64;
    Drop((v % U64) * 10 + d, 10 * q);
  }

  lemma {:induction false} Drop(x: nat, k: nat)
    ensures (x + k * U64) % U64 == x % U64
  {
    if k > 0 {
      Drop(x, k - 1);
      assert x + k * U64 == (x + (k - 1) * U64) + U64;
    }
  }

  // Every cookie survives printing and parsing.
  lemma TokenRoundTrip(cookie: nat)
    requires cookie < U64
    ensures IsToken(Token(cookie)) && Value(Token(cookie)[2..]) % U64 == cookie
  {
    assert Token(cookie)[2..] == Decimal(cookie);
    ValueOfDecimal(cookie);
  }

  // Different cookies have different tokens.
  lemma TokenIsInjective(a: nat, b: nat)
    requires Token(a) == Token(b)
    ensures a == b
  {
    assert Token(a)[2..] == Decimal(a) && Token(b)[2..] == Decimal(b);
    ValueOfDecimal(a);
    ValueOfDecimal(b);
  }

  // A token is the print of its own cookie exactly when its number fits 64 bits
  // and has no leading zero.
  lemma TokenIsCanonicalIff(name: seq<Byte>)
    requires IsToken(name)
    ensures Token(Value(name[2..]) % U64) == name
            <==> Value(name[2..]) < U64 && (|name| == 3 || name[2] != 48)
  {
    var ds := name[2..];
    var c := Value(ds) % U64;
    assert Token(c) == name <==> Decimal(c) == ds by {
      assert Token(c)[2..] == Decimal(c);
      assert name == PREFIX + ds;
    }
    DecimalOfValue(ds);
    ValueOfDecimal(c);
    assert Decimal(c) == ds ==> Value(ds) == c;
  }
}
