/**
 The newc archive format and its parser: hexadecimal fields, alignment, and the
 cursor loop over an initramfs image.
 */
module CpioFormat {
  import opened Wrappers
  import opened Bytes
  import PathAlgebra

  const HDR_LEN: nat := 110

  const MAGIC: seq<Byte> := [48, 55, 48, 55, 48, 49]                       // "070701"
  const TRAILER: seq<Byte> := [84, 82, 65, 73, 76, 69, 82, 33, 33, 33]     // "TRAILER!!!"

  // ---- hexadecimal fields

  function DigitOf(v: nat): Byte
    requires v < 16
  {
    if v < 10 then (48 + v) as Byte else (97 + v - 10) as Byte
  }

  // What the parser makes of a character; one that is no digit counts zero.
  function DigitValue(c: Byte): (v: nat)
    ensures v < 16
  {
    if 48 <= c <= 57 then c as nat - 48
    else if 97 <= c <= 102 then c as nat - 97 + 10
    else if 65 <= c <= 70 then c as nat - 65 + 10
    else 0
  }

  function Hex(v: nat, n: nat): (h: seq<Byte>)
    ensures |h| == n
  {
    if n == 0 then [] else Hex(v / 16, n - 1) + [DigitOf(v % 16)]
  }

  function HexValue(h: seq<Byte>): nat {
    if h == [] then 0 else HexValue(h[..|h| - 1]) * 16 + DigitValue(h[|h| - 1])
  }

  function Pow16(n: nat): nat { if n == 0 then 1 else 16 * Pow16(n - 1) }

  lemma {:induction false} HexRoundTrip(v: nat, n: nat)
    requires v < Pow16(n)
    ensures HexValue(Hex(v, n)) == v
  {
    if n > 0 {
      HexRoundTrip(v / 16, n - 1);
      assert Hex(v, n)[..n - 1] == Hex(v / 16, n - 1);
      assert DigitValue(DigitOf(v % 16)) == v % 16;
    }
  }

  lemma HexField(v: nat)
    requires v < U32
    ensures HexValue(Hex(v, 8)) == v
  {
    assert Pow16(4) == 65536;
    assert Pow16(8) == 65536 * Pow16(4);
    HexRoundTrip(v, 8);
  }

  // cpio_hex_field8
  method HexField8(field: seq<Byte>) returns (value: nat)
    requires |field| == 8
    ensures value == HexValue(field)
  {
    value := 0;
    var i := 0;
    while i < 8
      invariant i <= 8 && value == HexValue(field[..i])
    {
      assert field[..i + 1][..i] == field[..i];
      value := value * 16 + DigitValue(field[i]);
      i := i + 1;
    }
    assert field[..8] == field;
  }

  // ---- alignment

  function Align4(v: nat): (r: nat)
    ensures r % 4 == 0 && v <= r < v + 4
  {
    (v + 3) / 4 * 4
  }

  // ---- what is archived and what is parsed

  datatype Entry = Entry(ino: nat, mode: nat, uid: nat, gid: nat, nlink: nat, mtime: nat, name: seq<Byte>,
      data: seq<Byte>)

  // An entry of the table: its data are the size bytes at data in the image.
  datatype Parsed = Parsed(path: seq<Byte>, mode: nat, nlink: nat, data: nat, size: nat, isDir: bool, isSymlink: bool)

  function Fields(fs: seq<nat>): (b: seq<Byte>)
    ensures |b| == 8 * |fs|
  {
    if fs == [] then [] else Fields(fs[..|fs| - 1]) + Hex(fs[|fs| - 1], 8)
  }

  lemma {:induction false} FieldAt(fs: seq<nat>, k: nat)
    requires k < |fs|
    ensures Fields(fs)[8 * k..8 * k + 8] == Hex(fs[k], 8)
  {
    if k < |fs| - 1 {
      var init := fs[..|fs| - 1];
      FieldAt(init, k);
      SliceOfFirst(Fields(init), Hex(fs[|fs| - 1], 8), 8 * k, 8 * k + 8);
    }
  }

  function FieldsOf(e: Entry): seq<nat> {
    [e.ino, e.mode, e.uid, e.gid, e.nlink, e.mtime, |e.data|, 0, 0, 0, 0, |e.name| + 1, 0]
  }

  // Header, name with its NUL, data, both padded to four bytes
  function Head(e: Entry): (b: seq<Byte>)
    ensures |b| == HDR_LEN
  {
    MAGIC + Fields(FieldsOf(e))
  }

  function NameField(e: Entry): (b: seq<Byte>)
    ensures HDR_LEN + |b| == Align4(HDR_LEN + |e.name| + 1)
  {
    e.name + Zeros(Align4(HDR_LEN + |e.name| + 1) - HDR_LEN - |e.name|)
  }

  function Block(e: Entry): (b: seq<Byte>)
    ensures |b| == Align4(HDR_LEN + |e.name| + 1) + Align4(|e.data|)
  {
    Head(e) + NameField(e) + e.data + Zeros(Align4(|e.data|) - |e.data|)
  }

  function BlockSize(e: Entry): nat {
    Align4(HDR_LEN + |e.name| + 1) + Align4(|e.data|)
  }

  function Blocks(es: seq<Entry>): (bs: seq<seq<Byte>>)
    ensures |bs| == |es|
  {
    if es == [] then [] else [Block(es[0])] + Blocks(es[1..])
  }

  function Concat(bs: seq<seq<Byte>>): seq<Byte> {
    if bs == [] then [] else bs[0] + Concat(bs[1..])
  }

  function Archive(es: seq<Entry>): seq<Byte> { Concat(Blocks(es)) }

  const END := Entry(0, 0, 0, 0, 1, 0, TRAILER, [])

  // ---- the parser

  // cpio_name_skip
  predicate Skipped(name: seq<Byte>) { name == [] || name == [46] || name == [46, 46] || name == TRAILER }

  // cpio_normalize_path
  function PathOf(name: seq<Byte>): seq<Byte> {
    var s := if |name| >= 2 && name[0] == 46 && name[1] == 47 then name[2..] else if name == [46] then [] else name;
    var s := if s != [] && s[0] == 47 then s[1..] else s;
    [47] + if |s| <= PathAlgebra.PATH_MAX - 2 then s else s[..PathAlgebra.PATH_MAX - 2]
  }

  // The type bits of a mode: 4 for a directory, 10 for a symbolic link
  function TypeBits(mode: nat): nat { mode / 4096 % 16 }

  function Field(image: seq<Byte>, cur: nat, k: nat): nat
    requires k < 13 && cur + HDR_LEN <= |image|
  {
    HexValue(image[cur + 6 + 8 * k..cur + 14 + 8 * k])
  }

  // One round at cur: an error, the end, or an entry and where the next one is
  datatype Round = Bad | Done | Next(name: seq<Byte>, entry: Parsed, cur: nat)

  function Look(image: seq<Byte>, cur: nat): (r: Round)
    requires cur + HDR_LEN <= |image|
    ensures r.Next? ==> r.cur > cur && cur < r.entry.data && r.entry.data + r.entry.size <= |image|
  {
    if image[cur..cur + 6] != MAGIC then Bad
    else
      var namesize, filesize := Field(image, cur, 11), Field(image, cur, 6);
      var mode, nlink := Field(image, cur, 1), Field(image, cur, 4);
      var at := cur + HDR_LEN;
      if at + namesize > |image| then Bad
      else
        var name := CString(image[at..]);
        if name == TRAILER then Done
        else
          var data := cur + Align4(HDR_LEN + namesize);
          if data + filesize > |image| then Bad
          else Next(name, Parsed(PathOf(name), mode, nlink, data, filesize, TypeBits(mode) == 4, TypeBits(mode) == 10),
                    data + Align4(filesize))
  }

  // The rest of the loop of cpio_rofs_init
  function ParseFrom(image: seq<Byte>, cur: nat): Option<seq<Parsed>>
    decreases |image| - cur
  {
    if cur + HDR_LEN > |image| then Some([])
    else
      match Look(image, cur)
      case Bad => None
      case Done => Some([])
      case Next(name, entry, next) =>
        match ParseFrom(image, next)
        case None => None
        case Some(rest) => Some((if Skipped(name) then [] else [entry]) + rest)
  }

  function Parse(image: seq<Byte>): Option<seq<Parsed>> {
    if |image| < HDR_LEN then None else ParseFrom(image, 0)
  }
}
