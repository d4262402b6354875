/** utf16LE of the Windows host agent, against RFC 2781. */
module Utf16 {
  import opened Basics

  newtype byte = b: int | 0 <= b < 0x100

  /** A Unicode scalar value, which is what ranging over a Go string yields. */
  type Rune = r: int | 0 <= r < 0xD800 || 0xE000 <= r <= 0x10FFFF

  type Unit = u: int | 0 <= u < 0x10000

  predicate HighSurrogate(u: Unit) { 0xD800 <= u <= 0xDBFF }
  predicate LowSurrogate(u: Unit) { 0xDC00 <= u <= 0xDFFF }

  /** Section 2.1 of RFC 2781: one unit below 0x10000, else the two halves of U - 0x10000. */
  function Units(r: Rune): (us: seq<Unit>)
    ensures |us| == 1 ==> us == [r] && !HighSurrogate(us[0]) && !LowSurrogate(us[0])
    ensures |us| == 2 ==> HighSurrogate(us[0]) && LowSurrogate(us[1])
                          && r == 0x10000 + (us[0] as int - 0xD800) * 0x400 + (us[1] as int - 0xDC00)
    ensures |us| == if r > 0xFFFF then 2 else 1
  {
    if r > 0xFFFF then [0xD800 + (r - 0x10000) / 0x400, 0xDC00 + (r - 0x10000) % 0x400] else [r]
  }

  function Bytes(u: Unit): seq<byte> {
    [(u % 0x100) as byte, (u / 0x100) as byte]
  }

  function UnitBytes(us: seq<Unit>): seq<byte> {
    if us == [] then [] else Bytes(us[0]) + UnitBytes(us[1..])
  }

  /** The text without its byte order mark. */
  function Encode(s: seq<Rune>): seq<byte> {
    if s == [] then [] else UnitBytes(Units(s[0])) + Encode(s[1..])
  }

  const BOM: seq<byte> := [0xFF, 0xFE]

  /** The low eight bits, as a Go conversion to byte keeps them. */
  function LowByte(n: int): byte
    requires n >= 0
  {
    (n % 0x100) as byte
  }

  /** One iteration: a surrogate pair outside the BMP, else the value itself, low byte first. */
  method RuneBytes(rune: Rune) returns (bs: seq<byte>)
    ensures bs == UnitBytes(Units(rune))
  {
    var r: int := rune;
    if r > 0xFFFF {
      r := r - 0x10000;
      var hi := 0xD800 + r / 0x400;
      var lo := 0xDC00 + r % 0x400;
      TwoUnits(hi, lo);
      TwoLowBytes(hi);
      TwoLowBytes(lo);
      bs := [LowByte(hi), LowByte(hi / 0x100), LowByte(lo), LowByte(lo / 0x100)];
      assert bs == Bytes(hi) + Bytes(lo);
    } else {
      OneUnit(r);
      TwoLowBytes(r);
      bs := [LowByte(r), LowByte(r / 0x100)];
    }
  }

  lemma TwoLowBytes(u: Unit)
    ensures [LowByte(u), LowByte(u / 0x100)] == Bytes(u)
  {
  }

  method Utf16LE(s: seq<Rune>) returns (out: seq<byte>)
    ensures out == BOM + Encode(s)
  {
    out := [0xFF, 0xFE];
    for i := 0 to |s|
      invariant out + Encode(s[i..]) == BOM + Encode(s)
    {
      assert s[i..][0] == s[i] && s[i..][1..] == s[i + 1..];
      var bs := RuneBytes(s[i]);
      Regroup(out, bs, Encode(s[i + 1..]));
      out := out + bs;
    }
  }

  lemma OneUnit(u: Unit)
    ensures UnitBytes([u]) == Bytes(u)
  {
    assert [u][1..] == [];
  }

  lemma TwoUnits(u: Unit, v: Unit)
    ensures UnitBytes([u, v]) == Bytes(u) + Bytes(v)
  {
    assert [u, v][1..] == [v];
    OneUnit(v);
  }

  function UnitAt(lo: byte, hi: byte): Unit {
    lo as int + hi as int * 0x100
  }

  /** Section 2.2 of RFC 2781, on little-endian bytes; None for anything ill-formed. */
  function Decode(bs: seq<byte>): Option<seq<Rune>> {
    if bs == [] then Some([])
    else if |bs| < 2 then None
    else
      var w1 := UnitAt(bs[0], bs[1]);
      if !HighSurrogate(w1) && !LowSurrogate(w1) then
        match Decode(bs[2..]) case Some(rest) => Some([w1 as Rune] + rest) case None => None
      else if LowSurrogate(w1) || |bs| < 4 || !LowSurrogate(UnitAt(bs[2], bs[3])) then None
      else
        var r := 0x10000 + (w1 - 0xD800) * 0x400 + (UnitAt(bs[2], bs[3]) - 0xDC00);
        match Decode(bs[4..]) case Some(rest) => Some([r as Rune] + rest) case None => None
  }

  lemma BytesReadBack(u: Unit)
    ensures UnitAt(Bytes(u)[0], Bytes(u)[1]) == u
  {
  }

  /** One encoded value in front of anything is decoded to itself and the rest. */
  lemma DecodeFirst(r: Rune, more: seq<byte>)
    requires Decode(more).Some?
    ensures Decode(UnitBytes(Units(r)) + more) == Some([r] + Decode(more).value)
  {
    var us := Units(r);
    if |us| == 1 {
      OneUnit(r);
      BytesReadBack(r);
      assert (Bytes(r) + more)[2..] == more;
    } else {
      TwoUnits(us[0], us[1]);
      BytesReadBack(us[0]);
      BytesReadBack(us[1]);
      assert us == [us[0], us[1]];
      var bs := Bytes(us[0]) + Bytes(us[1]) + more;
      assert bs[4..] == more;
    }
  }

  lemma {:induction false} DecodeEncoded(s: seq<Rune>)
    ensures Decode(Encode(s)) == Some(s)
  {
    if s != [] {
      DecodeEncoded(s[1..]);
      DecodeFirst(s[0], Encode(s[1..]));
      assert [s[0]] + s[1..] == s;
    }
  }

  /** Decoding what utf16LE writes after its byte order mark gives the text back. */
  lemma RoundTrip(s: seq<Rune>)
    ensures Decode((BOM + Encode(s))[2..]) == Some(s)
  {
    DecodeEncoded(s);
    assert (BOM + Encode(s))[2..] == Encode(s);
  }

  /** The output begins with the byte order mark U+FEFF, low byte first, so a reader that follows section 4.3
    * of RFC 2781 knows the byte order; read the other way round it would be U+FFFE, which is no character. */
  lemma StartsWithByteOrderMark(s: seq<Rune>)
    ensures
      var out := BOM + Encode(s);
      && |out| >= 2 && UnitAt(out[0], out[1]) == 0xFEFF && UnitAt(out[1], out[0]) == 0xFFFE
      && Decode(out) == Some([0xFEFF] + s)
  {
    var out := BOM + Encode(s);
    assert out[0] == 0xFF && out[1] == 0xFE && out[2..] == Encode(s);
    DecodeEncoded(s);
  }

  /** Different texts have different encodings. */
  lemma Injective(s: seq<Rune>, t: seq<Rune>)
    requires Encode(s) == Encode(t)
    ensures s == t
  {
    DecodeEncoded(s);
    DecodeEncoded(t);
  }
}
