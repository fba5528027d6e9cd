/**
 * The hyphenated text form of a partition GUID (`part_guid.hyphenated()`):
 * 32 lower-case hexadecimal digits of the 16 bytes in order, grouped 8-4-4-4-12.
 */
module GuidFormat {
  import opened Wrappers
  import opened Api

  type Guid = s: seq<byte> | |s| == 16 witness seq(16, i => 0)

  function HexDigit(n: nat): (c: char)
    requires n < 16
  {
    if n < 10 then ('0' as int + n) as char else ('a' as int + n - 10) as char
  }

  /** The value of one lower-case hexadecimal digit. */
  function HexValue(c: char): (r: Option<nat>)
    ensures r.Some? ==> r.value < 16 && HexDigit(r.value) == c
    ensures forall n: nat :: n < 16 && HexDigit(n) == c ==> r == Some(n)
  {
    if '0' <= c <= '9' then Some(c as int - '0' as int)
    else if 'a' <= c <= 'f' then Some(c as int - 'a' as int + 10)
    else None
  }

  function Hex(bs: seq<byte>): (s: string)
    ensures |s| == 2 * |bs|
  {
    if bs == [] then [] else [HexDigit(bs[0] / 16), HexDigit(bs[0] % 16)] + Hex(bs[1..])
  }

  /** Reads back a string of hexadecimal digit pairs. */
  function ParseHex(s: string): (r: Option<seq<byte>>)
    ensures r.Some? ==> 2 * |r.value| == |s|
  {
    if s == [] then Some([])
    else if |s| == 1 then None
    else match (HexValue(s[0]), HexValue(s[1]), ParseHex(s[2..]))
      case (Some(hi), Some(lo), Some(rest)) => Some([hi * 16 + lo] + rest)
      case _ => None
  }

  lemma {:induction false} HexAppend(a: seq<byte>, b: seq<byte>)
    ensures Hex(a + b) == Hex(a) + Hex(b)
  {
    if a != [] {
      assert (a + b)[0] == a[0];
      assert (a + b)[1..] == a[1..] + b;
      HexAppend(a[1..], b);
    } else {
      assert a + b == b;
    }
  }

  /** Reading back the hexadecimal text of some bytes yields those bytes. */
  lemma {:induction false} ParseHexOfHex(bs: seq<byte>)
    ensures ParseHex(Hex(bs)) == Some(bs)
  {
    if bs != [] {
      var s := Hex(bs);
      var hi, lo := bs[0] / 16, bs[0] % 16;
      assert s[0] == HexDigit(hi) && s[1] == HexDigit(lo);
      assert s[2..] == Hex(bs[1..]);
      ParseHexOfHex(bs[1..]);
      assert HexValue(s[0]) == Some(hi) && HexValue(s[1]) == Some(lo);
      assert [hi * 16 + lo] + bs[1..] == bs;
    }
  }

  function Hyphenated(g: Guid): (s: string)
    ensures |s| == 36
    ensures s[8] == '-' && s[13] == '-' && s[18] == '-' && s[23] == '-'
    ensures s[..8] + s[9..13] + s[14..18] + s[19..23] + s[24..] == Hex(g)
  {
    var s := Hex(g[..4]) + "-" + Hex(g[4..6]) + "-" + Hex(g[6..8]) + "-" + Hex(g[8..10]) + "-" + Hex(g[10..]);
    assert s[..8] == Hex(g[..4]);
    assert s[9..13] == Hex(g[4..6]);
    assert s[14..18] == Hex(g[6..8]);
    assert s[19..23] == Hex(g[8..10]);
    assert s[24..] == Hex(g[10..]);
    HexAppend(g[..4], g[4..6]);
    HexAppend(g[..6], g[6..8]);
    HexAppend(g[..8], g[8..10]);
    HexAppend(g[..10], g[10..]);
    assert g[..4] + g[4..6] == g[..6];
    assert g[..6] + g[6..8] == g[..8];
    assert g[..8] + g[8..10] == g[..10];
    assert g[..10] + g[10..] == g;
    s
  }

  /** Reads a GUID back from its hyphenated text form. */
  function ParseHyphenated(s: string): (r: Option<Guid>)
    ensures r.Some? ==> |s| == 36 && s[8] == '-' && s[13] == '-' && s[18] == '-' && s[23] == '-'
  {
    if |s| == 36 && s[8] == '-' && s[13] == '-' && s[18] == '-' && s[23] == '-' then
      match ParseHex(s[..8] + s[9..13] + s[14..18] + s[19..23] + s[24..])
      case Some(bs) => Some(bs)
      case None => None
    else None
  }

  /** The uuid text of a partition determines its GUID: formatting loses nothing. */
  lemma ParseHyphenatedOfHyphenated(g: Guid)
    ensures ParseHyphenated(Hyphenated(g)) == Some(g)
  {
    ParseHexOfHex(g);
  }

  lemma HyphenatedInjective(g1: Guid, g2: Guid)
    requires Hyphenated(g1) == Hyphenated(g2)
    ensures g1 == g2
  {
    ParseHyphenatedOfHyphenated(g1);
    ParseHyphenatedOfHyphenated(g2);
  }
}
