/** The receiver's tolerant UTF-8 scanner, `bytes_to_utf8_string`: it
    decodes well-formed 1-4 byte sequences by the bit layout of section 3 of
    RFC 3629, drops one byte at any position where no such sequence starts,
    and does not reject overlong forms, surrogates or the leads 0xF5-0xF7.
    A text is a sequence of code points, the values `chr` is applied to. */
module Utf8Scan {
  import opened Common

  /** The largest value `chr` accepts; above it `chr` raises ValueError. */
  const MaxCodePoint: int := 0x10FFFF

  /** 0x80..0xBF, the continuation bytes. */
  predicate IsCont(b: byte)
  {
    0x80 <= b <= 0xBF
  }

  /** The six payload bits of a continuation byte, `b & 0x3F`. */
  function Payload(b: byte): int
  {
    b % 0x40
  }

  /** What the scanner does at the start of `b`: take a unit of `width` bytes
      whose bit formula gives `cp`, or skip one byte.  The `|` of the source
      combines disjoint bit fields, so it is written as a sum. */
  datatype Step = Char(width: nat, cp: int) | Skip

  function StepAt(b: seq<byte>): (s: Step)
    requires |b| > 0
    ensures s.Char? ==> 1 <= s.width <= 4 && s.width <= |b| && 0 <= s.cp < 0x200000
    ensures s.Char? && s.width < 4 ==> s.cp < 0x10000
  {
    var x: int := b[0];
    if x <= 0x7F then Char(1, x)
    else if 0xC0 <= x <= 0xDF && 1 < |b| && IsCont(b[1]) then
      Char(2, x % 0x20 * 0x40 + Payload(b[1]))
    else if 0xE0 <= x <= 0xEF && 2 < |b| && IsCont(b[1]) && IsCont(b[2]) then
      Char(3, x % 0x10 * 0x1000 + Payload(b[1]) * 0x40 + Payload(b[2]))
    else if 0xF0 <= x <= 0xF7 && 3 < |b| && IsCont(b[1]) && IsCont(b[2]) && IsCont(b[3]) then
      Char(4, x % 0x08 * 0x4_0000 + Payload(b[1]) * 0x1000 + Payload(b[2]) * 0x40 + Payload(b[3]))
    else Skip
  }

  /** `s` in front of the text of `o`, if there is one. */
  function Prepend(s: seq<int>, o: Option<seq<int>>): Option<seq<int>>
  {
    match o
    case None => None
    case Some(t) => Some(s + t)
  }

  lemma PrependTwice(s: seq<int>, t: seq<int>, o: Option<seq<int>>)
    ensures Prepend(s, Prepend(t, o)) == Prepend(s + t, o)
  {
    if o.Some? {
      assert s + (t + o.value) == s + t + o.value;
    }
  }

  /** The text the scanner returns for `b`, or `None` when `chr` raises. */
  function Scan(b: seq<byte>): Option<seq<int>>
    decreases |b|
  {
    if |b| == 0 then Some([])
    else match StepAt(b)
      case Skip => Scan(b[1..])
      case Char(n, cp) => if cp > MaxCodePoint then None else Prepend([cp], Scan(b[n..]))
  }

  /** One step of the scan, seen from position `i`. */
  lemma ScanAt(b: seq<byte>, i: int)
    requires 0 <= i < |b|
    ensures StepAt(b[i..]).Skip? ==> Scan(b[i..]) == Scan(b[i + 1..])
    ensures StepAt(b[i..]).Char? ==> var n := StepAt(b[i..]).width;
      Scan(b[i..]) == (if StepAt(b[i..]).cp > MaxCodePoint then None
                       else Prepend([StepAt(b[i..]).cp], Scan(b[i + n..])))
  {
    assert b[i..][1..] == b[i + 1..];
    if StepAt(b[i..]).Char? {
      assert b[i..][StepAt(b[i..]).width..] == b[i + StepAt(b[i..]).width..];
    }
  }

  /** `bytes_to_utf8_string`.  `i` grows by the width of what it takes or by
      one, so the loop ends; the result is the scan of the whole input. */
  method BytesToUtf8String(b: seq<byte>) returns (r: Option<seq<int>>)
    ensures r == Scan(b)
  {
    var s: seq<int> := [];
    var i := 0;
    assert b[0..] == b;
    if Scan(b).Some? {
      assert [] + Scan(b).value == Scan(b).value;
    }
    while i < |b|
      invariant 0 <= i <= |b|
      invariant Scan(b) == Prepend(s, Scan(b[i..]))
      decreases |b| - i
    {
      var x: int := b[i];
      ScanAt(b, i);
      assert b[i..][0] == x;
      if x <= 0x7F {
        PrependTwice(s, [x], Scan(b[i + 1..]));
        s := s + [x];
        i := i + 1;
      } else if 0xC0 <= x <= 0xDF && i + 1 < |b| && 0x80 <= b[i + 1] <= 0xBF {
        assert b[i..][1] == b[i + 1];
        PrependTwice(s, [x % 0x20 * 0x40 + Payload(b[i + 1])], Scan(b[i + 2..]));
        s := s + [x % 0x20 * 0x40 + Payload(b[i + 1])];
        i := i + 2;
      } else if 0xE0 <= x <= 0xEF && i + 2 < |b| && 0x80 <= b[i + 1] <= 0xBF && 0x80 <= b[i + 2] <= 0xBF {
        assert b[i..][1] == b[i + 1] && b[i..][2] == b[i + 2];
        PrependTwice(s, [x % 0x10 * 0x1000 + Payload(b[i + 1]) * 0x40 + Payload(b[i + 2])], Scan(b[i + 3..]));
        s := s + [x % 0x10 * 0x1000 + Payload(b[i + 1]) * 0x40 + Payload(b[i + 2])];
        i := i + 3;
      } else if 0xF0 <= x <= 0xF7 && i + 3 < |b| && 0x80 <= b[i + 1] <= 0xBF && 0x80 <= b[i + 2] <= 0xBF && 0x80 <= b[i + 3] <= 0xBF {
        assert b[i..][1] == b[i + 1] && b[i..][2] == b[i + 2] && b[i..][3] == b[i + 3];
        var cp := x % 0x08 * 0x4_0000 + Payload(b[i + 1]) * 0x1000 + Payload(b[i + 2]) * 0x40 + Payload(b[i + 3]);
        if cp > MaxCodePoint {
          // chr raises: nothing is returned
          return None;
        }
        PrependTwice(s, [cp], Scan(b[i + 4..]));
        s := s + [cp];
        i := i + 4;
      } else {
        i := i + 1;
      }
    }
    assert b[i..] == [] && s + [] == s;
    r := Some(s);
  }

  // ------------------------------------------------------------ properties

  /** At most one code point per input byte. */
  lemma {:induction false} ScanLength(b: seq<byte>)
    requires Scan(b).Some?
    ensures |Scan(b).value| <= |b|
    decreases |b|
  {
    if |b| > 0 {
      match StepAt(b)
      case Skip => ScanLength(b[1..]);
      case Char(n, cp) => ScanLength(b[n..]);
    }
  }

  /** Every byte up to 0x7F is its own code point. */
  lemma {:induction false} ScanAscii(b: seq<byte>)
    requires forall k :: 0 <= k < |b| ==> b[k] <= 0x7F
    ensures Scan(b) == Some(b)
    decreases |b|
  {
    if |b| > 0 {
      ScanAscii(b[1..]);
      assert [b[0] as int] + b[1..] == b;
    }
  }

  /** Without a byte 0xF4 or above, `chr` is never given a value beyond
      0x10FFFF, so the scan always produces a text. */
  lemma {:induction false} ScanNoError(b: seq<byte>)
    requires forall k :: 0 <= k < |b| ==> b[k] < 0xF4
    ensures Scan(b).Some?
    decreases |b|
  {
    if |b| > 0 {
      assert forall k :: 0 <= k < |b[1..]| ==> b[1..][k] == b[k + 1];
      match StepAt(b)
      case Skip => ScanNoError(b[1..]);
      case Char(n, cp) =>
        assert cp <= 3 * 0x4_0000 + 0x3FFFF;
        assert forall k :: 0 <= k < |b[n..]| ==> b[n..][k] == b[k + n];
        ScanNoError(b[n..]);
    }
  }

  /** The number of bytes a lead byte announces: 2 for 0xC0-0xDF, 3 for
      0xE0-0xEF, 4 for 0xF0-0xF7. */
  function LeadWidth(x: byte): int
  {
    if x <= 0xDF then 2 else if x <= 0xEF then 3 else 4
  }

  /** A stray continuation byte, a byte 0xF8 or above, or a lead whose unit is
      cut short (by the end of the input, or by a byte that does not continue
      it, wherever in the unit that byte comes) is dropped on its own and
      scanning resumes at the next byte. */
  lemma DropsOneByte(x: byte, rest: seq<byte>)
    requires IsCont(x) || (0xF8 <= x)
          || (0xC0 <= x <= 0xF7 &&
              !(LeadWidth(x) - 1 <= |rest| && forall k :: 0 <= k < LeadWidth(x) - 1 ==> IsCont(rest[k])))
    ensures Scan([x] + rest) == Scan(rest)
  {
    var b := [x] + rest;
    assert b[0] == x && b[1..] == rest;
    assert StepAt(b) == Skip by {
      if 0xC0 <= x <= 0xF7 {
        var n := LeadWidth(x) - 1;
        if n <= |rest| {
          var k :| 0 <= k < n && !IsCont(rest[k]);
          assert b[k + 1] == rest[k];
        }
      }
    }
  }

  // ------------------------------------------------ the RFC 3629 encoding

  /** Unicode scalar values: code points that are not surrogates. */
  predicate IsScalar(c: int)
  {
    0 <= c <= MaxCodePoint && !(0xD800 <= c <= 0xDFFF)
  }

  /** The UTF-8 encoding of one scalar value (section 3 of RFC 3629). */
  function EncodeScalar(c: int): (r: seq<byte>)
    requires IsScalar(c)
    ensures 1 <= |r| <= 4
  {
    if c < 0x80 then [c]
    else if c < 0x800 then [0xC0 + c / 0x40, 0x80 + c % 0x40]
    else if c < 0x1_0000 then [0xE0 + c / 0x1000, 0x80 + c / 0x40 % 0x40, 0x80 + c % 0x40]
    else [0xF0 + c / 0x4_0000, 0x80 + c / 0x1000 % 0x40, 0x80 + c / 0x40 % 0x40, 0x80 + c % 0x40]
  }

  predicate AllScalar(cs: seq<int>)
  {
    forall k :: 0 <= k < |cs| ==> IsScalar(cs[k])
  }

  function Encode(cs: seq<int>): seq<byte>
    requires AllScalar(cs)
  {
    if |cs| == 0 then [] else EncodeScalar(cs[0]) + Encode(cs[1..])
  }

  /** Each scalar value takes one to four bytes. */
  lemma {:induction false} EncodeLength(cs: seq<int>)
    requires AllScalar(cs)
    ensures |cs| <= |Encode(cs)| <= 4 * |cs|
    decreases |cs|
  {
    if |cs| > 0 {
      EncodeLength(cs[1..]);
    }
  }

  /** The scanner takes the encoding of one scalar value as one unit. */
  lemma StepEncoded(c: int, tail: seq<byte>)
    requires IsScalar(c)
    ensures var e := EncodeScalar(c);
      StepAt(e + tail) == Char(|e|, c) && (e + tail)[|e|..] == tail
  {
    var e := EncodeScalar(c);
    assert (e + tail)[|e|..] == tail;
    if c < 0x80 {
    } else if c < 0x800 {
      StepTwoBytes(c, tail);
    } else if c < 0x1_0000 {
      StepThreeBytes(c, tail);
    } else {
      StepFourBytes(c, tail);
    }
  }

  lemma StepTwoBytes(c: int, tail: seq<byte>)
    requires 0x80 <= c < 0x800
    ensures StepAt([0xC0 + c / 0x40, 0x80 + c % 0x40] + tail) == Char(2, c)
  {
    var b: seq<byte> := [0xC0 + c / 0x40, 0x80 + c % 0x40] + tail;
    assert b[0] == 0xC0 + c / 0x40 && b[1] == 0x80 + c % 0x40;
    assert b[0] % 0x20 == c / 0x40 && Payload(b[1]) == c % 0x40;
  }

  lemma StepThreeBytes(c: int, tail: seq<byte>)
    requires 0x800 <= c < 0x1_0000
    ensures StepAt([0xE0 + c / 0x1000, 0x80 + c / 0x40 % 0x40, 0x80 + c % 0x40] + tail) == Char(3, c)
  {
    var b: seq<byte> := [0xE0 + c / 0x1000, 0x80 + c / 0x40 % 0x40, 0x80 + c % 0x40] + tail;
    assert b[0] == 0xE0 + c / 0x1000 && b[1] == 0x80 + c / 0x40 % 0x40 && b[2] == 0x80 + c % 0x40;
    assert b[0] % 0x10 == c / 0x1000 && Payload(b[1]) == c / 0x40 % 0x40 && Payload(b[2]) == c % 0x40;
    assert c / 0x1000 * 0x1000 + c / 0x40 % 0x40 * 0x40 + c % 0x40 == c;
  }

  /** A four-byte unit, by its bit fields. */
  lemma StepFourFields(p0: int, p1: int, p2: int, p3: int, tail: seq<byte>)
    requires 0 <= p0 < 8 && 0 <= p1 < 0x40 && 0 <= p2 < 0x40 && 0 <= p3 < 0x40
    ensures StepAt([0xF0 + p0, 0x80 + p1, 0x80 + p2, 0x80 + p3] + tail)
         == Char(4, p0 * 0x4_0000 + p1 * 0x1000 + p2 * 0x40 + p3)
  {
    var b: seq<byte> := [0xF0 + p0, 0x80 + p1, 0x80 + p2, 0x80 + p3] + tail;
    assert b[0] == 0xF0 + p0 && b[1] == 0x80 + p1 && b[2] == 0x80 + p2 && b[3] == 0x80 + p3;
    assert b[0] % 0x08 == p0 && Payload(b[1]) == p1 && Payload(b[2]) == p2 && Payload(b[3]) == p3;
  }

  lemma StepFourBytes(c: int, tail: seq<byte>)
    requires 0x1_0000 <= c <= MaxCodePoint
    ensures StepAt([0xF0 + c / 0x4_0000, 0x80 + c / 0x1000 % 0x40, 0x80 + c / 0x40 % 0x40, 0x80 + c % 0x40] + tail)
         == Char(4, c)
  {
    StepFourFields(c / 0x4_0000, c / 0x1000 % 0x40, c / 0x40 % 0x40, c % 0x40, tail);
    Recompose(c);
  }

  /** Cutting a value below 2^21 into 3 + 6 + 6 + 6 bits and putting it back. */
  lemma Recompose(c: int)
    requires 0 <= c < 0x20_0000
    ensures c / 0x4_0000 < 8
    ensures c / 0x4_0000 * 0x4_0000 + c / 0x1000 % 0x40 * 0x1000 + c / 0x40 % 0x40 * 0x40 + c % 0x40 == c
  {
    var q1 := c / 0x40;
    var q2 := c / 0x1000;
    assert c == q1 * 0x40 + c % 0x40;
    assert q2 * 0x1000 <= c < q2 * 0x1000 + 0x1000;
    assert q1 == q2 * 0x40 + q1 % 0x40 by {
      assert q2 * 0x40 <= q1 < q2 * 0x40 + 0x40;
    }
    assert q2 == c / 0x4_0000 * 0x40 + q2 % 0x40;
  }

  /** Round trip: the scanner gives back every string of scalar values from
      its RFC 3629 encoding. */
  lemma {:induction false} ScanEncode(cs: seq<int>)
    requires AllScalar(cs)
    ensures Scan(Encode(cs)) == Some(cs)
    decreases |cs|
  {
    if |cs| > 0 {
      var tail := Encode(cs[1..]);
      StepEncoded(cs[0], tail);
      ScanEncode(cs[1..]);
      assert [cs[0]] + cs[1..] == cs;
    }
  }

  // ------------------------------------------------------------- examples

  /** The leniencies: an overlong NUL and a surrogate are decoded, and a
      4-byte unit above 0x10FFFF makes `chr` raise. */
  lemma Leniencies()
    ensures Scan([0xC0, 0x80]) == Some([0])
    ensures Scan([0xED, 0xA0, 0x80]) == Some([0xD800])
    ensures Scan([0xF4, 0x90, 0x80, 0x80]) == None
    ensures Scan([0xF7, 0xBF, 0xBF, 0xBF, 0x41]) == None
  {
    var a: seq<byte> := [0xC0, 0x80];
    assert StepAt(a) == Char(2, 0) && a[2..] == [];
    assert Scan(a[2..]) == Some([]) && [0] + [] == [0];
    var s: seq<byte> := [0xED, 0xA0, 0x80];
    assert StepAt(s) == Char(3, 0xD800) && s[3..] == [];
    assert Scan(s[3..]) == Some([]) && [0xD800] + [] == [0xD800];
    var f: seq<byte> := [0xF4, 0x90, 0x80, 0x80];
    assert StepAt(f) == Char(4, 0x11_0000);
    var g: seq<byte> := [0xF7, 0xBF, 0xBF, 0xBF, 0x41];
    assert StepAt(g) == Char(4, 0x1F_FFFF);
  }
}
