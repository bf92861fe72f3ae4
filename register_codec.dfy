/** The four CC2500 field derivations of the receiver firmware: each turns a
    physical value (Hz, bit/s) into the `[address, value]` list the firmware
    writes, given the byte it read back from the register it shares.
    Arithmetic is exact: Python's floats are replaced by reals, `int()` by
    truncation toward zero and `math.log2` by an exact, truncated log2. */
module RegisterCodec {
  import opened Common

  /** `F_XOSC`, the CC2500 crystal, in Hz. */
  const F_XOSC: int := 26000000
  const FX: real := 26000000.0

  /** The exceptions the derivations can raise before anything is written:
      `math.log2` of a value that is not positive, a division by zero, and
      `1 << e` with a negative `e`. */
  datatype CodecError = MathDomain | ZeroDivision | NegativeShift

  datatype Outcome<+T> = Ok(value: T) | Fail(error: CodecError)

  /** One `[address, value]` pair of a write list; `value` is the Python int
      as computed, which may lie outside 0..255. */
  datatype RegWrite = RegWrite(addr: byte, value: int)

  /** Python's `int(v)` on a float: truncation toward zero. */
  function Trunc(v: real): (r: int)
    ensures v >= 0.0 ==> r >= 0 && r as real <= v < r as real + 1.0
    ensures v < 0.0 ==> r <= 0 && r as real - 1.0 < v <= r as real
  {
    if v >= 0.0 then v.Floor else -((-v).Floor)
  }

  /** `b & 0xF0` for an octet. */
  function HighNibble(b: byte): int
  {
    b / 16 * 16
  }

  /** The largest `e` with 2^e <= y. */
  function FloorLog2(y: real): (e: nat)
    requires y >= 1.0
    ensures Pow2(e) as real <= y < 2.0 * Pow2(e) as real
    decreases y.Floor
  {
    if y < 2.0 then 0 else FloorLog2(y / 2.0) + 1
  }

  /** `int(math.log2(x))` computed exactly: log2 x truncated toward zero, so
      for x < 1 it is minus the floor of log2 (1/x). */
  function TruncLog2(x: real): (e: int)
    requires x > 0.0
    ensures x >= 1.0 ==> e >= 0 && Pow2(e) as real <= x < 2.0 * Pow2(e) as real
    ensures x < 1.0 ==> e <= 0 && Pow2(-e) as real <= 1.0 / x < 2.0 * Pow2(-e) as real
  {
    if x >= 1.0 then FloorLog2(x)
    else
      DivBounds(1.0, x, 1.0, 1.0);
      var k: int := FloorLog2(1.0 / x);
      -k
  }

  /** The exponent 2^e <= y < 2^(e+1) pins down is FloorLog2(y). */
  lemma FloorLog2Unique(y: real, k: nat)
    requires Pow2(k) as real <= y < 2.0 * Pow2(k) as real
    ensures y >= 1.0 && FloorLog2(y) == k
  {
    var e := FloorLog2(y);
    if e < k {
      Pow2Monotone(e, k);
    } else if k < e {
      Pow2Monotone(k, e);
    }
  }

  /** Dividing by a positive quantity keeps strict and non-strict bounds. */
  lemma DivBounds(a: real, b: real, lo: real, hi: real)
    requires b > 0.0
    ensures lo * b <= a <==> lo <= a / b
    ensures a < hi * b <==> a / b < hi
  {
  }

  /** The mantissa step the derivations share: when a/b lies in
      [base, 2 base), int(a/b - base) is a mantissa below `base` and
      (base + m) b <= a < (base + m + 1) b. */
  lemma Bracket(a: real, b: real, base: int, m: int)
    requires b > 0.0 && base > 0
    requires base as real * b <= a < 2.0 * base as real * b
    requires m == Trunc(a / b - base as real)
    ensures 0 <= m < base
    ensures Brackets(a, b, base + m)
  {
    DivBounds(a, b, base as real, 2.0 * base as real);
    DivBounds(a, b, (base + m) as real, (base + m + 1) as real);
  }

  /** `k` steps of `b` reach `a` and `k + 1` steps pass it. */
  predicate Brackets(a: real, b: real, k: int)
  {
    k as real * b <= a < (k + 1) as real * b
  }

  // ---------------------------------------------------------------- data rate

  /** `(drate_e, drate_m)` as set_datarate_RX computes them. */
  function DataRateFields(rate: int): Outcome<(int, int)>
  {
    if rate <= 0 then Fail(MathDomain)
    else
      var e := TruncLog2(rate as real * 1048576.0 / FX);
      if e < 0 then Fail(NegativeShift)
      else Ok((e, Trunc(rate as real * 268435456.0 / (FX * Pow2(e) as real) - 256.0)))
  }

  /** The list set_datarate_RX writes, `current` being byte [0] of its read of 0x10. */
  function DataRateWrites(rate: int, current: byte): Outcome<seq<RegWrite>>
  {
    match DataRateFields(rate)
    case Fail(err) => Fail(err)
    case Ok((e, m)) => Ok([RegWrite(0x10, HighNibble(current) + e % 16), RegWrite(0x11, m)])
  }

  /** For a rate with rate*2^20/F_XOSC >= 1 the mantissa fits its byte and the
      pair (e, m) brackets the rate: (256+m)*2^e*F/2^28 <= rate < (257+m)*2^e*F/2^28. */
  lemma DataRateInRange(rate: int)
    requires rate * 1048576 >= F_XOSC
    ensures DataRateFields(rate).Ok?
    ensures var (e, m) := DataRateFields(rate).value;
      e >= 0 && 0 <= m <= 255 && Brackets(rate as real * 268435456.0, FX * Pow2(e) as real, 256 + m)
  {
    var x := rate as real * 1048576.0 / FX;
    DivBounds(rate as real * 1048576.0, FX, 1.0, 1.0);
    var e := TruncLog2(x);
    DivBounds(rate as real * 1048576.0, FX, Pow2(e) as real, 2.0 * Pow2(e) as real);
    var m := Trunc(rate as real * 268435456.0 / (FX * Pow2(e) as real) - 256.0);
    Bracket(rate as real * 268435456.0, FX * Pow2(e) as real, 256, m);
  }

  /** Register 0x10 keeps the high nibble of the byte read back with the
      exponent's low four bits below it; register 0x11 receives the mantissa. */
  lemma DataRateRegisters(rate: int, current: byte)
    requires rate * 1048576 >= F_XOSC
    ensures DataRateWrites(rate, current).Ok?
    ensures var w := DataRateWrites(rate, current).value;
      var (e, m) := DataRateFields(rate).value;
      |w| == 2 && w[0].addr == 0x10 && w[1].addr == 0x11 &&
      0 <= w[0].value < 256 && w[0].value / 16 == current / 16 && w[0].value % 16 == e % 16 &&
      w[1].value == m && 0 <= m < 256
  {
    DataRateInRange(rate);
    var (e, m) := DataRateFields(rate).value;
    NibbleJoin(current, e % 16);
  }

  /** The high nibble of `c` with `x` below it: an octet that splits back. */
  lemma NibbleJoin(c: byte, x: int)
    requires 0 <= x < 16
    ensures var v := HighNibble(c) + x;
      0 <= v < 256 && v / 16 == c / 16 && v % 16 == x
  {
    DivUnique(HighNibble(c) + x, 16, c / 16, x);
  }

  /** Quotient and remainder are determined by n = q d + r with 0 <= r < d. */
  lemma DivUnique(n: int, d: int, q: int, r: int)
    requires d > 0 && 0 <= r < d && n == q * d + r
    ensures n / d == q && n % d == r
  {
    var k := n / d - q;
    assert k * d == r - n % d;
    if k >= 1 {
      MulAtLeast(k, d);
    } else if k <= -1 {
      MulAtLeast(-k, d);
    }
  }

  lemma {:induction false} MulAtLeast(k: int, d: int)
    requires k >= 1 && d > 0
    ensures k * d >= d
    decreases k
  {
    if k > 1 {
      MulAtLeast(k - 1, d);
      assert k * d == (k - 1) * d + d;
    }
  }

  /** The shipped configuration, 100 kbit/s: exponent 11, mantissa 248, which
      stands for about 99976 bit/s. */
  lemma DataRateShipped()
    ensures DataRateFields(100000) == Ok((11, 248))
  {
    var x := 100000.0 * 1048576.0 / FX;
    assert Pow2(11) == 2048;
    FloorLog2Unique(x, 11);
    var q := 100000.0 * 268435456.0 / (FX * 2048.0);
    assert 248.0 <= q - 256.0 < 249.0;
  }

  // ---------------------------------------------------------------- deviation

  /** `(deviation_e, deviation_m)` as set_freq_deviation_RX computes them. */
  function DeviationFields(dev: int): Outcome<(int, int)>
  {
    if dev <= 0 then Fail(MathDomain)
    else
      var e := TruncLog2(dev as real * 16384.0 / FX);
      if e < 0 then Fail(NegativeShift)
      else Ok((e, Trunc(dev as real * 131072.0 / (Pow2(e) as real * FX) - 8.0)))
  }

  /** The one-pair list set_freq_deviation_RX writes to DEVIATN (0x15). */
  function DeviationWrites(dev: int): Outcome<seq<RegWrite>>
  {
    match DeviationFields(dev)
    case Fail(err) => Fail(err)
    case Ok((e, m)) => Ok([RegWrite(0x15, e % 8 * 16 + m % 8)])
  }

  /** For dev*2^14/F_XOSC >= 1 the mantissa lies in 0..7, the pair brackets
      the deviation, and 0x15 holds (e & 7) << 4 plus the mantissa. */
  lemma DeviationInRange(dev: int)
    requires dev * 16384 >= F_XOSC
    ensures DeviationFields(dev).Ok?
    ensures var (e, m) := DeviationFields(dev).value;
      e >= 0 && 0 <= m <= 7 && Brackets(dev as real * 131072.0, Pow2(e) as real * FX, 8 + m)
  {
    var x := dev as real * 16384.0 / FX;
    DivBounds(dev as real * 16384.0, FX, 1.0, 1.0);
    var e := TruncLog2(x);
    DivBounds(dev as real * 16384.0, FX, Pow2(e) as real, 2.0 * Pow2(e) as real);
    var m := Trunc(dev as real * 131072.0 / (Pow2(e) as real * FX) - 8.0);
    Bracket(dev as real * 131072.0, Pow2(e) as real * FX, 8, m);
  }

  /** In range, DEVIATN (0x15) holds the exponent's low three bits in bits
      6-4 and the mantissa in bits 2-0. */
  lemma DeviationRegister(dev: int)
    requires dev * 16384 >= F_XOSC
    ensures DeviationWrites(dev).Ok?
    ensures var (e, m) := DeviationFields(dev).value;
      var w := DeviationWrites(dev).value;
      |w| == 1 && w[0].addr == 0x15 && 0 <= w[0].value < 0x80 &&
      w[0].value / 16 == e % 8 && w[0].value % 16 == m
  {
    DeviationInRange(dev);
  }

  /** The shipped deviation, 347222 Hz: exponent 7, mantissa 5, DEVIATN = 0x75. */
  lemma DeviationShipped()
    ensures DeviationFields(347222) == Ok((7, 5))
    ensures DeviationWrites(347222) == Ok([RegWrite(0x15, 0x75)])
  {
    var x := 347222.0 * 16384.0 / FX;
    assert Pow2(7) == 128;
    FloorLog2Unique(x, 7);
    var q := 347222.0 * 131072.0 / (128.0 * FX);
    assert 5.0 <= q - 8.0 < 6.0;
  }

  // ---------------------------------------------------------------- bandwidth

  /** The argument of the log in set_filter_bandwidth_RX,
      F_XOSC / (32 * bw) / log2(2.0), where log2(2.0) is exactly 1. */
  function BandwidthRatio(bw: int): real
    requires bw != 0
  {
    FX / (32.0 * bw as real) / 1.0
  }

  /** `chanbw_m` for exponent `e`. */
  function BandwidthMantissa(bw: int, e: nat): int
    requires bw != 0
  {
    Trunc(FX / (8.0 * bw as real * Pow2(e) as real) - 4.0)
  }

  /** `(chanbw_e, chanbw_m)` as set_filter_bandwidth_RX computes them. */
  function BandwidthFields(bw: int): Outcome<(int, int)>
  {
    if bw == 0 then Fail(ZeroDivision)
    else if BandwidthRatio(bw) <= 0.0 then Fail(MathDomain)
    else
      var e := TruncLog2(BandwidthRatio(bw));
      if e < 0 then Fail(NegativeShift)
      else Ok((e, BandwidthMantissa(bw, e)))
  }

  /** The one-pair list set_filter_bandwidth_RX writes, `current` being byte
      [0] of its read of 0x10. */
  function BandwidthWrites(bw: int, current: byte): Outcome<seq<RegWrite>>
  {
    match BandwidthFields(bw)
    case Fail(err) => Fail(err)
    case Ok((e, m)) => Ok([RegWrite(0x10, e % 4 * 64 + m % 4 * 16 + current % 16)])
  }

  /** For F_XOSC/(32*bw) >= 1 the exponent is the e >= 0 with
      2^e * 32 * bw <= F_XOSC < 2^(e+1) * 32 * bw. */
  lemma BandwidthExponent(bw: int)
    requires bw > 0 && F_XOSC >= 32 * bw
    ensures BandwidthRatio(bw) >= 1.0
    ensures var e := TruncLog2(BandwidthRatio(bw));
      e >= 0 && Pow2(e) as real * (32.0 * bw as real) <= FX < 2.0 * Pow2(e) as real * (32.0 * bw as real)
  {
    var c := 32.0 * bw as real;
    DivBounds(FX, c, 1.0, 1.0);
    var x := BandwidthRatio(bw);
    assert x == FX / c;
    var p := Pow2(TruncLog2(x)) as real;
    DivBounds(FX, c, p, 2.0 * p);
  }

  /** Given that exponent, the mantissa lies in 0..3 and brackets F_XOSC. */
  lemma BandwidthMantissaRange(bw: int, e: nat)
    requires bw > 0
    requires Pow2(e) as real * (32.0 * bw as real) <= FX < 2.0 * Pow2(e) as real * (32.0 * bw as real)
    ensures var m := BandwidthMantissa(bw, e);
      0 <= m <= 3 && Brackets(FX, 8.0 * bw as real * Pow2(e) as real, 4 + m)
  {
    var b := 8.0 * bw as real * Pow2(e) as real;
    assert 4.0 * b == Pow2(e) as real * (32.0 * bw as real);
    Bracket(FX, b, 4, BandwidthMantissa(bw, e));
  }

  /** For F_XOSC/(32*bw) >= 1 the mantissa lies in 0..3 and the pair brackets
      the bandwidth: F/(8*(5+m)*2^e) < bw <= F/(8*(4+m)*2^e). */
  lemma BandwidthInRange(bw: int)
    requires bw > 0 && F_XOSC >= 32 * bw
    ensures BandwidthFields(bw).Ok?
    ensures var (e, m) := BandwidthFields(bw).value;
      e >= 0 && 0 <= m <= 3 && Brackets(FX, 8.0 * bw as real * Pow2(e) as real, 4 + m)
  {
    BandwidthExponent(bw);
    var e := TruncLog2(BandwidthRatio(bw));
    BandwidthMantissaRange(bw, e);
    assert BandwidthFields(bw) == Ok((e, BandwidthMantissa(bw, e)));
  }

  /** In range, 0x10 keeps the low nibble of the byte read back and holds the
      exponent's low two bits in bits 7-6 and the mantissa in bits 5-4. */
  lemma BandwidthRegister(bw: int, current: byte)
    requires bw > 0 && F_XOSC >= 32 * bw
    ensures BandwidthWrites(bw, current).Ok?
    ensures var (e, m) := BandwidthFields(bw).value;
      var w := BandwidthWrites(bw, current).value;
      |w| == 1 && w[0].addr == 0x10 && 0 <= w[0].value < 256 &&
      w[0].value / 64 == e % 4 && w[0].value / 16 % 4 == m && w[0].value % 16 == current % 16
  {
    assert BandwidthFields(bw).Ok? && 0 <= BandwidthFields(bw).value.0 && 0 <= BandwidthFields(bw).value.1 <= 3 by {
      BandwidthInRange(bw);
    }
    var (e, m) := BandwidthFields(bw).value;
    assert BandwidthWrites(bw, current) == Ok([RegWrite(0x10, e % 4 * 64 + m % 4 * 16 + current % 16)]);
    PackFields(e % 4, m % 4, current % 16);
  }

  /** Placing a 2-bit, a 2-bit and a 4-bit field in bits 7-6, 5-4 and 3-0. */
  lemma PackFields(a: int, b: int, c: int)
    requires 0 <= a < 4 && 0 <= b < 4 && 0 <= c < 16
    ensures var v := a * 64 + b * 16 + c;
      0 <= v < 256 && v / 64 == a && v / 16 % 4 == b && v % 16 == c
  {
  }

  /** The shipped bandwidth, 794444 Hz: exponent 0, mantissa 0. */
  lemma BandwidthShipped()
    ensures BandwidthFields(794444) == Ok((0, 0))
  {
    var x := FX / (32.0 * 794444.0) / 1.0;
    FloorLog2Unique(x, 0);
    assert BandwidthRatio(794444) == x;
    var q := FX / (8.0 * 794444.0 * 1.0);
    assert 0.0 <= q - 4.0 < 1.0;
  }

  // ---------------------------------------------------------------- frequency

  /** `freq`: the 24-bit FREQ word, int(frequency * (2^16 / F_XOSC)). */
  function FreqWord(f: int): int
  {
    Trunc(f as real * (65536.0 / FX))
  }

  /** `channspc_m` as set_frequency_RX computes it. */
  function ChannelSpacingMantissa(f: int): int
  {
    Trunc((f as real * 65536.0 / FX - FreqWord(f) as real - 64.0) * 4.0)
  }

  /** The list set_frequency_RX writes, `current` being byte [0] of its read
      of 0x13.  `channel` and `channspc_e` are the constants 0. */
  function FrequencyWrites(f: int, current: byte): seq<RegWrite>
  {
    var freq := FreqWord(f);
    var channel := 0;
    var spacingExp := 0;
    [RegWrite(0x0a, channel),
     RegWrite(0x0d, freq % 0x80_0000 / 0x1_0000),
     RegWrite(0x0e, freq % 0x1_0000 / 0x100),
     RegWrite(0x0f, freq % 0x100 - 1),
     RegWrite(0x13, HighNibble(current) + spacingExp % 4 + 32),
     RegWrite(0x14, ChannelSpacingMantissa(f))]
  }

  /** FREQ is the floor of f*2^16/F_XOSC, and channspc_m, four times the
      fractional part less 64, lies in -256..-252. */
  lemma FreqWordBounds(f: int)
    requires f >= 0
    ensures var freq := FreqWord(f);
      freq >= 0 && freq as real * FX <= f as real * 65536.0 < (freq + 1) as real * FX &&
      -256 <= ChannelSpacingMantissa(f) <= -252
  {
    var freq := FreqWord(f);
    var y := f as real * 65536.0 / FX;
    assert f as real * (65536.0 / FX) == y;
    DivBounds(f as real * 65536.0, FX, freq as real, (freq + 1) as real);
    var frac := y - freq as real;
    assert 0.0 <= frac < 1.0;
    assert -256.0 <= (frac - 64.0) * 4.0 < -252.0;
  }

  /** The masks and shifts of set_frequency_RX cut a non-negative word into
      bits 22-16, 15-8 and 7-0, which reassemble it modulo 2^23. */
  lemma FreqBytes(freq: int)
    requires freq >= 0
    ensures freq % 0x80_0000 / 0x1_0000 == freq / 0x1_0000 % 0x80
    ensures freq % 0x1_0000 / 0x100 == freq / 0x100 % 0x100
    ensures freq % 0x80_0000 / 0x1_0000 * 0x1_0000 + freq % 0x1_0000 / 0x100 * 0x100 + freq % 0x100 == freq % 0x80_0000
  {
    var hi := freq / 0x80_0000;
    var r := freq % 0x80_0000;
    var a := r / 0x1_0000;
    var r1 := r % 0x1_0000;
    var b := r1 / 0x100;
    var c := r1 % 0x100;
    DivUnique(freq, 0x1_0000, hi * 0x80 + a, r1);
    DivUnique(freq / 0x1_0000, 0x80, hi, a);
    DivUnique(freq, 0x100, (hi * 0x80 + a) * 0x100 + b, c);
    DivUnique(freq / 0x100, 0x100, hi * 0x80 + a, b);
  }

  /** For a non-negative frequency: 0x0a gets 0; 0x0d, 0x0e get bits 22-16
      and 15-8 of FREQ and 0x0f bits 7-0 minus one, so that the three
      reassemble FREQ mod 2^23 once 0x0f is incremented back; channspc_m lies
      in -256..-252; 0x13 is (read & 0xF0) + 32. */
  lemma FrequencyRegisters(f: int, current: byte)
    requires f >= 0
    ensures var freq := FreqWord(f);
      var w := FrequencyWrites(f, current);
      |w| == 6 &&
      w[0] == RegWrite(0x0a, 0) &&
      w[1].addr == 0x0d && w[1].value == freq / 0x1_0000 % 0x80 &&
      w[2].addr == 0x0e && w[2].value == freq / 0x100 % 0x100 &&
      w[3].addr == 0x0f && w[3].value == freq % 0x100 - 1 &&
      w[1].value * 0x1_0000 + w[2].value * 0x100 + (w[3].value + 1) == freq % 0x80_0000 &&
      w[4].addr == 0x13 && w[4].value == HighNibble(current) + 32 &&
      w[5].addr == 0x14 && -256 <= w[5].value <= -252
  {
    FreqWordBounds(f);
    FreqBytes(FreqWord(f));
  }

  /** When the low byte of FREQ is zero, 0x0f is written -1, which goes on the
      wire as 0xFF: the decrement borrows out of the byte. */
  lemma FrequencyLowByteUnderflow(f: int, current: byte)
    requires FreqWord(f) % 0x100 == 0
    ensures FrequencyWrites(f, current)[3].value == -1
    ensures Wire8(FrequencyWrites(f, current)[3].value) == 0xFF
  {
  }

  /** 0x13 is built by adding 32, not OR-ing it in: bits 3-0 are clear, bit 5
      of the result is the complement of bit 5 of the byte read back, and the
      value leaves the byte range exactly when that byte is 0xE0 or more. */
  lemma FrequencyMdmcfg1Carry(f: int, current: byte)
    ensures var v := FrequencyWrites(f, current)[4].value;
      v % 16 == 0 &&
      (v / 32 % 2 == 1 <==> current / 32 % 2 == 0) &&
      (v < 256 <==> current < 0xE0)
  {
    var h := current / 16;
    var v := FrequencyWrites(f, current)[4].value;
    assert v == h * 16 + 32;
    assert v / 32 == h / 2 + 1 && current / 32 == h / 2;
  }

  /** The shipped carrier 2456597222 Hz: FREQ = 0x5E7C08, written as 0x5E,
      0x7C, 0x07, with channspc_m = -252. */
  lemma FrequencyShipped(current: byte)
    ensures FreqWord(2456597222) == 0x5E7C08
    ensures var w := FrequencyWrites(2456597222, current);
      w[1].value == 0x5E && w[2].value == 0x7C && w[3].value == 0x07 && w[5].value == -252
  {
    var y := 2456597222.0 * 65536.0 / FX;
    assert 2456597222.0 * (65536.0 / FX) == y;
    assert 0x5E7C08 as real <= y < 0x5E7C09 as real;
    assert -253.0 <= (y - 0x5E7C08 as real - 64.0) * 4.0 < -252.0;
  }
}
