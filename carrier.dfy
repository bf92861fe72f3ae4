/** The ADF4351 carrier synthesiser driver: a six-word register image kept
    in memory and updated in place, shifted out word by word, R5 first,
    each word as four big-endian bytes inside one latch-enable frame. */
module Carrier {
  import opened Common
  import opened Bus
  import opened RegisterCodec

  /** `ADF4351_REGISTERS` as the module defines it, R0 first. */
  const DefaultImage: seq<int> := [0x00620000, 0x08008011, 0x004B3CC2, 0x000004B3, 0x00AC803C, 0x00580005]

  /** `ref_clk`'s default in set_frequency, in Hz. */
  const DefaultReference: int := 25000000

  /** 2^32: `to_bytes(4, "big")` accepts exactly the ints in 0 .. 2^32 - 1. */
  const WordLimit: int := 0x1_0000_0000

  /** The exceptions of the carrier driver: `f_out_hz / ref_clk` with a zero
      reference, and `to_bytes` of a word that does not fit four bytes. */
  datatype TxError = ZeroDivisionError | OverflowError

  predicate Fits(w: int)
  {
    0 <= w < WordLimit
  }

  // ------------------------------------------------------------ one word

  /** `w.to_bytes(4, "big")`: most significant byte first. */
  function WordBytes(w: int): (b: seq<byte>)
    requires Fits(w)
    ensures |b| == 4
  {
    [w / 0x100_0000, w / 0x1_0000 % 0x100, w / 0x100 % 0x100, w % 0x100]
  }

  /** The word the chip assembles from four bytes shifted in MSB first. */
  function WordOf(b: seq<byte>): (w: int)
    requires |b| == 4
    ensures w == b[0] as int * 0x100_0000 + b[1] as int * 0x1_0000 + b[2] as int * 0x100 + b[3] as int
    ensures Fits(w)
  {
    ((b[0] as int * 0x100 + b[1] as int) * 0x100 + b[2] as int) * 0x100 + b[3] as int
  }

  /** The chip receives exactly the word that was sent. */
  lemma WordRoundTrip(w: int)
    requires Fits(w)
    ensures WordOf(WordBytes(w)) == w
  {
    var q1 := w / 0x100;
    var q2 := w / 0x1_0000;
    assert w == q1 * 0x100 + w % 0x100;
    assert q1 == q2 * 0x100 + q1 % 0x100 by {
      assert q2 * 0x100 <= q1 < q2 * 0x100 + 0x100;
    }
    assert q2 == w / 0x100_0000 * 0x100 + q2 % 0x100 by {
      assert w / 0x100_0000 * 0x100 <= q2 < w / 0x100_0000 * 0x100 + 0x100;
    }
    assert w / 0x1_0000 % 0x100 == q2 % 0x100 && w / 0x100 % 0x100 == q1 % 0x100;
  }

  /** ... and every four bytes are the encoding of the word they stand for. */
  lemma BytesRoundTrip(b: seq<byte>)
    requires |b| == 4
    ensures WordBytes(WordOf(b)) == b
  {
    var w := WordOf(b);
    assert w / 0x100 == (b[0] as int * 0x100 + b[1] as int) * 0x100 + b[2] as int;
    assert w / 0x1_0000 == b[0] as int * 0x100 + b[1] as int;
    assert w / 0x100_0000 == b[0];
  }

  /** adf4351_write_reg's frame: LE low, the four bytes, LE high. */
  function WordEvents(w: int): seq<Event>
    requires Fits(w)
  {
    Frame(CarrierLe, [Event.Write(WordBytes(w))])
  }

  function WordTxn(w: int): Txn
    requires Fits(w)
  {
    Txn(CarrierLe, WordBytes(w), [])
  }

  /** adf4351_write_reg: `to_bytes` raises before LE is touched when the word
      does not fit, otherwise one frame goes out. */
  method WriteReg(bus: SpiBus, reg: int) returns (ok: bool)
    modifies bus
    ensures ok <==> Fits(reg)
    ensures bus.trace == old(bus.trace) + (if ok then WordEvents(reg) else [])
  {
    if !Fits(reg) {
      return false;
    }
    var data := WordBytes(reg);
    bus.Select(CarrierLe);
    bus.Write(data);
    bus.Release(CarrierLe);
    ok := true;
  }

  lemma ParseWord(w: int)
    requires Fits(w)
    ensures Parse(WordEvents(w)) == Some([WordTxn(w)])
  {
    ParseSingle(CarrierLe, Event.Write(WordBytes(w)));
  }

  // ------------------------------------------------------- the whole image

  /** What setup_TX sends for the first `k` words of `img`: img[k-1] down to
      img[0], up to the first word that does not fit, where it raises. */
  function DownFrom(img: seq<int>, k: nat): seq<Event>
    requires k <= |img|
  {
    if k == 0 then []
    else if !Fits(img[k - 1]) then []
    else WordEvents(img[k - 1]) + DownFrom(img, k - 1)
  }

  /** Every word below `k` fits four bytes. */
  predicate FitsBelow(img: seq<int>, k: nat)
    requires k <= |img|
  {
    forall j :: 0 <= j < k ==> Fits(img[j])
  }

  /** The transactions the chip sees when all of img[..k] fits: the words
      from img[k-1] down to img[0]. */
  function DownTxns(img: seq<int>, k: nat): (t: seq<Txn>)
    requires k <= |img| && FitsBelow(img, k)
    ensures |t| == k
  {
    if k == 0 then [] else [WordTxn(img[k - 1])] + DownTxns(img, k - 1)
  }

  lemma {:induction false} DownTxnsAt(img: seq<int>, k: nat, i: nat)
    requires k <= |img| && FitsBelow(img, k) && i < k
    ensures DownTxns(img, k)[i] == WordTxn(img[k - 1 - i])
    decreases k
  {
    if i > 0 {
      DownTxnsAt(img, k - 1, i - 1);
    }
  }

  /** When every word fits, the frames parse as one transaction per word,
      in descending register order. */
  lemma {:induction false} ParseDown(img: seq<int>, k: nat)
    requires k <= |img| && FitsBelow(img, k)
    ensures Parse(DownFrom(img, k)) == Some(DownTxns(img, k))
    decreases k
  {
    if k > 0 {
      ParseWord(img[k - 1]);
      ParseDown(img, k - 1);
      ParseConcat(WordEvents(img[k - 1]), DownFrom(img, k - 1), [WordTxn(img[k - 1])], DownTxns(img, k - 1));
    }
  }

  /** DownFrom looks only at the words below `n`. */
  lemma {:induction false} DownFromAgree(a: seq<int>, b: seq<int>, n: nat)
    requires n <= |a| && n <= |b| && forall i :: 0 <= i < n ==> a[i] == b[i]
    ensures DownFrom(a, n) == DownFrom(b, n)
    decreases n
  {
    if n > 0 {
      DownFromAgree(a, b, n - 1);
    }
  }

  /** A word that does not fit stops the writing: the words above it go out,
      one frame each, and nothing from it or below it. */
  lemma {:induction false} DownFromStops(img: seq<int>, k: nat, j: nat)
    requires j < k <= |img| && !Fits(img[j]) && forall i :: j < i < k ==> Fits(img[i])
    ensures |DownFrom(img, k)| == 3 * (k - 1 - j)
    ensures DownFrom(img, k) == [] <==> k == j + 1
    decreases k
  {
    if k - 1 > j {
      DownFromStops(img, k - 1, j);
    }
  }

  /** Which words go out before a word that does not fit: exactly the ones
      above it, from the top down, as if the image ended there; the chip sees
      one transaction per such word. */
  lemma {:induction false} DownFromAbove(img: seq<int>, k: nat, j: nat)
    requires j < k <= |img| && !Fits(img[j]) && forall i :: j < i < k ==> Fits(img[i])
    ensures FitsBelow(img[j + 1..k], k - 1 - j)
    ensures DownFrom(img, k) == DownFrom(img[j + 1..k], k - 1 - j)
    ensures Parse(DownFrom(img, k)) == Some(DownTxns(img[j + 1..k], k - 1 - j))
    decreases k
  {
    var sub := img[j + 1..k];
    var m := k - 1 - j;
    if m == 0 {
      assert DownFrom(img, k) == [];
    } else {
      DownFromAbove(img, k - 1, j);
      assert sub[m - 1] == img[k - 1];
      DownFromAgree(sub, img[j + 1..k - 1], m - 1);
      assert DownFrom(sub, m) == WordEvents(sub[m - 1]) + DownFrom(sub, m - 1);
      assert DownFrom(img, k) == WordEvents(img[k - 1]) + DownFrom(img, k - 1);
    }
    ParseDown(sub, m);
  }

  /** setup_TX on image `img` sends its words from the last down to R0, each
      once, and the chip latches exactly the image; the frames carry nothing
      else. */
  lemma ParseImage(img: seq<int>)
    requires FitsBelow(img, |img|)
    ensures Parse(DownFrom(img, |img|)) == Some(DownTxns(img, |img|))
    ensures forall i :: 0 <= i < |img| ==>
      DownTxns(img, |img|)[i] == WordTxn(img[|img| - 1 - i]) &&
      |DownTxns(img, |img|)[i].sent| == 4 &&
      WordOf(DownTxns(img, |img|)[i].sent) == img[|img| - 1 - i]
  {
    var n := |img|;
    ParseDown(img, n);
    forall i | 0 <= i < n
      ensures DownTxns(img, n)[i] == WordTxn(img[n - 1 - i])
      ensures WordOf(DownTxns(img, n)[i].sent) == img[n - 1 - i]
    {
      DownTxnsAt(img, n, i);
      WordRoundTrip(img[n - 1 - i]);
    }
  }

  /** The shipped image fits, so setup_TX never raises on it. */
  lemma DefaultFits()
    ensures FitsBelow(DefaultImage, 6)
  {
  }

  // ------------------------------------------------------------ the driver

  /** `PowerDown(w)` is `w & ~(3 << 3)`: bits 3 and 4 cleared. */
  function PowerDown(w: int): int
  {
    w - w / 8 % 4 * 8
  }

  /** The new R0 of set_frequency: `(INT << 15) | (FRAC << 3) | 0` with
      FRAC = 0 and INT = int(f_out_hz / ref_clk). */
  function DividerWord(f: int, ref: int): int
    requires ref != 0
  {
    Trunc(f as real / ref as real) * Pow2(15)
  }

  /** The module state of carrier.py: the register image, a list of six
      Python ints that set_frequency updates in place. */
  class Adf4351 {
    const regs: array<int>

    /** The list keeps six entries, and only R0 is ever reassigned. */
    predicate Valid()
      reads this, regs
    {
      regs.Length == 6 && regs[1..] == DefaultImage[1..]
    }

    constructor ()
      ensures Valid() && regs[..] == DefaultImage && fresh(regs)
    {
      regs := new int[6] [0x00620000, 0x08008011, 0x004B3CC2, 0x000004B3, 0x00AC803C, 0x00580005];
      new;
      assert regs[..] == DefaultImage;
    }

    /** setup_TX: the words from R5 down to R0; a word that does not fit
        raises there and ends the loop. */
    method SetupTx(bus: SpiBus) returns (err: Option<TxError>)
      requires Valid()
      modifies bus
      ensures bus.trace == old(bus.trace) + DownFrom(regs[..], 6)
      ensures err.None? <==> FitsBelow(regs[..], 6)
      ensures err.Some? ==> err.value == OverflowError
    {
      ghost var img := regs[..];
      var k := regs.Length;
      while k > 0
        invariant 0 <= k <= 6
        invariant forall j :: k <= j < 6 ==> Fits(img[j])
        invariant bus.trace + DownFrom(img, k) == old(bus.trace) + DownFrom(img, 6)
      {
        ghost var before := bus.trace;
        var ok := WriteReg(bus, regs[k - 1]);
        if !ok {
          assert DownFrom(img, k) == [];
          assert before + [] == before;
          return Some(OverflowError);
        }
        Associative(before, WordEvents(img[k - 1]), DownFrom(img, k - 1));
        k := k - 1;
      }
      assert bus.trace + [] == bus.trace;
      err := None;
    }

    /** set_frequency(f_out_hz, ref_clk): R0 := INT << 15, then setup_TX.
        With ref_clk = 0 the division raises before anything changes. */
    method SetFrequency(bus: SpiBus, f: int, ref: int) returns (err: Option<TxError>)
      requires Valid()
      modifies bus, regs
      ensures Valid()
      ensures ref == 0 ==> err == Some(ZeroDivisionError) && regs[..] == old(regs[..])
                           && bus.trace == old(bus.trace)
      ensures ref != 0 ==> regs[..] == old(regs[..])[0 := DividerWord(f, ref)]
                           && bus.trace == old(bus.trace) + DownFrom(regs[..], 6)
                           && (err.None? <==> Fits(DividerWord(f, ref)))
                           && (err.Some? ==> err.value == OverflowError)
    {
      if ref == 0 {
        return Some(ZeroDivisionError);
      }
      var divider := Trunc(f as real / ref as real);
      regs[0] := divider * Pow2(15);
      assert regs[1..] == old(regs[1..]);
      err := SetupTx(bus);
      assert FitsBelow(regs[..], 6) <==> Fits(regs[0]) by {
        assert forall j :: 1 <= j < 6 ==> regs[j] == DefaultImage[j];
      }
    }

    /** start_carrier_TX is setup_TX. */
    method StartCarrier(bus: SpiBus) returns (err: Option<TxError>)
      requires Valid()
      modifies bus
      ensures bus.trace == old(bus.trace) + DownFrom(regs[..], 6)
      ensures err.None? <==> FitsBelow(regs[..], 6)
      ensures err.Some? ==> err.value == OverflowError
    {
      err := SetupTx(bus);
    }

    /** stop_carrier_TX: one frame with R4's power bits cleared; the image
        itself is not changed. */
    method StopCarrier(bus: SpiBus)
      requires Valid()
      modifies bus
      ensures bus.trace == old(bus.trace) + WordEvents(PowerDown(regs[4]))
    {
      assert regs[4] == DefaultImage[4] by {
        assert regs[1..][3] == DefaultImage[1..][3];
      }
      var reg4 := PowerDown(regs[4]);
      var ok := WriteReg(bus, reg4);
    }
  }

  // --------------------------------------------------------- properties

  /** For a non-zero reference, R0 holds INT in bits 31-15 and zeros below;
      the word fits four bytes exactly when 0 <= INT < 2^17. */
  lemma DividerFields(f: int, ref: int)
    requires ref != 0
    ensures var n := Trunc(f as real / ref as real);
      var w := DividerWord(f, ref);
      w % Pow2(15) == 0 && w / Pow2(15) == n &&
      (Fits(w) <==> 0 <= n < Pow2(17))
  {
    var n := Trunc(f as real / ref as real);
    assert Pow2(15) == 0x8000 && Pow2(17) == 0x2_0000 by {
      assert Pow2(1) == 2;
    }
    assert DividerWord(f, ref) == n * 0x8000;
  }

  /** The shipped divider: 2.45 GHz from 25 MHz gives INT = 98, R0 = 0x00310000. */
  lemma DividerShipped()
    ensures DividerWord(2450000000, DefaultReference) == 0x0031_0000
  {
    assert Pow2(15) == 0x8000 by {
      assert Pow2(1) == 2;
    }
    assert Trunc(2450000000.0 / 25000000.0) == 98;
  }

  /** Clearing the power bits: bits 3 and 4 become zero, every other bit is
      kept, a second clear changes nothing, and a word that fits still fits. */
  lemma PowerDownBits(w: int)
    ensures PowerDown(w) / 8 % 4 == 0
    ensures PowerDown(w) % 8 == w % 8 && PowerDown(w) / 32 == w / 32
    ensures PowerDown(PowerDown(w)) == PowerDown(w)
    ensures Fits(w) ==> Fits(PowerDown(w))
  {
    var lo := w % 8;
    var mid := w / 8 % 4;
    var hi := w / 32;
    assert w / 8 == hi * 4 + mid;
    assert w == hi * 32 + mid * 8 + lo;
    assert PowerDown(w) == hi * 32 + lo;
  }

  /** The shipped R4 0x00AC803C powers down as 0x00AC8024. */
  lemma PowerDownShipped()
    ensures PowerDown(DefaultImage[4]) == 0x00AC8024
  {
  }

  /** Stopping and restarting the carrier: the stop frame carries R4 with the
      power bits cleared, and the restart resends the unchanged image, R4
      with its power bits as they were. */
  lemma StopThenStart(img: seq<int>)
    requires |img| == 6 && FitsBelow(img, 6)
    ensures Parse(WordEvents(PowerDown(img[4])) + DownFrom(img, 6))
         == Some([WordTxn(PowerDown(img[4]))] + DownTxns(img, 6))
    ensures DownTxns(img, 6)[1] == WordTxn(img[4])
  {
    PowerDownBits(img[4]);
    ParseWord(PowerDown(img[4]));
    ParseDown(img, 6);
    ParseConcat(WordEvents(PowerDown(img[4])), DownFrom(img, 6), [WordTxn(PowerDown(img[4]))], DownTxns(img, 6));
    DownTxnsAt(img, 6, 1);
  }
}
