/** The CC2500 receiver driver: the SPI helpers, the four field setters with
    their strobe / read / write sequences, `setup_RX`, listening on and off,
    and the receive-FIFO decoder that fills a `Message`. */
module Receiver {
  import opened Common
  import opened Bus
  import opened RegisterCodec
  import opened Utf8Scan

  // Command strobes.
  const SIDLE: byte := 0x36
  const SRX: byte := 0x34
  const SFRX: byte := 0x3A
  const SRES: byte := 0x30

  /** The values setup_RX programs: data rate, filter bandwidth, deviation
      and carrier, the last being `f_carrier + CARRIER_FEQ`. */
  const DataRate: int := 100000
  const Bandwidth: int := 794444
  const Deviation: int := 347222
  const CarrierFrequency: int := 6597222 + 2450000000

  /** `cc2500_receiver_settings`, written in one list by setup_RX. */
  const Settings: seq<RegWrite> :=
    [RegWrite(0x02, 0x06), RegWrite(0x08, 0x05), RegWrite(0x0b, 0x0A), RegWrite(0x0e, 0x7C),
     RegWrite(0x0f, 0x08), RegWrite(0x10, 0x0B), RegWrite(0x11, 0xF1), RegWrite(0x12, 0x03),
     RegWrite(0x13, 0x23), RegWrite(0x14, 0xFF), RegWrite(0x15, 0x76), RegWrite(0x18, 0x18),
     RegWrite(0x19, 0x1D), RegWrite(0x1a, 0x1C), RegWrite(0x1b, 0xC7), RegWrite(0x1c, 0x00),
     RegWrite(0x1d, 0xB0), RegWrite(0x21, 0xB6), RegWrite(0x25, 0x00), RegWrite(0x26, 0x11)]

  // ------------------------------------------------------------ bus helpers

  /** One two-byte `spi.write` per pair; the value goes through `bytearray`,
      which keeps its low eight bits. */
  function PairEvents(pairs: seq<RegWrite>): (r: seq<Event>)
    ensures |r| == |pairs|
  {
    seq(|pairs|, k requires 0 <= k < |pairs| => Event.Write([pairs[k].addr, Wire8(pairs[k].value)]))
  }

  /** The pairs flattened in order, as the chip receives them. */
  function PairBytes(pairs: seq<RegWrite>): seq<byte>
  {
    if |pairs| == 0 then [] else [pairs[0].addr, Wire8(pairs[0].value)] + PairBytes(pairs[1..])
  }

  /** write_strobe_RX: one CS frame carrying the command byte. */
  function StrobeEvents(cmd: byte): seq<Event>
  {
    Frame(ReceiverCs, [Event.Write([cmd])])
  }

  /** write_register_RX: CS held low once around all the pairs. */
  function WriteEvents(pairs: seq<RegWrite>): seq<Event>
  {
    Frame(ReceiverCs, PairEvents(pairs))
  }

  /** read_register_RX: one CS frame clocking `address + 0x80` while the
      chip's two answer bytes come in. */
  function ReadEvents(addr: byte, answer: seq<byte>): seq<Event>
  {
    Frame(ReceiverCs, [Event.Read(Wire8(addr + 0x80), answer)])
  }

  method WriteStrobe(bus: SpiBus, cmd: byte)
    modifies bus
    ensures bus.trace == old(bus.trace) + StrobeEvents(cmd)
  {
    var msg := [cmd];
    bus.Select(ReceiverCs);
    bus.Write(msg);
    bus.Release(ReceiverCs);
  }

  method WriteRegister(bus: SpiBus, pairs: seq<RegWrite>)
    modifies bus
    ensures bus.trace == old(bus.trace) + WriteEvents(pairs)
  {
    bus.Select(ReceiverCs);
    for i := 0 to |pairs|
      invariant bus.trace == old(bus.trace) + [Low(ReceiverCs)] + PairEvents(pairs[..i])
    {
      var msg := [pairs[i].addr, Wire8(pairs[i].value)];
      bus.Write(msg);
      assert PairEvents(pairs[..i + 1]) == PairEvents(pairs[..i]) + [Event.Write(msg)];
    }
    bus.Release(ReceiverCs);
    assert pairs[..|pairs|] == pairs;
  }

  /** read_register_RX; `answer` is what the chip shifts back (two bytes, as
      `spi.read(2, …)` always returns). */
  method ReadRegister(bus: SpiBus, addr: byte, answer: seq<byte>) returns (reply: seq<byte>)
    requires |answer| == 2
    modifies bus
    ensures reply == answer
    ensures bus.trace == old(bus.trace) + ReadEvents(addr, answer)
  {
    bus.Select(ReceiverCs);
    var buf := bus.Read(Wire8(addr + 0x80), answer);
    bus.Release(ReceiverCs);
    reply := buf;
  }

  /** Every write frame carries exactly the pairs, flattened in order. */
  lemma {:induction false} PairEventsCarry(pairs: seq<RegWrite>)
    ensures Transfers(PairEvents(pairs))
    ensures SentBy(PairEvents(pairs)) == PairBytes(pairs)
    ensures GotBy(PairEvents(pairs)) == []
    decreases |pairs|
  {
    if |pairs| > 0 {
      assert PairEvents(pairs)[0] == Event.Write([pairs[0].addr, Wire8(pairs[0].value)]);
      assert PairEvents(pairs)[1..] == PairEvents(pairs[1..]);
      PairEventsCarry(pairs[1..]);
    }
  }

  lemma {:induction false} PairBytesLayout(pairs: seq<RegWrite>)
    ensures |PairBytes(pairs)| == 2 * |pairs|
    ensures forall k :: 0 <= k < |pairs| ==>
      PairBytes(pairs)[2 * k] == pairs[k].addr && PairBytes(pairs)[2 * k + 1] == Wire8(pairs[k].value)
    decreases |pairs|
  {
    if |pairs| > 0 {
      PairBytesLayout(pairs[1..]);
      forall k | 0 <= k < |pairs|
        ensures PairBytes(pairs)[2 * k] == pairs[k].addr && PairBytes(pairs)[2 * k + 1] == Wire8(pairs[k].value)
      {
        if k > 0 {
          assert PairBytes(pairs)[2 * k] == PairBytes(pairs[1..])[2 * (k - 1)];
          assert PairBytes(pairs)[2 * k + 1] == PairBytes(pairs[1..])[2 * (k - 1) + 1];
          assert pairs[1..][k - 1] == pairs[k];
        }
      }
    }
  }

  lemma ParseStrobe(cmd: byte)
    ensures Parse(StrobeEvents(cmd)) == Some([Txn(ReceiverCs, [cmd], [])])
  {
    ParseSingle(ReceiverCs, Event.Write([cmd]));
  }

  /** The whole list is one transaction whose bytes are the pairs in order. */
  lemma ParseWrite(pairs: seq<RegWrite>)
    ensures Parse(WriteEvents(pairs)) == Some([Txn(ReceiverCs, PairBytes(pairs), [])])
  {
    PairEventsCarry(pairs);
    ParseFrame(ReceiverCs, PairEvents(pairs));
  }

  /** The chip is sent `address + 0x80` (read flag) once per byte it answers. */
  lemma ParseRead(addr: byte, answer: seq<byte>)
    ensures Parse(ReadEvents(addr, answer))
         == Some([Txn(ReceiverCs, Repeat(Wire8(addr + 0x80), |answer|), answer)])
  {
    ParseSingle(ReceiverCs, Event.Read(Wire8(addr + 0x80), answer));
  }

  // ------------------------------------------------------------- listening

  /** start_listen_RX: SIDLE, then 0x17 := 0x00 (return to idle after a
      packet), flush the receive FIFO, enter receive mode. */
  function ListenEvents(): seq<Event>
  {
    StrobeEvents(SIDLE) + WriteEvents([RegWrite(0x17, 0x00)]) + StrobeEvents(SFRX) + StrobeEvents(SRX)
  }

  method StartListen(bus: SpiBus)
    modifies bus
    ensures bus.trace == old(bus.trace) + ListenEvents()
  {
    WriteStrobe(bus, SIDLE);
    WriteRegister(bus, [RegWrite(0x17, 0x00)]);
    WriteStrobe(bus, SFRX);
    WriteStrobe(bus, SRX);
  }

  method StopListen(bus: SpiBus)
    modifies bus
    ensures bus.trace == old(bus.trace) + StrobeEvents(SIDLE)
  {
    WriteStrobe(bus, SIDLE);
  }

  /** Arming the receiver is four transactions in this order. */
  lemma ParseListen()
    ensures Parse(ListenEvents()) == Some([Txn(ReceiverCs, [SIDLE], []), Txn(ReceiverCs, [0x17, 0x00], []),
                                           Txn(ReceiverCs, [SFRX], []), Txn(ReceiverCs, [SRX], [])])
  {
    var a := StrobeEvents(SIDLE);
    var b := WriteEvents([RegWrite(0x17, 0x00)]);
    var c := StrobeEvents(SFRX);
    var d := StrobeEvents(SRX);
    var t2 := Txn(ReceiverCs, [0x17, 0x00], []);
    ParseStrobe(SIDLE);
    ParseWrite([RegWrite(0x17, 0x00)]);
    assert PairBytes([RegWrite(0x17, 0x00)]) == [0x17, 0x00] + PairBytes([]) == [0x17, 0x00];
    ParseStrobe(SFRX);
    ParseStrobe(SRX);
    ParseAppend(a, b);
    ParseAppend(a + b, c);
    ParseAppend(a + b + c, d);
    Flatten4(Txn(ReceiverCs, [SIDLE], []), t2, Txn(ReceiverCs, [SFRX], []), Txn(ReceiverCs, [SRX], []));
  }

  lemma Flatten4<T>(t0: T, t1: T, t2: T, t3: T)
    ensures [t0] + [t1] + [t2] + [t3] == [t0, t1, t2, t3]
  {
  }

  // ------------------------------------------------------ the four setters

  /** The events of a setter: SIDLE, then, if the derivation did not raise,
      the read of the shared register (when there is one) and the write. */
  function SetterEvents(writes: Outcome<seq<RegWrite>>, read: seq<Event>): seq<Event>
  {
    StrobeEvents(SIDLE) + (if writes.Ok? then read + WriteEvents(writes.value) else [])
  }

  /** set_datarate_RX; `answer` is the chip's reply to the read of 0x10. */
  method SetDataRate(bus: SpiBus, rate: int, answer: seq<byte>) returns (r: Outcome<seq<RegWrite>>)
    requires |answer| == 2
    modifies bus
    ensures r == DataRateWrites(rate, answer[0])
    ensures bus.trace == old(bus.trace) + SetterEvents(r, ReadEvents(0x10, answer))
  {
    WriteStrobe(bus, SIDLE);
    var fields := DataRateFields(rate);
    if fields.Fail? {
      return Fail(fields.error);
    }
    var reply := ReadRegister(bus, 0x10, answer);
    var msg := DataRateWrites(rate, reply[0]).value;
    WriteRegister(bus, msg);
    r := Ok(msg);
  }

  /** set_filter_bandwidth_RX; `answer` is the reply to the read of 0x10. */
  method SetFilterBandwidth(bus: SpiBus, bw: int, answer: seq<byte>) returns (r: Outcome<seq<RegWrite>>)
    requires |answer| == 2
    modifies bus
    ensures r == BandwidthWrites(bw, answer[0])
    ensures bus.trace == old(bus.trace) + SetterEvents(r, ReadEvents(0x10, answer))
  {
    WriteStrobe(bus, SIDLE);
    var fields := BandwidthFields(bw);
    if fields.Fail? {
      return Fail(fields.error);
    }
    var reply := ReadRegister(bus, 0x10, answer);
    var msg := BandwidthWrites(bw, reply[0]).value;
    WriteRegister(bus, msg);
    r := Ok(msg);
  }

  /** set_freq_deviation_RX: no read, 0x15 is written whole. */
  method SetFreqDeviation(bus: SpiBus, dev: int) returns (r: Outcome<seq<RegWrite>>)
    modifies bus
    ensures r == DeviationWrites(dev)
    ensures bus.trace == old(bus.trace) + SetterEvents(r, [])
  {
    WriteStrobe(bus, SIDLE);
    r := DeviationWrites(dev);
    if r.Ok? {
      WriteRegister(bus, r.value);
    }
  }

  /** set_frequency_RX; `answer` is the reply to the read of 0x13.  Nothing
      in it can raise. */
  method SetFrequency(bus: SpiBus, f: int, answer: seq<byte>) returns (w: seq<RegWrite>)
    requires |answer| == 2
    modifies bus
    ensures w == FrequencyWrites(f, answer[0])
    ensures bus.trace == old(bus.trace) + SetterEvents(Ok(w), ReadEvents(0x13, answer))
  {
    WriteStrobe(bus, SIDLE);
    var reply := ReadRegister(bus, 0x13, answer);
    w := FrequencyWrites(f, reply[0]);
    WriteRegister(bus, w);
  }

  /** A setter whose derivation raises leaves only the SIDLE strobe behind;
      one that succeeds reads (if it reads) before it writes, and its write
      is one frame carrying the computed pairs. */
  lemma ParseSetter(writes: Outcome<seq<RegWrite>>, addr: byte, answer: seq<byte>)
    ensures writes.Fail? ==>
      Parse(SetterEvents(writes, ReadEvents(addr, answer))) == Some([Txn(ReceiverCs, [SIDLE], [])])
    ensures writes.Ok? ==>
      Parse(SetterEvents(writes, ReadEvents(addr, answer)))
      == Some([Txn(ReceiverCs, [SIDLE], []),
               Txn(ReceiverCs, Repeat(Wire8(addr + 0x80), |answer|), answer),
               Txn(ReceiverCs, PairBytes(writes.value), [])])
  {
    ParseStrobe(SIDLE);
    var s := StrobeEvents(SIDLE);
    var t1 := Txn(ReceiverCs, [SIDLE], []);
    if writes.Fail? {
      assert SetterEvents(writes, ReadEvents(addr, answer)) == s + [] == s;
    } else {
      var rd := ReadEvents(addr, answer);
      var wr := WriteEvents(writes.value);
      var t2 := Txn(ReceiverCs, Repeat(Wire8(addr + 0x80), |answer|), answer);
      var t3 := Txn(ReceiverCs, PairBytes(writes.value), []);
      ParseRead(addr, answer);
      ParseWrite(writes.value);
      assert SetterEvents(writes, rd) == s + (rd + wr);
      ParseConcat(rd, wr, [t2], [t3]);
      ParseConcat(s, rd + wr, [t1], [t2] + [t3]);
      assert [t1] + ([t2] + [t3]) == [t1, t2, t3];
    }
  }

  // ----------------------------------------------------------------- setup

  /** The start of setup_RX: reset and idle strobes, the settings table, then
      the frequency setter (which cannot raise) writing `fw`. */
  function SetupHead(fw: seq<RegWrite>, freqAnswer: seq<byte>): seq<Event>
  {
    StrobeEvents(SRES) + StrobeEvents(SIDLE) + WriteEvents(Settings)
    + SetterEvents(Ok(fw), ReadEvents(0x13, freqAnswer))
  }

  /** The rest of setup_RX, given what the deviation, data-rate and bandwidth
      setters derive: each runs only if the one before it did not raise, and
      0x10 := 0x0B comes last. */
  function SetupTail(d: Outcome<seq<RegWrite>>, r: Outcome<seq<RegWrite>>, b: Outcome<seq<RegWrite>>,
                     rateAnswer: seq<byte>, bwAnswer: seq<byte>): seq<Event>
  {
    SetterEvents(d, []) + if d.Fail? then [] else RateTail(r, b, rateAnswer, bwAnswer)
  }

  function RateTail(r: Outcome<seq<RegWrite>>, b: Outcome<seq<RegWrite>>, rateAnswer: seq<byte>, bwAnswer: seq<byte>): seq<Event>
  {
    SetterEvents(r, ReadEvents(0x10, rateAnswer)) + if r.Fail? then [] else BandwidthTail(b, bwAnswer)
  }

  function BandwidthTail(b: Outcome<seq<RegWrite>>, bwAnswer: seq<byte>): seq<Event>
  {
    SetterEvents(b, ReadEvents(0x10, bwAnswer)) + if b.Fail? then [] else WriteEvents([RegWrite(0x10, 0x0B)])
  }

  /** The error setup_RX raises: the first of the three setters' errors. */
  function FirstError(d: Outcome<seq<RegWrite>>, r: Outcome<seq<RegWrite>>, b: Outcome<seq<RegWrite>>): Outcome<()>
  {
    if d.Fail? then Fail(d.error) else RateError(r, b)
  }

  function RateError(r: Outcome<seq<RegWrite>>, b: Outcome<seq<RegWrite>>): Outcome<()>
  {
    if r.Fail? then Fail(r.error) else BandwidthError(b)
  }

  function BandwidthError(b: Outcome<seq<RegWrite>>): Outcome<()>
  {
    if b.Fail? then Fail(b.error) else Ok(())
  }

  /** The reset, the table and the frequency. */
  method SetupStart(bus: SpiBus, f: int, freqAnswer: seq<byte>)
    requires |freqAnswer| == 2
    modifies bus
    ensures bus.trace == old(bus.trace) + SetupHead(FrequencyWrites(f, freqAnswer[0]), freqAnswer)
  {
    ghost var t0 := bus.trace;
    WriteStrobe(bus, SRES);
    WriteStrobe(bus, SIDLE);
    Associative(t0, StrobeEvents(SRES), StrobeEvents(SIDLE));
    WriteRegister(bus, Settings);
    Associative(t0, StrobeEvents(SRES) + StrobeEvents(SIDLE), WriteEvents(Settings));
    var w := SetFrequency(bus, f, freqAnswer);
    Associative(t0, StrobeEvents(SRES) + StrobeEvents(SIDLE) + WriteEvents(Settings),
                SetterEvents(Ok(w), ReadEvents(0x13, freqAnswer)));
  }

  /** setup_RX.  The module variables it reads (f_carrier + CARRIER_FEQ,
      f_dev, r_data, bw) are parameters; the shipped values are the constants
      above.  The replies are the chip's answers to the read of 0x13 and the
      two reads of 0x10.  An exception raised by a setter ends setup_RX and
      is its outcome. */
  method SetupRx(bus: SpiBus, f: int, dev: int, rate: int, bw: int,
                 freqAnswer: seq<byte>, rateAnswer: seq<byte>, bwAnswer: seq<byte>)
    returns (r: Outcome<()>)
    requires |freqAnswer| == 2 && |rateAnswer| == 2 && |bwAnswer| == 2
    modifies bus
    ensures r == FirstError(DeviationWrites(dev), DataRateWrites(rate, rateAnswer[0]), BandwidthWrites(bw, bwAnswer[0]))
    ensures bus.trace == old(bus.trace) + SetupHead(FrequencyWrites(f, freqAnswer[0]), freqAnswer)
                         + SetupTail(DeviationWrites(dev), DataRateWrites(rate, rateAnswer[0]),
                                     BandwidthWrites(bw, bwAnswer[0]), rateAnswer, bwAnswer)
  {
    SetupStart(bus, f, freqAnswer);
    r := SetupRest(bus, dev, rate, bw, rateAnswer, bwAnswer);
  }

  /** setup_RX after the frequency: deviation, data rate, bandwidth, 0x10. */
  method SetupRest(bus: SpiBus, dev: int, rate: int, bw: int, rateAnswer: seq<byte>, bwAnswer: seq<byte>)
    returns (r: Outcome<()>)
    requires |rateAnswer| == 2 && |bwAnswer| == 2
    modifies bus
    ensures r == FirstError(DeviationWrites(dev), DataRateWrites(rate, rateAnswer[0]), BandwidthWrites(bw, bwAnswer[0]))
    ensures bus.trace == old(bus.trace) + SetupTail(DeviationWrites(dev), DataRateWrites(rate, rateAnswer[0]),
                                                    BandwidthWrites(bw, bwAnswer[0]), rateAnswer, bwAnswer)
  {
    ghost var t0 := bus.trace;
    var d := SetFreqDeviation(bus, dev);
    TailSteps(d, DataRateWrites(rate, rateAnswer[0]), BandwidthWrites(bw, bwAnswer[0]), rateAnswer, bwAnswer);
    if d.Ok? {
      r := SetupRate(bus, rate, bw, rateAnswer, bwAnswer);
      Associative(t0, SetterEvents(d, []), RateTail(DataRateWrites(rate, rateAnswer[0]), BandwidthWrites(bw, bwAnswer[0]), rateAnswer, bwAnswer));
    } else {
      r := Fail(d.error);
    }
  }

  /** One level of the tail at a time. */
  lemma TailSteps(d: Outcome<seq<RegWrite>>, r: Outcome<seq<RegWrite>>, b: Outcome<seq<RegWrite>>,
                  rateAnswer: seq<byte>, bwAnswer: seq<byte>)
    ensures d.Fail? ==> SetupTail(d, r, b, rateAnswer, bwAnswer) == SetterEvents(d, [])
    ensures d.Ok? ==> SetupTail(d, r, b, rateAnswer, bwAnswer) == SetterEvents(d, []) + RateTail(r, b, rateAnswer, bwAnswer)
    ensures r.Fail? ==> RateTail(r, b, rateAnswer, bwAnswer) == SetterEvents(r, ReadEvents(0x10, rateAnswer))
    ensures r.Ok? ==> RateTail(r, b, rateAnswer, bwAnswer) == SetterEvents(r, ReadEvents(0x10, rateAnswer)) + BandwidthTail(b, bwAnswer)
    ensures b.Fail? ==> BandwidthTail(b, bwAnswer) == SetterEvents(b, ReadEvents(0x10, bwAnswer))
  {
    assert SetterEvents(d, []) + [] == SetterEvents(d, []);
    assert SetterEvents(r, ReadEvents(0x10, rateAnswer)) + [] == SetterEvents(r, ReadEvents(0x10, rateAnswer));
    assert SetterEvents(b, ReadEvents(0x10, bwAnswer)) + [] == SetterEvents(b, ReadEvents(0x10, bwAnswer));
  }

  /** setup_RX from the data rate on. */
  method SetupRate(bus: SpiBus, rate: int, bw: int, rateAnswer: seq<byte>, bwAnswer: seq<byte>)
    returns (r: Outcome<()>)
    requires |rateAnswer| == 2 && |bwAnswer| == 2
    modifies bus
    ensures r == RateError(DataRateWrites(rate, rateAnswer[0]), BandwidthWrites(bw, bwAnswer[0]))
    ensures bus.trace == old(bus.trace) + RateTail(DataRateWrites(rate, rateAnswer[0]),
                                                   BandwidthWrites(bw, bwAnswer[0]), rateAnswer, bwAnswer)
  {
    ghost var t0 := bus.trace;
    var dr := SetDataRate(bus, rate, rateAnswer);
    TailSteps(Ok([]), dr, BandwidthWrites(bw, bwAnswer[0]), rateAnswer, bwAnswer);
    if dr.Ok? {
      r := SetupBandwidth(bus, bw, bwAnswer);
      Associative(t0, SetterEvents(dr, ReadEvents(0x10, rateAnswer)), BandwidthTail(BandwidthWrites(bw, bwAnswer[0]), bwAnswer));
    } else {
      r := Fail(dr.error);
    }
  }

  /** setup_RX from the bandwidth on. */
  method SetupBandwidth(bus: SpiBus, bw: int, bwAnswer: seq<byte>) returns (r: Outcome<()>)
    requires |bwAnswer| == 2
    modifies bus
    ensures r == BandwidthError(BandwidthWrites(bw, bwAnswer[0]))
    ensures bus.trace == old(bus.trace) + BandwidthTail(BandwidthWrites(bw, bwAnswer[0]), bwAnswer)
  {
    ghost var t0 := bus.trace;
    var b := SetFilterBandwidth(bus, bw, bwAnswer);
    TailSteps(Ok([]), Ok([]), b, [], bwAnswer);
    if b.Ok? {
      WriteRegister(bus, [RegWrite(0x10, 0x0B)]);
      Associative(t0, SetterEvents(b, ReadEvents(0x10, bwAnswer)), WriteEvents([RegWrite(0x10, 0x0B)]));
      r := Ok(());
    } else {
      r := Fail(b.error);
    }
  }

  /** setup_RX stops at the first setter that raises, right after that
      setter's SIDLE strobe, and raises that setter's error. */
  lemma SetupStopsAtError(d: Outcome<seq<RegWrite>>, r: Outcome<seq<RegWrite>>, b: Outcome<seq<RegWrite>>,
                          rateAnswer: seq<byte>, bwAnswer: seq<byte>)
    ensures FirstError(d, r, b).Ok? <==> d.Ok? && r.Ok? && b.Ok?
    ensures d.Fail? ==> SetupTail(d, r, b, rateAnswer, bwAnswer) == StrobeEvents(SIDLE)
                        && FirstError(d, r, b) == Fail(d.error)
    ensures d.Ok? && r.Fail? ==>
      SetupTail(d, r, b, rateAnswer, bwAnswer) == StrobeEvents(SIDLE) + WriteEvents(d.value) + StrobeEvents(SIDLE)
      && FirstError(d, r, b) == Fail(r.error)
    ensures d.Ok? && r.Ok? && b.Fail? ==>
      SetupTail(d, r, b, rateAnswer, bwAnswer)
      == SetterEvents(d, []) + SetterEvents(r, ReadEvents(0x10, rateAnswer)) + StrobeEvents(SIDLE)
      && FirstError(d, r, b) == Fail(b.error)
  {
    var s := StrobeEvents(SIDLE);
    if d.Fail? {
      assert SetterEvents(d, []) == s + [];
    } else if r.Fail? {
      assert SetterEvents(d, []) == s + ([] + WriteEvents(d.value));
      assert RateTail(r, b, rateAnswer, bwAnswer) == SetterEvents(r, ReadEvents(0x10, rateAnswer)) + [] == s + [] + [];
    } else if b.Fail? {
      assert BandwidthTail(b, bwAnswer) == SetterEvents(b, ReadEvents(0x10, bwAnswer)) + [] == s + [] + [];
    }
  }

  /** The transaction of a `read_register_RX` of `addr` answered by `answer`. */
  function ReadTxn(addr: byte, answer: seq<byte>): Txn
  {
    Txn(ReceiverCs, Repeat(Wire8(addr + 0x80), |answer|), answer)
  }

  /** The transaction of a `write_register_RX` of `pairs`. */
  function WriteTxn(pairs: seq<RegWrite>): Txn
  {
    Txn(ReceiverCs, PairBytes(pairs), [])
  }

  /** The transaction of a strobe. */
  function StrobeTxn(cmd: byte): Txn
  {
    Txn(ReceiverCs, [cmd], [])
  }

  /** A setter that does not raise: the idle strobe, whatever it reads, its write. */
  lemma ParseSetterOk(w: seq<RegWrite>, read: seq<Event>, rx: seq<Txn>)
    requires Parse(read) == Some(rx)
    ensures Parse(SetterEvents(Ok(w), read)) == Some([StrobeTxn(SIDLE)] + (rx + [WriteTxn(w)]))
  {
    ParseStrobe(SIDLE);
    ParseWrite(w);
    ParseConcat(read, WriteEvents(w), rx, [WriteTxn(w)]);
    ParseConcat(StrobeEvents(SIDLE), read + WriteEvents(w), [StrobeTxn(SIDLE)], rx + [WriteTxn(w)]);
  }

  lemma ParseSetupHead(fw: seq<RegWrite>, freqAnswer: seq<byte>)
    ensures Parse(SetupHead(fw, freqAnswer))
         == Some([StrobeTxn(SRES)] + [StrobeTxn(SIDLE)] + [WriteTxn(Settings)]
                 + ([StrobeTxn(SIDLE)] + ([ReadTxn(0x13, freqAnswer)] + [WriteTxn(fw)])))
  {
    var s1, s2, s3 := StrobeEvents(SRES), StrobeEvents(SIDLE), WriteEvents(Settings);
    var rd := ReadEvents(0x13, freqAnswer);
    ParseStrobe(SRES);
    ParseStrobe(SIDLE);
    ParseWrite(Settings);
    ParseRead(0x13, freqAnswer);
    ParseSetterOk(fw, rd, [ReadTxn(0x13, freqAnswer)]);
    ParseConcat(s1, s2, [StrobeTxn(SRES)], [StrobeTxn(SIDLE)]);
    ParseConcat(s1 + s2, s3, [StrobeTxn(SRES)] + [StrobeTxn(SIDLE)], [WriteTxn(Settings)]);
    ParseAppend(s1 + s2 + s3, SetterEvents(Ok(fw), rd));
  }

  lemma ParseSetupTail(dw: seq<RegWrite>, rw: seq<RegWrite>, bw: seq<RegWrite>,
                       rateAnswer: seq<byte>, bwAnswer: seq<byte>)
    ensures Parse(SetupTail(Ok(dw), Ok(rw), Ok(bw), rateAnswer, bwAnswer))
         == Some(([StrobeTxn(SIDLE)] + ([] + [WriteTxn(dw)]))
                 + (([StrobeTxn(SIDLE)] + ([ReadTxn(0x10, rateAnswer)] + [WriteTxn(rw)]))
                    + (([StrobeTxn(SIDLE)] + ([ReadTxn(0x10, bwAnswer)] + [WriteTxn(bw)]))
                       + [WriteTxn([RegWrite(0x10, 0x0B)])])))
  {
    var u1 := SetterEvents(Ok(dw), []);
    var u2 := SetterEvents(Ok(rw), ReadEvents(0x10, rateAnswer));
    var u3 := SetterEvents(Ok(bw), ReadEvents(0x10, bwAnswer));
    var u4 := WriteEvents([RegWrite(0x10, 0x0B)]);
    ParseSetterOk(dw, [], []);
    ParseRead(0x10, rateAnswer);
    ParseSetterOk(rw, ReadEvents(0x10, rateAnswer), [ReadTxn(0x10, rateAnswer)]);
    ParseRead(0x10, bwAnswer);
    ParseSetterOk(bw, ReadEvents(0x10, bwAnswer), [ReadTxn(0x10, bwAnswer)]);
    ParseWrite([RegWrite(0x10, 0x0B)]);
    ParseAppend(u3, u4);
    ParseAppend(u2, u3 + u4);
    ParseAppend(u1, u2 + (u3 + u4));
  }

  /** The transactions of a setup_RX that runs to the end, in bus order. */
  function SetupTxns(fw: seq<RegWrite>, dw: seq<RegWrite>, rw: seq<RegWrite>, bw: seq<RegWrite>,
                     freqAnswer: seq<byte>, rateAnswer: seq<byte>, bwAnswer: seq<byte>): seq<Txn>
  {
    var idle := StrobeTxn(SIDLE);
    [StrobeTxn(SRES), idle, WriteTxn(Settings),
     idle, ReadTxn(0x13, freqAnswer), WriteTxn(fw),
     idle, WriteTxn(dw),
     idle, ReadTxn(0x10, rateAnswer), WriteTxn(rw),
     idle, ReadTxn(0x10, bwAnswer), WriteTxn(bw),
     WriteTxn([RegWrite(0x10, 0x0B)])]
  }

  lemma Flatten15<T>(t0: T, t1: T, t2: T, t3: T, t4: T, t5: T, t6: T, t7: T, t8: T, t9: T,
                     t10: T, t11: T, t12: T, t13: T, t14: T)
    ensures [t0] + [t1] + [t2] + ([t3] + ([t4] + [t5]))
            + (([t6] + ([] + [t7])) + (([t8] + ([t9] + [t10])) + (([t11] + ([t12] + [t13])) + [t14])))
         == [t0, t1, t2, t3, t4, t5, t6, t7, t8, t9, t10, t11, t12, t13, t14]
  {
  }

  /** A setup_RX that runs to the end is these fifteen transactions: it
      starts with the reset and idle strobes, each setter idles the chip
      before it reads and writes, and the last transaction writes 0x10 := 0x0B
      over what the data-rate and bandwidth setters left there. */
  lemma ParseSetup(fw: seq<RegWrite>, dw: seq<RegWrite>, rw: seq<RegWrite>, bw: seq<RegWrite>,
                   freqAnswer: seq<byte>, rateAnswer: seq<byte>, bwAnswer: seq<byte>)
    ensures Parse(SetupHead(fw, freqAnswer) + SetupTail(Ok(dw), Ok(rw), Ok(bw), rateAnswer, bwAnswer))
         == Some(SetupTxns(fw, dw, rw, bw, freqAnswer, rateAnswer, bwAnswer))
  {
    var idle := StrobeTxn(SIDLE);
    ParseSetupHead(fw, freqAnswer);
    ParseSetupTail(dw, rw, bw, rateAnswer, bwAnswer);
    ParseAppend(SetupHead(fw, freqAnswer), SetupTail(Ok(dw), Ok(rw), Ok(bw), rateAnswer, bwAnswer));
    Flatten15(StrobeTxn(SRES), idle, WriteTxn(Settings), idle, ReadTxn(0x13, freqAnswer), WriteTxn(fw),
              idle, WriteTxn(dw), idle, ReadTxn(0x10, rateAnswer), WriteTxn(rw),
              idle, ReadTxn(0x10, bwAnswer), WriteTxn(bw), WriteTxn([RegWrite(0x10, 0x0B)]));
  }

  /** With the shipped values setup_RX runs to the end: DEVIATN is written
      0x75, the data rate gives exponent 11 and mantissa 248, the bandwidth
      keeps the low nibble it read and puts zeros above it, and 0x0d-0x0f
      receive 0x5E, 0x7C, 0x07. */
  lemma SetupShipped(freqAnswer: seq<byte>, rateAnswer: seq<byte>, bwAnswer: seq<byte>)
    requires |freqAnswer| == 2 && |rateAnswer| == 2 && |bwAnswer| == 2
    ensures FirstError(DeviationWrites(Deviation), DataRateWrites(DataRate, rateAnswer[0]),
                       BandwidthWrites(Bandwidth, bwAnswer[0])) == Ok(())
    ensures DeviationWrites(Deviation) == Ok([RegWrite(0x15, 0x75)])
    ensures DataRateWrites(DataRate, rateAnswer[0]) == Ok([RegWrite(0x10, HighNibble(rateAnswer[0]) + 11), RegWrite(0x11, 248)])
    ensures BandwidthWrites(Bandwidth, bwAnswer[0]) == Ok([RegWrite(0x10, bwAnswer[0] % 16)])
    ensures var w := FrequencyWrites(CarrierFrequency, freqAnswer[0]);
      w[1].value == 0x5E && w[2].value == 0x7C && w[3].value == 0x07
  {
    DeviationShipped();
    DataRateShipped();
    BandwidthShipped();
    FrequencyShipped(freqAnswer[0]);
  }

  // --------------------------------------------------------------- decoder

  /** What the `Message` fields hold.  `crcCheck` is absent until a decode
      sets `CRC_check`; `crc` is the class field `CRC`, never assigned. */
  datatype MessageView = MessageView(
    data: seq<int>, overflow: bool, rssi: real, crc: int, crcCheck: Option<bool>,
    length: int, sequence: int, linkQuality: int)

  /** An instance of the `Message` class: its attributes start at the class
      defaults and decode_packet_RX assigns them in place. */
  class Message {
    var data: seq<int>
    var overflow: bool
    var rssi: real
    var crc: int
    var crcCheck: Option<bool>
    var length: int
    var sequence: int
    var linkQuality: int

    constructor ()
      ensures View() == Fresh()
    {
      data, overflow, rssi, crc, crcCheck := [], false, 0.0, 0, None;
      length, sequence, linkQuality := 0, 0, 0;
    }

    function View(): MessageView
      reads this
    {
      MessageView(data, overflow, rssi, crc, crcCheck, length, sequence, linkQuality)
    }
  }

  /** The class defaults. */
  function Fresh(): MessageView
  {
    MessageView([], false, 0.0, 0, None, 0, 0, 0)
  }

  /** `RSSI` as decode_packet_RX computes it from the length byte `len` and
      the first trailer byte `t0`: the sign is taken from `len`. */
  function Rssi(len: byte, t0: byte): real
  {
    if len >= 128 then (t0 as int - 256) as real / 2.0 - 70.0 else t0 as real / 2.0 - 70.0
  }

  /** `t0` read as a two's-complement octet. */
  function Signed(t0: byte): int
  {
    if t0 >= 128 then t0 - 256 else t0
  }

  /** `buf[2:length + 1]` with Python's slice clamping, on the 62-byte window. */
  function PayloadBytes(window: seq<byte>): (p: seq<byte>)
    requires |window| == 62
    ensures |p| <= 60
  {
    var len: int := window[0];
    var hi := if len + 1 < 62 then len + 1 else 62;
    if hi <= 2 then [] else window[2..hi]
  }

  /** What decode_packet_RX leaves in `m` and whether it raised (only `chr`
      can raise, and then `data` keeps its old value). */
  datatype Decoded = Decoded(view: MessageView, raised: bool)

  function DecodeView(m: MessageView, status: seq<byte>, window: seq<byte>, trailer: seq<byte>): Decoded
    requires |status| == 2 && |window| == 62 && |trailer| == 2
  {
    if status[1] >= 0x80 then Decoded(m.(overflow := true), false)
    else
      var text := Scan(PayloadBytes(window));
      Decoded(m.(overflow := false,
                 crcCheck := Some(trailer[1] >= 0x80),
                 linkQuality := trailer[1] % 0x80,
                 rssi := Rssi(window[0], trailer[0]),
                 length := window[0],
                 sequence := window[1],
                 data := if text.Some? then text.value else m.data),
              text.None?)
  }

  /** The RXBYTES status read (0xFB, a burst read of status register 0x3B)
      in its own frame. */
  function StatusEvents(status: seq<byte>): seq<Event>
  {
    Frame(ReceiverCs, [Event.Read(0xFB, status)])
  }

  /** One frame with three burst reads of the receive FIFO (0xFF) of 1, 62
      and 2 bytes. */
  function FifoEvents(header: seq<byte>, window: seq<byte>, trailer: seq<byte>): seq<Event>
  {
    Frame(ReceiverCs, [Event.Read(0xFF, header), Event.Read(0xFF, window), Event.Read(0xFF, trailer)])
  }

  /** The bus events of a decode: the status frame, then, without overflow,
      the FIFO frame. */
  function DecodeEvents(status: seq<byte>, header: seq<byte>, window: seq<byte>, trailer: seq<byte>): seq<Event>
    requires |status| == 2
  {
    StatusEvents(status) + (if status[1] >= 0x80 then [] else FifoEvents(header, window, trailer))
  }

  /** The status read of decode_packet_RX in its own frame. */
  method ReadStatus(bus: SpiBus, status: seq<byte>) returns (got: seq<byte>)
    modifies bus
    ensures got == status
    ensures bus.trace == old(bus.trace) + StatusEvents(status)
  {
    bus.Select(ReceiverCs);
    got := bus.Read(0xFB, status);
    bus.Release(ReceiverCs);
  }

  /** The FIFO frame of decode_packet_RX: the header byte is read and
      dropped, then the 62-byte window and the 2-byte trailer. */
  method ReadFifo(bus: SpiBus, header: seq<byte>, window: seq<byte>, trailer: seq<byte>)
    returns (buf: seq<byte>, tail: seq<byte>)
    modifies bus
    ensures buf == window && tail == trailer
    ensures bus.trace == old(bus.trace) + FifoEvents(header, window, trailer)
  {
    bus.Select(ReceiverCs);
    var _ := bus.Read(0xFF, header);
    buf := bus.Read(0xFF, window);
    tail := bus.Read(0xFF, trailer);
    bus.Release(ReceiverCs);
  }

  /** decode_packet_RX on `message`, given what the chip answers to the
      status read (`status`) and to the three FIFO reads.  The `size` it
      derives from the status is never used, so it is not modelled. */
  method DecodePacket(bus: SpiBus, message: Message, status: seq<byte>, header: seq<byte>,
                      window: seq<byte>, trailer: seq<byte>) returns (raised: bool)
    requires |status| == 2 && |header| == 1 && |window| == 62 && |trailer| == 2
    modifies bus, message
    ensures var d := DecodeView(old(message.View()), status, window, trailer);
      message.View() == d.view && raised == d.raised
    ensures bus.trace == old(bus.trace) + DecodeEvents(status, header, window, trailer)
  {
    ghost var t0 := bus.trace;
    var tmp := ReadStatus(bus, status);
    message.overflow := tmp[1] >= 0x80;
    raised := false;
    if !message.overflow {
      var buf;
      buf, tmp := ReadFifo(bus, header, window, trailer);
      Associative(t0, StatusEvents(status), FifoEvents(header, window, trailer));
      var text := BytesToUtf8String(PayloadBytes(buf));
      message.crcCheck, message.linkQuality, message.rssi, message.length, message.sequence
        := Some(tmp[1] >= 0x80), tmp[1] % 0x80, Rssi(buf[0], tmp[0]), buf[0], buf[1];
      if text.None? {
        raised := true;
      } else {
        message.data := text.value;
      }
    } else {
      assert DecodeEvents(status, header, window, trailer) == StatusEvents(status) + [];
    }
  }

  // ----------------------------------------------------- decoder properties

  /** With the overflow bit set only the status frame occurs, and only
      `overflow` changes; otherwise a second frame reads exactly 1 + 62 + 2
      bytes, all clocked with 0xFF. */
  lemma ParseDecode(status: seq<byte>, header: seq<byte>, window: seq<byte>, trailer: seq<byte>)
    requires |status| == 2 && |header| == 1 && |window| == 62 && |trailer| == 2
    ensures var t := DecodeEvents(status, header, window, trailer);
      status[1] >= 0x80 ==> Parse(t) == Some([Txn(ReceiverCs, [0xFB, 0xFB], status)])
    ensures var t := DecodeEvents(status, header, window, trailer);
      status[1] < 0x80 ==> Parse(t) == Some([Txn(ReceiverCs, [0xFB, 0xFB], status),
                                             Txn(ReceiverCs, Repeat(0xFF, 65), header + window + trailer)])
  {
    var first := Frame(ReceiverCs, [Event.Read(0xFB, status)]);
    var t1 := Txn(ReceiverCs, [0xFB, 0xFB], status);
    ParseSingle(ReceiverCs, Event.Read(0xFB, status));
    assert Repeat(0xFB, 2) == [0xFB, 0xFB];
    if status[1] >= 0x80 {
      assert DecodeEvents(status, header, window, trailer) == first;
    } else {
      var r1, r2, r3 := Event.Read(0xFF, header), Event.Read(0xFF, window), Event.Read(0xFF, trailer);
      var body, b2, b3 := [r1, r2, r3], [r2, r3], [r3];
      assert body[1..] == b2 && b2[1..] == b3 && b3[1..] == [];
      assert SentBy([]) == [] && GotBy([]) == [];
      assert SentBy(b3) == Repeat(0xFF, 2) + [] && GotBy(b3) == trailer + [];
      assert SentBy(body) == Repeat(0xFF, 1) + (Repeat(0xFF, 62) + Repeat(0xFF, 2));
      assert GotBy(body) == header + (window + trailer);
      assert Repeat(0xFF, 1) + (Repeat(0xFF, 62) + Repeat(0xFF, 2)) == Repeat(0xFF, 65);
      assert header + (window + trailer) == header + window + trailer;
      var t2 := Txn(ReceiverCs, Repeat(0xFF, 65), header + window + trailer);
      ParseFrame(ReceiverCs, body);
      ParseConcat(first, Frame(ReceiverCs, body), [t1], [t2]);
      assert [t1] + [t2] == [t1, t2];
    }
  }

  lemma DecodeOverflow(m: MessageView, status: seq<byte>, window: seq<byte>, trailer: seq<byte>)
    requires |status| == 2 && |window| == 62 && |trailer| == 2
    requires status[1] >= 0x80
    ensures DecodeView(m, status, window, trailer) == Decoded(m.(overflow := true), false)
  {
  }

  /** The fields a decode sets do not depend on what the message held before,
      except `data` when `chr` raises. */
  lemma DecodeFields(m: MessageView, status: seq<byte>, window: seq<byte>, trailer: seq<byte>)
    requires |status| == 2 && |window| == 62 && |trailer| == 2
    requires status[1] < 0x80
    ensures var v := DecodeView(m, status, window, trailer).view;
      !v.overflow && v.crc == m.crc &&
      v.length == window[0] && v.sequence == window[1] &&
      v.crcCheck == Some(trailer[1] / 0x80 == 1) && 0 <= v.linkQuality < 0x80 &&
      v.linkQuality + (if trailer[1] >= 0x80 then 0x80 else 0) == trailer[1] &&
      |v.data| <= (if DecodeView(m, status, window, trailer).raised then |m.data| else 60)
  {
    var text := Scan(PayloadBytes(window));
    if text.Some? {
      ScanLength(PayloadBytes(window));
    }
  }

  /** The payload is the bytes after the sequence number up to the end of
      the packet as the length byte counts it (which includes the sequence
      number), cut at the end of the window. */
  lemma PayloadSlice(window: seq<byte>)
    requires |window| == 62
    ensures var p := PayloadBytes(window);
      |p| == (if window[0] <= 1 then 0 else if window[0] <= 61 then window[0] - 1 else 60) &&
      forall k :: 0 <= k < |p| ==> p[k] == window[k + 2]
  {
  }

  /** Round trip with a transmitter that frames a packet as a length byte
      counting itself out, a sequence number and the UTF-8 text: the decoder
      gives back the sequence number and the text. */
  lemma DecodeRoundTrip(m: MessageView, status: seq<byte>, sq: byte, cs: seq<int>, pad: seq<byte>, trailer: seq<byte>)
    requires |status| == 2 && status[1] < 0x80 && |trailer| == 2
    requires AllScalar(cs) && |Encode(cs)| <= 60
    requires |Encode(cs)| + 2 + |pad| == 62
    ensures var window := [|Encode(cs)| + 1, sq] + Encode(cs) + pad;
      var d := DecodeView(m, status, window, trailer);
      !d.raised && d.view.sequence == sq && d.view.length == |Encode(cs)| + 1 && d.view.data == cs
  {
    var body := Encode(cs);
    var window: seq<byte> := [|body| + 1, sq] + body + pad;
    assert window[0] == |body| + 1;
    EncodeLength(cs);
    if |body| == 0 {
      assert PayloadBytes(window) == [];
    } else {
      assert PayloadBytes(window) == window[2..|body| + 2] == body;
    }
    ScanEncode(cs);
  }

  /** The RSSI agrees with the two's-complement reading of the RSSI byte
      exactly when the length byte and the RSSI byte have the same top bit;
      a short packet with a weak signal shows the difference. */
  lemma RssiSignSource(len: byte, t0: byte)
    ensures Rssi(len, t0) == Signed(t0) as real / 2.0 - 70.0 <==> (len >= 128 <==> t0 >= 128)
  {
  }

  lemma RssiExample()
    ensures Rssi(10, 200) == 30.0 && Signed(200) as real / 2.0 - 70.0 == -98.0
  {
  }
}
