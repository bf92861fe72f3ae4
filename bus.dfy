/** The SPI1 bus shared by the CC2500 receiver and the ADF4351 synthesiser,
    seen as the ordered list of what the master does on it, together with a
    parser that reads such a list back as transactions. */
module Bus {
  import opened Common

  /** The two select lines on the bus: the CC2500 chip select (active low)
      and the ADF4351 latch enable (held low while a word is shifted in). */
  datatype Line = ReceiverCs | CarrierLe

  /** One action of the master.  `Read(fill, got)` is MicroPython's
      `spi.read(|got|, fill)`: it clocks `fill` out once per byte received. */
  datatype Event =
    | Low(line: Line)
    | High(line: Line)
    | Write(out: seq<byte>)
    | Read(fill: byte, got: seq<byte>)

  /** A transaction as the selected chip sees it: the line it was selected by,
      every byte it was sent, every byte it answered. */
  datatype Txn = Txn(line: Line, sent: seq<byte>, got: seq<byte>)

  /** The SPI peripheral together with the select pins; `trace` is everything
      done on it so far.  The bytes a read returns are supplied by the caller:
      they are the chip's answer, an input of the model. */
  class SpiBus {
    var trace: seq<Event>

    constructor ()
      ensures trace == []
    {
      trace := [];
    }

    /** `pin.value(0)` */
    method Select(line: Line)
      modifies this
      ensures trace == old(trace) + [Low(line)]
    {
      trace := trace + [Low(line)];
    }

    /** `pin.value(1)` */
    method Release(line: Line)
      modifies this
      ensures trace == old(trace) + [High(line)]
    {
      trace := trace + [High(line)];
    }

    /** `spi.write(out)` */
    method Write(out: seq<byte>)
      modifies this
      ensures trace == old(trace) + [Event.Write(out)]
    {
      trace := trace + [Event.Write(out)];
    }

    /** `spi.read(|answer|, fill)`, where the chip answers `answer`. */
    method Read(fill: byte, answer: seq<byte>) returns (got: seq<byte>)
      modifies this
      ensures got == answer
      ensures trace == old(trace) + [Event.Read(fill, answer)]
    {
      got := answer;
      trace := trace + [Event.Read(fill, answer)];
    }
  }

  /** Only data transfers, no select-line change. */
  predicate Transfers(body: seq<Event>)
  {
    forall k :: 0 <= k < |body| ==> body[k].Write? || body[k].Read?
  }

  /** The bytes the master clocks out during one transfer. */
  function Out(e: Event): seq<byte>
  {
    match e
    case Write(out) => out
    case Read(fill, got) => Repeat(fill, |got|)
    case _ => []
  }

  /** The bytes the master takes in during one transfer. */
  function In(e: Event): seq<byte>
  {
    if e.Read? then e.got else []
  }

  function SentBy(body: seq<Event>): seq<byte>
  {
    if |body| == 0 then [] else Out(body[0]) + SentBy(body[1..])
  }

  function GotBy(body: seq<Event>): seq<byte>
  {
    if |body| == 0 then [] else In(body[0]) + GotBy(body[1..])
  }

  /** Reads the transfers of a frame opened on `line` up to the `High` that
      closes it; gives the transaction and what follows it.  A second `Low`,
      or a `High` on another line, before the close is not a frame. */
  function CloseFrame(t: seq<Event>, line: Line, sent: seq<byte>, got: seq<byte>): (r: Option<(Txn, seq<Event>)>)
    ensures r.Some? ==> |r.value.1| < |t|
    decreases |t|
  {
    if |t| == 0 || t[0].Low? then None
    else if t[0].High? then
      (if t[0].line == line then Some((Txn(line, sent, got), t[1..])) else None)
    else CloseFrame(t[1..], line, sent + Out(t[0]), got + In(t[0]))
  }

  /** `x` in front of the transactions of `o`, if `o` parsed. */
  function Join(x: seq<Txn>, o: Option<seq<Txn>>): Option<seq<Txn>>
  {
    match o
    case None => None
    case Some(y) => Some(x + y)
  }

  /** The transactions of a trace made only of complete frames; `None` when
      the trace is not such a sequence of frames. */
  function Parse(t: seq<Event>): Option<seq<Txn>>
    decreases |t|
  {
    if |t| == 0 then Some([])
    else if !t[0].Low? then None
    else match CloseFrame(t[1..], t[0].line, [], [])
      case None => None
      case Some((txn, rest)) => Join([txn], Parse(rest))
  }

  /** The events of one frame on `line` carrying `body`. */
  function Frame(line: Line, body: seq<Event>): seq<Event>
  {
    [Low(line)] + body + [High(line)]
  }

  lemma {:induction false} CloseFrameOfBody(body: seq<Event>, line: Line, rest: seq<Event>, sent: seq<byte>, got: seq<byte>)
    requires Transfers(body)
    ensures CloseFrame(body + [High(line)] + rest, line, sent, got)
         == Some((Txn(line, sent + SentBy(body), got + GotBy(body)), rest))
    decreases |body|
  {
    var t := body + [High(line)] + rest;
    if |body| == 0 {
      assert t[0] == High(line) && t[1..] == rest;
      assert sent + SentBy(body) == sent && got + GotBy(body) == got;
    } else {
      assert t[0] == body[0] && (body[0].Write? || body[0].Read?);
      assert t[1..] == body[1..] + [High(line)] + rest;
      assert Transfers(body[1..]) by {
        forall k | 0 <= k < |body[1..]| ensures body[1..][k].Write? || body[1..][k].Read? {
          assert body[1..][k] == body[k + 1];
        }
      }
      CloseFrameOfBody(body[1..], line, rest, sent + Out(body[0]), got + In(body[0]));
      assert sent + Out(body[0]) + SentBy(body[1..]) == sent + SentBy(body);
      assert got + In(body[0]) + GotBy(body[1..]) == got + GotBy(body);
    }
  }

  /** A frame around data transfers parses as exactly one transaction that
      carries everything the transfers sent and received, in order. */
  lemma ParseFrame(line: Line, body: seq<Event>)
    requires Transfers(body)
    ensures Parse(Frame(line, body)) == Some([Txn(line, SentBy(body), GotBy(body))])
  {
    var t := Frame(line, body);
    assert t[1..] == body + [High(line)] + [];
    CloseFrameOfBody(body, line, [], [], []);
    assert [] + SentBy(body) == SentBy(body) && [] + GotBy(body) == GotBy(body);
    var txn := Txn(line, SentBy(body), GotBy(body));
    assert t[0] == Low(line);
    assert CloseFrame(t[1..], line, [], []) == Some((txn, []));
    assert Parse([]) == Some([]);
    assert [txn] + [] == [txn];
  }

  lemma {:induction false} CloseFrameAppend(t: seq<Event>, b: seq<Event>, line: Line, sent: seq<byte>, got: seq<byte>)
    requires CloseFrame(t, line, sent, got).Some?
    ensures CloseFrame(t + b, line, sent, got)
         == Some((CloseFrame(t, line, sent, got).value.0, CloseFrame(t, line, sent, got).value.1 + b))
    decreases |t|
  {
    assert (t + b)[0] == t[0];
    assert (t + b)[1..] == t[1..] + b;
    if !t[0].High? {
      CloseFrameAppend(t[1..], b, line, sent + Out(t[0]), got + In(t[0]));
    }
  }

  /** Parsing distributes over concatenation: once a trace parses, whatever
      follows it is parsed on its own and its transactions come after. */
  lemma {:induction false} ParseAppend(a: seq<Event>, b: seq<Event>)
    requires Parse(a).Some?
    ensures Parse(a + b) == Join(Parse(a).value, Parse(b))
    decreases |a|
  {
    if |a| == 0 {
      assert a + b == b;
      match Parse(b)
      case None =>
      case Some(y) => assert [] + y == y;
    } else {
      assert (a + b)[0] == a[0];
      assert (a + b)[1..] == a[1..] + b;
      var c := CloseFrame(a[1..], a[0].line, [], []);
      CloseFrameAppend(a[1..], b, a[0].line, [], []);
      var rest := c.value.1;
      ParseAppend(rest, b);
      match Parse(b)
      case None =>
      case Some(y) =>
        assert [c.value.0] + Parse(rest).value + y == [c.value.0] + (Parse(rest).value + y);
    }
  }

  /** Two traces that parse give, together, their transactions in order. */
  lemma ParseConcat(a: seq<Event>, b: seq<Event>, x: seq<Txn>, y: seq<Txn>)
    requires Parse(a) == Some(x) && Parse(b) == Some(y)
    ensures Parse(a + b) == Some(x + y)
  {
    ParseAppend(a, b);
  }

  /** A frame around one transfer. */
  lemma ParseSingle(line: Line, e: Event)
    requires e.Write? || e.Read?
    ensures Parse(Frame(line, [e])) == Some([Txn(line, Out(e), In(e))])
  {
    var body := [e];
    ParseFrame(line, body);
    assert body[1..] == [];
    assert SentBy(body) == Out(e) + [] == Out(e);
    assert GotBy(body) == In(e) + [] == In(e);
  }

  /** Concatenation of traces and logs is associative (stated once, so that
      proofs about traces built step by step can regroup them cheaply). */
  lemma Associative<T>(a: seq<T>, b: seq<T>, c: seq<T>)
    ensures a + b + c == a + (b + c)
  {
  }
}
