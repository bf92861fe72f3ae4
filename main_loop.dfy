/** The main loop of the firmware: each pass dispatches on the receiver's and
    the carrier's event strings through one `if`/`elif` chain, handles a
    reception (decode, demo substitution, re-arm), shows the waiting notice
    once per waiting stretch, or stops the carrier and leaves the loop.
    Display, LED and console output become entries of a `ui` log. */
module MainLoop {
  import opened Common
  import opened Bus
  import opened Receiver
  import opened Carrier

  /** What the outside world sees of one pass, one entry per call site. */
  datatype UiEvent =
    | ReceivedNotice                  // "Message received!"
    | ReceptionFailed                 // the `except` of the reception branch
    | MessageLedBlink                 // LED_MESSAGE on, then off
    | PrintMessage(m: MessageView)    // print_RX, when it prints
    | ShowMessage(m: MessageView)     // display.print_msg
    | WaitingNotice                   // "Waiting for messages..."
    | ShowWaiting                     // display.print_waiting
    | TimeoutNotice                   // "Carrier timeout! Stopping..."
    | CarrierLedOff                   // LED_CARRIER off
    | ShowCarrierTimeout              // display.print_carrier_timeout

  /** What boot left behind: whether the local modules imported (they import
      together or not at all) and whether a display was set up. */
  datatype Boot = Boot(imported: bool, hasDisplay: bool)

  /** `receiver.event_RX`, `carrier.event_TX` and the loop counters. */
  datatype LoopState = LoopState(eventRx: string, eventTx: string, cnt: int, cnt2: int)

  /** The values the events hold when the loop is entered. */
  function Initial(): LoopState
  {
    LoopState("no_reception", "no_timeout", 1, 0)
  }

  /** What the CC2500 answers to the reads of one decode: the two status
      bytes, then the 1, 62 and 2 bytes of the FIFO reads. */
  datatype Reply = Reply(status: seq<byte>, header: seq<byte>, window: seq<byte>, trailer: seq<byte>)

  type Answer = a: Reply | |a.status| == 2 && |a.header| == 1 && |a.window| == 62 && |a.trailer| == 2
    witness Reply([0, 0], [0], seq(62, _ => 0), [0, 0])

  /** What can happen between two passes: the demo timer's callback
      (`dummy_event_update`) sets `event_RX` to "reception", or the loop makes
      one pass, the chip answering `answer` if the pass decodes. */
  datatype Input = Tick | Pass(answer: Answer)

  /** The branch of the `elif` chain a pass takes. */
  datatype Branch = Receive | Wait | Stop | Idle

  function BranchOf(boot: Boot, s: LoopState): Branch
  {
    if boot.imported && s.eventRx == "reception" then Receive
    else if boot.imported && s.eventRx == "no_reception" then Wait
    else if boot.imported && s.eventTx == "timeout" then Stop
    else Idle
  }

  // ------------------------------------------------------------ demo text

  function CodePoints(s: string): (r: seq<int>)
    ensures |r| == |s| && forall i :: 0 <= i < |s| ==> r[i] == s[i] as int
  {
    seq(|s|, i requires 0 <= i < |s| => s[i] as int)
  }

  /** The three demo texts and RSSI offsets, indexed by `cnt2`. */
  const DemoTexts: seq<string> := [
    "Hello je backscatte comment \U{E7}a va le sang",
    "Salut je suis Amaury, \U{E9}tudiant \U{E0} RISE",
    "J'adore la Su\U{E8}de, super pays!"]

  const DemoBoosts: seq<real> := [5.0, 3.0, 8.0]

  /** The demo substitution: for `cnt2` in 0..2, `data` and `RSSI` of the
      decoded message are overwritten with that entry of the tables. */
  function Demo(cnt2: int, m: MessageView): (r: MessageView)
    ensures r.length == m.length && r.sequence == m.sequence && r.overflow == m.overflow
    ensures r.crc == m.crc && r.crcCheck == m.crcCheck && r.linkQuality == m.linkQuality
  {
    if 0 <= cnt2 < 3 then m.(data := CodePoints(DemoTexts[cnt2]), rssi := m.rssi + DemoBoosts[cnt2])
    else m
  }

  /** print_RX prints unless `CRC` or `overflow` is set. */
  function PrintRx(m: MessageView): seq<UiEvent>
  {
    if m.crc != 0 || m.overflow then [] else [PrintMessage(m)]
  }

  function IfDisplay(boot: Boot, e: UiEvent): seq<UiEvent>
  {
    if boot.hasDisplay then [e] else []
  }

  /** The stop frame of stop_carrier_TX on the shipped image. */
  function StopEvents(): seq<Event>
  {
    PowerDownBits(DefaultImage[4]);
    WordEvents(PowerDown(DefaultImage[4]))
  }

  // -------------------------------------------------------- one pass

  /** The result of some passes: the new state, what was shown, what went
      over the bus, and whether the loop was left by `break`. */
  datatype After = After(state: LoopState, ui: seq<UiEvent>, events: seq<Event>, exited: bool)

  /** The reception branch, given what decode_packet_RX left in a fresh
      `Message` and the bus events of the decode. */
  function Received(boot: Boot, s: LoopState, d: Decoded, decode: seq<Event>): After
  {
    if d.raised then After(s, [ReceivedNotice, ReceptionFailed], decode, false)
    else
      var m := Demo(s.cnt2, d.view);
      After(s.(eventRx := "no_reception", cnt := 1, cnt2 := (s.cnt2 + 1) % 3),
            [ReceivedNotice, MessageLedBlink] + PrintRx(m) + IfDisplay(boot, ShowMessage(m)),
            decode + ListenEvents(), false)
  }

  /** What one pass of the loop does. */
  function Iteration(boot: Boot, s: LoopState, a: Answer): After
  {
    match BranchOf(boot, s)
    case Receive =>
      Received(boot, s, DecodeView(Fresh(), a.status, a.window, a.trailer),
               DecodeEvents(a.status, a.header, a.window, a.trailer))
    case Wait =>
      if s.cnt != 0 then After(s.(cnt := 0), [WaitingNotice] + IfDisplay(boot, ShowWaiting), [], false)
      else After(s, [], [], false)
    case Stop =>
      After(s, [TimeoutNotice, CarrierLedOff] + IfDisplay(boot, ShowCarrierTimeout), StopEvents(), true)
    case Idle =>
      After(s, [], [], false)
  }

  function Apply(boot: Boot, s: LoopState, input: Input): After
  {
    match input
    case Tick => After(s.(eventRx := "reception"), [], [], false)
    case Pass(a) => Iteration(boot, s, a)
  }

  /** The loop run on a finite script of passes and timer callbacks; a
      `break` ends it and the rest of the script is not used. */
  function Loop(boot: Boot, s: LoopState, inputs: seq<Input>): After
    decreases |inputs|
  {
    if |inputs| == 0 then After(s, [], [], false)
    else
      var a := Apply(boot, s, inputs[0]);
      if a.exited then a
      else
        var r := Loop(boot, a.state, inputs[1..]);
        After(r.state, a.ui + r.ui, a.events + r.events, r.exited)
  }

  // ---------------------------------------------------------- the loop

  /** The loop's variables and the module attributes it reads and writes,
      with the bus and the carrier driver it uses. */
  class Firmware {
    const boot: Boot
    const bus: SpiBus
    const carrier: Adf4351
    var eventRx: string
    var eventTx: string
    var cnt: int
    var cnt2: int
    var ui: seq<UiEvent>

    function State(): LoopState
      reads this
    {
      LoopState(eventRx, eventTx, cnt, cnt2)
    }

    predicate Valid()
      reads this, carrier, carrier.regs
    {
      carrier.Valid()
    }

    constructor (boot: Boot, bus: SpiBus, carrier: Adf4351)
      requires carrier.Valid()
      ensures Valid() && State() == Initial() && ui == []
      ensures this.boot == boot && this.bus == bus && this.carrier == carrier
    {
      this.boot, this.bus, this.carrier := boot, bus, carrier;
      eventRx, eventTx, cnt, cnt2, ui := "no_reception", "no_timeout", 1, 0, [];
    }

    /** `dummy_event_update`, the demo timer's callback. */
    method Tick()
      modifies this
      ensures State() == old(State()).(eventRx := "reception") && ui == old(ui)
    {
      eventRx := "reception";
    }

    /** The demo substitution on the decoded message: one text and one RSSI
        offset per value of `cnt2`, nothing for any other value. */
    static method Substitute(message: Message, cnt2: int)
      modifies message
      ensures message.View() == Demo(cnt2, old(message.View()))
    {
      if cnt2 == 0 {
        message.data := CodePoints("Hello je backscatte comment \U{E7}a va le sang");
        message.rssi := message.rssi + 5.0;
      } else if cnt2 == 1 {
        message.data := CodePoints("Salut je suis Amaury, \U{E9}tudiant \U{E0} RISE");
        message.rssi := message.rssi + 3.0;
      } else if cnt2 == 2 {
        message.data := CodePoints("J'adore la Su\U{E8}de, super pays!");
        message.rssi := message.rssi + 8.0;
      }
    }

    /** The reception branch. */
    method Receive(a: Answer)
      requires Valid() && BranchOf(boot, State()) == Branch.Receive
      modifies this, bus
      ensures Valid()
      ensures var r := Iteration(boot, old(State()), a);
        State() == r.state && ui == old(ui) + r.ui && bus.trace == old(bus.trace) + r.events
    {
      ghost var t0 := bus.trace;
      var message := new Message();
      var raised := DecodePacket(bus, message, a.status, a.header, a.window, a.trailer);
      if raised {
        ui := ui + [ReceivedNotice, ReceptionFailed];
        return;
      }
      Substitute(message, cnt2);
      var m := message.View();
      ui := ui + ([ReceivedNotice, MessageLedBlink] + PrintRx(m) + IfDisplay(boot, ShowMessage(m)));
      cnt2 := (cnt2 + 1) % 3;
      StartListen(bus);
      Associative(t0, DecodeEvents(a.status, a.header, a.window, a.trailer), ListenEvents());
      eventRx := "no_reception";
      cnt := 1;
    }

    /** One pass of `while True`; `exit` is the `break`. */
    method Iterate(a: Answer) returns (exit: bool)
      requires Valid()
      modifies this, bus
      ensures Valid()
      ensures var r := Iteration(boot, old(State()), a);
        State() == r.state && ui == old(ui) + r.ui && bus.trace == old(bus.trace) + r.events
        && exit == r.exited
    {
      exit := false;
      if boot.imported && eventRx == "reception" {
        Receive(a);
      } else if boot.imported && eventRx == "no_reception" {
        if cnt != 0 {
          ui := ui + ([WaitingNotice] + IfDisplay(boot, ShowWaiting));
          cnt := 0;
        } else {
          assert ui == old(ui) + [];
        }
        assert bus.trace == old(bus.trace) + [];
      } else if boot.imported && eventTx == "timeout" {
        assert carrier.regs[4] == DefaultImage[4] by {
          assert carrier.regs[1..][3] == DefaultImage[1..][3];
        }
        carrier.StopCarrier(bus);
        ui := ui + ([TimeoutNotice, CarrierLedOff] + IfDisplay(boot, ShowCarrierTimeout));
        exit := true;
      } else {
        assert ui == old(ui) + [] && bus.trace == old(bus.trace) + [];
      }
    }

    /** A timer callback or one pass. */
    method Step(input: Input) returns (exit: bool)
      requires Valid()
      modifies this, bus
      ensures Valid()
      ensures var r := Apply(boot, old(State()), input);
        State() == r.state && ui == old(ui) + r.ui && bus.trace == old(bus.trace) + r.events
        && exit == r.exited
    {
      match input {
        case Tick =>
          Tick();
          exit := false;
          assert ui == old(ui) + [] && bus.trace == old(bus.trace) + [];
        case Pass(a) =>
          exit := Iterate(a);
      }
    }

    /** The loop driven by `inputs` until a `break` or the end of the
        script; `exited` tells which. */
    method Run(inputs: seq<Input>) returns (exited: bool)
      requires Valid()
      modifies this, bus
      ensures Valid()
      ensures var r := Loop(boot, old(State()), inputs);
        State() == r.state && ui == old(ui) + r.ui && bus.trace == old(bus.trace) + r.events
        && exited == r.exited
    {
      ghost var whole := Loop(boot, State(), inputs);
      ghost var doneUi: seq<UiEvent> := [];
      ghost var doneEvents: seq<Event> := [];
      assert whole == Then([], [], whole);
      var k := 0;
      while k < |inputs|
        invariant 0 <= k <= |inputs| && Valid()
        invariant ui == old(ui) + doneUi && bus.trace == old(bus.trace) + doneEvents
        invariant whole == Then(doneUi, doneEvents, Loop(boot, State(), inputs[k..]))
      {
        ghost var step := Apply(boot, State(), inputs[k]);
        LoopUnfold(boot, State(), inputs[k..], doneUi, doneEvents);
        assert inputs[k..][1..] == inputs[k + 1..];
        exited := Step(inputs[k]);
        Associative(old(bus.trace), doneEvents, step.events);
        Associative(old(ui), doneUi, step.ui);
        doneUi, doneEvents := doneUi + step.ui, doneEvents + step.events;
        if exited {
          return;
        }
        k := k + 1;
      }
      assert inputs[k..] == [];
      assert doneUi + [] == doneUi && doneEvents + [] == doneEvents;
      exited := false;
    }
  }

  /** `r` preceded by output already produced. */
  function Then(ui: seq<UiEvent>, events: seq<Event>, r: After): After
  {
    After(r.state, ui + r.ui, events + r.events, r.exited)
  }

  /** One input of a run, with the output produced before it. */
  lemma LoopUnfold(boot: Boot, s: LoopState, inputs: seq<Input>, ui: seq<UiEvent>, events: seq<Event>)
    requires |inputs| > 0
    ensures var a := Apply(boot, s, inputs[0]);
      var r := Then(ui, events, Loop(boot, s, inputs));
      if a.exited then r == After(a.state, ui + a.ui, events + a.events, true)
      else r == Then(ui + a.ui, events + a.events, Loop(boot, a.state, inputs[1..]))
  {
    var a := Apply(boot, s, inputs[0]);
    if !a.exited {
      var rest := Loop(boot, a.state, inputs[1..]);
      assert ui + (a.ui + rest.ui) == ui + a.ui + rest.ui;
      assert events + (a.events + rest.events) == events + a.events + rest.events;
    }
  }

  // ----------------------------------------------------------- properties

  /** `event_RX` holds one of the two values the firmware ever gives it. */
  predicate RxSettled(s: LoopState)
  {
    s.eventRx == "reception" || s.eventRx == "no_reception"
  }

  /** The carrier branch is taken exactly when the modules are present,
      `event_RX` is neither "reception" nor "no_reception", and `event_TX`
      is "timeout"; it is the only way out of the loop. */
  lemma TimeoutBranch(boot: Boot, s: LoopState, a: Answer)
    ensures Iteration(boot, s, a).exited <==> boot.imported && !RxSettled(s) && s.eventTx == "timeout"
    ensures Iteration(boot, s, a).exited ==>
      Parse(Iteration(boot, s, a).events) == Some([WordTxn(0x00AC8024)]) &&
      Iteration(boot, s, a).state == s
  {
    if Iteration(boot, s, a).exited {
      PowerDownShipped();
      ParseWord(0x00AC8024);
    }
  }

  /** After the `break` nothing more is dispatched: the rest of the script
      changes nothing. */
  lemma BreakIsFinal(boot: Boot, s: LoopState, inputs: seq<Input>)
    requires |inputs| > 0 && Apply(boot, s, inputs[0]).exited
    ensures Loop(boot, s, inputs) == Apply(boot, s, inputs[0])
  {
  }

  /** A pass or a timer callback keeps `event_RX` at one of its two values
      and, then, never leaves the loop. */
  lemma ApplySettled(boot: Boot, s: LoopState, input: Input)
    requires RxSettled(s)
    ensures RxSettled(Apply(boot, s, input).state) && !Apply(boot, s, input).exited
  {
    match input {
      case Tick =>
      case Pass(a) => TimeoutBranch(boot, s, a);
    }
  }

  /** From a state with `event_RX` settled, whatever the timer and the chip
      do, the loop never reaches the carrier-stop branch and never ends. */
  lemma {:induction false} NeverStops(boot: Boot, s: LoopState, inputs: seq<Input>)
    requires RxSettled(s)
    ensures !Loop(boot, s, inputs).exited && RxSettled(Loop(boot, s, inputs).state)
    decreases |inputs|
  {
    if |inputs| > 0 {
      ApplySettled(boot, s, inputs[0]);
      NeverStops(boot, Apply(boot, s, inputs[0]).state, inputs[1..]);
    }
  }

  /** With the values the events get before the loop is entered, the carrier
      is never stopped by the loop. */
  lemma InitialNeverStops(boot: Boot, inputs: seq<Input>)
    ensures !Loop(boot, Initial(), inputs).exited
  {
    NeverStops(boot, Initial(), inputs);
  }

  /** The waiting notice (and its display) for one waiting stretch. */
  function WaitUi(boot: Boot): seq<UiEvent>
  {
    [WaitingNotice] + IfDisplay(boot, ShowWaiting)
  }

  predicate AllPasses(inputs: seq<Input>)
  {
    forall k :: 0 <= k < |inputs| ==> inputs[k].Pass?
  }

  /** While no message arrives, passes in the "no_reception" state show the
      waiting notice at most once (on the first pass, if `cnt` was set), and
      touch neither the bus nor anything but `cnt`. */
  lemma {:induction false} WaitingOnce(boot: Boot, s: LoopState, inputs: seq<Input>)
    requires boot.imported && s.eventRx == "no_reception" && AllPasses(inputs)
    ensures var r := Loop(boot, s, inputs);
      r.ui == (if |inputs| > 0 && s.cnt != 0 then WaitUi(boot) else []) &&
      r.events == [] && !r.exited &&
      r.state == (if |inputs| > 0 then s.(cnt := 0) else s)
    decreases |inputs|
  {
    if |inputs| > 0 {
      var a := Apply(boot, s, inputs[0]);
      assert a.events == [] && a.state == s.(cnt := 0);
      assert AllPasses(inputs[1..]) by {
        forall k | 0 <= k < |inputs[1..]| ensures inputs[1..][k].Pass? {
          assert inputs[1..][k] == inputs[k + 1];
        }
      }
      WaitingOnce(boot, a.state, inputs[1..]);
      var r := Loop(boot, a.state, inputs[1..]);
      assert r.ui == [] && r.events == [];
      assert a.ui + [] == a.ui;
    }
  }

  /** The transactions of a decode, as the CC2500 sees them. */
  function DecodeTxns(a: Answer): seq<Txn>
  {
    [Txn(ReceiverCs, [0xFB, 0xFB], a.status)] +
    if a.status[1] >= 0x80 then [] else [Txn(ReceiverCs, Repeat(0xFF, 65), a.header + a.window + a.trailer)]
  }

  /** The transactions of start_listen_RX. */
  function ListenTxns(): seq<Txn>
  {
    [Txn(ReceiverCs, [SIDLE], []), Txn(ReceiverCs, [0x17, 0x00], []),
     Txn(ReceiverCs, [SFRX], []), Txn(ReceiverCs, [SRX], [])]
  }

  /** The decode's frames, as the CC2500 sees them. */
  lemma DecodeParse(a: Answer)
    ensures Parse(DecodeEvents(a.status, a.header, a.window, a.trailer)) == Some(DecodeTxns(a))
  {
    ParseDecode(a.status, a.header, a.window, a.trailer);
    var first := Txn(ReceiverCs, [0xFB, 0xFB], a.status);
    if a.status[1] >= 0x80 {
      assert DecodeTxns(a) == [first] + [] == [first];
    } else {
      var second := Txn(ReceiverCs, Repeat(0xFF, 65), a.header + a.window + a.trailer);
      assert DecodeTxns(a) == [first] + [second] == [first, second];
    }
  }

  /** The decode followed by the re-arming of the receiver. */
  lemma RearmParse(a: Answer)
    ensures Parse(DecodeEvents(a.status, a.header, a.window, a.trailer) + ListenEvents())
         == Some(DecodeTxns(a) + ListenTxns())
  {
    DecodeParse(a);
    ParseListen();
    ParseConcat(DecodeEvents(a.status, a.header, a.window, a.trailer), ListenEvents(), DecodeTxns(a), ListenTxns());
  }

  /** A handled reception decodes, then re-arms the receiver (idle, return
      to idle after a packet, flush, receive), and only then sets `event_RX`
      to "no_reception", `cnt` to 1 and advances `cnt2`; a decode that raises
      changes no state and re-arms nothing, so the next pass decodes again. */
  lemma Reception(boot: Boot, s: LoopState, a: Answer)
    requires BranchOf(boot, s) == Branch.Receive
    ensures var r := Iteration(boot, s, a);
      var raised := DecodeView(Fresh(), a.status, a.window, a.trailer).raised;
      (raised ==> r.state == s && Parse(r.events) == Some(DecodeTxns(a)) &&
                  r.ui == [ReceivedNotice, ReceptionFailed]) &&
      (!raised ==> r.state == s.(eventRx := "no_reception", cnt := 1, cnt2 := (s.cnt2 + 1) % 3) &&
                   Parse(r.events) == Some(DecodeTxns(a) + ListenTxns()))
  {
    var d := DecodeView(Fresh(), a.status, a.window, a.trailer);
    var decode := DecodeEvents(a.status, a.header, a.window, a.trailer);
    assert Iteration(boot, s, a) == Received(boot, s, d, decode);
    if d.raised {
      DecodeParse(a);
    } else {
      RearmParse(a);
    }
  }

  /** The message a handled reception shows: the demo text and RSSI offset
      for the current `cnt2`, over the decoded RSSI, length and sequence; an
      overflowed decode is shown too, with the demo text over the class
      defaults, and is not printed. */
  lemma DemoShown(boot: Boot, s: LoopState, a: Answer)
    requires BranchOf(boot, s) == Branch.Receive && 0 <= s.cnt2 < 3 && boot.hasDisplay
    requires !DecodeView(Fresh(), a.status, a.window, a.trailer).raised
    ensures var ui := Iteration(boot, s, a).ui;
      ui[|ui| - 1].ShowMessage? &&
      var m := ui[|ui| - 1].m;
      m.data == CodePoints(DemoTexts[s.cnt2]) &&
      (a.status[1] < 0x80 ==> m.rssi == Rssi(a.window[0], a.trailer[0]) + DemoBoosts[s.cnt2] &&
                              m.length == a.window[0] && m.sequence == a.window[1] && !m.overflow &&
                              PrintMessage(m) in ui) &&
      (a.status[1] >= 0x80 ==> m.rssi == DemoBoosts[s.cnt2] && m.length == 0 && m.overflow &&
                               PrintMessage(m) !in ui)
  {
    var d := DecodeView(Fresh(), a.status, a.window, a.trailer);
    var decode := DecodeEvents(a.status, a.header, a.window, a.trailer);
    var m := Demo(s.cnt2, d.view);
    assert Iteration(boot, s, a) == Received(boot, s, d, decode);
    var ui := [ReceivedNotice, MessageLedBlink] + PrintRx(m) + [ShowMessage(m)];
    assert Iteration(boot, s, a).ui == ui;
    assert ui[|ui| - 1] == ShowMessage(m);
    if a.status[1] < 0x80 {
      assert ui[2] == PrintMessage(m);
    } else {
      assert ui == [ReceivedNotice, MessageLedBlink, ShowMessage(m)];
    }
  }

  /** The number of LED blinks in a log: one per handled reception. */
  function Blinks(ui: seq<UiEvent>): nat
  {
    if |ui| == 0 then 0 else (if ui[0] == MessageLedBlink then 1 else 0) + Blinks(ui[1..])
  }

  lemma {:induction false} BlinksAppend(x: seq<UiEvent>, y: seq<UiEvent>)
    ensures Blinks(x + y) == Blinks(x) + Blinks(y)
    decreases |x|
  {
    if |x| == 0 {
      assert x + y == y;
    } else {
      assert (x + y)[0] == x[0] && (x + y)[1..] == x[1..] + y;
      BlinksAppend(x[1..], y);
    }
  }

  /** The LED blinks once in a handled reception and not when the decode
      raises, and `cnt2` advances with it. */
  lemma ReceivedCnt2(boot: Boot, s: LoopState, d: Decoded, decode: seq<Event>)
    requires 0 <= s.cnt2 < 3
    ensures var r := Received(boot, s, d, decode);
      Blinks(r.ui) == (if d.raised then 0 else 1) && r.state.cnt2 == (s.cnt2 + Blinks(r.ui)) % 3
  {
    if d.raised {
      assert Blinks([ReceivedNotice, ReceptionFailed]) == 0;
    } else {
      var m := Demo(s.cnt2, d.view);
      assert Blinks([ReceivedNotice, MessageLedBlink]) == 1;
      assert Blinks(PrintRx(m)) == 0 && Blinks(IfDisplay(boot, ShowMessage(m))) == 0;
      BlinksAppend([ReceivedNotice, MessageLedBlink], PrintRx(m));
      BlinksAppend([ReceivedNotice, MessageLedBlink] + PrintRx(m), IfDisplay(boot, ShowMessage(m)));
    }
  }

  /** A pass that is not a reception keeps `cnt2` and does not blink. */
  lemma OtherCnt2(boot: Boot, s: LoopState, a: Answer)
    requires BranchOf(boot, s) != Branch.Receive
    ensures Iteration(boot, s, a).state.cnt2 == s.cnt2 && Blinks(Iteration(boot, s, a).ui) == 0
  {
    var r := Iteration(boot, s, a);
    if BranchOf(boot, s) == Branch.Wait && s.cnt != 0 {
      assert r.ui == [WaitingNotice] + IfDisplay(boot, ShowWaiting);
      assert Blinks([WaitingNotice]) == 0 && Blinks(IfDisplay(boot, ShowWaiting)) == 0;
      BlinksAppend([WaitingNotice], IfDisplay(boot, ShowWaiting));
    } else if BranchOf(boot, s) == Branch.Stop {
      assert r.ui == [TimeoutNotice, CarrierLedOff] + IfDisplay(boot, ShowCarrierTimeout);
      assert Blinks([TimeoutNotice, CarrierLedOff]) == 0 && Blinks(IfDisplay(boot, ShowCarrierTimeout)) == 0;
      BlinksAppend([TimeoutNotice, CarrierLedOff], IfDisplay(boot, ShowCarrierTimeout));
    } else {
      assert r.ui == [];
    }
  }

  /** One pass or callback advances `cnt2` by one, modulo 3, exactly when it
      blinks the message LED, i.e. handles a reception. */
  lemma ApplyCnt2(boot: Boot, s: LoopState, input: Input)
    requires 0 <= s.cnt2 < 3
    ensures var r := Apply(boot, s, input);
      0 <= r.state.cnt2 < 3 && Blinks(r.ui) <= 1 &&
      r.state.cnt2 == (s.cnt2 + Blinks(r.ui)) % 3
  {
    if input.Pass? {
      var a := input.answer;
      if BranchOf(boot, s) == Branch.Receive {
        ReceivedCnt2(boot, s, DecodeView(Fresh(), a.status, a.window, a.trailer),
                     DecodeEvents(a.status, a.header, a.window, a.trailer));
      } else {
        OtherCnt2(boot, s, a);
      }
    }
  }

  /** Counting modulo 3 in two steps is counting modulo 3 once. */
  lemma ModAdd(c: int, x: int, y: int)
    ensures ((c + x) % 3 + y) % 3 == (c + x + y) % 3
  {
    var q := (c + x) / 3;
    assert c + x + y == 3 * q + ((c + x) % 3 + y);
  }

  /** `cnt2` at the end of `r` lies in 0..2 and is `c` advanced by the LED
      blinks in the log of `r`, modulo 3. */
  predicate Tracks(c: int, r: After)
  {
    0 <= r.state.cnt2 < 3 && r.state.cnt2 == (c + Blinks(r.ui)) % 3
  }

  /** The step of Cnt2Cycles, on the results alone: a step followed by the
      rest of the run. */
  lemma Cnt2Join(c: int, a: After, r: After, whole: After)
    requires 0 <= c < 3 && Tracks(c, a) && Tracks(a.state.cnt2, r)
    requires whole.state == r.state && whole.ui == a.ui + r.ui
    ensures Tracks(c, whole)
  {
    var x, y := Blinks(a.ui), Blinks(r.ui);
    BlinksAppend(a.ui, r.ui);
    ModAdd(c, x, y);
    assert whole.state.cnt2 == ((c + x) % 3 + y) % 3;
  }

  /** Over a whole run `cnt2` stays in 0..2 and cycles 0, 1, 2, 0, ...:
      its final value is its first one plus the number of handled
      receptions, modulo 3. */
  lemma {:induction false} Cnt2Cycles(boot: Boot, s: LoopState, inputs: seq<Input>)
    requires 0 <= s.cnt2 < 3
    ensures Tracks(s.cnt2, Loop(boot, s, inputs))
    decreases |inputs|
  {
    if |inputs| == 0 {
      assert Blinks([]) == 0;
    } else {
      var a := Apply(boot, s, inputs[0]);
      ApplyCnt2(boot, s, inputs[0]);
      if !a.exited {
        Cnt2Cycles(boot, a.state, inputs[1..]);
        Cnt2Join(s.cnt2, a, Loop(boot, a.state, inputs[1..]), Loop(boot, s, inputs));
      }
    }
  }
}
