/** Model of gpio_isr.c: the two 32-slot callback tables of GPIO port 0, the
    attach operation that fills a slot and enables the edge, and the
    dispatcher run from the shared port interrupt.

    Each 32-bit interrupt register of port 0 is represented by the set of the
    pins whose bit is 1: `reg |= (1 << pin)` adds `pin`, `reg & (1 << i)` tests
    `i in reg`, and the register reads zero when the set is empty. */
module GpioIsr {
  import opened Wrappers

  /** Pins of port 0, and the number of slots in each callback table. */
  const PinCount: nat := 32

  /** A pin index below 32, the range of the table index `pin` and of the
      register bit `1 << pin`. For pin 31, `1 << 31` on a C `int` overflows
      into the sign bit, which ISO C leaves undefined; the model gives it
      bit 31 (0x80000000), the value the target compiler produces. */
  type Pin = p: nat | p < PinCount

  /** A 32-bit register of port 0, as the set of its 1 bits. */
  type Word = set<Pin>

  /** The identity of a user callback (a non-null function_pointer_t). */
  type HandlerId = nat

  /** gpio_interrupt_e. Attach tests only for the rising edge; every other
      value takes the falling-edge branch. */
  datatype Edge = RisingEdge | FallingEdge

  /** What the scan must select from the falling and rising status registers:
      nothing when no status bit is set; otherwise the lowest pin with a
      status bit set in either register, on the falling edge exactly when the
      pin's falling bit is set. */
  ghost predicate ScanSelects(statF: Word, statR: Word, sel: Option<(Pin, Edge)>)
  {
    match sel
    case None => statF == {} && statR == {}
    case Some((p, e)) =>
      (p in statF || p in statR) &&
      (forall q: Pin :: q < p ==> q !in statF && q !in statR) &&
      (e == FallingEdge <==> p in statF)
  }

  /** The scan's specification leaves no choice: at most one selection meets it. */
  lemma ScanSelectsUnique(statF: Word, statR: Word, a: Option<(Pin, Edge)>, b: Option<(Pin, Edge)>)
    requires ScanSelects(statF, statR, a) && ScanSelects(statF, statR, b)
    ensures a == b
  {
  }

  /** One serviced interrupt: the pin, the edge whose status bit was found,
      and the content of that edge's slot for the pin (None: the slot was never
      attached, where the source calls through a null pointer). */
  datatype Serviced = Serviced(pin: Pin, edge: Edge, handler: Option<HandlerId>)

  function Selection(r: Option<Serviced>): Option<(Pin, Edge)>
  {
    match r
    case None => None
    case Some(s) => Some((s.pin, s.edge))
  }

  /** The callback tables together with the port-0 interrupt registers. */
  class Gpio0Interrupts {
    /** gpio0R_callbacks */
    const risingCallbacks: array<Option<HandlerId>>
    /** gpio0F_callbacks */
    const fallingCallbacks: array<Option<HandlerId>>
    /** IO0IntEnR and IO0IntEnF */
    var enableR: Word
    var enableF: Word
    /** IO0IntStatR and IO0IntStatF, set by the hardware on an edge */
    var statusR: Word
    var statusF: Word
    /** The last word written to IO0IntClr */
    var clearWritten: Word

    ghost predicate Valid()
      reads this
    {
      risingCallbacks.Length == PinCount && fallingCallbacks.Length == PinCount &&
      risingCallbacks != fallingCallbacks
    }

    /** Start-up state: static tables are zero (every slot null), and the
        enable, status and clear registers read zero. */
    constructor ()
      ensures Valid()
      ensures fresh(risingCallbacks) && fresh(fallingCallbacks)
      ensures forall p: Pin :: risingCallbacks[p] == None && fallingCallbacks[p] == None
      ensures enableR == {} && enableF == {} && statusR == {} && statusF == {} && clearWritten == {}
    {
      risingCallbacks := new Option<HandlerId>[PinCount](_ => None);
      fallingCallbacks := new Option<HandlerId>[PinCount](_ => None);
      enableR, enableF, statusR, statusF, clearWritten := {}, {}, {}, {}, {};
    }

    /** The slot of `pin` in the table of `edge`. */
    function Slot(pin: Pin, edge: Edge): Option<HandlerId>
      requires Valid()
      reads this, risingCallbacks, fallingCallbacks
    {
      if edge == RisingEdge then risingCallbacks[pin] else fallingCallbacks[pin]
    }

    /** gpio0__attach_interrupt: store the callback in the table of the edge at
        index `pin` (overwriting what was there) and OR bit `pin` into that
        edge's enable register; the other table and register are untouched. */
    method Attach(pin: Pin, edge: Edge, callback: HandlerId)
      requires Valid()
      modifies this`enableR, this`enableF, risingCallbacks, fallingCallbacks
      ensures Valid()
      ensures edge == RisingEdge ==>
        risingCallbacks[..] == old(risingCallbacks[..])[pin := Some(callback)] &&
        fallingCallbacks[..] == old(fallingCallbacks[..]) &&
        enableR == old(enableR) + {pin} && enableF == old(enableF)
      ensures edge != RisingEdge ==>
        fallingCallbacks[..] == old(fallingCallbacks[..])[pin := Some(callback)] &&
        risingCallbacks[..] == old(risingCallbacks[..]) &&
        enableF == old(enableF) + {pin} && enableR == old(enableR)
    {
      if edge == RisingEdge {
        risingCallbacks[pin] := Some(callback);
        enableR := enableR + {pin};
      } else {
        fallingCallbacks[pin] := Some(callback);
        enableF := enableF + {pin};
      }
    }

    /** The scan of gpio0__interrupt_dispatcher: pins in ascending order, the
        falling status bit before the rising one, stopping at the first set
        bit and reading that edge's slot for the pin. */
    method Scan() returns (r: Option<Serviced>)
      requires Valid()
      ensures ScanSelects(statusF, statusR, Selection(r))
      ensures r.Some? ==> r.value.handler == Slot(r.value.pin, r.value.edge)
    {
      r := None;
      for i := 0 to PinCount
        invariant forall q: Pin :: q < i ==> q !in statusF && q !in statusR
      {
        if i in statusF {
          r := Some(Serviced(i, FallingEdge, fallingCallbacks[i]));
          return;
        }
        if i in statusR {
          r := Some(Serviced(i, RisingEdge, risingCallbacks[i]));
          return;
        }
      }
      EmptyWhenNoPin(statusF);
      EmptyWhenNoPin(statusR);
    }

    /** gpio0__interrupt_dispatcher: service the pending pin the scan selects,
        run its handler (returned, for the caller to run) and write that pin's
        bit, and only that bit, to IO0IntClr, which clears both of the pin's
        status bits. With nothing pending nothing runs and nothing is cleared. */
    method Dispatch() returns (r: Option<Serviced>)
      requires Valid()
      modifies this`statusR, this`statusF, this`clearWritten
      ensures Valid()
      ensures ScanSelects(old(statusF), old(statusR), Selection(r))
      ensures r.Some? ==> r.value.handler == Slot(r.value.pin, r.value.edge)
      ensures r.Some? ==>
        clearWritten == {r.value.pin} &&
        statusF == old(statusF) - {r.value.pin} &&
        statusR == old(statusR) - {r.value.pin}
      ensures r.None? ==>
        clearWritten == old(clearWritten) && statusF == old(statusF) && statusR == old(statusR)
    {
      r := Scan();
      if r.Some? {
        var p := r.value.pin;
        clearWritten := {p};
        statusF := statusF - {p};
        statusR := statusR - {p};
      }
    }
  }

  /** A register with no pin set is zero. */
  lemma EmptyWhenNoPin(w: Word)
    requires forall q: Pin :: q !in w
    ensures w == {}
  {
  }

  /** Falling on pin 2 and rising on pin 9 pending together: the first
      dispatch services pin 2 only, the second pin 9, the third nothing. */
  method TwoPinsPending() returns (first: Option<Serviced>, second: Option<Serviced>, third: Option<Serviced>)
    ensures first == Some(Serviced(2, FallingEdge, Some(20)))
    ensures second == Some(Serviced(9, RisingEdge, Some(90)))
    ensures third == None
  {
    var g := new Gpio0Interrupts();
    g.Attach(2, FallingEdge, 20);
    g.Attach(9, RisingEdge, 90);
    g.statusF, g.statusR := {2}, {9};
    first := g.Dispatch();
    ScanSelectsUnique({2}, {9}, Selection(first), Some((2, FallingEdge)));
    second := g.Dispatch();
    ScanSelectsUnique({}, {9}, Selection(second), Some((9, RisingEdge)));
    third := g.Dispatch();
  }

  /** A rising-edge callback on pin 5 and only the falling status bit of pin 5
      pending: the dispatch services the falling slot, not the rising callback. */
  method RisingHandlerIgnoresFalling() returns (r: Option<Serviced>)
    ensures r == Some(Serviced(5, FallingEdge, None))
  {
    var g := new Gpio0Interrupts();
    g.Attach(5, RisingEdge, 7);
    g.statusF := {5};
    r := g.Dispatch();
    ScanSelectsUnique({5}, {}, Selection(r), Some((5, FallingEdge)));
  }

  /** Two rising-edge attaches to pin 4: the second callback replaces the
      first, the falling slot stays empty, and only bit 4 is enabled. */
  method LastAttachWins() returns (rising: Option<HandlerId>, falling: Option<HandlerId>, enabledR: Word, enabledF: Word)
    ensures rising == Some(2) && falling == None
    ensures enabledR == {4} && enabledF == {}
  {
    var g := new Gpio0Interrupts();
    g.Attach(4, RisingEdge, 1);
    g.Attach(4, RisingEdge, 2);
    rising, falling := g.risingCallbacks[4], g.fallingCallbacks[4];
    enabledR, enabledF := g.enableR, g.enableF;
  }
}
