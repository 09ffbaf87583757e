/** The outputs of the board: port A (low byte of the phase increment),
    port C (high byte), the latch-clock pin PE0 towards the DDS logic,
    and the display. Every write is recorded, in order, as an event. */
module Io {
  import opened Word

  /** What the display is asked to show: the fixed key-test text, or the
      output frequency of a phase increment (its floating-point formatting
      is not part of this model). */
  datatype Shown = KeyTest | Frequency(phaseInc: u16)

  /** One write to an output of the board. */
  datatype Event =
    | WritePortA(low: u8)
    | WritePortC(high: u8)
    | SetLatch(level: bool)
    | Display(shown: Shown)

  /** The writes `set_phase_increment(value)` performs, in order: both
      bytes, then a low-high-low pulse on the latch clock. */
  function ProgramEvents(value: u16): seq<Event>
  {
    [WritePortA(Low(value)), WritePortC(High(value)), SetLatch(false), SetLatch(true), SetLatch(false)]
  }

  /** The output registers and the record of every write made to them. */
  class Board {
    var portA: u8
    var portC: u8
    var latch: bool
    var trace: seq<Event>

    /** The outputs after `gpio_init`: both data ports and the latch clock
        driven low, nothing written yet. */
    constructor ()
      ensures portA == 0 && portC == 0 && !latch && trace == []
    {
      portA, portC, latch, trace := 0, 0, false, [];
    }

    /** `set_phase_increment`: low byte to port A, high byte to port C,
        then the latch clock low, high and low again. */
    method SetPhaseIncrement(value: u16)
      modifies this
      ensures portA == Low(value) && portC == High(value) && !latch
      ensures trace == old(trace) + ProgramEvents(value)
    {
      portA := Low(value);
      trace := trace + [WritePortA(portA)];
      portC := High(value);
      trace := trace + [WritePortC(portC)];
      latch := false;
      trace := trace + [SetLatch(latch)];
      latch := true;
      trace := trace + [SetLatch(latch)];
      latch := false;
      trace := trace + [SetLatch(latch)];
    }

    /** `update_display`: the display refreshed with the frequency of
        `phaseInc`; the ports are not touched. */
    method UpdateDisplay(phaseInc: u16)
      modifies this
      ensures portA == old(portA) && portC == old(portC) && latch == old(latch)
      ensures trace == old(trace) + [Display(Frequency(phaseInc))]
    {
      trace := trace + [Display(Frequency(phaseInc))];
    }

    /** `display_sda5708_printf("Key test")`. */
    method ShowKeyTest()
      modifies this
      ensures portA == old(portA) && portC == old(portC) && latch == old(latch)
      ensures trace == old(trace) + [Display(KeyTest)]
    {
      trace := trace + [Display(KeyTest)];
    }
  }

  /** Which edge of the latch clock makes the DDS logic take over the
      ports; the firmware's pulse is meant to work for either. */
  datatype Edge = OnRise | OnFall

  /** What the outside world has seen: the DDS logic's view of both ports
      and the latch clock, the value it last latched, and the display. */
  datatype Observer = Observer(
    edge: Edge,
    portA: u8,
    portC: u8,
    latch: bool,
    latched: Option,
    shown: ShownOption)

  datatype Option = None | Some(value: u16)
  datatype ShownOption = Blank | Showing(shown: Shown)

  /** The state of the outside world before any write. */
  function Reset(edge: Edge): Observer
  {
    Observer(edge, 0, 0, false, None, Blank)
  }

  /** The effect of one write on the outside world. A clock transition in
      the latching direction makes the DDS logic take port C and port A
      as the high and the low byte of its new value. */
  function Apply(o: Observer, e: Event): (r: Observer)
    ensures r.edge == o.edge
  {
    match e
    case WritePortA(b) => o.(portA := b)
    case WritePortC(b) => o.(portC := b)
    case SetLatch(level) =>
      var takes := match o.edge
        case OnRise => !o.latch && level
        case OnFall => o.latch && !level;
      o.(latch := level, latched := if takes then Some(Join(o.portC, o.portA)) else o.latched)
    case Display(s) => o.(shown := Showing(s))
  }

  /** The outside world after a sequence of writes, in order. */
  function Observe(o: Observer, events: seq<Event>): (r: Observer)
    ensures r.edge == o.edge
    decreases |events|
  {
    if events == [] then o else Observe(Apply(o, events[0]), events[1..])
  }

  /** Observing two sequences of writes one after the other is observing
      their concatenation. */
  lemma {:induction false} ObserveAppend(o: Observer, xs: seq<Event>, ys: seq<Event>)
    ensures Observe(o, xs + ys) == Observe(Observe(o, xs), ys)
    decreases |xs|
  {
    if xs == [] {
      assert xs + ys == ys;
    } else {
      assert (xs + ys)[1..] == xs[1..] + ys;
      ObserveAppend(Apply(o, xs[0]), xs[1..], ys);
    }
  }

  /** Whatever the DDS logic held before and whichever edge it latches on,
      after the writes of `set_phase_increment(value)` it holds `value`, the
      latch clock is low again and the display is untouched. */
  lemma ProgramLatches(o: Observer, value: u16)
    ensures Observe(o, ProgramEvents(value)).latched == Some(value)
    ensures !Observe(o, ProgramEvents(value)).latch
    ensures Observe(o, ProgramEvents(value)).shown == o.shown
    ensures Observe(o, ProgramEvents(value)).portA == Low(value)
    ensures Observe(o, ProgramEvents(value)).portC == High(value)
  {
    var es := ProgramEvents(value);
    var o1 := Apply(o, es[0]);
    var o2 := Apply(o1, es[1]);
    var o3 := Apply(o2, es[2]);
    var o4 := Apply(o3, es[3]);
    var o5 := Apply(o4, es[4]);
    assert Observe(o4, es[4..]) == o5 by {
      assert es[4..][1..] == [];
    }
    assert es[3..][1..] == es[4..] && es[3..][0] == es[3];
    assert es[2..][1..] == es[3..] && es[2..][0] == es[2];
    assert es[1..][1..] == es[2..] && es[1..][0] == es[1];
    calc {
      Observe(o, es);
      Observe(o1, es[1..]);
      Observe(o2, es[2..]);
      Observe(o3, es[3..]);
      Observe(o4, es[4..]);
    }
    SplitJoin(value);
  }

  /** Programming the same value twice leaves the DDS logic, the ports and
      the latch clock as programming it once. */
  lemma ProgramIdempotent(o: Observer, value: u16)
    ensures Observe(o, ProgramEvents(value) + ProgramEvents(value))
         == Observe(o, ProgramEvents(value))
  {
    ObserveAppend(o, ProgramEvents(value), ProgramEvents(value));
    var o1 := Observe(o, ProgramEvents(value));
    ProgramLatches(o, value);
    ProgramLatches(o1, value);
  }
}
