/** The control step of the DDS frequency generator, as a function of the
    state the loop carries and the two key levels sampled in one tick:
    edge detection on the "plus" and "minus" keys, the hold counter that
    accelerates a held key, 16-bit wrap-around of the phase increment, and
    reprogramming of the hardware only when the value changes. */
module Control {
  import opened Word
  import opened Io

  /** Milliseconds one tick adds to the hold counter. */
  const TICK_MS: int := 10
  /** The hold counter stops growing here. */
  const HOLD_LIMIT: int := 200
  /** A key held this long gets the bulk step on every tick. */
  const BULK_THRESHOLD: int := 100
  /** Size of the bulk step. */
  const BULK_STEP: int := 23

  /** What the loop remembers between ticks: the key levels of the last
      normal tick (`key_plus.old`, `key_minus.old`), the committed phase
      increment and the hold counter `ms_cnt`. */
  datatype State = State(plusOld: bool, minusOld: bool, phaseInc: u16, msCnt: u8)

  /** The key levels sampled in one tick (true = pressed). */
  datatype Keys = Keys(plus: bool, minus: bool)

  /** The hold counter is a multiple of the tick length, at most the limit. */
  predicate Valid(s: State)
  {
    s.msCnt as int % TICK_MS == 0 && s.msCnt as int <= HOLD_LIMIT
  }

  /** The state when the loop is entered: phase increment and hold counter
      zero, the old key levels read once before the first tick. */
  function Init(plus: bool, minus: bool): (r: State)
    ensures Valid(r)
  {
    State(plus, minus, 0, 0)
  }

  /** The writes made before the loop: the hardware programmed with 0 and
      the display showing its frequency. */
  function StartupEvents(): seq<Event>
  {
    ProgramEvents(0) + [Display(Frequency(0))]
  }

  /** A key went from released in the last normal tick to pressed now. */
  predicate Rising(before: bool, now: bool)
  {
    !before && now
  }

  /** The hold counter after a normal tick: it grows by one tick while a key
      is held, without passing the limit, and restarts when none is. */
  function NextHold(msCnt: u8, held: bool): (r: u8)
    ensures !held <==> r == 0
    ensures held ==> msCnt <= r && r as int <= msCnt as int + TICK_MS
    ensures held && msCnt as int <= HOLD_LIMIT ==> r as int == if msCnt as int < HOLD_LIMIT then msCnt as int + TICK_MS else HOLD_LIMIT
    ensures msCnt as int % TICK_MS == 0 && msCnt as int <= HOLD_LIMIT ==>
              r as int % TICK_MS == 0 && r as int <= HOLD_LIMIT
  {
    if !held then 0
    else if msCnt as int < HOLD_LIMIT then msCnt + TICK_MS as u8
    else msCnt
  }

  /** The net change a normal tick makes to the phase increment, before it
      is reduced modulo 2^16: +1 and -1 for rising edges, and the bulk step
      in the direction of the held key once the hold counter `hold` has
      reached the threshold. */
  function Adjustment(s: State, plus: bool, minus: bool, hold: u8): (r: int)
    ensures -(1 + BULK_STEP) <= r <= 1 + BULK_STEP
    ensures hold as int < BULK_THRESHOLD && !Rising(s.plusOld, plus) && !Rising(s.minusOld, minus) ==> r == 0
  {
    (if Rising(s.plusOld, plus) then 1 else 0)
    - (if Rising(s.minusOld, minus) then 1 else 0)
    + (if hold as int >= BULK_THRESHOLD then (if plus then BULK_STEP else -BULK_STEP) else 0)
  }

  /** The new state and the writes made to the board, in order. */
  datatype Outcome = Outcome(next: State, events: seq<Event>)

  /** One pass through the loop body. Both keys pressed is the key test:
      the display says so and nothing else happens. Otherwise the new phase
      increment is computed; if it differs from the committed one it is
      committed, programmed into the hardware and displayed. */
  function Step(s: State, plus: bool, minus: bool): Outcome
  {
    if plus && minus then
      Outcome(s, [Display(KeyTest)])
    else
      var hold := NextHold(s.msCnt, plus || minus);
      var candidate := Add16(s.phaseInc, Adjustment(s, plus, minus, hold));
      Outcome(State(plus, minus, candidate, hold),
              if candidate != s.phaseInc then ProgramEvents(candidate) + [Display(Frequency(candidate))]
              else [])
  }

  /** A normal tick in terms of its hold counter and of its two wrapped
      updates: the edges first, then the bulk step. */
  lemma NormalStep(s: State, plus: bool, minus: bool, hold: u8, value: u16)
    requires !(plus && minus)
    requires hold == NextHold(s.msCnt, plus || minus)
    requires value == Add16(Add16(s.phaseInc, Adjustment(s, plus, minus, 0)),
                            if hold as int >= BULK_THRESHOLD then (if plus then BULK_STEP else -BULK_STEP) else 0)
    ensures Step(s, plus, minus).next == State(plus, minus, value, hold)
    ensures value != s.phaseInc ==>
              Step(s, plus, minus).events == ProgramEvents(value) + [Display(Frequency(value))]
    ensures value == s.phaseInc ==> Step(s, plus, minus).events == []
  {
    var edges := Adjustment(s, plus, minus, 0);
    Add16Compose(s.phaseInc, edges, Adjustment(s, plus, minus, hold) - edges);
  }

  /** The loop run over a finite sequence of samples: the final state and
      every write, in order. */
  function Run(s: State, inputs: seq<Keys>): Outcome
    decreases |inputs|
  {
    if inputs == [] then Outcome(s, [])
    else
      var before := Run(s, inputs[..|inputs| - 1]);
      var last := inputs[|inputs| - 1];
      var step := Step(before.next, last.plus, last.minus);
      Outcome(step.next, before.events + step.events)
  }

  /** The signed distance from `a` to `b` on the 16-bit circle, in
      -32768..32767. */
  function Distance(a: u16, b: u16): (r: int)
    ensures -0x8000 <= r < 0x8000
  {
    (b as int - a as int + 0x8000) % WORD_MODULUS - 0x8000
  }

  /** Both keys pressed: nothing in the state changes (not the old key
      levels, not the hold counter, not the phase increment), no hardware
      write is made and the display shows the key test. */
  lemma KeyTestChangesNothing(s: State)
    ensures Step(s, true, true).next == s
    ensures Step(s, true, true).events == [Display(KeyTest)]
  {
  }

  /** A normal tick stores the sampled key levels as the old ones. */
  lemma NormalTickStoresKeys(s: State, plus: bool, minus: bool)
    requires !(plus && minus)
    ensures Step(s, plus, minus).next.plusOld == plus
    ensures Step(s, plus, minus).next.minusOld == minus
  {
  }

  /** The hold counter stays a multiple of 10 in 0..200. In a normal tick
      it restarts at 0 when no key is held and otherwise grows by 10 up to
      200; the key test leaves it alone. */
  lemma HoldCounter(s: State, plus: bool, minus: bool)
    requires Valid(s)
    ensures Valid(Step(s, plus, minus).next)
    ensures !plus && !minus ==> Step(s, plus, minus).next.msCnt == 0
    ensures plus != minus && s.msCnt as int < HOLD_LIMIT ==>
              Step(s, plus, minus).next.msCnt as int == s.msCnt as int + TICK_MS
    ensures plus != minus && s.msCnt as int == HOLD_LIMIT ==>
              Step(s, plus, minus).next.msCnt as int == HOLD_LIMIT
    ensures plus && minus ==> Step(s, plus, minus).next.msCnt == s.msCnt
  {
  }

  /** What one normal tick can do to the phase increment, read as the
      signed distance travelled on the 16-bit circle: one of 0, ±1, ±23,
      ±24. A +1 part is there exactly on a rising edge of "plus", a -1 part
      exactly on a rising edge of "minus" (so never both), and a ±23 part
      exactly when the updated hold counter has reached 100, in the
      direction of the key that is held. */
  lemma NetChange(s: State, plus: bool, minus: bool)
    requires !(plus && minus)
    ensures var d := Distance(s.phaseInc, Step(s, plus, minus).next.phaseInc);
      && d in {0, 1, -1, BULK_STEP, -BULK_STEP, BULK_STEP + 1, -BULK_STEP - 1}
      && ((d == 1 || d == BULK_STEP + 1) <==> Rising(s.plusOld, plus))
      && ((d == -1 || d == -BULK_STEP - 1) <==> Rising(s.minusOld, minus))
      && ((d == BULK_STEP || d == BULK_STEP + 1) <==>
            plus && Step(s, plus, minus).next.msCnt as int >= BULK_THRESHOLD)
      && ((d == -BULK_STEP || d == -BULK_STEP - 1) <==>
            minus && Step(s, plus, minus).next.msCnt as int >= BULK_THRESHOLD)
  {
  }

  /** The hardware is written, and the display refreshed, exactly when the
      new value differs from the committed one, and that happens exactly
      when an edge or the bulk step applied: no combination of them wraps
      back to the old value. The writes program the new value and then
      display it. */
  lemma OutputOnlyOnChange(s: State, plus: bool, minus: bool)
    requires !(plus && minus)
    ensures var o := Step(s, plus, minus);
      && (o.events == [] <==> o.next.phaseInc == s.phaseInc)
      && (o.events != [] <==>
            Rising(s.plusOld, plus) || Rising(s.minusOld, minus)
            || o.next.msCnt as int >= BULK_THRESHOLD)
      && (o.events != [] ==>
            o.events == ProgramEvents(o.next.phaseInc) + [Display(Frequency(o.next.phaseInc))])
  {
    NetChange(s, plus, minus);
  }

  /** A held-steady tick (no edge, hold counter below the threshold) makes
      no write at all and leaves the phase increment alone. */
  lemma SteadyTickIsSilent(s: State, plus: bool, minus: bool)
    requires !(plus && minus)
    requires plus == s.plusOld && minus == s.minusOld
    requires s.msCnt as int < BULK_THRESHOLD - TICK_MS
    ensures Step(s, plus, minus).events == []
    ensures Step(s, plus, minus).next.phaseInc == s.phaseInc
  {
  }

  /** Wrap-around at both ends: "minus" pressed at 0 gives 65535, and a
      bulk step of "plus" at 65530 gives 17. */
  lemma WrapAround()
    ensures Step(State(false, false, 0, 0), false, true).next.phaseInc == 65535
    ensures Step(State(true, false, 65530, 90), true, false).next.phaseInc == 17
  {
  }

  /** One more sample is one more step after the run so far. */
  lemma RunSnoc(s: State, xs: seq<Keys>, k: Keys)
    ensures Run(s, xs + [k]).next == Step(Run(s, xs).next, k.plus, k.minus).next
    ensures Run(s, xs + [k]).events == Run(s, xs).events + Step(Run(s, xs).next, k.plus, k.minus).events
  {
  }

  /** The hold counter invariant holds after any number of ticks. */
  lemma {:induction false} RunKeepsValid(s: State, inputs: seq<Keys>)
    requires Valid(s)
    ensures Valid(Run(s, inputs).next)
    decreases |inputs|
  {
    if inputs != [] {
      var n := |inputs| - 1;
      RunKeepsValid(s, inputs[..n]);
      HoldCounter(Run(s, inputs[..n]).next, inputs[n].plus, inputs[n].minus);
    }
  }

  /** `k` samples of the same key levels. */
  function Repeat(keys: Keys, k: nat): (r: seq<Keys>)
    ensures |r| == k
  {
    seq(k, _ => keys)
  }

  /** Any number of key-test ticks leaves the state exactly as it was, so
      normal operation resumes from the committed value; each such tick
      shows the key test and writes nothing else. */
  lemma {:induction false} KeyTestRun(s: State, k: nat)
    ensures Run(s, Repeat(Keys(true, true), k)).next == s
    ensures Run(s, Repeat(Keys(true, true), k)).events == seq(k, _ => Display(KeyTest))
  {
    if k > 0 {
      assert Repeat(Keys(true, true), k)[..k - 1] == Repeat(Keys(true, true), k - 1);
      KeyTestRun(s, k - 1);
      assert seq(k - 1, _ => Display(KeyTest)) + [Display(KeyTest)] == seq(k, _ => Display(KeyTest));
    }
  }

  /** Number of bulk steps in `k` consecutive ticks of one held key. */
  function BulkSteps(k: nat): nat
  {
    if k >= 10 then k - 9 else 0
  }

  /** The samples of one key held alone: "plus" when `up`, else "minus". */
  function HoldOne(up: bool, k: nat): seq<Keys>
  {
    Repeat(Keys(up, !up), k)
  }

  /** `x` in the direction of "plus" when `up`, of "minus" otherwise. */
  function Toward(up: bool, x: int): int
  {
    if up then x else -x
  }

  /** The hold counter after `k` consecutive ticks with a key held. */
  function HeldFor(k: nat): u8
  {
    if TICK_MS * k < HOLD_LIMIT then (TICK_MS * k) as u8 else HOLD_LIMIT as u8
  }

  /** Pressing one key from released (with the hold counter at 0) and
      holding it alone for `k` ticks gives a single ±1 on the first tick,
      no repeat, and from the 10th tick on one ±23 per tick; the hold
      counter reads 10 per tick held, up to 200. */
  lemma {:induction false} HoldRun(s: State, up: bool, k: nat)
    requires k >= 1
    requires s.msCnt == 0
    requires if up then !s.plusOld else !s.minusOld
    ensures Run(s, HoldOne(up, k)).next ==
      State(up, !up, Add16(s.phaseInc, Toward(up, 1 + BULK_STEP * BulkSteps(k))), HeldFor(k))
  {
    if k == 1 {
      FirstHeldTick(s, up);
    } else {
      var before := Run(s, HoldOne(up, k - 1)).next;
      var prev := State(up, !up, Add16(s.phaseInc, Toward(up, 1 + BULK_STEP * BulkSteps(k - 1))), HeldFor(k - 1));
      assert before == prev by {
        HoldRun(s, up, k - 1);
      }
      assert Step(prev, up, !up).next ==
        State(up, !up, Add16(s.phaseInc, Toward(up, 1 + BULK_STEP * BulkSteps(k))), HeldFor(k)) by {
        NextHeldTick(s.phaseInc, up, k);
      }
      assert Run(s, HoldOne(up, k)).next == Step(before, up, !up).next by {
        HoldOneSnoc(up, k);
        RunSnoc(s, HoldOne(up, k - 1), Keys(up, !up));
      }
    }
  }

  lemma HoldOneSnoc(up: bool, k: nat)
    requires k >= 1
    ensures HoldOne(up, k) == HoldOne(up, k - 1) + [Keys(up, !up)]
  {
  }

  /** The tick a key is pressed: a ±1 and the hold counter at 10. */
  lemma FirstHeldTick(s: State, up: bool)
    requires s.msCnt == 0
    requires if up then !s.plusOld else !s.minusOld
    ensures Run(s, HoldOne(up, 1)).next ==
      State(up, !up, Add16(s.phaseInc, Toward(up, 1 + BULK_STEP * BulkSteps(1))), HeldFor(1))
  {
  }

  /** The `k`-th tick of a key held alone adds the bulk step from the 10th
      tick on, and nothing else. */
  lemma NextHeldTick(start: u16, up: bool, k: nat)
    requires k >= 2
    ensures var before := State(up, !up, Add16(start, Toward(up, 1 + BULK_STEP * BulkSteps(k - 1))), HeldFor(k - 1));
      Step(before, up, !up).next ==
        State(up, !up, Add16(start, Toward(up, 1 + BULK_STEP * BulkSteps(k))), HeldFor(k))
  {
    var before := State(up, !up, Add16(start, Toward(up, 1 + BULK_STEP * BulkSteps(k - 1))), HeldFor(k - 1));
    var bulk := if k >= 10 then Toward(up, BULK_STEP) else 0;
    assert Step(before, up, !up).next == State(up, !up, Add16(before.phaseInc, bulk), HeldFor(k)) by {
      HeldTick(before, up);
      var hold := NextHold(before.msCnt, true);
      assert hold == HeldFor(k);
      assert hold as int >= BULK_THRESHOLD <==> k >= 10;
    }
    assert Add16(before.phaseInc, bulk) == Add16(start, Toward(up, 1 + BULK_STEP * BulkSteps(k))) by {
      Add16Compose(start, Toward(up, 1 + BULK_STEP * BulkSteps(k - 1)), bulk);
      assert Toward(up, 1 + BULK_STEP * BulkSteps(k - 1)) + bulk
          == Toward(up, 1 + BULK_STEP * BulkSteps(k));
    }
  }

  /** A tick in which the key held in the last tick is still held alone:
      no edge, only the hold counter and possibly the bulk step. */
  lemma HeldTick(t: State, up: bool)
    requires t.plusOld == up && t.minusOld == !up
    ensures var hold := NextHold(t.msCnt, true);
      Step(t, up, !up).next ==
        State(up, !up,
              Add16(t.phaseInc, if hold as int >= BULK_THRESHOLD then (if up then BULK_STEP else -BULK_STEP) else 0),
              hold)
  {
  }

  /** Releasing both keys for a tick restarts the count from any state:
      the next press gets its ±1 again, and its bulk steps start only
      after another ten ticks of holding. */
  lemma ReleaseRestartsHold(s: State, up: bool, k: nat)
    requires k >= 1
    ensures Run(Step(s, false, false).next, HoldOne(up, k)).next ==
      State(up, !up, Add16(s.phaseInc, Toward(up, 1 + BULK_STEP * BulkSteps(k))), HeldFor(k))
  {
    var released := Step(s, false, false).next;
    assert released == State(false, false, s.phaseInc, 0);
    HoldRun(released, up, k);
  }

  /** The hold counter is shared by both keys and is not restarted when
      the held key changes: going straight from holding "minus" (counter at
      90 or more) to holding "plus" counts as a press of "plus" and a bulk
      step at once, so the value moves by 24 in a single tick. */
  lemma SwitchHeldKey(s: State)
    requires s.minusOld && !s.plusOld && 90 <= s.msCnt as int <= HOLD_LIMIT
    ensures Step(s, true, false).next.phaseInc == Add16(s.phaseInc, 1 + BULK_STEP)
    ensures Step(s, true, false).next.msCnt as int == if s.msCnt as int < HOLD_LIMIT then s.msCnt as int + TICK_MS else HOLD_LIMIT
  {
  }

  /** Holding a key for five ticks yields exactly one +1. */
  lemma HoldFiveTicks(s: State)
    requires s.msCnt == 0 && !s.plusOld
    ensures Run(s, HoldOne(true, 5)).next.phaseInc == Add16(s.phaseInc, 1)
  {
    HoldRun(s, true, 5);
  }

  /** The edge is measured against the last normal tick: pressing both
      keys from released and then letting go of "minus" counts as a press
      of "plus". */
  lemma EdgeAcrossKeyTest(s: State)
    requires !s.plusOld && !s.minusOld && s.msCnt == 0
    ensures Run(s, [Keys(true, true), Keys(true, false)]).next.phaseInc == Add16(s.phaseInc, 1)
  {
  }

  /** The outside world agrees with the loop's state: the DDS logic holds
      the committed phase increment with its latch clock low, and the
      display shows either that value's frequency or, after a key test
      and until the next change, the key test. */
  predicate InSync(s: State, o: Observer)
  {
    && o.latched == Some(s.phaseInc)
    && !o.latch
    && (o.shown == Showing(KeyTest) || o.shown == Showing(Frequency(s.phaseInc)))
  }

  /** The start-up writes bring a freshly reset board in sync. */
  lemma StartupInSync(edge: Edge, plus: bool, minus: bool)
    ensures InSync(Init(plus, minus), Observe(Reset(edge), StartupEvents()))
  {
  }

  lemma ObserveOne(o: Observer, e: Event)
    ensures Observe(o, [e]) == Apply(o, e)
  {
  }

  /** Every tick keeps the board in sync with the state. */
  lemma StepInSync(s: State, o: Observer, plus: bool, minus: bool)
    requires InSync(s, o)
    ensures InSync(Step(s, plus, minus).next, Observe(o, Step(s, plus, minus).events))
  {
    var out := Step(s, plus, minus);
    if plus && minus {
      ObserveOne(o, Display(KeyTest));
    } else if out.events != [] {
      var v := out.next.phaseInc;
      ObserveAppend(o, ProgramEvents(v), [Display(Frequency(v))]);
      ProgramLatches(o, v);
      ObserveOne(Observe(o, ProgramEvents(v)), Display(Frequency(v)));
    } else {
      assert Observe(o, []) == o;
    }
  }

  /** Any number of ticks keeps the board in sync with the state. */
  lemma {:induction false} RunInSync(s: State, o: Observer, inputs: seq<Keys>)
    requires InSync(s, o)
    ensures InSync(Run(s, inputs).next, Observe(o, Run(s, inputs).events))
    decreases |inputs|
  {
    if inputs != [] {
      var n := |inputs| - 1;
      var before := Run(s, inputs[..n]);
      RunInSync(s, o, inputs[..n]);
      StepInSync(before.next, Observe(o, before.events), inputs[n].plus, inputs[n].minus);
      ObserveAppend(o, before.events, Step(before.next, inputs[n].plus, inputs[n].minus).events);
    }
  }

  /** From power-up on, whatever the keys do and whichever clock edge the
      DDS logic latches on, the hardware holds exactly the phase increment
      the firmware believes it holds. */
  lemma FirmwareInSync(edge: Edge, plus: bool, minus: bool, inputs: seq<Keys>)
    ensures InSync(Run(Init(plus, minus), inputs).next,
                   Observe(Reset(edge), StartupEvents() + Run(Init(plus, minus), inputs).events))
  {
    StartupInSync(edge, plus, minus);
    RunInSync(Init(plus, minus), Observe(Reset(edge), StartupEvents()), inputs);
    ObserveAppend(Reset(edge), StartupEvents(), Run(Init(plus, minus), inputs).events);
  }
}
