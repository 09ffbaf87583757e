/** The firmware's `main`: the start-up sequence and the body of its
    endless loop, as a controller object whose fields are the loop's local
    variables and whose board records every output write. */
module Firmware {
  import opened Word
  import opened Io
  import opened Control

  /** `struct key_state`: the level of a key in the last normal tick and in
      this one. */
  datatype KeyState = KeyState(previous: bool, current: bool)

  class Controller {
    var keyPlus: KeyState
    var keyMinus: KeyState
    var phaseInc: u16
    var msCnt: u8
    const board: Board

    /** The part of the fields that carries over to the next tick
        (`new` is sampled afresh at the start of every tick). */
    function Snapshot(): State
      reads this
    {
      State(keyPlus.previous, keyMinus.previous, phaseInc, msCnt)
    }

    /** The board's registers hold the committed phase increment: its low
        byte on port A, its high byte on port C, and the latch clock low. */
    predicate Synced()
      reads this, board
    {
      board.portA == Low(phaseInc) && board.portC == High(phaseInc) && !board.latch
    }

    /** Everything `main` does before its loop: zero the state, program
        the hardware with 0, display it, and take the first key levels as
        the old ones. */
    constructor (b: Board, plusPressed: bool, minusPressed: bool)
      modifies b
      ensures board == b
      ensures Snapshot() == Init(plusPressed, minusPressed)
      ensures b.trace == old(b.trace) + StartupEvents()
      ensures b.portA == 0 && b.portC == 0 && !b.latch
      ensures Synced()
    {
      board := b;
      keyPlus := KeyState(false, false);
      keyMinus := KeyState(false, false);
      phaseInc := 0;
      msCnt := 0;
      new;
      b.SetPhaseIncrement(phaseInc);
      b.UpdateDisplay(phaseInc);
      keyPlus := keyPlus.(previous := plusPressed);
      keyMinus := keyMinus.(previous := minusPressed);
    }

    /** One pass through the loop body with the sampled key levels. It
        moves the state exactly as `Step` says and makes exactly the writes
        `Step` lists; when the value changed, the ports hold its bytes. */
    method Tick(plusPressed: bool, minusPressed: bool)
      modifies this, board
      ensures Snapshot() == Step(old(Snapshot()), plusPressed, minusPressed).next
      ensures board.trace == old(board.trace) + Step(old(Snapshot()), plusPressed, minusPressed).events
      ensures keyPlus.current == plusPressed && keyMinus.current == minusPressed
      ensures phaseInc != old(phaseInc) ==>
                board.portA == Low(phaseInc) && board.portC == High(phaseInc) && !board.latch
      ensures phaseInc == old(phaseInc) ==>
                board.portA == old(board.portA) && board.portC == old(board.portC)
                && board.latch == old(board.latch)
      ensures old(Synced()) ==> Synced()
    {
      ghost var s0 := Snapshot();
      keyPlus := keyPlus.(current := plusPressed);
      keyMinus := keyMinus.(current := minusPressed);

      if keyPlus.current && keyMinus.current {
        board.ShowKeyTest();
      } else {
        var newPhaseInc := ApplyEdges(phaseInc);
        CountHold();
        newPhaseInc := ApplyBulk(newPhaseInc);
        NormalStep(s0, plusPressed, minusPressed, msCnt, newPhaseInc);
        Commit(newPhaseInc);
      }
    }

    /** The end of a normal pass: the key levels become the old ones, and a
        new value is committed, programmed into the hardware and displayed,
        while an unchanged one causes no write. */
    method Commit(newPhaseInc: u16)
      modifies this, board
      ensures keyPlus == KeyState(old(keyPlus.current), old(keyPlus.current))
      ensures keyMinus == KeyState(old(keyMinus.current), old(keyMinus.current))
      ensures phaseInc == newPhaseInc && msCnt == old(msCnt)
      ensures newPhaseInc != old(phaseInc) ==>
                board.trace == old(board.trace) + ProgramEvents(newPhaseInc) + [Display(Frequency(newPhaseInc))]
                && board.portA == Low(newPhaseInc) && board.portC == High(newPhaseInc) && !board.latch
      ensures newPhaseInc == old(phaseInc) ==>
                board.trace == old(board.trace)
                && board.portA == old(board.portA) && board.portC == old(board.portC)
                && board.latch == old(board.latch)
    {
      keyPlus := keyPlus.(previous := keyPlus.current);
      keyMinus := keyMinus.(previous := keyMinus.current);
      if newPhaseInc != phaseInc {
        phaseInc := newPhaseInc;
        board.SetPhaseIncrement(phaseInc);
        board.UpdateDisplay(phaseInc);
      }
    }

    /** The edge tests of the loop body: `++` on a rising edge of "plus",
        `--` on one of "minus". */
    method ApplyEdges(value: u16) returns (r: u16)
      ensures r == Add16(value, Adjustment(Snapshot(), keyPlus.current, keyMinus.current, 0))
    {
      r := value;
      ghost var applied := 0;
      if !keyPlus.previous && keyPlus.previous != keyPlus.current {
        Add16Compose(value, applied, 1);
        r := Add16(r, 1);
        applied := applied + 1;
      }
      if !keyMinus.previous && keyMinus.previous != keyMinus.current {
        Add16Compose(value, applied, -1);
        r := Add16(r, -1);
        applied := applied - 1;
      }
    }

    /** The hold counter of the loop body: it grows by one tick while a key
        is held, up to the limit, and restarts when none is. */
    method CountHold()
      modifies this
      ensures msCnt == NextHold(old(msCnt), keyPlus.current || keyMinus.current)
      ensures keyPlus == old(keyPlus) && keyMinus == old(keyMinus) && phaseInc == old(phaseInc)
    {
      if keyPlus.current || keyMinus.current {
        if msCnt < 200 {
          msCnt := msCnt + 10;
        }
      } else {
        msCnt := 0;
      }
    }

    /** The bulk step of the loop body: once a key has been held long
        enough, 23 in the direction of the held key. */
    method ApplyBulk(value: u16) returns (r: u16)
      ensures r == Add16(value, if msCnt as int >= BULK_THRESHOLD then (if keyPlus.current then BULK_STEP else -BULK_STEP) else 0)
    {
      r := value;
      if msCnt >= 100 {
        if keyPlus.current {
          r := Add16(r, 23);
        } else {
          r := Add16(r, -23);
        }
      } else {
        assert Add16(value, 0) == value;
      }
    }

    /** The loop driven by a finite sequence of samples, one per tick. */
    method Loop(inputs: seq<Keys>)
      requires Synced()
      modifies this, board
      ensures Snapshot() == Run(old(Snapshot()), inputs).next
      ensures board.trace == old(board.trace) + Run(old(Snapshot()), inputs).events
      ensures Synced()
      ensures |inputs| > 0 ==>
                keyPlus.current == inputs[|inputs| - 1].plus && keyMinus.current == inputs[|inputs| - 1].minus
    {
      ghost var start, written := Snapshot(), board.trace;
      for i := 0 to |inputs|
        invariant Snapshot() == Run(start, inputs[..i]).next
        invariant board.trace == written + Run(start, inputs[..i]).events
        invariant Synced()
        invariant i > 0 ==> keyPlus.current == inputs[i - 1].plus && keyMinus.current == inputs[i - 1].minus
      {
        Advance(start, written, inputs[..i], inputs[i]);
        assert inputs[..i + 1] == inputs[..i] + [inputs[i]];
      }
      assert inputs[..|inputs|] == inputs;
    }

    /** One more pass of the loop: after the samples `done` and then `k`,
        the state and the writes are those of `Run` over `done + [k]`. */
    method Advance(ghost start: State, ghost written: seq<Event>, ghost done: seq<Keys>, k: Keys)
      requires Snapshot() == Run(start, done).next
      requires board.trace == written + Run(start, done).events
      requires Synced()
      modifies this, board
      ensures Snapshot() == Run(start, done + [k]).next
      ensures board.trace == written + Run(start, done + [k]).events
      ensures Synced()
      ensures keyPlus.current == k.plus && keyMinus.current == k.minus
    {
      Tick(k.plus, k.minus);
      RunSnoc(start, done, k);
    }
  }

  /** `main` up to its loop on a fresh board: `gpio_init` leaves the ports
      at 0 and the latch clock low, then the controller programs and
      displays 0 and samples the keys. */
  method PowerUp(plusPressed: bool, minusPressed: bool) returns (c: Controller)
    ensures fresh(c) && fresh(c.board)
    ensures c.Snapshot() == Init(plusPressed, minusPressed)
    ensures c.board.trace == StartupEvents()
    ensures c.board.portA == 0 && c.board.portC == 0 && !c.board.latch
    ensures c.Synced()
  {
    var b := new Board();
    c := new Controller(b, plusPressed, minusPressed);
  }
}
