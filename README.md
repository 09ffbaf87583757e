# DDS frequency generator control loop in Dafny

This project models the firmware of an AVR-based direct-digital-synthesis
(DDS) frequency generator. Two push buttons, "plus" and "minus", adjust a
16-bit phase increment. The firmware writes the value to the DDS logic as
two bytes on ports A and C, followed by a pulse on the latch clock, and
shows the resulting frequency on a display.

The model follows the firmware's `main` in `src/main.c`:

- `word.dfy` (module `Word`): the `u8`/`u16` types. It makes the C
  wrap-around explicit (`Add16`) and defines the byte split of the phase
  increment (`Low`, `High`) with its inverse (`Join`).
- `io.dfy` (module `Io`): the board's outputs. Class `Board` has the
  port A, port C and latch-clock registers and an ordered trace of every
  write. `SetPhaseIncrement` is `set_phase_increment`. `UpdateDisplay` and
  `ShowKeyTest` are the two display calls. `Observer` is a reference model
  of the outside world. It is the DDS logic latching the two ports on a
  clock edge (either edge) plus the display. `ProgramLatches` proves that
  the firmware's write sequence delivers the value.
- `control.dfy` (module `Control`): the loop body as a function. `Step`
  takes the carried state (old key levels, committed phase increment, hold
  counter `ms_cnt`) and the two key samples. It returns the new state and
  the writes made, in order. `Run` folds `Step` over a finite sequence of
  samples. The lemmas state the loop's properties: key test, edge
  detection, hold counter, bulk step, wrap-around, output only on change,
  and the board staying in sync with the state.
- `firmware.dfy` (module `Firmware`): class `Controller` holds the loop's
  variables (`key_plus`, `key_minus`, `phase_inc`, `ms_cnt`) and the
  board. Its constructor is the start-up sequence on a given board, and
  `PowerUp` runs it on a freshly initialised one. `Tick` is the loop body,
  proved equal to `Step`. Its blocks (edge tests, hold counter, bulk step,
  commit) are the methods `ApplyEdges`, `CountHold`, `ApplyBulk` and
  `Commit`, written statement by statement as in C. `Loop` drives `Tick`
  over a finite sequence of samples.

`Step` computes the new phase increment as one wrapped sum of the edge and
bulk adjustments. `Tick` applies `++`, `--`, `+= 23` and `-= 23` one after
another, as the C code does. `Add16Compose` connects the two (through the
lemma `NormalStep`).

In a key-test tick (both keys pressed), the firmware sets neither
`key_plus.old`/`key_minus.old` nor `ms_cnt`. So the rising edge is measured
against the last normal tick (`EdgeAcrossKeyTest`). One might expect both
edges to fire in one tick and cancel out. The code rules this out: both
keys pressed always goes to the key test, so a normal tick never sees two
rising edges at once (`NetChange`).

After a key test the display keeps showing "Key test" until the phase
increment next changes. The sync invariant `InSync` therefore allows either
the key-test text or the frequency of the committed value.

## Model

| member | source | states |
|---|---|---|
| `Word.Add16` | src/main.c:72-104 | A 16-bit update `x += d` gives `x + d` when it fits, `x + d - 65536` on overflow and `x + d + 65536` on underflow |
| `Word.Add16Compose` | src/main.c:70-106 | Successive wrapped updates of `new_phase_inc` equal one wrapped update by the sum of the steps |
| `Word.Low` | src/main.c:153 | The byte written to port A is the phase increment modulo 256 |
| `Word.High` | src/main.c:154 | The byte written to port C is the phase increment divided by 256 |
| `Word.Join` | src/main.c:128-133 | The value assembled from the port C (high) and port A (low) bytes has exactly those bytes |
| `Word.SplitJoin` | src/main.c:153-154 | `high * 256 + low` equals the value, so the two port bytes lose nothing |
| `Word.JoinSplit` | src/main.c:153-154 | Every pair of port bytes is the split of exactly one phase increment |
| `Io.ProgramEvents` | src/main.c:150-162 | The writes of `set_phase_increment`, in order: low byte, high byte, then the latch clock low, high and low. `ProgramLatches` and `ProgramIdempotent` state their effect |
| `Io.Board.constructor` | src/main.c:127-137 | After initialisation, ports A and C are 0, the latch clock is low, and nothing has been written |
| `Io.Board.SetPhaseIncrement` | src/main.c:150-162 | Port A holds the low byte and port C the high byte. The latch clock ends low. The trace gains: low byte, high byte, latch low, high, low |
| `Io.Board.UpdateDisplay` | src/main.c:164-182 | The display is asked to show the frequency of the value. The ports are untouched |
| `Io.Board.ShowKeyTest` | src/main.c:65 | The display is asked to show the key-test text. The ports are untouched |
| `Io.ProgramLatches` | src/main.c:150-162 | Whatever the DDS logic held before, and whether it latches on the rising or the falling clock edge, after the write sequence it holds the value. The clock is low, the ports hold the two bytes, and the display is unchanged |
| `Io.ProgramIdempotent` | src/main.c:150-162 | Programming the same value twice leaves the outside world as programming it once |
| `Control.StartupEvents` | src/main.c:45-46 | The writes before the loop: the programming of 0, then its display. `StartupInSync` states their effect |
| `Control.Rising` | src/main.c:70-76 | A key counts as pressed when its old level was released and its new one is pressed. `NetChange` and `EdgeAcrossKeyTest` state its effect |
| `Control.NextHold` | src/main.c:82-93 | With no key held the counter becomes 0, and only then. With a key held it grows by 10 up to 200 and then stays. A multiple of 10 in 0..200 stays one |
| `Control.Adjustment` | src/main.c:70-106 | The net change of a normal tick lies within ±24. Without an edge and below the bulk threshold it is 0. `NetChange` gives each part as an if-and-only-if |
| `Control.Step` | src/main.c:56-118 | The loop body as a function of the carried state and the key samples. Its properties are stated by `KeyTestChangesNothing`, `NormalTickStoresKeys`, `HoldCounter`, `NetChange`, `OutputOnlyOnChange`, `SteadyTickIsSilent`, `WrapAround`, `SwitchHeldKey` and `StepInSync` |
| `Control.Run` | src/main.c:52-120 | The loop over a finite sequence of samples. Its properties are stated by `RunKeepsValid`, `KeyTestRun`, `HoldRun`, `ReleaseRestartsHold` and `RunInSync` |
| `Control.Init` | src/main.c:22-29 | The loop starts with phase increment 0 and hold counter 0, which satisfies the hold-counter invariant |
| `Control.KeyTestChangesNothing` | src/main.c:63-66 | With both keys pressed, the old key levels, hold counter and phase increment are unchanged. No hardware write is made, and the only output is the key-test text |
| `Control.NormalTickStoresKeys` | src/main.c:108-110 | A normal tick stores the sampled key levels as the old ones |
| `Control.HoldCounter` | src/main.c:81-93 | The hold counter stays a multiple of 10 in 0..200. With no key held it becomes 0. With one key held it grows by 10 up to 200. The key test leaves it alone |
| `Control.NetChange` | src/main.c:63-106 | In a normal tick the phase increment moves by one of 0, ±1, ±23, ±24 on the 16-bit circle. +1 happens iff "plus" has a rising edge, -1 iff "minus" does, so never both. ±23 happens iff the updated counter is at least 100, and in the direction of the held key |
| `Control.OutputOnlyOnChange` | src/main.c:112-118 | A normal tick makes writes iff the phase increment changed, which is iff an edge or a bulk step applied. The writes are the hardware programming of the new value followed by its display |
| `Control.SteadyTickIsSilent` | src/main.c:56-118 | A normal tick (not both keys pressed) with unchanged key levels and a hold counter below 90 makes no write and keeps the phase increment |
| `Control.WrapAround` | src/main.c:72-104 | "minus" at 0 gives 65535, and a "plus" bulk step at 65530 gives 17 |
| `Control.RunKeepsValid` | src/main.c:82-93 | After any number of ticks the hold counter is still a multiple of 10 in 0..200 |
| `Control.KeyTestRun` | src/main.c:52-66 | Any number of key-test ticks leaves the state exactly as it was, with one key-test display per tick, so normal operation resumes from the committed value |
| `Control.HoldRun` | src/main.c:70-106 | From the held key released, with the hold counter at 0, pressing one key and holding it for k ticks gives one ±1, then one ±23 per tick from the 10th tick on. The hold counter reads min(10k, 200) |
| `Control.SwitchHeldKey` | src/main.c:70-100 | The hold counter is shared by both keys and is not restarted when the held key changes. Going straight from holding "minus" (counter at 90 or more) to holding "plus" adds 24 in one tick: the +1 of the edge and the bulk step |
| `Control.ReleaseRestartsHold` | src/main.c:82-93 | From any state, a tick with both keys released, followed by k ticks of one key held, behaves like a fresh press: one ±1, and bulk steps only from the 10th held tick |
| `Control.HoldFiveTicks` | src/main.c:70-106 | From "plus" released, with the hold counter at 0, holding "plus" for five ticks adds exactly 1 |
| `Control.EdgeAcrossKeyTest` | src/main.c:63-110 | Pressing both keys from released and then releasing "minus" counts as a press of "plus", because the key test does not store the key levels |
| `Control.StartupInSync` | src/main.c:44-46 | The start-up writes leave the DDS logic holding 0 with its clock low, and the display showing the frequency of 0 |
| `Control.StepInSync` | src/main.c:113-118 | Every tick keeps the DDS logic holding the committed phase increment, with its clock low, and the display showing its frequency or the key test |
| `Control.RunInSync` | src/main.c:52-120 | Any number of ticks keeps the outside world in sync with the committed phase increment |
| `Control.FirmwareInSync` | src/main.c:44-120 | From power-up, for any key samples and either latching edge, the DDS logic holds exactly the committed phase increment |
| `Firmware.Controller.constructor` | src/main.c:22-50 | Start-up zeroes the state, programs and displays 0, and takes the first key levels as the old ones. Afterwards the ports hold the bytes of the committed value and the clock is low (`Synced`) |
| `Firmware.PowerUp` | src/main.c:22-50 | On a fresh board, `gpio_init` followed by the start-up sequence leaves exactly the start-up writes on the trace, the ports at 0, the clock low and the state at `Init`, with the board `Synced` |
| `Firmware.Controller.Tick` | src/main.c:54-119 | The loop body. It moves the state as `Step` does and writes exactly `Step`'s events. When the value changed, the ports hold its two bytes. Otherwise the ports are untouched, so a `Synced` board stays `Synced` |
| `Firmware.Controller.ApplyEdges` | src/main.c:69-79 | After `++` on a rising edge of "plus" and `--` on one of "minus", the candidate is the wrapped sum of the value and the edge adjustment |
| `Firmware.Controller.CountHold` | src/main.c:81-93 | The hold counter moves as `NextHold` says. The key levels and the phase increment are untouched |
| `Firmware.Controller.ApplyBulk` | src/main.c:95-106 | From a hold counter of 100 on, the candidate moves by 23 in the direction of "plus" if it is held, else of "minus", wrapped to 16 bits. Below 100 it is unchanged |
| `Firmware.Controller.Commit` | src/main.c:108-118 | The sampled key levels become the old ones. A changed value is committed, programmed (ports hold its bytes, clock low) and displayed. An unchanged value causes no write |
| `Firmware.Controller.Loop` | src/main.c:52-120 | Running ticks over a finite sequence of samples gives the state and the writes of `Run`. Ports A and C keep holding the bytes of the committed value, with the clock low, and the current key levels are the last samples |
| `Firmware.Controller.Advance` | src/main.c:52-120 | One more pass of the loop extends `Run` by one sample, keeps the board `Synced` and records the sample as the current key levels |

## Left out

- `update_display` computes the frequency (`41.343689 * phase_inc`) in double precision and formats it with `snprintf`. Its "Error" fallback depends on `snprintf`'s return value. The model abstracts all of this as the display event `Frequency(phaseInc)`, so the fallback path and the text itself are not modelled.
- The display driver (`display_sda5708_init`, `display_sda5708_printf`) is not part of this model. The display is a sink of `Shown` events.
- `gpio_init`'s data-direction registers, the CPLD reset pulse on PB4, and the reads of PINE are left out. The key levels are boolean inputs to `Tick`. `Io.Board.constructor` models only the initial port values.
- `_delay_ms(10.0)` and `cli()` are left out, because they carry timing and interrupt housekeeping but no logic.
- The `while (1)` loop is modelled as a single tick (`Tick`, `Step`), plus a finite run over a sequence of samples (`Loop`, `Run`).
- `key_state.old`/`new` are `u8` in C but only ever hold 0 or 1 (the result of a comparison). They are modelled as `bool`.
- `Word.Low`, `Word.High`: `& 0x00FF` and `>> 8` are modelled as remainder and quotient by 256. These are equal for an unsigned 16-bit value.
- `Word.Join`: the firmware never reassembles a value from its bytes. `Join` is how the DDS logic reads ports C and A back, so it belongs to the hardware reference model, together with `Io.Observer`.
- `Io.Observer`, the DDS logic that latches the ports on a clock edge, is not in the firmware. It is a reference model of the hardware contract, and the results hold for either edge.
