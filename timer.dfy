/**
 * The timer of src/gameboy/timer/timer.cpp, with the C++ widths of
 * timer.hpp: `dividerCounter` and `timerCounter` are `uint16_t` (`u16`),
 * `timerModulo`, `timerControl` and `timerClockSelect` are `uint8_t` (`u8`).
 * Both are integer ranges; every wrap-around of the unsigned C++ arithmetic
 * is written out (`Add16`), and the TAC bit tests are stated arithmetically.
 *
 * `cpu->triggerInterrupt(Interrupt::Timer)` is an append to the ghost log
 * `requests`.
 */
module Timer {
  import opened Interrupts

  /** A `uint8_t` value. */
  newtype u8 = x: int | 0 <= x < 0x100

  /** A `uint16_t` value. Its arithmetic is written out modulo 2^16 below. */
  newtype u16 = x: int | 0 <= x < 0x1_0000

  /** `a + b` on `uint16_t`: the sum wraps modulo 2^16. */
  function Add16(a: u16, b: int): (r: u16)
    requires 0 <= b < 0x1_0000
    ensures a as int + b < 0x1_0000 ==> r as int == a as int + b
    ensures a as int + b >= 0x1_0000 ==> r as int == a as int + b - 0x1_0000
  {
    ((a as int + b) % 0x1_0000) as u16
  }

  /** `a - b` on `uint16_t`: wraps around by 2^16 when `b > a`. */
  function Sub16(a: u16, b: u16): (r: u16)
    ensures b <= a ==> r as int == a as int - b as int
    ensures b > a ==> r as int == a as int - b as int + 0x1_0000
  {
    ((a as int - b as int) % 0x1_0000) as u16
  }

  /** The low byte of a 16-bit field, as a `uint8_t` getter returns it. */
  function Low8(x: u16): (b: u8)
    ensures x < 256 ==> b as int == x as int
  {
    (x as int % 256) as u8
  }

  /** The period the switch on TAC bits 0-1 assigns: the Game Boy's 1024, 16, 64 and 256 T-cycles. */
  function ClockPeriod(select: int): u16
    requires select < 4
  {
    if select == 0 then 1024 else if select == 1 then 16 else if select == 2 then 64 else 256
  }

  /**
   * `uint8_t frequency` after the switch on TAC bits 0-1. The C++ assigns
   * the period to a `uint8_t`, which keeps its low byte only, so the
   * selects 0 and 3 both give a threshold of 0 (see `FrequencyTruncatesPeriod`).
   */
  function Frequency(control: u8): (f: u16)
    ensures f == 0 || f == 16 || f == 64
  {
    var select := Select(control);
    if select == 0 then 0 else if select == 1 then 16 else if select == 2 then 64 else 0
  }

  /** The threshold is the select's period truncated to eight bits. */
  lemma FrequencyTruncatesPeriod(control: u8)
    ensures Frequency(control) as int == ClockPeriod(Select(control)) as int % 256
  {
  }

  /** TAC bits 0-1, `control & 0x03`. */
  function Select(control: u8): (s: int)
    ensures 0 <= s < 4
  {
    control as int % 4
  }

  /** Whether TAC bit 2 (`control & 0x04`) enables the timer. */
  predicate Enabled(control: u8): (b: bool)
    ensures b <==> control as bv8 & 0x04 != 0
  {
    (control as int / 4) % 2 == 1
  }

  /**
   * The divider after `updateTimer(cycles)`: the 16-bit sum, less 256 once
   * if it reached 256. A counter below 256 stays below 256 and advances
   * modulo 256.
   */
  function DividerAfter(divider: u16, cycles: u8): (r: u16)
    ensures divider < 256 ==> r < 256 && r as int == (divider as int + cycles as int) % 256
  {
    var sum := Add16(divider, cycles as int);
    if sum >= 256 then Sub16(sum, 256) else sum
  }

  /** TIMA after an update, and whether that update reloaded it from TMA. */
  datatype Tick = Tick(counter: u16, overflow: bool)

  /**
   * The timer-counter part of `updateTimer(cycles)`: `timerCounter` is both
   * the cycle accumulator and TIMA.
   */
  function TimerAfter(counter: u16, modulo: u8, control: u8, cycles: u8): (t: Tick)
    ensures !Enabled(control) ==> t == Tick(counter, false)
    ensures t.overflow ==> Enabled(control) && t.counter as int == modulo as int
  {
    if !Enabled(control) then Tick(counter, false)
    else
      var frequency := Frequency(control);
      var sum := Add16(counter, cycles as int);
      if sum >= frequency then
        var reduced := Sub16(sum, frequency);
        if reduced == 0xFF then Tick(modulo as u16, true) else Tick(Add16(reduced, 1), false)
      else
        Tick(sum, false)
  }

  /**
   * An enabled update reduces the accumulated counter by the threshold when
   * it has reached it; a result of 0xFF reloads TMA and requests the
   * interrupt, any other result is incremented by exactly one (modulo 2^16).
   */
  lemma UpdateReducesThenIncrementsOrReloads(counter: u16, modulo: u8, control: u8, cycles: u8)
    requires Enabled(control)
    ensures var sum := (counter as int + cycles as int) % 0x1_0000;
            var f := Frequency(control) as int;
            var t := TimerAfter(counter, modulo, control, cycles);
            (t.overflow <==> sum >= f && sum - f == 0xFF) &&
            (sum >= f && !t.overflow ==> t.counter as int == (sum - f + 1) % 0x1_0000) &&
            (sum < f ==> t.counter as int == sum)
  {
  }

  /**
   * The truncated threshold of selects 0 and 3 is reached by every update:
   * every enabled update adds `cycles + 1`, or reloads when the sum is 0xFF.
   */
  lemma ZeroThresholdCountsEveryUpdate(counter: u16, modulo: u8, control: u8, cycles: u8)
    requires Enabled(control) && (Select(control) == 0 || Select(control) == 3)
    ensures var sum := (counter as int + cycles as int) % 0x1_0000;
            var t := TimerAfter(counter, modulo, control, cycles);
            (t.overflow <==> sum == 0xFF) &&
            (!t.overflow ==> t.counter as int == (counter as int + cycles as int + 1) % 0x1_0000)
  {
  }

  /** An 8-bit TMA reload keeps the counter below 256, so TIMA is then the whole counter. */
  lemma ReloadFitsInAByte(counter: u16, modulo: u8, control: u8, cycles: u8)
    ensures var t := TimerAfter(counter, modulo, control, cycles);
            t.overflow ==> t.counter < 256 && Low8(t.counter) == modulo
  {
  }

  /**
   * The requests of one `step(cycles)`: `updateTimer` requests on reload,
   * then `checkAndTriggerInterrupt` requests whenever TAC bit 2 is set.
   */
  function StepRequests(counter: u16, modulo: u8, control: u8, cycles: u8): (r: seq<Interrupt>)
    ensures |r| == 0 <==> !Enabled(control)
    ensures Enabled(control) ==> r[|r| - 1] == Interrupt.Timer
    ensures forall k :: 0 <= k < |r| ==> r[k] == Interrupt.Timer
    ensures |r| == 2 <==> TimerAfter(counter, modulo, control, cycles).overflow
  {
    (if TimerAfter(counter, modulo, control, cycles).overflow then [Interrupt.Timer] else [])
    + (if Enabled(control) then [Interrupt.Timer] else [])
  }

  class Timer {
    var dividerCounter: u16
    var timerCounter: u16
    var timerModulo: u8
    var timerControl: u8
    var timerClockSelect: u8
    /** Every `triggerInterrupt` call so far, oldest first. */
    ghost var requests: seq<Interrupt>

    /** The divider counter stays below 256 (it is reduced by 256 whenever it reaches it). */
    ghost predicate Valid()
      reads this
    {
      dividerCounter < 256
    }

    /** `Timer::Timer`: every field starts at zero. */
    constructor ()
      ensures Valid()
      ensures dividerCounter == 0 && timerCounter == 0 && timerModulo == 0
      ensures timerControl == 0 && timerClockSelect == 0
      ensures requests == []
    {
      dividerCounter, timerCounter, timerModulo := 0, 0, 0;
      timerControl, timerClockSelect := 0, 0;
      requests := [];
    }

    /** `Timer::reset`: all five fields are zero again. */
    method Reset()
      modifies this
      ensures Valid()
      ensures dividerCounter == 0 && timerCounter == 0 && timerModulo == 0
      ensures timerControl == 0 && timerClockSelect == 0
      ensures requests == old(requests)
    {
      dividerCounter := 0;
      timerCounter := 0;
      timerModulo := 0;
      timerControl := 0;
      timerClockSelect := 0;
    }

    /** `Timer::updateTimer`. */
    method UpdateTimer(cycles: u8)
      modifies this
      ensures dividerCounter == DividerAfter(old(dividerCounter), cycles)
      ensures var t := TimerAfter(old(timerCounter), old(timerModulo), old(timerControl), cycles);
              timerCounter == t.counter &&
              requests == old(requests) + (if t.overflow then [Interrupt.Timer] else [])
      ensures timerModulo == old(timerModulo) && timerControl == old(timerControl)
      ensures timerClockSelect == old(timerClockSelect)
    {
      dividerCounter := Add16(dividerCounter, cycles as int);
      if dividerCounter >= 256 {
        dividerCounter := Sub16(dividerCounter, 256);
      }
      if !Enabled(timerControl) {
        return;
      }
      var frequency := Frequency(timerControl);
      timerCounter := Add16(timerCounter, cycles as int);
      if timerCounter >= frequency {
        timerCounter := Sub16(timerCounter, frequency);
        if timerCounter == 0xFF {
          timerCounter := timerModulo as u16;
          requests := requests + [Interrupt.Timer];
        } else {
          timerCounter := Add16(timerCounter, 1);
        }
      }
    }

    /** `Timer::checkAndTriggerInterrupt`: a request whenever TAC bit 2 is set. */
    method CheckAndTriggerInterrupt()
      modifies this`requests
      ensures requests == old(requests) + (if Enabled(timerControl) then [Interrupt.Timer] else [])
    {
      if Enabled(timerControl) {
        requests := requests + [Interrupt.Timer];
      }
    }

    /** `Timer::step`: update, then the unconditional check. */
    method Step(cycles: u8)
      modifies this
      ensures old(Valid()) ==> Valid()
      ensures dividerCounter == DividerAfter(old(dividerCounter), cycles)
      ensures timerCounter == TimerAfter(old(timerCounter), old(timerModulo), old(timerControl), cycles).counter
      ensures timerModulo == old(timerModulo) && timerControl == old(timerControl)
      ensures timerClockSelect == old(timerClockSelect)
      ensures requests == old(requests) + StepRequests(old(timerCounter), old(timerModulo), old(timerControl), cycles)
    {
      UpdateTimer(cycles);
      CheckAndTriggerInterrupt();
    }

    /** `setDividerRegister`: the written value is ignored, the counter restarts at zero. */
    method SetDividerRegister(value: u8)
      modifies this`dividerCounter
      ensures dividerCounter == 0
    {
      dividerCounter := 0;
    }

    /**
     * `getDividerRegister`: the low byte of the counter, which is the whole
     * counter while it stays below 256.
     */
    method GetDividerRegister() returns (v: u8)
      ensures v as int == dividerCounter as int % 256
      ensures Valid() ==> v as int == dividerCounter as int
    {
      v := Low8(dividerCounter);
    }

    method SetTimerCounter(value: u8)
      modifies this`timerCounter
      ensures timerCounter as int == value as int
    {
      timerCounter := value as u16;
    }

    /** `getTimerCounter`: TIMA is the low byte of the 16-bit accumulator. */
    method GetTimerCounter() returns (v: u8)
      ensures v as int == timerCounter as int % 256
    {
      v := Low8(timerCounter);
    }

    method SetTimerModulo(value: u8)
      modifies this`timerModulo
      ensures timerModulo == value
    {
      timerModulo := value;
    }

    method GetTimerModulo() returns (v: u8)
      ensures v == timerModulo
    {
      v := timerModulo;
    }

    method SetTimerControl(value: u8)
      modifies this`timerControl
      ensures timerControl == value
    {
      timerControl := value;
    }

    method GetTimerControl() returns (v: u8)
      ensures v == timerControl
    {
      v := timerControl;
    }
  }

  /** Setting TIMA, TMA and TAC and reading them back returns the written bytes. */
  method SetThenGet(t: Timer, tima: u8, tma: u8, tac: u8) returns (gotTima: u8, gotTma: u8, gotTac: u8)
    modifies t
    ensures gotTima == tima && gotTma == tma && gotTac == tac
  {
    t.SetTimerCounter(tima);
    t.SetTimerModulo(tma);
    t.SetTimerControl(tac);
    gotTima := t.GetTimerCounter();
    gotTma := t.GetTimerModulo();
    gotTac := t.GetTimerControl();
  }
}
