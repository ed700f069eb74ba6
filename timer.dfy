/**
 * The exercise countdown timer: a list of step durations in seconds, the
 * step being timed, the seconds left in it and whether it is running.
 * Each tick counts the current step down by one second, moves on to the
 * next step when the current one reaches zero, and stops after the last.
 */
module Timer {

  /** The three state variables of the timer. */
  datatype TimerState = TimerState(currentStep: nat, secondsLeft: nat, running: bool)

  /** The state the timer starts in, and returns to on reset. */
  function Initial(durations: seq<nat>): (r: TimerState)
    requires |durations| > 0
    ensures r.currentStep == 0 && r.secondsLeft == durations[0] && !r.running
  {
    TimerState(0, durations[0], false)
  }

  /** The step being timed is one of the durations. */
  predicate InRange(durations: seq<nat>, s: TimerState) {
    s.currentStep < |durations|
  }

  /** What one tick of the timer effect does to the state. */
  function Next(durations: seq<nat>, s: TimerState): TimerState {
    if s.running && s.secondsLeft > 0 then
      s.(secondsLeft := s.secondsLeft - 1)
    else if s.running && s.secondsLeft == 0 then
      if s.currentStep + 1 < |durations| then
        TimerState(s.currentStep + 1, durations[s.currentStep + 1], true)
      else
        s.(running := false)
    else
      s
  }

  /** `n` ticks in a row. */
  function Ticks(durations: seq<nat>, s: TimerState, n: nat): TimerState
    decreases n
  {
    if n == 0 then s else Ticks(durations, Next(durations, s), n - 1)
  }

  /** The sum of a list of durations. */
  function Sum(xs: seq<nat>): nat {
    if xs == [] then 0 else xs[0] + Sum(xs[1..])
  }

  /**
   * The number of ticks the timer still has to take before it stops: the
   * seconds left in this step and in every later one, one tick per step
   * change, and the final tick that stops it.
   */
  function Remaining(durations: seq<nat>, s: TimerState): nat
    requires InRange(durations, s)
  {
    (if s.running then 1 else 0) + s.secondsLeft
    + Sum(durations[s.currentStep + 1..]) + (|durations| - 1 - s.currentStep)
  }

  /** A tick keeps the step inside the list of durations. */
  lemma NextInRange(durations: seq<nat>, s: TimerState)
    requires InRange(durations, s)
    ensures InRange(durations, Next(durations, s))
  {
  }

  /** A stopped timer ignores ticks. */
  lemma IdleTicksChangeNothing(durations: seq<nat>, s: TimerState, n: nat)
    requires !s.running
    ensures Ticks(durations, s, n) == s
  {
  }

  /** Every tick of a running timer brings it exactly one tick closer to stopping. */
  lemma RunningTickCountsDown(durations: seq<nat>, s: TimerState)
    requires InRange(durations, s) && s.running
    ensures Remaining(durations, Next(durations, s)) + 1 == Remaining(durations, s)
  {
    var k := s.currentStep;
    if s.secondsLeft == 0 && k + 1 < |durations| {
      assert durations[k + 1..] == [durations[k + 1]] + durations[k + 2..];
    }
  }

  /** A tick stops a running timer only at the end of its last step. */
  lemma StopsOnlyAtEnd(durations: seq<nat>, s: TimerState)
    requires InRange(durations, s) && s.running && !Next(durations, s).running
    ensures Next(durations, s) == TimerState(|durations| - 1, 0, false)
  {
  }

  /**
   * A running timer has stopped, at the end of its last step, once it has
   * been given as many ticks as `Remaining` counts.
   */
  lemma {:induction false} StopsWithin(durations: seq<nat>, s: TimerState, n: nat)
    requires InRange(durations, s) && s.running && n >= Remaining(durations, s)
    ensures Ticks(durations, s, n) == TimerState(|durations| - 1, 0, false)
    decreases n
  {
    var t := Next(durations, s);
    NextInRange(durations, s);
    RunningTickCountsDown(durations, s);
    if t.running {
      StopsWithin(durations, t, n - 1);
    } else {
      StopsOnlyAtEnd(durations, s);
      IdleTicksChangeNothing(durations, t, n - 1);
    }
  }

  /** The timer component's state. */
  class Timer {
    const durations: seq<nat>
    var currentStep: nat
    var secondsLeft: nat
    var running: bool

    function State(): TimerState
      reads this
    {
      TimerState(currentStep, secondsLeft, running)
    }

    predicate Valid()
      reads this
    {
      |durations| > 0 && InRange(durations, State())
    }

    /** A new timer waits, unstarted, at the start of its first step. */
    constructor(durations: seq<nat>)
      requires |durations| > 0
      ensures Valid()
      ensures this.durations == durations && State() == Initial(durations)
    {
      this.durations := durations;
      currentStep := 0;
      secondsLeft := durations[0];
      running := false;
    }

    /** One run of the countdown effect. */
    method Tick()
      requires Valid()
      modifies this
      ensures Valid() && State() == Next(durations, old(State()))
      ensures old(running) && old(secondsLeft) > 0 ==>
        currentStep == old(currentStep) && secondsLeft + 1 == old(secondsLeft) && running
      ensures old(running) && old(secondsLeft) == 0 && old(currentStep) + 1 < |durations| ==>
        currentStep == old(currentStep) + 1 && secondsLeft == durations[currentStep] && running
      ensures old(running) && old(secondsLeft) == 0 && old(currentStep) + 1 == |durations| ==>
        currentStep == old(currentStep) && secondsLeft == 0 && !running
      ensures !old(running) ==> State() == old(State())
    {
      if running && secondsLeft > 0 {
        secondsLeft := secondsLeft - 1;
      } else if running && secondsLeft == 0 {
        if currentStep + 1 < |durations| {
          var next := currentStep + 1;
          currentStep := next;
          secondsLeft := durations[next];
        } else {
          running := false;
        }
      }
    }

    /** `reset`: back to the start of the first step, stopped. */
    method Reset()
      requires Valid()
      modifies this
      ensures Valid() && State() == Initial(durations)
    {
      running := false;
      currentStep := 0;
      secondsLeft := durations[0];
    }

    /** The Start button. */
    method Start()
      requires Valid()
      modifies this
      ensures Valid() && State() == old(State()).(running := true)
    {
      running := true;
    }

    /** The Pause button. */
    method Pause()
      requires Valid()
      modifies this
      ensures Valid() && State() == old(State()).(running := false)
    {
      running := false;
    }
  }

  // The `mm:ss` display.

  predicate IsDigit(c: char) {
    '0' <= c <= '9'
  }

  predicate AllDigits(t: string) {
    forall k :: 0 <= k < |t| ==> IsDigit(t[k])
  }

  function DigitChar(d: nat): (c: char)
    requires d < 10
    ensures IsDigit(c)
  {
    ('0' as int + d) as char
  }

  /** The number a string of decimal digits denotes. */
  function DigitsValue(t: string): nat
    requires AllDigits(t)
  {
    if t == [] then 0 else 10 * DigitsValue(t[..|t| - 1]) + (t[|t| - 1] as int - '0' as int)
  }

  /** `String(n)`: the decimal digits of `n`, without leading zeros. */
  function NatToString(n: nat): (r: string)
    ensures AllDigits(r) && |r| >= 1
    ensures |r| > 1 ==> r[0] != '0'
    ensures n < 10 ==> |r| == 1
    ensures 10 <= n < 100 ==> |r| == 2
  {
    if n < 10 then [DigitChar(n)] else NatToString(n / 10) + [DigitChar(n % 10)]
  }

  /** `t.padStart(width, c)` */
  function PadStart(t: string, width: nat, c: char): (r: string)
    ensures |r| == if |t| >= width then |t| else width
    ensures r[|r| - |t|..] == t
    ensures forall k :: 0 <= k < |r| - |t| ==> r[k] == c
  {
    if |t| >= width then t else seq(width - |t|, _ => c) + t
  }

  /** `format(s)`: minutes and seconds, each at least two digits, joined by ':'. */
  function Format(s: nat): string {
    PadStart(NatToString(s / 60), 2, '0') + ":" + PadStart(NatToString(s % 60), 2, '0')
  }

  /** `NatToString` and `DigitsValue` are inverse. */
  lemma {:induction false} NatToStringValue(n: nat)
    ensures DigitsValue(NatToString(n)) == n
    decreases n
  {
    if n >= 10 {
      var r := NatToString(n);
      NatToStringValue(n / 10);
      assert r[..|r| - 1] == NatToString(n / 10);
    }
  }

  /** Zeros in front of a number do not change its value. */
  lemma {:induction false} LeadingZerosValue(z: string, t: string)
    requires AllDigits(t) && forall k :: 0 <= k < |z| ==> z[k] == '0'
    ensures AllDigits(z + t) && DigitsValue(z + t) == DigitsValue(t)
    decreases |z| + |t|
  {
    if t == [] {
      assert z + t == z;
      if z != [] {
        LeadingZerosValue(z[..|z| - 1], []);
        assert z[..|z| - 1] + [] == z[..|z| - 1];
      }
    } else {
      var u := z + t;
      LeadingZerosValue(z, t[..|t| - 1]);
      assert u[..|u| - 1] == z + t[..|t| - 1];
    }
  }

  /** The value of a padded number string is the number. */
  lemma PaddedValue(n: nat)
    ensures AllDigits(PadStart(NatToString(n), 2, '0'))
    ensures DigitsValue(PadStart(NatToString(n), 2, '0')) == n
  {
    var t := NatToString(n);
    var r := PadStart(t, 2, '0');
    NatToStringValue(n);
    if |t| < 2 {
      LeadingZerosValue(r[..|r| - |t|], t);
      assert r == r[..|r| - |t|] + t;
    }
  }

  /**
   * The display reads back as the time it shows: the part before the last
   * ':' is the minutes, the two digits after it are the seconds.
   */
  lemma FormatReadsBack(s: nat)
    ensures var r := Format(s);
      |r| >= 5 && r[|r| - 3] == ':' &&
      AllDigits(r[..|r| - 3]) && AllDigits(r[|r| - 2..]) &&
      DigitsValue(r[..|r| - 3]) == s / 60 && DigitsValue(r[|r| - 2..]) == s % 60
  {
    var m := PadStart(NatToString(s / 60), 2, '0');
    var sec := PadStart(NatToString(s % 60), 2, '0');
    var r := Format(s);
    PaddedValue(s / 60);
    PaddedValue(s % 60);
    assert |sec| == 2;
    assert r[..|r| - 3] == m;
    assert r[|r| - 2..] == sec;
  }

  /** Different times never show the same display. */
  lemma FormatInjective(a: nat, b: nat)
    requires Format(a) == Format(b)
    ensures a == b
  {
    FormatReadsBack(a);
    FormatReadsBack(b);
    assert a == 60 * (a / 60) + a % 60;
  }

  /** Below 100 minutes the display is exactly `mm:ss`. */
  lemma FormatWidth(s: nat)
    requires s < 6000
    ensures |Format(s)| == 5
  {
  }
}
