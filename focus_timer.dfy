/** The focus-timer demo of the landing page: a countdown of `timeLeft` seconds
    that runs while `isActive` holds, a play/pause button, a reset button, and
    the `MM:SS` rendering of the remaining time.

    The one-second interval is an external event here: each `Tick` is one
    firing of the interval callback that the effect installs while the timer
    is active and above zero. */
module FocusTimer {

  import opened Common

  /** The timer starts at, and resets to, 25 minutes. */
  const InitialSeconds: int := 25 * 60

  datatype TimerState = TimerState(timeLeft: int, isActive: bool)

  function Initial(): (s: TimerState)
    ensures s.timeLeft == 1500 && !s.isActive
  {
    TimerState(InitialSeconds, false)
  }

  /** The effect installs an interval only while the timer is active and above zero. */
  predicate Counting(s: TimerState)
  {
    s.isActive && s.timeLeft > 0
  }

  /** One firing of the interval: the only transition that changes `timeLeft` downwards. */
  function AfterTick(s: TimerState): (r: TimerState)
    ensures r != s <==> Counting(s)
    ensures r.isActive == s.isActive
    ensures Counting(s) ==> r.timeLeft == s.timeLeft - 1
    ensures s.timeLeft >= 0 ==> 0 <= r.timeLeft <= s.timeLeft
  {
    if Counting(s) then s.(timeLeft := s.timeLeft - 1) else s
  }

  /** The play/pause button. */
  function AfterPlayPause(s: TimerState): (r: TimerState)
    ensures r.timeLeft == s.timeLeft
    ensures r.isActive != s.isActive
  {
    s.(isActive := !s.isActive)
  }

  /** The reset button: paused, back at 25 minutes, whatever the state was. */
  function AfterReset(s: TimerState): (r: TimerState)
    ensures r == Initial()
  {
    TimerState(InitialSeconds, false)
  }

  /** `n` consecutive firings of the interval. */
  function AfterTicks(s: TimerState, n: nat): TimerState
    decreases n
  {
    if n == 0 then s else AfterTicks(AfterTick(s), n - 1)
  }

  lemma {:induction false} PlayPauseTwice(s: TimerState)
    ensures AfterPlayPause(AfterPlayPause(s)) == s
  {
  }

  lemma {:induction false} ResetIdempotent(s: TimerState)
    ensures AfterReset(AfterReset(s)) == AfterReset(s)
  {
  }

  /** No sequence of ticks takes a non-negative timer below zero, and ticks
      never change whether the timer is active. */
  lemma {:induction false} TicksStayNonNegative(s: TimerState, n: nat)
    requires s.timeLeft >= 0
    ensures 0 <= AfterTicks(s, n).timeLeft <= s.timeLeft
    ensures AfterTicks(s, n).isActive == s.isActive
    decreases n
  {
    if n > 0 {
      TicksStayNonNegative(AfterTick(s), n - 1);
    }
  }

  /** A paused timer, or one at zero, ignores any number of ticks. */
  lemma {:induction false} TicksWhenStopped(s: TimerState, n: nat)
    requires !Counting(s)
    ensures AfterTicks(s, n) == s
    decreases n
  {
    if n > 0 {
      TicksWhenStopped(AfterTick(s), n - 1);
    }
  }

  /** An active timer counts down by exactly one per tick while it has time left. */
  lemma {:induction false} TicksCountDown(s: TimerState, n: nat)
    requires s.isActive && n <= s.timeLeft
    ensures AfterTicks(s, n) == TimerState(s.timeLeft - n, true)
    decreases n
  {
    if n > 0 {
      TicksCountDown(AfterTick(s), n - 1);
    }
  }

  /** An active timer given at least as many ticks as it has seconds stops at
      zero and stays active: there is no automatic stop. */
  lemma {:induction false} TicksSaturateAtZero(s: TimerState, n: nat)
    requires s.isActive && 0 <= s.timeLeft <= n
    ensures AfterTicks(s, n) == TimerState(0, true)
  {
    var k: nat := s.timeLeft;
    TicksSplit(s, k, n - k);
    TicksCountDown(s, k);
    TicksWhenStopped(AfterTicks(s, k), n - k);
  }

  lemma {:induction false} TicksSplit(s: TimerState, a: nat, b: nat)
    ensures AfterTicks(s, a + b) == AfterTicks(AfterTicks(s, a), b)
    decreases a
  {
    if a > 0 {
      TicksSplit(AfterTick(s), a - 1, b);
    }
  }

  /** Reset, then play, then `n` ticks with `n` at most 1500 leave `1500 - n`
      seconds on an active timer, from any state. */
  lemma {:induction false} ResetPlayCountDown(s: TimerState, n: nat)
    requires n <= InitialSeconds
    ensures AfterTicks(AfterPlayPause(AfterReset(s)), n) == TimerState(InitialSeconds - n, true)
  {
    TicksCountDown(AfterPlayPause(AfterReset(s)), n);
  }

  // ---------------------------------------------------------------------------
  // formatTime: `Math.floor(seconds / 60)` and `seconds % 60`, each rendered
  // with `toString()` and `padStart(2, "0")`, joined by a colon.

  predicate IsDigit(c: char)
  {
    '0' <= c <= '9'
  }

  predicate AllDigits(s: string)
  {
    forall i :: 0 <= i < |s| ==> IsDigit(s[i])
  }

  function DigitChar(d: int): (c: char)
    requires 0 <= d < 10
    ensures IsDigit(c) && c as int - '0' as int == d
  {
    ('0' as int + d) as char
  }

  /** The number a string of decimal digits denotes (leading zeros allowed). */
  function DecimalValue(s: string): nat
    requires AllDigits(s)
  {
    if s == [] then 0
    else DecimalValue(s[..|s| - 1]) * 10 + (s[|s| - 1] as int - '0' as int)
  }

  /** The decimal digits of a natural number, as `Number.prototype.toString`
      writes them for a safe integer. */
  function Digits(n: nat): (r: string)
    ensures AllDigits(r) && DecimalValue(r) == n
    ensures |r| == 1 <==> n < 10
    ensures |r| == 2 <==> 10 <= n < 100
    ensures n > 0 ==> r[0] != '0'
    decreases n
  {
    if n < 10 then [DigitChar(n)]
    else
      var front := Digits(n / 10);
      var r := front + [DigitChar(n % 10)];
      assert r[..|r| - 1] == front;
      r
  }

  /** `toString()` of an integer: a minus sign in front of the digits of a negative one. */
  function NumberToString(n: int): (r: string)
    ensures n >= 0 ==> r == Digits(n)
    ensures n < 0 ==> |r| >= 2 && r[0] == '-' && r[1..] == Digits(-n)
  {
    if n < 0 then "-" + Digits(-n) else Digits(n)
  }

  /** `padStart(width, fill)`: fills on the left up to `width` characters. */
  function PadStart(s: string, width: nat, fill: char): (r: string)
    ensures |r| == if |s| >= width then |s| else width
    ensures r[|r| - |s|..] == s
    ensures forall i :: 0 <= i < |r| - |s| ==> r[i] == fill
    decreases width - |s|
  {
    if |s| >= width then s else PadStart([fill] + s, width, fill)
  }

  function Pad2(s: string): string
  {
    PadStart(s, 2, '0')
  }

  /** JavaScript's `%`: the remainder takes the sign of the dividend. */
  function JsRemainder(a: int, b: int): (r: int)
    requires b > 0
    ensures a >= 0 ==> 0 <= r < b && r == a % b
    ensures a < 0 ==> -b < r <= 0 && -r == (-a) % b
  {
    if a >= 0 then a % b else -((-a) % b)
  }

  /** `formatTime(seconds)`. Dafny's `/` with a positive divisor rounds towards
      negative infinity, as `Math.floor(seconds / 60)` does on safe integers. */
  function FormatTime(seconds: int): (t: string)
    ensures |t| >= 5
    ensures t[0] == '-' <==> seconds < 0
  {
    Pad2(NumberToString(seconds / 60)) + ":" + Pad2(NumberToString(JsRemainder(seconds, 60)))
  }

  /** The index of the first colon of `t`, or `|t|` when there is none. */
  function ColonIndex(t: string): (k: nat)
    ensures k <= |t|
    ensures k < |t| ==> t[k] == ':'
    ensures forall j :: 0 <= j < k ==> t[j] != ':'
  {
    if t == [] then 0
    else if t[0] == ':' then 0
    else 1 + ColonIndex(t[1..])
  }

  /** Reads a clock display back: the minutes before the first colon times 60
      plus the seconds after it, when both fields are decimal digits. */
  function ReadClock(t: string): Option<nat>
  {
    var k := ColonIndex(t);
    if k < |t| then ReadFields(t[..k], t[k + 1..]) else None
  }

  function ReadFields(minutes: string, seconds: string): Option<nat>
  {
    if AllDigits(minutes) && AllDigits(seconds) then
      Some(DecimalValue(minutes) * 60 + DecimalValue(seconds))
    else None
  }

  lemma {:induction false} LeadingZero(s: string)
    requires AllDigits(s)
    ensures AllDigits("0" + s) && DecimalValue("0" + s) == DecimalValue(s)
    decreases |s|
  {
    var z := "0" + s;
    if s != [] {
      assert z[..|z| - 1] == "0" + s[..|s| - 1];
      LeadingZero(s[..|s| - 1]);
    }
  }

  /** Padding the digits of `n` to two characters keeps its value. */
  lemma {:induction false} Pad2Digits(n: nat)
    ensures AllDigits(Pad2(Digits(n)))
    ensures DecimalValue(Pad2(Digits(n))) == n
    ensures |Pad2(Digits(n))| == if n < 10 then 2 else |Digits(n)|
  {
    if n < 10 {
      assert Pad2(Digits(n)) == "0" + Digits(n);
      LeadingZero(Digits(n));
    } else {
      assert Pad2(Digits(n)) == Digits(n);
    }
  }

  /** The display of `minutes` and `secs`, each padded to two digits. */
  function Clock(minutes: nat, secs: nat): string
  {
    Pad2(Digits(minutes)) + ":" + Pad2(Digits(secs))
  }

  /** For a non-negative count `formatTime` shows the quotient and the
      remainder by 60. */
  lemma {:induction false} FormatTimeIsClock(seconds: int)
    requires seconds >= 0
    ensures FormatTime(seconds) == Clock(seconds / 60, seconds % 60)
  {
    assert NumberToString(seconds / 60) == Digits(seconds / 60);
    assert NumberToString(JsRemainder(seconds, 60)) == Digits(seconds % 60);
  }

  lemma {:induction false} DivMod60(seconds: int)
    requires seconds >= 0
    ensures seconds / 60 * 60 + seconds % 60 == seconds
    ensures 0 <= seconds % 60 < 60
  {
  }

  /** A clock text: at least five characters, a colon before the last two,
      the digits of `minutes` before it and the two digits of `secs` after it. */
  predicate ClockShape(t: string, minutes: nat, secs: nat)
  {
    |t| >= 5 && t[|t| - 3] == ':' &&
    AllDigits(t[..|t| - 3]) && DecimalValue(t[..|t| - 3]) == minutes &&
    AllDigits(t[|t| - 2..]) && DecimalValue(t[|t| - 2..]) == secs
  }

  lemma {:induction false} FieldsShape(t: string, m: string, s: string)
    requires t == m + ":" + s
    requires AllDigits(m) && AllDigits(s) && |m| >= 2 && |s| == 2
    ensures ClockShape(t, DecimalValue(m), DecimalValue(s))
  {
    assert t[..|t| - 3] == m;
    assert t[|t| - 2..] == s;
  }

  lemma {:induction false} ClockHasShape(minutes: nat, secs: nat)
    requires secs < 100
    ensures ClockShape(Clock(minutes, secs), minutes, secs)
  {
    Pad2Digits(minutes);
    Pad2Digits(secs);
    FieldsShape(Clock(minutes, secs), Pad2(Digits(minutes)), Pad2(Digits(secs)));
  }

  /** For a non-negative number of seconds the display is the minutes, padded
      to at least two digits, a colon, and exactly two digits of seconds in
      00..59. */
  lemma {:induction false} FormatTimeShape(seconds: int)
    requires seconds >= 0
    ensures ClockShape(FormatTime(seconds), seconds / 60, seconds % 60)
    ensures seconds % 60 < 60
  {
    FormatTimeIsClock(seconds);
    DivMod60(seconds);
    ClockHasShape(seconds / 60, seconds % 60);
  }

  /** Below 100 minutes the display is always five characters long. */
  lemma {:induction false} FormatTimeLength(seconds: int)
    requires 0 <= seconds < 6000
    ensures |FormatTime(seconds)| == 5
  {
    FormatTimeIsClock(seconds);
    Pad2Digits(seconds / 60);
    Pad2Digits(seconds % 60);
  }

  /** A text made of two digit fields around a colon reads back as those fields. */
  lemma {:induction false} ReadFieldsAround(t: string, m: string, s: string)
    requires t == m + ":" + s && AllDigits(m) && AllDigits(s)
    ensures ReadClock(t) == ReadFields(m, s)
  {
    assert t[..|m|] == m;
    assert t[|m| + 1..] == s;
    ColonIndexAt(t, |m|);
  }

  lemma {:induction false} ReadClockOfClock(minutes: nat, secs: nat)
    ensures ReadClock(Clock(minutes, secs)) == Some(minutes * 60 + secs)
  {
    Pad2Digits(minutes);
    Pad2Digits(secs);
    ReadFieldsAround(Clock(minutes, secs), Pad2(Digits(minutes)), Pad2(Digits(secs)));
  }

  /** Reading the two fields of the display back as `minutes * 60 + seconds`
      recovers the number of seconds. */
  lemma {:induction false} FormatTimeRoundTrip(seconds: int)
    requires seconds >= 0
    ensures ReadClock(FormatTime(seconds)) == Some(seconds)
  {
    var minutes: nat, secs: nat := seconds / 60, seconds % 60;
    calc {
      ReadClock(FormatTime(seconds));
    == { FormatTimeIsClock(seconds); }
      ReadClock(Clock(minutes, secs));
    == { ReadClockOfClock(minutes, secs); }
      Some(minutes * 60 + secs);
    == { DivMod60(seconds); }
      Some(seconds);
    }
  }

  lemma {:induction false} ColonIndexAt(t: string, k: nat)
    requires k < |t| && t[k] == ':' && AllDigits(t[..k])
    ensures ColonIndex(t) == k
  {
    forall j | 0 <= j < k
      ensures t[j] != ':'
    {
      assert IsDigit(t[..k][j]);
    }
  }

  /** A negative count renders with its signs, as JavaScript does. */
  lemma {:induction false} FormatTimeNegative()
    ensures FormatTime(-1) == "-1:-1"
  {
    assert NumberToString(-1 / 60) == "-1";
    assert NumberToString(JsRemainder(-1, 60)) == "-1";
  }

  // ---------------------------------------------------------------------------
  // The component's state, updated in place by its handlers.

  class Timer {
    var timeLeft: int
    var isActive: bool

    function State(): TimerState
      reads this
    {
      TimerState(timeLeft, isActive)
    }

    /** The count stays between zero and the initial 25 minutes. */
    ghost predicate Valid()
      reads this
    {
      0 <= timeLeft <= InitialSeconds
    }

    /** The text shown in the timer's face. */
    function Display(): (t: string)
      reads this
      ensures t == FormatTime(timeLeft)
      ensures timeLeft >= 0 ==> ReadClock(t) == Some(timeLeft)
      ensures Valid() ==> |t| == 5 && ClockShape(t, timeLeft / 60, timeLeft % 60)
    {
      var t := FormatTime(timeLeft);
      assert timeLeft >= 0 ==> ReadClock(t) == Some(timeLeft) by {
        if timeLeft >= 0 { FormatTimeRoundTrip(timeLeft); }
      }
      assert Valid() ==> |t| == 5 && ClockShape(t, timeLeft / 60, timeLeft % 60) by {
        if Valid() {
          FormatTimeLength(timeLeft);
          FormatTimeShape(timeLeft);
        }
      }
      t
    }

    constructor ()
      ensures State() == Initial() && Valid()
    {
      timeLeft, isActive := InitialSeconds, false;
    }

    /** One firing of the interval callback. */
    method Tick()
      modifies this
      ensures State() == AfterTick(old(State()))
      ensures old(Valid()) ==> Valid()
    {
      if isActive && timeLeft > 0 {
        timeLeft := timeLeft - 1;
      }
    }

    /** The play/pause button's click handler. */
    method PlayPause()
      modifies this
      ensures State() == AfterPlayPause(old(State()))
      ensures Valid() <==> old(Valid())
    {
      isActive := !isActive;
    }

    /** The reset button's click handler. */
    method Reset()
      modifies this
      ensures State() == AfterReset(old(State())) && Valid()
    {
      isActive := false;
      timeLeft := InitialSeconds;
    }
  }
}
