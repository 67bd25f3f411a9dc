/**
 * The countdown shown under the passcode boxes (`TimerView`): a count of
 * remaining seconds that a one-second repeating timer decrements, a
 * completion callback when it has reached zero, a restart driven by a bound
 * flag, and the `m:ss` label.
 */
module Countdown {
  import Bindings

  // ---------------------------------------------------------------------
  // Decimal numerals

  predicate IsDigit(c: char)
  {
    '0' <= c <= '9'
  }

  predicate AllDigits(s: string)
  {
    forall i :: 0 <= i < |s| ==> IsDigit(s[i])
  }

  function DigitChar(d: nat): (c: char)
    requires d < 10
    ensures IsDigit(c)
  {
    ('0' as int + d) as char
  }

  function DigitValue(c: char): (d: nat)
    requires IsDigit(c)
    ensures d < 10 && DigitChar(d) == c
  {
    c as int - '0' as int
  }

  /** The decimal numeral of `n`, as `%d` prints a non-negative number. */
  function Decimal(n: nat): (r: string)
    ensures |r| >= 1 && AllDigits(r)
    ensures r[0] != '0' || r == "0"
    ensures |r| == 1 <==> n < 10
    decreases n
  {
    if n < 10 then [DigitChar(n)] else Decimal(n / 10) + [DigitChar(n % 10)]
  }

  /** The number a string of digits denotes. */
  function ValueOf(s: string): nat
    requires AllDigits(s)
    decreases |s|
  {
    if s == [] then 0 else ValueOf(s[..|s| - 1]) * 10 + DigitValue(s[|s| - 1])
  }

  /** Reading a numeral back gives the number. */
  lemma {:induction false} ValueOfDecimal(n: nat)
    ensures ValueOf(Decimal(n)) == n
    decreases n
  {
    var r := Decimal(n);
    if n >= 10 {
      ValueOfDecimal(n / 10);
      assert r[..|r| - 1] == Decimal(n / 10);
    }
  }

  lemma {:induction false} LeadingDigitMakesPositive(s: string)
    requires AllDigits(s) && |s| >= 1 && s[0] != '0'
    ensures ValueOf(s) >= 1
    decreases |s|
  {
    if |s| > 1 {
      LeadingDigitMakesPositive(s[..|s| - 1]);
    }
  }

  /** Every numeral without a leading zero is the numeral of its value. */
  lemma {:induction false} DecimalOfValue(s: string)
    requires AllDigits(s) && |s| >= 1 && (s[0] != '0' || |s| == 1)
    ensures Decimal(ValueOf(s)) == s
    decreases |s|
  {
    if |s| > 1 {
      var p := s[..|s| - 1];
      LeadingDigitMakesPositive(p);
      DecimalOfValue(p);
      var n := ValueOf(s);
      assert n / 10 == ValueOf(p) && n % 10 == DigitValue(s[|s| - 1]);
      assert s == p + [s[|s| - 1]];
    }
  }

  // ---------------------------------------------------------------------
  // The label

  /** Swift's `/` on `Int`, which truncates toward zero. */
  function TruncDiv(a: int, b: int): int
    requires b > 0
  {
    if a >= 0 then a / b else -((-a) / b)
  }

  /** Swift's `%` on `Int`: the remainder takes the sign of the dividend. */
  function TruncRem(a: int, b: int): int
    requires b > 0
  {
    a - b * TruncDiv(a, b)
  }

  /** `%d` */
  function FormatInt(n: int): string
  {
    if n < 0 then "-" + Decimal(-n) else Decimal(n)
  }

  /** `%02d`: zero-padded to a width of two. */
  function FormatInt2(n: int): (r: string)
    ensures 0 <= n < 100 ==> |r| == 2
  {
    if 0 <= n < 10 then "0" + Decimal(n) else FormatInt(n)
  }

  /** `timeString`: `String(format: "%d:%02d", seconds / 60, seconds % 60)`. */
  function TimeString(seconds: int): (r: string)
    ensures seconds >= 0 ==> |r| >= 4 && r[|r| - 3] == ':'
    ensures seconds < 0 ==> '-' in r
  {
    var minutes := TruncDiv(seconds, 60);
    var secs := TruncRem(seconds, 60);
    FormatInt(minutes) + ":" + FormatInt2(secs)
  }

  /** The two fields of `m:ss` read back as `m` and `s`. */
  lemma ClockFieldsReadBack(m: nat, s: nat)
    requires s < 60
    ensures var r := Decimal(m) + ":" + FormatInt2(s);
      var k := |r| - 3;
      && r[..k] == Decimal(m) && AllDigits(r[k + 1..])
      && ValueOf(r[..k]) == m && ValueOf(r[k + 1..]) == s
  {
    var mm, ss := Decimal(m), FormatInt2(s);
    var r := mm + ":" + ss;
    var k := |r| - 3;
    assert r[..k] == mm;
    assert r[k + 1..] == ss;
    ValueOfDecimal(m);
    ValueOfDecimal(s);
    if s < 10 {
      assert ss == "0" + Decimal(s);
      assert ss[..1] == "0";
      assert ValueOf(ss) == ValueOf(ss[..1]) * 10 + DigitValue(ss[1]);
    }
  }

  /**
   * For a non-negative count the label is a minutes numeral, a colon and a
   * two-digit seconds field below 60, and the two read back as the count.
   */
  lemma TimeStringReadsBack(seconds: int)
    requires seconds >= 0
    ensures var r := TimeString(seconds);
      var k := |r| - 3;
      && AllDigits(r[..k]) && AllDigits(r[k + 1..])
      && Decimal(ValueOf(r[..k])) == r[..k]
      && ValueOf(r[k + 1..]) < 60
      && ValueOf(r[..k]) * 60 + ValueOf(r[k + 1..]) == seconds
  {
    var m, s := seconds / 60, seconds % 60;
    assert TimeString(seconds) == Decimal(m) + ":" + FormatInt2(s);
    ClockFieldsReadBack(m, s);
  }

  lemma TimeStringExamples()
    ensures TimeString(300) == "5:00"
    ensures TimeString(61) == "1:01"
    ensures TimeString(59) == "0:59"
    ensures TimeString(-5) == "0:-5"
  {
    assert Decimal(59) == "59";
  }

  // ---------------------------------------------------------------------
  // The view

  class TimerView {
    const totalSeconds: int
    const countdownStart: bool
    /** `@Binding var restartTimer: Bool`: the parent's storage. */
    const restartTimer: Bindings.Binding<bool>
    /** `@State remainingSeconds` */
    var remainingSeconds: int
    /** `timer` holds a scheduled, not yet invalidated, repeating timer. */
    var timerRunning: bool
    /** The value of `restartTimer` that `onChange(of: restartTimer)` last saw. */
    var seenRestartTimer: bool

    /** The count never leaves `totalSeconds` .. 0 (it stays at `totalSeconds` when that is negative). */
    ghost predicate Valid()
      reads this
    {
      remainingSeconds == totalSeconds || 0 <= remainingSeconds <= totalSeconds
    }

    /** `init(totalSeconds:countdownStart:restartTimer:onTimerComplete:)` */
    constructor (totalSeconds: int, countdownStart: bool, restartTimer: Bindings.Binding<bool>)
      ensures Valid()
      ensures this.totalSeconds == totalSeconds && this.countdownStart == countdownStart
      ensures this.restartTimer == restartTimer
      ensures remainingSeconds == totalSeconds && !timerRunning
      ensures seenRestartTimer == restartTimer.value
    {
      this.totalSeconds := totalSeconds;
      this.countdownStart := countdownStart;
      this.restartTimer := restartTimer;
      remainingSeconds := totalSeconds;
      timerRunning := false;
      seenRestartTimer := restartTimer.value;
    }

    /** `onAppear`: start counting when `countdownStart`. */
    method Appear()
      requires Valid()
      modifies this
      ensures Valid() && remainingSeconds == old(remainingSeconds)
      ensures timerRunning == (countdownStart || old(timerRunning))
      ensures seenRestartTimer == old(seenRestartTimer)
    {
      if countdownStart {
        StartTimer();
      }
    }

    /** `startTimer`: replace any timer by a fresh one; the count is not touched. */
    method StartTimer()
      requires Valid()
      modifies this
      ensures Valid() && timerRunning
      ensures remainingSeconds == old(remainingSeconds) && seenRestartTimer == old(seenRestartTimer)
    {
      timerRunning := true;
    }

    /**
     * One firing of the scheduled timer. Above zero the count drops by one;
     * otherwise the timer is invalidated and `fired` reports the call of
     * `onTimerComplete`.
     */
    method Tick() returns (fired: bool)
      requires Valid() && timerRunning
      modifies this
      ensures Valid()
      ensures fired <==> old(remainingSeconds) <= 0
      ensures !fired ==> remainingSeconds == old(remainingSeconds) - 1 && timerRunning
      ensures fired ==> remainingSeconds == old(remainingSeconds) && !timerRunning
      ensures seenRestartTimer == old(seenRestartTimer)
    {
      if remainingSeconds > 0 {
        remainingSeconds := remainingSeconds - 1;
        fired := false;
      } else {
        timerRunning := false;
        fired := true;
      }
    }

    /** `restartCountdown`: full count, a fresh timer, and the flag handed back as false. */
    method RestartCountdown()
      requires Valid()
      modifies this, restartTimer
      ensures Valid()
      ensures remainingSeconds == totalSeconds && timerRunning && !restartTimer.value
      ensures seenRestartTimer == old(seenRestartTimer)
    {
      remainingSeconds := totalSeconds;
      StartTimer();
      restartTimer.value := false;
    }

    /**
     * `onChange(of: restartTimer)`: runs when the flag differs from the value
     * last seen, and restarts only when the new value is true.
     */
    method ObserveRestartTimer() returns (restarted: bool)
      requires Valid()
      modifies this, restartTimer
      ensures Valid()
      ensures restarted <==> old(restartTimer.value) != old(seenRestartTimer) && old(restartTimer.value)
      ensures seenRestartTimer == old(restartTimer.value)
      ensures restarted ==> remainingSeconds == totalSeconds && timerRunning && !restartTimer.value
      ensures !restarted ==> remainingSeconds == old(remainingSeconds) && timerRunning == old(timerRunning)
                             && restartTimer.value == old(restartTimer.value)
    {
      restarted := false;
      if restartTimer.value != seenRestartTimer {
        var newValue := restartTimer.value;
        seenRestartTimer := newValue;
        if newValue {
          RestartCountdown();
          restarted := true;
        }
      }
    }

    /** `onDisappear`: invalidate the timer. */
    method Disappear()
      requires Valid()
      modifies this
      ensures Valid() && !timerRunning
      ensures remainingSeconds == old(remainingSeconds) && seenRestartTimer == old(seenRestartTimer)
    {
      timerRunning := false;
    }
  }
}
