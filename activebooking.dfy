/**
 * The active-booking page: the hours/minutes/seconds countdown stepped
 * once a second, its two-digit display, the progress bar over the fixed
 * two-hour session, and ending the session.
 */
module ActiveBooking {
  import opened Text
  import opened Maybe
  import AppContext

  /** The remaining time as the page keeps it. */
  datatype TimeLeft = TimeLeft(hours: nat, minutes: nat, seconds: nat)

  /** The countdown's start: 1 hour, 45 minutes, 30 seconds. */
  const InitialTime: TimeLeft := TimeLeft(1, 45, 30)

  /** The length of the session the progress bar is measured against, in seconds. */
  const SessionSeconds: nat := 7200

  /** One tick of the `setTimeRemaining` updater: borrow from minutes, then hours; stop at zero. */
  function Tick(t: TimeLeft): TimeLeft {
    if t.seconds > 0 then t.(seconds := t.seconds - 1)
    else if t.minutes > 0 then t.(minutes := t.minutes - 1, seconds := 59)
    else if t.hours > 0 then TimeLeft(t.hours - 1, 59, 59)
    else t
  }

  function TotalSeconds(t: TimeLeft): nat {
    t.hours * 3600 + t.minutes * 60 + t.seconds
  }

  /** Minutes and seconds are clock digits. */
  predicate InRange(t: TimeLeft) {
    t.minutes < 60 && t.seconds < 60
  }

  /** The clock reading of a number of seconds (the reference the tick is checked against). */
  function FromSeconds(n: nat): TimeLeft {
    TimeLeft(n / 3600, (n % 3600) / 60, n % 60)
  }

  /** The three branches of the tick, and zero as a fixed point. */
  lemma TickCases(t: TimeLeft)
    ensures t.seconds > 0 ==> Tick(t) == TimeLeft(t.hours, t.minutes, t.seconds - 1)
    ensures t.seconds == 0 && t.minutes > 0 ==> Tick(t) == TimeLeft(t.hours, t.minutes - 1, 59)
    ensures t.seconds == 0 && t.minutes == 0 && t.hours > 0 ==> Tick(t) == TimeLeft(t.hours - 1, 59, 59)
    ensures Tick(t) == t <==> TotalSeconds(t) == 0
  {
  }

  /**
   * From a clock reading that is not zero, a tick takes exactly one second
   * off and keeps the reading a clock reading.
   */
  lemma TickCountsDown(t: TimeLeft)
    requires InRange(t)
    ensures InRange(Tick(t))
    ensures TotalSeconds(t) > 0 ==> TotalSeconds(Tick(t)) == TotalSeconds(t) - 1
  {
  }

  /** A clock reading is the reading of its number of seconds. */
  lemma FromTotalSeconds(t: TimeLeft)
    requires InRange(t)
    ensures FromSeconds(TotalSeconds(t)) == t
  {
    var n, r := TotalSeconds(t), t.minutes * 60 + t.seconds;
    DivideBy(n, 3600, t.hours, r);
    DivideBy(r, 60, t.minutes, t.seconds);
    DivideBy(n, 60, t.hours * 60 + t.minutes, t.seconds);
  }

  /** Quotient and remainder are the only ones: `n == q * d + r` with `0 <= r < d`. */
  lemma DivideBy(n: nat, d: nat, q: nat, r: nat)
    requires 0 < d && r < d && n == q * d + r
    ensures n / d == q && n % d == r
  {
    var q', r' := n / d, n % d;
    assert q' * d + r' == n;
    NonZeroMultiple(q' - q, d);
    assert (q' - q) * d == r - r';
  }

  /** A non-zero multiple of `d` is at least `d` away from zero. */
  lemma NonZeroMultiple(k: int, d: nat)
    ensures k != 0 ==> k * d >= d || k * d + d <= 0
  {
    if k >= 1 {
      MultipleAtLeast(k, d);
    } else if k <= -1 {
      MultipleAtLeast(-k, d);
      assert (-k) * d == -(k * d);
    }
  }

  /** A positive multiple of `d` is at least `d`. */
  lemma {:induction false} MultipleAtLeast(k: nat, d: nat)
    requires k >= 1
    ensures k * d >= d
  {
    if k > 1 {
      MultipleAtLeast(k - 1, d);
      assert k * d == (k - 1) * d + d;
    }
  }

  /** The tick is "one second less": it agrees with reading the clock of the decremented total. */
  lemma TickIsOneSecondLess(t: TimeLeft)
    requires InRange(t) && TotalSeconds(t) > 0
    ensures Tick(t) == FromSeconds(TotalSeconds(t) - 1)
  {
    TickCountsDown(t);
    FromTotalSeconds(Tick(t));
  }

  /** `k` ticks. */
  function Ticks(t: TimeLeft, k: nat): TimeLeft
    decreases k
  {
    if k == 0 then t else Ticks(Tick(t), k - 1)
  }

  /** After exactly as many ticks as there are seconds left, the clock reads 00:00:00 and stays there. */
  lemma {:induction false} CountdownEnds(t: TimeLeft, extra: nat)
    requires InRange(t)
    ensures Ticks(t, TotalSeconds(t) + extra) == TimeLeft(0, 0, 0)
    decreases TotalSeconds(t) + extra
  {
    if TotalSeconds(t) > 0 {
      TickCountsDown(t);
      CountdownEnds(Tick(t), extra);
    } else {
      assert t.hours == 0 && t.minutes == 0 && t.seconds == 0;
      if extra > 0 {
        CountdownEnds(t, extra - 1);
      }
    }
  }

  /** `formatTime(n)`: the decimal digits of `n`, padded with '0' to two characters. */
  function FormatTime(n: nat): string {
    PadStart(Decimal(n), 2, '0')
  }

  /** A leading zero does not change the value of a digit string. */
  lemma {:induction false} LeadingZero(s: string)
    ensures FromRadix(['0'] + s, 10) == FromRadix(s, 10)
  {
    if s != [] {
      LeadingZero(s[..|s| - 1]);
      assert (['0'] + s)[..|['0'] + s| - 1] == ['0'] + s[..|s| - 1];
    }
  }

  /**
   * The display is at least two characters of decimal digits, exactly two
   * below 100, a '0' in front of single digits, and reads back as the number.
   */
  lemma FormatTimeSpec(n: nat)
    ensures |FormatTime(n)| >= 2
    ensures n < 100 ==> |FormatTime(n)| == 2
    ensures n < 10 ==> FormatTime(n) == ['0', DigitChar(n)]
    ensures forall i :: 0 <= i < |FormatTime(n)| ==> '0' <= FormatTime(n)[i] <= '9'
    ensures FromRadix(FormatTime(n), 10) == n
  {
    ToRadixDigits(n, 10);
    FromToRadix(n, 10);
    if n < 10 {
      assert Decimal(n) == [DigitChar(n)];
      assert FormatTime(n) == ['0'] + [DigitChar(n)];
      LeadingZero([DigitChar(n)]);
    } else if n < 100 {
      assert Decimal(n) == ToRadix(n / 10, 10) + [DigitChar(n % 10)];
      assert ToRadix(n / 10, 10) == [DigitChar(n / 10)];
    } else {
      assert Decimal(n) == ToRadix(n / 10, 10) + [DigitChar(n % 10)];
      ToRadixDigits(n / 10, 10);
    }
  }

  /** The progress bar width in percent: the remaining share of the two-hour session. */
  function Progress(t: TimeLeft): real {
    TotalSeconds(t) as real / SessionSeconds as real * 100.0
  }

  /**
   * Progress is never negative, reaches 0 exactly at 00:00:00, is at most
   * 100 exactly while at most two hours remain, and each tick from a
   * non-zero clock lowers it by 1/72.
   */
  lemma ProgressSpec(t: TimeLeft)
    requires InRange(t)
    ensures Progress(t) >= 0.0
    ensures Progress(t) == 0.0 <==> TotalSeconds(t) == 0
    ensures Progress(t) <= 100.0 <==> TotalSeconds(t) <= SessionSeconds
    ensures TotalSeconds(t) > 0 ==> Progress(Tick(t)) == Progress(t) - 1.0 / 72.0
  {
    TickCountsDown(t);
  }

  /** The countdown starts at 6330 seconds, inside the two-hour session. */
  lemma InitialTimeSpec()
    ensures InRange(InitialTime) && TotalSeconds(InitialTime) == 6330
    ensures Progress(InitialTime) <= 100.0
    ensures FormatTime(InitialTime.hours) == "01"
  {
    ProgressSpec(InitialTime);
    FormatTimeSpec(1);
  }

  /** The `timeRemaining` state cell, stepped by the page's one-second interval. */
  class Countdown {
    var remaining: TimeLeft

    constructor ()
      ensures remaining == InitialTime
    {
      remaining := InitialTime;
    }

    /** One interval callback: the state becomes the tick of itself. */
    method Step()
      modifies this
      ensures remaining == Tick(old(remaining))
      ensures InRange(old(remaining)) && TotalSeconds(old(remaining)) > 0 ==>
        TotalSeconds(remaining) == TotalSeconds(old(remaining)) - 1 && InRange(remaining)
    {
      if InRange(remaining) {
        TickCountsDown(remaining);
      }
      remaining := Tick(remaining);
    }
  }

  /** `handleEndSession`: the context no longer has an active booking (navigation is left out). */
  method EndSession(app: AppContext.AppState)
    modifies app`activeBooking
    ensures app.activeBooking.None?
  {
    app.SetActiveBooking(None);
  }
}
