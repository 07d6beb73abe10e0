/*
 * What a reminder's row shows besides its fields: the time left until the due
 * date as text, the progress bar from creation to due date, and the bar's
 * colour band.
 */
module ReminderRow {
  import opened ReminderModel

  /** Seconds left until the due date, never negative. */
  function RemainingSeconds(date: int, now: int): (r: nat)
    ensures r == 0 <==> now >= date
    ensures r > 0 ==> now + r == date
  {
    if date - now > 0 then date - now else 0
  }

  datatype Breakdown = Breakdown(days: nat, hours: nat, minutes: nat)

  function Seconds(b: Breakdown): nat
  {
    b.days * 86400 + b.hours * 3600 + b.minutes * 60
  }

  /** Splits a number of seconds into whole days, the hours left over and the
      minutes left over after those; the remaining seconds are dropped. */
  function Decompose(r: nat): (b: Breakdown)
    ensures b.hours < 24 && b.minutes < 60
  {
    Breakdown(r / 86400, (r % 86400) / 3600, (r % 3600) / 60)
  }

  /** The breakdown accounts for all but the last partial minute. */
  lemma DecomposeReconstructs(r: nat)
    ensures Seconds(Decompose(r)) <= r < Seconds(Decompose(r)) + 60
  {
    var d, h, m := r / 86400, (r % 86400) / 3600, (r % 3600) / 60;
    var x := r % 86400;
    assert r == d * 86400 + x;
    assert x == h * 3600 + x % 3600;
    assert x % 3600 == r % 3600 by {
      assert r == d * 24 * 3600 + h * 3600 + x % 3600;
      ModuloOfMultipleAdded(d * 24 + h, x % 3600, 3600);
    }
    assert r % 3600 == m * 60 + (r % 3600) % 60;
    assert r == d * 86400 + h * 3600 + m * 60 + (r % 3600) % 60;
  }

  lemma ModuloOfMultipleAdded(k: nat, x: nat, n: nat)
    requires n > 0 && x < n
    ensures (k * n + x) % n == x && (k * n + x) / n == k
  {
    DivModUnique(k * n + x, n, k, x);
  }

  /** Quotient and remainder are the only pair that rebuilds `a`. */
  lemma DivModUnique(a: int, n: int, q: int, r: int)
    requires n > 0 && 0 <= r < n && a == q * n + r
    ensures a / n == q && a % n == r
  {
    var q0, r0 := a / n, a % n;
    assert (q - q0) * n == r0 - r;
    if q > q0 {
      MulAtLeast(q - q0, n);
    } else if q < q0 {
      MulAtLeast(q0 - q, n);
    }
  }

  lemma MulAtLeast(m: int, n: int)
    requires m >= 1 && n > 0
    ensures m * n >= n
  {
  }

  /** Any breakdown within bounds that accounts for `r` up to its last
      partial minute is the one `Decompose` gives. */
  lemma DecomposeUnique(r: nat, b: Breakdown)
    requires b.hours < 24 && b.minutes < 60
    requires Seconds(b) <= r < Seconds(b) + 60
    ensures b == Decompose(r)
  {
    var s := r - Seconds(b);
    assert r == b.days * 86400 + (b.hours * 3600 + b.minutes * 60 + s);
    ModuloOfMultipleAdded(b.days, b.hours * 3600 + b.minutes * 60 + s, 86400);
    assert r % 86400 == b.hours * 3600 + (b.minutes * 60 + s);
    ModuloOfMultipleAdded(b.hours, b.minutes * 60 + s, 3600);
    assert r == (b.days * 24 + b.hours) * 3600 + (b.minutes * 60 + s);
    ModuloOfMultipleAdded(b.days * 24 + b.hours, b.minutes * 60 + s, 3600);
    ModuloOfMultipleAdded(b.minutes, s, 60);
  }

  /** The decimal digit for `d`. */
  function DigitChar(d: nat): (c: char)
    requires d < 10
    ensures '0' <= c <= '9' && c as int - '0' as int == d
  {
    ('0' as int + d) as char
  }

  predicate AllDigits(s: string)
  {
    forall i :: 0 <= i < |s| ==> '0' <= s[i] <= '9'
  }

  /** Decimal text of a whole number, without leading zeros, as string
      interpolation of an integer writes it. */
  function NatToString(n: nat): (s: string)
    ensures |s| >= 1 && AllDigits(s)
    ensures |s| > 1 ==> s[0] != '0'
  {
    if n < 10 then [DigitChar(n)] else NatToString(n / 10) + [DigitChar(n % 10)]
  }

  /** The number a string of decimal digits denotes. */
  function DigitsValue(s: string): nat
    requires AllDigits(s)
  {
    if s == [] then 0
    else DigitsValue(s[..|s| - 1]) * 10 + (s[|s| - 1] as int - '0' as int)
  }

  /** Reading the text back gives the number. */
  lemma {:induction false} NatToStringRoundTrip(n: nat)
    ensures DigitsValue(NatToString(n)) == n
  {
    if n >= 10 {
      NatToStringRoundTrip(n / 10);
      var s := NatToString(n);
      assert s[..|s| - 1] == NatToString(n / 10);
    }
  }

  /** Numbers below 10 take one digit and numbers below 100 at most two, so
      the hours and minutes of a breakdown never take more than two. */
  lemma {:induction false} NatToStringLength(n: nat)
    ensures n < 10 <==> |NatToString(n)| == 1
    ensures n < 100 ==> |NatToString(n)| <= 2
  {
    if n >= 10 {
      NatToStringLength(n / 10);
    }
  }

  /** The row's "time left" text: a number, then either a unit and a second
      number, or minutes alone; it always ends in "h left" or "m left". */
  function TimeRemaining(date: int, now: int): (s: string)
    ensures |s| >= 7 && '0' <= s[0] <= '9'
    ensures s[|s| - 6..] == "h left" || s[|s| - 6..] == "m left"
    ensures (s[|s| - 6..] == "h left") <==> RemainingSeconds(date, now) >= 86400
  {
    var b := Decompose(RemainingSeconds(date, now));
    if b.days > 0 then
      NatToString(b.days) + "d " + NatToString(b.hours) + "h left"
    else if b.hours > 0 then
      NatToString(b.hours) + "h " + NatToString(b.minutes) + "m left"
    else
      NatToString(b.minutes) + "m left"
  }

  /** The text has days and hours from a full day left, hours and minutes from
      a full hour left, and minutes only below that. */
  lemma TimeRemainingShape(date: int, now: int)
    ensures var r := date - now;
      (r >= 86400 ==>
        TimeRemaining(date, now) == NatToString(r / 86400) + "d " + NatToString((r % 86400) / 3600) + "h left") &&
      (3600 <= r < 86400 ==>
        TimeRemaining(date, now) == NatToString(r / 3600) + "h " + NatToString((r % 3600) / 60) + "m left") &&
      (0 < r < 3600 ==> TimeRemaining(date, now) == NatToString(r / 60) + "m left")
  {
  }

  /** At and after the due date the row reads "0m left". */
  lemma TimeRemainingWhenDue(date: int, now: int)
    requires now >= date
    ensures TimeRemaining(date, now) == "0m left"
  {
  }

  /** Swift's `min` and `max`: the second argument when the comparison holds,
      the first otherwise. */
  function Min(x: real, y: real): real { if y < x then y else x }
  function Max(x: real, y: real): real { if y >= x then y else x }

  /** Share of the span from creation to due date that has passed at `now`,
      clamped to [0, 1]. With a zero span the division gives an infinity or
      NaN; every comparison with NaN fails, so the clamp returns 1 for an
      elapsed time of zero or more and 0 for a negative one. */
  function Progress(creationDate: int, date: int, now: int): (p: real)
    ensures 0.0 <= p <= 1.0
  {
    var elapsedTime := (now - creationDate) as real;
    if date == creationDate then
      if elapsedTime >= 0.0 then 1.0 else 0.0
    else
      var totalTime := (date - creationDate) as real;
      Max(0.0, Min(1.0, elapsedTime / totalTime))
  }

  /** A reminder due at its creation instant shows a full bar from creation
      on and an empty one before. */
  lemma ProgressZeroSpan(creationDate: int, now: int)
    ensures Progress(creationDate, creationDate, now) == if now >= creationDate then 1.0 else 0.0
  {
  }

  /** For a due date after the creation date the bar is empty up to creation,
      full from the due date on, and the elapsed share in between. */
  lemma ProgressEnds(creationDate: int, date: int, now: int)
    requires creationDate < date
    ensures now <= creationDate ==> Progress(creationDate, date, now) == 0.0
    ensures now >= date ==> Progress(creationDate, date, now) == 1.0
    ensures creationDate <= now <= date ==>
      Progress(creationDate, date, now) == (now - creationDate) as real / (date - creationDate) as real
  {
    var t := (date - creationDate) as real;
    var e := (now - creationDate) as real;
    if now >= date {
      assert e / t >= 1.0 by { DivAtLeastOne(e, t); }
    }
    if creationDate <= now <= date {
      assert e / t <= 1.0 by { DivAtMostOne(e, t); }
    }
  }

  lemma DivAtLeastOne(e: real, t: real)
    requires 0.0 < t <= e
    ensures e / t >= 1.0
  {
  }

  lemma DivAtMostOne(e: real, t: real)
    requires 0.0 <= e <= t && t > 0.0
    ensures e / t <= 1.0
  {
  }

  /** With the due date after creation, the bar never moves back as time
      passes. */
  lemma ProgressMonotone(creationDate: int, date: int, now: int, later: int)
    requires creationDate < date && now <= later
    ensures Progress(creationDate, date, now) <= Progress(creationDate, date, later)
  {
    var t := (date - creationDate) as real;
    DivMonotone((now - creationDate) as real, (later - creationDate) as real, t);
  }

  lemma DivMonotone(a: real, b: real, t: real)
    requires a <= b && t > 0.0
    ensures a / t <= b / t
  {
    assert b / t - a / t == (b - a) / t;
  }

  /** When the due date lies before the creation date the clamp is applied to
      a negative span: once created, the bar stays empty. */
  lemma ProgressDueBeforeCreation(creationDate: int, date: int, now: int)
    requires date < creationDate <= now
    ensures Progress(creationDate, date, now) == 0.0
  {
    var t := (date - creationDate) as real;
    var e := (now - creationDate) as real;
    assert e / t <= 0.0 by { DivNonNegByNeg(e, t); }
  }

  lemma DivNonNegByNeg(e: real, t: real)
    requires e >= 0.0 && t < 0.0
    ensures e / t <= 0.0
  {
    assert e / t == -(e / -t);
  }

  /** Green for the first third, yellow for the second, red from 0.66 on;
      never the status colour blue. */
  function ProgressColor(p: real): (c: Color)
    ensures c == Green <==> p < 0.33
    ensures c == Red <==> p >= 0.66
    ensures c != Blue
  {
    if p < 0.33 then Green
    else if p < 0.66 then Yellow
    else Red
  }

  /** Position of a band in green, yellow, red order. */
  function BandRank(c: Color): nat
  {
    match c
    case Green => 0
    case Yellow => 1
    case Red => 2
    case Blue => 3
  }

  /** Higher progress never gives an earlier band, and only the three progress
      bands occur. */
  lemma ProgressColorMonotone(p: real, q: real)
    requires p <= q
    ensures BandRank(ProgressColor(p)) <= BandRank(ProgressColor(q))
    ensures ProgressColor(p) != Blue
  {
  }

  /** Over the life of a reminder due after its creation the bar's colour
      only moves from green towards red. */
  lemma ColorNeverMovesBack(creationDate: int, date: int, now: int, later: int)
    requires creationDate < date && now <= later
    ensures BandRank(ProgressColor(Progress(creationDate, date, now))) <=
            BandRank(ProgressColor(Progress(creationDate, date, later)))
  {
    ProgressMonotone(creationDate, date, now, later);
    ProgressColorMonotone(Progress(creationDate, date, now), Progress(creationDate, date, later));
  }
}
