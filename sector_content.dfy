/**
 * The two computations of `SectorContent`: the launch countdown, which splits
 * a millisecond difference into days, hours, minutes and seconds with
 * JavaScript's `Math.floor` and `%`, and the heading shown for each route.
 */
module SectorContent {
  import opened Wrappers

  // `1000`, `1000 * 60`, `1000 * 60 * 60` and `1000 * 60 * 60 * 24` milliseconds
  const Second: int := 1000
  const Minute: int := 60000
  const Hour: int := 3600000
  const Day: int := 86400000

  /** `Math.floor(a / b)` for a positive divisor: the largest `q` with `q·b <= a`. */
  function FloorDiv(a: int, b: int): (q: int)
    requires b > 0
    ensures q * b <= a < (q + 1) * b
  {
    a / b
  }

  /**
   * JavaScript's `a % b` for a positive divisor: the remainder takes the sign
   * of the dividend (it truncates toward zero), unlike Dafny's `%`.
   */
  function JsRem(a: int, b: int): (r: int)
    requires b > 0
    ensures a >= 0 ==> 0 <= r < b
    ensures a < 0 ==> -b < r <= 0
  {
    if a >= 0 then a % b else -((-a) % b)
  }

  /** `a / b` truncated toward zero, the quotient JavaScript's `%` is defined by. */
  function TruncDiv(a: int, b: int): int
    requires b > 0
  {
    if a >= 0 then a / b else -((-a) / b)
  }

  /**
   * `JsRem` is the remainder of the truncated division: `a - r` is a whole
   * multiple of `b`. With the sign and bound facts of `JsRem`'s contract, this
   * pins the result down.
   */
  lemma JsRemDivision(a: int, b: int)
    requires b > 0
    ensures a == TruncDiv(a, b) * b + JsRem(a, b)
  {
    if a < 0 {
      var q, r := (-a) / b, (-a) % b;
      assert -a == q * b + r;
      assert a == (-q) * b + (-r);
    }
  }

  datatype Countdown = Countdown(days: int, hours: int, minutes: int, seconds: int)

  /** `updateCountdown`'s four fields for the difference `diff` between the launch and now, in milliseconds. */
  function Decompose(diff: int): Countdown {
    Countdown(
      FloorDiv(diff, Day),
      FloorDiv(JsRem(diff, Day), Hour),
      FloorDiv(JsRem(diff, Hour), Minute),
      FloorDiv(JsRem(diff, Minute), Second))
  }

  /** The milliseconds a countdown accounts for. */
  function Total(c: Countdown): int {
    c.days * Day + c.hours * Hour + c.minutes * Minute + c.seconds * Second
  }

  /** Before the launch every field is in its clock range. */
  lemma CountdownBounds(diff: int)
    requires diff >= 0
    ensures var c := Decompose(diff);
      && 0 <= c.days
      && 0 <= c.hours < 24
      && 0 <= c.minutes < 60
      && 0 <= c.seconds < 60
  {
    var rd := JsRem(diff, Day);
    var rh := JsRem(diff, Hour);
    var rm := JsRem(diff, Minute);
    assert FloorDiv(rd, Hour) < 24 by {
      assert FloorDiv(rd, Hour) * Hour <= rd < Day;
    }
    assert FloorDiv(rh, Minute) < 60 by {
      assert FloorDiv(rh, Minute) * Minute <= rh < Hour;
    }
    assert FloorDiv(rm, Second) < 60 by {
      assert FloorDiv(rm, Second) * Second <= rm < Minute;
    }
  }

  /** Peeling off whole days, then hours, then minutes leaves the remainders `%` gives directly. */
  lemma NestedRemainders(a: int)
    requires a >= 0
    ensures a % Day % Hour == a % Hour
    ensures a % Hour % Minute == a % Minute
    ensures a % Minute % Second == a % Second
  {
    DayHours(a);
    HourMinutes(a);
    MinuteSeconds(a);
  }

  lemma DayHours(a: int)
    requires a >= 0
    ensures a % 86400000 % 3600000 == a % 3600000
  {
  }

  lemma HourMinutes(a: int)
    requires a >= 0
    ensures a % 3600000 % 60000 == a % 60000
  {
  }

  lemma MinuteSeconds(a: int)
    requires a >= 0
    ensures a % 60000 % 1000 == a % 1000
  {
  }

  /**
   * Before the launch the countdown drops less than a second: the four fields
   * account for the whole difference but for its last milliseconds.
   */
  lemma CountdownTotal(diff: int)
    requires diff >= 0
    ensures Total(Decompose(diff)) <= diff < Total(Decompose(diff)) + Second
  {
    NestedRemainders(diff);
    assert Decompose(diff) == Countdown(diff / Day, diff % Day / Hour, diff % Hour / Minute, diff % Minute / Second);
    assert diff == diff / Day * Day + diff % Day / Hour * Hour + diff % Hour / Minute * Minute
      + diff % Minute / Second * Second + diff % Second;
  }

  /** After the launch no field is positive: the truncating `%` keeps the sign of the negative difference. */
  lemma CountdownAfterLaunch(diff: int)
    requires diff < 0
    ensures var c := Decompose(diff);
      c.days < 0 && c.hours <= 0 && c.minutes <= 0 && c.seconds <= 0
  {
  }

  /** One millisecond after the launch every field reads -1. */
  lemma OneMillisecondLate()
    ensures Decompose(-1) == Countdown(-1, -1, -1, -1)
  {
    assert JsRem(-1, Day) == -1 && JsRem(-1, Hour) == -1 && JsRem(-1, Minute) == -1;
  }

  // ---- the display string ----

  function DigitChar(d: nat): (c: char)
    requires d < 10
    ensures '0' <= c <= '9'
  {
    ('0' as int + d) as char
  }

  /** The decimal digits of `n`, no leading zeros. */
  function Decimal(n: nat): (s: string)
    ensures |s| >= 1 && forall i :: 0 <= i < |s| ==> '0' <= s[i] <= '9'
  {
    if n < 10 then [DigitChar(n)] else Decimal(n / 10) + [DigitChar(n % 10)]
  }

  /** `String(n)` for an integer: a minus sign, then the digits. */
  function Show(n: int): string {
    if n < 0 then "-" + Decimal(-n) else Decimal(n)
  }

  /** The value of a string of decimal digits. */
  function DecimalValue(s: string): nat
    requires forall i :: 0 <= i < |s| ==> '0' <= s[i] <= '9'
  {
    if s == [] then 0 else DecimalValue(s[..|s| - 1]) * 10 + (s[|s| - 1] as int - '0' as int)
  }

  /** The digits of `n` spell `n`, so different numbers are shown differently. */
  lemma {:induction false} DecimalRoundTrip(n: nat)
    ensures DecimalValue(Decimal(n)) == n
  {
    if n >= 10 {
      DecimalRoundTrip(n / 10);
      var d := Decimal(n / 10);
      var s := Decimal(n);
      assert s == d + [DigitChar(n % 10)];
      assert s[..|s| - 1] == d;
    }
  }

  /** The text of a number starts with a minus sign exactly when the number is negative. */
  lemma ShowSign(n: int)
    ensures |Show(n)| >= 1
    ensures Show(n)[0] == '-' <==> n < 0
  {
  }

  /** `Show` is one-to-one. */
  lemma ShowInjective(a: int, b: int)
    requires Show(a) == Show(b)
    ensures a == b
  {
    ShowSign(a);
    ShowSign(b);
    if a < 0 && b < 0 {
      var da, db := Decimal(-a), Decimal(-b);
      assert Show(a)[1..] == da;
      assert Show(b)[1..] == db;
      DecimalInjective(-a, -b);
    } else if a >= 0 && b >= 0 {
      DecimalInjective(a, b);
    }
  }

  lemma DecimalInjective(a: nat, b: nat)
    requires Decimal(a) == Decimal(b)
    ensures a == b
  {
    DecimalRoundTrip(a);
    DecimalRoundTrip(b);
  }

  /** `${days}d ${hours}h ${minutes}m ${seconds}s` */
  function Display(c: Countdown): string {
    Show(c.days) + "d " + Show(c.hours) + "h " + Show(c.minutes) + "m " + Show(c.seconds) + "s"
  }

  // ---- the route headings ----

  /** The heading `renderContent` shows for a route; any other route renders nothing. */
  function Title(path: string): Option<string> {
    if path == "/" then Some("WELCOME TO HACKATHON.DEV")
    else if path == "/about" then Some("MISSION BRIEFING")
    else if path == "/prizes" then Some("REWARD VAULT")
    else if path == "/sponsors" then Some("ALLIANCE STATION")
    else if path == "/judges" then Some("COMMAND CREW")
    else if path == "/faq" then Some("MISSION PROTOCOLS")
    else if path == "/register" then Some("INITIATE DOCKING SEQUENCE")
    else None
  }

  const Routes: seq<string> := ["/", "/about", "/prizes", "/sponsors", "/judges", "/faq", "/register"]

  /** Exactly the seven routes have content. */
  lemma TitleDefined(path: string)
    ensures Title(path).Some? <==> path in Routes
  {
    if path !in Routes {
      assert path != Routes[0] && path != Routes[1] && path != Routes[2] && path != Routes[3];
      assert path != Routes[4] && path != Routes[5] && path != Routes[6];
    }
  }

  /** Each of the seven routes has a heading of its own. */
  lemma TitlesDistinct(i: nat, j: nat)
    requires i < j < |Routes|
    ensures Title(Routes[i]).Some? && Title(Routes[j]).Some?
    ensures Title(Routes[i]).value != Title(Routes[j]).value
  {
  }
}
