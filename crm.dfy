/** The vocabulary shared by the automation jobs and the front-end rules: the
    enums of the hosted database, the rows the jobs read, day arithmetic on
    millisecond instants, integer forms of `Math.round`, the permissive parsing
    of a `days_threshold` request field, and decimal formatting of numbers. */
module Crm {

  datatype Option<T> = None | Some(value: T) {
    /** `x || d` and `x ?? d` for a value that is never falsy when present. */
    function GetOr(default: T): T
    {
      if Some? then value else default
    }
  }

  /** The `decision_certainty` enum. */
  datatype Certainty = Firm | Leaning | Waffling | AtRisk

  /** The `deal_stage` enum; signed and lost are the terminal stages. */
  datatype Stage = Prospect | Pitched | Negotiating | VerbalYes | ContractSent | Signed | Lost

  /** The `email_status` enum. */
  datatype EmailStatus = Draft | Sent | Opened | Replied

  /** The text the database stores for a certainty. */
  function CertaintyName(c: Certainty): (s: string)
    ensures |s| >= 4
  {
    match c
    case Firm => "firm"
    case Leaning => "leaning"
    case Waffling => "waffling"
    case AtRisk => "at_risk"
  }

  /** A row of `accounts`. `lastContactDay` is the UTC day number of the
      `last_contact_date` date column. */
  datatype Account = Account(
    id: string,
    companyName: string,
    contactName: Option<string>,
    contactEmail: Option<string>,
    contactPhone: Option<string>,
    businessType: Option<string>,
    city: Option<string>,
    decisionCertainty: Option<Certainty>,
    wafflingScore: Option<int>,
    lastContactDay: Option<int>)

  /** A row of `deals`. `lastActivity` is an instant in milliseconds. */
  datatype Deal = Deal(
    id: string,
    accountId: string,
    titleId: string,
    value: int,
    stage: Stage,
    probability: Option<int>,
    isAtRisk: bool,
    lastActivity: Option<int>)

  /** A row of `emails_sent`; `createdAt` is an instant in milliseconds. */
  datatype EmailSent = EmailSent(id: string, accountId: string, status: EmailStatus, createdAt: int)

  /** A row of `titles` (a publication). `deadlineDay` is the UTC day number of
      the `deadline` date column. */
  datatype Title = Title(
    id: string,
    name: string,
    region: string,
    revenueGoal: int,
    revenueBooked: int,
    pagesGoal: int,
    pagesSold: int,
    deadlineDay: Option<int>)

  /** Not signed and not lost: the `.not("stage", "in", "(signed,lost)")` filter. */
  predicate IsActive(stage: Stage)
  {
    stage != Signed && stage != Lost
  }

  /** Every row of a table has its own id (the primary key). */
  ghost predicate UniqueIds<T>(rows: seq<T>, id: T -> string)
  {
    forall i, j :: 0 <= i < |rows| && 0 <= j < |rows| && id(rows[i]) == id(rows[j]) ==> i == j
  }

  // ---------------------------------------------------------------------
  // Days and instants

  /** `1000 * 60 * 60 * 24`. */
  const DayMs: int := 86400000

  function Min(a: int, b: int): (m: int)
    ensures m <= a && m <= b && (m == a || m == b)
  {
    if a <= b then a else b
  }

  function Abs(x: int): (a: int)
    ensures a >= 0 && (a == x || a == -x)
  {
    if x < 0 then -x else x
  }

  /** `Math.floor((now - instant) / DAY)`: whole days elapsed, rounded down. */
  function DaysSince(now: int, instant: int): (d: int)
    ensures d * DayMs <= now - instant < (d + 1) * DayMs
  {
    (now - instant) / DayMs
  }

  /** The instant `new Date("YYYY-MM-DD")` denotes: UTC midnight of that day. */
  function Midnight(day: int): int
  {
    day * DayMs
  }

  /** The UTC calendar day of an instant (`toISOString().split("T")[0]`). */
  function UtcDay(instant: int): (day: int)
    ensures Midnight(day) <= instant < Midnight(day + 1)
  {
    instant / DayMs
  }

  /** `Math.ceil(ms / DAY)`. */
  function CeilDays(ms: int): (d: int)
    ensures (d - 1) * DayMs < ms <= d * DayMs
  {
    -((-ms) / DayMs)
  }

  /** Days elapsed since a date column's midnight are calendar days. */
  lemma DaysSinceMidnight(now: int, day: int)
    ensures DaysSince(now, Midnight(day)) == UtcDay(now) - day
  {
    var q := UtcDay(now);
    assert (q - day) * DayMs <= now - Midnight(day) < (q - day + 1) * DayMs;
  }

  /** Rounding the days up to a date column's midnight gives the calendar difference. */
  lemma CeilDaysToMidnight(now: int, day: int)
    ensures CeilDays(Midnight(day) - now) == day - UtcDay(now)
  {
    var q := UtcDay(now);
    var d := CeilDays(Midnight(day) - now);
    assert (d - 1) * DayMs < Midnight(day) - now <= d * DayMs;
    assert q * DayMs <= now < (q + 1) * DayMs;
  }

  /** The UTC day of an instant shifted by whole days. */
  lemma UtcDayShift(now: int, days: int)
    ensures UtcDay(now + days * DayMs) == UtcDay(now) + days
  {
    var q := UtcDay(now);
    assert (q + days) * DayMs <= now + days * DayMs < (q + days + 1) * DayMs;
  }

  /** Whole days since a contact date's midnight (`Math.floor((now - new
      Date(last_contact_date)) / DAY)`), or null without a date. */
  function DaysSinceContact(lastContactDay: Option<int>, now: int): (d: Option<int>)
    ensures d.None? <==> lastContactDay.None?
    ensures lastContactDay.Some? ==> d == Some(UtcDay(now) - lastContactDay.value)
  {
    match lastContactDay
    case None => None
    case Some(day) =>
      DaysSinceMidnight(now, day);
      Some(DaysSince(now, Midnight(day)))
  }

  /** `Math.round(p / q)` for `q > 0`: the nearest integer, halves rounded up. */
  function RoundRatio(p: int, q: int): (r: int)
    requires q > 0
    ensures 2 * q * r - q <= 2 * p < 2 * q * r + q
  {
    (2 * p + q) / (2 * q)
  }

  // ---------------------------------------------------------------------
  // Request bodies

  /** What `await req.json()` yields: a body that does not parse, or a JSON
      object whose `days_threshold` field is absent or a number. */
  datatype RequestBody = Unreadable | Json(daysThreshold: Option<int>)

  /** `if (body.days_threshold) daysThreshold = parseInt(body.days_threshold)`:
      a present, non-zero (truthy) number replaces the default. */
  function DaysThreshold(body: RequestBody, default: int): (t: int)
    ensures t == default || (body == Json(Some(t)) && t != 0)
    ensures body.Json? && body.daysThreshold.Some? && body.daysThreshold.value != 0 ==>
              t == body.daysThreshold.value
    ensures body.Unreadable? || body == Json(None) || body == Json(Some(0)) ==> t == default
  {
    match body
    case Json(Some(v)) => if v != 0 then v else default
    case _ => default
  }

  /** The outcome of one edge function: its JSON response, or the message of
      the error its `catch` block reports. */
  datatype JobResult<T> = Done(response: T) | Failed(message: string)

  // ---------------------------------------------------------------------
  // Decimal formatting (`${n}` and `n.toString()` on integers)

  function DigitChar(d: int): (c: char)
    requires 0 <= d < 10
    ensures '0' <= c <= '9' && c as int - '0' as int == d
  {
    ('0' as int + d) as char
  }

  function NatToString(n: nat): (s: string)
    ensures |s| >= 1
    ensures forall i :: 0 <= i < |s| ==> '0' <= s[i] <= '9'
  {
    if n < 10 then [DigitChar(n)] else NatToString(n / 10) + [DigitChar(n % 10)]
  }

  function IntToString(n: int): (s: string)
    ensures |s| >= 1
    ensures n >= 0 ==> s == NatToString(n)
    ensures n < 0 ==> s == "-" + NatToString(-n)
  {
    if n < 0 then "-" + NatToString(-n) else NatToString(n)
  }

  /** Reading a string of decimal digits back as a number. */
  function DecimalValue(s: string): int
    requires forall i :: 0 <= i < |s| ==> '0' <= s[i] <= '9'
  {
    if s == [] then 0 else 10 * DecimalValue(s[..|s| - 1]) + (s[|s| - 1] as int - '0' as int)
  }

  /** Formatting a natural number and reading it back gives the number. */
  lemma {:induction false} DecimalRoundTrip(n: nat)
    ensures DecimalValue(NatToString(n)) == n
  {
    if n >= 10 {
      DecimalRoundTrip(n / 10);
      var s := NatToString(n);
      assert s[..|s| - 1] == NatToString(n / 10);
    }
  }
}
