/** The `deadline-alerts` edge function: the titles whose deadline falls between
    today's UTC date and the UTC date `days_threshold` days from now, ascending
    by deadline, each annotated with the days remaining, an urgency tier, the
    revenue and page gaps and the percentage of the revenue goal booked. It
    writes nothing. */
module DeadlineAlerts {
  import opened Crm
  import opened Seqs

  datatype Urgency = Critical | High | Medium | Low

  datatype Alert = Alert(
    titleId: string,
    titleName: string,
    region: string,
    deadlineDay: int,
    daysRemaining: int,
    urgency: Urgency,
    revenueGoal: int,
    revenueBooked: int,
    revenueGap: int,
    pagesGoal: int,
    pagesSold: int,
    pagesGap: int,
    percentToGoal: int)

  datatype DeadlineResponse = DeadlineResponse(thresholdDays: int, alertsCount: nat, alerts: seq<Alert>)

  /** The threshold when the request does not set one. */
  const DefaultThreshold: int := 7

  // ---------------------------------------------------------------------
  // The query

  /** `.not("deadline", "is", null).gte("deadline", today).lte("deadline", last)`
      with `today` the UTC date of now and `last` the UTC date of
      `now + threshold` days. */
  predicate InWindow(t: Title, now: int, threshold: int)
  {
    t.deadlineDay.Some? && UtcDay(now) <= t.deadlineDay.value <= UtcDay(now + threshold * DayMs)
  }

  function DeadlineKey(t: Title): int
  {
    t.deadlineDay.GetOr(0)
  }

  /** The fetched titles: those in the window, ordered by deadline (ties in table order). */
  function Upcoming(titles: seq<Title>, now: int, threshold: int): (r: seq<Title>)
    ensures forall t :: t in r <==>
              t in titles && t.deadlineDay.Some? && UtcDay(now) <= t.deadlineDay.value <= UtcDay(now) + threshold
    ensures SortedBy(r, DeadlineKey)
    ensures multiset(r) == multiset(Filter(titles, (t: Title) => InWindow(t, now, threshold)))
  {
    UtcDayShift(now, threshold);
    var inWindow := Filter(titles, (t: Title) => InWindow(t, now, threshold));
    SortSorted(inWindow, DeadlineKey);
    SortPermutes(inWindow, DeadlineKey);
    SortBy(inWindow, DeadlineKey)
  }

  // ---------------------------------------------------------------------
  // One alert

  /** The urgency ladder over the days remaining. */
  function UrgencyFor(daysRemaining: int): (u: Urgency)
    ensures u == Critical <==> daysRemaining <= 2
    ensures u == High <==> 3 <= daysRemaining <= 4
    ensures u == Medium <==> 5 <= daysRemaining <= 7
    ensures u == Low <==> daysRemaining > 7
  {
    if daysRemaining <= 2 then Critical
    else if daysRemaining <= 4 then High
    else if daysRemaining <= 7 then Medium
    else Low
  }

  /** How urgent a tier is: critical 3 down to low 0. */
  function Rank(u: Urgency): nat
  {
    match u
    case Critical => 3
    case High => 2
    case Medium => 1
    case Low => 0
  }

  /** `Math.round(booked / goal * 100)` when the goal is positive, else 0. */
  function PercentToGoal(goal: int, booked: int): (p: int)
    ensures goal <= 0 ==> p == 0
    ensures goal > 0 ==> 2 * goal * p - goal <= 200 * booked < 2 * goal * p + goal
    ensures goal > 0 && booked == goal ==> p == 100
    ensures goal > 0 && 0 <= booked <= goal ==> 0 <= p <= 100
  {
    if goal > 0 then
      PercentBounds(goal, booked);
      RoundRatio(100 * booked, goal)
    else 0
  }

  lemma PercentBounds(goal: int, booked: int)
    requires goal > 0
    ensures booked == goal ==> RoundRatio(100 * booked, goal) == 100
    ensures 0 <= booked <= goal ==> 0 <= RoundRatio(100 * booked, goal) <= 100
  {
    var p := RoundRatio(100 * booked, goal);
    if booked == goal {
      assert 2 * goal * p - goal <= 200 * goal < 2 * goal * p + goal;
      if p <= 99 {
        MulLe(goal, p, 99);
        assert false;
      }
      if p >= 101 {
        MulLe(goal, 101, p);
        assert false;
      }
    }
    if 0 <= booked <= goal {
      MulLe(100, booked, goal);
      if p < 0 {
        MulLe(goal, p, -1);
        assert false;
      }
      if p > 100 {
        MulLe(goal, 101, p);
        assert false;
      }
    }
  }

  lemma MulLe(q: int, x: int, y: int)
    requires q >= 0 && x <= y
    ensures q * x <= q * y
  {
  }

  /** The `.map` body for one fetched title. */
  function AlertFor(t: Title, now: int): (a: Alert)
    requires t.deadlineDay.Some?
    ensures a.titleId == t.id && a.titleName == t.name && a.region == t.region && a.deadlineDay == t.deadlineDay.value
    ensures a.daysRemaining == t.deadlineDay.value - UtcDay(now)
    ensures a.urgency == UrgencyFor(a.daysRemaining)
    ensures a.revenueGap == t.revenueGoal - t.revenueBooked && a.pagesGap == t.pagesGoal - t.pagesSold
    ensures a.revenueGoal == t.revenueGoal && a.revenueBooked == t.revenueBooked
    ensures a.pagesGoal == t.pagesGoal && a.pagesSold == t.pagesSold
    ensures a.percentToGoal == PercentToGoal(t.revenueGoal, t.revenueBooked)
  {
    var deadline := t.deadlineDay.value;
    var daysRemaining := CeilDays(Midnight(deadline) - now);
    CeilDaysToMidnight(now, deadline);
    Alert(t.id, t.name, t.region, deadline, daysRemaining, UrgencyFor(daysRemaining),
          t.revenueGoal, t.revenueBooked, t.revenueGoal - t.revenueBooked,
          t.pagesGoal, t.pagesSold, t.pagesGoal - t.pagesSold,
          PercentToGoal(t.revenueGoal, t.revenueBooked))
  }

  // ---------------------------------------------------------------------
  // The job

  /** One alert per fetched title, in fetch order. */
  function AlertsFor(fetched: seq<Title>, now: int): (alerts: seq<Alert>)
    requires forall t :: t in fetched ==> t.deadlineDay.Some?
    ensures |alerts| == |fetched|
    ensures forall i :: 0 <= i < |fetched| ==> alerts[i] == AlertFor(fetched[i], now)
  {
    seq(|fetched|, i requires 0 <= i < |fetched| => AlertFor(fetched[i], now))
  }

  /** The alerts of the fetched titles: between 0 and `threshold` days remain,
      low urgency needs a threshold above 7, and deadlines ascend. */
  lemma AlertsInWindow(titles: seq<Title>, now: int, threshold: int)
    ensures var alerts := AlertsFor(Upcoming(titles, now, threshold), now);
      && (forall i :: 0 <= i < |alerts| ==> 0 <= alerts[i].daysRemaining <= threshold)
      && (forall i :: 0 <= i < |alerts| && alerts[i].urgency == Low ==> threshold > 7)
      && (forall i, j :: 0 <= i < j < |alerts| ==> alerts[i].deadlineDay <= alerts[j].deadlineDay)
  {
    var fetched := Upcoming(titles, now, threshold);
    assert forall i :: 0 <= i < |fetched| ==> fetched[i] in fetched;
  }

  /** The whole job: the threshold from the body (default 7), then one alert
      per fetched title; a failed read is the job's error. */
  function Run(titles: seq<Title>, body: RequestBody, now: int, titlesError: Option<string>): (r: JobResult<DeadlineResponse>)
    ensures titlesError.Some? <==> r.Failed?
    ensures titlesError.Some? ==> r.message == titlesError.value
    ensures r.Done? ==>
      var threshold := DaysThreshold(body, DefaultThreshold);
      && r.response.thresholdDays == threshold
      && r.response.alerts == AlertsFor(Upcoming(titles, now, threshold), now)
      && r.response.alertsCount == |r.response.alerts|
  {
    if titlesError.Some? then Failed(titlesError.value)
    else
      var threshold := DaysThreshold(body, DefaultThreshold);
      var alerts := AlertsFor(Upcoming(titles, now, threshold), now);
      Done(DeadlineResponse(threshold, |alerts|, alerts))
  }

  // ---------------------------------------------------------------------
  // Properties

  /** The tier never becomes more urgent as the days remaining grow. */
  lemma UrgencyMonotone(d1: int, d2: int)
    requires d1 <= d2
    ensures Rank(UrgencyFor(d1)) >= Rank(UrgencyFor(d2))
  {
  }

  /** A deadline eight days out is left out at threshold 7 and alerted at
      threshold 8; a deadline in the past is never alerted. */
  lemma WindowExamples(t: Title, now: int, threshold: int)
    ensures t.deadlineDay == Some(UtcDay(now) + 8) ==> !InWindow(t, now, 7) && InWindow(t, now, 8)
    ensures t.deadlineDay.Some? && t.deadlineDay.value < UtcDay(now) ==> !InWindow(t, now, threshold)
  {
    UtcDayShift(now, 7);
    UtcDayShift(now, 8);
  }

  /** Without a usable body the window is the coming week. */
  lemma DefaultWindow(titles: seq<Title>, now: int)
    ensures Run(titles, Json(None), now, None) == Run(titles, Unreadable, now, None)
    ensures Run(titles, Json(Some(0)), now, None) == Run(titles, Unreadable, now, None)
    ensures Run(titles, Unreadable, now, None).response.thresholdDays == 7
  {
  }
}
