/** The `run-all-automations` edge function: it invokes the five jobs in a
    fixed order (waffling, at-risk, deadlines with threshold 7, stale contacts
    with threshold 5, daily digest), records each successful job's response in
    its results slot and each failure as one "name: message" line, and never
    stops early. The response reports success exactly when no step failed and
    a summary of four counts that default to 0. */
module RunAllAutomations {
  import opened Crm
  import DeadlineAlerts
  import StaleContacts

  /** What one `supabase.functions.invoke` gave: a response whose count field
      (`accounts_updated`, `deals_updated`, `alerts_count`,
      `stale_contacts_count`) may be missing, or a thrown error whose message
      is absent when the thrown value is not an `Error`. */
  datatype StepOutcome = Invoked(count: Option<int>) | Threw(message: Option<string>)

  /** A results slot: unset, or the step's response (reduced to its count). */
  datatype Slot = Unset | Set(count: Option<int>)

  datatype Results = Results(waffling: Slot, atRisk: Slot, deadlines: Slot, staleContacts: Slot, digest: Slot)

  datatype Summary = Summary(wafflingUpdated: int, atRiskDetected: int, deadlineAlerts: int, staleContacts: int)

  datatype RunAllResponse = RunAllResponse(
    success: bool,
    durationMs: int,
    ranAt: int,
    results: Results,
    errors: Option<seq<string>>,
    summary: Summary)

  /** One invocation: the function's name and the body sent to it. */
  datatype Invocation = Invocation(name: string, body: RequestBody)

  const WafflingStep: string := "recalculate-waffling"
  const AtRiskStep: string := "detect-at-risk"
  const DeadlineStep: string := "deadline-alerts"
  const StaleStep: string := "stale-contacts"
  const DigestStep: string := "daily-digest"

  /** The invocations in the order the orchestrator makes them. */
  const Schedule: seq<Invocation> := [
    Invocation(WafflingStep, Json(None)),
    Invocation(AtRiskStep, Json(None)),
    Invocation(DeadlineStep, Json(Some(7))),
    Invocation(StaleStep, Json(Some(5))),
    Invocation(DigestStep, Json(None))]

  /** `` `${name}: ${msg}` `` with `msg` defaulting to "Unknown error". */
  function ErrorLine(name: string, message: Option<string>): (line: string)
    ensures line == name + ": " + message.GetOr("Unknown error")
    ensures |line| > |name|
  {
    name + ": " + message.GetOr("Unknown error")
  }

  function SlotOf(o: StepOutcome): (s: Slot)
    ensures s.Set? <==> o.Invoked?
    ensures o.Invoked? ==> s.count == o.count
  {
    match o
    case Invoked(count) => Set(count)
    case Threw(_) => Unset
  }

  function LineOf(name: string, o: StepOutcome): seq<string>
  {
    match o
    case Invoked(_) => []
    case Threw(message) => [ErrorLine(name, message)]
  }

  /** The error lines of the failed steps, in step order. */
  function ErrorsOf(w: StepOutcome, a: StepOutcome, d: StepOutcome, s: StepOutcome, g: StepOutcome): (errors: seq<string>)
    ensures errors == [] <==> w.Invoked? && a.Invoked? && d.Invoked? && s.Invoked? && g.Invoked?
    ensures |errors| + SetSlots(Results(SlotOf(w), SlotOf(a), SlotOf(d), SlotOf(s), SlotOf(g))) == 5
  {
    LineOf(WafflingStep, w) + LineOf(AtRiskStep, a) + LineOf(DeadlineStep, d) + LineOf(StaleStep, s) + LineOf(DigestStep, g)
  }

  function Indicator(b: bool): nat
  {
    if b then 1 else 0
  }

  /** How many results slots are set. */
  function SetSlots(r: Results): (n: nat)
    ensures n <= 5
  {
    Indicator(r.waffling.Set?) + Indicator(r.atRisk.Set?) + Indicator(r.deadlines.Set?)
      + Indicator(r.staleContacts.Set?) + Indicator(r.digest.Set?)
  }

  /** `results.x?.field || 0`. */
  function CountOf(s: Slot): (c: int)
    ensures s.Unset? ==> c == 0
    ensures s.Set? && s.count.None? ==> c == 0
    ensures s.Set? && s.count.Some? ==> c == s.count.value
  {
    match s
    case Unset => 0
    case Set(count) => count.GetOr(0)
  }

  /** The summary block (`run-all-automations/index.ts` lines 115-120); the digest slot is not read. */
  function SummaryOf(r: Results): (s: Summary)
    ensures s == Summary(CountOf(r.waffling), CountOf(r.atRisk), CountOf(r.deadlines), CountOf(r.staleContacts))
  {
    Summary(CountOf(r.waffling), CountOf(r.atRisk), CountOf(r.deadlines), CountOf(r.staleContacts))
  }

  /** The five try/catch blocks (`run-all-automations/index.ts` lines 22-103) and the response
      (105-121). The clock readings are parameters. */
  method RunAll(w: StepOutcome, a: StepOutcome, d: StepOutcome, s: StepOutcome, g: StepOutcome,
                startTime: int, endTime: int, ranAt: int)
    returns (r: RunAllResponse, calls: seq<Invocation>)
    ensures calls == Schedule
    ensures r.results == Results(SlotOf(w), SlotOf(a), SlotOf(d), SlotOf(s), SlotOf(g))
    ensures r.success <==> ErrorsOf(w, a, d, s, g) == []
    ensures r.errors == if ErrorsOf(w, a, d, s, g) == [] then None else Some(ErrorsOf(w, a, d, s, g))
    ensures r.summary == SummaryOf(r.results)
    ensures r.durationMs == endTime - startTime && r.ranAt == ranAt
  {
    var results := Results(Unset, Unset, Unset, Unset, Unset);
    var errors: seq<string> := [];
    calls := [];

    calls := calls + [Invocation(WafflingStep, Json(None))];
    match w {
      case Invoked(count) => results := results.(waffling := Set(count));
      case Threw(message) => errors := errors + [ErrorLine(WafflingStep, message)];
    }
    assert errors == LineOf(WafflingStep, w);

    calls := calls + [Invocation(AtRiskStep, Json(None))];
    match a {
      case Invoked(count) => results := results.(atRisk := Set(count));
      case Threw(message) => errors := errors + [ErrorLine(AtRiskStep, message)];
    }
    assert errors == LineOf(WafflingStep, w) + LineOf(AtRiskStep, a);

    calls := calls + [Invocation(DeadlineStep, Json(Some(7)))];
    match d {
      case Invoked(count) => results := results.(deadlines := Set(count));
      case Threw(message) => errors := errors + [ErrorLine(DeadlineStep, message)];
    }
    assert errors == LineOf(WafflingStep, w) + LineOf(AtRiskStep, a) + LineOf(DeadlineStep, d);

    calls := calls + [Invocation(StaleStep, Json(Some(5)))];
    match s {
      case Invoked(count) => results := results.(staleContacts := Set(count));
      case Threw(message) => errors := errors + [ErrorLine(StaleStep, message)];
    }
    assert errors == LineOf(WafflingStep, w) + LineOf(AtRiskStep, a) + LineOf(DeadlineStep, d) + LineOf(StaleStep, s);

    calls := calls + [Invocation(DigestStep, Json(None))];
    match g {
      case Invoked(count) => results := results.(digest := Set(count));
      case Threw(message) => errors := errors + [ErrorLine(DigestStep, message)];
    }
    assert errors == LineOf(WafflingStep, w) + LineOf(AtRiskStep, a) + LineOf(DeadlineStep, d) + LineOf(StaleStep, s) + LineOf(DigestStep, g);

    r := RunAllResponse(|errors| == 0, endTime - startTime, ranAt, results,
                        if |errors| > 0 then Some(errors) else None, SummaryOf(results));
  }

  // ---------------------------------------------------------------------
  // Properties

  /** The digest step never affects the summary. */
  lemma DigestDoesNotAffectSummary(r: Results, digest: Slot)
    ensures SummaryOf(r.(digest := digest)) == SummaryOf(r)
  {
  }

  /** Scenario: only the deadline step throws. The other counts come through,
      success is false and the single error names the deadline step. */
  lemma ScenarioDeadlineFails(wc: int, ac: int, sc: int, message: string)
    ensures var w, a, d, s, g := Invoked(Some(wc)), Invoked(Some(ac)), Threw(Some(message)), Invoked(Some(sc)), Invoked(None);
      var results := Results(SlotOf(w), SlotOf(a), SlotOf(d), SlotOf(s), SlotOf(g));
      && ErrorsOf(w, a, d, s, g) == ["deadline-alerts: " + message]
      && SummaryOf(results) == Summary(wc, ac, 0, sc)
  {
    var line := ErrorLine(DeadlineStep, Some(message));
    assert DeadlineStep + ": " == "deadline-alerts: ";
    assert line == "deadline-alerts: " + message;
    assert [] + [] + [line] + [] + [] == [line];
  }

  /** Scenario: only the digest throws; every count is reported and yet the
      run is not a success. */
  lemma ScenarioDigestFails(wc: int, ac: int, dc: int, sc: int)
    ensures var w, a, d, s, g := Invoked(Some(wc)), Invoked(Some(ac)), Invoked(Some(dc)), Invoked(Some(sc)), Threw(None);
      && ErrorsOf(w, a, d, s, g) == ["daily-digest: Unknown error"]
      && SummaryOf(Results(SlotOf(w), SlotOf(a), SlotOf(d), SlotOf(s), SlotOf(g))) == Summary(wc, ac, dc, sc)
  {
    var line := ErrorLine(DigestStep, None);
    assert line == "daily-digest: Unknown error";
    assert [] + [] + [] + [] + [line] == [line];
  }

  /** The thresholds the orchestrator sends are the jobs' own defaults, so its
      deadline and stale-contact steps behave as bodiless calls. */
  lemma ScheduledThresholdsAreDefaults()
    ensures DaysThreshold(Schedule[2].body, DeadlineAlerts.DefaultThreshold) == DaysThreshold(Unreadable, DeadlineAlerts.DefaultThreshold) == 7
    ensures DaysThreshold(Schedule[3].body, StaleContacts.DefaultThreshold) == DaysThreshold(Unreadable, StaleContacts.DefaultThreshold) == 5
  {
  }
}
