/** The fallback insight of the account page's summary card, shown when the
    generated insight is unavailable: a key fact (active proposals and their
    value), the current situation (the first of four cases that applies) and a
    suggested action (the first of four cases that applies). */
module AccountSummary {
  import opened Crm
  import opened Seqs

  datatype Insight = Insight(keyFact: string, currentSituation: string, suggestedAction: string)

  /** Which branch of the situation chain applied, with the value it quotes. */
  datatype Situation = Hesitant(wafflingShown: int) | Strong | Quiet(days: int) | InStatus(status: string)

  /** Which branch of the action chain applied. */
  datatype Action = FollowUpAtRisk(flagged: nat) | CheckIn | CreateUrgency | RegularFollowUp

  function ActiveDeals(deals: seq<Deal>): seq<Deal>
  {
    Filter(deals, (d: Deal) => IsActive(d.stage))
  }

  function DealValue(d: Deal): int
  {
    d.value
  }

  /** `deals.reduce((sum, d) => sum + Number(d.value), 0)`: every deal, whatever its stage. */
  function TotalValue(deals: seq<Deal>): int
  {
    SumOf(deals, DealValue)
  }

  function FlaggedDeals(deals: seq<Deal>): seq<Deal>
  {
    Filter(deals, (d: Deal) => d.isAtRisk)
  }

  /** `'s'` unless there is exactly one. */
  function Plural(n: int): (s: string)
    ensures s == "" <==> n == 1
  {
    if n != 1 then "s" else ""
  }

  /** `` `${company} has ${n} active proposal${plural}` `` and, for a positive
      total, `` ` worth $${total.toLocaleString()}` ``; `format` stands for
      the locale formatting. */
  function KeyFact(company: string, activeCount: nat, total: int, format: int -> string): (r: string)
    ensures var count := company + " has " + IntToString(activeCount) + " active proposal" + Plural(activeCount);
      && (total > 0 ==> r == count + " worth $" + format(total))
      && (total <= 0 ==> r == count)
  {
    var keyFact := company + " has " + IntToString(activeCount) + " active proposal" + Plural(activeCount);
    if total > 0 then keyFact + " worth $" + format(total) else keyFact
  }

  /** The situation chain (`AIAccountSummary.tsx` lines 144-153). */
  function SituationOf(a: Account, now: int): (s: Situation)
    ensures s.Hesitant? <==> a.decisionCertainty == Some(AtRisk) || (a.wafflingScore.Some? && a.wafflingScore.value > 50)
    ensures s.Hesitant? ==> s.wafflingShown == a.wafflingScore.GetOr(0)
    ensures s.Strong? <==> !s.Hesitant? && a.decisionCertainty == Some(Firm)
    ensures s.Quiet? <==> !s.Hesitant? && !s.Strong? && a.lastContactDay.Some? && UtcDay(now) - a.lastContactDay.value > 5
    ensures s.Quiet? ==> s.days == UtcDay(now) - a.lastContactDay.value
    ensures s.InStatus? ==> s.status == if a.decisionCertainty.Some? then CertaintyName(a.decisionCertainty.value) else "active"
  {
    var days := DaysSinceContact(a.lastContactDay, now);
    if a.decisionCertainty == Some(AtRisk) || (a.wafflingScore.Some? && a.wafflingScore.value != 0 && a.wafflingScore.value > 50) then
      Hesitant(a.wafflingScore.GetOr(0))
    else if a.decisionCertainty == Some(Firm) then Strong
    else if days.Some? && days.value != 0 && days.value > 5 then Quiet(days.value)
    else InStatus(if a.decisionCertainty.Some? then CertaintyName(a.decisionCertainty.value) else "active")
  }

  function SituationText(s: Situation): string
  {
    match s
    case Hesitant(w) => "This account shows signs of hesitation with a waffling score of " + IntToString(w) + "%."
    case Strong => "This account is a strong prospect with firm buying signals."
    case Quiet(days) => "No contact in " + IntToString(days) + " days. Consider reaching out."
    case InStatus(status) => "Account is in " + status + " status."
  }

  /** The action chain (`AIAccountSummary.tsx` lines 155-164). */
  function ActionOf(a: Account, deals: seq<Deal>, now: int): (act: Action)
    ensures act.FollowUpAtRisk? <==> exists d :: d in deals && d.isAtRisk
    ensures act.FollowUpAtRisk? ==> act.flagged == |FlaggedDeals(deals)| > 0
    ensures act.CheckIn? <==> !act.FollowUpAtRisk? && a.lastContactDay.Some? && UtcDay(now) - a.lastContactDay.value > 7
    ensures act.CreateUrgency? <==> !act.FollowUpAtRisk? && !act.CheckIn? && a.decisionCertainty == Some(Waffling)
  {
    var days := DaysSinceContact(a.lastContactDay, now);
    var flagged := FlaggedDeals(deals);
    if |flagged| > 0 then
      assert flagged[0] in flagged;
      FollowUpAtRisk(|flagged|)
    else if days.Some? && days.value != 0 && days.value > 7 then CheckIn
    else if a.decisionCertainty == Some(Waffling) then CreateUrgency
    else RegularFollowUp
  }

  function ActionText(act: Action): string
  {
    match act
    case FollowUpAtRisk(n) => "Follow up on " + IntToString(n) + " at-risk proposal" + Plural(n) + " immediately."
    case CheckIn => "Schedule a check-in call to maintain momentum."
    case CreateUrgency => "Send a deadline reminder or special offer to create urgency."
    case RegularFollowUp => "Continue regular follow-up to close pending proposals."
  }

  /** `generateFallbackInsight`. */
  function FallbackInsight(a: Account, deals: seq<Deal>, now: int, format: int -> string): (r: Insight)
    ensures r.keyFact == KeyFact(a.companyName, |ActiveDeals(deals)|, TotalValue(deals), format)
    ensures r.currentSituation == SituationText(SituationOf(a, now))
    ensures r.suggestedAction == ActionText(ActionOf(a, deals, now))
  {
    Insight(KeyFact(a.companyName, |ActiveDeals(deals)|, TotalValue(deals), format),
            SituationText(SituationOf(a, now)),
            ActionText(ActionOf(a, deals, now)))
  }

  // ---------------------------------------------------------------------
  // Properties

  /** With no contact date neither day-based branch is taken. */
  lemma NoContactDateNoDayBranches(a: Account, deals: seq<Deal>, now: int)
    requires a.lastContactDay.None?
    ensures !SituationOf(a, now).Quiet? && !ActionOf(a, deals, now).CheckIn?
  {
  }

  /** Signed and lost deals count towards the value but not the active count. */
  lemma {:induction false} ClosedDealsAddValueOnly(deals: seq<Deal>, d: Deal)
    requires !IsActive(d.stage)
    ensures ActiveDeals(deals + [d]) == ActiveDeals(deals)
    ensures TotalValue(deals + [d]) == TotalValue(deals) + d.value
  {
    FilterSnoc(deals, d, (x: Deal) => IsActive(x.stage));
    SumOfSnoc(deals, d, DealValue);
  }

  /** A key fact names a value only for a positive total, so it is longer
      exactly then. */
  lemma KeyFactMentionsValueOnlyWhenPositive(company: string, n: nat, total: int, format: int -> string)
    ensures total <= 0 ==> KeyFact(company, n, total, format) == KeyFact(company, n, 0, format)
    ensures total > 0 ==> |KeyFact(company, n, total, format)| > |KeyFact(company, n, 0, format)|
  {
  }
}
