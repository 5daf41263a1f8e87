/** The health panel of the account page: up to four risk signals (waffling
    score, contact age, flagged proposals, an at-risk certainty), a health
    score that falls with the waffling score and with each signal, and the
    label and colour thresholds shown beside them. */
module AccountHealth {
  import opened Crm
  import opened Seqs

  datatype Severity = Low | Medium | High

  /** The six signal ids. */
  datatype SignalId = HighWaffling | MediumWaffling | StaleContact | AgingContact | AtRiskDeals | DecisionAtRisk

  /** The id strings of the source. */
  function IdText(id: SignalId): string
  {
    match id
    case HighWaffling => "high-waffling"
    case MediumWaffling => "medium-waffling"
    case StaleContact => "stale-contact"
    case AgingContact => "aging-contact"
    case AtRiskDeals => "at-risk-deals"
    case DecisionAtRisk => "decision-at-risk"
  }

  /** A `RiskSignal` without its icon. */
  datatype RiskSignal = RiskSignal(id: SignalId, text: string, severity: Severity)

  /** `account.waffling_score || 0`. */
  function WafflingOf(a: Account): int
  {
    a.wafflingScore.GetOr(0)
  }

  /** Every deal of the account flagged at risk, whatever its stage. */
  function FlaggedDeals(deals: seq<Deal>): seq<Deal>
  {
    Filter(deals, (d: Deal) => d.isAtRisk)
  }

  // ---------------------------------------------------------------------
  // The signals, one rule at a time

  function WafflingSignal(w: int): (s: seq<RiskSignal>)
    ensures |s| <= 1
    ensures s == [] <==> w <= 50
    ensures s != [] ==> (s[0].severity == High <==> w > 70) && s[0].severity != Low
  {
    if w > 70 then [RiskSignal(HighWaffling, "High waffling score indicates hesitation", High)]
    else if w > 50 then [RiskSignal(MediumWaffling, "Elevated waffling score - monitor closely", Medium)]
    else []
  }

  function ContactSignal(days: Option<int>): (s: seq<RiskSignal>)
    ensures |s| <= 1
    ensures s == [] <==> days.None? || days.value <= 5
    ensures s != [] ==> (s[0].severity == High <==> days.value > 10) && s[0].severity != Low
  {
    if days.Some? && days.value > 10 then
      [RiskSignal(StaleContact, "No contact in " + IntToString(days.value) + " days", High)]
    else if days.Some? && days.value > 5 then
      [RiskSignal(AgingContact, IntToString(days.value) + " days since last contact", Medium)]
    else []
  }

  /** `` `${n} proposal${n !== 1 ? 's' : ''} flagged at-risk` ``. */
  function ProposalsLabel(n: nat): string
  {
    IntToString(n) + " proposal" + (if n != 1 then "s" else "") + " flagged at-risk"
  }

  function FlaggedDealsSignal(n: nat): (s: seq<RiskSignal>)
    ensures |s| <= 1
    ensures s == [] <==> n == 0
    ensures s != [] ==> (s[0].severity == High <==> n > 2) && s[0].severity != Low
  {
    if n > 0 then [RiskSignal(AtRiskDeals, ProposalsLabel(n), if n > 2 then High else Medium)] else []
  }

  function CertaintySignal(c: Option<Certainty>): (s: seq<RiskSignal>)
    ensures s == [] <==> c != Some(AtRisk)
    ensures s != [] ==> s == [RiskSignal(DecisionAtRisk, "Account marked as at-risk", High)]
  {
    if c == Some(AtRisk) then [RiskSignal(DecisionAtRisk, "Account marked as at-risk", High)] else []
  }

  /** The signals in emission order. */
  function Signals(a: Account, deals: seq<Deal>, now: int): (s: seq<RiskSignal>)
    ensures |s| <= 4
    ensures forall r :: r in s ==> r.severity != Low
  {
    WafflingSignal(WafflingOf(a)) + ContactSignal(DaysSinceContact(a.lastContactDay, now))
      + FlaggedDealsSignal(|FlaggedDeals(deals)|) + CertaintySignal(a.decisionCertainty)
  }

  /** The conditional pushes (`AccountHealthSection.tsx` lines 37-87). */
  method RiskSignals(a: Account, deals: seq<Deal>, now: int) returns (riskSignals: seq<RiskSignal>)
    ensures riskSignals == Signals(a, deals, now)
    ensures (exists r :: r in riskSignals && r.id == AtRiskDeals) <==> exists d :: d in deals && d.isAtRisk
  {
    var wafflingScore := WafflingOf(a);
    var daysSinceContact := DaysSinceContact(a.lastContactDay, now);
    var atRiskDeals := FlaggedDeals(deals);
    riskSignals := [];
    if wafflingScore > 70 {
      riskSignals := riskSignals + [RiskSignal(HighWaffling, "High waffling score indicates hesitation", High)];
    } else if wafflingScore > 50 {
      riskSignals := riskSignals + [RiskSignal(MediumWaffling, "Elevated waffling score - monitor closely", Medium)];
    }
    assert riskSignals == WafflingSignal(wafflingScore);
    if daysSinceContact.Some? && daysSinceContact.value > 10 {
      riskSignals := riskSignals + [RiskSignal(StaleContact, "No contact in " + IntToString(daysSinceContact.value) + " days", High)];
    } else if daysSinceContact.Some? && daysSinceContact.value > 5 {
      riskSignals := riskSignals + [RiskSignal(AgingContact, IntToString(daysSinceContact.value) + " days since last contact", Medium)];
    }
    assert riskSignals == WafflingSignal(wafflingScore) + ContactSignal(daysSinceContact);
    if |atRiskDeals| > 0 {
      riskSignals := riskSignals + [RiskSignal(AtRiskDeals, ProposalsLabel(|atRiskDeals|), if |atRiskDeals| > 2 then High else Medium)];
    }
    assert riskSignals == WafflingSignal(wafflingScore) + ContactSignal(daysSinceContact) + FlaggedDealsSignal(|atRiskDeals|);
    if a.decisionCertainty == Some(AtRisk) {
      riskSignals := riskSignals + [RiskSignal(DecisionAtRisk, "Account marked as at-risk", High)];
    }
    SignalIds(a, deals, now);
  }

  /** The flagged-proposals signal is the only one with its id. */
  lemma SignalIds(a: Account, deals: seq<Deal>, now: int)
    ensures (exists r :: r in Signals(a, deals, now) && r.id == AtRiskDeals) <==> exists d :: d in deals && d.isAtRisk
  {
    var flagged := FlaggedDeals(deals);
    var ws := WafflingSignal(WafflingOf(a));
    var cs := ContactSignal(DaysSinceContact(a.lastContactDay, now));
    var mid := FlaggedDealsSignal(|flagged|);
    var after := CertaintySignal(a.decisionCertainty);
    var s := Signals(a, deals, now);
    assert s == ws + cs + mid + after;
    if exists d :: d in deals && d.isAtRisk {
      var d :| d in deals && d.isAtRisk;
      assert d in flagged;
      assert mid[0] in s;
    }
    if exists r :: r in s && r.id == AtRiskDeals {
      var r :| r in s && r.id == AtRiskDeals;
      assert r !in ws && r !in cs && r !in after;
      assert flagged[0] in flagged;
    }
  }

  // ---------------------------------------------------------------------
  // Score, label and colours

  /** `Math.max(0, 100 - wafflingScore - signals * 10)`. */
  function HealthScore(waffling: int, signals: nat): (h: int)
    ensures h >= 0 && h >= 100 - waffling - 10 * signals
    ensures h == 0 || h == 100 - waffling - 10 * signals
    ensures waffling >= 0 ==> h <= 100
  {
    if 100 - waffling - 10 * signals > 0 then 100 - waffling - 10 * signals else 0
  }

  datatype Tone = Success | Warning | Danger

  /** `getHealthColor`. */
  function HealthColor(score: int): (t: Tone)
    ensures t == Success <==> score >= 70
    ensures t == Danger <==> score < 40
  {
    if score >= 70 then Success else if score >= 40 then Warning else Danger
  }

  /** `getHealthLabel`. */
  function HealthLabel(score: int): (caption: string)
    ensures caption == "Healthy" <==> score >= 70
    ensures caption == "Needs Attention" <==> 40 <= score < 70
    ensures caption == "At Risk" <==> score < 40
  {
    if score >= 70 then "Healthy" else if score >= 40 then "Needs Attention" else "At Risk"
  }

  /** `getWafflingColor`. */
  function WafflingColor(score: int): (t: Tone)
    ensures t == Success <==> score <= 25
    ensures t == Danger <==> score > 50
  {
    if score <= 25 then Success else if score <= 50 then Warning else Danger
  }

  /** The score the panel shows. */
  function AccountHealthScore(a: Account, deals: seq<Deal>, now: int): int
  {
    HealthScore(WafflingOf(a), |Signals(a, deals, now)|)
  }

  // ---------------------------------------------------------------------
  // Properties

  /** The health score never rises when the waffling score or the signal count rises. */
  lemma HealthScoreAntitone(w1: int, w2: int, n1: nat, n2: nat)
    requires w1 <= w2 && n1 <= n2
    ensures HealthScore(w2, n2) <= HealthScore(w1, n1)
  {
  }

  /** The label and the colour agree: healthy is green, at risk is red. */
  lemma LabelMatchesColour(score: int)
    ensures HealthLabel(score) == "Healthy" <==> HealthColor(score) == Success
    ensures HealthLabel(score) == "At Risk" <==> HealthColor(score) == Danger
  {
  }

  /** An account with a waffling score above 70 and an at-risk certainty has
      at least two signals, so its health score is at most 9. */
  lemma WafflingAndAtRiskIsUnhealthy(a: Account, deals: seq<Deal>, now: int)
    requires WafflingOf(a) > 70 && a.decisionCertainty == Some(AtRisk)
    ensures |Signals(a, deals, now)| >= 2
    ensures AccountHealthScore(a, deals, now) <= 9
    ensures HealthLabel(AccountHealthScore(a, deals, now)) == "At Risk"
  {
  }
}
