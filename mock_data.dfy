/** The helpers over the demonstration records that the dashboard route
    renders: look-ups by id, the deals of an account or a title, the open
    deals flagged at risk, the accounts needing attention, and the days until
    a date. The records have their own shapes (no nullable fields); the
    record arrays themselves are parameters. */
module MockData {
  import opened Crm
  import opened Seqs

  datatype AdSize = QuarterPage | HalfPage | FullPage | TwoPageSpread

  datatype Rates = Rates(full: int, half: int, quarter: int, spread: int)

  datatype MockTitle = MockTitle(
    id: string, name: string, region: string,
    revenueGoal: int, revenueBooked: int, pagesGoal: int, pagesSold: int,
    deadlineDay: int, rates: Rates)

  datatype MockAccount = MockAccount(
    id: string, companyName: string, contactName: string, contactEmail: string,
    businessType: string, city: string, budgetRangeLow: int, budgetRangeHigh: int,
    wafflingScore: int, decisionCertainty: Certainty, lastContactDay: int)

  datatype MockDeal = MockDeal(
    id: string, accountId: string, titleId: string, adSize: AdSize, value: int,
    stage: Stage, isAtRisk: bool, probability: int)

  /** `Array.prototype.find`: the first element satisfying `p`, if any. */
  function Find<T(==)>(s: seq<T>, p: T -> bool): (r: Option<T>)
    ensures r.None? <==> forall k :: 0 <= k < |s| ==> !p(s[k])
    ensures r.Some? ==> exists k :: 0 <= k < |s| && s[k] == r.value && p(s[k]) && forall j :: 0 <= j < k ==> !p(s[j])
  {
    if s == [] then None
    else if p(s[0]) then Some(s[0])
    else
      var rest := Find(s[1..], p);
      assert forall k :: 1 <= k < |s| ==> s[k] == s[1..][k - 1];
      if rest.Some? then
        var k :| 0 <= k < |s[1..]| && s[1..][k] == rest.value && p(s[1..][k]) && forall j :: 0 <= j < k ==> !p(s[1..][j]);
        assert s[k + 1] == rest.value;
        rest
      else rest
  }

  /** `getAccountById`. */
  function GetAccountById(accounts: seq<MockAccount>, id: string): (r: Option<MockAccount>)
    ensures r.None? <==> forall k :: 0 <= k < |accounts| ==> accounts[k].id != id
    ensures r.Some? ==> exists k :: 0 <= k < |accounts| && accounts[k] == r.value && r.value.id == id
                                    && forall j :: 0 <= j < k ==> accounts[j].id != id
  {
    Find(accounts, (a: MockAccount) => a.id == id)
  }

  /** `getTitleById`. */
  function GetTitleById(titles: seq<MockTitle>, id: string): (r: Option<MockTitle>)
    ensures r.None? <==> forall k :: 0 <= k < |titles| ==> titles[k].id != id
    ensures r.Some? ==> exists k :: 0 <= k < |titles| && titles[k] == r.value && r.value.id == id
                                    && forall j :: 0 <= j < k ==> titles[j].id != id
  {
    Find(titles, (t: MockTitle) => t.id == id)
  }

  /** `getAccountDeals`. */
  function GetAccountDeals(deals: seq<MockDeal>, accountId: string): (r: seq<MockDeal>)
    ensures forall d :: d in r <==> d in deals && d.accountId == accountId
  {
    Filter(deals, (d: MockDeal) => d.accountId == accountId)
  }

  /** `getTitleDeals`. */
  function GetTitleDeals(deals: seq<MockDeal>, titleId: string): (r: seq<MockDeal>)
    ensures forall d :: d in r <==> d in deals && d.titleId == titleId
  {
    Filter(deals, (d: MockDeal) => d.titleId == titleId)
  }

  /** `getAtRiskDeals`: flagged and neither signed nor lost. */
  function GetAtRiskDeals(deals: seq<MockDeal>): (r: seq<MockDeal>)
    ensures forall d :: d in r <==> d in deals && d.isAtRisk && d.stage != Signed && d.stage != Lost
  {
    Filter(deals, (d: MockDeal) => d.isAtRisk && d.stage != Signed && d.stage != Lost)
  }

  /** An account needs attention when its last contact date's midnight is
      before the instant five days ago, or its waffling score is above 50. */
  predicate NeedsAttention(a: MockAccount, now: int)
  {
    Midnight(a.lastContactDay) < now - 5 * DayMs || a.wafflingScore > 50
  }

  /** `getNeedsAttentionAccounts`. */
  function GetNeedsAttentionAccounts(accounts: seq<MockAccount>, now: int): (r: seq<MockAccount>)
    ensures forall a :: a in r <==> a in accounts && NeedsAttention(a, now)
  {
    Filter(accounts, (a: MockAccount) => NeedsAttention(a, now))
  }

  /** `getDaysUntil`: `Math.ceil((target - now) / day)` for a date's midnight. */
  function GetDaysUntil(day: int, now: int): (d: int)
    ensures d == day - UtcDay(now)
    ensures d < 0 <==> day < UtcDay(now)
  {
    CeilDaysToMidnight(now, day);
    CeilDays(Midnight(day) - now)
  }

  // ---------------------------------------------------------------------
  // Properties

  /** The filters keep the input order: filtering a concatenation filters each part. */
  lemma DealFiltersKeepOrder(a: seq<MockDeal>, b: seq<MockDeal>, accountId: string, titleId: string)
    ensures GetAccountDeals(a + b, accountId) == GetAccountDeals(a, accountId) + GetAccountDeals(b, accountId)
    ensures GetTitleDeals(a + b, titleId) == GetTitleDeals(a, titleId) + GetTitleDeals(b, titleId)
    ensures GetAtRiskDeals(a + b) == GetAtRiskDeals(a) + GetAtRiskDeals(b)
  {
    FilterAppend(a, b, (d: MockDeal) => d.accountId == accountId);
    FilterAppend(a, b, (d: MockDeal) => d.titleId == titleId);
    FilterAppend(a, b, (d: MockDeal) => d.isAtRisk && d.stage != Signed && d.stage != Lost);
  }

  /** Taking an account's deals and taking the open flagged deals commute, so
      the dashboard's two filters can be applied in either order. */
  lemma {:induction false} AtRiskDealsOfAccount(deals: seq<MockDeal>, accountId: string)
    ensures GetAtRiskDeals(GetAccountDeals(deals, accountId)) == GetAccountDeals(GetAtRiskDeals(deals), accountId)
  {
    if deals != [] {
      var d := deals[0];
      AtRiskDealsOfAccount(deals[1..], accountId);
      assert deals == [d] + deals[1..];
      DealFiltersKeepOrder([d], deals[1..], accountId, "");
      var byAccount := GetAccountDeals([d], accountId);
      var open := GetAtRiskDeals([d]);
      FilterAppend(byAccount, GetAccountDeals(deals[1..], accountId), (x: MockDeal) => x.isAtRisk && x.stage != Signed && x.stage != Lost);
      FilterAppend(open, GetAtRiskDeals(deals[1..]), (x: MockDeal) => x.accountId == accountId);
    }
  }

  /** A contact six calendar days back always needs attention; one on the
      current UTC day never does unless the account waffles. */
  lemma AttentionByContactAge(a: MockAccount, now: int)
    ensures a.lastContactDay <= UtcDay(now) - 6 ==> NeedsAttention(a, now)
    ensures a.lastContactDay == UtcDay(now) ==> (NeedsAttention(a, now) <==> a.wafflingScore > 50)
  {
  }
}
