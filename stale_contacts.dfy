/** The `stale-contacts` edge function: the accounts never contacted or last
    contacted more than `days_threshold` days ago (never-contacted first, then
    oldest contact), each with the count and value of its active deals and a
    composite priority score, sorted by that score, highest first. It writes
    nothing. */
module StaleContacts {
  import opened Crm
  import opened Seqs

  /** One `dealsByAccount` entry. */
  datatype Agg = Agg(count: nat, value: int)

  /** One entry of the response's `stale_contacts` list. */
  datatype StaleContact = StaleContact(
    accountId: string,
    companyName: string,
    contactName: Option<string>,
    contactEmail: Option<string>,
    contactPhone: Option<string>,
    city: Option<string>,
    lastContactDay: Option<int>,
    daysSinceContact: Option<int>,
    wafflingScore: Option<int>,
    decisionCertainty: Option<Certainty>,
    activeDealsCount: nat,
    activeDealsValue: int,
    priorityScore: int)

  datatype StaleResponse = StaleResponse(thresholdDays: int, staleContactsCount: nat, staleContacts: seq<StaleContact>)

  /** The threshold when the request does not set one. */
  const DefaultThreshold: int := 5

  // ---------------------------------------------------------------------
  // The accounts query

  /** `last_contact_date.is.null,last_contact_date.lt.<cutoff>` with the cutoff
      the UTC date of `now - threshold` days. */
  predicate IsStale(a: Account, now: int, threshold: int)
  {
    a.lastContactDay.None? || a.lastContactDay.value < UtcDay(now - threshold * DayMs)
  }

  function ContactKey(a: Account): int
  {
    a.lastContactDay.GetOr(0)
  }

  /** `.order("last_contact_date", { ascending: true, nullsFirst: true })`:
      the never-contacted accounts in table order, then the others by
      ascending contact date (ties in table order). */
  function StaleAccounts(accounts: seq<Account>, now: int, threshold: int): (r: seq<Account>)
    ensures forall a :: a in r <==>
              a in accounts && (a.lastContactDay.None? || a.lastContactDay.value < UtcDay(now) - threshold)
    ensures multiset(r) == multiset(Filter(accounts, (a: Account) => IsStale(a, now, threshold)))
    ensures forall i, j :: 0 <= i < j < |r| && r[i].lastContactDay.Some? ==>
              r[j].lastContactDay.Some? && r[i].lastContactDay.value <= r[j].lastContactDay.value
  {
    UtcDayShift(now, -threshold);
    var never := Filter(accounts, (a: Account) => a.lastContactDay.None?);
    var contacted := Filter(accounts, (a: Account) => a.lastContactDay.Some? && IsStale(a, now, threshold));
    var sorted := SortBy(contacted, ContactKey);
    FilterPartition(accounts, (a: Account) => a.lastContactDay.None?,
                    (a: Account) => a.lastContactDay.Some? && IsStale(a, now, threshold),
                    (a: Account) => IsStale(a, now, threshold));
    SortPermutes(contacted, ContactKey);
    SortSorted(contacted, ContactKey);
    NullsFirst(never, sorted);
    never + sorted
  }

  /** Never-contacted rows, then contacted rows by ascending date: a dated row
      is followed only by dated rows, none earlier. */
  lemma NullsFirst(never: seq<Account>, contacted: seq<Account>)
    requires forall a :: a in never ==> a.lastContactDay.None?
    requires forall a :: a in contacted ==> a.lastContactDay.Some?
    requires SortedBy(contacted, ContactKey)
    ensures var r := never + contacted;
      forall i, j :: 0 <= i < j < |r| && r[i].lastContactDay.Some? ==>
        r[j].lastContactDay.Some? && r[i].lastContactDay.value <= r[j].lastContactDay.value
  {
  }

  // ---------------------------------------------------------------------
  // The deals query and the grouping

  /** `.in("account_id", accountIds).not("stage", "in", "(signed,lost)")`. */
  function FetchedDeals(deals: seq<Deal>, accountIds: seq<string>): seq<Deal>
  {
    Filter(deals, (d: Deal) => d.accountId in accountIds && IsActive(d.stage))
  }

  function AccountIds(accounts: seq<Account>): (ids: seq<string>)
    ensures |ids| == |accounts| && forall i :: 0 <= i < |accounts| ==> ids[i] == accounts[i].id
  {
    seq(|accounts|, i requires 0 <= i < |accounts| => accounts[i].id)
  }

  /** The deals of one account, in order. */
  function DealsOf(deals: seq<Deal>, accountId: string): seq<Deal>
  {
    Filter(deals, (d: Deal) => d.accountId == accountId)
  }

  function DealValue(d: Deal): int
  {
    d.value
  }

  /** What the grouping holds for an account: the number and total value of its deals. */
  function GroupOf(deals: seq<Deal>, accountId: string): Agg
  {
    var mine := DealsOf(deals, accountId);
    Agg(|mine|, SumOf(mine, DealValue))
  }

  /** The grouping loop (`stale-contacts/index.ts` lines 55-62): a dictionary entry per account
      with a fetched deal, counting the deals and summing their values. */
  method GroupDeals(deals: seq<Deal>) returns (dealsByAccount: map<string, Agg>)
    ensures forall id :: id in dealsByAccount <==> DealsOf(deals, id) != []
    ensures forall id :: id in dealsByAccount ==> dealsByAccount[id] == GroupOf(deals, id)
  {
    dealsByAccount := map[];
    var i := 0;
    while i < |deals|
      invariant 0 <= i <= |deals|
      invariant forall id :: id in dealsByAccount <==> Tally(deals[..i], id).count > 0
      invariant forall id :: id in dealsByAccount ==> dealsByAccount[id] == Tally(deals[..i], id)
    {
      var deal := deals[i];
      assert deals[..i + 1][..i] == deals[..i];
      if deal.accountId !in dealsByAccount {
        dealsByAccount := dealsByAccount[deal.accountId := Agg(0, 0)];
      }
      var agg := dealsByAccount[deal.accountId];
      dealsByAccount := dealsByAccount[deal.accountId := Agg(agg.count + 1, agg.value + DealValue(deal))];
      i := i + 1;
    }
    assert deals[..i] == deals;
    forall id
      ensures Tally(deals, id) == GroupOf(deals, id)
    {
      TallyIsGroupOf(deals, id);
    }
  }

  /** The running count and total of an account's deals, one deal at a time. */
  function Tally(deals: seq<Deal>, accountId: string): (t: Agg)
    ensures t.count == 0 ==> t.value == 0
    decreases |deals|
  {
    if deals == [] then Agg(0, 0)
    else GroupStep(Tally(deals[..|deals| - 1], accountId), deals[|deals| - 1], accountId)
  }

  /** The running tally ends at the account's deal count and value. */
  lemma {:induction false} TallyIsGroupOf(deals: seq<Deal>, accountId: string)
    ensures Tally(deals, accountId) == GroupOf(deals, accountId)
    decreases |deals|
  {
    if deals != [] {
      var n := |deals| - 1;
      TallyIsGroupOf(deals[..n], accountId);
      assert deals == deals[..n] + [deals[n]];
      GroupSnoc(deals[..n], deals[n], accountId);
    }
  }

  /** What one more deal does to an account's entry. */
  function GroupStep(agg: Agg, d: Deal, accountId: string): Agg
  {
    if d.accountId == accountId then Agg(agg.count + 1, agg.value + DealValue(d)) else agg
  }

  lemma GroupSnoc(deals: seq<Deal>, d: Deal, accountId: string)
    ensures (DealsOf(deals + [d], accountId) != []) == (DealsOf(deals, accountId) != [] || d.accountId == accountId)
    ensures GroupOf(deals + [d], accountId) == GroupStep(GroupOf(deals, accountId), d, accountId)
    ensures DealsOf(deals, accountId) == [] ==> GroupOf(deals, accountId) == Agg(0, 0)
  {
    FilterSnoc(deals, d, (x: Deal) => x.accountId == accountId);
    if d.accountId == accountId {
      SumOfSnoc(DealsOf(deals, accountId), d, DealValue);
    } else {
      assert DealsOf(deals + [d], accountId) == DealsOf(deals, accountId);
    }
  }

  /** `dealsByAccount[id] || { count: 0, value: 0 }`. */
  function Lookup(dealsByAccount: map<string, Agg>, accountId: string): Agg
  {
    if accountId in dealsByAccount then dealsByAccount[accountId] else Agg(0, 0)
  }

  /** An account's active deals, among all the deals of the table. */
  function ActiveDealsOf(deals: seq<Deal>, accountId: string): seq<Deal>
  {
    Filter(deals, (d: Deal) => d.accountId == accountId && IsActive(d.stage))
  }

  /** For a listed account, the grouped deals are exactly its active deals. */
  lemma {:induction false} GroupedDealsAreActiveDeals(deals: seq<Deal>, accountIds: seq<string>, accountId: string)
    requires accountId in accountIds
    ensures DealsOf(FetchedDeals(deals, accountIds), accountId) == ActiveDealsOf(deals, accountId)
  {
    if deals != [] {
      GroupedDealsAreActiveDeals(deals[1..], accountIds, accountId);
      var first := if deals[0].accountId in accountIds && IsActive(deals[0].stage) then [deals[0]] else [];
      FilterAppend(first, FetchedDeals(deals[1..], accountIds), (d: Deal) => d.accountId == accountId);
    }
  }

  // ---------------------------------------------------------------------
  // The priority score

  /** 50 when never contacted, else `min(2 * days, 40)`. */
  function RecencyPoints(daysSinceContact: Option<int>): int
  {
    if daysSinceContact.None? then 50 else Min(daysSinceContact.value * 2, 40)
  }

  /** 15 for at_risk, 5 for leaning, else 0. */
  function CertaintyPoints(c: Option<Certainty>): int
  {
    if c == Some(AtRisk) then 15 else if c == Some(Leaning) then 5 else 0
  }

  /** `Math.round(recency + 0.3 * waffling + (value > 0 ? 20 : 0) + certainty)`,
      computed exactly in tenths of a point. */
  function Priority(daysSinceContact: Option<int>, waffling: Option<int>, dealsValue: int, c: Option<Certainty>): int
  {
    var tenths := 10 * RecencyPoints(daysSinceContact) + 3 * waffling.GetOr(0)
                  + 10 * (if dealsValue > 0 then 20 else 0) + 10 * CertaintyPoints(c);
    RoundRatio(tenths, 10)
  }

  /** The `priorityScore +=` accumulation (`stale-contacts/index.ts` lines 74-83, 98), in tenths
      of a point so that `0.3 * waffling_score` is exact. */
  method PriorityScore(daysSinceContact: Option<int>, waffling: Option<int>, dealsValue: int, c: Option<Certainty>)
    returns (score: int)
    ensures score == Priority(daysSinceContact, waffling, dealsValue, c)
  {
    var priorityScore := 0;
    if daysSinceContact.None? {
      priorityScore := priorityScore + 500;
    } else {
      priorityScore := priorityScore + 10 * Min(daysSinceContact.value * 2, 40);
    }
    priorityScore := priorityScore + 3 * waffling.GetOr(0);
    priorityScore := priorityScore + (if dealsValue > 0 then 200 else 0);
    if c == Some(AtRisk) {
      priorityScore := priorityScore + 150;
    }
    if c == Some(Leaning) {
      priorityScore := priorityScore + 50;
    }
    score := RoundRatio(priorityScore, 10);
  }

  // ---------------------------------------------------------------------
  // The list

  /** The `.map` body for one listed account. */
  function EntryFor(a: Account, agg: Agg, now: int): (e: StaleContact)
    ensures e.accountId == a.id && e.lastContactDay == a.lastContactDay
    ensures e.companyName == a.companyName && e.contactName == a.contactName
    ensures e.contactEmail == a.contactEmail && e.contactPhone == a.contactPhone && e.city == a.city
    ensures e.wafflingScore == a.wafflingScore && e.decisionCertainty == a.decisionCertainty
    ensures e.daysSinceContact.None? <==> a.lastContactDay.None?
    ensures a.lastContactDay.Some? ==> e.daysSinceContact == Some(UtcDay(now) - a.lastContactDay.value)
    ensures e.activeDealsCount == agg.count && e.activeDealsValue == agg.value
    ensures e.priorityScore == Priority(e.daysSinceContact, a.wafflingScore, agg.value, a.decisionCertainty)
  {
    var daysSinceContact := DaysSinceContact(a.lastContactDay, now);
    StaleContact(a.id, a.companyName, a.contactName, a.contactEmail, a.contactPhone, a.city,
                 a.lastContactDay, daysSinceContact, a.wafflingScore, a.decisionCertainty,
                 agg.count, agg.value, Priority(daysSinceContact, a.wafflingScore, agg.value, a.decisionCertainty))
  }

  /** The unsorted entries, one per listed account. */
  function Entries(stale: seq<Account>, fetched: seq<Deal>, now: int): (es: seq<StaleContact>)
    ensures |es| == |stale|
    ensures forall i :: 0 <= i < |stale| ==> es[i] == EntryFor(stale[i], GroupOf(fetched, stale[i].id), now)
  {
    seq(|stale|, i requires 0 <= i < |stale| => EntryFor(stale[i], GroupOf(fetched, stale[i].id), now))
  }

  /** `.sort((a, b) => b.priority_score - a.priority_score)`: ascending by the negated score. */
  function ByPriorityDesc(e: StaleContact): int
  {
    -e.priorityScore
  }

  /** The response the job builds when both reads succeed. */
  function Report(accounts: seq<Account>, deals: seq<Deal>, body: RequestBody, now: int): (r: StaleResponse)
    ensures r.thresholdDays == DaysThreshold(body, DefaultThreshold)
    ensures r.staleContactsCount == |r.staleContacts| == |StaleAccounts(accounts, now, r.thresholdDays)|
    ensures forall i, j :: 0 <= i < j < |r.staleContacts| ==> r.staleContacts[i].priorityScore >= r.staleContacts[j].priorityScore
  {
    var threshold := DaysThreshold(body, DefaultThreshold);
    var stale := StaleAccounts(accounts, now, threshold);
    var fetched := FetchedDeals(deals, AccountIds(stale));
    var entries := Entries(stale, fetched, now);
    var sorted := SortBy(entries, ByPriorityDesc);
    SortSorted(entries, ByPriorityDesc);
    StaleResponse(threshold, |sorted|, sorted)
  }

  /** The whole job. A failed read of either table is the job's error. */
  method Run(accounts: seq<Account>, deals: seq<Deal>, body: RequestBody, now: int,
             accountsError: Option<string>, dealsError: Option<string>)
    returns (r: JobResult<StaleResponse>)
    ensures accountsError.Some? ==> r == Failed(accountsError.value)
    ensures accountsError.None? && dealsError.Some? ==> r == Failed(dealsError.value)
    ensures accountsError.None? && dealsError.None? ==> r == Done(Report(accounts, deals, body, now))
  {
    var threshold := DaysThreshold(body, DefaultThreshold);
    if accountsError.Some? {
      return Failed(accountsError.value);
    }
    var stale := StaleAccounts(accounts, now, threshold);
    var fetched := FetchedDeals(deals, AccountIds(stale));
    if dealsError.Some? {
      return Failed(dealsError.value);
    }
    var dealsByAccount := GroupDeals(fetched);
    var entries := seq(|stale|, i requires 0 <= i < |stale| => EntryFor(stale[i], Lookup(dealsByAccount, stale[i].id), now));
    assert entries == Entries(stale, fetched, now);
    var sorted := SortBy(entries, ByPriorityDesc);
    r := Done(StaleResponse(threshold, |sorted|, sorted));
  }

  // ---------------------------------------------------------------------
  // Properties

  /** The listed entries are exactly the entries of the stale accounts, and
      every day count is past the threshold. */
  lemma ReportEntries(accounts: seq<Account>, deals: seq<Deal>, body: RequestBody, now: int)
    ensures var r := Report(accounts, deals, body, now);
      var stale := StaleAccounts(accounts, now, r.thresholdDays);
      && multiset(r.staleContacts) == multiset(Entries(stale, FetchedDeals(deals, AccountIds(stale)), now))
      && forall e :: e in r.staleContacts && e.daysSinceContact.Some? ==> e.daysSinceContact.value >= r.thresholdDays + 1
  {
    var threshold := DaysThreshold(body, DefaultThreshold);
    var stale := StaleAccounts(accounts, now, threshold);
    var entries := Entries(stale, FetchedDeals(deals, AccountIds(stale)), now);
    SortPermutes(entries, ByPriorityDesc);
    forall e | e in Report(accounts, deals, body, now).staleContacts && e.daysSinceContact.Some?
      ensures e.daysSinceContact.value >= threshold + 1
    {
      var i :| 0 <= i < |entries| && entries[i] == e;
      assert stale[i] in stale;
    }
  }

  /** Entries with equal scores keep the query order (stable sort): for every
      sort key `k`, that is every priority `-k`, the ranked entries with that
      key are the query-ordered entries with that key. */
  lemma TiesKeepQueryOrder(accounts: seq<Account>, deals: seq<Deal>, body: RequestBody, now: int, k: int)
    ensures var stale := StaleAccounts(accounts, now, DaysThreshold(body, DefaultThreshold));
      WithKey(Report(accounts, deals, body, now).staleContacts, ByPriorityDesc, k)
        == WithKey(Entries(stale, FetchedDeals(deals, AccountIds(stale)), now), ByPriorityDesc, k)
  {
    var stale := StaleAccounts(accounts, now, DaysThreshold(body, DefaultThreshold));
    ReportSortsEntries(accounts, deals, body, now);
    RankingStable(Entries(stale, FetchedDeals(deals, AccountIds(stale)), now), Report(accounts, deals, body, now).staleContacts, k);
  }

  /** The ranking keeps the order of the entries of one priority. */
  lemma RankingStable(entries: seq<StaleContact>, ranked: seq<StaleContact>, k: int)
    requires ranked == SortBy(entries, ByPriorityDesc)
    ensures WithKey(ranked, ByPriorityDesc, k) == WithKey(entries, ByPriorityDesc, k)
  {
    SortStable(entries, ByPriorityDesc, k);
  }

  /** The ranked list is the entries sorted by descending priority. */
  lemma ReportSortsEntries(accounts: seq<Account>, deals: seq<Deal>, body: RequestBody, now: int)
    ensures var stale := StaleAccounts(accounts, now, DaysThreshold(body, DefaultThreshold));
      Report(accounts, deals, body, now).staleContacts
        == SortBy(Entries(stale, FetchedDeals(deals, AccountIds(stale)), now), ByPriorityDesc)
  {
  }

  /** A listed account's count and value are those of its active deals; an
      account without active deals gets zero and zero. */
  lemma ListedAccountDeals(accounts: seq<Account>, deals: seq<Deal>, now: int, threshold: int, i: int)
    requires 0 <= i < |StaleAccounts(accounts, now, threshold)|
    ensures var stale := StaleAccounts(accounts, now, threshold);
      var e := Entries(stale, FetchedDeals(deals, AccountIds(stale)), now)[i];
      var mine := ActiveDealsOf(deals, stale[i].id);
      && e.activeDealsCount == |mine| && e.activeDealsValue == SumOf(mine, DealValue)
      && (mine == [] ==> e.activeDealsCount == 0 && e.activeDealsValue == 0)
  {
    var stale := StaleAccounts(accounts, now, threshold);
    assert AccountIds(stale)[i] == stale[i].id;
    GroupedDealsAreActiveDeals(deals, AccountIds(stale), stale[i].id);
  }

  /** With a non-negative day count and a waffling score in 0..100 the
      priority lies in 0..115. */
  lemma PriorityRange(daysSinceContact: Option<int>, waffling: Option<int>, dealsValue: int, c: Option<Certainty>)
    requires daysSinceContact.Some? ==> daysSinceContact.value >= 0
    requires waffling.Some? ==> 0 <= waffling.value <= 100
    ensures 0 <= Priority(daysSinceContact, waffling, dealsValue, c) <= 115
  {
  }

  /** Raising the waffling score alone never lowers the priority. */
  lemma PriorityMonotoneInWaffling(daysSinceContact: Option<int>, w1: int, w2: int, dealsValue: int, c: Option<Certainty>)
    requires w1 <= w2
    ensures Priority(daysSinceContact, Some(w1), dealsValue, c) <= Priority(daysSinceContact, Some(w2), dealsValue, c)
  {
  }

  /** A never-contacted account outscores an otherwise identical contacted one. */
  lemma NeverContactedOutranks(days: int, waffling: Option<int>, dealsValue: int, c: Option<Certainty>)
    ensures Priority(None, waffling, dealsValue, c) > Priority(Some(days), waffling, dealsValue, c)
  {
  }

  /** The deal bonus: any positive deal value adds exactly 20 points, and a
      value of 0 or less adds none; the deal count plays no part. */
  lemma DealBonusNeedsValue(daysSinceContact: Option<int>, waffling: Option<int>, dealsValue: int, c: Option<Certainty>)
    ensures Priority(daysSinceContact, waffling, dealsValue, c)
         == Priority(daysSinceContact, waffling, 0, c) + (if dealsValue > 0 then 20 else 0)
  {
  }
}
