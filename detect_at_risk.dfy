/** The `detect-at-risk` edge function: every deal outside {signed, lost},
    joined with its account, is flagged at risk when at least one of four rules
    fires (stale activity, high waffling score, an at-risk account, a cold
    prospect). Only deals whose stored `is_at_risk` differs from the computed
    flag are queued, and the queue is written back one row at a time, counting
    the writes that reported no error. */
module DetectAtRisk {
  import opened Crm
  import opened Seqs
  import opened Store

  /** A row of `deals.select("*, accounts(*)")`: the deal and its joined
      account, absent when no account has the deal's `account_id`. */
  datatype DealRow = DealRow(deal: Deal, account: Option<Account>)

  /** One entry of the response's `updates` list. */
  datatype FlagUpdate = FlagUpdate(id: string, isAtRisk: bool, reason: string)

  datatype AtRiskResponse = AtRiskResponse(dealsChecked: nat, dealsUpdated: nat, updates: seq<FlagUpdate>)

  // ---------------------------------------------------------------------
  // The query

  /** The first account row with the given id (the embedded `accounts(*)`). */
  function JoinAccount(accounts: seq<Account>, id: string): (a: Option<Account>)
    ensures a.Some? <==> exists k :: 0 <= k < |accounts| && accounts[k].id == id
    ensures a.Some? ==> a.value in accounts && a.value.id == id
  {
    if accounts == [] then None
    else if accounts[0].id == id then Some(accounts[0])
    else
      var rest := JoinAccount(accounts[1..], id);
      assert forall k :: 1 <= k < |accounts| ==> accounts[k] == accounts[1..][k - 1];
      rest
  }

  function JoinRow(d: Deal, accounts: seq<Account>): DealRow
  {
    DealRow(d, JoinAccount(accounts, d.accountId))
  }

  /** The deals outside {signed, lost} (`.not("stage", "in", "(signed,lost)")`),
      in table order, each joined with its account. */
  function QueryRows(deals: seq<Deal>, accounts: seq<Account>): (rows: seq<DealRow>)
    ensures |rows| == |Filter(deals, (d: Deal) => IsActive(d.stage))|
    ensures forall i :: 0 <= i < |rows| ==> rows[i] == JoinRow(Filter(deals, (d: Deal) => IsActive(d.stage))[i], accounts)
    ensures forall r :: r in rows ==> r.deal in deals && IsActive(r.deal.stage) && r == JoinRow(r.deal, accounts)
  {
    var active := Filter(deals, (d: Deal) => IsActive(d.stage));
    var rows := seq(|active|, i requires 0 <= i < |active| => JoinRow(active[i], accounts));
    assert forall r :: r in rows ==> exists i :: 0 <= i < |active| && r == JoinRow(active[i], accounts) && active[i] in active;
    rows
  }

  // ---------------------------------------------------------------------
  // The four rules

  /** Rule 1: a `last_activity_date` more than 10 whole days ago. */
  predicate StaleActivity(row: DealRow, now: int)
  {
    row.deal.lastActivity.Some? && DaysSince(now, row.deal.lastActivity.value) > 10
  }

  /** Rule 2: a joined account whose `waffling_score` is above 60 (null compares false). */
  predicate HighWaffling(row: DealRow)
  {
    row.account.Some? && row.account.value.wafflingScore.Some? && row.account.value.wafflingScore.value > 60
  }

  /** Rule 3: a joined account whose `decision_certainty` is at_risk. */
  predicate AccountMarkedAtRisk(row: DealRow)
  {
    row.account.Some? && row.account.value.decisionCertainty == Some(AtRisk)
  }

  /** Rule 4: probability below 30 (null read as 0) at the prospect stage. */
  predicate ColdProspect(row: DealRow)
  {
    row.deal.probability.GetOr(0) < 30 && row.deal.stage == Prospect
  }

  /** The flag the job computes: at least one rule fires. */
  predicate Flagged(row: DealRow, now: int)
  {
    StaleActivity(row, now) || HighWaffling(row) || AccountMarkedAtRisk(row) || ColdProspect(row)
  }

  function StaleMessage(days: int): string
  {
    "No activity for " + IntToString(days) + " days"
  }

  function WafflingMessage(score: int): string
  {
    "High waffling score: " + IntToString(score) + "%"
  }

  const MarkedMessage: string := "Account marked as at risk"
  const ProspectMessage: string := "Low probability prospect"

  /** The messages of the rules that fire, in rule order. */
  function Reasons(row: DealRow, now: int): (r: seq<string>)
    ensures r != [] <==> Flagged(row, now)
    ensures |r| <= 4
    ensures forall m :: m in r ==> |m| > 0
    ensures row.deal.lastActivity.None? && row.account.None? ==> r == (if ColdProspect(row) then [ProspectMessage] else [])
  {
    (if StaleActivity(row, now) then [StaleMessage(DaysSince(now, row.deal.lastActivity.value))] else [])
    + (if HighWaffling(row) then [WafflingMessage(row.account.value.wafflingScore.value)] else [])
    + (if AccountMarkedAtRisk(row) then [MarkedMessage] else [])
    + (if ColdProspect(row) then [ProspectMessage] else [])
  }

  /** The body of the first loop for one deal (`detect-at-risk/index.ts` lines 33-62): the flag
      starts false and every firing rule sets it and pushes its message. */
  method AssessDeal(row: DealRow, now: int) returns (isAtRisk: bool, reasons: seq<string>)
    ensures isAtRisk == Flagged(row, now)
    ensures reasons == Reasons(row, now)
  {
    isAtRisk := false;
    reasons := [];
    var deal := row.deal;
    if deal.lastActivity.Some? {
      var daysSinceActivity := DaysSince(now, deal.lastActivity.value);
      if daysSinceActivity > 10 {
        isAtRisk := true;
        reasons := reasons + [StaleMessage(daysSinceActivity)];
      }
    }
    if row.account.Some? && row.account.value.wafflingScore.Some? && row.account.value.wafflingScore.value > 60 {
      isAtRisk := true;
      reasons := reasons + [WafflingMessage(row.account.value.wafflingScore.value)];
    }
    if row.account.Some? && row.account.value.decisionCertainty == Some(AtRisk) {
      isAtRisk := true;
      reasons := reasons + [MarkedMessage];
    }
    if deal.probability.GetOr(0) < 30 && deal.stage == Prospect {
      isAtRisk := true;
      reasons := reasons + [ProspectMessage];
    }
  }

  // ---------------------------------------------------------------------
  // The queue

  /** A deal is queued when its stored flag differs from the computed one. */
  predicate IsQueued(row: DealRow, now: int)
  {
    row.deal.isAtRisk != Flagged(row, now)
  }

  /** The queued entry: the computed flag and the reasons joined by "; ",
      which is empty exactly when the flag is being cleared. */
  function UpdateFor(row: DealRow, now: int): (u: FlagUpdate)
    ensures u.id == row.deal.id && u.isAtRisk == Flagged(row, now)
    ensures u.reason == "" <==> !u.isAtRisk
  {
    var reasons := Reasons(row, now);
    FlagUpdate(row.deal.id, Flagged(row, now), Join(reasons, "; "))
  }

  /** The `updates` list the first loop builds, in row order. */
  function QueuedUpdates(rows: seq<DealRow>, now: int): (r: seq<FlagUpdate>)
    ensures |r| <= |rows|
  {
    if rows == [] then []
    else
      var n := |rows| - 1;
      QueuedUpdates(rows[..n], now) + (if IsQueued(rows[n], now) then [UpdateFor(rows[n], now)] else [])
  }

  /** The first loop (`detect-at-risk/index.ts` lines 32-72). */
  method ComputeUpdates(rows: seq<DealRow>, now: int) returns (updates: seq<FlagUpdate>)
    ensures updates == QueuedUpdates(rows, now)
    ensures forall u :: u in updates ==> (u.reason == "" <==> !u.isAtRisk)
  {
    updates := [];
    var i := 0;
    while i < |rows|
      invariant 0 <= i <= |rows|
      invariant updates == QueuedUpdates(rows[..i], now)
      invariant forall u :: u in updates ==> (u.reason == "" <==> !u.isAtRisk)
    {
      var isAtRisk, reasons := AssessDeal(rows[i], now);
      if rows[i].deal.isAtRisk != isAtRisk {
        updates := updates + [FlagUpdate(rows[i].deal.id, isAtRisk, Join(reasons, "; "))];
      }
      assert rows[..i + 1][..i] == rows[..i];
      i := i + 1;
    }
    assert rows[..i] == rows;
  }

  // ---------------------------------------------------------------------
  // Writing back

  /** The `deals` table after the second loop; the i-th write takes effect
      exactly when `ok(i)`. */
  function AfterWrites(rows: seq<Deal>, updates: seq<FlagUpdate>, ok: nat -> bool): (r: seq<Deal>)
    ensures |r| == |rows|
  {
    if updates == [] then rows
    else
      var n := |updates| - 1;
      var before := AfterWrites(rows, updates[..n], ok);
      if ok(n) then WithAtRiskFlag(before, updates[n].id, updates[n].isAtRisk) else before
  }

  /** The second loop (`detect-at-risk/index.ts` lines 75-86). */
  method ApplyUpdates(db: Database, updates: seq<FlagUpdate>, ok: nat -> bool) returns (updatedCount: nat)
    modifies db.deals
    ensures updatedCount == CountOk(ok, |updates|)
    ensures db.deals[..] == AfterWrites(old(db.deals[..]), updates, ok)
  {
    updatedCount := 0;
    var i := 0;
    while i < |updates|
      invariant 0 <= i <= |updates|
      invariant updatedCount == CountOk(ok, i)
      invariant db.deals[..] == AfterWrites(old(db.deals[..]), updates[..i], ok)
    {
      assert updates[..i + 1][..i] == updates[..i];
      if ok(i) {
        db.UpdateAtRiskFlag(updates[i].id, updates[i].isAtRisk);
        updatedCount := updatedCount + 1;
      }
      i := i + 1;
    }
    assert updates[..i] == updates;
  }

  /** The whole job. A failed read of the joined deals is the job's error. */
  method Run(db: Database, now: int, dealsError: Option<string>, ok: nat -> bool)
    returns (r: JobResult<AtRiskResponse>)
    modifies db.deals
    ensures dealsError.Some? ==> r == Failed(dealsError.value) && db.deals[..] == old(db.deals[..])
    ensures dealsError.None? ==>
      var rows := QueryRows(old(db.deals[..]), db.accounts[..]);
      var updates := QueuedUpdates(rows, now);
      && r == Done(AtRiskResponse(|rows|, CountOk(ok, |updates|), updates))
      && db.deals[..] == AfterWrites(old(db.deals[..]), updates, ok)
      && r.response.dealsUpdated <= |r.response.updates| <= r.response.dealsChecked
  {
    if dealsError.Some? {
      return Failed(dealsError.value);
    }
    var rows := QueryRows(db.deals[..], db.accounts[..]);
    var updates := ComputeUpdates(rows, now);
    var updatedCount := ApplyUpdates(db, updates, ok);
    r := Done(AtRiskResponse(|rows|, updatedCount, updates));
  }

  // ---------------------------------------------------------------------
  // Properties

  /** Every queued update comes from a queued row and carries its flag. */
  lemma {:induction false} QueuedUpdatesFrom(rows: seq<DealRow>, now: int, i: int)
    requires 0 <= i < |QueuedUpdates(rows, now)|
    ensures exists k :: 0 <= k < |rows| && IsQueued(rows[k], now)
                        && QueuedUpdates(rows, now)[i] == UpdateFor(rows[k], now)
  {
    var n := |rows| - 1;
    var prefix := QueuedUpdates(rows[..n], now);
    if i < |prefix| {
      QueuedUpdatesFrom(rows[..n], now, i);
      var k :| 0 <= k < n && IsQueued(rows[..n][k], now) && prefix[i] == UpdateFor(rows[..n][k], now);
      assert rows[..n][k] == rows[k];
    } else {
      assert IsQueued(rows[n], now);
    }
  }

  /** Every queued row has its update in the list. */
  lemma {:induction false} QueuedRowListed(rows: seq<DealRow>, now: int, k: int)
    requires 0 <= k < |rows| && IsQueued(rows[k], now)
    ensures UpdateFor(rows[k], now) in QueuedUpdates(rows, now)
  {
    var n := |rows| - 1;
    if k < n {
      QueuedRowListed(rows[..n], now, k);
      assert rows[..n][k] == rows[k];
    }
  }

  /** The queue is empty exactly when every stored flag agrees with the computed one. */
  lemma QueueEmptyIffAgreeing(rows: seq<DealRow>, now: int)
    ensures QueuedUpdates(rows, now) == [] <==> forall k :: 0 <= k < |rows| ==> rows[k].deal.isAtRisk == Flagged(rows[k], now)
  {
    if QueuedUpdates(rows, now) != [] {
      QueuedUpdatesFrom(rows, now, 0);
    }
    forall k | 0 <= k < |rows| && IsQueued(rows[k], now) ensures QueuedUpdates(rows, now) != [] {
      QueuedRowListed(rows, now, k);
    }
  }

  /** What the writes do to one row: it is untouched unless a successful write
      carried its id, and then it holds the flag of one such write. */
  lemma {:induction false} AfterWritesRow(rows: seq<Deal>, updates: seq<FlagUpdate>, ok: nat -> bool, j: int)
    requires 0 <= j < |rows|
    ensures var after := AfterWrites(rows, updates, ok);
      && (after[j] == rows[j]
          || exists i :: 0 <= i < |updates| && ok(i) && updates[i].id == rows[j].id
                         && after[j] == rows[j].(isAtRisk := updates[i].isAtRisk))
      && ((exists i :: 0 <= i < |updates| && ok(i) && updates[i].id == rows[j].id) ==>
          exists i :: 0 <= i < |updates| && ok(i) && updates[i].id == rows[j].id
                      && after[j] == rows[j].(isAtRisk := updates[i].isAtRisk))
  {
    if updates != [] {
      var n := |updates| - 1;
      AfterWritesRow(rows, updates[..n], ok, j);
      var before := AfterWrites(rows, updates[..n], ok);
      assert forall i :: 0 <= i < n ==> updates[..n][i] == updates[i];
      if ok(n) && updates[n].id == rows[j].id {
        assert before[j].id == rows[j].id;
      }
    }
  }

  /** With unique deal ids, an update carrying the id of deal `j` was computed
      from that deal: the deal is active and the update holds its flag. */
  lemma UpdateBelongsToDeal(deals: seq<Deal>, accounts: seq<Account>, now: int, i: int, j: int)
    requires UniqueIds(deals, (d: Deal) => d.id)
    requires 0 <= j < |deals|
    requires 0 <= i < |QueuedUpdates(QueryRows(deals, accounts), now)|
    requires QueuedUpdates(QueryRows(deals, accounts), now)[i].id == deals[j].id
    ensures IsActive(deals[j].stage)
    ensures QueuedUpdates(QueryRows(deals, accounts), now)[i].isAtRisk == Flagged(JoinRow(deals[j], accounts), now)
  {
    var rows := QueryRows(deals, accounts);
    QueuedUpdatesFrom(rows, now, i);
    var k :| 0 <= k < |rows| && IsQueued(rows[k], now) && QueuedUpdates(rows, now)[i] == UpdateFor(rows[k], now);
    assert rows[k] in rows;
    var j' :| 0 <= j' < |deals| && deals[j'] == rows[k].deal;
    assert j' == j;
  }

  /** Terminal deals are never examined, so their stored rows never change. */
  lemma TerminalDealsUntouched(deals: seq<Deal>, accounts: seq<Account>, now: int, ok: nat -> bool, j: int)
    requires UniqueIds(deals, (d: Deal) => d.id)
    requires 0 <= j < |deals| && !IsActive(deals[j].stage)
    ensures AfterWrites(deals, QueuedUpdates(QueryRows(deals, accounts), now), ok)[j] == deals[j]
  {
    var updates := QueuedUpdates(QueryRows(deals, accounts), now);
    AfterWritesRow(deals, updates, ok, j);
    if exists i :: 0 <= i < |updates| && ok(i) && updates[i].id == deals[j].id {
      var i :| 0 <= i < |updates| && ok(i) && updates[i].id == deals[j].id;
      UpdateBelongsToDeal(deals, accounts, now, i, j);
    }
  }

  /** After the job every active deal's stored flag is its computed flag, when
      every write succeeded. */
  lemma WrittenFlagsAgree(deals: seq<Deal>, accounts: seq<Account>, now: int, ok: nat -> bool, j: int)
    requires UniqueIds(deals, (d: Deal) => d.id)
    requires forall i :: 0 <= i < |QueuedUpdates(QueryRows(deals, accounts), now)| ==> ok(i)
    requires 0 <= j < |deals| && IsActive(deals[j].stage)
    ensures var after := AfterWrites(deals, QueuedUpdates(QueryRows(deals, accounts), now), ok);
      && after[j] == deals[j].(isAtRisk := after[j].isAtRisk)
      && after[j].isAtRisk == Flagged(JoinRow(deals[j], accounts), now)
  {
    var rows := QueryRows(deals, accounts);
    var updates := QueuedUpdates(rows, now);
    var after := AfterWrites(deals, updates, ok);
    AfterWritesRow(deals, updates, ok, j);
    if after[j] != deals[j] {
      var i :| 0 <= i < |updates| && ok(i) && updates[i].id == deals[j].id
               && after[j] == deals[j].(isAtRisk := updates[i].isAtRisk);
      UpdateBelongsToDeal(deals, accounts, now, i, j);
    } else if IsQueued(JoinRow(deals[j], accounts), now) {
      var active := Filter(deals, (d: Deal) => IsActive(d.stage));
      assert deals[j] in active;
      var k :| 0 <= k < |active| && active[k] == deals[j];
      assert rows[k] == JoinRow(deals[j], accounts);
      QueuedRowListed(rows, now, k);
      var i :| 0 <= i < |updates| && updates[i] == UpdateFor(rows[k], now);
      assert ok(i) && updates[i].id == deals[j].id;
      var i' :| 0 <= i' < |updates| && ok(i') && updates[i'].id == deals[j].id
                && after[j] == deals[j].(isAtRisk := updates[i'].isAtRisk);
      UpdateBelongsToDeal(deals, accounts, now, i', j);
    }
  }

  /** Re-running at the same instant on the written-back table, after every
      write succeeded, queues nothing. */
  lemma RerunQueuesNothing(deals: seq<Deal>, accounts: seq<Account>, now: int, ok: nat -> bool)
    requires UniqueIds(deals, (d: Deal) => d.id)
    requires forall i :: 0 <= i < |QueuedUpdates(QueryRows(deals, accounts), now)| ==> ok(i)
    ensures QueuedUpdates(QueryRows(AfterWrites(deals, QueuedUpdates(QueryRows(deals, accounts), now), ok), accounts), now) == []
  {
    var after := AfterWrites(deals, QueuedUpdates(QueryRows(deals, accounts), now), ok);
    var rows' := QueryRows(after, accounts);
    forall k | 0 <= k < |rows'| ensures rows'[k].deal.isAtRisk == Flagged(rows'[k], now) {
      assert rows'[k] in rows';
      var j :| 0 <= j < |after| && after[j] == rows'[k].deal;
      AfterWritesRow(deals, QueuedUpdates(QueryRows(deals, accounts), now), ok, j);
      assert IsActive(deals[j].stage);
      WrittenFlagsAgree(deals, accounts, now, ok, j);
    }
    QueueEmptyIffAgreeing(rows', now);
  }
}
