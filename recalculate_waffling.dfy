/** The `recalculate-waffling` edge function: a per-account hesitation score made
    of four capped factors (contact recency, decision certainty, stalled active
    deals, email reply rate), capped at 100; accounts whose score moved by at
    least 5 are queued, and the queue is written back one row at a time, counting
    the writes that reported no error. */
module RecalculateWaffling {
  import opened Crm
  import opened Seqs
  import opened Store

  /** One entry of the response's `updates` list. */
  datatype ScoreUpdate = ScoreUpdate(id: string, oldScore: int, newScore: int)

  datatype WafflingResponse = WafflingResponse(accountsChecked: nat, accountsUpdated: nat, updates: seq<ScoreUpdate>)

  // ---------------------------------------------------------------------
  // Factor 1: days since last contact (0-30 points)

  /** `min(daysSinceContact * 2, 30)`, or 30 when the account was never contacted. */
  function RecencyFactor(lastContactDay: Option<int>, now: int): (f: int)
    ensures f <= 30
    ensures lastContactDay.None? ==> f == 30
    ensures lastContactDay.Some? ==> (f == 30 <==> UtcDay(now) - lastContactDay.value >= 15)
    ensures lastContactDay.Some? && f < 30 ==> f == 2 * (UtcDay(now) - lastContactDay.value)
    ensures f >= 0 <==> lastContactDay.None? || lastContactDay.value <= UtcDay(now)
  {
    match lastContactDay
    case None => 30
    case Some(day) =>
      DaysSinceMidnight(now, day);
      Min(DaysSince(now, Midnight(day)) * 2, 30)
  }

  // ---------------------------------------------------------------------
  // Factor 2: decision certainty (0-25 points)

  /** The `certaintyScores` record. */
  function CertaintyTable(c: Certainty): int
  {
    match c
    case Firm => 0
    case Leaning => 10
    case Waffling => 20
    case AtRisk => 25
  }

  /** `certaintyScores[certainty || "leaning"] || 10`. Firm's table value 0 is
      falsy, so firm falls through to 10 like leaning and a missing certainty. */
  function CertaintyFactor(c: Option<Certainty>): (f: int)
    ensures f == 20 <==> c == Some(Waffling)
    ensures f == 25 <==> c == Some(AtRisk)
    ensures f == 10 <==> c != Some(Waffling) && c != Some(AtRisk)
  {
    var v := CertaintyTable(c.GetOr(Leaning));
    if v == 0 then 10 else v
  }

  // ---------------------------------------------------------------------
  // Factor 3: deal activity (0-25 points)

  /** The account's deals that are neither signed nor lost. */
  function ActiveDealsOf(accountId: string, deals: seq<Deal>): seq<Deal>
  {
    Filter(deals, (d: Deal) => d.accountId == accountId && IsActive(d.stage))
  }

  /** No `last_activity_date`, or more than 7 whole days since it. */
  predicate Stalled(d: Deal, now: int)
  {
    d.lastActivity.None? || DaysSince(now, d.lastActivity.value) > 7
  }

  function StalledDeals(active: seq<Deal>, now: int): seq<Deal>
  {
    Filter(active, (d: Deal) => Stalled(d, now))
  }

  /** 25 without an active deal, else `min(stalledCount * 10, 25)`. */
  function DealFactor(accountId: string, deals: seq<Deal>, now: int): (f: int)
    ensures 0 <= f <= 25
    ensures ActiveDealsOf(accountId, deals) == [] ==> f == 25
    ensures ActiveDealsOf(accountId, deals) != [] ==>
              (f == 25 <==> |StalledDeals(ActiveDealsOf(accountId, deals), now)| >= 3)
    ensures f == 0 <==> ActiveDealsOf(accountId, deals) != [] && StalledDeals(ActiveDealsOf(accountId, deals), now) == []
    ensures ActiveDealsOf(accountId, deals) != [] ==> f == Min(10 * |StalledDeals(ActiveDealsOf(accountId, deals), now)|, 25)
    ensures f % 5 == 0
  {
    var active := ActiveDealsOf(accountId, deals);
    if |active| == 0 then 25 else Min(|StalledDeals(active, now)| * 10, 25)
  }

  // ---------------------------------------------------------------------
  // Factor 4: email engagement (0-20 points)

  /** At most 30 whole days old (an email dated in the future counts too). */
  predicate Recent(e: EmailSent, now: int)
  {
    DaysSince(now, e.createdAt) <= 30
  }

  function RecentEmailsOf(accountId: string, emails: seq<EmailSent>, now: int): seq<EmailSent>
  {
    Filter(emails, (e: EmailSent) => e.accountId == accountId && Recent(e, now))
  }

  function RepliedEmails(recent: seq<EmailSent>): seq<EmailSent>
  {
    Filter(recent, (e: EmailSent) => e.status == Replied)
  }

  /** 20 without a recent email, else `Math.round((1 - replied / recent) * 20)`. */
  function EmailFactor(accountId: string, emails: seq<EmailSent>, now: int): (f: int)
    ensures 0 <= f <= 20
    ensures RecentEmailsOf(accountId, emails, now) == [] ==> f == 20
    ensures |RepliedEmails(RecentEmailsOf(accountId, emails, now))| == |RecentEmailsOf(accountId, emails, now)| > 0 ==> f == 0
    ensures RepliedEmails(RecentEmailsOf(accountId, emails, now)) == [] ==> f == 20
    ensures var q := |RecentEmailsOf(accountId, emails, now)|;
      var n := q - |RepliedEmails(RecentEmailsOf(accountId, emails, now))|;
      q > 0 ==> 2 * q * f - q <= 40 * n < 2 * q * f + q
  {
    var recent := RecentEmailsOf(accountId, emails, now);
    if |recent| == 0 then 20
    else
      var q := |recent|;
      var p := 20 * (q - |RepliedEmails(recent)|);
      RoundRatioBounds(p, q);
      RoundRatio(p, q)
  }

  /** Rounding a share of `20 * q` out of `q` stays within 0..20, and the two
      ends are exact. */
  lemma RoundRatioBounds(p: int, q: int)
    requires q > 0 && 0 <= p <= 20 * q
    ensures 0 <= RoundRatio(p, q) <= 20
    ensures p == 0 ==> RoundRatio(p, q) == 0
    ensures p == 20 * q ==> RoundRatio(p, q) == 20
  {
    var r := RoundRatio(p, q);
    if r < 0 {
      MulMono(q, r, -1);
      assert false;
    }
    if r > 20 {
      MulMono(q, 21, r);
      assert false;
    }
    if p == 0 && r > 0 {
      MulMono(q, 1, r);
      assert false;
    }
    if p == 20 * q && r < 20 {
      MulMono(q, r, 19);
      assert false;
    }
  }

  lemma MulMono(q: int, x: int, y: int)
    requires q > 0 && x <= y
    ensures q * x <= q * y
  {
  }

  // ---------------------------------------------------------------------
  // The score

  /** The sum of the four factors, capped at 100. */
  function WafflingScore(a: Account, deals: seq<Deal>, emails: seq<EmailSent>, now: int): (s: int)
    ensures s <= 100
    ensures a.lastContactDay.None? || a.lastContactDay.value <= UtcDay(now) ==> 0 <= s
  {
    Min(RecencyFactor(a.lastContactDay, now) + CertaintyFactor(a.decisionCertainty)
        + DealFactor(a.id, deals, now) + EmailFactor(a.id, emails, now), 100)
  }

  /** The stored score, with null read as 0 (`account.waffling_score || 0`). */
  function StoredScore(a: Account): int
  {
    a.wafflingScore.GetOr(0)
  }

  /** Queued when the new score is at least 5 away from the stored one. */
  predicate IsQueued(a: Account, deals: seq<Deal>, emails: seq<EmailSent>, now: int)
  {
    Abs(WafflingScore(a, deals, emails, now) - StoredScore(a)) >= 5
  }

  function UpdateFor(a: Account, deals: seq<Deal>, emails: seq<EmailSent>, now: int): ScoreUpdate
  {
    ScoreUpdate(a.id, StoredScore(a), WafflingScore(a, deals, emails, now))
  }

  /** The `updates` list the first loop builds, in account order. */
  function QueuedUpdates(accounts: seq<Account>, deals: seq<Deal>, emails: seq<EmailSent>, now: int): (r: seq<ScoreUpdate>)
    ensures |r| <= |accounts|
  {
    if accounts == [] then []
    else
      var n := |accounts| - 1;
      QueuedUpdates(accounts[..n], deals, emails, now)
        + (if IsQueued(accounts[n], deals, emails, now) then [UpdateFor(accounts[n], deals, emails, now)] else [])
  }

  /** The first loop (`recalculate-waffling/index.ts` lines 45-107): scores every account, accumulating
      the four factors into one variable, and queues the significant changes. */
  method ComputeUpdates(accounts: seq<Account>, deals: seq<Deal>, emails: seq<EmailSent>, now: int)
    returns (updates: seq<ScoreUpdate>)
    ensures updates == QueuedUpdates(accounts, deals, emails, now)
    ensures forall u :: u in updates ==> Abs(u.newScore - u.oldScore) >= 5 && u.newScore <= 100
  {
    updates := [];
    var i := 0;
    while i < |accounts|
      invariant 0 <= i <= |accounts|
      invariant updates == QueuedUpdates(accounts[..i], deals, emails, now)
      invariant forall u :: u in updates ==> Abs(u.newScore - u.oldScore) >= 5 && u.newScore <= 100
    {
      var account := accounts[i];
      var wafflingScore := 0;
      wafflingScore := wafflingScore + RecencyFactor(account.lastContactDay, now);
      wafflingScore := wafflingScore + CertaintyFactor(account.decisionCertainty);
      wafflingScore := wafflingScore + DealFactor(account.id, deals, now);
      wafflingScore := wafflingScore + EmailFactor(account.id, emails, now);
      wafflingScore := Min(wafflingScore, 100);
      var oldScore := StoredScore(account);
      if Abs(wafflingScore - oldScore) >= 5 {
        updates := updates + [ScoreUpdate(account.id, oldScore, wafflingScore)];
      }
      assert accounts[..i + 1][..i] == accounts[..i];
      i := i + 1;
    }
    assert accounts[..i] == accounts;
  }

  // ---------------------------------------------------------------------
  // Writing back

  /** The `accounts` table after the second loop; the i-th write takes effect
      exactly when `ok(i)`. */
  function AfterWrites(rows: seq<Account>, updates: seq<ScoreUpdate>, ok: nat -> bool): (r: seq<Account>)
    ensures |r| == |rows|
  {
    if updates == [] then rows
    else
      var n := |updates| - 1;
      var before := AfterWrites(rows, updates[..n], ok);
      if ok(n) then WithWafflingScore(before, updates[n].id, updates[n].newScore) else before
  }

  /** The second loop (`recalculate-waffling/index.ts` lines 110-121). */
  method ApplyUpdates(db: Database, updates: seq<ScoreUpdate>, ok: nat -> bool) returns (updatedCount: nat)
    modifies db.accounts
    ensures updatedCount == CountOk(ok, |updates|)
    ensures db.accounts[..] == AfterWrites(old(db.accounts[..]), updates, ok)
  {
    updatedCount := 0;
    var i := 0;
    while i < |updates|
      invariant 0 <= i <= |updates|
      invariant updatedCount == CountOk(ok, i)
      invariant db.accounts[..] == AfterWrites(old(db.accounts[..]), updates[..i], ok)
    {
      assert updates[..i + 1][..i] == updates[..i];
      if ok(i) {
        db.UpdateWafflingScore(updates[i].id, updates[i].newScore);
        updatedCount := updatedCount + 1;
      }
      i := i + 1;
    }
    assert updates[..i] == updates;
  }

  /** The whole job. A failed `accounts` read is the job's error; failed
      `deals` or `emails_sent` reads are not checked and read as empty. */
  method Run(db: Database, emailRows: seq<EmailSent>, now: int, accountsError: Option<string>,
             dealsReadOk: bool, emailsReadOk: bool, ok: nat -> bool)
    returns (r: JobResult<WafflingResponse>)
    modifies db.accounts
    ensures accountsError.Some? ==> r == Failed(accountsError.value) && db.accounts[..] == old(db.accounts[..])
    ensures accountsError.None? ==>
      var deals := if dealsReadOk then db.deals[..] else [];
      var emails := if emailsReadOk then emailRows else [];
      var updates := QueuedUpdates(old(db.accounts[..]), deals, emails, now);
      && r == Done(WafflingResponse(|old(db.accounts[..])|, CountOk(ok, |updates|), updates))
      && db.accounts[..] == AfterWrites(old(db.accounts[..]), updates, ok)
      && r.response.accountsUpdated <= |r.response.updates| <= r.response.accountsChecked
  {
    if accountsError.Some? {
      return Failed(accountsError.value);
    }
    var accounts := db.accounts[..];
    var deals := if dealsReadOk then db.deals[..] else [];
    var emails := if emailsReadOk then emailRows else [];
    var updates := ComputeUpdates(accounts, deals, emails, now);
    var updatedCount := ApplyUpdates(db, updates, ok);
    r := Done(WafflingResponse(|accounts|, updatedCount, updates));
  }

  // ---------------------------------------------------------------------
  // Properties

  /** The cap at 100 never binds: the four factors add up to at most 100. */
  lemma CapNeverBinds(a: Account, deals: seq<Deal>, emails: seq<EmailSent>, now: int)
    ensures WafflingScore(a, deals, emails, now)
         == RecencyFactor(a.lastContactDay, now) + CertaintyFactor(a.decisionCertainty)
            + DealFactor(a.id, deals, now) + EmailFactor(a.id, emails, now)
  {
  }

  /** Only the upper cap exists: a last contact four weeks in the future makes the score negative. */
  lemma FutureContactGoesNegative(a: Account, deals: seq<Deal>, emails: seq<EmailSent>, now: int)
    requires a.lastContactDay == Some(UtcDay(now) + 28)
    requires a.decisionCertainty == Some(Firm)
    ensures WafflingScore(a, deals, emails, now) < 0
  {
    DaysSinceMidnight(now, UtcDay(now) + 28);
  }

  /** Scenario: never contacted, waffling, no active deals, no recent emails: 30 + 20 + 25 + 20. */
  lemma ScenarioWafflingNeverContacted(a: Account, deals: seq<Deal>, emails: seq<EmailSent>, now: int)
    requires a.lastContactDay.None? && a.decisionCertainty == Some(Waffling)
    requires forall d :: d in deals ==> d.accountId != a.id || !IsActive(d.stage)
    requires forall e :: e in emails ==> e.accountId != a.id
    ensures WafflingScore(a, deals, emails, now) == 95
  {
    NoActiveDeals(a.id, deals);
    NoRecentEmails(a.id, emails, now);
  }

  lemma {:induction false} NoActiveDeals(accountId: string, deals: seq<Deal>)
    requires forall d :: d in deals ==> d.accountId != accountId || !IsActive(d.stage)
    ensures ActiveDealsOf(accountId, deals) == []
  {
    if deals != [] {
      NoActiveDeals(accountId, deals[1..]);
    }
  }

  lemma {:induction false} NoRecentEmails(accountId: string, emails: seq<EmailSent>, now: int)
    requires forall e :: e in emails ==> e.accountId != accountId
    ensures RecentEmailsOf(accountId, emails, now) == []
  {
    if emails != [] {
      NoRecentEmails(accountId, emails[1..], now);
    }
  }

  /** Scenario: contacted today, firm, one active deal active today, two recent
      emails both replied. The factors are 0 + 10 + 0 + 0: firm scores 10. */
  lemma ScenarioFirmEngaged(a: Account, d: Deal, e1: EmailSent, e2: EmailSent, now: int)
    requires a.lastContactDay == Some(UtcDay(now)) && a.decisionCertainty == Some(Firm)
    requires d.accountId == a.id && IsActive(d.stage) && d.lastActivity == Some(now)
    requires e1.accountId == a.id && e2.accountId == a.id && e1.createdAt == now && e2.createdAt == now
    requires e1.status == Replied && e2.status == Replied
    ensures WafflingScore(a, [d], [e1, e2], now) == 10
  {
    DaysSinceMidnight(now, UtcDay(now));
    assert ActiveDealsOf(a.id, [d]) == [d];
    assert StalledDeals([d], now) == [];
    assert [e1, e2][1..] == [e2] && [e2][1..] == [];
    assert RecentEmailsOf(a.id, [e2], now) == [e2];
    assert RecentEmailsOf(a.id, [e1, e2], now) == [e1, e2];
    assert RepliedEmails([e2]) == [e2];
    assert RepliedEmails([e1, e2]) == [e1, e2];
  }

  /** The score never reads the stored `waffling_score`. */
  lemma ScoreIgnoresStoredScore(a: Account, stored: Option<int>, deals: seq<Deal>, emails: seq<EmailSent>, now: int)
    ensures WafflingScore(a.(wafflingScore := stored), deals, emails, now) == WafflingScore(a, deals, emails, now)
  {
  }

  /** Every queued update belongs to a queued account and carries its scores. */
  lemma {:induction false} QueuedUpdatesFrom(accounts: seq<Account>, deals: seq<Deal>, emails: seq<EmailSent>, now: int, i: int)
    requires 0 <= i < |QueuedUpdates(accounts, deals, emails, now)|
    ensures exists k :: 0 <= k < |accounts| && IsQueued(accounts[k], deals, emails, now)
                        && QueuedUpdates(accounts, deals, emails, now)[i] == UpdateFor(accounts[k], deals, emails, now)
  {
    var n := |accounts| - 1;
    var prefix := QueuedUpdates(accounts[..n], deals, emails, now);
    if i < |prefix| {
      QueuedUpdatesFrom(accounts[..n], deals, emails, now, i);
      var k :| 0 <= k < n && IsQueued(accounts[..n][k], deals, emails, now)
               && prefix[i] == UpdateFor(accounts[..n][k], deals, emails, now);
      assert accounts[..n][k] == accounts[k];
    } else {
      assert IsQueued(accounts[n], deals, emails, now);
    }
  }

  /** Every queued account has its update in the list. */
  lemma {:induction false} QueuedAccountListed(accounts: seq<Account>, deals: seq<Deal>, emails: seq<EmailSent>, now: int, k: int)
    requires 0 <= k < |accounts| && IsQueued(accounts[k], deals, emails, now)
    ensures UpdateFor(accounts[k], deals, emails, now) in QueuedUpdates(accounts, deals, emails, now)
  {
    var n := |accounts| - 1;
    if k < n {
      QueuedAccountListed(accounts[..n], deals, emails, now, k);
      assert accounts[..n][k] == accounts[k];
    }
  }

  /** A queued account is one whose score moved by at least 5 from its stored
      score (null read as 0); the queue holds exactly the queued accounts. */
  lemma QueueCharacterised(accounts: seq<Account>, deals: seq<Deal>, emails: seq<EmailSent>, now: int)
    ensures forall u :: u in QueuedUpdates(accounts, deals, emails, now) <==>
              exists k :: 0 <= k < |accounts| && IsQueued(accounts[k], deals, emails, now)
                          && u == UpdateFor(accounts[k], deals, emails, now)
  {
    var q := QueuedUpdates(accounts, deals, emails, now);
    forall u | u in q
      ensures exists k :: 0 <= k < |accounts| && IsQueued(accounts[k], deals, emails, now)
                          && u == UpdateFor(accounts[k], deals, emails, now)
    {
      var i :| 0 <= i < |q| && q[i] == u;
      QueuedUpdatesFrom(accounts, deals, emails, now, i);
    }
    forall k | 0 <= k < |accounts| && IsQueued(accounts[k], deals, emails, now)
      ensures UpdateFor(accounts[k], deals, emails, now) in q
    {
      QueuedAccountListed(accounts, deals, emails, now, k);
    }
  }

  /** What the writes do to one row: it is untouched unless a successful write
      carried its id, and then it holds the score of one such write. */
  lemma {:induction false} AfterWritesRow(rows: seq<Account>, updates: seq<ScoreUpdate>, ok: nat -> bool, j: int)
    requires 0 <= j < |rows|
    ensures var after := AfterWrites(rows, updates, ok);
      && (after[j] == rows[j]
          || exists i :: 0 <= i < |updates| && ok(i) && updates[i].id == rows[j].id
                         && after[j] == rows[j].(wafflingScore := Some(updates[i].newScore)))
      && ((exists i :: 0 <= i < |updates| && ok(i) && updates[i].id == rows[j].id) ==>
          exists i :: 0 <= i < |updates| && ok(i) && updates[i].id == rows[j].id
                      && after[j] == rows[j].(wafflingScore := Some(updates[i].newScore)))
  {
    if updates != [] {
      var n := |updates| - 1;
      AfterWritesRow(rows, updates[..n], ok, j);
      var before := AfterWrites(rows, updates[..n], ok);
      assert forall i :: 0 <= i < n ==> updates[..n][i] == updates[i];
      if ok(n) && updates[n].id == rows[j].id {
        assert before[j].id == rows[j].id;
      }
    }
  }

  /** A queued account has a write of its own in the queue, and that write succeeded. */
  lemma QueuedHasWrite(accounts: seq<Account>, deals: seq<Deal>, emails: seq<EmailSent>, now: int, ok: nat -> bool, j: int)
    requires 0 <= j < |accounts|
    requires forall i :: 0 <= i < |QueuedUpdates(accounts, deals, emails, now)| ==> ok(i)
    ensures var updates := QueuedUpdates(accounts, deals, emails, now);
      IsQueued(accounts[j], deals, emails, now) ==>
        exists i :: 0 <= i < |updates| && ok(i) && updates[i].id == accounts[j].id
  {
    var updates := QueuedUpdates(accounts, deals, emails, now);
    if IsQueued(accounts[j], deals, emails, now) {
      QueuedAccountListed(accounts, deals, emails, now, j);
      var i :| 0 <= i < |updates| && updates[i] == UpdateFor(accounts[j], deals, emails, now);
      assert ok(i) && updates[i].id == accounts[j].id;
    }
  }

  /** After the writes, one account is no longer queued. */
  lemma RerunRow(accounts: seq<Account>, deals: seq<Deal>, emails: seq<EmailSent>, now: int, ok: nat -> bool, j: int)
    requires UniqueIds(accounts, (a: Account) => a.id)
    requires forall i :: 0 <= i < |QueuedUpdates(accounts, deals, emails, now)| ==> ok(i)
    requires 0 <= j < |accounts|
    ensures !IsQueued(AfterWrites(accounts, QueuedUpdates(accounts, deals, emails, now), ok)[j], deals, emails, now)
  {
    var updates := QueuedUpdates(accounts, deals, emails, now);
    var after := AfterWrites(accounts, updates, ok);
    AfterWritesRow(accounts, updates, ok, j);
    QueuedHasWrite(accounts, deals, emails, now, ok, j);
    if exists i :: 0 <= i < |updates| && ok(i) && updates[i].id == accounts[j].id {
      var i :| 0 <= i < |updates| && ok(i) && updates[i].id == accounts[j].id
               && after[j] == accounts[j].(wafflingScore := Some(updates[i].newScore));
      QueuedUpdatesFrom(accounts, deals, emails, now, i);
      var k :| 0 <= k < |accounts| && IsQueued(accounts[k], deals, emails, now)
               && updates[i] == UpdateFor(accounts[k], deals, emails, now);
      assert k == j;
      ScoreIgnoresStoredScore(accounts[j], Some(updates[i].newScore), deals, emails, now);
    }
  }

  /** Re-running at the same instant, after every write succeeded, queues
      nothing: the score ignores the stored score, which now equals it. */
  lemma RerunQueuesNothing(accounts: seq<Account>, deals: seq<Deal>, emails: seq<EmailSent>, now: int, ok: nat -> bool)
    requires UniqueIds(accounts, (a: Account) => a.id)
    requires forall i :: 0 <= i < |QueuedUpdates(accounts, deals, emails, now)| ==> ok(i)
    ensures QueuedUpdates(AfterWrites(accounts, QueuedUpdates(accounts, deals, emails, now), ok), deals, emails, now) == []
  {
    var updates := QueuedUpdates(accounts, deals, emails, now);
    var after := AfterWrites(accounts, updates, ok);
    forall j | 0 <= j < |after| ensures !IsQueued(after[j], deals, emails, now) {
      RerunRow(accounts, deals, emails, now, ok, j);
    }
    if QueuedUpdates(after, deals, emails, now) != [] {
      QueuedUpdatesFrom(after, deals, emails, now, 0);
    }
  }
}
