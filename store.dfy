/** The two tables the automation jobs write back to, held in place: the
    `accounts` table (whose `waffling_score` the recalculation job updates) and
    the `deals` table (whose `is_at_risk` the at-risk job updates). An update is
    PostgREST's `.update({...}).eq("id", id)`: every row with that id changes,
    and no other row does. */
module Store {
  import opened Crm

  // The write oracle `ok: nat -> bool` of the jobs says whether their i-th
  // write (counted from 0) reported no error.

  /** The `accounts` table after `update({ waffling_score: score }).eq("id", id)`. */
  function WithWafflingScore(rows: seq<Account>, id: string, score: int): (r: seq<Account>)
    ensures |r| == |rows|
  {
    seq(|rows|, j requires 0 <= j < |rows| =>
      if rows[j].id == id then rows[j].(wafflingScore := Some(score)) else rows[j])
  }

  /** The `deals` table after `update({ is_at_risk: flag }).eq("id", id)`. */
  function WithAtRiskFlag(rows: seq<Deal>, id: string, flag: bool): (r: seq<Deal>)
    ensures |r| == |rows|
  {
    seq(|rows|, j requires 0 <= j < |rows| =>
      if rows[j].id == id then rows[j].(isAtRisk := flag) else rows[j])
  }

  /** How many of the first `n` writes reported no error. */
  function CountOk(ok: nat -> bool, n: nat): (c: nat)
    ensures c <= n
    ensures (forall i :: 0 <= i < n ==> ok(i)) ==> c == n
    ensures (forall i :: 0 <= i < n ==> !ok(i)) ==> c == 0
  {
    if n == 0 then 0 else CountOk(ok, n - 1) + (if ok(n - 1) then 1 else 0)
  }

  class Database {
    const accounts: array<Account>
    const deals: array<Deal>

    constructor (accountRows: seq<Account>, dealRows: seq<Deal>)
      ensures accounts[..] == accountRows && deals[..] == dealRows
      ensures fresh(accounts) && fresh(deals)
    {
      accounts := new Account[|accountRows|](j requires 0 <= j < |accountRows| => accountRows[j]);
      deals := new Deal[|dealRows|](j requires 0 <= j < |dealRows| => dealRows[j]);
    }

    /** Sets `waffling_score` on every account row whose id is `id`. */
    method UpdateWafflingScore(id: string, score: int)
      modifies accounts
      ensures accounts[..] == WithWafflingScore(old(accounts[..]), id, score)
    {
      for j := 0 to accounts.Length
        invariant forall k :: 0 <= k < j ==>
          accounts[k] == if old(accounts[k]).id == id then old(accounts[k]).(wafflingScore := Some(score)) else old(accounts[k])
        invariant forall k :: j <= k < accounts.Length ==> accounts[k] == old(accounts[k])
      {
        if accounts[j].id == id {
          accounts[j] := accounts[j].(wafflingScore := Some(score));
        }
      }
    }

    /** Sets `is_at_risk` on every deal row whose id is `id`. */
    method UpdateAtRiskFlag(id: string, flag: bool)
      modifies deals
      ensures deals[..] == WithAtRiskFlag(old(deals[..]), id, flag)
    {
      for j := 0 to deals.Length
        invariant forall k :: 0 <= k < j ==>
          deals[k] == if old(deals[k]).id == id then old(deals[k]).(isAtRisk := flag) else old(deals[k])
        invariant forall k :: j <= k < deals.Length ==> deals[k] == old(deals[k])
      {
        if deals[j].id == id {
          deals[j] := deals[j].(isAtRisk := flag);
        }
      }
    }
  }
}
