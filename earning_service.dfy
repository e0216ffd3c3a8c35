/** Amounts owed to recipients: insert, status update and the per-user listing. */
module EarningService {
  import opened Models
  import Query

  /** Some earning already links connection `c`. */
  predicate EarningExists(es: map<Id, Earning>, c: Id) {
    exists k :: k in es && es[k].connection == c
  }

  /**
   * Inserts one earning for `user` on `connection` with status
   * PENDING_PAYOUT and nothing paid out yet. The database refuses a second
   * earning for the same connection, and then nothing is written.
   */
  function CreateEarning(t: Tables, user: Id, connection: Id, amount: real,
                         currency: string := "USD"): (r: Step<Result<Id>>)
    requires Inv(t)
    ensures r.out.Err? <==> EarningExists(t.earnings, connection)
    ensures r.out.Err? ==> r.out.error == Conflict && r.db == t
    ensures r.out.Ok? ==>
      && r.out.value !in t.earnings
      && r.db.earnings == t.earnings[r.out.value :=
           Earning(user, connection, amount, currency, PendingPayout, None, None)]
      && r.db == t.(earnings := r.db.earnings, clock := t.clock + 1)
  {
    if EarningExists(t.earnings, connection) then Step(t, Err(Conflict))
    else
      var row := Earning(user, connection, amount, currency, PendingPayout, None, None);
      Step(t.(earnings := t.earnings[t.clock := row], clock := t.clock + 1), Ok(t.clock))
  }

  /**
   * Sets any status with no transition guard. PAID_OUT stamps the payout
   * instant and records the payout transaction (even an absent one); any
   * other status leaves both untouched. An unknown id changes nothing.
   */
  function UpdateEarningStatus(t: Tables, id: Id, status: EarningStatus,
                               payoutTransaction: Option<Id> := None): (r: Step<Option<Earning>>)
    requires Inv(t)
    ensures id !in t.earnings <==> r.out.None?
    ensures id !in t.earnings ==> r.db == t
    ensures id in t.earnings ==>
      var was := t.earnings[id];
      && id in r.db.earnings
      && r.out == Some(r.db.earnings[id])
      && r.db.earnings == t.earnings[id := r.db.earnings[id]]
      && r.db.earnings[id].status == status
      && (status == PaidOut ==>
            && r.db.earnings[id] == was.(status := status, paidOutAt := Some(t.clock), payoutTransaction := payoutTransaction)
            && r.db == t.(earnings := r.db.earnings, clock := t.clock + 1))
      && (status != PaidOut ==>
            && r.db.earnings[id] == was.(status := status)
            && r.db == t.(earnings := r.db.earnings))
  {
    if id !in t.earnings then Step(t, None)
    else
      var was := t.earnings[id];
      if status == PaidOut then
        var row := was.(status := status, paidOutAt := Some(t.clock), payoutTransaction := payoutTransaction);
        Step(t.(earnings := t.earnings[id := row], clock := t.clock + 1), Some(row))
      else
        var row := was.(status := status);
        Step(t.(earnings := t.earnings[id := row]), Some(row))
  }

  /** Every earning of `user`, newest first. */
  function EarningsOf(t: Tables, user: Id): (r: seq<Id>)
    requires Inv(t)
    ensures forall i :: 0 <= i < |r| ==> r[i] in t.earnings && t.earnings[r[i]].user == user
    ensures forall i, j :: 0 <= i < j < |r| ==> r[i] > r[j]
    ensures forall k :: k in t.earnings && t.earnings[k].user == user ==> k in r
  {
    Query.Descending(0, t.clock, k => k in t.earnings && t.earnings[k].user == user)
  }

  /**
   * `.offset(skip).limit(limit)` over `EarningsOf`: earnings of `user` only,
   * newest first, the run of at most `limit` starting at position `skip`,
   * and all of them for a wide enough window.
   */
  function GetEarningsByUser(t: Tables, user: Id, skip: nat := 0, limit: nat := 100): (r: seq<Id>)
    requires Inv(t)
    ensures var all := EarningsOf(t, user);
            && |r| == (if skip >= |all| then 0 else if limit < |all| - skip then limit else |all| - skip)
            && forall i :: 0 <= i < |r| ==> r[i] == all[skip + i]
    ensures forall i :: 0 <= i < |r| ==> r[i] in t.earnings && t.earnings[r[i]].user == user
    ensures forall i, j :: 0 <= i < j < |r| ==> r[i] > r[j]
    ensures |r| <= limit
    ensures skip == 0 && limit >= t.clock ==>
              forall k :: k in t.earnings && t.earnings[k].user == user ==> k in r
  {
    var all := EarningsOf(t, user);
    var r := Query.Window(all, skip, limit);
    assert forall i :: 0 <= i < |r| ==> r[i] == all[skip + i];
    assert skip == 0 && limit >= t.clock ==> r == all;
    r
  }

  lemma CreateEarningKeepsInv(t: Tables, user: Id, connection: Id, amount: real, currency: string)
    requires Inv(t)
    ensures Inv(CreateEarning(t, user, connection, amount, currency).db)
  {
  }

  lemma UpdateEarningStatusKeepsInv(t: Tables, id: Id, status: EarningStatus, payoutTransaction: Option<Id>)
    requires Inv(t)
    ensures Inv(UpdateEarningStatus(t, id, status, payoutTransaction).db)
  {
    if id in t.earnings {
      var r := UpdateEarningStatus(t, id, status, payoutTransaction);
      RewriteKeepsUnique(t.earnings, id, r.db.earnings[id]);
    }
  }

  /** Rewriting an earning without moving it to another connection keeps one earning per connection. */
  lemma RewriteKeepsUnique(es: map<Id, Earning>, id: Id, row: Earning)
    requires EarningsUnique(es) && id in es && row.connection == es[id].connection
    ensures EarningsUnique(es[id := row])
  {
    var es' := es[id := row];
    forall i, j | i in es' && j in es' && SameConnection(es'[i], es'[j])
      ensures i == j
    {
      assert SameConnection(es[i], es[j]);
    }
  }
}
