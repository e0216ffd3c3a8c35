/** Payment records: insert, status update and the per-payer listing. */
module TransactionService {
  import opened Models
  import Query

  /**
   * The body of a payment confirmation. Its `connection` field is carried
   * but never used: the row is linked to the connection the caller names.
   */
  datatype TransactionCreate = TransactionCreate(
    connection: Id,
    amount: real,
    currency: string,
    paymentMethod: string,
    externalId: Option<string>)

  /** Some row already links connection `c`. */
  predicate ConnectionTaken(ts: map<Id, Transaction>, c: Option<Id>) {
    c.Some? && exists k :: k in ts && ts[k].connection == c
  }

  /** Some row other than `self` already carries the gateway reference `e`. */
  predicate ExternalIdTaken(ts: map<Id, Transaction>, e: Option<string>, self: Id) {
    e.Some? && exists k :: k in ts && k != self && ts[k].externalId == e
  }

  /** `if external_id:` — an absent or empty reference leaves the stored one alone. */
  predicate Replaces(e: Option<string>) {
    e.Some? && e.value != ""
  }

  /**
   * Inserts one payment row with the given payer, link and status, copying
   * amount, currency, method and gateway reference from the request. The
   * database refuses a second row for the same connection or gateway
   * reference, and then nothing is written.
   */
  function CreateTransaction(t: Tables, user: Id, input: TransactionCreate,
                             status: TransactionStatus := Pending,
                             connection: Option<Id> := None): (r: Step<Result<Id>>)
    requires Inv(t)
    ensures r.out.Err? <==> ConnectionTaken(t.transactions, connection)
                            || ExternalIdTaken(t.transactions, input.externalId, t.clock)
    ensures r.out.Err? ==> r.out.error == Conflict && r.db == t
    ensures r.out.Ok? ==>
      && r.out.value !in t.transactions
      && r.db.transactions == t.transactions[r.out.value :=
           Transaction(user, connection, input.amount, input.currency, status, input.paymentMethod, input.externalId)]
      && r.db == t.(transactions := r.db.transactions, clock := t.clock + 1)
  {
    if ConnectionTaken(t.transactions, connection) || ExternalIdTaken(t.transactions, input.externalId, t.clock) then
      Step(t, Err(Conflict))
    else
      var row := Transaction(user, connection, input.amount, input.currency, status, input.paymentMethod, input.externalId);
      Step(t.(transactions := t.transactions[t.clock := row], clock := t.clock + 1), Ok(t.clock))
  }

  /**
   * Sets the status of an existing row with no transition guard, and
   * replaces its gateway reference only when a non-empty one is supplied.
   * An unknown id yields no row and changes nothing.
   */
  function UpdateTransactionStatus(t: Tables, id: Id, status: TransactionStatus,
                                   externalId: Option<string> := None): (r: Step<Result<Option<Transaction>>>)
    requires Inv(t)
    ensures id !in t.transactions ==> r == Step(t, Ok(None))
    ensures r.out.Err? <==> id in t.transactions && Replaces(externalId)
                            && ExternalIdTaken(t.transactions, externalId, id)
    ensures r.out.Err? ==> r.out.error == Conflict && r.db == t
    ensures id in t.transactions && r.out.Ok? ==>
      var was := t.transactions[id];
      && id in r.db.transactions
      && r.out == Ok(Some(r.db.transactions[id]))
      && r.db == t.(transactions := t.transactions[id := r.db.transactions[id]])
      && r.db.transactions[id].status == status
      && r.db.transactions[id].externalId == (if Replaces(externalId) then externalId else was.externalId)
      && r.db.transactions[id] == was.(status := status, externalId := r.db.transactions[id].externalId)
  {
    if id !in t.transactions then Step(t, Ok(None))
    else if Replaces(externalId) && ExternalIdTaken(t.transactions, externalId, id) then Step(t, Err(Conflict))
    else
      var was := t.transactions[id];
      var row := was.(status := status, externalId := if Replaces(externalId) then externalId else was.externalId);
      Step(t.(transactions := t.transactions[id := row]), Ok(Some(row)))
  }

  /** Every payment of `user`, newest first. */
  function TransactionsOf(t: Tables, user: Id): (r: seq<Id>)
    requires Inv(t)
    ensures forall i :: 0 <= i < |r| ==> r[i] in t.transactions && t.transactions[r[i]].payer == user
    ensures forall i, j :: 0 <= i < j < |r| ==> r[i] > r[j]
    ensures forall k :: k in t.transactions && t.transactions[k].payer == user ==> k in r
  {
    Query.Descending(0, t.clock, k => k in t.transactions && t.transactions[k].payer == user)
  }

  /**
   * `.offset(skip).limit(limit)` over `TransactionsOf`: rows of `user` only,
   * newest first, the run of at most `limit` starting at position `skip`,
   * and all of them for a wide enough window.
   */
  function GetTransactionsByUser(t: Tables, user: Id, skip: nat := 0, limit: nat := 100): (r: seq<Id>)
    requires Inv(t)
    ensures var all := TransactionsOf(t, user);
            && |r| == (if skip >= |all| then 0 else if limit < |all| - skip then limit else |all| - skip)
            && forall i :: 0 <= i < |r| ==> r[i] == all[skip + i]
    ensures forall i :: 0 <= i < |r| ==> r[i] in t.transactions && t.transactions[r[i]].payer == user
    ensures forall i, j :: 0 <= i < j < |r| ==> r[i] > r[j]
    ensures |r| <= limit
    ensures skip == 0 && limit >= t.clock ==>
              forall k :: k in t.transactions && t.transactions[k].payer == user ==> k in r
  {
    var all := TransactionsOf(t, user);
    var r := Query.Window(all, skip, limit);
    assert forall i :: 0 <= i < |r| ==> r[i] == all[skip + i];
    assert skip == 0 && limit >= t.clock ==> r == all;
    r
  }

  lemma CreateTransactionKeepsInv(t: Tables, user: Id, input: TransactionCreate,
                                  status: TransactionStatus, connection: Option<Id>)
    requires Inv(t)
    ensures Inv(CreateTransaction(t, user, input, status, connection).db)
  {
  }

  lemma UpdateTransactionStatusKeepsInv(t: Tables, id: Id, status: TransactionStatus, externalId: Option<string>)
    requires Inv(t)
    ensures Inv(UpdateTransactionStatus(t, id, status, externalId).db)
  {
    var r := UpdateTransactionStatus(t, id, status, externalId);
    if id in t.transactions && r.out.Ok? {
      RewriteKeepsUnique(t.transactions, id, r.db.transactions[id]);
    }
  }

  /**
   * Rewriting a row keeps both unique columns unique when its link is
   * unchanged and its gateway reference is its old one or unused elsewhere.
   */
  lemma RewriteKeepsUnique(ts: map<Id, Transaction>, id: Id, row: Transaction)
    requires TransactionsUnique(ts) && id in ts
    requires row.connection == ts[id].connection
    requires row.externalId == ts[id].externalId || !ExternalIdTaken(ts, row.externalId, id)
    ensures TransactionsUnique(ts[id := row])
  {
    var ts' := ts[id := row];
    forall i, j | i in ts' && j in ts' && SameLink(ts'[i], ts'[j])
      ensures i == j
    {
      assert SameLink(ts[i], ts[j]);
    }
    forall i, j | i in ts' && j in ts' && SameReference(ts'[i], ts'[j])
      ensures i == j
    {
      if i != id && j != id {
        assert SameReference(ts[i], ts[j]);
      } else if row.externalId == ts[id].externalId {
        assert SameReference(ts[i], ts[j]);
      }
    }
  }
}
