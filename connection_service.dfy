/**
 * The paid-connection state machine:
 *   PENDING_PAYMENT -> PAID_PENDING_ACCEPT -> ACCEPTED | DECLINED,
 * with the fee split computed at creation, a payment row written on
 * payment and an earning written on acceptance.
 */
module ConnectionService {
  import opened Models
  import Query
  import Monetisation
  import TransactionService
  import EarningService

  const DefaultConfigName: string := "DM_FEE_STANDARD"

  /** The duplicate filter: same parties, still awaiting payment, and the same moment when one is given. */
  predicate PendingBetween(c: Connection, requester: Id, recipient: Id, moment: Option<Id>) {
    && c.requester == requester
    && c.recipient == recipient
    && c.status == PendingPayment
    && (moment.Some? ==> c.moment == moment)
  }

  /** The first PENDING_PAYMENT connection between the two users (for the moment, when given). */
  function GetPendingConnection(t: Tables, requester: Id, recipient: Id, moment: Option<Id>): (r: Option<Id>)
    requires Inv(t)
    ensures r.Some? ==> r.value in t.connections && PendingBetween(t.connections[r.value], requester, recipient, moment)
    ensures r.None? <==> forall k :: k in t.connections ==> !PendingBetween(t.connections[k], requester, recipient, moment)
  {
    var p := (k: nat) => k in t.connections && PendingBetween(t.connections[k], requester, recipient, moment);
    var r := Query.First(0, t.clock, p);
    assert forall k :: k in t.connections ==> (p(k) <==> PendingBetween(t.connections[k], requester, recipient, moment));
    r
  }

  datatype FeeSplit = FeeSplit(fee: real, platformCut: real, posterShare: real)

  predicate ActiveNamed(t: Tables, k: Id, name: string) {
    k in t.configs && t.configs[k].name == name && t.configs[k].isActive
  }

  function SplitOf(cfg: MonetizationConfig): FeeSplit {
    FeeSplit(cfg.feeBase, cfg.feeBase * cfg.platformCutPct, cfg.feeBase * cfg.posterSharePct)
  }

  /**
   * Fails when no active configuration carries `name`; otherwise splits
   * that configuration's base fee by its two percentages.
   */
  function CalculateConnectionFees(t: Tables, name: string := DefaultConfigName): (r: Result<FeeSplit>)
    requires Inv(t)
    ensures r.Err? <==> forall k :: k in t.configs ==> !ActiveNamed(t, k, name)
    ensures r.Err? ==> r.error == Invalid(FeeConfigMissing)
    ensures forall k :: ActiveNamed(t, k, name) ==> r == Ok(SplitOf(t.configs[k]))
  {
    var p := (k: nat) => ActiveNamed(t, k, name);
    var found := Query.First(0, t.clock, p);
    assert forall k: nat :: ActiveNamed(t, k, name) ==> k < t.clock && p(k);
    match found
    case None => Err(Invalid(FeeConfigMissing))
    case Some(j) =>
      assert forall k :: ActiveNamed(t, k, name) ==> SameName(t.configs[j], t.configs[k]);
      Ok(SplitOf(t.configs[j]))
  }

  /** Every stored configuration passed the schema. */
  ghost predicate ConfigsAdmissible(cs: map<Id, MonetizationConfig>) {
    forall k :: k in cs ==> Monetisation.Admissible(cs[k])
  }

  /**
   * With admissible configurations a computed split is exact: the platform
   * cut and the poster share are non-negative and add up to the positive fee.
   */
  lemma CalculatedSplitIsExact(t: Tables, name: string)
    requires Inv(t) && ConfigsAdmissible(t.configs)
    ensures CalculateConnectionFees(t, name).Ok? ==>
      var s := CalculateConnectionFees(t, name).value;
      && s.fee > 0.0
      && s.platformCut + s.posterShare == s.fee
      && 0.0 <= s.platformCut && 0.0 <= s.posterShare
  {
    var r := CalculateConnectionFees(t, name);
    if r.Ok? {
      var k :| ActiveNamed(t, k, name);
      Monetisation.SplitIsExact(t.configs[k]);
    }
  }

  function NewConnection(requester: Id, recipient: Id, moment: Option<Id>, s: FeeSplit): Connection {
    Connection(requester, recipient, moment, PendingPayment, s.fee, s.platformCut, s.posterShare)
  }

  /** The database refuses a connection whose (requester, recipient, moment) is already stored. */
  predicate TripleTaken(cs: map<Id, Connection>, c: Connection) {
    exists k :: k in cs && SameTriple(cs[k], c)
  }

  /**
   * Guards in order (recipient exists, not oneself); then returns a pending
   * duplicate with its stored fee, or inserts a new PENDING_PAYMENT
   * connection carrying the computed split and returns it with the fee.
   */
  function CreateConnectionRequest(t: Tables, requester: Id, recipient: Id, moment: Option<Id>): (r: Step<Result<(Id, real)>>)
    requires Inv(t)
    ensures r.out.Err? ==> r.db == t
    ensures recipient !in t.users ==> r.out == Err(Invalid(RecipientNotFound))
    ensures recipient in t.users && requester == recipient ==> r.out == Err(Invalid(SelfConnection))
    ensures r.out.Err? ==> r.out.error in {Invalid(RecipientNotFound), Invalid(SelfConnection), Invalid(FeeConfigMissing), Conflict}
    ensures r.out == Err(Invalid(FeeConfigMissing)) ==> CalculateConnectionFees(t).Err?
    ensures r.out == Err(Conflict) ==> moment.Some? && CalculateConnectionFees(t).Ok?
                                       && TripleTaken(t.connections, NewConnection(requester, recipient, moment, CalculateConnectionFees(t).value))
    ensures r.out.Ok? ==>
      && r.out.value.0 in r.db.connections
      && var c := r.db.connections[r.out.value.0];
      && c.requester == requester && c.recipient == recipient && c.status == PendingPayment
      && r.out.value.1 == c.fee
    ensures recipient in t.users && requester != recipient && GetPendingConnection(t, requester, recipient, moment).Some? ==>
      var k := GetPendingConnection(t, requester, recipient, moment).value;
      r == Step(t, Ok((k, t.connections[k].fee)))
    ensures r.out.Ok? && r.db != t ==>
      && GetPendingConnection(t, requester, recipient, moment).None?
      && CalculateConnectionFees(t).Ok?
      && r.out.value.0 !in t.connections
      && r.db.connections == t.connections[r.out.value.0 := NewConnection(requester, recipient, moment, CalculateConnectionFees(t).value)]
      && r.db == t.(connections := r.db.connections, clock := t.clock + 1)
    ensures recipient in t.users && requester != recipient && GetPendingConnection(t, requester, recipient, moment).None? ==>
      && (r.out == Err(Invalid(FeeConfigMissing)) <==> CalculateConnectionFees(t).Err?)
      && (CalculateConnectionFees(t).Ok? ==>
            var c := NewConnection(requester, recipient, moment, CalculateConnectionFees(t).value);
            && (r.out == Err(Conflict) <==> TripleTaken(t.connections, c))
            && (!TripleTaken(t.connections, c) ==> r.out == Ok((t.clock, c.fee)) && r.db != t))
  {
    if recipient !in t.users then Step(t, Err(Invalid(RecipientNotFound)))
    else if requester == recipient then Step(t, Err(Invalid(SelfConnection)))
    else match GetPendingConnection(t, requester, recipient, moment)
      case Some(k) => Step(t, Ok((k, t.connections[k].fee)))
      case None =>
        match CalculateConnectionFees(t)
        case Err(_) => Step(t, Err(Invalid(FeeConfigMissing)))
        case Ok(split) =>
          var c := NewConnection(requester, recipient, moment, split);
          if TripleTaken(t.connections, c) then Step(t, Err(Conflict))
          else Step(t.(connections := t.connections[t.clock := c], clock := t.clock + 1), Ok((t.clock, split.fee)))
  }

  /**
   * The unguarded status overwrite: any existing connection, whatever its
   * state, takes ACCEPTED, DECLINED or CANCELED; anything else is refused.
   */
  function UpdateConnectionStatus(t: Tables, id: Id, status: ConnectionStatus): (r: Step<Option<Connection>>)
    requires Inv(t)
    ensures r.out.None? <==> id !in t.connections || !Settled(status)
    ensures r.out.None? ==> r.db == t
    ensures r.out.Some? ==>
      && r.out.value == t.connections[id].(status := status)
      && r.db == t.(connections := t.connections[id := r.out.value])
  {
    if id !in t.connections || !Settled(status) then Step(t, None)
    else
      var c := t.connections[id].(status := status);
      Step(t.(connections := t.connections[id := c]), Some(c))
  }

  /**
   * Confirms payment of a PENDING_PAYMENT connection: exactly one SUCCESS
   * payment row, paid by the requester and linked to this connection, with
   * the amount the client reports (never compared with the fee); the status
   * becomes PAID_PENDING_ACCEPT and the recipient, when a known user, is told.
   */
  function ProcessPaymentAndActivateConnection(t: Tables, id: Id, input: TransactionService.TransactionCreate): (r: Step<Result<Connection>>)
    requires Inv(t)
    ensures id !in t.connections ==> r == Step(t, Err(NotFound))
    ensures id in t.connections && t.connections[id].status != PendingPayment ==> r == Step(t, Err(BadRequest))
    ensures r.out.Err? ==> r.db == t
    ensures r.out.Err? ==> r.out.error in {NotFound, BadRequest, Conflict}
    ensures r.out.Ok? ==>
      && id in t.connections
      && var c := t.connections[id];
      && c.status == PendingPayment
      && r.out.value == c.(status := PaidPendingAccept)
      && r.db.connections == t.connections[id := r.out.value]
      && t.clock !in t.transactions
      && r.db.transactions == t.transactions[t.clock :=
           Transaction(c.requester, Some(id), input.amount, input.currency, Success, input.paymentMethod, input.externalId)]
      && r.db.notifications == t.notifications
           + (if c.recipient in t.users then [Notification(c.recipient, c.requester, ConnectionRequest, id)] else [])
      && r.db == t.(connections := r.db.connections, transactions := r.db.transactions,
                    notifications := r.db.notifications, clock := t.clock + 1)
    ensures id in t.connections && t.connections[id].status == PendingPayment ==>
      (r.out == Err(Conflict) <==> TransactionService.ConnectionTaken(t.transactions, Some(id))
                                   || TransactionService.ExternalIdTaken(t.transactions, input.externalId, t.clock))
    ensures id in t.connections && t.connections[id].status == PendingPayment ==>
      (r.out.Ok? <==> !TransactionService.ConnectionTaken(t.transactions, Some(id))
                      && !TransactionService.ExternalIdTaken(t.transactions, input.externalId, t.clock))
  {
    if id !in t.connections then Step(t, Err(NotFound))
    else
      var c := t.connections[id];
      if c.status != PendingPayment then Step(t, Err(BadRequest))
      else
        var paid := TransactionService.CreateTransaction(t, c.requester, input, Success, Some(id));
        if paid.out.Err? then Step(t, Err(paid.out.error))
        else
          var activated := c.(status := PaidPendingAccept);
          var t1 := paid.db.(connections := paid.db.connections[id := activated]);
          if c.recipient in t.users then Step(Notify(t1, Notification(c.recipient, c.requester, ConnectionRequest, id)), Ok(activated))
          else Step(t1, Ok(activated))
  }

  /**
   * The recipient's answer. Guards in order: the connection exists (404),
   * the caller is its recipient (403), it awaits acceptance (400). ACCEPTED
   * writes exactly one earning of the poster share for the recipient;
   * DECLINED writes none; either notifies the requester. Any other answer,
   * CANCELED included, is refused (400). A refused answer changes nothing.
   */
  function HandleRecipientResponse(t: Tables, id: Id, recipient: Id, decision: ConnectionStatus): (r: Step<Result<Connection>>)
    requires Inv(t)
    ensures id !in t.connections ==> r == Step(t, Err(NotFound))
    ensures id in t.connections && t.connections[id].recipient != recipient ==> r == Step(t, Err(Forbidden))
    ensures id in t.connections && t.connections[id].recipient == recipient && t.connections[id].status != PaidPendingAccept
            ==> r == Step(t, Err(BadRequest))
    ensures decision != Accepted && decision != Declined ==> r.out.Err?
    ensures r.out.Err? ==> r.db == t
    ensures r.out.Err? ==> r.out.error in {NotFound, Forbidden, BadRequest, Conflict}
    ensures r.out.Ok? ==>
      && id in t.connections
      && var c := t.connections[id];
      && c.recipient == recipient && c.status == PaidPendingAccept
      && r.out.value == c.(status := decision)
      && r.db.connections == t.connections[id := r.out.value]
      && r.db.transactions == t.transactions
    ensures r.out.Ok? && decision == Accepted ==>
      var c := t.connections[id];
      && t.clock !in t.earnings
      && r.db.earnings == t.earnings[t.clock := Earning(c.recipient, id, c.posterShare, "USD", PendingPayout, None, None)]
      && r.db.notifications == t.notifications + [Notification(c.requester, c.recipient, ConnectionAccepted, id)]
      && r.db == t.(connections := r.db.connections, earnings := r.db.earnings,
                    notifications := r.db.notifications, clock := t.clock + 1)
    ensures r.out.Ok? && decision == Declined ==>
      var c := t.connections[id];
      r.db == t.(connections := r.db.connections,
                 notifications := t.notifications + [Notification(c.requester, c.recipient, ConnectionDeclined, id)])
    ensures id in t.connections && t.connections[id].recipient == recipient && t.connections[id].status == PaidPendingAccept ==>
      && (r.out.Ok? <==> decision == Declined || (decision == Accepted && !EarningService.EarningExists(t.earnings, id)))
      && (r.out == Err(Conflict) <==> decision == Accepted && EarningService.EarningExists(t.earnings, id))
    ensures (id in t.connections && t.connections[id].recipient == recipient
             && t.connections[id].status == PaidPendingAccept
             && decision != Accepted && decision != Declined) ==> r == Step(t, Err(BadRequest))
  {
    if id !in t.connections then Step(t, Err(NotFound))
    else
      var c := t.connections[id];
      if c.recipient != recipient then Step(t, Err(Forbidden))
      else if c.status != PaidPendingAccept then Step(t, Err(BadRequest))
      else if decision == Accepted then
        var earned := EarningService.CreateEarning(t, c.recipient, id, c.posterShare);
        if earned.out.Err? then Step(t, Err(earned.out.error))
        else
          var accepted := c.(status := Accepted);
          var t1 := earned.db.(connections := earned.db.connections[id := accepted]);
          Step(Notify(t1, Notification(c.requester, c.recipient, ConnectionAccepted, id)), Ok(accepted))
      else if decision == Declined then
        var declined := c.(status := Declined);
        var t1 := t.(connections := t.connections[id := declined]);
        Step(Notify(t1, Notification(c.requester, c.recipient, ConnectionDeclined, id)), Ok(declined))
      else Step(t, Err(BadRequest))
  }

  // ---------------------------------------------------------------------------
  // The store invariant survives every operation.
  // ---------------------------------------------------------------------------

  lemma CreateConnectionRequestKeepsInv(t: Tables, requester: Id, recipient: Id, moment: Option<Id>)
    requires Inv(t)
    ensures Inv(CreateConnectionRequest(t, requester, recipient, moment).db)
  {
  }

  lemma UpdateConnectionStatusKeepsInv(t: Tables, id: Id, status: ConnectionStatus)
    requires Inv(t)
    ensures Inv(UpdateConnectionStatus(t, id, status).db)
  {
    if id in t.connections {
      RestatusKeepsUnique(t.connections, id, status);
    }
  }

  lemma ProcessPaymentKeepsInv(t: Tables, id: Id, input: TransactionService.TransactionCreate)
    requires Inv(t)
    ensures Inv(ProcessPaymentAndActivateConnection(t, id, input).db)
  {
    if id in t.connections && t.connections[id].status == PendingPayment {
      var c := t.connections[id];
      var paid := TransactionService.CreateTransaction(t, c.requester, input, Success, Some(id));
      TransactionService.CreateTransactionKeepsInv(t, c.requester, input, Success, Some(id));
      if paid.out.Ok? {
        RestatusKeepsUnique(t.connections, id, PaidPendingAccept);
        var t1 := paid.db.(connections := t.connections[id := c.(status := PaidPendingAccept)]);
        var n := Notify(t1, Notification(c.recipient, c.requester, ConnectionRequest, id));
        assert Inv(t1) && Inv(n);
        assert ProcessPaymentAndActivateConnection(t, id, input).db == if c.recipient in t.users then n else t1;
      }
    }
  }

  lemma HandleRecipientResponseKeepsInv(t: Tables, id: Id, recipient: Id, decision: ConnectionStatus)
    requires Inv(t)
    ensures Inv(HandleRecipientResponse(t, id, recipient, decision).db)
  {
    if HandleRecipientResponse(t, id, recipient, decision).out.Ok? {
      RestatusKeepsUnique(t.connections, id, decision);
      if decision == Accepted {
        var c := t.connections[id];
        EarningService.CreateEarningKeepsInv(t, c.recipient, id, c.posterShare, "USD");
      }
    }
  }

  // ---------------------------------------------------------------------------
  // The workflow's one-way transitions.
  // ---------------------------------------------------------------------------

  /**
   * Asking again with the same parties and moment returns the same
   * connection and fee and writes nothing, whether the first request
   * created the connection or found it.
   */
  lemma {:induction false} RequestIsIdempotent(t: Tables, requester: Id, recipient: Id, moment: Option<Id>)
    requires Inv(t)
    ensures var first := CreateConnectionRequest(t, requester, recipient, moment);
            Inv(first.db) && (first.out.Ok? ==> CreateConnectionRequest(first.db, requester, recipient, moment) == first)
  {
    var first := CreateConnectionRequest(t, requester, recipient, moment);
    CreateConnectionRequestKeepsInv(t, requester, recipient, moment);
    if first.out.Ok? && first.db != t {
      var k := first.out.value.0;
      var again := GetPendingConnection(first.db, requester, recipient, moment);
      assert PendingBetween(first.db.connections[k], requester, recipient, moment);
      assert forall j :: j in first.db.connections && j != k ==> j in t.connections;
      assert again == Some(k);
    }
  }

  /** Once paid, a connection cannot be paid again: the second confirmation is refused and writes nothing. */
  lemma SecondPaymentIsRefused(t: Tables, id: Id, input: TransactionService.TransactionCreate,
                               again: TransactionService.TransactionCreate)
    requires Inv(t)
    ensures var first := ProcessPaymentAndActivateConnection(t, id, input);
            Inv(first.db) && (first.out.Ok? ==>
              ProcessPaymentAndActivateConnection(first.db, id, again) == Step(first.db, Err(BadRequest)))
  {
    ProcessPaymentKeepsInv(t, id, input);
  }

  /** Once answered, a connection cannot be answered again, whatever the second answer. */
  lemma SecondResponseIsRefused(t: Tables, id: Id, recipient: Id, decision: ConnectionStatus, again: ConnectionStatus)
    requires Inv(t)
    ensures var first := HandleRecipientResponse(t, id, recipient, decision);
            Inv(first.db) && (first.out.Ok? ==>
              HandleRecipientResponse(first.db, id, recipient, again) == Step(first.db, Err(BadRequest)))
  {
    HandleRecipientResponseKeepsInv(t, id, recipient, decision);
  }

  /**
   * Paying a connection whose status allows payment never collides on the
   * one-payment-per-connection constraint: a connection still awaiting
   * payment has no payment row, provided payment rows are only ever written
   * for connections moved past PENDING_PAYMENT. The only remaining refusal
   * is a reused gateway reference.
   */
  lemma PaymentConflictOnlyOnGatewayReference(t: Tables, id: Id, input: TransactionService.TransactionCreate)
    requires Inv(t)
    requires forall k :: k in t.transactions && t.transactions[k].connection.Some? ==>
               t.transactions[k].connection.value in t.connections
               && t.connections[t.transactions[k].connection.value].status != PendingPayment
    ensures ProcessPaymentAndActivateConnection(t, id, input).out == Err(Conflict) ==>
              TransactionService.ExternalIdTaken(t.transactions, input.externalId, t.clock)
  {
  }
}
