/** Guards and error mapping of the `/connections` endpoints. */
module ConnectionsApi {
  import opened Models
  import ConnectionService
  import TransactionService

  /** The body of a connection request. */
  datatype ConnectionRequest = ConnectionRequest(recipient: Id, moment: Option<Id>)

  /**
   * POST /connections: the caller asks for a connection; a refusal by the
   * service becomes 400, and the answer is the (new or existing) pending connection.
   */
  function RequestConnection(t: Tables, caller: Id, body: ConnectionRequest): (r: Step<Result<Id>>)
    requires Inv(t)
    ensures r.out.Err? ==> r.db == t
    ensures r.out.Err? ==> r.out.error in {BadRequest, Conflict}
    ensures body.recipient !in t.users || caller == body.recipient ==> r == Step(t, Err(BadRequest))
    ensures r.out == Err(BadRequest) <==>
              ConnectionService.CreateConnectionRequest(t, caller, body.recipient, body.moment).out.Err?
              && ConnectionService.CreateConnectionRequest(t, caller, body.recipient, body.moment).out.error.Invalid?
    ensures r.out.Ok? ==>
      && r.out.value in r.db.connections
      && r.db.connections[r.out.value].requester == caller
      && r.db.connections[r.out.value].recipient == body.recipient
      && r.db.connections[r.out.value].status == PendingPayment
    ensures var s := ConnectionService.CreateConnectionRequest(t, caller, body.recipient, body.moment);
            && r.db == s.db
            && (r.out.Ok? <==> s.out.Ok?)
            && (r.out.Ok? ==> r.out.value == s.out.value.0)
            && (r.out == Err(Conflict) <==> s.out == Err(Conflict))
  {
    var s := ConnectionService.CreateConnectionRequest(t, caller, body.recipient, body.moment);
    match s.out
    case Ok((id, _)) => Step(s.db, Ok(id))
    case Err(e) => Step(s.db, Err(AsHttp(e)))
  }

  /**
   * POST /connections/{id}/complete_payment as written: the payment is
   * processed first and only then is the caller compared with the
   * requester, so a refused caller has already paid the connection.
   */
  function CompleteConnectionPaymentAsWritten(t: Tables, caller: Id, id: Id,
                                              body: TransactionService.TransactionCreate): (r: Step<Result<Connection>>)
    requires Inv(t)
    ensures body.amount <= 0.0 ==> r == Step(t, Err(Unprocessable))
    ensures r.out.Ok? ==> r.out.value.requester == caller
    ensures r.out == Err(Forbidden) ==>
      && id in t.connections && t.connections[id].requester != caller
      && id in r.db.connections && r.db.connections[id].status == PaidPendingAccept
      && t.connections[id].status == PendingPayment
    ensures body.amount > 0.0 ==>
      var s := ConnectionService.ProcessPaymentAndActivateConnection(t, id, body);
      && r.db == s.db
      && (r.out == Err(Forbidden) <==> s.out.Ok? && s.out.value.requester != caller)
      && (r.out != Err(Forbidden) ==> r.out == s.out)
  {
    if body.amount <= 0.0 then Step(t, Err(Unprocessable))
    else
      var s := ConnectionService.ProcessPaymentAndActivateConnection(t, id, body);
      if s.out.Ok? && s.out.value.requester != caller then Step(s.db, Err(Forbidden))
      else s
  }

  /**
   * A caller who is not the requester of a connection awaiting payment is
   * answered 403, yet the connection is paid and a payment row is written.
   */
  lemma {:induction false} StrangerPaysAnyway(t: Tables, caller: Id, id: Id, body: TransactionService.TransactionCreate)
    requires Inv(t)
    requires body.amount > 0.0
    requires id in t.connections && t.connections[id].status == PendingPayment
    requires t.connections[id].requester != caller
    requires !TransactionService.ConnectionTaken(t.transactions, Some(id))
    requires !TransactionService.ExternalIdTaken(t.transactions, body.externalId, t.clock)
    ensures var r := CompleteConnectionPaymentAsWritten(t, caller, id, body);
            && r.out == Err(Forbidden)
            && r.db.connections[id].status == PaidPendingAccept
            && TransactionService.ConnectionTaken(r.db.transactions, Some(id))
  {
    var s := ConnectionService.ProcessPaymentAndActivateConnection(t, id, body);
    assert s.out.Ok?;
    assert s.db.transactions[t.clock].connection == Some(id);
  }

  /**
   * POST /connections/{id}/complete_payment with the ownership check moved
   * before the payment: 422 for a non-positive amount, then 404, then 403,
   * then the service's own guards.
   */
  function CompleteConnectionPayment(t: Tables, caller: Id, id: Id,
                                     body: TransactionService.TransactionCreate): (r: Step<Result<Connection>>)
    requires Inv(t)
    ensures r.out.Err? ==> r.db == t
    ensures body.amount <= 0.0 ==> r == Step(t, Err(Unprocessable))
    ensures body.amount > 0.0 && id !in t.connections ==> r.out == Err(NotFound)
    ensures r.out == Err(Forbidden) <==> body.amount > 0.0 && id in t.connections && t.connections[id].requester != caller
    ensures r.db != t ==> body.amount > 0.0 && id in t.connections && t.connections[id].requester == caller
    ensures (body.amount > 0.0 && id in t.connections && t.connections[id].requester == caller) ==>
              r == ConnectionService.ProcessPaymentAndActivateConnection(t, id, body)
  {
    if body.amount <= 0.0 then Step(t, Err(Unprocessable))
    else if id !in t.connections then Step(t, Err(NotFound))
    else if t.connections[id].requester != caller then Step(t, Err(Forbidden))
    else ConnectionService.ProcessPaymentAndActivateConnection(t, id, body)
  }

  /** For the requester the corrected endpoint answers exactly as the original one. */
  lemma CorrectionAgreesForRequester(t: Tables, caller: Id, id: Id, body: TransactionService.TransactionCreate)
    requires Inv(t)
    requires id in t.connections && t.connections[id].requester == caller
    ensures CompleteConnectionPayment(t, caller, id, body) == CompleteConnectionPaymentAsWritten(t, caller, id, body)
  {
  }

  /**
   * PUT /connections/{id}/status: the body must name ACCEPTED, DECLINED or
   * CANCELED (422 otherwise); the caller answers as recipient.
   */
  function UpdateConnectionStatus(t: Tables, caller: Id, id: Id, decision: ConnectionStatus): (r: Step<Result<Connection>>)
    requires Inv(t)
    ensures !Settled(decision) ==> r == Step(t, Err(Unprocessable))
    ensures decision == Canceled ==> r.out.Err? && r.db == t
    ensures r.out.Err? ==> r.db == t
    ensures r.db != t ==> id in t.connections && t.connections[id].recipient == caller
                          && t.connections[id].status == PaidPendingAccept
    ensures Settled(decision) ==> r == ConnectionService.HandleRecipientResponse(t, id, caller, decision)
  {
    if !Settled(decision) then Step(t, Err(Unprocessable))
    else
      var s := ConnectionService.HandleRecipientResponse(t, id, caller, decision);
      match s.out
      case Ok(c) => s
      case Err(e) => Step(s.db, Err(AsHttp(e)))
  }

  /** GET /connections/{id}: visible to its two parties only. */
  function GetConnectionDetails(t: Tables, caller: Id, id: Id): (r: Result<Connection>)
    ensures r.Ok? <==> id in t.connections && IsParty(t.connections[id], caller)
    ensures r.Ok? ==> r.value == t.connections[id]
    ensures id !in t.connections ==> r == Err(NotFound)
    ensures id in t.connections && !IsParty(t.connections[id], caller) ==> r == Err(Forbidden)
  {
    if id !in t.connections then Err(NotFound)
    else if !IsParty(t.connections[id], caller) then Err(Forbidden)
    else Ok(t.connections[id])
  }
}
