/**
 * The cross-table consistency of the paid-connection workflow, and the
 * proof that every operation reachable through the endpoints (and the
 * unguarded status overwrites) keeps it.
 */
module Workflow {
  import opened Models
  import Monetisation
  import TransactionService
  import EarningService
  import ConnectionService
  import MessageService
  import FlirtService
  import ConnectionsApi
  import MessagesApi
  import FlirtsApi

  /** A stored fee split: a positive fee divided exactly into two non-negative parts. */
  predicate Balanced(c: Connection) {
    c.fee > 0.0 && 0.0 <= c.platformCut && 0.0 <= c.posterShare && c.platformCut + c.posterShare == c.fee
  }

  /** Every stored connection carries an exact split between two distinct users. */
  ghost predicate WellFormed(cs: map<Id, Connection>) {
    forall k :: k in cs ==> Balanced(cs[k]) && cs[k].requester != cs[k].recipient
  }

  /** Connection `c` has its payment row. */
  ghost predicate Paid(ts: map<Id, Transaction>, c: Id) {
    TransactionService.ConnectionTaken(ts, Some(c))
  }

  /** A payment row belongs to a connection that has left PENDING_PAYMENT, and its requester paid it. */
  ghost predicate PaymentsLinked(ts: map<Id, Transaction>, cs: map<Id, Connection>) {
    forall k :: k in ts && ts[k].connection.Some? ==>
      && ts[k].connection.value in cs
      && cs[ts[k].connection.value].status != PendingPayment
      && ts[k].payer == cs[ts[k].connection.value].requester
  }

  /** A connection awaiting acceptance has been paid. */
  ghost predicate AwaitingArePaid(ts: map<Id, Transaction>, cs: map<Id, Connection>) {
    forall c :: c in cs && cs[c].status == PaidPendingAccept ==> Paid(ts, c)
  }

  /** An earning belongs to a settled, paid connection, is owed to its recipient, and is its poster share. */
  ghost predicate EarningsLinked(es: map<Id, Earning>, cs: map<Id, Connection>, ts: map<Id, Transaction>) {
    forall k :: k in es ==>
      && es[k].connection in cs
      && Settled(cs[es[k].connection].status)
      && es[k].user == cs[es[k].connection].recipient
      && es[k].amount == cs[es[k].connection].posterShare
      && Paid(ts, es[k].connection)
  }

  /** A message sits in a connection that was accepted when it was written, and one of its parties wrote it. */
  ghost predicate MessagesGated(ms: map<Id, Message>, cs: map<Id, Connection>) {
    forall k :: k in ms ==>
      && ms[k].connection in cs
      && Settled(cs[ms[k].connection].status)
      && IsParty(cs[ms[k].connection], ms[k].sender)
  }

  /** The links between connections, payments, earnings and messages. */
  ghost predicate Linked(cs: map<Id, Connection>, ts: map<Id, Transaction>, es: map<Id, Earning>, ms: map<Id, Message>) {
    && WellFormed(cs)
    && PaymentsLinked(ts, cs)
    && AwaitingArePaid(ts, cs)
    && EarningsLinked(es, cs, ts)
    && MessagesGated(ms, cs)
  }

  ghost predicate Consistent(t: Tables) {
    && Inv(t)
    && ConnectionService.ConfigsAdmissible(t.configs)
    && Linked(t.connections, t.transactions, t.earnings, t.messages)
    && FlirtService.CountsAgree(t.flirts, t.moments)
  }

  // ---------------------------------------------------------------------------
  // How each kind of write affects the links.
  // ---------------------------------------------------------------------------

  /** A new connection awaiting payment is referenced by nothing yet. */
  lemma NewConnectionLinked(cs: map<Id, Connection>, ts: map<Id, Transaction>, es: map<Id, Earning>, ms: map<Id, Message>,
                            k: Id, c: Connection)
    requires Linked(cs, ts, es, ms)
    requires k !in cs && Balanced(c) && c.requester != c.recipient && c.status == PendingPayment
    ensures Linked(cs[k := c], ts, es, ms)
  {
  }

  /** Paying a connection awaiting payment: its status advances and its payment row appears. */
  lemma PaymentLinked(cs: map<Id, Connection>, ts: map<Id, Transaction>, es: map<Id, Earning>, ms: map<Id, Message>,
                      id: Id, k: Id, row: Transaction)
    requires Linked(cs, ts, es, ms)
    requires id in cs && cs[id].status == PendingPayment && k !in ts
    requires row.connection == Some(id) && row.payer == cs[id].requester
    ensures Linked(cs[id := cs[id].(status := PaidPendingAccept)], ts[k := row], es, ms)
  {
    var cs', ts' := cs[id := cs[id].(status := PaidPendingAccept)], ts[k := row];
    assert ts'[k].connection == Some(id);
    forall c | c in cs' && cs'[c].status == PaidPendingAccept
      ensures Paid(ts', c)
    {
      if c != id {
        var j :| j in ts && ts[j].connection == Some(c);
        assert ts'[j].connection == Some(c);
      }
    }
    forall e | e in es
      ensures Paid(ts', es[e].connection)
    {
      var j :| j in ts && ts[j].connection == Some(es[e].connection);
      assert ts'[j].connection == Some(es[e].connection);
    }
  }

  /** Moving any connection to a settled status keeps every link. */
  lemma SettledLinked(cs: map<Id, Connection>, ts: map<Id, Transaction>, es: map<Id, Earning>, ms: map<Id, Message>,
                      id: Id, status: ConnectionStatus)
    requires Linked(cs, ts, es, ms)
    requires id in cs && Settled(status)
    ensures Linked(cs[id := cs[id].(status := status)], ts, es, ms)
  {
  }

  /** An earning for a settled, paid connection, owed to its recipient, of its poster share. */
  lemma EarningLinked(cs: map<Id, Connection>, ts: map<Id, Transaction>, es: map<Id, Earning>, ms: map<Id, Message>,
                      k: Id, e: Earning)
    requires Linked(cs, ts, es, ms)
    requires e.connection in cs && Settled(cs[e.connection].status) && Paid(ts, e.connection)
    requires e.user == cs[e.connection].recipient && e.amount == cs[e.connection].posterShare
    ensures Linked(cs, ts, es[k := e], ms)
  {
  }

  /** Rewriting a payment row without touching its link or payer. */
  lemma PaymentRewrittenLinked(cs: map<Id, Connection>, ts: map<Id, Transaction>, es: map<Id, Earning>, ms: map<Id, Message>,
                               id: Id, row: Transaction)
    requires Linked(cs, ts, es, ms)
    requires id in ts && row.connection == ts[id].connection && row.payer == ts[id].payer
    ensures Linked(cs, ts[id := row], es, ms)
  {
    var ts' := ts[id := row];
    forall c | c in cs && cs[c].status == PaidPendingAccept
      ensures Paid(ts', c)
    {
      var j :| j in ts && ts[j].connection == Some(c);
      assert ts'[j].connection == Some(c);
    }
    forall e | e in es
      ensures Paid(ts', es[e].connection)
    {
      var j :| j in ts && ts[j].connection == Some(es[e].connection);
      assert ts'[j].connection == Some(es[e].connection);
    }
  }

  /** Rewriting an earning without touching its link, owner or amount. */
  lemma EarningRewrittenLinked(cs: map<Id, Connection>, ts: map<Id, Transaction>, es: map<Id, Earning>, ms: map<Id, Message>,
                               id: Id, e: Earning)
    requires Linked(cs, ts, es, ms)
    requires id in es && e.connection == es[id].connection && e.user == es[id].user && e.amount == es[id].amount
    ensures Linked(cs, ts, es[id := e], ms)
  {
  }

  /** A message written by a party into a settled connection. */
  lemma MessageLinked(cs: map<Id, Connection>, ts: map<Id, Transaction>, es: map<Id, Earning>, ms: map<Id, Message>,
                      k: Id, m: Message)
    requires Linked(cs, ts, es, ms)
    requires m.connection in cs && Settled(cs[m.connection].status) && IsParty(cs[m.connection], m.sender)
    ensures Linked(cs, ts, es, ms[k := m])
  {
  }

  /** Flipping the read flag of a stored message. */
  lemma MessageReadLinked(cs: map<Id, Connection>, ts: map<Id, Transaction>, es: map<Id, Earning>, ms: map<Id, Message>,
                          id: Id)
    requires Linked(cs, ts, es, ms)
    requires id in ms
    ensures Linked(cs, ts, es, ms[id := ms[id].(isRead := true)])
  {
  }

  /** One request to the system. */
  datatype Call =
    | Request(caller: Id, body: ConnectionsApi.ConnectionRequest)
    | Pay(caller: Id, id: Id, payment: TransactionService.TransactionCreate)
    | PayAsWritten(caller: Id, id: Id, payment: TransactionService.TransactionCreate)
    | Respond(caller: Id, id: Id, decision: ConnectionStatus)
    | Overwrite(id: Id, status: ConnectionStatus)
    | SetPaymentStatus(id: Id, paymentStatus: TransactionStatus, externalId: Option<string>)
    | SetEarningStatus(id: Id, earningStatus: EarningStatus, payout: Option<Id>)
    | Send(caller: Id, message: MessageService.MessageCreate)
    | Read(caller: Id, id: Id)
    | ReadAsWritten(caller: Id, id: Id)
    | AddFlirt(caller: Id, moment: Id)
    | RemoveFlirt(caller: Id, id: Id)

  /** The tables after serving `call`. */
  function Apply(t: Tables, call: Call): Tables
    requires Inv(t)
  {
    match call
    case Request(caller, body) => ConnectionsApi.RequestConnection(t, caller, body).db
    case Pay(caller, id, payment) => ConnectionsApi.CompleteConnectionPayment(t, caller, id, payment).db
    case PayAsWritten(caller, id, payment) => ConnectionsApi.CompleteConnectionPaymentAsWritten(t, caller, id, payment).db
    case Respond(caller, id, decision) => ConnectionsApi.UpdateConnectionStatus(t, caller, id, decision).db
    case Overwrite(id, status) => ConnectionService.UpdateConnectionStatus(t, id, status).db
    case SetPaymentStatus(id, status, externalId) => TransactionService.UpdateTransactionStatus(t, id, status, externalId).db
    case SetEarningStatus(id, status, payout) => EarningService.UpdateEarningStatus(t, id, status, payout).db
    case Send(caller, message) => MessagesApi.CreateMessage(t, caller, message).db
    case Read(caller, id) => MessagesApi.MarkMessageAsRead(t, caller, id).db
    case ReadAsWritten(caller, id) => MessagesApi.MarkMessageAsReadAsWritten(t, caller, id).db
    case AddFlirt(caller, moment) => FlirtsApi.CreateFlirt(t, caller, moment).db
    case RemoveFlirt(caller, id) => FlirtsApi.DeleteFlirt(t, caller, id).db
  }

  /** An operation that leaves configurations, moments and flirts alone keeps their part of the consistency. */
  lemma OtherTablesKept(t: Tables, t': Tables)
    requires ConnectionService.ConfigsAdmissible(t.configs) && FlirtService.CountsAgree(t.flirts, t.moments)
    requires t'.configs == t.configs && t'.moments == t.moments && t'.flirts == t.flirts
    ensures ConnectionService.ConfigsAdmissible(t'.configs) && FlirtService.CountsAgree(t'.flirts, t'.moments)
  {
  }

  // ---------------------------------------------------------------------------
  // Every call keeps the tables consistent.
  // ---------------------------------------------------------------------------

  lemma RequestKeepsConsistent(t: Tables, caller: Id, body: ConnectionsApi.ConnectionRequest)
    requires Consistent(t)
    ensures Consistent(ConnectionsApi.RequestConnection(t, caller, body).db)
  {
    var r := ConnectionsApi.RequestConnection(t, caller, body);
    var s := ConnectionService.CreateConnectionRequest(t, caller, body.recipient, body.moment);
    assert r.db == s.db;
    ConnectionService.CreateConnectionRequestKeepsInv(t, caller, body.recipient, body.moment);
    if s.db != t {
      var fees := ConnectionService.CalculateConnectionFees(t);
      ConnectionService.CalculatedSplitIsExact(t, ConnectionService.DefaultConfigName);
      var c := ConnectionService.NewConnection(caller, body.recipient, body.moment, fees.value);
      NewConnectionLinked(t.connections, t.transactions, t.earnings, t.messages, s.out.value.0, c);
    }
    OtherTablesKept(t, r.db);
  }

  lemma PayKeepsConsistent(t: Tables, caller: Id, id: Id, payment: TransactionService.TransactionCreate)
    requires Consistent(t)
    ensures Consistent(ConnectionsApi.CompleteConnectionPayment(t, caller, id, payment).db)
  {
    var r := ConnectionsApi.CompleteConnectionPayment(t, caller, id, payment);
    if r.db != t {
      ConnectionService.ProcessPaymentKeepsInv(t, id, payment);
      var c := t.connections[id];
      var row := Transaction(c.requester, Some(id), payment.amount, payment.currency, Success,
                             payment.paymentMethod, payment.externalId);
      PaymentLinked(t.connections, t.transactions, t.earnings, t.messages, id, t.clock, row);
      OtherTablesKept(t, r.db);
    }
  }

  /**
   * The payment endpoint as written keeps the tables consistent too: whoever
   * calls it, the row it writes is the requester's, exactly as when the
   * requester pays.
   */
  lemma PayAsWrittenKeepsConsistent(t: Tables, caller: Id, id: Id, payment: TransactionService.TransactionCreate)
    requires Consistent(t)
    ensures Consistent(ConnectionsApi.CompleteConnectionPaymentAsWritten(t, caller, id, payment).db)
  {
    if id in t.connections {
      var requester := t.connections[id].requester;
      assert ConnectionsApi.CompleteConnectionPaymentAsWritten(t, caller, id, payment).db
             == ConnectionsApi.CompleteConnectionPayment(t, requester, id, payment).db;
      PayKeepsConsistent(t, requester, id, payment);
    }
  }

  lemma RespondKeepsConsistent(t: Tables, caller: Id, id: Id, decision: ConnectionStatus)
    requires Consistent(t)
    ensures Consistent(ConnectionsApi.UpdateConnectionStatus(t, caller, id, decision).db)
  {
    var r := ConnectionsApi.UpdateConnectionStatus(t, caller, id, decision);
    if r.db != t {
      ConnectionService.HandleRecipientResponseKeepsInv(t, id, caller, decision);
      var c := t.connections[id];
      var cs := t.connections[id := c.(status := decision)];
      SettledLinked(t.connections, t.transactions, t.earnings, t.messages, id, decision);
      if decision == Accepted {
        var e := Earning(c.recipient, id, c.posterShare, "USD", PendingPayout, None, None);
        EarningLinked(cs, t.transactions, t.earnings, t.messages, t.clock, e);
      }
      OtherTablesKept(t, r.db);
    }
  }

  lemma OverwriteKeepsConsistent(t: Tables, id: Id, status: ConnectionStatus)
    requires Consistent(t)
    ensures Consistent(ConnectionService.UpdateConnectionStatus(t, id, status).db)
  {
    var r := ConnectionService.UpdateConnectionStatus(t, id, status);
    if r.out.Some? {
      ConnectionService.UpdateConnectionStatusKeepsInv(t, id, status);
      SettledLinked(t.connections, t.transactions, t.earnings, t.messages, id, status);
      OtherTablesKept(t, r.db);
    }
  }

  lemma SetPaymentStatusKeepsConsistent(t: Tables, id: Id, status: TransactionStatus, externalId: Option<string>)
    requires Consistent(t)
    ensures Consistent(TransactionService.UpdateTransactionStatus(t, id, status, externalId).db)
  {
    var r := TransactionService.UpdateTransactionStatus(t, id, status, externalId);
    if r.db != t {
      TransactionService.UpdateTransactionStatusKeepsInv(t, id, status, externalId);
      PaymentRewrittenLinked(t.connections, t.transactions, t.earnings, t.messages, id, r.db.transactions[id]);
      OtherTablesKept(t, r.db);
    }
  }

  lemma SetEarningStatusKeepsConsistent(t: Tables, id: Id, status: EarningStatus, payout: Option<Id>)
    requires Consistent(t)
    ensures Consistent(EarningService.UpdateEarningStatus(t, id, status, payout).db)
  {
    var r := EarningService.UpdateEarningStatus(t, id, status, payout);
    if id in t.earnings {
      EarningService.UpdateEarningStatusKeepsInv(t, id, status, payout);
      EarningRewrittenLinked(t.connections, t.transactions, t.earnings, t.messages, id, r.db.earnings[id]);
      OtherTablesKept(t, r.db);
    }
  }

  lemma SendKeepsConsistent(t: Tables, caller: Id, message: MessageService.MessageCreate)
    requires Consistent(t)
    ensures Consistent(MessagesApi.CreateMessage(t, caller, message).db)
  {
    var r := MessagesApi.CreateMessage(t, caller, message);
    if r.out.Ok? {
      MessageService.CreateMessageKeepsInv(t, message, caller);
      MessageLinked(t.connections, t.transactions, t.earnings, t.messages, r.out.value,
                    Message(message.connection, caller, message.text, false));
      OtherTablesKept(t, r.db);
    }
  }

  lemma ReadKeepsConsistent(t: Tables, caller: Id, id: Id)
    requires Consistent(t)
    ensures Consistent(MessagesApi.MarkMessageAsRead(t, caller, id).db)
  {
    var r := MessagesApi.MarkMessageAsRead(t, caller, id);
    if r.out.Ok? {
      MessageService.MarkMessageAsReadKeepsInv(t, id);
      MessageReadLinked(t.connections, t.transactions, t.earnings, t.messages, id);
      OtherTablesKept(t, r.db);
    }
  }

  /** The mark-read endpoint as written keeps the tables consistent: it succeeds only where the corrected one does. */
  lemma ReadAsWrittenKeepsConsistent(t: Tables, caller: Id, id: Id)
    requires Consistent(t)
    ensures Consistent(MessagesApi.MarkMessageAsReadAsWritten(t, caller, id).db)
  {
    if MessagesApi.MarkMessageAsReadAsWritten(t, caller, id).out.Ok? {
      MessagesApi.CorrectionKeepsRecipientReads(t, caller, id);
      ReadKeepsConsistent(t, caller, id);
    }
  }

  lemma AddFlirtKeepsConsistent(t: Tables, caller: Id, moment: Id)
    requires Consistent(t)
    ensures Consistent(FlirtsApi.CreateFlirt(t, caller, moment).db)
  {
    if moment in t.moments && t.moments[moment].author != caller {
      FlirtService.CreateFlirtKeepsInv(t, caller, moment);
      FlirtService.CreateFlirtKeepsCounts(t, caller, moment);
    }
  }

  lemma RemoveFlirtKeepsConsistent(t: Tables, caller: Id, id: Id)
    requires Consistent(t)
    ensures Consistent(FlirtsApi.DeleteFlirt(t, caller, id).db)
  {
    if id in t.flirts && t.flirts[id].flirter == caller {
      FlirtService.DeleteFlirtKeepsInv(t, id);
      FlirtService.DeleteFlirtKeepsCounts(t, id);
    }
  }

  lemma ApplyKeepsConsistent(t: Tables, call: Call)
    requires Consistent(t)
    ensures Consistent(Apply(t, call))
  {
    match call
    case Request(caller, body) => RequestKeepsConsistent(t, caller, body);
    case Pay(caller, id, payment) => PayKeepsConsistent(t, caller, id, payment);
    case PayAsWritten(caller, id, payment) => PayAsWrittenKeepsConsistent(t, caller, id, payment);
    case Respond(caller, id, decision) => RespondKeepsConsistent(t, caller, id, decision);
    case Overwrite(id, status) => OverwriteKeepsConsistent(t, id, status);
    case SetPaymentStatus(id, status, externalId) => SetPaymentStatusKeepsConsistent(t, id, status, externalId);
    case SetEarningStatus(id, status, payout) => SetEarningStatusKeepsConsistent(t, id, status, payout);
    case Send(caller, message) => SendKeepsConsistent(t, caller, message);
    case Read(caller, id) => ReadKeepsConsistent(t, caller, id);
    case ReadAsWritten(caller, id) => ReadAsWrittenKeepsConsistent(t, caller, id);
    case AddFlirt(caller, moment) => AddFlirtKeepsConsistent(t, caller, moment);
    case RemoveFlirt(caller, id) => RemoveFlirtKeepsConsistent(t, caller, id);
  }

  /** The tables after serving `calls` in order; consistent whatever the calls. */
  function Run(t: Tables, calls: seq<Call>): (r: Tables)
    requires Consistent(t)
    ensures Consistent(r)
    decreases |calls|
  {
    if calls == [] then t
    else
      ApplyKeepsConsistent(t, calls[0]);
      Run(Apply(t, calls[0]), calls[1..])
  }

  /**
   * A fresh system: users, moments nobody has flirted with, admissible
   * configurations, and nothing else yet.
   */
  lemma InitialIsConsistent(users: set<Id>, moments: map<Id, Moment>, configs: map<Id, MonetizationConfig>, clock: nat)
    requires forall k :: k in moments ==> k < clock && moments[k].flirtCount == 0
    requires forall k :: k in configs ==> k < clock && Monetisation.Admissible(configs[k])
    requires forall i, j :: i in configs && j in configs && configs[i].name == configs[j].name ==> i == j
    ensures Consistent(Tables(users, moments, configs, map[], map[], map[], map[], map[], [], clock))
  {
    var t := Tables(users, moments, configs, map[], map[], map[], map[], map[], [], clock);
    forall m | m in moments
      ensures moments[m].flirtCount == |FlirtService.FlirtsOn(t.flirts, m)|
    {
      assert FlirtService.FlirtsOn(t.flirts, m) == {};
    }
  }

  // ---------------------------------------------------------------------------
  // The standard fee of 10.00 split 20/80, step by step: user 1 asks user 2.
  // ---------------------------------------------------------------------------

  const StandardConfig := MonetizationConfig(ConnectionService.DefaultConfigName, 10.0, 0.2, 0.8, true)
  const Start := Tables({1, 2}, map[], map[0 := StandardConfig], map[], map[], map[], map[], map[], [], 3)
  const Requested := Connection(1, 2, None, PendingPayment, 10.0, 2.0, 8.0)
  const Payment := TransactionService.TransactionCreate(3, 10.0, "USD", "card", Some("ch_1"))
  const AfterRequest := Start.(connections := map[3 := Requested], clock := 4)
  const AfterPayment := AfterRequest.(
    connections := map[3 := Requested.(status := PaidPendingAccept)],
    transactions := map[4 := Transaction(1, Some(3), 10.0, "USD", Success, "card", Some("ch_1"))],
    notifications := [Notification(2, 1, ConnectionRequest, 3)],
    clock := 5)
  const AfterAcceptance := AfterPayment.(
    connections := map[3 := Requested.(status := Accepted)],
    earnings := map[5 := Earning(2, 3, 8.0, "USD", PendingPayout, None, None)],
    notifications := AfterPayment.notifications + [Notification(1, 2, ConnectionAccepted, 3)],
    clock := 6)

  /** The request costs 10.00, of which 2.00 is the platform's and 8.00 the recipient's. */
  lemma ScenarioRequest()
    ensures ConnectionsApi.RequestConnection(Start, 1, ConnectionsApi.ConnectionRequest(2, None)) == Step(AfterRequest, Ok(3))
  {
    assert ConnectionService.ActiveNamed(Start, 0, ConnectionService.DefaultConfigName);
    assert ConnectionService.GetPendingConnection(Start, 1, 2, None).None?;
  }

  /** Paying writes the 10.00 payment row and hands the request to the recipient. */
  lemma ScenarioPayment()
    ensures ConnectionsApi.CompleteConnectionPayment(AfterRequest, 1, 3, Payment)
            == Step(AfterPayment, Ok(Requested.(status := PaidPendingAccept)))
  {
    assert !TransactionService.ConnectionTaken(AfterRequest.transactions, Some(3));
    assert !TransactionService.ExternalIdTaken(AfterRequest.transactions, Payment.externalId, 4);
  }

  /** Nobody can write before the recipient accepts. */
  lemma ScenarioNoEarlyMessage()
    ensures MessagesApi.CreateMessage(AfterPayment, 1, MessageService.MessageCreate(3, "hi")).out == Err(BadRequest)
  {
  }

  /** Accepting owes the recipient 8.00 and tells the requester. */
  lemma ScenarioAcceptance()
    ensures ConnectionsApi.UpdateConnectionStatus(AfterPayment, 2, 3, Accepted)
            == Step(AfterAcceptance, Ok(Requested.(status := Accepted)))
  {
    assert !EarningService.EarningExists(AfterPayment.earnings, 3);
  }

  /** After acceptance the requester's message goes through and the recipient is told. */
  lemma ScenarioMessage()
    ensures var sent := MessagesApi.CreateMessage(AfterAcceptance, 1, MessageService.MessageCreate(3, "hi"));
            && sent.out == Ok(6)
            && sent.db.notifications == AfterAcceptance.notifications + [Notification(2, 1, NewMessage, 6)]
  {
  }
}
