/**
 * The database as the services see it: one object whose tables the
 * service operations update in place. Each method performs the guards
 * and writes of its service function step by step, and its contract ties
 * the resulting tables and answer to the function of the same name, so
 * every property proved about the functions holds of the methods.
 */
module Store {
  import opened Models
  import TransactionService
  import EarningService
  import ConnectionService
  import MessageService
  import FlirtService

  class Database {
    var users: set<Id>
    var moments: map<Id, Moment>
    var configs: map<Id, MonetizationConfig>
    var connections: map<Id, Connection>
    var transactions: map<Id, Transaction>
    var earnings: map<Id, Earning>
    var messages: map<Id, Message>
    var flirts: map<Id, Flirt>
    var notifications: seq<Notification>
    var clock: nat

    /** The current contents of every table. */
    function Snapshot(): Tables
      reads this
    {
      Tables(users, moments, configs, connections, transactions, earnings, messages, flirts, notifications, clock)
    }

    ghost predicate Valid()
      reads this
    {
      Inv(Snapshot())
    }

    /** A database holding users, moments and configurations, and nothing else yet. */
    constructor (users: set<Id>, moments: map<Id, Moment>, configs: map<Id, MonetizationConfig>, clock: nat)
      requires forall k :: k in moments ==> k < clock && moments[k].flirtCount >= 0
      requires forall k :: k in configs ==> k < clock
      requires forall i, j :: i in configs && j in configs && configs[i].name == configs[j].name ==> i == j
      ensures Valid()
      ensures Snapshot() == Tables(users, moments, configs, map[], map[], map[], map[], map[], [], clock)
    {
      this.users := users;
      this.moments := moments;
      this.configs := configs;
      this.connections := map[];
      this.transactions := map[];
      this.earnings := map[];
      this.messages := map[];
      this.flirts := map[];
      this.notifications := [];
      this.clock := clock;
    }

    method CreateTransaction(user: Id, input: TransactionService.TransactionCreate,
                             status: TransactionStatus := Pending,
                             connection: Option<Id> := None) returns (r: Result<Id>)
      requires Valid()
      modifies this
      ensures Step(Snapshot(), r) == TransactionService.CreateTransaction(old(Snapshot()), user, input, status, connection)
      ensures Valid()
    {
      TransactionService.CreateTransactionKeepsInv(Snapshot(), user, input, status, connection);
      if TransactionService.ConnectionTaken(transactions, connection)
         || TransactionService.ExternalIdTaken(transactions, input.externalId, clock) {
        return Err(Conflict);
      }
      var id := clock;
      transactions := transactions[id := Transaction(user, connection, input.amount, input.currency, status,
                                                     input.paymentMethod, input.externalId)];
      clock := clock + 1;
      r := Ok(id);
    }

    method UpdateTransactionStatus(id: Id, status: TransactionStatus, externalId: Option<string> := None)
      returns (r: Result<Option<Transaction>>)
      requires Valid()
      modifies this
      ensures Step(Snapshot(), r) == TransactionService.UpdateTransactionStatus(old(Snapshot()), id, status, externalId)
      ensures Valid()
    {
      ghost var before := Snapshot();
      ghost var spec := TransactionService.UpdateTransactionStatus(before, id, status, externalId);
      TransactionService.UpdateTransactionStatusKeepsInv(before, id, status, externalId);
      if id !in transactions {
        return Ok(None);
      }
      var row := transactions[id];
      row := row.(status := status);
      if TransactionService.Replaces(externalId) {
        if TransactionService.ExternalIdTaken(transactions, externalId, id) {
          return Err(Conflict);
        }
        row := row.(externalId := externalId);
      }
      transactions := transactions[id := row];
      r := Ok(Some(row));
      assert spec == Step(Snapshot(), r);
    }

    method CreateEarning(user: Id, connection: Id, amount: real, currency: string := "USD") returns (r: Result<Id>)
      requires Valid()
      modifies this
      ensures Step(Snapshot(), r) == EarningService.CreateEarning(old(Snapshot()), user, connection, amount, currency)
      ensures Valid()
    {
      EarningService.CreateEarningKeepsInv(Snapshot(), user, connection, amount, currency);
      if EarningService.EarningExists(earnings, connection) {
        return Err(Conflict);
      }
      var id := clock;
      earnings := earnings[id := Earning(user, connection, amount, currency, PendingPayout, None, None)];
      clock := clock + 1;
      r := Ok(id);
    }

    method UpdateEarningStatus(id: Id, status: EarningStatus, payoutTransaction: Option<Id> := None)
      returns (r: Option<Earning>)
      requires Valid()
      modifies this
      ensures Step(Snapshot(), r) == EarningService.UpdateEarningStatus(old(Snapshot()), id, status, payoutTransaction)
      ensures Valid()
    {
      EarningService.UpdateEarningStatusKeepsInv(Snapshot(), id, status, payoutTransaction);
      if id !in earnings {
        return None;
      }
      var row := earnings[id].(status := status);
      if status == PaidOut {
        row := row.(paidOutAt := Some(clock), payoutTransaction := payoutTransaction);
        clock := clock + 1;
      }
      earnings := earnings[id := row];
      r := Some(row);
    }

    method CreateConnectionRequest(requester: Id, recipient: Id, moment: Option<Id>) returns (r: Result<(Id, real)>)
      requires Valid()
      modifies this
      ensures Step(Snapshot(), r) == ConnectionService.CreateConnectionRequest(old(Snapshot()), requester, recipient, moment)
      ensures Valid()
    {
      var before := Snapshot();
      ConnectionService.CreateConnectionRequestKeepsInv(before, requester, recipient, moment);
      if recipient !in users {
        return Err(Invalid(RecipientNotFound));
      }
      if requester == recipient {
        return Err(Invalid(SelfConnection));
      }
      var existing := ConnectionService.GetPendingConnection(before, requester, recipient, moment);
      if existing.Some? {
        return Ok((existing.value, connections[existing.value].fee));
      }
      var fees := ConnectionService.CalculateConnectionFees(before);
      if fees.Err? {
        return Err(Invalid(FeeConfigMissing));
      }
      var c := ConnectionService.NewConnection(requester, recipient, moment, fees.value);
      if ConnectionService.TripleTaken(connections, c) {
        return Err(Conflict);
      }
      var id := clock;
      connections := connections[id := c];
      clock := clock + 1;
      r := Ok((id, fees.value.fee));
    }

    method UpdateConnectionStatus(id: Id, status: ConnectionStatus) returns (r: Option<Connection>)
      requires Valid()
      modifies this
      ensures Step(Snapshot(), r) == ConnectionService.UpdateConnectionStatus(old(Snapshot()), id, status)
      ensures Valid()
    {
      ConnectionService.UpdateConnectionStatusKeepsInv(Snapshot(), id, status);
      if id !in connections || !Settled(status) {
        return None;
      }
      var c := connections[id].(status := status);
      connections := connections[id := c];
      r := Some(c);
    }

    method ProcessPaymentAndActivateConnection(id: Id, input: TransactionService.TransactionCreate)
      returns (r: Result<Connection>)
      requires Valid()
      modifies this
      ensures Step(Snapshot(), r) == ConnectionService.ProcessPaymentAndActivateConnection(old(Snapshot()), id, input)
      ensures Valid()
    {
      ghost var before := Snapshot();
      ConnectionService.ProcessPaymentKeepsInv(before, id, input);
      if id !in connections {
        return Err(NotFound);
      }
      var c := connections[id];
      if c.status != PendingPayment {
        return Err(BadRequest);
      }
      var paid := CreateTransaction(c.requester, input, Success, Some(id));
      ghost var recorded := TransactionService.CreateTransaction(before, c.requester, input, Success, Some(id));
      assert Snapshot() == recorded.db && paid == recorded.out;
      if paid.Err? {
        return Err(paid.error);
      }
      var activated := c.(status := PaidPendingAccept);
      connections := connections[id := activated];
      if c.recipient in users {
        notifications := notifications + [Notification(c.recipient, c.requester, ConnectionRequest, id)];
      }
      r := Ok(activated);
      assert Snapshot() == ConnectionService.ProcessPaymentAndActivateConnection(before, id, input).db;
    }

    /**
     * The earning is written before the status so that a refused earning
     * leaves nothing to undo; the committed result is the same.
     */
    method HandleRecipientResponse(id: Id, recipient: Id, decision: ConnectionStatus) returns (r: Result<Connection>)
      requires Valid()
      modifies this
      ensures Step(Snapshot(), r) == ConnectionService.HandleRecipientResponse(old(Snapshot()), id, recipient, decision)
      ensures Valid()
    {
      ConnectionService.HandleRecipientResponseKeepsInv(Snapshot(), id, recipient, decision);
      if id !in connections {
        return Err(NotFound);
      }
      var c := connections[id];
      if c.recipient != recipient {
        return Err(Forbidden);
      }
      if c.status != PaidPendingAccept {
        return Err(BadRequest);
      }
      if decision == Accepted {
        var earned := CreateEarning(c.recipient, id, c.posterShare);
        if earned.Err? {
          return Err(earned.error);
        }
        var accepted := c.(status := Accepted);
        connections := connections[id := accepted];
        notifications := notifications + [Notification(c.requester, c.recipient, ConnectionAccepted, id)];
        r := Ok(accepted);
      } else if decision == Declined {
        var declined := c.(status := Declined);
        connections := connections[id := declined];
        notifications := notifications + [Notification(c.requester, c.recipient, ConnectionDeclined, id)];
        r := Ok(declined);
      } else {
        r := Err(BadRequest);
      }
    }

    method CreateMessage(input: MessageService.MessageCreate, sender: Id) returns (r: Result<Id>)
      requires Valid()
      modifies this
      ensures Step(Snapshot(), r) == MessageService.CreateMessage(old(Snapshot()), input, sender)
      ensures Valid()
    {
      MessageService.CreateMessageKeepsInv(Snapshot(), input, sender);
      if input.connection !in connections {
        return Err(Invalid(ConnectionNotFound));
      }
      var c := connections[input.connection];
      if !IsParty(c, sender) {
        return Err(Invalid(NotAParty));
      }
      if c.status != Accepted {
        return Err(Invalid(NotAccepted));
      }
      var id := clock;
      messages := messages[id := Message(input.connection, sender, input.text, false)];
      clock := clock + 1;
      r := Ok(id);
    }

    method MarkMessageAsRead(id: Id) returns (r: Option<Message>)
      requires Valid()
      modifies this
      ensures Step(Snapshot(), r) == MessageService.MarkMessageAsRead(old(Snapshot()), id)
      ensures Valid()
    {
      MessageService.MarkMessageAsReadKeepsInv(Snapshot(), id);
      if id in messages && !messages[id].isRead {
        var m := messages[id].(isRead := true);
        messages := messages[id := m];
        return Some(m);
      }
      r := None;
    }

    method CreateFlirt(flirter: Id, moment: Id) returns (r: Result<Id>)
      requires Valid()
      modifies this
      ensures Step(Snapshot(), r) == FlirtService.CreateFlirt(old(Snapshot()), flirter, moment)
      ensures Valid()
    {
      var before := Snapshot();
      FlirtService.CreateFlirtKeepsInv(before, flirter, moment);
      var existing := FlirtService.FindFlirt(before, flirter, moment);
      if existing.Some? {
        assert FlirtService.CreateFlirt(before, flirter, moment) == Step(before, Ok(existing.value));
        return Ok(existing.value);
      }
      if moment !in moments {
        assert FlirtService.CreateFlirt(before, flirter, moment) == Step(before, Err(Conflict));
        return Err(Conflict);
      }
      var id := clock;
      var next := before.(flirts := flirts[id := Flirt(flirter, moment)],
                          moments := FlirtService.Bump(moments, moment, 1), clock := clock + 1);
      assert FlirtService.CreateFlirt(before, flirter, moment) == Step(next, Ok(id));
      flirts, moments, clock := next.flirts, next.moments, next.clock;
      assert Snapshot() == next;
      r := Ok(id);
    }

    method DeleteFlirt(id: Id) returns (deleted: bool)
      requires Valid()
      modifies this
      ensures Step(Snapshot(), deleted) == FlirtService.DeleteFlirt(old(Snapshot()), id)
      ensures Valid()
    {
      FlirtService.DeleteFlirtKeepsInv(Snapshot(), id);
      if id !in flirts {
        return false;
      }
      var m := flirts[id].moment;
      if m in moments && moments[m].flirtCount > 0 {
        moments := moments[m := moments[m].(flirtCount := moments[m].flirtCount - 1)];
      }
      flirts := flirts - {id};
      deleted := true;
    }
  }
}
