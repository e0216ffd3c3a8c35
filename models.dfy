/**
 * Records of the paid-connection workflow and the store that holds them.
 *
 * Every table is a map keyed by identifier. One counter, `clock`, stands for
 * both `uuid.uuid4()` and `datetime.utcnow()`: each inserted row receives the
 * current value as its identifier (which is also the instant it was written)
 * and the counter advances, so ordering rows by creation time is ordering
 * them by identifier.
 */
module Models {

  type Id = nat

  datatype Option<T> = None | Some(value: T)

  /** The values of `connections.status`. */
  datatype ConnectionStatus = PendingPayment | PaidPendingAccept | Accepted | Declined | Canceled

  /** The values of `transactions.status`. */
  datatype TransactionStatus = Pending | Success | Failed | Refunded

  /** The values of `earnings.status`; `PayoutCanceled` is the stored value "CANCELED". */
  datatype EarningStatus = PendingPayout | PaidOut | PayoutCanceled

  datatype Connection = Connection(
    requester: Id,
    recipient: Id,
    moment: Option<Id>,
    status: ConnectionStatus,
    fee: real,
    platformCut: real,
    posterShare: real)

  datatype Transaction = Transaction(
    payer: Id,
    connection: Option<Id>,
    amount: real,
    currency: string,
    status: TransactionStatus,
    paymentMethod: string,
    externalId: Option<string>)

  datatype Earning = Earning(
    user: Id,
    connection: Id,
    amount: real,
    currency: string,
    status: EarningStatus,
    paidOutAt: Option<nat>,
    payoutTransaction: Option<Id>)

  datatype Message = Message(connection: Id, sender: Id, text: string, isRead: bool)

  /** The part of a moment (post) that this workflow reads or writes. */
  datatype Moment = Moment(author: Id, flirtCount: int)

  datatype Flirt = Flirt(flirter: Id, moment: Id)

  datatype MonetizationConfig = MonetizationConfig(
    name: string,
    feeBase: real,
    platformCutPct: real,
    posterSharePct: real,
    isActive: bool)

  datatype NotificationType = ConnectionRequest | ConnectionAccepted | ConnectionDeclined | NewMessage

  /** One emitted notification: who receives it, who caused it, what kind, which row it is about. */
  datatype Notification = Notification(recipient: Id, sender: Id, kind: NotificationType, entity: Id)

  /** Why a service raised `ValueError` or a schema rejected its input. */
  datatype Reason =
    | RecipientNotFound | SelfConnection | FeeConfigMissing
    | ConnectionNotFound | NotAParty | NotAccepted
    | NameTooLong | FeeNotPositive | PercentageOutOfRange | PercentagesDoNotSumToOne

  /**
   * HTTP errors (404, 403, 400, 409, and 422 for a request body that fails
   * its schema), a unique-constraint violation (also `Conflict`), and `ValueError`.
   */
  datatype Error = NotFound | Forbidden | BadRequest | Conflict | Unprocessable | Invalid(reason: Reason)

  datatype Result<T> = Ok(value: T) | Err(error: Error)

  /** An endpoint's `except ValueError` clause: a `ValueError` becomes 400, anything else passes through. */
  function AsHttp(e: Error): Error {
    if e.Invalid? then BadRequest else e
  }

  /** The whole database. */
  datatype Tables = Tables(
    users: set<Id>,
    moments: map<Id, Moment>,
    configs: map<Id, MonetizationConfig>,
    connections: map<Id, Connection>,
    transactions: map<Id, Transaction>,
    earnings: map<Id, Earning>,
    messages: map<Id, Message>,
    flirts: map<Id, Flirt>,
    notifications: seq<Notification>,
    clock: nat)

  /** What an operation leaves behind: the new database and what it returns. */
  datatype Step<T> = Step(db: Tables, out: T)

  /** Appends one notification to the log (the notification row insert). */
  function Notify(t: Tables, n: Notification): (t': Tables)
    ensures t'.notifications == t.notifications + [n]
    ensures t' == t.(notifications := t'.notifications)
  {
    t.(notifications := t.notifications + [n])
  }

  // ---------------------------------------------------------------------------
  // Store invariant: the table constraints (unique constraints and the two
  // foreign keys), the non-negative counts kept by the delete's guard, and
  // the modelling fact that identifiers were issued before the current instant.
  // ---------------------------------------------------------------------------

  /** Every identifier in use in one table was issued before instant `clock`. */
  ghost predicate Issued<V>(m: map<Id, V>, clock: nat) {
    forall k :: k in m ==> k < clock
  }

  /** Advancing the clock keeps a table's identifiers issued. */
  lemma IssuedLater<V>(m: map<Id, V>, clock: nat, later: nat)
    requires Issued(m, clock) && clock <= later
    ensures Issued(m, later)
  {
  }

  /** A row stored under the current instant is issued once the clock moves on. */
  lemma IssuedInsert<V>(m: map<Id, V>, clock: nat, v: V)
    requires Issued(m, clock)
    ensures clock !in m && Issued(m[clock := v], clock + 1)
  {
  }

  /**
   * Two connections collide on `_unique_connection_per_moment`. A NULL
   * `moment_id` never collides, as NULLs are distinct in a SQL unique constraint.
   */
  predicate SameTriple(a: Connection, b: Connection) {
    a.moment.Some? && a.requester == b.requester && a.recipient == b.recipient && a.moment == b.moment
  }

  ghost predicate ConnectionsUnique(cs: map<Id, Connection>) {
    forall i, j {:trigger SameTriple(cs[i], cs[j])} :: i in cs && j in cs && SameTriple(cs[i], cs[j]) ==> i == j
  }

  /** Moving a connection to another status never makes two connections collide. */
  lemma RestatusKeepsUnique(cs: map<Id, Connection>, id: Id, s: ConnectionStatus)
    requires ConnectionsUnique(cs) && id in cs
    ensures ConnectionsUnique(cs[id := cs[id].(status := s)])
  {
    var cs' := cs[id := cs[id].(status := s)];
    forall i, j | i in cs' && j in cs' && SameTriple(cs'[i], cs'[j])
      ensures i == j
    {
      assert SameTriple(cs[i], cs[j]);
    }
  }

  /** `transactions.connection_id` and `transactions.external_id` are unique when present. */
  predicate SameLink(a: Transaction, b: Transaction) {
    a.connection.Some? && a.connection == b.connection
  }

  predicate SameReference(a: Transaction, b: Transaction) {
    a.externalId.Some? && a.externalId == b.externalId
  }

  ghost predicate TransactionsUnique(ts: map<Id, Transaction>) {
    && (forall i, j {:trigger SameLink(ts[i], ts[j])} :: i in ts && j in ts && SameLink(ts[i], ts[j]) ==> i == j)
    && (forall i, j {:trigger SameReference(ts[i], ts[j])} :: i in ts && j in ts && SameReference(ts[i], ts[j]) ==> i == j)
  }

  /** `earnings.connection_id` is unique. */
  predicate SameConnection(a: Earning, b: Earning) {
    a.connection == b.connection
  }

  ghost predicate EarningsUnique(es: map<Id, Earning>) {
    forall i, j {:trigger SameConnection(es[i], es[j])} :: i in es && j in es && SameConnection(es[i], es[j]) ==> i == j
  }

  /** `_flirter_moment_uc`: one flirt per (flirter, moment). */
  predicate SamePair(a: Flirt, b: Flirt) {
    a.flirter == b.flirter && a.moment == b.moment
  }

  ghost predicate FlirtsUnique(fs: map<Id, Flirt>) {
    forall i, j {:trigger SamePair(fs[i], fs[j])} :: i in fs && j in fs && SamePair(fs[i], fs[j]) ==> i == j
  }

  /** `monetization_configs.config_name` is unique. */
  predicate SameName(a: MonetizationConfig, b: MonetizationConfig) {
    a.name == b.name
  }

  ghost predicate ConfigNamesUnique(cs: map<Id, MonetizationConfig>) {
    forall i, j {:trigger SameName(cs[i], cs[j])} :: i in cs && j in cs && SameName(cs[i], cs[j]) ==> i == j
  }

  /**
   * No moment's flirt count is negative. The column has no CHECK constraint:
   * this is kept by the guard of the flirt delete, not by the table.
   */
  ghost predicate FlirtCountsNonNegative(ms: map<Id, Moment>) {
    forall k :: k in ms ==> ms[k].flirtCount >= 0
  }

  /** `messages.connection_id` is a non-null foreign key to `connections`. */
  ghost predicate MessagesLinked(ms: map<Id, Message>, cs: map<Id, Connection>) {
    forall k :: k in ms ==> ms[k].connection in cs
  }

  /** `flirts.moment_id` is a non-null foreign key to `moments`. */
  ghost predicate FlirtsLinked(fs: map<Id, Flirt>, ms: map<Id, Moment>) {
    forall k :: k in fs ==> fs[k].moment in ms
  }

  /** The store invariant: the conjunction of the predicates above. */
  ghost predicate Inv(t: Tables) {
    && Issued(t.moments, t.clock) && Issued(t.configs, t.clock) && Issued(t.connections, t.clock)
    && Issued(t.transactions, t.clock) && Issued(t.earnings, t.clock) && Issued(t.messages, t.clock)
    && Issued(t.flirts, t.clock)
    && ConfigNamesUnique(t.configs)
    && ConnectionsUnique(t.connections)
    && TransactionsUnique(t.transactions)
    && EarningsUnique(t.earnings)
    && FlirtsUnique(t.flirts)
    && FlirtCountsNonNegative(t.moments)
    && MessagesLinked(t.messages, t.connections)
    && FlirtsLinked(t.flirts, t.moments)
  }

  /** A connection is settled once the recipient (or an administrator) has moved it past acceptance. */
  predicate Settled(s: ConnectionStatus) {
    s == Accepted || s == Declined || s == Canceled
  }

  predicate IsParty(c: Connection, user: Id) {
    user == c.requester || user == c.recipient
  }
}
