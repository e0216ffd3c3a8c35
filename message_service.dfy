/** Direct messages inside a connection: the messaging gate, the read flag and the listing. */
module MessageService {
  import opened Models
  import Query

  /** The body of a message request. */
  datatype MessageCreate = MessageCreate(connection: Id, text: string)

  const MaxTextLength: nat := 1000

  /** The schema's bounds on a message body: between 1 and 1000 characters. */
  predicate TextAccepted(text: string) {
    1 <= |text| <= MaxTextLength
  }

  /** A message may be written into connection `c` by `sender` exactly when this holds. */
  predicate MayWrite(t: Tables, c: Id, sender: Id) {
    c in t.connections && IsParty(t.connections[c], sender) && t.connections[c].status == Accepted
  }

  /**
   * The messaging gate. Fails, in this order, when the connection is
   * missing, when the sender is neither of its parties, and when it is not
   * ACCEPTED; otherwise inserts exactly one unread message.
   */
  function CreateMessage(t: Tables, input: MessageCreate, sender: Id): (r: Step<Result<Id>>)
    requires Inv(t)
    ensures r.out.Ok? <==> MayWrite(t, input.connection, sender)
    ensures r.out.Err? ==> r.db == t
    ensures input.connection !in t.connections ==> r.out == Err(Invalid(ConnectionNotFound))
    ensures input.connection in t.connections && !IsParty(t.connections[input.connection], sender)
            ==> r.out == Err(Invalid(NotAParty))
    ensures input.connection in t.connections && IsParty(t.connections[input.connection], sender)
            && t.connections[input.connection].status != Accepted
            ==> r.out == Err(Invalid(NotAccepted))
    ensures r.out.Ok? ==>
      && r.out.value !in t.messages
      && r.db == t.(messages := t.messages[r.out.value := Message(input.connection, sender, input.text, false)],
                    clock := t.clock + 1)
  {
    if input.connection !in t.connections then Step(t, Err(Invalid(ConnectionNotFound)))
    else
      var c := t.connections[input.connection];
      if !IsParty(c, sender) then Step(t, Err(Invalid(NotAParty)))
      else if c.status != Accepted then Step(t, Err(Invalid(NotAccepted)))
      else
        var m := Message(input.connection, sender, input.text, false);
        Step(t.(messages := t.messages[t.clock := m], clock := t.clock + 1), Ok(t.clock))
  }

  /**
   * Flips an unread message to read and returns it; a message that is
   * missing or already read yields nothing and changes nothing.
   */
  function MarkMessageAsRead(t: Tables, id: Id): (r: Step<Option<Message>>)
    requires Inv(t)
    ensures r.out.Some? <==> id in t.messages && !t.messages[id].isRead
    ensures r.out.None? ==> r.db == t
    ensures r.out.Some? ==>
      && r.out.value == t.messages[id].(isRead := true)
      && r.db == t.(messages := t.messages[id := r.out.value])
  {
    if id in t.messages && !t.messages[id].isRead then
      var m := t.messages[id].(isRead := true);
      Step(t.(messages := t.messages[id := m]), Some(m))
    else Step(t, None)
  }

  /** Every message of connection `c`, oldest first. */
  function MessagesOf(t: Tables, c: Id): (r: seq<Id>)
    requires Inv(t)
    ensures forall i :: 0 <= i < |r| ==> r[i] in t.messages && t.messages[r[i]].connection == c
    ensures forall i, j :: 0 <= i < j < |r| ==> r[i] < r[j]
    ensures forall k :: k in t.messages && t.messages[k].connection == c ==> k in r
  {
    Query.Ascending(0, t.clock, k => k in t.messages && t.messages[k].connection == c)
  }

  /**
   * `.offset(skip).limit(limit)` over `MessagesOf`: messages of connection
   * `c` only, oldest first, the run of at most `limit` starting at position
   * `skip`, and all of them for a wide enough window.
   */
  function GetMessagesByConnection(t: Tables, c: Id, skip: nat := 0, limit: nat := 100): (r: seq<Id>)
    requires Inv(t)
    ensures var all := MessagesOf(t, c);
            && |r| == (if skip >= |all| then 0 else if limit < |all| - skip then limit else |all| - skip)
            && forall i :: 0 <= i < |r| ==> r[i] == all[skip + i]
    ensures forall i :: 0 <= i < |r| ==> r[i] in t.messages && t.messages[r[i]].connection == c
    ensures forall i, j :: 0 <= i < j < |r| ==> r[i] < r[j]
    ensures |r| <= limit
    ensures skip == 0 && limit >= t.clock ==>
              forall k :: k in t.messages && t.messages[k].connection == c ==> k in r
  {
    var all := MessagesOf(t, c);
    var r := Query.Window(all, skip, limit);
    assert forall i :: 0 <= i < |r| ==> r[i] == all[skip + i];
    assert skip == 0 && limit >= t.clock ==> r == all;
    r
  }

  lemma CreateMessageKeepsInv(t: Tables, input: MessageCreate, sender: Id)
    requires Inv(t)
    ensures Inv(CreateMessage(t, input, sender).db)
  {
  }

  lemma MarkMessageAsReadKeepsInv(t: Tables, id: Id)
    requires Inv(t)
    ensures Inv(MarkMessageAsRead(t, id).db)
  {
  }

  /** Marking twice: the second call finds the message already read and is refused. */
  lemma MarkingIsNotRepeatable(t: Tables, id: Id)
    requires Inv(t)
    ensures var first := MarkMessageAsRead(t, id);
            first.out.Some? ==> MarkMessageAsRead(first.db, id) == Step(first.db, None)
  {
    MarkMessageAsReadKeepsInv(t, id);
  }
}
