/** Guards of the `/messages` endpoints and the choice of whom to notify. */
module MessagesApi {
  import opened Models
  import MessageService

  /** The party of `c` who is not `user`: the requester when `user` is the recipient, else the recipient. */
  function OtherParty(c: Connection, user: Id): (r: Id)
    ensures IsParty(c, user) ==> IsParty(c, r)
    ensures IsParty(c, user) && c.requester != c.recipient ==> r != user
  {
    if c.recipient == user then c.requester else c.recipient
  }

  /**
   * POST /messages: 422 for an empty text or one over 1000 characters, 404
   * for a missing connection, 403 for a caller who is not a party, 400
   * unless it is ACCEPTED; then the message is stored and the other party
   * is told.
   */
  function CreateMessage(t: Tables, caller: Id, body: MessageService.MessageCreate): (r: Step<Result<Id>>)
    requires Inv(t)
    ensures r.out.Ok? <==> MessageService.TextAccepted(body.text) && MessageService.MayWrite(t, body.connection, caller)
    ensures r.out.Err? ==> r.db == t
    ensures !MessageService.TextAccepted(body.text) ==> r == Step(t, Err(Unprocessable))
    ensures (MessageService.TextAccepted(body.text) && body.connection !in t.connections) ==> r.out == Err(NotFound)
    ensures (MessageService.TextAccepted(body.text) && body.connection in t.connections
             && !IsParty(t.connections[body.connection], caller)) ==> r.out == Err(Forbidden)
    ensures (MessageService.TextAccepted(body.text) && body.connection in t.connections
             && IsParty(t.connections[body.connection], caller)
             && t.connections[body.connection].status != Accepted) ==> r.out == Err(BadRequest)
    ensures r.out.Ok? ==>
      var c := t.connections[body.connection];
      && r.out.value !in t.messages
      && r.db.messages == t.messages[r.out.value := Message(body.connection, caller, body.text, false)]
      && r.db.notifications == t.notifications + [Notification(OtherParty(c, caller), caller, NewMessage, r.out.value)]
      && r.db == t.(messages := r.db.messages, notifications := r.db.notifications, clock := t.clock + 1)
  {
    if !MessageService.TextAccepted(body.text) then Step(t, Err(Unprocessable))
    else if body.connection !in t.connections then Step(t, Err(NotFound))
    else
      var c := t.connections[body.connection];
      if !IsParty(c, caller) then Step(t, Err(Forbidden))
      else if c.status != Accepted then Step(t, Err(BadRequest))
      else
        var s := MessageService.CreateMessage(t, body, caller);
        match s.out
        case Err(e) => Step(s.db, Err(AsHttp(e)))
        case Ok(id) => Step(Notify(s.db, Notification(OtherParty(c, caller), caller, NewMessage, id)), Ok(id))
  }

  /** GET /messages/connections/{id}: the parties only; 50 messages unless asked otherwise. */
  function GetMessagesInConnection(t: Tables, caller: Id, id: Id, skip: nat := 0, limit: nat := 50): (r: Result<seq<Id>>)
    requires Inv(t)
    ensures r.Ok? <==> id in t.connections && IsParty(t.connections[id], caller)
    ensures id !in t.connections ==> r == Err(NotFound)
    ensures id in t.connections && !IsParty(t.connections[id], caller) ==> r == Err(Forbidden)
    ensures r.Ok? ==>
      && (forall i :: 0 <= i < |r.value| ==> r.value[i] in t.messages && t.messages[r.value[i]].connection == id)
      && (forall i, j :: 0 <= i < j < |r.value| ==> r.value[i] < r.value[j])
      && |r.value| <= limit
    ensures r.Ok? ==>
      var all := MessageService.MessagesOf(t, id);
      && |r.value| == (if skip >= |all| then 0 else if limit < |all| - skip then limit else |all| - skip)
      && forall i :: 0 <= i < |r.value| ==> r.value[i] == all[skip + i]
    ensures r.Ok? && skip == 0 && limit >= t.clock ==>
      forall k :: k in t.messages && t.messages[k].connection == id ==> k in r.value
  {
    if id !in t.connections then Err(NotFound)
    else if !IsParty(t.connections[id], caller) then Err(Forbidden)
    else Ok(MessageService.GetMessagesByConnection(t, id, skip, limit))
  }

  /**
   * PUT /messages/{id}/read as written: 404 for a missing message, 403 for
   * its sender, 403 for anyone but the connection's recipient, 400 when it
   * is already read.
   */
  function MarkMessageAsReadAsWritten(t: Tables, caller: Id, id: Id): (r: Step<Result<Message>>)
    requires Inv(t)
    ensures r.out.Err? ==> r.db == t
    ensures id !in t.messages ==> r.out == Err(NotFound)
    ensures id in t.messages && (caller == t.messages[id].sender || caller != t.connections[t.messages[id].connection].recipient)
            ==> r.out == Err(Forbidden)
    ensures (id in t.messages && caller != t.messages[id].sender
             && caller == t.connections[t.messages[id].connection].recipient && t.messages[id].isRead)
            ==> r.out == Err(BadRequest)
    ensures r.out.Ok? <==>
      && id in t.messages
      && caller != t.messages[id].sender
      && caller == t.connections[t.messages[id].connection].recipient
      && !t.messages[id].isRead
    ensures r.out.Ok? ==>
      && r.out.value == t.messages[id].(isRead := true)
      && r.db == t.(messages := t.messages[id := r.out.value])
  {
    if id !in t.messages then Step(t, Err(NotFound))
    else
      var m := t.messages[id];
      if m.sender == caller then Step(t, Err(Forbidden))
      else if t.connections[m.connection].recipient != caller then Step(t, Err(Forbidden))
      else
        var s := MessageService.MarkMessageAsRead(t, id);
        match s.out
        case None => Step(s.db, Err(BadRequest))
        case Some(read) => Step(s.db, Ok(read))
  }

  /**
   * A message written by the connection's recipient can never be marked
   * read: its sender is refused, and so is everyone who is not the recipient.
   */
  lemma RecipientsMessagesStayUnread(t: Tables, caller: Id, id: Id)
    requires Inv(t)
    requires id in t.messages && t.messages[id].sender == t.connections[t.messages[id].connection].recipient
    ensures MarkMessageAsReadAsWritten(t, caller, id) == Step(t, Err(Forbidden))
  {
  }

  /**
   * PUT /messages/{id}/read with the reader taken to be the other party:
   * 404 for a missing message, 403 unless the caller is a party who did not
   * send it, 400 when it is already read.
   */
  function MarkMessageAsRead(t: Tables, caller: Id, id: Id): (r: Step<Result<Message>>)
    requires Inv(t)
    ensures r.out.Err? ==> r.db == t
    ensures id !in t.messages ==> r.out == Err(NotFound)
    ensures id in t.messages && (caller == t.messages[id].sender || !IsParty(t.connections[t.messages[id].connection], caller))
            ==> r.out == Err(Forbidden)
    ensures (id in t.messages && caller != t.messages[id].sender
             && IsParty(t.connections[t.messages[id].connection], caller) && t.messages[id].isRead)
            ==> r.out == Err(BadRequest)
    ensures r.out.Ok? <==>
      && id in t.messages
      && caller != t.messages[id].sender
      && IsParty(t.connections[t.messages[id].connection], caller)
      && !t.messages[id].isRead
    ensures r.out.Ok? ==>
      && r.out.value == t.messages[id].(isRead := true)
      && r.db == t.(messages := t.messages[id := r.out.value])
  {
    if id !in t.messages then Step(t, Err(NotFound))
    else
      var m := t.messages[id];
      if m.sender == caller || !IsParty(t.connections[m.connection], caller) then Step(t, Err(Forbidden))
      else
        var s := MessageService.MarkMessageAsRead(t, id);
        match s.out
        case None => Step(s.db, Err(BadRequest))
        case Some(read) => Step(s.db, Ok(read))
  }

  /**
   * Where the original endpoint lets a reader through, the corrected one
   * does too and answers the same.
   */
  lemma CorrectionKeepsRecipientReads(t: Tables, caller: Id, id: Id)
    requires Inv(t)
    requires MarkMessageAsReadAsWritten(t, caller, id).out.Ok?
    ensures MarkMessageAsRead(t, caller, id) == MarkMessageAsReadAsWritten(t, caller, id)
  {
  }
}
