/**
 * The message board: one table from id to Message and the handlers that
 * serve the five HTTP endpoints over it. Each handler returns the status code
 * and the payload it would send.
 */
module Board {
  import opened Wrappers
  import opened Messages

  /** What a handler sends: one record, an array of records, or plain text. */
  datatype Payload = Record(message: Message) | Records(messages: seq<Message>) | Text(text: string)

  datatype Response = Response(status: nat, payload: Payload)

  const RequiredFieldsText := "Title and Body are required"

  function GetNotFoundText(id: string): string {
    "the message with id=" + id + " not found"
  }

  function UpdateNotFoundText(id: string): string {
    "couldn't update a message with id=" + id + ". message not found"
  }

  function DeleteNotFoundText(id: string): string {
    "couldn't delete a message with id=" + id + ". message not found"
  }

  function HelperNotFoundText(id: string): string {
    "Message with id=" + id + " not found"
  }

  /** Every record is stored under its own id. */
  ghost predicate KeyedById(t: map<string, Message>) {
    forall k :: k in t ==> t[k].id == k
  }

  /**
   * What a freshly created board and every successful create give: records
   * keyed by their id, with a non-empty title and body.
   */
  ghost predicate WellFormed(t: map<string, Message>) {
    forall k :: k in t ==> t[k].id == k && t[k].title != "" && t[k].body != ""
  }

  /** An update body that neither moves the record's id nor empties its title or body. */
  predicate KeepsShape(id: string, b: RequestBody) {
    (b.id.None? || b.id.value == id) && b.title != Some("") && b.body != Some("")
  }

  /** The table an update of key `id` leaves (src/index.ts:76-77). */
  function AfterUpdate(t: map<string, Message>, id: string, b: RequestBody, now: Timestamp): map<string, Message>
    requires id in t
  {
    t[t[id].id := UpdatedMessage(t[id], b, now)]
  }

  /**
   * Update does not re-validate: a well-formed table stays well-formed exactly
   * when the body keeps the id and does not empty the title or the body.
   */
  lemma UpdateKeepsWellFormed(t: map<string, Message>, id: string, b: RequestBody, now: Timestamp)
    requires WellFormed(t) && id in t
    ensures WellFormed(AfterUpdate(t, id, b, now)) <==> KeepsShape(id, b)
  {
    var after := AfterUpdate(t, id, b, now);
    assert t[id].id == id;
    if WellFormed(after) {
      assert after[id] == UpdatedMessage(t[id], b, now);
    }
  }

  /** A body that supplies another id leaves the record under the old key with a new id. */
  lemma UpdateCanMoveId(t: map<string, Message>, id: string, b: RequestBody, now: Timestamp)
    requires KeyedById(t) && id in t
    requires b.id.Some? && b.id.value != id
    ensures !KeyedById(AfterUpdate(t, id, b, now))
    ensures AfterUpdate(t, id, b, now).Keys == t.Keys
    ensures AfterUpdate(t, id, b, now)[id].id == b.id.value
  {
    var after := AfterUpdate(t, id, b, now);
    assert t[id].id == id;
    assert after[id].id != id;
  }

  /**
   * Once an update has moved the id, a second update of the same key writes
   * under the new id: it adds that key (or overwrites the record there), and
   * the record under the old key stays as the first update left it.
   */
  lemma SecondUpdateAfterMovedId(
    t: map<string, Message>, id: string, b: RequestBody, first: Timestamp,
    b2: RequestBody, second: Timestamp)
    requires KeyedById(t) && id in t
    requires b.id.Some? && b.id.value != id
    ensures var moved := AfterUpdate(t, id, b, first);
      && AfterUpdate(moved, id, b2, second).Keys == t.Keys + {b.id.value}
      && AfterUpdate(moved, id, b2, second)[id] == moved[id]
      && AfterUpdate(moved, id, b2, second)[b.id.value] == UpdatedMessage(moved[id], b2, second)
  {
    assert t[id].id == id;
  }

  /** Distinct elements: no key listed twice. */
  ghost predicate Distinct(s: seq<string>) {
    forall i, j :: 0 <= i < j < |s| ==> s[i] != s[j]
  }

  class MessageBoard {
    /** The messagesStorage table: id to record. */
    var messages: map<string, Message>

    /** The table starts empty. */
    constructor ()
      ensures messages == map[]
    {
      messages := map[];
    }

    /** The table's point lookup, with absence made explicit. */
    function Lookup(id: string): (found: Option<Message>)
      reads this
      ensures found.Some? <==> id in messages
      ensures found.Some? ==> found.value == messages[id]
    {
      if id in messages then Some(messages[id]) else None
    }

    /** POST /messages */
    method Create(b: RequestBody, freshId: string, nowNanos: nat) returns (res: Response)
      modifies this
      ensures !Truthy(b.title) || !Truthy(b.body) ==>
        res == Response(400, Text(RequiredFieldsText)) && messages == old(messages)
      ensures Truthy(b.title) && Truthy(b.body) ==>
        var m := NewMessage(freshId, CurrentDate(nowNanos), b);
        res == Response(200, Record(m)) && messages == old(messages)[m.id := m]
      ensures Truthy(b.title) && Truthy(b.body) && b.id.None? && freshId !in old(messages) ==>
        messages.Keys == old(messages).Keys + {freshId} && |messages| == |old(messages)| + 1
      ensures WellFormed(old(messages)) ==> WellFormed(messages)
    {
      if !Truthy(b.title) || !Truthy(b.body) {
        return Response(400, Text(RequiredFieldsText));
      }
      var message := NewMessage(freshId, CurrentDate(nowNanos), b);
      messages := messages[message.id := message];
      res := Response(200, Record(message));
    }

    /**
     * GET /messages: every stored record, once per key, in the order some
     * enumeration `keys` of the table visits them.
     */
    method List() returns (res: Response, ghost keys: seq<string>)
      ensures res.status == 200 && res.payload.Records?
      ensures |res.payload.messages| == |keys| == |messages|
      ensures Distinct(keys) && forall k :: k in messages <==> k in keys
      ensures forall i :: 0 <= i < |keys| ==> res.payload.messages[i] == messages[keys[i]]
    {
      var rest := messages.Keys;
      var values: seq<Message> := [];
      keys := [];
      while rest != {}
        invariant rest <= messages.Keys
        invariant |keys| + |rest| == |messages.Keys|
        invariant Distinct(keys)
        invariant forall k :: k in messages ==> (k in keys <==> k !in rest)
        invariant forall i :: 0 <= i < |keys| ==> keys[i] in messages
        invariant |values| == |keys|
        invariant forall i :: 0 <= i < |keys| ==> values[i] == messages[keys[i]]
        decreases |rest|
      {
        var k :| k in rest;
        values := values + [messages[k]];
        keys := keys + [k];
        rest := rest - {k};
      }
      res := Response(200, Records(values));
    }

    /** GET /messages/:id */
    method Get(id: string) returns (res: Response)
      ensures id in messages ==> res == Response(200, Record(messages[id]))
      ensures id !in messages ==> res == Response(404, Text(GetNotFoundText(id)))
    {
      var found := Lookup(id);
      if found.None? {
        res := Response(404, Text(GetNotFoundText(id)));
      } else {
        res := Response(200, Record(found.value));
      }
    }

    /**
     * PUT /messages/:id. The merged record goes back under the stored
     * record's own id, which is the path id while records stay keyed by id.
     */
    method Update(id: string, b: RequestBody, nowNanos: nat) returns (res: Response)
      modifies this
      ensures id !in old(messages) ==>
        res == Response(400, Text(UpdateNotFoundText(id))) && messages == old(messages)
      ensures id in old(messages) ==>
        var stored := old(messages)[id];
        var m := UpdatedMessage(stored, b, CurrentDate(nowNanos));
        res == Response(200, Record(m)) && messages == old(messages)[stored.id := m]
      ensures id in old(messages) && KeyedById(old(messages)) ==>
        messages == AfterUpdate(old(messages), id, b, CurrentDate(nowNanos))
        && messages.Keys == old(messages).Keys
    {
      var found := Lookup(id);
      if found.None? {
        res := Response(400, Text(UpdateNotFoundText(id)));
      } else {
        var message := found.value;
        var updated := UpdatedMessage(message, b, CurrentDate(nowNanos));
        messages := messages[message.id := updated];
        res := Response(200, Record(updated));
      }
    }

    /** DELETE /messages/:id */
    method Delete(id: string) returns (res: Response)
      modifies this
      ensures id in old(messages) ==>
        res == Response(200, Record(old(messages)[id])) && messages == old(messages) - {id}
        && |messages| == |old(messages)| - 1
      ensures id !in old(messages) ==>
        res == Response(400, Text(DeleteNotFoundText(id))) && messages == old(messages)
      ensures WellFormed(old(messages)) ==> WellFormed(messages)
    {
      var removed := Lookup(id);
      messages := messages - {id};
      if removed.None? {
        res := Response(400, Text(DeleteNotFoundText(id)));
      } else {
        res := Response(200, Record(removed.value));
      }
    }

    /**
     * handleMessageUpdateOrDelete, which no route calls: one not-found text
     * for both actions, and no response at all for any other action.
     */
    method UpdateOrDelete(id: string, action: string, b: RequestBody, nowNanos: nat)
      returns (res: Option<Response>)
      modifies this
      ensures id !in old(messages) ==>
        res == Some(Response(400, Text(HelperNotFoundText(id)))) && messages == old(messages)
      ensures id in old(messages) && action == "update" ==>
        var stored := old(messages)[id];
        var m := UpdatedMessage(stored, b, CurrentDate(nowNanos));
        res == Some(Response(200, Record(m))) && messages == old(messages)[stored.id := m]
      ensures id in old(messages) && action == "delete" ==>
        res == Some(Response(200, Record(old(messages)[id]))) && messages == old(messages) - {id}
      ensures id in old(messages) && action != "update" && action != "delete" ==>
        res == None && messages == old(messages)
    {
      var found := Lookup(id);
      if found.None? {
        return Some(Response(400, Text(HelperNotFoundText(id))));
      }
      var message := found.value;
      if action == "update" {
        var updated := UpdatedMessage(message, b, CurrentDate(nowNanos));
        messages := messages[message.id := updated];
        res := Some(Response(200, Record(updated)));
      } else if action == "delete" {
        messages := messages - {id};
        res := Some(Response(200, Record(message)));
      } else {
        res := None;
      }
    }
  }
}
