/**
 * The Message record, the request body a client sends, the JavaScript object
 * spread that the create and update handlers use to combine the two, and the
 * conversion of the host clock into a millisecond date.
 */
module Messages {
  import opened Wrappers

  // ---------------------------------------------------------------------------
  // Time
  // ---------------------------------------------------------------------------

  /** A date, as the milliseconds since the Unix epoch that a JavaScript `Date` holds. */
  type Timestamp = nat

  const NanosPerMilli: nat := 1_000_000

  /**
   * getCurrentDate: the host clock gives nanoseconds; the stored date is the
   * whole number of milliseconds they contain.
   */
  function CurrentDate(nanos: nat): (ms: Timestamp)
    ensures ms * NanosPerMilli <= nanos < (ms + 1) * NanosPerMilli
  {
    nanos / NanosPerMilli
  }

  /** A clock that does not go backwards gives dates that do not go backwards. */
  lemma CurrentDateMonotone(earlier: nat, later: nat)
    requires earlier <= later
    ensures CurrentDate(earlier) <= CurrentDate(later)
  {
  }

  // ---------------------------------------------------------------------------
  // Records
  // ---------------------------------------------------------------------------

  /**
   * A message on the board. `attachmentURL` and `updatedAt` are None when the
   * record has no such key: a message created without an attachment has none,
   * and `updatedAt` appears with the first update.
   */
  datatype Message = Message(
    id: string,
    title: string,
    body: string,
    attachmentURL: Option<string>,
    createdAt: Timestamp,
    updatedAt: Option<Timestamp>)

  /**
   * A JSON request body, restricted to the keys of a Message. Each field is
   * None when the body does not carry that key.
   */
  datatype RequestBody = RequestBody(
    id: Option<string>,
    title: Option<string>,
    body: Option<string>,
    attachmentURL: Option<string>,
    createdAt: Option<Timestamp>,
    updatedAt: Option<Timestamp>)

  const EmptyBody := RequestBody(None, None, None, None, None, None)

  /** JavaScript truthiness of a string-valued key: present and not "". */
  predicate Truthy(field: Option<string>) {
    field.Some? && field.value != ""
  }

  // ---------------------------------------------------------------------------
  // Object spread on typed records
  // ---------------------------------------------------------------------------

  /** The value a key ends up with when a later spread may supply it. */
  function Override<T>(kept: T, supplied: Option<T>): T {
    if supplied.Some? then supplied.value else kept
  }

  /** The same, for a key the record itself may lack. */
  function OverrideOptional<T>(kept: Option<T>, supplied: Option<T>): Option<T> {
    if supplied.Some? then supplied else kept
  }

  /** `{ ...m, ...b }`: every key the body carries replaces the record's. */
  function Spread(m: Message, b: RequestBody): Message {
    Message(
      Override(m.id, b.id),
      Override(m.title, b.title),
      Override(m.body, b.body),
      OverrideOptional(m.attachmentURL, b.attachmentURL),
      Override(m.createdAt, b.createdAt),
      OverrideOptional(m.updatedAt, b.updatedAt))
  }

  /**
   * The record the create handler builds: `{ id, createdAt, ...body }`. The
   * body's keys come last, so they win over the generated id and date; title
   * and body come from the request, which the handler has checked carries
   * both.
   */
  function NewMessage(freshId: string, now: Timestamp, b: RequestBody): (r: Message)
    requires b.title.Some? && b.body.Some?
    ensures r.id == (if b.id.Some? then b.id.value else freshId)
    ensures r.createdAt == (if b.createdAt.Some? then b.createdAt.value else now)
    ensures r.title == b.title.value && r.body == b.body.value
    ensures r.attachmentURL == b.attachmentURL && r.updatedAt == b.updatedAt
  {
    Spread(Message(freshId, b.title.value, b.body.value, None, now, None), b)
  }

  /**
   * The record the update handler builds: `{ ...m, ...body, updatedAt: now }`.
   * Each key the body supplies replaces the stored one, the others are kept,
   * and `updatedAt` is the current date whatever the body says.
   */
  function UpdatedMessage(m: Message, b: RequestBody, now: Timestamp): (r: Message)
    ensures r.updatedAt == Some(now)
    ensures r.id == (if b.id.Some? then b.id.value else m.id)
    ensures r.title == (if b.title.Some? then b.title.value else m.title)
    ensures r.body == (if b.body.Some? then b.body.value else m.body)
    ensures r.attachmentURL == (if b.attachmentURL.Some? then b.attachmentURL else m.attachmentURL)
    ensures r.createdAt == (if b.createdAt.Some? then b.createdAt.value else m.createdAt)
  {
    Spread(m, b).(updatedAt := Some(now))
  }

  /** An empty body changes nothing but the update date. */
  lemma UpdateWithEmptyBody(m: Message, now: Timestamp)
    ensures UpdatedMessage(m, EmptyBody, now) == m.(updatedAt := Some(now))
  {
  }

  /**
   * Sending the same update twice: after the second, every field but
   * `updatedAt` is what it was after the first.
   */
  lemma UpdateTwice(m: Message, b: RequestBody, first: Timestamp, second: Timestamp)
    ensures UpdatedMessage(UpdatedMessage(m, b, first), b, second)
         == UpdatedMessage(m, b, first).(updatedAt := Some(second))
  {
  }

  /** A record that has been updated was not updated before it was created. */
  predicate DatesOrdered(m: Message) {
    m.updatedAt.Some? ==> m.createdAt <= m.updatedAt.value
  }

  /**
   * The source does not keep dates ordered: a created record is ordered
   * exactly when the body gives no `updatedAt`, or one no earlier than the
   * creation date it ends up with.
   */
  lemma NewMessageDatesOrdered(freshId: string, now: Timestamp, b: RequestBody)
    requires b.title.Some? && b.body.Some?
    ensures DatesOrdered(NewMessage(freshId, now, b))
        <==> b.updatedAt.None? || Override(now, b.createdAt) <= b.updatedAt.value
  {
  }

  /**
   * An updated record is ordered exactly when the creation date it ends up
   * with, the stored one or the body's, is no later than the update date.
   */
  lemma UpdatedMessageDatesOrdered(m: Message, b: RequestBody, now: Timestamp)
    ensures DatesOrdered(UpdatedMessage(m, b, now)) <==> Override(m.createdAt, b.createdAt) <= now
  {
  }

  /** A body carrying a later `createdAt` gives an update that predates its creation. */
  lemma UpdateWithLaterCreatedAt(m: Message, b: RequestBody, now: Timestamp)
    requires b.createdAt.Some? && b.createdAt.value > now
    ensures !DatesOrdered(UpdatedMessage(m, b, now))
  {
    UpdatedMessageDatesOrdered(m, b, now);
  }

  // ---------------------------------------------------------------------------
  // Reference: records as JavaScript objects
  // ---------------------------------------------------------------------------

  /** The values the keys of a Message hold in JavaScript. */
  datatype JsonValue = Str(s: string) | Date(ms: Timestamp)

  /** A JavaScript object: its own keys and their values. `a + b` is `{ ...a, ...b }`. */
  type JsObject = map<string, JsonValue>

  const MessageKeys: set<string> := {"id", "title", "body", "attachmentURL", "createdAt", "updatedAt"}

  function StrKey(v: Option<string>): Option<JsonValue> {
    if v.Some? then Some(Str(v.value)) else None
  }

  function DateKey(v: Option<Timestamp>): Option<JsonValue> {
    if v.Some? then Some(Date(v.value)) else None
  }

  /** The value key `k` holds in the object for record `m`, if it holds one. */
  function RecordKey(m: Message, k: string): Option<JsonValue> {
    if k == "id" then Some(Str(m.id))
    else if k == "title" then Some(Str(m.title))
    else if k == "body" then Some(Str(m.body))
    else if k == "attachmentURL" then StrKey(m.attachmentURL)
    else if k == "createdAt" then Some(Date(m.createdAt))
    else if k == "updatedAt" then DateKey(m.updatedAt)
    else None
  }

  /** The value key `k` holds in request body `b`, if it holds one. */
  function BodyKey(b: RequestBody, k: string): Option<JsonValue> {
    if k == "id" then StrKey(b.id)
    else if k == "title" then StrKey(b.title)
    else if k == "body" then StrKey(b.body)
    else if k == "attachmentURL" then StrKey(b.attachmentURL)
    else if k == "createdAt" then DateKey(b.createdAt)
    else if k == "updatedAt" then DateKey(b.updatedAt)
    else None
  }

  function RecordObject(m: Message): JsObject {
    map k | k in MessageKeys && RecordKey(m, k).Some? :: RecordKey(m, k).value
  }

  function BodyObject(b: RequestBody): JsObject {
    map k | k in MessageKeys && BodyKey(b, k).Some? :: BodyKey(b, k).value
  }

  /** Typed spread agrees with JavaScript's spread of the two objects. */
  lemma SpreadIsObjectSpread(m: Message, b: RequestBody)
    ensures RecordObject(Spread(m, b)) == RecordObject(m) + BodyObject(b)
  {
    var r := Spread(m, b);
    forall k | k in MessageKeys
      ensures RecordKey(r, k) == if BodyKey(b, k).Some? then BodyKey(b, k) else RecordKey(m, k)
    {
    }
  }

  /** The create handler's record is `{ id: freshId, createdAt: now, ...body }` (src/index.ts:50). */
  lemma NewMessageIsObjectSpread(freshId: string, now: Timestamp, b: RequestBody)
    requires b.title.Some? && b.body.Some?
    ensures RecordObject(NewMessage(freshId, now, b))
         == map["id" := Str(freshId), "createdAt" := Date(now)] + BodyObject(b)
  {
    var base := Message(freshId, b.title.value, b.body.value, None, now, None);
    SpreadIsObjectSpread(base, b);
    assert "title" in BodyObject(b) && "body" in BodyObject(b);
  }

  /** The update handler's record is `{ ...m, ...body, updatedAt: now }` (src/index.ts:76). */
  lemma UpdatedMessageIsObjectSpread(m: Message, b: RequestBody, now: Timestamp)
    ensures RecordObject(UpdatedMessage(m, b, now))
         == (RecordObject(m) + BodyObject(b))["updatedAt" := Date(now)]
  {
    SpreadIsObjectSpread(m, b);
    WithUpdatedAtObject(Spread(m, b), now);
  }

  /** Setting `updatedAt` on a record sets that one key of its object. */
  lemma WithUpdatedAtObject(m: Message, now: Timestamp)
    ensures RecordObject(m.(updatedAt := Some(now))) == RecordObject(m)["updatedAt" := Date(now)]
  {
    var r := m.(updatedAt := Some(now));
    forall k | k in MessageKeys
      ensures RecordKey(r, k) == if k == "updatedAt" then Some(Date(now)) else RecordKey(m, k)
    {
    }
  }
}
