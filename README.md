# Message board store

A model of the message-board canister: a table from message id to Message
record, and the five HTTP handlers that create, list, fetch, update and delete
messages over it. The table is the `messages` map of class
`Board.MessageBoard`. Each handler is a method that returns the status code
and payload it would send (a record, an array of records, or a plain-text
error). Create, update and delete change the table in place; get and list
only read it.

- `wrappers.dfy`: `Option`, used for absent JSON keys and for lookups.
- `messages.dfy`: the Message record and the request body.
  - The request body is a record of `Option` fields, one per Message key.
    `None` means the key is absent from the body.
  - JavaScript object spread appears twice:
    - as `Spread` on typed records;
    - as a reference model on JavaScript objects, where `JsObject` is a
      `map<string, JsonValue>` and map union `a + b` is `{ ...a, ...b }`.
  - Lemmas prove that the records built by the create and update handlers
    equal the object spreads the source writes.
  - The host clock's nanoseconds become a millisecond date.
- `board.dfy`: the table and its handlers.
  - The ghost predicate `WellFormed` says every record is stored under its own
    id and has a non-empty title and body.
  - Create and delete preserve it.
  - Update preserves it exactly when the body keeps the id and does not empty
    the title or body. The `UpdateKeepsWellFormed` lemma states both directions.
- `scenarios.dfy`: sequences of requests proved from the handlers' contracts.
  These include the create, update, delete, get walk-through and "delete is
  terminal".

The uuid generator and the host clock are parameters:
- every create takes the fresh id;
- every create or update takes the clock reading in nanoseconds.

Things the code does that a reader may not expect:
- On create, the body is spread after the generated `id` and `createdAt`. A
  body that supplies either therefore replaces it (src/index.ts:50).
- On update, the body may overwrite `id` and `createdAt` (src/index.ts:76).
  The merged record is stored under the stored record's `id`
  (src/index.ts:77), not under the path id. While every record is stored
  under its own id, an update keeps the table's key set the same. But a body
  that supplies another id leaves the record under its old key carrying the
  new id (`Board.UpdateCanMoveId`). A later update of the old key then writes
  under the new id: it adds that key, or overwrites the record already there,
  and leaves the record under the old key as it was
  (`Board.SecondUpdateAfterMovedId`).
- The code does not keep `createdAt <= updatedAt`. A create body may carry
  both dates in either order, and an update body may carry a `createdAt`
  later than the current date. `Messages.NewMessageDatesOrdered` and
  `Messages.UpdatedMessageDatesOrdered` say exactly when the order holds.
- A created record's `updatedAt` is absent, not null, unless the body supplies
  one.

## Model

| member | source | states |
|---|---|---|
| `Messages.CurrentDate` | src/index.ts:98-101 | the date is the whole number of milliseconds in the clock's nanoseconds: `ms * 1e6 <= ns < (ms + 1) * 1e6` |
| `Messages.CurrentDateMonotone` | src/index.ts:98-101 | a non-decreasing clock gives non-decreasing dates |
| `Messages.NewMessage` | src/index.ts:50 | the created record takes title and body from the request; body-supplied `id`/`createdAt` win over the fresh id and the current date; `attachmentURL`/`updatedAt` are exactly what the body carries |
| `Messages.NewMessageIsObjectSpread` | src/index.ts:50 | as a JavaScript object, the created record is `{ id: freshId, createdAt: now, ...body }` |
| `Messages.UpdatedMessage` | src/index.ts:76 | each field the body supplies replaces the stored one, every other field is kept, and `updatedAt` is the current date even when the body supplies one |
| `Messages.UpdatedMessageIsObjectSpread` | src/index.ts:76 | as a JavaScript object, the updated record is `{ ...stored, ...body, updatedAt: now }` |
| `Messages.SpreadIsObjectSpread` | src/index.ts:76 | typed field-by-field override agrees with JavaScript object spread |
| `Messages.NewMessageDatesOrdered` | src/index.ts:50 | a created record has `createdAt <= updatedAt` exactly when the body gives no `updatedAt`, or one no earlier than the creation date it ends up with |
| `Messages.UpdatedMessageDatesOrdered` | src/index.ts:76 | an updated record has `createdAt <= updatedAt` exactly when its final `createdAt` (stored or from the body) is no later than the current date |
| `Messages.UpdateWithLaterCreatedAt` | src/index.ts:76 | a body with a `createdAt` later than the current date gives a record updated before it was created |
| `Messages.UpdateWithEmptyBody` | src/index.ts:76 | an update with an empty body changes only `updatedAt` |
| `Messages.UpdateTwice` | src/index.ts:76 | the same update applied twice leaves every field but `updatedAt` as the first left it |
| `Board.UpdateKeepsWellFormed` | src/index.ts:75-78 | on a well-formed table, the table after an update is well-formed if and only if the body keeps the id and does not set title or body to "" |
| `Board.SecondUpdateAfterMovedId` | src/index.ts:71-77 | after an update that moved the id, a second update of the old key adds the new id as a key (or overwrites it) and leaves the old key's record as it was |
| `Board.UpdateCanMoveId` | src/index.ts:76-77 | a body with another id leaves the key set unchanged, but the record under the old key then carries the new id |
| `Board.MessageBoard.constructor` | src/index.ts:19 | the table starts empty |
| `Board.MessageBoard.Lookup` | src/index.ts:61 | the lookup is present exactly when the id is a key, and then it is the stored record |
| `Board.MessageBoard.Create` | src/index.ts:42-53 | a missing or empty title or body gives 400 "Title and Body are required" and leaves the table unchanged; otherwise it gives 200 with the new record, which is inserted under its own id and nothing else changes; with a fresh id and no body id, exactly one key is added; it preserves well-formedness |
| `Board.MessageBoard.List` | src/index.ts:55-57 | 200 with one record per key, and only those: the result is the stored records along an enumeration of the keys that lists each key once |
| `Board.MessageBoard.Get` | src/index.ts:59-67 | 200 with exactly the stored record, or 404 "the message with id=<id> not found"; the table is not changed |
| `Board.MessageBoard.Update` | src/index.ts:69-80 | an absent id gives 400 "couldn't update a message with id=<id>. message not found" and no change; a present id gives 200 with the merged record, written under the stored record's id; when records are keyed by id, the key set is unchanged |
| `Board.MessageBoard.Delete` | src/index.ts:82-90 | a present id is removed alone and its prior record returned with 200; an absent id gives 400 "couldn't delete a message with id=<id>. message not found" and no change; it preserves well-formedness |
| `Board.MessageBoard.UpdateOrDelete` | src/index.ts:24-40 | the unused helper: 400 "Message with id=<id> not found" for an absent id; "update" and "delete" behave like the handlers; any other action sends nothing and changes nothing |
| `Scenarios.HelloWorld` | src/index.ts:42-90 | create "Hello"/"World", update the body to "Updated", delete, get: 200 with the record, 200 with the merged record, 200 with that record again, 404 |
| `Scenarios.CreateThenGet` | src/index.ts:50-67 | a successful create is fetched back unchanged by the id it returns |
| `Scenarios.DeleteIsTerminal` | src/index.ts:59-90 | after a successful delete, get gives 404 and update and delete give 400 |
| `Scenarios.UpdateTwiceWithClock` | src/index.ts:69-80 | on any present id and for any body, two identical updates agree on every field but `updatedAt`, which does not go backwards |

## Left out

- HTTP plumbing is not modelled: the Express app, routing, JSON body parsing, serialisation of responses and `app.listen` (src/index.ts:4, 21-22, 103). Handlers are methods that return a status and a payload.
- The catch-all 500 handler and its `console.error` logging (src/index.ts:92-95) are I/O, and nothing in the model throws.
- `StableBTreeMap` persistence and stable memory (src/index.ts:19): the table is a Dafny `map`.
- The truthiness test on the library's optional value (src/index.ts:27, 62, 72, 85) is modelled as an explicit `Option`: the model assumes `!messageOpt` (and `!deletedMessage`) is true exactly when the id is absent. The library's representation of that value is not part of this model. If the library returns an object of the form `{Some: …}` / `{None: null}`, that test is never true, and the 404 and 400 not-found paths are never taken.
- `uuidv4()` (src/index.ts:50) is a foreign generator. The fresh id is a parameter. `Create` states the one-key-added property only when that id is not already a key and the body carries no `id`. A body `id` replaces the fresh id, and the record then goes under that key, overwriting any record already there.
- `ic.time()` (src/index.ts:99) is the host clock. Its reading in nanoseconds is a parameter.
- Messages.CurrentDate: does not model the rounding of `Number(ic.time())` to a double above 2^53 or the float division (src/index.ts:99-100). It uses exact integer division, and `Date` is represented by its millisecond value.
- Request bodies may only carry the six Message keys, each with the field's own type. Other keys, JSON `null`, and non-string values (for example a numeric title, whose truthiness would differ) are not modelled. Dates supplied in a body are taken as millisecond values, not the strings JSON would carry.
- Board.MessageBoard.List: the order of the returned records is not stated, because the store promises none. The result is stated only up to an enumeration of the keys.
