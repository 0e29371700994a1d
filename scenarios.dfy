/**
 * Sequences of requests against one board, proved from the handlers'
 * contracts alone.
 */
module Scenarios {
  import opened Wrappers
  import opened Messages
  import opened Board

  /**
   * POST {"title":"Hello","body":"World"}, PUT {"body":"Updated"} on the id it
   * returns, DELETE that id, then GET it, on a new board.
   */
  method HelloWorld(uuid: string, createdNanos: nat, updatedNanos: nat)
    returns (created: Response, updated: Response, deleted: Response, fetched: Response)
    requires createdNanos <= updatedNanos
    ensures created == Response(200, Record(
      Message(uuid, "Hello", "World", None, CurrentDate(createdNanos), None)))
    ensures updated == Response(200, Record(
      Message(uuid, "Hello", "Updated", None, CurrentDate(createdNanos), Some(CurrentDate(updatedNanos)))))
    ensures deleted == updated
    ensures fetched == Response(404, Text(GetNotFoundText(uuid)))
    ensures CurrentDate(createdNanos) <= CurrentDate(updatedNanos)
  {
    var board := new MessageBoard();
    created := board.Create(EmptyBody.(title := Some("Hello"), body := Some("World")), uuid, createdNanos);
    updated := board.Update(uuid, EmptyBody.(body := Some("Updated")), updatedNanos);
    deleted := board.Delete(uuid);
    fetched := board.Get(uuid);
    CurrentDateMonotone(createdNanos, updatedNanos);
  }

  /** A successful create is found again by the id it returns. */
  method CreateThenGet(board: MessageBoard, b: RequestBody, freshId: string, nowNanos: nat)
    returns (created: Response, fetched: Response)
    modifies board
    ensures created.status == 200 <==> Truthy(b.title) && Truthy(b.body)
    ensures created.status == 200 ==> created.payload.Record? && fetched == created
  {
    created := board.Create(b, freshId, nowNanos);
    if created.status == 200 {
      fetched := board.Get(created.payload.message.id);
    } else {
      fetched := created;
    }
  }

  /** After a successful delete the id is gone: get gives 404, update and delete give 400. */
  method DeleteIsTerminal(board: MessageBoard, id: string, b: RequestBody, nowNanos: nat)
    returns (deleted: Response, fetched: Response, updated: Response, again: Response)
    requires id in board.messages
    modifies board
    ensures deleted == Response(200, Record(old(board.messages)[id]))
    ensures fetched.status == 404 && updated.status == 400 && again.status == 400
    ensures board.messages == old(board.messages) - {id}
  {
    deleted := board.Delete(id);
    fetched := board.Get(id);
    updated := board.Update(id, b, nowNanos);
    again := board.Delete(id);
  }

  /**
   * The same update sent twice, whatever the body carries:
   * every field but updatedAt agrees, and updatedAt does not go backwards.
   */
  method UpdateTwiceWithClock(board: MessageBoard, id: string, b: RequestBody, firstNanos: nat, secondNanos: nat)
    returns (first: Response, second: Response)
    requires id in board.messages
    requires firstNanos <= secondNanos
    modifies board
    ensures first.payload.Record? && second.payload.Record?
    ensures second.payload.message == first.payload.message.(updatedAt := Some(CurrentDate(secondNanos)))
    ensures first.payload.message.updatedAt == Some(CurrentDate(firstNanos))
    ensures CurrentDate(firstNanos) <= CurrentDate(secondNanos)
  {
    first := board.Update(id, b, firstNanos);
    UpdateTwice(old(board.messages)[id], b, CurrentDate(firstNanos), CurrentDate(secondNanos));
    second := board.Update(id, b, secondNanos);
    CurrentDateMonotone(firstNanos, secondNanos);
  }
}
