/**
 * The earlier draft of the backend (functions/src/index.ts): an HTTP handler
 * `generateRoom` that writes a fixed room document at a fresh code and
 * answers with the code, or with status 500 when the write fails. Its
 * `generateCode` is the same generator as `CodeGen.GenerateCode`.
 */
module DraftRooms {
  import opened Wrappers
  import opened CodeGen

  /** The owner the draft writes into every room. */
  const DRAFT_OWNER := "budde25"

  /** The document the draft writes: `{enabled: true, owner: 'budde25'}`. */
  datatype DraftRoom = DraftRoom(enabled: bool, owner: string)

  /**
   * An HTTP answer: `response.send(body)` answers with the default status
   * 200, `response.status(500).send()` with 500 and an empty body.
   */
  datatype HttpReply = HttpReply(status: int, body: string)

  class DraftStore {
    /** The `rooms` collection. */
    var rooms: map<string, DraftRoom>

    constructor ()
      ensures rooms == map[]
    {
      rooms := map[];
    }

    /** `generateRoom`: one store write at a 6-character code, then the answer. */
    method GenerateRoom(picks: seq<nat>, write: Outcome<()>) returns (reply: HttpReply)
      requires ROOM_LENGTH <= |picks| && ValidPicks(picks)
      modifies this
      ensures var code := CodeOf(picks[..ROOM_LENGTH]);
        if write.Ok? then
          reply == HttpReply(200, code) && rooms == old(rooms)[code := DraftRoom(true, DRAFT_OWNER)]
        else
          reply == HttpReply(500, "") && rooms == old(rooms)
    {
      var roomCode := GenerateCode(6, picks);
      if write.Ok? {
        rooms := rooms[roomCode := DraftRoom(true, DRAFT_OWNER)];
        reply := HttpReply(200, roomCode);
      } else {
        reply := HttpReply(500, "");
      }
    }
  }
}
