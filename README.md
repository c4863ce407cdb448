# PartyDJ backend — a Dafny model

PartyDJ's backend is a set of Firebase callable functions that let a group
share a Spotify playlist as a "room". One user creates a room with
`generateRoom`, which makes a public playlist and a room document keyed by a
six-character code. Others look the room up with `joinRoom`. Members change
the playlist with `addSong`/`removeSong`, and each change copies the
listing `getPlaylistTracks` returns (one page) back into the room document
(`updateDatabase`).
`closeRoom` deletes the document and unfollows the playlist.

This project models the repository's own logic:

- the room-code generator (`CodeGen`);
- parameter validation and the response envelopes (`Params`, `Replies`);
- the five handlers and the resync step, as methods of a `RoomStore` class
  that holds the `rooms` collection as a map from room code to room
  document (`Rooms`);
- the mapping from playlist items to song records (`Resync`);
- the earlier HTTP draft of `generateRoom` in `functions/src/index.ts`
  (`DraftRooms`).

Every call to Spotify or Firestore has its outcome passed in as an argument,
`Ok(v)` or `Fail`. The one exception is joinRoom's read, a `Read`: either
`ReadFailed`, or `ReadDone(dataDefined)`. Whether the document exists is
taken from the store. Whether the resync's update takes effect depends on two
things: the update outcome, and whether the room is in the store
(`Rooms.ResyncWrites`). Each handler returns its response envelope and the list of external calls it
made, in order. So "a 400 makes no external call" and "the delete comes
before the unfollow" are postconditions.

Points worth noting about the source:

- The generator's comment says it "excludes similar symbols"
  (functions/lib/index.js:268). Its alphabet is the literal
  `'123456789abcdefghijkmnopqrstuvwxyz'`: the digits 1 to 9 and the letters
  other than `'l'`, 34 characters in all. It leaves out `'0'` and `'l'`, but
  it keeps `'o'`.
- A parameter is empty only when it is `null` or `''`. A missing
  (`undefined`) field passes the check.
- Errors raised after a downstream call use the key `staus`. Validation
  errors and successes use `status`. The envelope keeps the key as data, and
  `Replies.FailureKinds` tells the spellings apart.
- A room document gets a fixed `currentSong` of four empty strings and
  `enabled: true`. Nothing writes either field afterwards. `RoomStore.Valid()`
  states this as an invariant that every handler keeps, together with "every
  document sits at a generated room code". The doc comment of `joinRoom`
  (functions/lib/index.js:228-230) promises "true if enabled", but the code
  only tests that the document exists. Under the invariant the two agree, and
  `JoinRoom` states it.

Store paths: `doc(roomCode)` takes only a non-empty string. With an
`undefined` room code the call throws inside the handler's `try`, so the
model answers with the 401 Firestore envelope and makes no store call
(`Rooms.DocPath`). An `update` of a document that does not exist fails in
Firestore. The model treats it like a failed update: 401, store unchanged.
Both the throw on `doc(undefined)` and the failing `update` are the Firestore
library's behaviour, not code of this repository.

## Model

| member | source | states |
|---|---|---|
| `CodeGen.AlphabetFacts` | functions/lib/index.js:273 | the alphabet has 34 characters; '0' and 'l' are absent and 'o' is present |
| `CodeGen.AlphabetMembers` | functions/lib/index.js:273 | the alphabet holds exactly the digits 1 to 9 and the letters a to z other than 'l' |
| `CodeGen.AlphabetDistinct` | functions/src/index.ts:59 | no character occurs twice in the alphabet |
| `CodeGen.CodeOf` | functions/lib/index.js:274-277 | the code spelled by a pick sequence has one character per pick, and character k is `ALPHABET[picks[k]]` |
| `CodeGen.GenerateCode` | functions/lib/index.js:272-279 | the loop counting `i` down from `length` gives exactly `max(length, 0)` characters (empty when `length <= 0`), all from the alphabet, equal to the code of the first `max(length, 0)` picks |
| `CodeGen.CodeAvoidsConfusables` | functions/src/index.ts:58-65 | every generated character is in the alphabet, so a code never contains '0' or 'l' |
| `CodeGen.EveryCodeReachable` | functions/lib/index.js:276 | every string over the alphabet is the code of some valid pick sequence (`PicksOf` is a right inverse of `CodeOf`) |
| `CodeGen.PicksDetermineCode` | functions/src/index.ts:61-63 | different picks give different codes (`PicksOf` is a left inverse of `CodeOf`), so uniform picks give uniform codes |
| `Params.ParamIsEmpty` | functions/lib/index.js:298-300 | an `undefined` parameter never counts as empty; a string counts as empty exactly when it has no characters |
| `Params.EmptyMeansNullOrBlank` | functions/lib/index.js:298-300 | `null` and `''` are empty; `undefined` and every non-empty string pass |
| `Params.FirstEmpty` | functions/lib/index.js:123-130 | finds the position of the first empty parameter (all earlier ones pass), or none exactly when every parameter passes |
| `Params.ValidateReportsFirstEmpty` | functions/lib/index.js:75-80 | validation is silent exactly when no parameter is empty; otherwise it returns the 400 envelope naming the first empty parameter |
| `Params.ValidateCons` | functions/lib/index.js:235-236 | the first check decides when it fails; otherwise the remaining checks decide |
| `Replies.ParamFail` | functions/lib/index.js:285-292 | the rejection is an error envelope under the key `status` with code 400, and its message begins with the parameter's name |
| `Replies.ParamFailNamesParam` | functions/lib/index.js:285-292 | the 400 message `name + ' format incorrect'` identifies the parameter: equal envelopes come only from equal names |
| `Replies.FailureKinds` | functions/lib/index.js:32-57 | validation failures use key `status` and code 400; Spotify and Firestore failures use key `staus` and code 401 with different messages; successes use `status` |
| `Resync.SongOf` | functions/lib/index.js:200-206 | the song record built from one listing item: name and uri of the track, the first artist's name, the first album image's url, the contributor's id |
| `Resync.SongsOfAt` | functions/lib/index.js:197-208 | the mapped song list has the listing's length, and song k is made from item k |
| `Resync.SongFields` | functions/lib/index.js:199-206 | name and uri come from the track, artist from `artists[0]`, imageUrl from `album.images[0]`, addedBy from `added_by.id` |
| `Resync.MapItems` | functions/lib/index.js:197-208 | the push loop returns exactly `SongsOf(items)`, the front-to-back mapping of the whole listing |
| `Rooms.NewRoom` | functions/lib/index.js:43-44 | the document `generateRoom` writes: enabled, the given owner and playlist id, no songs, and a current song whose name, artist, imageUrl and uri are all empty |
| `Rooms.DocPath` | functions/lib/index.js:239 | `doc(roomCode)` (also at lines 83 and 213) has a path exactly when the room code is a non-empty string, and the path is that string |
| `Rooms.ResyncRooms` | functions/lib/index.js:209-213 | a resync keeps the same room codes and changes no field but `songs`; a successful one sets that room's songs to the mapped listing and leaves every other room alone; otherwise the store is unchanged |
| `Rooms.ResyncReply` | functions/lib/index.js:185-225 | a failed listing gives the Spotify 401; a listing followed by a failed update gives the Firestore 401; success exactly when the write takes effect |
| `Rooms.ResyncForgetsOldSongs` | functions/lib/index.js:209-213 | the resync overwrites: a resynced room comes out the same whatever songs it held before |
| `Rooms.ResyncIdempotent` | functions/lib/index.js:209-213 | repeating a resync with the same listing changes nothing more |
| `Rooms.GenerateRoomChecksInOrder` | functions/lib/index.js:22-26 | `generateRoom` tests the username before the access token and reports the first empty one |
| `Rooms.CloseRoomChecksInOrder` | functions/lib/index.js:74-80 | `closeRoom` tests room code, access token, playlist id in that order and reports the first empty one |
| `Rooms.SongChecksInOrder` | functions/lib/index.js:160-167 | the song handlers test room code, access token, playlist id, song uri in that order and report the first empty one |
| `Rooms.ValidRoomsInsert` | functions/lib/index.js:42-44 | storing a new room document at a generated code keeps every stored room at a room code, enabled and with no current song |
| `Rooms.RoomStore.GenerateRoom` | functions/lib/index.js:16-59 | a 400 for an empty username, then for an empty token, with no call and no store change; a failed playlist creation gives the Spotify 401 with the store untouched; a failed write gives the Firestore 401; otherwise the room `{enabled: true, owner, playlistId, songs: [], currentSong: empty}` is stored at the 6-character code and the reply carries code and playlist id; keeps `Valid()` |
| `Rooms.RoomStore.CloseRoom` | functions/lib/index.js:69-108 | 400s in check order with no call; the delete comes first, and a failed delete gives the Firestore 401 and no unfollow; after a successful delete the room is gone, and a failed unfollow still gives the Spotify 401 |
| `Rooms.RoomStore.UpdateDatabase` | functions/lib/index.js:183-226 | the reply, the new store and the calls are those of `ResyncReply`, `ResyncRooms` and `ResyncCalls` |
| `Rooms.RoomStore.AddSong` | functions/lib/index.js:116-145 | 400s in check order with no call and no change; a failed append gives the Spotify 401 with no resync; otherwise the append is followed by exactly the resync's calls, reply and store |
| `Rooms.RoomStore.RemoveSong` | functions/lib/index.js:153-182 | as `AddSong`, with the removal call |
| `Rooms.RoomStore.JoinRoom` | functions/lib/index.js:232-266 | a 400 for an empty code; a failed read, or a present document without data, gives the Firestore 401; a present document gives `isRoomOpen: true` with its playlist id; an absent one gives the success `isRoomOpen: false` (both directions stated); a room reported open is stored and enabled |
| `Rooms.CloseThenJoin` | functions/lib/index.js:81-107 | after a successful delete the room cannot be joined, even when the unfollow failed |
| `Rooms.GenerateThenJoin` | functions/lib/index.js:41-49 | a room that was just created is found open, with the playlist it was created with |
| `DraftRooms.DraftStore.GenerateRoom` | functions/src/index.ts:12-22 | writes exactly `{enabled: true, owner: 'budde25'}` at a 6-character code; answers 200 with the code when the write succeeds, and 500 with an empty body with the store unchanged when it fails |

## Left out

- Spotify and Firestore internals (`createPlaylist`, `addTracksToPlaylist`, `removeTracksFromPlaylist`, `getPlaylistTracks`, `unfollowPlaylist`, `set`/`update`/`delete`/`get`): these are network calls. Each is an `Ok`/`Fail` argument. Only the store's effect on success is modelled.
- `Math.random()` and the `Math.floor` product: this is floating-point randomness. It is a caller-supplied sequence of picks, each below the alphabet length.
- Construction of the `SpotifyWebApi` client from the token, the `onCall`/`onRequest` wrappers, promises and `console` logging: library wrappers and I/O.
- Pagination of `getPlaylistTracks` (functions/lib/index.js:186-187): the code reads only `response.body.items`, the first page of the playlist. The `listing` argument stands for that first page; later pages are neither fetched nor modelled.
- Concurrent requests and races between resyncs on one room: the code does nothing to coordinate them.
- The exception the mapping throws for a track with no artists or no album images: `MapItems`, `UpdateDatabase`, `AddSong` and `RemoveSong` require every listed track to have at least one of each.
- Firestore's checks on document data: an `owner` that is `undefined` would make `set` throw inside the `try` (functions/lib/index.js:43). The `write` outcome stands for this, so the model stores such a room when `write` is `Ok`.
- The mapping's dereferences of `item.track` and `item.added_by` (functions/lib/index.js:199, 205): listing items are modelled as always carrying a track and a contributor, so the throw on a missing one is not modelled.
- Firestore's checks on path syntax beyond "a non-empty string" (for example a `/` in a room code): they are part of the store's own behaviour, and the outcome argument covers them.
- The stubs `closeRoom`, `addSong` and `isRoomOpen` in functions/src/index.ts: they contain no logic.
- The generated code could collide with an existing room: `generateRoom` overwrites that document, and the postcondition shows this (`old(rooms)[code := ...]`). No uniqueness check exists to model.
