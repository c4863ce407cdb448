/**
 * The room lifecycle handlers of functions/lib/index.js over a room store.
 *
 * The store is the `rooms` collection of the document database, a map from
 * document path (the room code) to the room document. Every handler runs its
 * parameter checks in a fixed order, then calls the playlist service and the
 * store one call at a time and returns at the first failure. The outcome of
 * every external call is an argument; besides its envelope each handler
 * returns the external calls it made, in order.
 */
module Rooms {
  import opened Wrappers
  import opened Replies
  import opened Params
  import opened CodeGen
  import opened Resync

  const APP_NAME := "PartyDJ"

  /** The song a room is playing; a new room has four empty fields. */
  datatype NowPlaying = NowPlaying(name: string, artist: string, imageUrl: string, uri: string)

  const NOTHING_PLAYING := NowPlaying("", "", "", "")

  /** A room document. */
  datatype Room = Room(enabled: bool, owner: Param, playlistId: string, songs: seq<Song>,
                       currentSong: NowPlaying)

  /** The document `generateRoom` writes for a new room. */
  function NewRoom(owner: Param, playlistId: string): (room: Room)
    ensures room.enabled && room.owner == owner && room.playlistId == playlistId
    ensures room.songs == []
    ensures var c := room.currentSong; c.name == c.artist == c.imageUrl == c.uri == ""
  {
    Room(true, owner, playlistId, [], NOTHING_PLAYING)
  }

  /** One call to an external service, with the arguments the model can see. */
  datatype ExternalCall =
    | CreatePlaylist(user: Param, name: string)
    | AddTracks(playlistId: Param, uris: seq<Param>)
    | RemoveTracks(playlistId: Param, uris: seq<Param>)
    | GetPlaylistTracks(playlistId: Param)
    | UnfollowPlaylist(playlistId: Param)
    | StoreSet(path: string)
    | StoreGet(path: string)
    | StoreUpdate(path: string)
    | StoreDelete(path: string)

  /**
   * The outcome of reading a room document: the read throws, or it returns
   * a snapshot whose data may be undefined. Whether the document exists is
   * taken from the store.
   */
  datatype Read = ReadFailed | ReadDone(dataDefined: bool)

  /**
   * The document path for a room-code parameter. The store only accepts a
   * non-empty string as a path and throws otherwise, inside the handler's
   * `try`.
   */
  function DocPath(roomCode: Param): (path: Option<string>)
    ensures path.Some? <==> roomCode.Str? && |roomCode.s| > 0
    ensures path.Some? ==> path.value == roomCode.s
  {
    if roomCode.Str? && roomCode.s != "" then Some(roomCode.s) else None
  }

  /** The playlist name `generateRoom` asks for. */
  function PlaylistName(roomCode: string): string {
    APP_NAME + ":" + roomCode
  }

  /** Two room documents that differ at most in their song list. */
  predicate SameExceptSongs(a: Room, b: Room) {
    a.enabled == b.enabled && a.owner == b.owner && a.playlistId == b.playlistId
      && a.currentSong == b.currentSong
  }

  /** Whether the resync reaches the store write and the write takes effect. */
  predicate ResyncWrites(rooms: map<string, Room>, roomCode: Param,
                         listing: Outcome<seq<PlaylistItem>>, update: Outcome<()>)
  {
    listing.Ok? && DocPath(roomCode).Some? && update.Ok? && DocPath(roomCode).value in rooms
  }

  /**
   * The store after `updateDatabase`: when the listing and the update both
   * succeed, the room's `songs` field is replaced by the mapped listing.
   * An update of a missing document fails, so then nothing changes.
   */
  function ResyncRooms(rooms: map<string, Room>, roomCode: Param,
                       listing: Outcome<seq<PlaylistItem>>, update: Outcome<()>): (r: map<string, Room>)
    requires listing.Ok? ==> AllMappable(listing.value)
    ensures r.Keys == rooms.Keys
    ensures forall k :: k in rooms ==> SameExceptSongs(r[k], rooms[k])
    ensures !ResyncWrites(rooms, roomCode, listing, update) ==> r == rooms
    ensures ResyncWrites(rooms, roomCode, listing, update) ==>
      r[DocPath(roomCode).value].songs == SongsOf(listing.value)
      && forall k :: k in rooms && k != DocPath(roomCode).value ==> r[k] == rooms[k]
  {
    if ResyncWrites(rooms, roomCode, listing, update) then
      var code := DocPath(roomCode).value;
      rooms[code := rooms[code].(songs := SongsOf(listing.value))]
    else rooms
  }

  /**
   * The resync is a full replace, not an append: when it writes, the room
   * it writes ends up the same whatever songs it held before.
   */
  lemma ResyncForgetsOldSongs(rooms: map<string, Room>, code: string, before: seq<Song>,
                              listing: Outcome<seq<PlaylistItem>>, update: Outcome<()>)
    requires listing.Ok? ==> AllMappable(listing.value)
    requires ResyncWrites(rooms, Str(code), listing, update)
    ensures ResyncWrites(rooms[code := rooms[code].(songs := before)], Str(code), listing, update)
    ensures ResyncRooms(rooms[code := rooms[code].(songs := before)], Str(code), listing, update)
         == ResyncRooms(rooms, Str(code), listing, update)
  {
  }

  /** Resynchronising twice against the same listing changes nothing the second time. */
  lemma ResyncIdempotent(rooms: map<string, Room>, roomCode: Param,
                         listing: Outcome<seq<PlaylistItem>>, update: Outcome<()>)
    requires listing.Ok? ==> AllMappable(listing.value)
    ensures var once := ResyncRooms(rooms, roomCode, listing, update);
      ResyncRooms(once, roomCode, listing, update) == once
  {
  }

  /** The envelope `updateDatabase` returns. */
  function ResyncReply(rooms: map<string, Room>, roomCode: Param,
                       listing: Outcome<seq<PlaylistItem>>, update: Outcome<()>): (r: Envelope)
    ensures r == Success(Bare) <==> ResyncWrites(rooms, roomCode, listing, update)
    ensures listing.Fail? <==> r == SPOTIFY_FAILURE
    ensures listing.Ok? && !ResyncWrites(rooms, roomCode, listing, update) <==> r == FIRESTORE_FAILURE
  {
    if listing.Fail? then SPOTIFY_FAILURE
    else if ResyncWrites(rooms, roomCode, listing, update) then Success(Bare)
    else FIRESTORE_FAILURE
  }

  /** The external calls `updateDatabase` makes: the listing, then the update. */
  function ResyncCalls(roomCode: Param, playlistId: Param,
                       listing: Outcome<seq<PlaylistItem>>): seq<ExternalCall>
  {
    [GetPlaylistTracks(playlistId)]
      + if listing.Ok? && DocPath(roomCode).Some? then [StoreUpdate(DocPath(roomCode).value)] else []
  }

  /** Checks of `generateRoom`, in the order it runs them. */
  function GenerateRoomChecks(username: Param, accessToken: Param): seq<Check> {
    [Check("Username", username), Check("Access token", accessToken)]
  }

  /** Checks of `closeRoom`. */
  function CloseRoomChecks(roomCode: Param, accessToken: Param, playlistId: Param): seq<Check> {
    [Check("Room code", roomCode), Check("Access token", accessToken), Check("Playlist id", playlistId)]
  }

  /** Checks of `addSong` and `removeSong`. */
  function SongChecks(roomCode: Param, accessToken: Param, playlistId: Param, songUri: Param): seq<Check> {
    [Check("Room code", roomCode), Check("Access token", accessToken), Check("Playlist id", playlistId),
     Check("Song uri", songUri)]
  }

  /** Checks of `joinRoom`. */
  function JoinRoomChecks(roomCode: Param): seq<Check> {
    [Check("Room code", roomCode)]
  }

  /** `addSong` and `removeSong` test the room code, token, playlist id and song uri in that order. */
  lemma SongChecksInOrder(roomCode: Param, accessToken: Param, playlistId: Param, songUri: Param)
    ensures Validate(SongChecks(roomCode, accessToken, playlistId, songUri)) ==
      if ParamIsEmpty(roomCode) then Some(ParamFail("Room code"))
      else if ParamIsEmpty(accessToken) then Some(ParamFail("Access token"))
      else if ParamIsEmpty(playlistId) then Some(ParamFail("Playlist id"))
      else if ParamIsEmpty(songUri) then Some(ParamFail("Song uri"))
      else None
  {
    var c0, c1, c2, c3 := Check("Room code", roomCode), Check("Access token", accessToken),
                          Check("Playlist id", playlistId), Check("Song uri", songUri);
    assert SongChecks(roomCode, accessToken, playlistId, songUri) == [c0] + ([c1] + ([c2] + ([c3] + [])));
    ValidateCons(c0, [c1] + ([c2] + ([c3] + [])));
    ValidateCons(c1, [c2] + ([c3] + []));
    ValidateCons(c2, [c3] + []);
    ValidateCons(c3, []);
  }

  /** `closeRoom` tests the room code, token and playlist id in that order. */
  lemma CloseRoomChecksInOrder(roomCode: Param, accessToken: Param, playlistId: Param)
    ensures Validate(CloseRoomChecks(roomCode, accessToken, playlistId)) ==
      if ParamIsEmpty(roomCode) then Some(ParamFail("Room code"))
      else if ParamIsEmpty(accessToken) then Some(ParamFail("Access token"))
      else if ParamIsEmpty(playlistId) then Some(ParamFail("Playlist id"))
      else None
  {
    var c0, c1, c2 := Check("Room code", roomCode), Check("Access token", accessToken),
                      Check("Playlist id", playlistId);
    assert CloseRoomChecks(roomCode, accessToken, playlistId) == [c0] + ([c1] + ([c2] + []));
    ValidateCons(c0, [c1] + ([c2] + []));
    ValidateCons(c1, [c2] + []);
    ValidateCons(c2, []);
  }

  /** `generateRoom` tests the username before the token. */
  lemma GenerateRoomChecksInOrder(username: Param, accessToken: Param)
    ensures Validate(GenerateRoomChecks(username, accessToken)) ==
      if ParamIsEmpty(username) then Some(ParamFail("Username"))
      else if ParamIsEmpty(accessToken) then Some(ParamFail("Access token"))
      else None
  {
    var c0, c1 := Check("Username", username), Check("Access token", accessToken);
    assert GenerateRoomChecks(username, accessToken) == [c0] + ([c1] + []);
    ValidateCons(c0, [c1] + []);
    ValidateCons(c1, []);
  }

  /**
   * Each document sits at a room code the generator made, and `enabled` and
   * `currentSong` keep the values the room was created with.
   */
  ghost predicate ValidRooms(rooms: map<string, Room>) {
    forall code :: code in rooms ==>
      IsRoomCode(code) && rooms[code].enabled && rooms[code].currentSong == NOTHING_PLAYING
  }

  /** Storing a new room at a generated code keeps the store valid. */
  lemma ValidRoomsInsert(rooms: map<string, Room>, code: string, owner: Param, playlistId: string)
    requires ValidRooms(rooms) && IsRoomCode(code)
    ensures ValidRooms(rooms[code := NewRoom(owner, playlistId)])
  {
  }

  class RoomStore {
    /** The `rooms` collection. */
    var rooms: map<string, Room>

    /** What every handler keeps; no handler writes `enabled` or `currentSong` after creation. */
    ghost predicate Valid()
      reads this
    {
      ValidRooms(rooms)
    }

    constructor ()
      ensures Valid() && rooms == map[]
    {
      rooms := map[];
    }

    /**
     * `generateRoom`: generate a code, check the parameters, create the
     * playlist, then write the new room document at the code.
     */
    method GenerateRoom(username: Param, accessToken: Param, picks: seq<nat>,
                        create: Outcome<string>, write: Outcome<()>)
      returns (reply: Envelope, calls: seq<ExternalCall>)
      requires Valid()
      requires ROOM_LENGTH <= |picks| && ValidPicks(picks)
      modifies this
      ensures Valid()
      ensures Validate(GenerateRoomChecks(username, accessToken)).Some? ==>
        reply == Validate(GenerateRoomChecks(username, accessToken)).value
        && calls == [] && rooms == old(rooms)
      ensures Validate(GenerateRoomChecks(username, accessToken)).None? && create.Fail? ==>
        reply == SPOTIFY_FAILURE
        && calls == [CreatePlaylist(username, PlaylistName(CodeOf(picks[..ROOM_LENGTH])))]
        && rooms == old(rooms)
      ensures Validate(GenerateRoomChecks(username, accessToken)).None? && create.Ok? && write.Fail? ==>
        reply == FIRESTORE_FAILURE
        && calls == [CreatePlaylist(username, PlaylistName(CodeOf(picks[..ROOM_LENGTH]))),
                     StoreSet(CodeOf(picks[..ROOM_LENGTH]))]
        && rooms == old(rooms)
      ensures Validate(GenerateRoomChecks(username, accessToken)).None? && create.Ok? && write.Ok? ==>
        reply == Success(RoomCreated(CodeOf(picks[..ROOM_LENGTH]), create.value))
        && calls == [CreatePlaylist(username, PlaylistName(CodeOf(picks[..ROOM_LENGTH]))),
                     StoreSet(CodeOf(picks[..ROOM_LENGTH]))]
        && rooms == old(rooms)[CodeOf(picks[..ROOM_LENGTH]) := NewRoom(username, create.value)]
    {
      var roomCode := GenerateCode(ROOM_LENGTH, picks);
      assert IsRoomCode(roomCode);
      GenerateRoomChecksInOrder(username, accessToken);
      calls := [];
      if ParamIsEmpty(username) {
        return ParamFail("Username"), calls;
      }
      if ParamIsEmpty(accessToken) {
        return ParamFail("Access token"), calls;
      }
      calls := calls + [CreatePlaylist(username, PlaylistName(roomCode))];
      if create.Fail? {
        return SPOTIFY_FAILURE, calls;
      }
      var playlistId := create.value;
      calls := calls + [StoreSet(roomCode)];
      if write.Fail? {
        return FIRESTORE_FAILURE, calls;
      }
      ValidRoomsInsert(rooms, roomCode, username, playlistId);
      rooms := rooms[roomCode := NewRoom(username, playlistId)];
      reply := Success(RoomCreated(roomCode, playlistId));
    }

    /**
     * `closeRoom`: check the parameters, delete the room document, then
     * unfollow the playlist. The document is gone once the delete succeeded,
     * whatever the unfollow does.
     */
    method CloseRoom(roomCode: Param, accessToken: Param, playlistId: Param,
                     delete: Outcome<()>, unfollow: Outcome<()>)
      returns (reply: Envelope, calls: seq<ExternalCall>)
      requires Valid()
      modifies this
      ensures Valid()
      ensures var invalid := Validate(CloseRoomChecks(roomCode, accessToken, playlistId));
        var path := DocPath(roomCode);
        if invalid.Some? then
          reply == invalid.value && calls == [] && rooms == old(rooms)
        else if path.None? then
          reply == FIRESTORE_FAILURE && calls == [] && rooms == old(rooms)
        else if delete.Fail? then
          reply == FIRESTORE_FAILURE && calls == [StoreDelete(path.value)] && rooms == old(rooms)
        else
          reply == (if unfollow.Ok? then Success(Bare) else SPOTIFY_FAILURE)
          && calls == [StoreDelete(path.value), UnfollowPlaylist(playlistId)]
          && rooms == old(rooms) - {path.value}
    {
      CloseRoomChecksInOrder(roomCode, accessToken, playlistId);
      calls := [];
      if ParamIsEmpty(roomCode) {
        return ParamFail("Room code"), calls;
      }
      if ParamIsEmpty(accessToken) {
        return ParamFail("Access token"), calls;
      }
      if ParamIsEmpty(playlistId) {
        return ParamFail("Playlist id"), calls;
      }
      var path := DocPath(roomCode);
      if path.None? {
        return FIRESTORE_FAILURE, calls;
      }
      calls := calls + [StoreDelete(path.value)];
      if delete.Fail? {
        return FIRESTORE_FAILURE, calls;
      }
      rooms := rooms - {path.value};
      calls := calls + [UnfollowPlaylist(playlistId)];
      if unfollow.Fail? {
        return SPOTIFY_FAILURE, calls;
      }
      reply := Success(Bare);
    }

    /**
     * `updateDatabase`: list the playlist, map the items to songs and
     * replace the room's `songs` field with them.
     */
    method UpdateDatabase(roomCode: Param, playlistId: Param,
                          listing: Outcome<seq<PlaylistItem>>, update: Outcome<()>)
      returns (reply: Envelope, calls: seq<ExternalCall>)
      requires Valid()
      requires listing.Ok? ==> AllMappable(listing.value)
      modifies this
      ensures Valid()
      ensures reply == ResyncReply(old(rooms), roomCode, listing, update)
      ensures rooms == ResyncRooms(old(rooms), roomCode, listing, update)
      ensures calls == ResyncCalls(roomCode, playlistId, listing)
    {
      calls := [GetPlaylistTracks(playlistId)];
      if listing.Fail? {
        return SPOTIFY_FAILURE, calls;
      }
      var tracks := MapItems(listing.value);
      var path := DocPath(roomCode);
      if path.None? {
        return FIRESTORE_FAILURE, calls;
      }
      calls := calls + [StoreUpdate(path.value)];
      if update.Fail? || path.value !in rooms {
        return FIRESTORE_FAILURE, calls;
      }
      rooms := rooms[path.value := rooms[path.value].(songs := tracks)];
      reply := Success(Bare);
    }

    /**
     * `addSong`: check the parameters, append the track to the playlist,
     * then resynchronise the room's songs with the playlist.
     */
    method AddSong(roomCode: Param, accessToken: Param, playlistId: Param, songUri: Param,
                   add: Outcome<()>, listing: Outcome<seq<PlaylistItem>>, update: Outcome<()>)
      returns (reply: Envelope, calls: seq<ExternalCall>)
      requires Valid()
      requires listing.Ok? ==> AllMappable(listing.value)
      modifies this
      ensures Valid()
      ensures var invalid := Validate(SongChecks(roomCode, accessToken, playlistId, songUri));
        if invalid.Some? then
          reply == invalid.value && calls == [] && rooms == old(rooms)
        else if add.Fail? then
          reply == SPOTIFY_FAILURE && calls == [AddTracks(playlistId, [songUri])] && rooms == old(rooms)
        else
          reply == ResyncReply(old(rooms), roomCode, listing, update)
          && calls == [AddTracks(playlistId, [songUri])] + ResyncCalls(roomCode, playlistId, listing)
          && rooms == ResyncRooms(old(rooms), roomCode, listing, update)
    {
      SongChecksInOrder(roomCode, accessToken, playlistId, songUri);
      calls := [];
      if ParamIsEmpty(roomCode) {
        return ParamFail("Room code"), calls;
      }
      if ParamIsEmpty(accessToken) {
        return ParamFail("Access token"), calls;
      }
      if ParamIsEmpty(playlistId) {
        return ParamFail("Playlist id"), calls;
      }
      if ParamIsEmpty(songUri) {
        return ParamFail("Song uri"), calls;
      }
      calls := calls + [AddTracks(playlistId, [songUri])];
      if add.Fail? {
        return SPOTIFY_FAILURE, calls;
      }
      var resyncCalls;
      reply, resyncCalls := UpdateDatabase(roomCode, playlistId, listing, update);
      calls := calls + resyncCalls;
    }

    /**
     * `removeSong`: as `addSong`, with the track removed from the playlist
     * instead of appended.
     */
    method RemoveSong(roomCode: Param, accessToken: Param, playlistId: Param, songUri: Param,
                      remove: Outcome<()>, listing: Outcome<seq<PlaylistItem>>, update: Outcome<()>)
      returns (reply: Envelope, calls: seq<ExternalCall>)
      requires Valid()
      requires listing.Ok? ==> AllMappable(listing.value)
      modifies this
      ensures Valid()
      ensures var invalid := Validate(SongChecks(roomCode, accessToken, playlistId, songUri));
        if invalid.Some? then
          reply == invalid.value && calls == [] && rooms == old(rooms)
        else if remove.Fail? then
          reply == SPOTIFY_FAILURE && calls == [RemoveTracks(playlistId, [songUri])] && rooms == old(rooms)
        else
          reply == ResyncReply(old(rooms), roomCode, listing, update)
          && calls == [RemoveTracks(playlistId, [songUri])] + ResyncCalls(roomCode, playlistId, listing)
          && rooms == ResyncRooms(old(rooms), roomCode, listing, update)
    {
      SongChecksInOrder(roomCode, accessToken, playlistId, songUri);
      calls := [];
      if ParamIsEmpty(roomCode) {
        return ParamFail("Room code"), calls;
      }
      if ParamIsEmpty(accessToken) {
        return ParamFail("Access token"), calls;
      }
      if ParamIsEmpty(playlistId) {
        return ParamFail("Playlist id"), calls;
      }
      if ParamIsEmpty(songUri) {
        return ParamFail("Song uri"), calls;
      }
      calls := calls + [RemoveTracks(playlistId, [songUri])];
      if remove.Fail? {
        return SPOTIFY_FAILURE, calls;
      }
      var resyncCalls;
      reply, resyncCalls := UpdateDatabase(roomCode, playlistId, listing, update);
      calls := calls + resyncCalls;
    }

    /**
     * `joinRoom`: check the room code and read its document. A missing
     * document is a success that reports the room as not open; a failed
     * read, or a document without data, is a store failure. Since every
     * stored room stays enabled, "present" and "open and enabled" agree.
     */
    method JoinRoom(roomCode: Param, read: Read) returns (reply: Envelope, calls: seq<ExternalCall>)
      requires Valid()
      ensures var invalid := Validate(JoinRoomChecks(roomCode));
        var path := DocPath(roomCode);
        if invalid.Some? then
          reply == invalid.value && calls == []
        else if path.None? then
          reply == FIRESTORE_FAILURE && calls == []
        else
          calls == [StoreGet(path.value)]
          && reply == (if read.ReadFailed? then FIRESTORE_FAILURE
                       else if path.value !in rooms then Success(RoomNotOpen)
                       else if read.dataDefined then Success(RoomOpen(rooms[path.value].playlistId))
                       else FIRESTORE_FAILURE)
      ensures reply.Success? && reply.payload.RoomOpen? <==>
        !ParamIsEmpty(roomCode) && DocPath(roomCode).Some? && DocPath(roomCode).value in rooms
        && read == ReadDone(true)
      ensures reply.Success? && reply.payload.RoomOpen? ==>
        DocPath(roomCode).Some? && DocPath(roomCode).value in rooms && rooms[DocPath(roomCode).value].enabled
      ensures reply == Success(RoomNotOpen) <==>
        !ParamIsEmpty(roomCode) && DocPath(roomCode).Some? && DocPath(roomCode).value !in rooms
        && read.ReadDone?
    {
      calls := [];
      if ParamIsEmpty(roomCode) {
        return ParamFail("Room code"), calls;
      }
      var path := DocPath(roomCode);
      if path.None? {
        return FIRESTORE_FAILURE, calls;
      }
      calls := [StoreGet(path.value)];
      if read.ReadFailed? {
        return FIRESTORE_FAILURE, calls;
      }
      if path.value in rooms {
        if !read.dataDefined {
          return FIRESTORE_FAILURE, calls;
        }
        reply := Success(RoomOpen(rooms[path.value].playlistId));
      } else {
        reply := Success(RoomNotOpen);
      }
    }
  }

  /**
   * Closing a room makes it unjoinable at once: after a successful delete,
   * a successful read of the same code finds no room, even when the
   * playlist could not be unfollowed.
   */
  method CloseThenJoin(store: RoomStore, code: string, accessToken: Param, playlistId: Param,
                       unfollow: Outcome<()>, dataDefined: bool)
    returns (closed: Envelope, joined: Envelope)
    requires store.Valid()
    requires code != "" && !ParamIsEmpty(accessToken) && !ParamIsEmpty(playlistId)
    modifies store
    ensures store.Valid() && code !in store.rooms
    ensures closed == (if unfollow.Ok? then Success(Bare) else SPOTIFY_FAILURE)
    ensures joined == Success(RoomNotOpen)
  {
    var calls;
    closed, calls := store.CloseRoom(Str(code), accessToken, playlistId, Ok(()), unfollow);
    joined, calls := store.JoinRoom(Str(code), ReadDone(dataDefined));
  }

  /**
   * A room that was just created can be joined: the read finds it open and
   * answers with the playlist the room was created with.
   */
  method GenerateThenJoin(store: RoomStore, username: Param, accessToken: Param, picks: seq<nat>,
                          playlistId: string)
    returns (created: Envelope, joined: Envelope)
    requires store.Valid()
    requires ROOM_LENGTH <= |picks| && ValidPicks(picks)
    requires !ParamIsEmpty(username) && !ParamIsEmpty(accessToken)
    modifies store
    ensures store.Valid()
    ensures created == Success(RoomCreated(CodeOf(picks[..ROOM_LENGTH]), playlistId))
    ensures joined == Success(RoomOpen(playlistId))
  {
    var calls;
    created, calls := store.GenerateRoom(username, accessToken, picks, Ok(playlistId), Ok(()));
    var code := CodeOf(picks[..ROOM_LENGTH]);
    assert code != "";
    joined, calls := store.JoinRoom(Str(code), ReadDone(true));
  }
}
