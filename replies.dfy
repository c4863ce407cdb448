/**
 * The response envelopes the handlers return to the caller.
 *
 * The handlers use two different spellings of the status key: validation
 * failures and every success use `status`, while the failures reported after a
 * downstream call use the misspelled key `staus`. The envelope keeps the key
 * as data so that both spellings survive.
 */
module Replies {

  const STATUS_KEY := "status"
  const MISSPELLED_STATUS_KEY := "staus"
  const SPOTIFY_FAILED := "Spotify connection failed"
  const FIRESTORE_FAILED := "Firestore connection failed"
  const FORMAT_INCORRECT := " format incorrect"

  /** The operation-specific fields of a success envelope. */
  datatype Payload =
    | Bare                                          // {status: 'success'}
    | RoomCreated(roomCode: string, playlistId: string) // {..., roomCode, playlistId}
    | RoomOpen(playlistId: string)                  // {..., isRoomOpen: true, playlistId}
    | RoomNotOpen                                   // {..., isRoomOpen: false}

  /**
   * `Failure(key, code, message)` is `{<key>: 'error', code, message}`;
   * `Success(p)` is `{status: 'success', ...p}`.
   */
  datatype Envelope =
    | Failure(statusKey: string, code: int, message: string)
    | Success(payload: Payload)

  /** The key under which an envelope carries its status word. */
  function StatusKeyOf(e: Envelope): string {
    if e.Failure? then e.statusKey else STATUS_KEY
  }

  /** The 400 envelope for a parameter named `param`. */
  function ParamFail(param: string): (r: Envelope)
    ensures r.Failure? && StatusKeyOf(r) == STATUS_KEY && r.code == 400
    ensures |param| <= |r.message| && r.message[..|param|] == param
  {
    Failure(STATUS_KEY, 400, param + FORMAT_INCORRECT)
  }

  /** The 401 envelope for a failed call to the playlist service. */
  const SPOTIFY_FAILURE := Failure(MISSPELLED_STATUS_KEY, 401, SPOTIFY_FAILED)

  /** The 401 envelope for a failed call to the document store. */
  const FIRESTORE_FAILURE := Failure(MISSPELLED_STATUS_KEY, 401, FIRESTORE_FAILED)

  /**
   * A validation failure names its parameter: two parameter names give the
   * same envelope only when they are the same name.
   */
  lemma ParamFailNamesParam(a: string, b: string)
    ensures ParamFail(a) == ParamFail(b) <==> a == b
  {
    if ParamFail(a) == ParamFail(b) {
      var ma, mb := a + FORMAT_INCORRECT, b + FORMAT_INCORRECT;
      assert ma == mb;
      assert |a| == |b|;
      assert a == ma[..|a|];
      assert b == mb[..|b|];
    }
  }

  /**
   * The three kinds of failure are told apart by key and code: a validation
   * failure is keyed `status` with code 400, a downstream failure is keyed
   * `staus` with code 401.
   */
  lemma FailureKinds(param: string)
    ensures StatusKeyOf(ParamFail(param)) == "status" && ParamFail(param).code == 400
    ensures StatusKeyOf(SPOTIFY_FAILURE) == "staus" && SPOTIFY_FAILURE.code == 401
    ensures StatusKeyOf(FIRESTORE_FAILURE) == "staus" && FIRESTORE_FAILURE.code == 401
    ensures SPOTIFY_FAILURE != FIRESTORE_FAILURE
    ensures forall p :: StatusKeyOf(Success(p)) == "status"
  {
  }
}
