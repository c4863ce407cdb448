/**
 * The mapping step of `updateDatabase`: every item of a playlist listing
 * becomes one song record of the room, in listing order.
 */
module Resync {

  /** The parts of a playlist-service listing item that the mapping reads. */
  datatype Artist = Artist(name: string)
  datatype Image = Image(url: string)
  datatype Album = Album(images: seq<Image>)
  datatype Track = Track(name: string, uri: string, artists: seq<Artist>, album: Album)
  datatype User = User(id: string)
  datatype PlaylistItem = PlaylistItem(track: Track, addedBy: User)

  /** A song record as the room document stores it. */
  datatype Song = Song(name: string, uri: string, artist: string, imageUrl: string, addedBy: string)

  /**
   * The mapping reads `artists[0]` and `album.images[0]` of every track, so
   * it needs at least one of each.
   */
  predicate Mappable(item: PlaylistItem) {
    |item.track.artists| > 0 && |item.track.album.images| > 0
  }

  predicate AllMappable(items: seq<PlaylistItem>) {
    forall k :: 0 <= k < |items| ==> Mappable(items[k])
  }

  /** The song record for one listing item. */
  function SongOf(item: PlaylistItem): (song: Song)
    requires Mappable(item)
    ensures song.name == item.track.name && song.uri == item.track.uri
    ensures song.artist == item.track.artists[0].name
    ensures song.imageUrl == item.track.album.images[0].url
    ensures song.addedBy == item.addedBy.id
  {
    Song(item.track.name, item.track.uri, item.track.artists[0].name,
         item.track.album.images[0].url, item.addedBy.id)
  }

  /** The songs for a whole listing: `SongOf` applied item by item, front to back. */
  function SongsOf(items: seq<PlaylistItem>): seq<Song>
    requires AllMappable(items)
  {
    if items == [] then [] else [SongOf(items[0])] + SongsOf(items[1..])
  }

  /**
   * The mapping keeps length and order: the k-th song is made from the k-th
   * listed item.
   */
  lemma {:induction false} SongsOfAt(items: seq<PlaylistItem>)
    requires AllMappable(items)
    ensures |SongsOf(items)| == |items|
    ensures forall k :: 0 <= k < |items| ==> SongsOf(items)[k] == SongOf(items[k])
  {
    if items != [] {
      SongsOfAt(items[1..]);
    }
  }

  /** Mapping a listing that grew by one item adds that item's song at the end. */
  lemma {:induction false} SongsOfSnoc(items: seq<PlaylistItem>, item: PlaylistItem)
    requires AllMappable(items) && Mappable(item)
    ensures AllMappable(items + [item])
    ensures SongsOf(items + [item]) == SongsOf(items) + [SongOf(item)]
  {
    if items != [] {
      assert (items + [item])[1..] == items[1..] + [item];
      SongsOfSnoc(items[1..], item);
    }
  }

  /** The songs are exactly the listed tracks' fields, item for item. */
  lemma SongFields(items: seq<PlaylistItem>, k: nat)
    requires AllMappable(items) && k < |items|
    ensures k < |SongsOf(items)|
    ensures SongsOf(items)[k].name == items[k].track.name
    ensures SongsOf(items)[k].uri == items[k].track.uri
    ensures SongsOf(items)[k].artist == items[k].track.artists[0].name
    ensures SongsOf(items)[k].imageUrl == items[k].track.album.images[0].url
    ensures SongsOf(items)[k].addedBy == items[k].addedBy.id
  {
    SongsOfAt(items);
  }

  /**
   * The loop of `updateDatabase`: walks the listing and pushes one song per
   * item onto `tracks`.
   */
  method MapItems(items: seq<PlaylistItem>) returns (tracks: seq<Song>)
    requires AllMappable(items)
    ensures tracks == SongsOf(items)
  {
    tracks := [];
    var n := 0;
    while n < |items|
      invariant 0 <= n <= |items|
      invariant tracks == SongsOf(items[..n])
    {
      var item := items[n];
      var song := Song(item.track.name, item.track.uri, item.track.artists[0].name,
                       item.track.album.images[0].url, item.addedBy.id);
      assert items[..n + 1] == items[..n] + [item];
      SongsOfSnoc(items[..n], item);
      tracks := tracks + [song];
      n := n + 1;
    }
    assert items[..n] == items;
  }
}
