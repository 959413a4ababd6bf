/** The remote music catalog, seen as data. Every provider endpoint the
    client calls becomes a total function of a `Catalog` value; the network,
    the credentials and the session object are not modelled. */
module Catalog {
  import opened Common

  type ArtistId = string
  type AlbumId = string
  type TrackId = string
  type PlaylistId = string

  /** The `album_type` filter of the artist-albums endpoint
      ('album', 'single', 'compilation', 'appears_on'). */
  datatype AlbumKind = FullAlbum | Single | Compilation | AppearsOn

  /** One page of a paginated listing. `More` is a page whose `next` cursor is
      set and leads to the following page; `Last` is a page whose `next` is null. */
  datatype Listing<T> = Last(items: seq<T>) | More(items: seq<T>, next: Listing<T>)

  /** The items of every page, page by page. */
  function Pages<T>(l: Listing<T>): (r: seq<seq<T>>)
    ensures |r| >= 1 && r[0] == l.items
  {
    match l
    case Last(xs) => [xs]
    case More(xs, rest) => [xs] + Pages(rest)
  }

  /** Everything a listing holds: the in-order concatenation of its pages. */
  function AllItems<T>(l: Listing<T>): seq<T> {
    Flatten(Pages(l))
  }

  /** A reference to an artist inside a track or album object. */
  datatype ArtistRef = ArtistRef(name: string, id: ArtistId)

  datatype Artist = Artist(
    name: string, id: ArtistId, genres: seq<string>, followersTotal: int, popularity: int)

  datatype Album = Album(
    name: string, id: AlbumId, albumType: string, artists: seq<ArtistRef>,
    genres: seq<string>, popularity: int, recordLabel: string, releaseDate: string)

  datatype Track = Track(
    name: string, id: TrackId, artists: seq<ArtistRef>, albumId: AlbumId,
    popularity: int, explicit: bool, durationMs: int)

  /** The audio-feature record of one track (key, mode and time signature,
      then the eight continuous descriptors, as the provider reports them). */
  datatype Features = Features(
    key: int, mode: int, timeSignature: int,
    acousticness: real, danceability: real, energy: real, instrumentalness: real,
    liveness: real, loudness: real, speechiness: real, valence: real, tempo: real)

  /** A track entry of an album listing: its name and ID. */
  datatype TrackStub = TrackStub(name: string, id: TrackId)

  /** What the provider answers, endpoint by endpoint. `audioFeatures` is
      `None` where the provider has no audio analysis for a track. */
  datatype Catalog = Catalog(
    playlistTracks: PlaylistId -> Listing<TrackId>,
    artists: ArtistId -> Artist,
    albums: AlbumId -> Album,
    tracks: TrackId -> Track,
    audioFeatures: TrackId -> Option<Features>,
    artistAlbums: (ArtistId, AlbumKind) -> Listing<AlbumId>,
    albumTracks: AlbumId -> Listing<TrackStub>,
    relatedArtists: ArtistId -> seq<ArtistId>,
    recommendations: (ArtistId, int) -> seq<TrackId>)

  /** Reads the first page of a listing and follows its `next` cursor until
      it is null, extending the result with each page's items. */
  method FollowPages<T>(first: Listing<T>) returns (items: seq<T>)
    ensures items == AllItems(first)
  {
    var page := first;
    items := page.items;
    AllItemsSplit(page);
    while page.More?
      invariant items + (if page.More? then AllItems(page.next) else []) == AllItems(first)
      decreases page
    {
      page := page.next;
      AllItemsSplit(page);
      items := items + page.items;
    }
  }

  /** A listing's items are its first page's items followed by whatever the
      `next` cursor leads to, and nothing when the cursor is null. */
  lemma {:induction false} AllItemsSplit<T>(l: Listing<T>)
    ensures AllItems(l) == l.items + (if l.More? then AllItems(l.next) else [])
  {
    match l
    case Last(xs) =>
      assert Pages(l) == [xs];
      assert Flatten(Pages(l)[1..]) == [];
    case More(xs, rest) =>
      assert Pages(l)[1..] == Pages(rest);
  }
}
