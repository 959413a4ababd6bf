/** The catalog client: chunking of ID lists, the batch endpoints with their
    size limits, the track frame with audio features, and the paginated
    listings of playlists, artists and albums. A data frame is a sequence of
    row records; row `i` of a frame is the frame's index label `i`. */
module SpotifyTools {
  import opened Common
  import opened Catalog

  const ArtistBatchLimit: nat := 50
  const AlbumBatchLimit: nat := 20
  const TrackBatchLimit: nat := 50

  const TooManyArtists := "Input list must not exceed 50 artists"
  const TooManyAlbums := "Input list must not exceed 20 albums"
  const TooManyTracks := "Input list must not exceed 50 tracks"
  /** What Python says when a missing (`None`) feature entry is indexed. */
  const NoneNotSubscriptable := "'NoneType' object is not subscriptable"

  /** Successive `n`-sized slices of `xs`; the last one may be shorter. */
  function Chunks<T>(xs: seq<T>, n: nat): (r: seq<seq<T>>)
    requires n > 0
    ensures forall i | 0 <= i < |r| :: 0 < |r[i]| <= n
    ensures forall i | 0 <= i < |r| - 1 :: |r[i]| == n
    decreases |xs|
  {
    if |xs| == 0 then []
    else if |xs| <= n then [xs]
    else [xs[..n]] + Chunks(xs[n..], n)
  }

  /** Concatenating the chunks gives back the input. */
  lemma {:induction false} ChunksConcat<T>(xs: seq<T>, n: nat)
    requires n > 0
    ensures Flatten(Chunks(xs, n)) == xs
    decreases |xs|
  {
    if |xs| == 0 {
    } else if |xs| <= n {
      assert Flatten([xs]) == xs + Flatten([]);
    } else {
      var rest := xs[n..];
      ChunksConcat(rest, n);
      var c := Chunks(xs, n);
      assert c == [xs[..n]] + Chunks(rest, n);
      assert c[1..] == Chunks(rest, n);
      assert xs == xs[..n] + rest;
    }
  }

  lemma MulPred(i: nat, n: nat)
    requires i > 0
    ensures (i - 1) * n + n == i * n
  {
  }

  /** There are ceil(|xs| / n) chunks: the least count whose `n`-sized slots hold `xs`. */
  lemma {:induction false} ChunkCount<T>(xs: seq<T>, n: nat)
    requires n > 0
    ensures (|Chunks(xs, n)| - 1) * n < |xs| <= |Chunks(xs, n)| * n
    decreases |xs|
  {
    if |xs| > n {
      var rest := xs[n..];
      ChunkCount(rest, n);
      var k := |Chunks(rest, n)|;
      assert |Chunks(xs, n)| == k + 1;
      MulPred(k, n);
      MulPred(k + 1, n);
    }
  }

  function Min(a: int, b: int): int {
    if a <= b then a else b
  }

  lemma ChunkHead<T>(xs: seq<T>, n: nat)
    requires n > 0 && |Chunks(xs, n)| > 0
    ensures Chunks(xs, n)[0] == xs[..Min(n, |xs|)]
  {
  }

  lemma SliceOfSuffix<T>(xs: seq<T>, n: nat, a: nat, b: nat)
    requires n <= |xs| && a <= b <= |xs| - n
    ensures xs[n..][a..b] == xs[a + n .. b + n]
  {
  }

  /** `i * n`, counted out one chunk at a time. */
  function Offset(i: nat, n: nat): nat {
    if i == 0 then 0 else Offset(i - 1, n) + n
  }

  lemma {:induction false} OffsetIsProduct(i: nat, n: nat)
    ensures Offset(i, n) == i * n
  {
    if i > 0 {
      OffsetIsProduct(i - 1, n);
      MulPred(i, n);
    }
  }

  lemma {:induction false} ChunkAt<T>(xs: seq<T>, n: nat, i: nat)
    requires n > 0 && i < |Chunks(xs, n)|
    ensures Offset(i, n) < |xs|
    ensures Chunks(xs, n)[i] == xs[Offset(i, n) .. Min(Offset(i, n) + n, |xs|)]
  {
    if i == 0 {
      ChunkHead(xs, n);
    } else {
      var rest := xs[n..];
      assert Chunks(xs, n)[i] == Chunks(rest, n)[i - 1] && |Chunks(rest, n)| == |Chunks(xs, n)| - 1 by {
        assert Chunks(xs, n) == [xs[..n]] + Chunks(rest, n);
      }
      ChunkAt(rest, n, i - 1);
      var start := Offset(i - 1, n);
      var stop := Min(start + n, |rest|);
      assert Offset(i, n) == start + n;
      assert stop + n == Min(Offset(i, n) + n, |xs|);
      SliceOfSuffix(xs, n, start, stop);
    }
  }

  /** Chunk `i` is exactly Python's slice `xs[i * n : i * n + n]`. */
  lemma ChunkIsSlice<T>(xs: seq<T>, n: nat, i: nat)
    requires n > 0 && i < |Chunks(xs, n)|
    ensures i * n < |xs|
    ensures Chunks(xs, n)[i] == xs[i * n .. Min(i * n + n, |xs|)]
  {
    ChunkAt(xs, n, i);
    OffsetIsProduct(i, n);
  }

  /** 137 IDs go out in three batches of 50, 50 and 37. */
  lemma ChunksOf137<T>(xs: seq<T>)
    requires |xs| == 137
    ensures var c := Chunks(xs, 50); |c| == 3 && |c[0]| == 50 && |c[1]| == 50 && |c[2]| == 37
  {
    ChunkCount(xs, 50);
    ChunkIsSlice(xs, 50, 2);
  }

  /** The batch endpoints' input check: a single ID becomes a one-element
      list, and a longer list than `limit` is refused, never truncated. */
  function CheckBatch<T>(arg: OneOrMany<T>, limit: nat, message: string): Result<seq<T>> {
    var ids := AsList(arg);
    if |ids| > limit then Err(ValueError(message)) else Ok(ids)
  }

  datatype ArtistRow = ArtistRow(
    name: string, id: ArtistId, genres: seq<string>, followers: int, popularity: int)

  datatype AlbumRow = AlbumRow(
    name: string, id: AlbumId, albumType: string, artists: seq<ArtistId>,
    genres: seq<string>, popularity: int, recordLabel: string, releaseDate: string)

  /** The track columns of a track frame; `explicitness` is 1 or 0. */
  datatype TrackInfo = TrackInfo(
    name: string, id: TrackId, artists: seq<ArtistId>, album: AlbumId,
    popularity: int, explicitness: int, duration: int)

  /** A track frame row: the track columns joined with the feature columns.
      `features == None` is the all-`None` placeholder row. */
  datatype TrackRow = TrackRow(info: TrackInfo, features: Option<Features>)

  /** The `[x['id'] for x in ...['artists']]` column. */
  function ArtistIds(refs: seq<ArtistRef>): seq<ArtistId> {
    Map((a: ArtistRef) => a.id, refs)
  }

  function ArtistRowOf(a: Artist): ArtistRow {
    ArtistRow(a.name, a.id, a.genres, a.followersTotal, a.popularity)
  }

  function AlbumRowOf(a: Album): AlbumRow {
    AlbumRow(a.name, a.id, a.albumType, ArtistIds(a.artists), a.genres, a.popularity,
             a.recordLabel, a.releaseDate)
  }

  function TrackInfoOf(t: Track): TrackInfo {
    TrackInfo(t.name, t.id, ArtistIds(t.artists), t.albumId, t.popularity,
              if t.explicit then 1 else 0, t.durationMs)
  }

  /** The row the joined frame holds for track `id`. */
  function TrackRowFor(cat: Catalog, id: TrackId): TrackRow {
    TrackRow(TrackInfoOf(cat.tracks(id)), cat.audioFeatures(id))
  }

  /** One joined row per requested ID, in request order. */
  function TrackRows(cat: Catalog, ids: seq<TrackId>): seq<TrackRow> {
    Map(id => TrackRowFor(cat, id), ids)
  }

  /** The `Track_Key.notna()` row filter. */
  predicate HasFeatures(row: TrackRow) {
    row.features.Some?
  }

  /** `artist_df`: one row per requested artist, in request order, or the
      batch-limit error. */
  method ArtistDf(cat: Catalog, arg: OneOrMany<ArtistId>) returns (r: Result<seq<ArtistRow>>)
    ensures r.Err? <==> |AsList(arg)| > ArtistBatchLimit
    ensures r.Err? ==> r.error == ValueError(TooManyArtists)
    ensures r.Ok? ==> |r.value| == |AsList(arg)|
    ensures r.Ok? ==> forall i | 0 <= i < |r.value| :: r.value[i] == ArtistRowOf(cat.artists(AsList(arg)[i]))
  {
    var checked := CheckBatch(arg, ArtistBatchLimit, TooManyArtists);
    if checked.Err? {
      return Err(checked.error);
    }
    var ids := checked.value;
    var arts := seq(|ids|, i requires 0 <= i < |ids| => cat.artists(ids[i]));
    var rows: seq<ArtistRow> := [];
    for k := 0 to |arts|
      invariant |rows| == k
      invariant forall i | 0 <= i < k :: rows[i] == ArtistRowOf(arts[i])
    {
      rows := rows + [ArtistRowOf(arts[k])];
    }
    r := Ok(rows);
  }

  /** `album_df`: one row per requested album, in request order, or the
      batch-limit error. */
  method AlbumDf(cat: Catalog, arg: OneOrMany<AlbumId>) returns (r: Result<seq<AlbumRow>>)
    ensures r.Err? <==> |AsList(arg)| > AlbumBatchLimit
    ensures r.Err? ==> r.error == ValueError(TooManyAlbums)
    ensures r.Ok? ==> |r.value| == |AsList(arg)|
    ensures r.Ok? ==> forall i | 0 <= i < |r.value| :: r.value[i] == AlbumRowOf(cat.albums(AsList(arg)[i]))
  {
    var checked := CheckBatch(arg, AlbumBatchLimit, TooManyAlbums);
    if checked.Err? {
      return Err(checked.error);
    }
    var ids := checked.value;
    var albs := seq(|ids|, i requires 0 <= i < |ids| => cat.albums(ids[i]));
    var rows: seq<AlbumRow> := [];
    for k := 0 to |albs|
      invariant |rows| == k
      invariant forall i | 0 <= i < k :: rows[i] == AlbumRowOf(albs[i])
    {
      rows := rows + [AlbumRowOf(albs[k])];
    }
    r := Ok(rows);
  }

  /** `track_df`: at most 50 IDs in one `tracks` and one `audio_features`
      call. There is no check for a missing feature entry: the first one
      makes the feature loop fail with a `TypeError`. */
  method TrackDf(cat: Catalog, arg: OneOrMany<TrackId>) returns (r: Result<seq<TrackRow>>)
    ensures |AsList(arg)| > TrackBatchLimit ==> r == Err(ValueError(TooManyTracks))
    ensures |AsList(arg)| <= TrackBatchLimit ==>
      (r.Ok? <==> forall i | 0 <= i < |AsList(arg)| :: cat.audioFeatures(AsList(arg)[i]).Some?)
    ensures |AsList(arg)| <= TrackBatchLimit && r.Err? ==> r.error == TypeError(NoneNotSubscriptable)
    ensures r.Ok? ==> r.value == TrackRows(cat, AsList(arg))
  {
    var checked := CheckBatch(arg, TrackBatchLimit, TooManyTracks);
    if checked.Err? {
      return Err(checked.error);
    }
    var ids := checked.value;
    assert ids == AsList(arg);
    var trks := seq(|ids|, i requires 0 <= i < |ids| => cat.tracks(ids[i]));
    var trksFeat := seq(|ids|, i requires 0 <= i < |ids| => cat.audioFeatures(ids[i]));
    var infos: seq<TrackInfo> := [];
    for k := 0 to |trks|
      invariant |infos| == k
      invariant forall i | 0 <= i < k :: infos[i] == TrackInfoOf(trks[i])
    {
      infos := infos + [TrackInfoOf(trks[k])];
    }
    var feats: seq<Features> := [];
    for k := 0 to |trksFeat|
      invariant |feats| == k
      invariant forall i | 0 <= i < k :: trksFeat[i] == Some(feats[i])
    {
      if trksFeat[k].None? {
        assert ids == AsList(arg) && cat.audioFeatures(AsList(arg)[k]).None?;
        return Err(TypeError(NoneNotSubscriptable));
      }
      feats := feats + [trksFeat[k].value];
    }
    forall i | 0 <= i < |ids| ensures cat.audioFeatures(ids[i]).Some? {
      assert trksFeat[i] == Some(feats[i]);
    }
    r := Ok(seq(|ids|, i requires 0 <= i < |ids| => TrackRow(infos[i], Some(feats[i]))));
  }

  /** `track_df_unlimited`: any number of IDs, sent as successive batches of
      50 (`batches` lists the ID list of each `tracks`/`audio_features` call
      pair). A missing feature entry becomes the placeholder row; placeholder
      rows are then dropped and the survivors renumbered from 0. An empty
      input gives a frame without columns, on which the `Track_Key` lookup
      raises `KeyError`. */
  method TrackDfUnlimited(cat: Catalog, arg: OneOrMany<TrackId>)
    returns (r: Result<seq<TrackRow>>, batches: seq<seq<TrackId>>)
    ensures batches == Chunks(AsList(arg), TrackBatchLimit)
    ensures r.Err? <==> AsList(arg) == []
    ensures r.Err? ==> r.error == KeyError(["Track_Key"])
    ensures r.Ok? ==> r.value == Filter(TrackRows(cat, AsList(arg)), HasFeatures)
  {
    var ids := AsList(arg);
    var chunked := Chunks(ids, TrackBatchLimit);
    ChunksConcat(ids, TrackBatchLimit);
    var infos, feats;
    infos, feats, batches := FetchBatches(cat, chunked);
    if infos == [] {
      return Err(KeyError(["Track_Key"])), batches;
    }
    var joined := seq(|infos|, i requires 0 <= i < |infos| => TrackRow(infos[i], feats[i]));
    assert joined == TrackRows(cat, ids);
    r := Ok(Filter(joined, HasFeatures));
  }

  /** The batch loop of `track_df_unlimited`: the track and feature entries
      of every batch, appended batch by batch. `sent` lists the ID list of
      each `tracks`/`audio_features` call pair, in call order. */
  method FetchBatches(cat: Catalog, chunked: seq<seq<TrackId>>)
    returns (infos: seq<TrackInfo>, feats: seq<Option<Features>>, sent: seq<seq<TrackId>>)
    ensures sent == chunked
    ensures |infos| == |Flatten(chunked)| && |feats| == |Flatten(chunked)|
    ensures forall i | 0 <= i < |Flatten(chunked)| ::
      infos[i] == TrackInfoOf(cat.tracks(Flatten(chunked)[i]))
      && feats[i] == cat.audioFeatures(Flatten(chunked)[i])
  {
    infos, feats, sent := [], [], [];
    ghost var done: seq<TrackId> := [];
    for c := 0 to |chunked|
      invariant sent == chunked[..c]
      invariant done == Flatten(chunked[..c])
      invariant |infos| == |done| && |feats| == |done|
      invariant forall i | 0 <= i < |done| ::
        infos[i] == TrackInfoOf(cat.tracks(done[i])) && feats[i] == cat.audioFeatures(done[i])
    {
      var chunk := chunked[c];
      var chunkInfos, chunkFeats := FetchBatch(cat, chunk);
      sent := sent + [chunk];
      forall i | 0 <= i < |done| + |chunk|
        ensures (infos + chunkInfos)[i] == TrackInfoOf(cat.tracks((done + chunk)[i]))
        ensures (feats + chunkFeats)[i] == cat.audioFeatures((done + chunk)[i])
      {
        if i >= |done| {
          assert (done + chunk)[i] == chunk[i - |done|];
        }
      }
      infos, feats := infos + chunkInfos, feats + chunkFeats;
      FlattenSnoc(chunked[..c], chunk);
      assert chunked[..c + 1] == chunked[..c] + [chunk];
      done := done + chunk;
    }
    assert chunked[..|chunked|] == chunked;
  }

  /** When every requested track has audio features, nothing is dropped:
      the unlimited frame has exactly the rows `track_df` builds for the
      same IDs. */
  lemma UnlimitedKeepsFeaturedRows(cat: Catalog, ids: seq<TrackId>)
    requires forall i | 0 <= i < |ids| :: cat.audioFeatures(ids[i]).Some?
    ensures Filter(TrackRows(cat, ids), HasFeatures) == TrackRows(cat, ids)
  {
    FilterKeepsAll(TrackRows(cat, ids), HasFeatures);
  }

  /** One `tracks` call and one `audio_features` call for a batch of IDs,
      with a missing feature entry kept as `None` (the placeholder row). */
  method FetchBatch(cat: Catalog, chunk: seq<TrackId>)
    returns (infos: seq<TrackInfo>, feats: seq<Option<Features>>)
    ensures |infos| == |chunk| && |feats| == |chunk|
    ensures forall i | 0 <= i < |chunk| ::
      infos[i] == TrackInfoOf(cat.tracks(chunk[i])) && feats[i] == cat.audioFeatures(chunk[i])
  {
    var trks := seq(|chunk|, i requires 0 <= i < |chunk| => cat.tracks(chunk[i]));
    var trksFeat := seq(|chunk|, i requires 0 <= i < |chunk| => cat.audioFeatures(chunk[i]));
    infos := [];
    for k := 0 to |trks|
      invariant |infos| == k
      invariant forall i | 0 <= i < k :: infos[i] == TrackInfoOf(trks[i])
    {
      infos := infos + [TrackInfoOf(trks[k])];
    }
    feats := trksFeat;
  }

  datatype PlaylistRow = PlaylistRow(trackId: TrackId, position: nat)

  /** `playlist_df`: every track of every page of the playlist, in order,
      with positions 1, 2, ..., n. */
  method PlaylistDf(cat: Catalog, playlist: PlaylistId) returns (rows: seq<PlaylistRow>)
    ensures |rows| == |AllItems(cat.playlistTracks(playlist))|
    ensures forall i | 0 <= i < |rows| ::
      rows[i].trackId == AllItems(cat.playlistTracks(playlist))[i] && rows[i].position == i + 1
  {
    var trackIds := FollowPages(cat.playlistTracks(playlist));
    rows := seq(|trackIds|, i requires 0 <= i < |trackIds| => PlaylistRow(trackIds[i], i + 1));
  }

  /** The album types queried, in order; 'appears_on' is left out. */
  const QueriedKinds: seq<AlbumKind> := [FullAlbum, Single, Compilation]

  /** All album IDs of the listings of the given kinds, kind by kind. */
  function AlbumsOfKinds(cat: Catalog, artist: ArtistId, kinds: seq<AlbumKind>): seq<AlbumId> {
    if kinds == [] then []
    else AlbumsOfKinds(cat, artist, kinds[..|kinds| - 1]) + AllItems(cat.artistAlbums(artist, kinds[|kinds| - 1]))
  }

  /** The album list of an artist: the album IDs of the queried listings. */
  function AlbumList(cat: Catalog, artist: ArtistId): seq<AlbumId> {
    AlbumsOfKinds(cat, artist, QueriedKinds)
  }

  /** `artist_albumlist`: every page of the 'album', 'single' and
      'compilation' listings, in that order. */
  method ArtistAlbumlist(cat: Catalog, artist: ArtistId) returns (results: seq<AlbumId>)
    ensures results == AlbumList(cat, artist)
    ensures results ==
      AllItems(cat.artistAlbums(artist, FullAlbum))
      + AllItems(cat.artistAlbums(artist, Single))
      + AllItems(cat.artistAlbums(artist, Compilation))
  {
    results := [];
    for k := 0 to |QueriedKinds|
      invariant results == AlbumsOfKinds(cat, artist, QueriedKinds[..k])
    {
      var page := FollowPages(cat.artistAlbums(artist, QueriedKinds[k]));
      assert QueriedKinds[..k + 1][..k] == QueriedKinds[..k];
      results := results + page;
    }
    assert QueriedKinds[..3] == QueriedKinds;
    var k2, k1 := QueriedKinds[..2], QueriedKinds[..1];
    assert QueriedKinds[..3][..2] == k2 && k2[..1] == k1 && k1[..0] == [];
    assert AlbumsOfKinds(cat, artist, k1) == AllItems(cat.artistAlbums(artist, FullAlbum));
    assert AlbumsOfKinds(cat, artist, k2) == AlbumsOfKinds(cat, artist, k1) + AllItems(cat.artistAlbums(artist, Single));
  }

  /** Two catalogs that agree on the listings of the given kinds give the
      same album IDs for those kinds. */
  lemma {:induction false} AlbumsOfKindsAgree(c1: Catalog, c2: Catalog, artist: ArtistId, kinds: seq<AlbumKind>)
    requires forall i | 0 <= i < |kinds| :: c1.artistAlbums(artist, kinds[i]) == c2.artistAlbums(artist, kinds[i])
    ensures AlbumsOfKinds(c1, artist, kinds) == AlbumsOfKinds(c2, artist, kinds)
  {
    if kinds != [] {
      AlbumsOfKindsAgree(c1, c2, artist, kinds[..|kinds| - 1]);
    }
  }

  /** The artist's album list ignores the 'appears_on' listing entirely. */
  lemma AlbumListIgnoresAppearsOn(c1: Catalog, c2: Catalog, artist: ArtistId)
    requires forall k :: k != AppearsOn ==> c1.artistAlbums(artist, k) == c2.artistAlbums(artist, k)
    ensures AlbumList(c1, artist) == AlbumList(c2, artist)
  {
    AlbumsOfKindsAgree(c1, c2, artist, QueriedKinds);
  }

  /** The `[x['id'] for x in ...['items']]` projection of a track listing. */
  function StubIds(stubs: seq<TrackStub>): seq<TrackId> {
    Map((t: TrackStub) => t.id, stubs)
  }

  /** `album_tracklist`: the IDs of every page of the album's track listing, in order. */
  method AlbumTracklist(cat: Catalog, album: AlbumId) returns (results: seq<TrackId>)
    ensures results == StubIds(AllItems(cat.albumTracks(album)))
  {
    var stubs := FollowPages(cat.albumTracks(album));
    results := StubIds(stubs);
  }

  /** The tracks of the given albums, album by album. */
  function TracksOf(cat: Catalog, albums: seq<AlbumId>): seq<TrackStub> {
    if albums == [] then []
    else TracksOf(cat, albums[..|albums| - 1]) + AllItems(cat.albumTracks(albums[|albums| - 1]))
  }

  /** A track is in the collected list exactly when it is on the track
      listing of one of the albums. */
  lemma {:induction false} TracksOfMembers(cat: Catalog, albums: seq<AlbumId>, s: TrackStub)
    ensures s in TracksOf(cat, albums) <==>
      exists k :: 0 <= k < |albums| && s in AllItems(cat.albumTracks(albums[k]))
  {
    if albums != [] {
      var init := albums[..|albums| - 1];
      TracksOfMembers(cat, init, s);
      if s in TracksOf(cat, albums) && s !in TracksOf(cat, init) {
        assert s in AllItems(cat.albumTracks(albums[|albums| - 1]));
      }
      if k :| 0 <= k < |albums| && s in AllItems(cat.albumTracks(albums[k])) {
        if k < |albums| - 1 {
          assert albums[k] == init[k];
        }
      }
    }
  }

  /** `artist_tracklist`: the artist's album list, then the (name, id) pairs
      of every album's track listing, album by album. */
  method ArtistTracklist(cat: Catalog, artist: ArtistId) returns (tracklist: seq<TrackStub>)
    ensures tracklist == TracksOf(cat, AlbumList(cat, artist))
  {
    var albumlist := ArtistAlbumlist(cat, artist);
    tracklist := [];
    for k := 0 to |albumlist|
      invariant tracklist == TracksOf(cat, albumlist[..k])
    {
      var stubs := FollowPages(cat.albumTracks(albumlist[k]));
      assert albumlist[..k + 1][..k] == albumlist[..k];
      tracklist := tracklist + stubs;
    }
    assert albumlist[..|albumlist|] == albumlist;
  }
}
