# insight: dataset assembly and preparation, modelled in Dafny

This project models the data pipeline of *insight*, which predicts whether a track will be popular from its audio features. The pipeline has two halves:

- **The catalog client** (`spotify_tools.py`):
  - splits ID lists into batches;
  - enforces the batch limits of the artist, album and track endpoints;
  - builds track frames with their audio features, including the unlimited variant that fetches in batches of 50 and drops tracks without features;
  - follows the `next` cursor of paginated listings (playlists, an artist's albums, an album's tracks);
  - `track_recs`: a breadth-first expansion of the related-artists graph, followed by recommendation requests for every (artist, target popularity) pair and de-duplication.
- **The modelling tools** (`model_tools.py`):
  - percentile labels of popularity (`pop_classes`);
  - the seed-artist dataset (`seed_data`);
  - schema-dependent column pruning (`drop_cols`);
  - the label, split and shuffle part of `split_df`;
  - the three estimator grids (`RFC_list`, `LR_list`, `SVC_list`);
  - the column partition of the `run_cv` preprocessing step.

How the model is set up:

- **The catalog.** The remote catalog is a value (`Catalog.Catalog`): every endpoint is a total function. A paginated listing is a chain of pages (`Listing`) whose `More` case is a page with a non-null `next` cursor.
- **Frames.** A data frame is a sequence of row records, or a sequence of column names where only the layout matters.
- **Errors.** The exceptions the code raises are `Err` results: `ValueError`, `TypeError` and `KeyError`.
- **Scalar or list.** An argument that may be a single value or a list is `OneOrMany`.
- **Sets turned into lists.** Python's `list(set(...))` becomes `SetToSeq`. It lists every element once, in an order the model leaves open.
- **Randomness.** The random draws of `np.random.shuffle` are a parameter `rand`.
- **Percentiles.** `np.percentile` is an abstract function parameter.

Files:

- `common.dfy`: the result, option and error types, plus list helpers (`Filter`, `Flatten`, `Cross` for nested loops, `SetToSeq`).
- `catalog.dfy`: the catalog and `FollowPages`, the cursor loop.
- `spotify_tools.dfy`: the client functions.
- `recommendations.dfy`: `track_recs`, together with the specification of the network as the set of artists within `d` related-artist steps (`Ball`, proved equal to reachability by walks).
- `model_tools.dfy`: the modelling tools.

## Model

| member | source | states |
|---|---|---|
| Common.SetToSeq | spotify_tools.py:338-340 | `list(set(...))` lists every element of the set exactly once |
| Common.CrossNoDups | model_tools.py:151-156 | a nested loop over two duplicate-free lists visits each pair exactly once |
| Common.CrossMembers | model_tools.py:151-156 | the nested loop visits exactly the pairs whose parts come from the two lists |
| Common.CrossAt | model_tools.py:151-156 | turn `i * len(ys) + j` of the nested loop pairs `xs[i]` with `ys[j]`, so the first list is the outer loop |
| Catalog.FollowPages | spotify_tools.py:36-43 | following `next` until it is null collects the items of every page, in page order |
| Catalog.AllItemsSplit | spotify_tools.py:40-43 | a listing's items are its first page followed by what its `next` cursor leads to |
| SpotifyTools.Chunks | spotify_tools.py:21-23 | every chunk is non-empty and at most `n` long, and all chunks but the last are exactly `n` long |
| SpotifyTools.ChunksConcat | spotify_tools.py:21-23 | concatenating the chunks gives back the input list |
| SpotifyTools.ChunkCount | spotify_tools.py:21-23 | there are ceil(len/n) chunks: `(k-1)*n < len <= k*n` |
| SpotifyTools.ChunkIsSlice | spotify_tools.py:22-23 | chunk `i` is the slice `xs[i*n : i*n+n]` |
| SpotifyTools.ChunkAt | spotify_tools.py:22-23 | chunk `i` starts at the `i`-th multiple of `n` and ends `n` later or at the end of the list |
| SpotifyTools.ChunksOf137 | spotify_tools.py:173-177 | 137 IDs go out in three batches of 50, 50 and 37 |
| SpotifyTools.ArtistDf | spotify_tools.py:53-77 | a single ID is wrapped; more than 50 IDs raise ValueError with the source's message, otherwise one row per ID, in order |
| SpotifyTools.AlbumDf | spotify_tools.py:82-109 | the same with a limit of 20 albums |
| SpotifyTools.TrackDf | spotify_tools.py:114-158 | more than 50 IDs raise ValueError. Otherwise the call fails with TypeError exactly when some track has no audio features (the loop subscripts `None`), and on success the frame is the joined row of each ID, in order |
| SpotifyTools.TrackDfUnlimited | spotify_tools.py:163-224 | the batches sent are the 50-chunks of the input. An empty input raises KeyError on `Track_Key`. Otherwise the frame is the in-order joined rows of all IDs, with the placeholder rows (no features) removed and the survivors renumbered from 0 |
| SpotifyTools.FetchBatches | spotify_tools.py:174-218 | it sends exactly the given batches, in order, and collects, in input order, the track entry and the feature entry (or the placeholder) of every ID of every batch |
| SpotifyTools.FetchBatch | spotify_tools.py:176-218 | one batch yields each of its IDs' track entry and feature entry, or the placeholder where features are missing, in order |
| SpotifyTools.UnlimitedKeepsFeaturedRows | spotify_tools.py:222-223 | when every track has features nothing is dropped, and the unlimited frame equals `track_df`'s rows |
| SpotifyTools.PlaylistDf | spotify_tools.py:28-48 | one row per item of every page, in order, with positions 1..n |
| SpotifyTools.ArtistAlbumlist | spotify_tools.py:229-244 | every page of the 'album', then 'single', then 'compilation' listing, in that order |
| SpotifyTools.AlbumsOfKindsAgree | spotify_tools.py:234-239 | catalogs that agree on the listings of the queried kinds give the same album IDs for them |
| SpotifyTools.AlbumListIgnoresAppearsOn | spotify_tools.py:234 | the album list does not depend on the 'appears_on' listing |
| SpotifyTools.AlbumTracklist | spotify_tools.py:249-259 | the IDs of every page of the album's track listing, in order |
| SpotifyTools.ArtistTracklist | spotify_tools.py:264-294 | the (name, id) pairs of every album of the album list, album by album, each album's pages in order |
| SpotifyTools.TracksOfMembers | spotify_tools.py:284-293 | a pair is collected exactly when it is on the track listing of one of the albums |
| Recommendations.Ball | spotify_tools.py:332-339 | the network of radius `d` contains the seeds |
| Recommendations.BallIsReachable | spotify_tools.py:329-340 | an artist is in the network of radius `d` exactly when some walk of at most `d` related-artist steps leads to it from a seed |
| Recommendations.BallReachable | spotify_tools.py:329-340 | every artist of the network is reached by a walk of at most `d` steps from a seed |
| Recommendations.ReachableInBall | spotify_tools.py:329-340 | the end of every walk of at most `d` steps from a seed is in the network |
| Recommendations.BallGrows | spotify_tools.py:332-339 | more degrees never lose an artist |
| Recommendations.NeighboursUnion | spotify_tools.py:333-337 | the related artists of a union are those of either part |
| Recommendations.NeighboursAdd | spotify_tools.py:333-337 | checking one more artist adds exactly its related artists |
| Recommendations.CheckRound | spotify_tools.py:333-337 | the inner loop appends the frontier to `checked` and adds exactly the frontier's related artists to the found ones |
| Recommendations.RoundGrowsBall | spotify_tools.py:333-338 | one round, seen on sets, moves the state from radius `k` to radius `k+1`: checked plus frontier is the next network, the new frontier is disjoint from the checked artists, and the found artists are those related to a checked one |
| Recommendations.ExpandRound | spotify_tools.py:333-338 | one round: the frontier is checked, the new frontier is the found artists minus the checked ones, without duplicates, and `checked` stays duplicate-free when the frontier was new |
| Recommendations.ExpandNetwork | spotify_tools.py:329-339 | after the loop, checked and frontier together are the network of radius `degrees` and the checked artists that of radius `degrees-1`. With `degrees <= 0` nothing is checked; with distinct seeds no artist is checked twice |
| Recommendations.ExpandArtists | spotify_tools.py:329-340 | the artist list is the duplicate-free network of radius `degrees` around the seeds (exactly the seeds when `degrees <= 0`). The checked artists are the network of radius `degrees-1`, none when `degrees <= 0`, and none repeated when the seeds are distinct |
| Recommendations.RecsOfMembers | spotify_tools.py:343-347 | a track is among the collected answers exactly when some request returned it |
| Recommendations.RecsOfCross | spotify_tools.py:344-347 | asking every artist at every target finds exactly the tracks recommended for some artist at some target |
| Recommendations.RecommendTracks | spotify_tools.py:343-351 | one request per (artist, target) pair, artists in the outer loop; the result holds exactly the recommended tracks, each once |
| Recommendations.TrackRecs | spotify_tools.py:320-351 | the result holds exactly the tracks recommended for an artist within `degrees` steps of the seeds at one of the targets, each once |
| ModelTools.Label | model_tools.py:37-40 | a label is between 0 and the number of cutoffs |
| ModelTools.PopClasses | model_tools.py:22-41 | a scalar cutoff is wrapped; a cutoff outside [0, 100] raises numpy's ValueError, otherwise one label per value, and each label counts the thresholds the value meets or exceeds |
| ModelTools.LabelMonotone | model_tools.py:38-40 | labels are monotone in the value (equal values get equal labels) |
| ModelTools.LabelMeetsFirst | model_tools.py:37-40 | with ascending thresholds, label `k` means the value meets exactly the first `k` thresholds |
| ModelTools.ThresholdsAscending | model_tools.py:38-39 | ascending cutoffs give ascending thresholds when the percentile is monotone |
| ModelTools.DefaultLabelsBinary | model_tools.py:22 | the default cutoff `[75]` gives label 1 exactly at or above the 75th percentile and 0 below it |
| ModelTools.SeedData | model_tools.py:45-68 | The tuple is (artist, net, seed list, recs, recs_filt, df). `net` is the duplicate-free network of radius `degrees`, and `recs` the duplicate-free recommendations for it. `recs_filt` is set(recs) minus the seed tracks. `df` is None exactly when `recs_filt` is empty, otherwise the frame of `recs_filt`. The call fails with ValueError above 50 candidates and with TypeError on a candidate without features |
| ModelTools.CollectCandidates | model_tools.py:51-60 | the network, the seed artist's track IDs (the ID half of the pairs), the recommendations and the candidates: the recommendations whose IDs are not in the seed list |
| ModelTools.CandidatesExcludeSeed | model_tools.py:58-60 | no candidate ID is in the seed list (the IDs from the artist's album, single and compilation listings) |
| ModelTools.DropColumns | model_tools.py:107-109 | dropping labels keeps the other columns in order, each with all its copies. A label that is not a column raises KeyError. When the column names are distinct it names exactly the missing labels, all of them; when a column name repeats it names every label asked for, as pandas' branch for a non-unique column index does |
| ModelTools.DropCols | model_tools.py:103-110 | with `Track_Album` present exactly the four current ID columns go, otherwise the five older-layout ones; the rest keep their order and their number of copies, and a missing ID column is an error |
| ModelTools.TestCount | model_tools.py:125 | the test part holds ceil(0.15 n) rows, never more than n |
| ModelTools.Shuffle | model_tools.py:130-131 | shuffling in place rearranges the array: the same multiset of entries |
| ModelTools.RowsInRange | model_tools.py:125 | a rearrangement of the row indices holds only valid indices |
| ModelTools.TrainTestRows | model_tools.py:125 | the train and test rows together are a rearrangement of all rows, and the test part has the ceil(0.15 n) size |
| ModelTools.ShuffledCopy | model_tools.py:128-131 | the shuffled baseline is a permutation of the labels it copies |
| ModelTools.SplitDf | model_tools.py:114-133 | The features are the `drop_cols` columns minus `Track_Popularity`, in order and with their copies, and errors from `drop_cols` or a missing popularity column propagate. The rows split into train and test parts with a test part of ceil(0.15 n). Each label is the default-cutoff class of its row's popularity, and each shuffled vector is a permutation of its labels |
| ModelTools.ForestRow | model_tools.py:152-156 | the inner loop of `RFC_list` builds one forest per depth, in order |
| ModelTools.RfcList | model_tools.py:137-157 | scalars are wrapped; one forest per (n_estimators, max_depth) pair, n_estimators outer, for `len(n) * len(depth)` models |
| ModelTools.RfcGridAt | model_tools.py:151-156 | model `i * len(depth) + j` has the `i`-th n_estimators and the `j`-th depth |
| ModelTools.LogisticRow | model_tools.py:176-181 | the inner loop of `LR_list` builds one regression per C, in order |
| ModelTools.LrList | model_tools.py:161-182 | scalars are wrapped; one regression per (penalty, C) pair, penalty outer, for `len(penalty) * len(C)` models |
| ModelTools.SvcList | model_tools.py:186-202 | a scalar is wrapped; one linear SVC per C value, in order |
| ModelTools.SelectionError | model_tools.py:213-214 | a transformer's lookup of its column names, in order, succeeds exactly when each name labels one column; otherwise the first name that does not decides between the missing-column and the not-unique message |
| ModelTools.RunCvColumns | model_tools.py:206-215 | the scaled columns come first, the dropped columns are gone, and every other column passes through in its original order, with all its copies. It succeeds exactly when each scaled and dropped name labels exactly one column. A missing name gives the missing-column `ValueError`, a repeated one the not-unique `ValueError` quoting its transformer's list, and the scaler's names are looked up first |

## Left out

- The Spotipy client, the credentials and the environment setup are not modelled. The catalog is a value, not a network connection.
- pandas internals (`join`, `df_listcell`, dtypes) are not modelled. A frame is a sequence of row records or of column names.
- `np.percentile` interpolation is floating-point: thresholds are an abstract function of the population and the cutoff.
- ModelTools.PopClasses: an empty population, on which `np.percentile` fails, is not modelled; the abstract percentile gives it thresholds all the same. (A cutoff outside [0, 100] is modelled as numpy's `ValueError`.)
- SpotifyTools.Chunks: requires `n > 0`. With `n == 0` Python's `range` raises ValueError; every caller passes 50.
- SpotifyTools.TrackDf: a track entry that is itself `None` (an unknown ID) is not modelled. Every ID yields a track record.
- SpotifyTools.TrackDfUnlimited: the same holds here. A `None` track entry, which makes the track loop raise `TypeError`, is not modelled.
- Recommendations.ExpandArtists: `related_artists_network`, which `seed_data` calls, is not part of this model. The network is built with the first half of `track_recs` from the one seed.
- ModelTools.CollectCandidates: `recommended_tracks`, which `seed_data` calls, is not part of this model. The recommendations are the second half of `track_recs` at the default targets 5, 20, ..., 95.
- ModelTools.SeedData: the `ValueError` of the 50-limited `track_df` is modelled as the code is written; candidate lists over 50 tracks fail.
- ModelTools.TrainTestRows: `train_test_split` stratification is not modelled, and neither is the error sklearn raises for very small inputs. The split is a random rearrangement of the rows with the first ceil(0.15 n) as test part, in exact arithmetic.
- ModelTools.Shuffle: the distribution of the random draws is not modelled. Only the swap sequence and the permutation property are.
- ModelTools.SplitDf: the contents of the `X` rows (the cells of each feature column) are not modelled. Only the columns and the row indices are.
- ModelTools.RunCvColumns: the column lookup follows scikit-learn's `_get_column_indices` (a `ValueError` for a missing or repeated name); checks the transformer makes elsewhere, such as on the types of the column names, are not modelled. Scaling, model fitting, `cross_validate` and recall scoring are numeric library code and are left out.
- The order of `list(set(...))` (CPython's hash order) is left open everywhere it occurs.
- `save_random_artist_data`, `related_artists`, `search_spotify`, the results script, the plotting tools and the web app are file I/O, network calls, plotting or UI, and are not modelled.
