/** The dataset preparation for the popularity classifiers: percentile
    labels, the seed-artist dataset, column pruning, the train/test split
    with its shuffled baseline, the model grids and the column partition of
    the cross-validation pipeline. */
module ModelTools {
  import opened Common
  import opened Catalog
  import opened SpotifyTools
  import opened Recommendations

  // ---------------------------------------------------------------------
  // pop_classes
  // ---------------------------------------------------------------------

  /** `np.percentile(p, pct)`: the threshold value of a population at a
      percentile. Its interpolation is left abstract. */
  type Percentile = (seq<int>, real) -> real

  /** The default cutoff list `[75]`. */
  const DefaultCutoffs: seq<real> := [75.0]

  /** The threshold of each cutoff over the population `vals`. */
  function Thresholds(percentile: Percentile, vals: seq<int>, cutoffs: seq<real>): seq<real> {
    Map(c => percentile(vals, c), cutoffs)
  }

  /** The class of value `v`: how many of the thresholds it meets or exceeds. */
  function Label(v: int, ts: seq<real>): (k: nat)
    ensures k <= |ts|
  {
    if ts == [] then 0
    else Label(v, ts[..|ts| - 1]) + (if v as real >= ts[|ts| - 1] then 1 else 0)
  }

  /** What `np.percentile` raises for a percentile outside [0, 100]. */
  const PercentileOutOfRange := "Percentiles must be in the range [0, 100]"

  predicate ValidCutoff(pct: real) {
    0.0 <= pct <= 100.0
  }

  /** `pop_classes`: one 0/1 indicator vector per cutoff, summed element-wise;
      a cutoff outside [0, 100] makes `np.percentile` raise `ValueError`. */
  method PopClasses(percentile: Percentile, popVals: seq<int>, cutoffs: OneOrMany<real>)
    returns (r: Result<seq<int>>)
    ensures r.Err? <==> exists j | 0 <= j < |AsList(cutoffs)| :: !ValidCutoff(AsList(cutoffs)[j])
    ensures r.Err? ==> r.error == ValueError(PercentileOutOfRange)
    ensures r.Ok? ==> |r.value| == |popVals|
    ensures r.Ok? ==> forall i | 0 <= i < |popVals| ::
      r.value[i] == Label(popVals[i], Thresholds(percentile, popVals, AsList(cutoffs)))
  {
    var cuts := AsList(cutoffs);
    var p := popVals;
    ghost var ts := Thresholds(percentile, p, cuts);
    var classes := seq(|p|, i => 0);
    for j := 0 to |cuts|
      invariant forall k | 0 <= k < j :: ValidCutoff(cuts[k])
      invariant |classes| == |p|
      invariant forall i | 0 <= i < |p| :: classes[i] == Label(p[i], ts[..j])
    {
      if !ValidCutoff(cuts[j]) {
        return Err(ValueError(PercentileOutOfRange));
      }
      var threshold := percentile(p, cuts[j]);
      var c := seq(|p|, i requires 0 <= i < |p| => if p[i] as real >= threshold then 1 else 0);
      classes := seq(|p|, i requires 0 <= i < |p| => classes[i] + c[i]);
      assert ts[..j + 1][..j] == ts[..j];
    }
    assert ts[..|cuts|] == ts;
    r := Ok(classes);
  }

  /** Labels are monotone in the value: a larger value meets at least as
      many thresholds. */
  lemma {:induction false} LabelMonotone(v: int, w: int, ts: seq<real>)
    requires v <= w
    ensures Label(v, ts) <= Label(w, ts)
  {
    if ts != [] {
      LabelMonotone(v, w, ts[..|ts| - 1]);
    }
  }

  predicate Ascending(ts: seq<real>) {
    forall i, j | 0 <= i < j < |ts| :: ts[i] <= ts[j]
  }

  /** With ascending thresholds, class `k` means the value meets exactly the
      first `k` thresholds. */
  lemma {:induction false} LabelMeetsFirst(v: int, ts: seq<real>)
    requires Ascending(ts)
    ensures forall j | 0 <= j < |ts| :: j < Label(v, ts) <==> v as real >= ts[j]
  {
    if ts != [] {
      var init, last := ts[..|ts| - 1], ts[|ts| - 1];
      assert Ascending(init) by {
        forall i, j | 0 <= i < j < |init| ensures init[i] <= init[j] {
          assert init[i] == ts[i] && init[j] == ts[j];
        }
      }
      LabelMeetsFirst(v, init);
      forall j | 0 <= j < |init| ensures init[j] == ts[j] {
      }
      if v as real >= last {
        forall j | 0 <= j < |init| ensures v as real >= init[j] {
          assert ts[j] <= last;
        }
        assert Label(v, init) == |init| by {
          if |init| > 0 {
            assert |init| - 1 < Label(v, init);
          }
        }
      }
    }
  }

  /** Ascending cutoffs give ascending thresholds when the percentile is
      monotone in its level. */
  lemma ThresholdsAscending(percentile: Percentile, vals: seq<int>, cutoffs: seq<real>)
    requires forall a: real, b: real | a <= b :: percentile(vals, a) <= percentile(vals, b)
    requires Ascending(cutoffs)
    ensures Ascending(Thresholds(percentile, vals, cutoffs))
  {
    var ts := Thresholds(percentile, vals, cutoffs);
    forall i, j | 0 <= i < j < |ts| ensures ts[i] <= ts[j] {
      assert cutoffs[i] <= cutoffs[j];
    }
  }

  /** The default single cutoff gives binary labels: 1 exactly for the
      values at or above the 75th percentile. */
  lemma DefaultLabelsBinary(percentile: Percentile, vals: seq<int>, v: int)
    ensures Label(v, Thresholds(percentile, vals, DefaultCutoffs)) == 1 <==> v as real >= percentile(vals, 75.0)
    ensures Label(v, Thresholds(percentile, vals, DefaultCutoffs)) == 0 <==> v as real < percentile(vals, 75.0)
  {
    var ts := Thresholds(percentile, vals, DefaultCutoffs);
    assert ts[..0] == [];
    assert ts[0] == percentile(vals, 75.0);
  }

  // ---------------------------------------------------------------------
  // seed_data
  // ---------------------------------------------------------------------

  /** The IDs of the tracks on the seed artist's album, single and
      compilation listings ('appears_on' releases are not among them). */
  function SeedIds(cat: Catalog, artist: ArtistId): seq<TrackId> {
    StubIds(TracksOf(cat, AlbumList(cat, artist)))
  }

  /** The recommended tracks of the network around `artist` whose IDs are
      not in the artist's seed list (its album, single and compilation
      tracks). */
  function Candidates(cat: Catalog, artist: ArtistId, degrees: int): set<TrackId> {
    RecPool(cat, Ball(cat.relatedArtists, {artist}, Hops(degrees)), DefaultPopTargets)
      - Elems(SeedIds(cat, artist))
  }

  /** The tuple `seed_data` returns: (artist_id, net, seed_list, recs,
      recs_filt, df), with `df` absent when there is no candidate. */
  datatype SeedDataset = SeedDataset(
    artistId: ArtistId, net: seq<ArtistId>, seedList: seq<TrackId>,
    recs: seq<TrackId>, recsFilt: seq<TrackId>, df: Option<seq<TrackRow>>)

  /** `seed_data`: the network, the seed artist's track IDs, the
      recommendations for the network and those whose IDs are not in the
      seed list, and their frame from the 50-limited `track_df`. */
  method SeedData(cat: Catalog, artistId: ArtistId, degrees: int) returns (r: Result<SeedDataset>)
    ensures r.Ok? <==>
      |Candidates(cat, artistId, degrees)| <= TrackBatchLimit
      && forall t | t in Candidates(cat, artistId, degrees) :: cat.audioFeatures(t).Some?
    ensures r.Err? ==>
      r.error == (if |Candidates(cat, artistId, degrees)| > TrackBatchLimit then ValueError(TooManyTracks)
                  else TypeError(NoneNotSubscriptable))
    ensures r.Ok? ==> r.value.artistId == artistId
    ensures r.Ok? ==> r.value.seedList == SeedIds(cat, artistId)
    ensures r.Ok? ==>
      Elems(r.value.net) == Ball(cat.relatedArtists, {artistId}, Hops(degrees)) && NoDups(r.value.net)
    ensures r.Ok? ==>
      Elems(r.value.recs) == RecPool(cat, Elems(r.value.net), DefaultPopTargets) && NoDups(r.value.recs)
    ensures r.Ok? ==>
      Elems(r.value.recsFilt) == Elems(r.value.recs) - Elems(r.value.seedList)
      && Elems(r.value.recsFilt) == Candidates(cat, artistId, degrees)
      && NoDups(r.value.recsFilt)
    ensures r.Ok? ==> (r.value.df.None? <==> r.value.recsFilt == [])
    ensures r.Ok? && r.value.df.Some? ==> r.value.df.value == TrackRows(cat, r.value.recsFilt)
  {
    var net, seedList, recs, recsFilt := CollectCandidates(cat, artistId, degrees);
    if recsFilt == [] {
      return Ok(SeedDataset(artistId, net, seedList, recs, recsFilt, None));
    }
    ghost var cands := Candidates(cat, artistId, degrees);
    NoDupsCard(recsFilt);
    var df := TrackDf(cat, Many(recsFilt));
    assert (forall i | 0 <= i < |recsFilt| :: cat.audioFeatures(recsFilt[i]).Some?)
      <==> (forall t | t in cands :: cat.audioFeatures(t).Some?) by {
      assert forall t :: t in cands <==> t in recsFilt;
    }
    if df.Err? {
      return Err(df.error);
    }
    r := Ok(SeedDataset(artistId, net, seedList, recs, recsFilt, Some(df.value)));
  }

  /** The list part of `seed_data`: the network, the seed artist's track
      IDs, the recommendations and the candidates, each as the source
      builds it. */
  method CollectCandidates(cat: Catalog, artistId: ArtistId, degrees: int)
    returns (net: seq<ArtistId>, seedList: seq<TrackId>, recs: seq<TrackId>, recsFilt: seq<TrackId>)
    ensures Elems(net) == Ball(cat.relatedArtists, {artistId}, Hops(degrees)) && NoDups(net)
    ensures seedList == SeedIds(cat, artistId)
    ensures Elems(recs) == RecPool(cat, Elems(net), DefaultPopTargets) && NoDups(recs)
    ensures Elems(recsFilt) == Elems(recs) - Elems(seedList)
    ensures Elems(recsFilt) == Candidates(cat, artistId, degrees) && NoDups(recsFilt)
  {
    var checked;
    net, checked := ExpandArtists(cat, One(artistId), degrees);
    assert Elems([artistId]) == {artistId};
    var stubs := ArtistTracklist(cat, artistId);
    seedList := StubIds(stubs);
    var requests;
    recs, requests := RecommendTracks(cat, net, DefaultPopTargets);
    assert Elems(recs) == RecPool(cat, Elems(net), DefaultPopTargets) by {
      forall t | t in RecPool(cat, Elems(net), DefaultPopTargets) ensures t in Elems(recs) {
        assert Recommended(cat, Elems(net), DefaultPopTargets, t);
      }
    }
    recsFilt := SetToSeq(Elems(recs) - Elems(seedList));
  }

  /** No candidate ID is in the seed list. */
  lemma CandidatesExcludeSeed(cat: Catalog, artist: ArtistId, degrees: int)
    ensures Candidates(cat, artist, degrees) !! Elems(SeedIds(cat, artist))
  {
  }

  // ---------------------------------------------------------------------
  // drop_cols
  // ---------------------------------------------------------------------

  /** The identifying columns of the current frame layout. */
  const CurrentIdColumns: seq<string> := ["Track_Name", "Track_ID", "Track_Artists", "Track_Album"]

  /** The identifying columns of the older layout, which held the album's
      name and ID instead of `Track_Album`. */
  const OlderIdColumns: seq<string> :=
    ["Track_Name", "Track_ID", "Track_Artists", "Track_Album_Name", "Track_Album_ID"]

  /** `DataFrame.drop(labels, axis=1)`: every column not among `labels`, in
      order. A label that is not a column raises `KeyError`. On a frame whose
      column names are distinct it names the missing labels; on one with a
      repeated name pandas takes another branch, which names every label
      asked for. */
  function DropColumns(columns: seq<string>, labels: seq<string>): (r: Result<seq<string>>)
    ensures r.Err? <==> exists i | 0 <= i < |labels| :: labels[i] !in columns
    ensures r.Err? ==>
      r.error.KeyError? && r.error.keys != []
      && forall i | 0 <= i < |r.error.keys| :: r.error.keys[i] in labels
    ensures r.Err? && NoDups(columns) ==>
      forall i | 0 <= i < |r.error.keys| :: r.error.keys[i] !in columns
    ensures r.Err? && !NoDups(columns) ==> r.error.keys == labels
    ensures r.Err? ==> forall i | 0 <= i < |labels| && labels[i] !in columns :: labels[i] in r.error.keys
    ensures r.Ok? ==> forall i | 0 <= i < |r.value| :: r.value[i] in columns && r.value[i] !in labels
    ensures r.Ok? ==> forall i | 0 <= i < |columns| && columns[i] !in labels :: columns[i] in r.value
    ensures r.Ok? ==> forall c | c !in labels :: multiset(r.value)[c] == multiset(columns)[c]
    ensures r.Ok? ==> IsSubseq(r.value, columns)
  {
    var missing := Filter(labels, l => l !in columns);
    if missing != [] then
      Err(KeyError(if NoDups(columns) then missing else labels))
    else
      assert forall i | 0 <= i < |labels| :: labels[i] in columns;
      var kept := c => c !in labels;
      assert forall c | c !in labels :: multiset(Filter(columns, kept))[c] == multiset(columns)[c] by {
        forall c | c !in labels ensures multiset(Filter(columns, kept))[c] == multiset(columns)[c] {
          FilterCount(columns, kept, c);
        }
      }
      Ok(Filter(columns, kept))
  }

  /** `drop_cols`: the layout decides which identifying columns go. */
  function DropCols(columns: seq<string>): (r: Result<seq<string>>)
    ensures "Track_Album" in columns ==>
      (r.Ok? <==> forall i | 0 <= i < |CurrentIdColumns| :: CurrentIdColumns[i] in columns)
    ensures "Track_Album" in columns && r.Ok? ==>
      forall c :: c in r.value <==> c in columns && c !in CurrentIdColumns
    ensures "Track_Album" in columns && r.Ok? ==>
      forall c | c !in CurrentIdColumns :: multiset(r.value)[c] == multiset(columns)[c]
    ensures "Track_Album" !in columns ==>
      (r.Ok? <==> forall i | 0 <= i < |OlderIdColumns| :: OlderIdColumns[i] in columns)
    ensures "Track_Album" !in columns && r.Ok? ==>
      forall c :: c in r.value <==> c in columns && c !in OlderIdColumns
    ensures "Track_Album" !in columns && r.Ok? ==>
      forall c | c !in OlderIdColumns :: multiset(r.value)[c] == multiset(columns)[c]
    ensures r.Ok? ==> IsSubseq(r.value, columns)
  {
    if "Track_Album" in columns then DropColumns(columns, CurrentIdColumns)
    else DropColumns(columns, OlderIdColumns)
  }

  // ---------------------------------------------------------------------
  // split_df
  // ---------------------------------------------------------------------

  /** The columns of a frame and the values of its `Track_Popularity`
      column, one per row; the other cells are not modelled. */
  datatype Frame = Frame(columns: seq<string>, popularity: seq<int>)

  /** What `split_df` returns: the feature columns of `X`, the rows of the
      training and test parts, their labels, and the shuffled labels. */
  datatype Split = Split(
    features: seq<string>, trainRows: seq<nat>, testRows: seq<nat>,
    yTrain: seq<int>, yTest: seq<int>, yTrainShuffled: seq<int>, yTestShuffled: seq<int>)

  /** The row indices `0, 1, ..., n - 1`. */
  function Range(n: nat): (r: seq<nat>)
    ensures |r| == n && forall i | 0 <= i < n :: r[i] == i
  {
    seq(n, i requires 0 <= i < n => i)
  }

  /** The size of the test part for `test_size=0.15`: the ceiling of
      `0.15 * n`, in exact arithmetic. */
  function TestCount(n: nat): (k: nat)
    ensures k <= n
    ensures 100 * k >= 15 * n && 100 * (k - 1) < 15 * n
  {
    (15 * n + 99) / 100
  }

  /** `np.random.shuffle`, in place: from the last index down to 1, entry `i`
      is swapped with entry `rand(i) % (i + 1)`; `rand` stands for the
      generator's draws. */
  method Shuffle<T>(a: array<T>, rand: nat -> nat)
    modifies a
    ensures multiset(a[..]) == multiset(old(a[..]))
  {
    var i := a.Length;
    while i > 1
      invariant 0 <= i <= a.Length
      invariant multiset(a[..]) == multiset(old(a[..]))
    {
      i := i - 1;
      var j := rand(i) % (i + 1);
      a[i], a[j] := a[j], a[i];
    }
  }

  /** A rearrangement of `0, ..., n - 1` holds only valid row indices. */
  lemma RowsInRange(rows: seq<nat>, n: nat)
    requires multiset(rows) <= multiset(Range(n))
    ensures forall k | 0 <= k < |rows| :: rows[k] < n
  {
    forall k | 0 <= k < |rows| ensures rows[k] < n {
      assert rows[k] in multiset(rows);
      assert rows[k] in Range(n);
    }
  }

  /** The row split of `train_test_split`: the rows in a random order, the
      first `TestCount(n)` of them for testing and the rest for training. */
  method TrainTestRows(n: nat, rand: nat -> nat) returns (trainRows: seq<nat>, testRows: seq<nat>)
    ensures multiset(trainRows + testRows) == multiset(Range(n))
    ensures |testRows| == TestCount(n)
    ensures forall k | 0 <= k < |trainRows| :: trainRows[k] < n
    ensures forall k | 0 <= k < |testRows| :: testRows[k] < n
  {
    var order := new nat[n](i requires 0 <= i < n => i);
    assert order[..] == Range(n);
    Shuffle(order, rand);
    var nTest := TestCount(n);
    testRows, trainRows := order[..nTest], order[nTest..];
    assert order[..] == testRows + trainRows;
    RowsInRange(trainRows, n);
    RowsInRange(testRows, n);
  }

  /** `np.array(ys)` followed by `np.random.shuffle`: a rearrangement of `ys`. */
  method ShuffledCopy(ys: seq<int>, rand: nat -> nat) returns (zs: seq<int>)
    ensures multiset(zs) == multiset(ys)
  {
    var a := new int[|ys|](i requires 0 <= i < |ys| => ys[i]);
    assert a[..] == ys;
    Shuffle(a, rand);
    zs := a[..];
  }

  /** `split_df`: the feature columns are the pruned columns without
      `Track_Popularity`, the labels are the default percentile classes of
      popularity, the rows are split into a training and a test part, and
      each part's labels are shuffled for the baseline. `randSplit`,
      `randTrain` and `randTest` stand for the random draws. */
  method SplitDf(percentile: Percentile, frame: Frame, randSplit: nat -> nat, randTrain: nat -> nat,
                 randTest: nat -> nat)
    returns (r: Result<Split>)
    ensures r.Err? <==> DropCols(frame.columns).Err? || "Track_Popularity" !in DropCols(frame.columns).value
    ensures r.Err? ==>
      r.error == (if DropCols(frame.columns).Err? then DropCols(frame.columns).error
                  else KeyError(["Track_Popularity"]))
    ensures r.Ok? ==>
      forall c :: c in r.value.features <==> c in DropCols(frame.columns).value && c != "Track_Popularity"
    ensures r.Ok? ==> IsSubseq(r.value.features, DropCols(frame.columns).value)
    ensures r.Ok? ==> forall c | c != "Track_Popularity" ::
      multiset(r.value.features)[c] == multiset(DropCols(frame.columns).value)[c]
    ensures r.Ok? ==>
      multiset(r.value.trainRows + r.value.testRows) == multiset(Range(|frame.popularity|))
      && |r.value.testRows| == TestCount(|frame.popularity|)
    ensures r.Ok? ==>
      |r.value.yTrain| == |r.value.trainRows|
      && forall i | 0 <= i < |r.value.trainRows| ::
        r.value.trainRows[i] < |frame.popularity|
        && r.value.yTrain[i] == Label(frame.popularity[r.value.trainRows[i]],
                                      Thresholds(percentile, frame.popularity, DefaultCutoffs))
    ensures r.Ok? ==>
      |r.value.yTest| == |r.value.testRows|
      && forall i | 0 <= i < |r.value.testRows| ::
        r.value.testRows[i] < |frame.popularity|
        && r.value.yTest[i] == Label(frame.popularity[r.value.testRows[i]],
                                     Thresholds(percentile, frame.popularity, DefaultCutoffs))
    ensures r.Ok? ==>
      multiset(r.value.yTrainShuffled) == multiset(r.value.yTrain)
      && multiset(r.value.yTestShuffled) == multiset(r.value.yTest)
  {
    var dropped := DropCols(frame.columns);
    if dropped.Err? {
      return Err(dropped.error);
    }
    var allFeatures := dropped.value;
    if "Track_Popularity" !in allFeatures {
      return Err(KeyError(["Track_Popularity"]));
    }
    var notPopularity := c => c != "Track_Popularity";
    var features := Filter(allFeatures, notPopularity);
    forall c | c != "Track_Popularity" ensures multiset(features)[c] == multiset(allFeatures)[c] {
      FilterCount(allFeatures, notPopularity, c);
    }
    var classes := PopClasses(percentile, frame.popularity, Many(DefaultCutoffs));
    assert ValidCutoff(DefaultCutoffs[0]);
    var y := classes.value;
    var trainRows, testRows := TrainTestRows(|y|, randSplit);
    var yTrain := seq(|trainRows|, i requires 0 <= i < |trainRows| => y[trainRows[i]]);
    var yTest := seq(|testRows|, i requires 0 <= i < |testRows| => y[testRows[i]]);
    var trainShuffled := ShuffledCopy(yTrain, randTrain);
    var testShuffled := ShuffledCopy(yTest, randTest);
    r := Ok(Split(features, trainRows, testRows, yTrain, yTest, trainShuffled, testShuffled));
  }

  // ---------------------------------------------------------------------
  // RFC_list, LR_list, SVC_list
  // ---------------------------------------------------------------------

  /** An unfitted estimator with the hyper-parameters the grids set. */
  datatype Estimator =
    | RandomForest(classWeight: string, nEstimators: int, maxDepth: Option<int>, randomState: int)
    | LogisticRegression(classWeight: string, penalty: string, c: real, solver: string, randomState: int)
    | SupportVector(kernel: string, classWeight: string, c: real, randomState: int)

  /** The forest of one (n_estimators, max_depth) setting. */
  function Forest(setting: (int, Option<int>)): Estimator {
    RandomForest("balanced_subsample", setting.0, setting.1, 0)
  }

  /** The logistic regression of one (penalty, C) setting. */
  function Logistic(setting: (string, real)): Estimator {
    LogisticRegression("balanced", setting.0, setting.1, "saga", 0)
  }

  /** The linear support-vector classifier of one C value. */
  function LinearSvc(c: real): Estimator {
    SupportVector("linear", "balanced", c, 0)
  }

  /** The inner loop of `RFC_list`: the forests of one n_estimators value
      with every max_depth, in order. */
  method ForestRow(est: int, ds: seq<Option<int>>) returns (row: seq<Estimator>)
    ensures row == Map(Forest, Row(est, ds))
  {
    row := [];
    for j := 0 to |ds|
      invariant row == Map(Forest, Row(est, ds[..j]))
    {
      var depth := ds[j];
      assert ds[..j + 1] == ds[..j] + [depth];
      RowSnoc(est, ds[..j], depth);
      MapAppend(Forest, Row(est, ds[..j]), [(est, depth)]);
      row := row + [RandomForest("balanced_subsample", est, depth, 0)];
    }
    assert ds[..|ds|] == ds;
  }

  /** `RFC_list`: one forest per (n_estimators, max_depth) pair, with
      n_estimators in the outer loop. */
  method RfcList(nEstList: OneOrMany<int>, maxDepthList: OneOrMany<Option<int>>)
    returns (models: seq<Estimator>)
    ensures |models| == |AsList(nEstList)| * |AsList(maxDepthList)|
    ensures models == Map(Forest, Cross(AsList(nEstList), AsList(maxDepthList)))
  {
    var ns, ds := AsList(nEstList), AsList(maxDepthList);
    models := [];
    for i := 0 to |ns|
      invariant models == Map(Forest, Cross(ns[..i], ds))
    {
      var est := ns[i];
      var row := ForestRow(est, ds);
      assert ns[..i + 1] == ns[..i] + [est];
      CrossSnoc(ns[..i], est, ds);
      MapAppend(Forest, Cross(ns[..i], ds), Row(est, ds));
      models := models + row;
    }
    assert ns[..|ns|] == ns;
    CrossLength(ns, ds);
  }

  /** The inner loop of `LR_list`: the regressions of one penalty with
      every C value, in order. */
  method LogisticRow(pen: string, cs: seq<real>) returns (row: seq<Estimator>)
    ensures row == Map(Logistic, Row(pen, cs))
  {
    row := [];
    for j := 0 to |cs|
      invariant row == Map(Logistic, Row(pen, cs[..j]))
    {
      var cVal := cs[j];
      assert cs[..j + 1] == cs[..j] + [cVal];
      RowSnoc(pen, cs[..j], cVal);
      MapAppend(Logistic, Row(pen, cs[..j]), [(pen, cVal)]);
      row := row + [LogisticRegression("balanced", pen, cVal, "saga", 0)];
    }
    assert cs[..|cs|] == cs;
  }

  /** `LR_list`: one logistic regression per (penalty, C) pair, with the
      penalty in the outer loop. */
  method LrList(penaltyList: OneOrMany<string>, cList: OneOrMany<real>) returns (models: seq<Estimator>)
    ensures |models| == |AsList(penaltyList)| * |AsList(cList)|
    ensures models == Map(Logistic, Cross(AsList(penaltyList), AsList(cList)))
  {
    var ps, cs := AsList(penaltyList), AsList(cList);
    models := [];
    for i := 0 to |ps|
      invariant models == Map(Logistic, Cross(ps[..i], cs))
    {
      var pen := ps[i];
      var row := LogisticRow(pen, cs);
      assert ps[..i + 1] == ps[..i] + [pen];
      CrossSnoc(ps[..i], pen, cs);
      MapAppend(Logistic, Cross(ps[..i], cs), Row(pen, cs));
      models := models + row;
    }
    assert ps[..|ps|] == ps;
    CrossLength(ps, cs);
  }

  /** `SVC_list`: one linear support-vector classifier per C value, in order. */
  method SvcList(cList: OneOrMany<real>) returns (models: seq<Estimator>)
    ensures |models| == |AsList(cList)|
    ensures forall k | 0 <= k < |models| :: models[k] == LinearSvc(AsList(cList)[k])
  {
    var cs := AsList(cList);
    models := [];
    for k := 0 to |cs|
      invariant |models| == k && forall i | 0 <= i < k :: models[i] == LinearSvc(cs[i])
    {
      models := models + [SupportVector("linear", "balanced", cs[k], 0)];
    }
  }

  /** Model `k` of a two-parameter grid is the `(k / m)`-th setting of the
      outer list with the `(k % m)`-th of the inner one: entry `i * m + j`
      pairs `xs[i]` with `ys[j]`. */
  lemma RfcGridAt(ns: seq<int>, ds: seq<Option<int>>, i: nat, j: nat)
    requires i < |ns| && j < |ds|
    ensures i * |ds| + j < |Cross(ns, ds)|
    ensures Forest(Cross(ns, ds)[i * |ds| + j]) == RandomForest("balanced_subsample", ns[i], ds[j], 0)
  {
    CrossAt(ns, ds, i, j);
  }

  // ---------------------------------------------------------------------
  // run_cv
  // ---------------------------------------------------------------------

  const ScaledColumns: seq<string> := ["Track_Duration", "Track_Loudness", "Track_Tempo"]
  const DroppedColumns: seq<string> := ["Track_Key", "Track_TimeSig"]
  const ColumnNotFound := "A given column is not a column of the dataframe"

  /** What `ColumnTransformer` says when a name one of its transformers
      selects labels several columns; the message quotes that transformer's
      column list. */
  const ScaledNotUnique :=
    "Selected columns, ['Track_Duration', 'Track_Loudness', 'Track_Tempo'], are not unique in dataframe"
  const DroppedNotUnique := "Selected columns, ['Track_Key', 'Track_TimeSig'], are not unique in dataframe"

  /** Looking up, in order, the names one transformer selects: the first name
      that is not exactly one column decides the error, `ColumnNotFound` when
      it is no column at all and `notUnique` when it labels several. */
  function SelectionError(columns: seq<string>, selected: seq<string>, notUnique: string): (e: Option<string>)
    ensures e.None? <==> forall i | 0 <= i < |selected| :: multiset(columns)[selected[i]] == 1
    ensures e.Some? ==> exists k | 0 <= k < |selected| ::
      (forall i | 0 <= i < k :: multiset(columns)[selected[i]] == 1)
      && multiset(columns)[selected[k]] != 1
      && e.value == (if selected[k] in columns then notUnique else ColumnNotFound)
    decreases |selected|
  {
    if selected == [] then None
    else if selected[0] !in columns then Some(ColumnNotFound)
    else if multiset(columns)[selected[0]] > 1 then Some(notUnique)
    else
      var e := SelectionError(columns, selected[1..], notUnique);
      if e.Some? then
        var k :| 0 <= k < |selected[1..]|
          && (forall i | 0 <= i < k :: multiset(columns)[selected[1..][i]] == 1)
          && multiset(columns)[selected[1..][k]] != 1
          && e.value == (if selected[1..][k] in columns then notUnique else ColumnNotFound);
        assert forall i | 0 <= i < k + 1 :: multiset(columns)[selected[i]] == 1 by {
          forall i | 0 < i < k + 1 ensures multiset(columns)[selected[i]] == 1 {
            assert selected[i] == selected[1..][i - 1];
          }
        }
        e
      else
        e
  }

  /** The columns the preprocessing step of `run_cv` hands to the model: the
      min-max scaled columns first, then the passthrough remainder in its
      original order; the dropped columns are gone. The scaler's names are
      looked up before the dropped ones, and a name that is missing, or that
      labels several columns, makes the transformer fail. */
  function RunCvColumns(columns: seq<string>): (r: Result<seq<string>>)
    ensures r.Ok? <==>
      (forall i | 0 <= i < |ScaledColumns| :: multiset(columns)[ScaledColumns[i]] == 1)
      && (forall i | 0 <= i < |DroppedColumns| :: multiset(columns)[DroppedColumns[i]] == 1)
    ensures r.Err? ==>
      r.error.ValueError? && r.error.message in {ColumnNotFound, ScaledNotUnique, DroppedNotUnique}
    ensures r.Err? && r.error.message == ColumnNotFound ==>
      (exists i | 0 <= i < |ScaledColumns| :: ScaledColumns[i] !in columns)
      || (exists i | 0 <= i < |DroppedColumns| :: DroppedColumns[i] !in columns)
    ensures r.Err? && r.error.message == ScaledNotUnique ==>
      exists i | 0 <= i < |ScaledColumns| :: multiset(columns)[ScaledColumns[i]] > 1
    ensures r.Err? && r.error.message == DroppedNotUnique ==>
      exists i | 0 <= i < |DroppedColumns| :: multiset(columns)[DroppedColumns[i]] > 1
    ensures
      && (forall i | 0 <= i < |ScaledColumns| :: multiset(columns)[ScaledColumns[i]] <= 1)
      && (forall i | 0 <= i < |DroppedColumns| :: multiset(columns)[DroppedColumns[i]] <= 1)
      && r.Err?
      ==> r.error == ValueError(ColumnNotFound)
    ensures
      && (forall i | 0 <= i < |ScaledColumns| :: ScaledColumns[i] in columns)
      && (exists i | 0 <= i < |ScaledColumns| :: multiset(columns)[ScaledColumns[i]] > 1)
      ==> r == Err(ValueError(ScaledNotUnique))
    ensures r.Ok? ==> |r.value| >= |ScaledColumns| && r.value[..|ScaledColumns|] == ScaledColumns
    ensures r.Ok? ==>
      forall c :: c in r.value[|ScaledColumns|..] <==>
        c in columns && c !in ScaledColumns && c !in DroppedColumns
    ensures r.Ok? ==> IsSubseq(r.value[|ScaledColumns|..], columns)
    ensures r.Ok? ==> forall c | c !in ScaledColumns && c !in DroppedColumns ::
      multiset(r.value[|ScaledColumns|..])[c] == multiset(columns)[c]
  {
    var scaled := SelectionError(columns, ScaledColumns, ScaledNotUnique);
    var dropped := SelectionError(columns, DroppedColumns, DroppedNotUnique);
    if scaled.Some? then
      Err(ValueError(scaled.value))
    else if dropped.Some? then
      Err(ValueError(dropped.value))
    else
      assert forall i | 0 <= i < |ScaledColumns| :: ScaledColumns[i] in columns;
      assert forall i | 0 <= i < |DroppedColumns| :: DroppedColumns[i] in columns;
      var passthrough := c => c !in ScaledColumns && c !in DroppedColumns;
      var rest := Filter(columns, passthrough);
      assert (ScaledColumns + rest)[|ScaledColumns|..] == rest;
      assert forall c | passthrough(c) :: multiset(rest)[c] == multiset(columns)[c] by {
        forall c | passthrough(c) ensures multiset(rest)[c] == multiset(columns)[c] {
          FilterCount(columns, passthrough, c);
        }
      }
      Ok(ScaledColumns + rest)
  }
}
