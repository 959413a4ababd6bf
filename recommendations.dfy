/** `track_recs`: a breadth-first walk of the related-artists graph from the
    seed artists, then recommendation requests for every artist of the
    network at every target popularity, de-duplicated. */
module Recommendations {
  import opened Common
  import opened Catalog

  /** The related-artists relation, as the catalog reports it. */
  type Related = ArtistId -> seq<ArtistId>

  /** The artists related to some artist of `a`. */
  function Neighbours(rel: Related, a: set<ArtistId>): set<ArtistId> {
    set x, y | x in a && y in rel(x) :: y
  }

  /** The artists at most `d` relation steps away from `s`, level by level. */
  function Ball(rel: Related, s: set<ArtistId>, d: nat): (b: set<ArtistId>)
    ensures s <= b
  {
    if d == 0 then s else Ball(rel, s, d - 1) + Neighbours(rel, Ball(rel, s, d - 1))
  }

  /** `w` follows the relation: every entry is related to the one before it. */
  predicate IsWalk(rel: Related, w: seq<ArtistId>) {
    forall i | 0 <= i < |w| - 1 :: w[i + 1] in rel(w[i])
  }

  /** Some walk of at most `d` steps leads from an artist of `s` to `y`. */
  ghost predicate Reachable(rel: Related, s: set<ArtistId>, y: ArtistId, d: nat) {
    exists w :: IsWalk(rel, w) && 1 <= |w| <= d + 1 && w[0] in s && w[|w| - 1] == y
  }

  /** Extending a walk by one related artist gives a walk. */
  lemma WalkExtend(rel: Related, w: seq<ArtistId>, y: ArtistId)
    requires IsWalk(rel, w) && |w| >= 1 && y in rel(w[|w| - 1])
    ensures IsWalk(rel, w + [y])
  {
    var w' := w + [y];
    forall i | 0 <= i < |w'| - 1 ensures w'[i + 1] in rel(w'[i]) {
      if i < |w| - 1 {
        assert w'[i + 1] == w[i + 1] && w'[i] == w[i];
      }
    }
  }

  /** Every artist of the network is reachable in at most `d` steps. */
  lemma {:induction false} BallReachable(rel: Related, s: set<ArtistId>, d: nat, y: ArtistId)
    requires y in Ball(rel, s, d)
    ensures Reachable(rel, s, y, d)
  {
    if y in s {
      assert IsWalk(rel, [y]);
    } else if y in Ball(rel, s, d - 1) {
      BallReachable(rel, s, d - 1, y);
      var w :| IsWalk(rel, w) && 1 <= |w| <= d && w[0] in s && w[|w| - 1] == y;
      assert IsWalk(rel, w) && 1 <= |w| <= d + 1;
    } else {
      var x :| x in Ball(rel, s, d - 1) && y in rel(x);
      BallReachable(rel, s, d - 1, x);
      var w :| IsWalk(rel, w) && 1 <= |w| <= d && w[0] in s && w[|w| - 1] == x;
      WalkExtend(rel, w, y);
      var w' := w + [y];
      assert w'[0] == w[0] && w'[|w'| - 1] == y;
    }
  }

  /** Every artist reachable in at most `d` steps is in the network. */
  lemma {:induction false} ReachableInBall(rel: Related, s: set<ArtistId>, d: nat, w: seq<ArtistId>)
    requires IsWalk(rel, w) && 1 <= |w| <= d + 1 && w[0] in s
    ensures w[|w| - 1] in Ball(rel, s, d)
  {
    if |w| > 1 {
      var w' := w[..|w| - 1];
      assert IsWalk(rel, w') by {
        forall i | 0 <= i < |w'| - 1 ensures w'[i + 1] in rel(w'[i]) {
          assert w'[i + 1] == w[i + 1] && w'[i] == w[i];
        }
      }
      ReachableInBall(rel, s, d - 1, w');
      assert w[|w| - 1] in rel(w[|w| - 2]);
      assert w[|w| - 1] in Neighbours(rel, Ball(rel, s, d - 1));
    }
  }

  /** The level-by-level network is exactly the set of artists reachable in
      at most `d` steps. */
  lemma BallIsReachable(rel: Related, s: set<ArtistId>, d: nat, y: ArtistId)
    ensures y in Ball(rel, s, d) <==> Reachable(rel, s, y, d)
  {
    if y in Ball(rel, s, d) {
      BallReachable(rel, s, d, y);
    }
    if Reachable(rel, s, y, d) {
      var w :| IsWalk(rel, w) && 1 <= |w| <= d + 1 && w[0] in s && w[|w| - 1] == y;
      ReachableInBall(rel, s, d, w);
    }
  }

  /** A larger number of degrees never loses an artist. */
  lemma {:induction false} BallGrows(rel: Related, s: set<ArtistId>, d: nat, e: nat)
    requires d <= e
    ensures Ball(rel, s, d) <= Ball(rel, s, e)
  {
    if d < e {
      BallGrows(rel, s, d, e - 1);
    }
  }

  /** Checking one more artist adds exactly its related artists. */
  lemma NeighboursAdd(rel: Related, a: set<ArtistId>, x: ArtistId)
    ensures Neighbours(rel, a + {x}) == Neighbours(rel, a) + Elems(rel(x))
  {
  }

  /** `degrees`, with the loop `while degrees > 0` taking no turn when it is
      zero or negative. */
  function Hops(degrees: int): (h: nat)
    ensures degrees > 0 ==> h == degrees
    ensures degrees <= 0 ==> h == 0
  {
    if degrees > 0 then degrees else 0
  }

  /** The related artists of a union are those of either part. */
  lemma NeighboursUnion(rel: Related, a: set<ArtistId>, b: set<ArtistId>)
    ensures Neighbours(rel, a + b) == Neighbours(rel, a) + Neighbours(rel, b)
  {
  }

  /** One turn of the `while degrees > 0` loop's inner `for art in
      unchecked`: each unchecked artist's related artists are requested and
      appended, and the artist is appended to `checked`. */
  method CheckRound(rel: Related, unchecked: seq<ArtistId>, checked: seq<ArtistId>, related: seq<ArtistId>)
    returns (checked': seq<ArtistId>, related': seq<ArtistId>)
    ensures checked' == checked + unchecked
    ensures Elems(related') == Elems(related) + Neighbours(rel, Elems(unchecked))
  {
    checked', related' := checked, related;
    for j := 0 to |unchecked|
      invariant checked' == checked + unchecked[..j]
      invariant Elems(related') == Elems(related) + Neighbours(rel, Elems(unchecked[..j]))
    {
      var art := unchecked[j];
      var relatedIds := rel(art);
      assert unchecked[..j + 1] == unchecked[..j] + [art];
      ElemsAppend(unchecked[..j], [art]);
      assert Elems([art]) == {art};
      NeighboursAdd(rel, Elems(unchecked[..j]), art);
      ElemsAppend(related', relatedIds);
      checked' := checked' + [art];
      related' := related' + relatedIds;
    }
    assert unchecked[..|unchecked|] == unchecked;
  }

  /** The sets the `while degrees > 0` loop keeps after `k` rounds: the
      checked and unchecked artists are disjoint and together make up the
      network of radius `k`, the checked ones alone that of radius `k - 1`
      (none before the first round). */
  predicate Level(rel: Related, seeds: set<ArtistId>, k: nat,
                  checked: set<ArtistId>, unchecked: set<ArtistId>) {
    && checked + unchecked == Ball(rel, seeds, k)
    && checked !! unchecked
    && checked == (if k == 0 then {} else Ball(rel, seeds, k - 1))
  }

  /** One round, on sets: checking every unchecked artist and keeping the
      related artists found so far that are not checked as the next
      unchecked set moves the loop from radius `k` to radius `k + 1`. */
  lemma RoundGrowsBall(rel: Related, seeds: set<ArtistId>, k: nat,
                       checked: set<ArtistId>, unchecked: set<ArtistId>, related: set<ArtistId>,
                       checked': set<ArtistId>, unchecked': set<ArtistId>, related': set<ArtistId>)
    requires Level(rel, seeds, k, checked, unchecked) && related == Neighbours(rel, checked)
    requires checked' == checked + unchecked
    requires related' == related + Neighbours(rel, unchecked)
    requires unchecked' == related' - checked'
    ensures Level(rel, seeds, k + 1, checked', unchecked') && related' == Neighbours(rel, checked')
  {
    NeighboursUnion(rel, checked, unchecked);
  }

  /** One turn of the `while degrees > 0` loop: the unchecked artists are
      checked, and the related artists found so far that are not checked
      become the unchecked list, in the order of `list(set(...))`. */
  method ExpandRound(rel: Related, checked: seq<ArtistId>, unchecked: seq<ArtistId>, related: seq<ArtistId>)
    returns (checked': seq<ArtistId>, unchecked': seq<ArtistId>, related': seq<ArtistId>)
    ensures checked' == checked + unchecked
    ensures Elems(checked') == Elems(checked) + Elems(unchecked)
    ensures Elems(related') == Elems(related) + Neighbours(rel, Elems(unchecked))
    ensures Elems(unchecked') == Elems(related') - Elems(checked') && NoDups(unchecked')
    ensures NoDups(checked) && NoDups(unchecked) && Elems(checked) !! Elems(unchecked) ==>
      NoDups(checked')
  {
    checked', related' := CheckRound(rel, unchecked, checked, related);
    unchecked' := SetToSeq(Elems(related') - Elems(checked'));
    ElemsAppend(checked, unchecked);
    if NoDups(checked) && NoDups(unchecked) && Elems(checked) !! Elems(unchecked) {
      NoDupsAppend(checked, unchecked);
    }
  }

  /** The `while degrees > 0` loop of `track_recs`, run from the seed list:
      after it, checked and unchecked artists make up the network of radius
      `degrees`, and the checked ones that of radius `degrees - 1`. */
  method ExpandNetwork(rel: Related, seedList: seq<ArtistId>, degrees: int)
    returns (checked: seq<ArtistId>, unchecked: seq<ArtistId>)
    ensures Elems(checked) + Elems(unchecked) == Ball(rel, Elems(seedList), Hops(degrees))
    ensures degrees > 0 ==> Elems(checked) == Ball(rel, Elems(seedList), degrees - 1)
    ensures degrees <= 0 ==> checked == [] && unchecked == seedList
    ensures degrees > 0 ==> NoDups(unchecked)
    ensures NoDups(seedList) ==> NoDups(checked)
  {
    unchecked := seedList;
    checked := [];
    var related: seq<ArtistId> := [];
    var d := degrees;
    ghost var k: nat := 0;
    assert Elems(checked) == {} && Elems(related) == {};
    assert Neighbours(rel, {}) == {};
    while d > 0
      invariant degrees > 0 ==> 0 <= d <= degrees && k == degrees - d
      invariant degrees <= 0 ==> d == degrees && k == 0
      invariant Level(rel, Elems(seedList), k, Elems(checked), Elems(unchecked))
      invariant Elems(related) == Neighbours(rel, Elems(checked))
      invariant k == 0 ==> checked == [] && unchecked == seedList
      invariant k > 0 ==> NoDups(unchecked)
      invariant NoDups(seedList) ==> NoDups(checked)
      decreases d
    {
      ghost var before, frontier, found := checked, unchecked, related;
      checked, unchecked, related := ExpandRound(rel, checked, unchecked, related);
      RoundGrowsBall(rel, Elems(seedList), k, Elems(before), Elems(frontier), Elems(found),
                     Elems(checked), Elems(unchecked), Elems(related));
      d := d - 1;
      k := k + 1;
    }
  }

  /** The network half of `track_recs`: `degrees` rounds in which every
      unchecked artist is checked (its related artists requested) and the
      related artists not yet checked become the next round's unchecked
      list; the network is then listed through a set. `checked` lists the
      artists whose related artists were requested, in request order. */
  method ExpandArtists(cat: Catalog, seedArg: OneOrMany<ArtistId>, degrees: int)
    returns (artistList: seq<ArtistId>, checked: seq<ArtistId>)
    ensures Elems(artistList) == Ball(cat.relatedArtists, Elems(AsList(seedArg)), Hops(degrees))
    ensures NoDups(artistList)
    ensures degrees <= 0 ==> checked == []
    ensures degrees > 0 ==>
      Elems(checked) == Ball(cat.relatedArtists, Elems(AsList(seedArg)), degrees - 1)
    ensures NoDups(AsList(seedArg)) ==> NoDups(checked)
  {
    var unchecked;
    checked, unchecked := ExpandNetwork(cat.relatedArtists, AsList(seedArg), degrees);
    artistList := SetToSeq(Elems(checked) + Elems(unchecked));
  }

  /** The recommendation requests' answers, concatenated in request order. */
  function RecsOf(cat: Catalog, requests: seq<(ArtistId, int)>): seq<TrackId> {
    if requests == [] then []
    else
      var last := requests[|requests| - 1];
      RecsOf(cat, requests[..|requests| - 1]) + cat.recommendations(last.0, last.1)
  }

  /** A track is among the answers exactly when some request returned it. */
  lemma {:induction false} RecsOfMembers(cat: Catalog, requests: seq<(ArtistId, int)>, t: TrackId)
    ensures t in RecsOf(cat, requests) <==>
      exists k :: 0 <= k < |requests| && t in cat.recommendations(requests[k].0, requests[k].1)
  {
    if requests != [] {
      var init := requests[..|requests| - 1];
      RecsOfMembers(cat, init, t);
      if k :| 0 <= k < |requests| && t in cat.recommendations(requests[k].0, requests[k].1) {
        if k < |requests| - 1 {
          assert requests[k] == init[k];
        }
      }
    }
  }

  /** Every track recommended for some artist of `artists` at some target of `pops`. */
  function RecPool(cat: Catalog, artists: set<ArtistId>, pops: seq<int>): set<TrackId> {
    set a, p, t | a in artists && p in pops && t in cat.recommendations(a, p) :: t
  }

  /** `t` is recommended for some artist of `artists` at some target of `pops`. */
  predicate Recommended(cat: Catalog, artists: set<ArtistId>, pops: seq<int>, t: TrackId) {
    t in RecPool(cat, artists, pops)
  }

  /** Asking every artist at every target finds exactly the recommended tracks. */
  lemma RecsOfCross(cat: Catalog, artists: seq<ArtistId>, pops: seq<int>, t: TrackId)
    ensures t in RecsOf(cat, Cross(artists, pops)) <==> Recommended(cat, Elems(artists), pops, t)
  {
    var requests := Cross(artists, pops);
    RecsOfMembers(cat, requests, t);
    if t in RecsOf(cat, requests) {
      var k :| 0 <= k < |requests| && t in cat.recommendations(requests[k].0, requests[k].1);
      var a, p := requests[k].0, requests[k].1;
      assert a in artists && p in pops by {
        CrossMembers(artists, pops);
        assert requests[k] in requests;
      }
      assert a in Elems(artists);
      assert Recommended(cat, Elems(artists), pops, t);
    }
    if Recommended(cat, Elems(artists), pops, t) {
      var a, p :| a in Elems(artists) && p in pops && t in cat.recommendations(a, p);
      assert (a, p) in requests by {
        CrossMembers(artists, pops);
      }
      var k :| 0 <= k < |requests| && requests[k] == (a, p);
      assert t in cat.recommendations(requests[k].0, requests[k].1);
      assert t in RecsOf(cat, requests);
    }
  }

  /** `range(5, 100, 15)`, the default target popularities. */
  const DefaultPopTargets: seq<int> := [5, 20, 35, 50, 65, 80, 95]

  /** The recommendation half of `track_recs`: one request per (artist,
      target popularity) pair, artists in the outer loop; `requests` lists
      them in order. The answers are de-duplicated through a set. */
  method RecommendTracks(cat: Catalog, artistList: seq<ArtistId>, popList: seq<int>)
    returns (tracklist: seq<TrackId>, requests: seq<(ArtistId, int)>)
    ensures requests == Cross(artistList, popList)
    ensures forall t :: t in tracklist <==> Recommended(cat, Elems(artistList), popList, t)
    ensures NoDups(tracklist)
  {
    var all: seq<TrackId> := [];
    requests := [];
    for i := 0 to |artistList|
      invariant requests == Cross(artistList[..i], popList)
      invariant all == RecsOf(cat, requests)
    {
      var art := artistList[i];
      ghost var rowStart := requests;
      for j := 0 to |popList|
        invariant requests == rowStart + Row(art, popList[..j])
        invariant all == RecsOf(cat, requests)
      {
        var pop := popList[j];
        var recs := cat.recommendations(art, pop);
        assert popList[..j + 1][..j] == popList[..j];
        ghost var prev := requests;
        assert Row(art, popList[..j + 1]) == Row(art, popList[..j]) + [(art, pop)];
        requests := requests + [(art, pop)];
        assert requests[..|requests| - 1] == prev;
        all := all + recs;
      }
      assert popList[..|popList|] == popList;
      assert artistList[..i + 1][..i] == artistList[..i];
      assert Cross(artistList[..i + 1], popList) == Cross(artistList[..i], popList) + Row(art, popList);
    }
    assert artistList[..|artistList|] == artistList;
    assert all == RecsOf(cat, Cross(artistList, popList));
    tracklist := SetToSeq(Elems(all));
    forall t ensures t in tracklist <==> Recommended(cat, Elems(artistList), popList, t) {
      assert t in tracklist <==> t in Elems(all);
      RecsOfCross(cat, artistList, popList, t);
    }
  }

  /** `track_recs`: the tracks recommended for the artists within `degrees`
      related-artist steps of the seeds, at the given target popularities,
      each once. */
  method TrackRecs(cat: Catalog, artistArg: OneOrMany<ArtistId>, degrees: int, popList: seq<int>)
    returns (tracklist: seq<TrackId>)
    ensures forall t :: t in tracklist <==>
      Recommended(cat, Ball(cat.relatedArtists, Elems(AsList(artistArg)), Hops(degrees)), popList, t)
    ensures NoDups(tracklist)
  {
    var artistList, checked := ExpandArtists(cat, artistArg, degrees);
    var requests;
    tracklist, requests := RecommendTracks(cat, artistList, popList);
  }
}
