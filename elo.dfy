/** The rating model of js/elo.js: the Elo update after one pairwise
    comparison (with the "user preference wins" override and the rating
    floor), the 1-10 display score, the score buckets, the seed rating of a
    new movie, and the choice of opponents for it.

    Ratings are integers. A display score is an integer number of tenths
    (7.5 is 75). The expected score, `1 / (1 + 10^((b - a) / 400))` in the
    source, enters as a function `e` of which only the facts listed in
    `IsExpectedScore` are known. */
module Elo {
  import opened Common
  import opened Lists
  import opened Records

  /** How far one comparison can move a rating. */
  const K_FACTOR: real := 32.0
  /** The seed of a first movie rated neither "liked" nor "disliked". */
  const BASE_RATING: int := 1500
  /** No rating is ever returned below this. */
  const RATING_FLOOR: int := 100

  /** The user's verdict on "new movie A versus existing movie B"; the source
      passes it as 1, 0.5 or 0. */
  datatype Verdict = PreferNew | Equal | PreferExisting

  function ActualScore(verdict: Verdict): real
  {
    match verdict
    case PreferNew => 1.0
    case Equal => 0.5
    case PreferExisting => 0.0
  }

  /** What is known of the expected score `e(a, b)` that A beats B: it is a
      probability strictly between 0 and 1, equal ratings give one half, and
      the two sides' expectations add up to one. */
  ghost predicate IsExpectedScore(e: (int, int) -> real)
  {
    (forall a, b :: 0.0 < e(a, b) < 1.0) &&
    (forall a :: e(a, a) == 0.5) &&
    (forall a, b :: e(a, b) + e(b, a) == 1.0)
  }

  /** The plain Elo update of one side, rounded as Math.round rounds. */
  function RawRating(rating: int, actual: real, expected: real): int
  {
    Round(rating as real + K_FACTOR * (actual - expected))
  }

  /** The unconstrained update of A (the new movie). */
  function RawA(ratingA: int, ratingB: int, verdict: Verdict, e: (int, int) -> real): int
  {
    RawRating(ratingA, ActualScore(verdict), e(ratingA, ratingB))
  }

  /** The unconstrained update of B, with the complementary score and
      expectation. */
  function RawB(ratingA: int, ratingB: int, verdict: Verdict, e: (int, int) -> real): int
  {
    RawRating(ratingB, 1.0 - ActualScore(verdict), 1.0 - e(ratingA, ratingB))
  }

  /** True when the plain update would rank against the user's strict
      preference, so that the override applies. */
  predicate Overridden(rawA: int, rawB: int, verdict: Verdict)
  {
    (verdict == PreferNew && rawA < rawB) || (verdict == PreferExisting && rawA > rawB)
  }

  /** The result of `calculateNewRatings(ratingA, ratingB, scoreA)`. */
  function NewRatings(ratingA: int, ratingB: int, verdict: Verdict, e: (int, int) -> real): (r: (int, int))
    requires IsExpectedScore(e)
    // the floor
    ensures r.0 >= RATING_FLOOR && r.1 >= RATING_FLOOR
    // the user's strict preference is never contradicted by the result
    ensures verdict == PreferNew ==> r.0 >= r.1
    ensures verdict == PreferExisting ==> r.1 >= r.0
    // the preferred side never loses rating, the other side never gains above the floor
    ensures verdict == PreferNew ==> r.0 >= ratingA && r.1 <= Max(RATING_FLOOR, ratingB)
    ensures verdict == PreferExisting ==> r.1 >= ratingB && r.0 <= Max(RATING_FLOOR, ratingA)
    // a draw between equal ratings changes nothing (above the floor)
    ensures verdict == Equal && ratingA == ratingB ==>
              r == (Max(RATING_FLOOR, ratingA), Max(RATING_FLOOR, ratingB))
    // when the plain update already agrees with the verdict (always on a draw), it is kept
    ensures !Overridden(RawA(ratingA, ratingB, verdict, e), RawB(ratingA, ratingB, verdict, e), verdict) ==>
              r == (Max(RATING_FLOOR, RawA(ratingA, ratingB, verdict, e)),
                    Max(RATING_FLOOR, RawB(ratingA, ratingB, verdict, e)))
    // otherwise the two land one point either side of the rounded midpoint of the plain updates
    ensures Overridden(RawA(ratingA, ratingB, verdict, e), RawB(ratingA, ratingB, verdict, e), verdict) ==>
              var mid := Round((RawA(ratingA, ratingB, verdict, e) + RawB(ratingA, ratingB, verdict, e)) as real / 2.0);
              var winner := Max(RATING_FLOOR, mid + 1);
              var loser := Max(RATING_FLOOR, mid - 1);
              r == if verdict == PreferNew then (winner, loser) else (loser, winner)
  {
    var rawA := RawA(ratingA, ratingB, verdict, e);
    var rawB := RawB(ratingA, ratingB, verdict, e);
    var mid := Round((rawA + rawB) as real / 2.0);
    var (a, b) :=
      if verdict == PreferNew && rawA < rawB then (mid + 1, mid - 1)
      else if verdict == PreferExisting && rawA > rawB then (mid - 1, mid + 1)
      else (rawA, rawB);
    assert verdict == PreferNew ==> rawA >= ratingA && rawB <= ratingB;
    assert verdict == PreferExisting ==> rawB >= ratingB && rawA <= ratingA;
    assert verdict == Equal && ratingA == ratingB ==> rawA == ratingA && rawB == ratingB;
    (Max(RATING_FLOOR, a), Max(RATING_FLOOR, b))
  }

  /** `calculateNewRatings`, step by step as the source assigns its two
      `let` variables. */
  method CalculateNewRatings(ratingA: int, ratingB: int, verdict: Verdict, e: (int, int) -> real)
    returns (newRatingA: int, newRatingB: int)
    requires IsExpectedScore(e)
    ensures (newRatingA, newRatingB) == NewRatings(ratingA, ratingB, verdict, e)
  {
    var expectedA := e(ratingA, ratingB);
    var expectedB := 1.0 - expectedA;
    var scoreA := ActualScore(verdict);
    var scoreB := 1.0 - scoreA;
    newRatingA := Round(ratingA as real + K_FACTOR * (scoreA - expectedA));
    newRatingB := Round(ratingB as real + K_FACTOR * (scoreB - expectedB));
    assert newRatingA == RawA(ratingA, ratingB, verdict, e) && newRatingB == RawB(ratingA, ratingB, verdict, e);
    assert scoreA == 1.0 <==> verdict == PreferNew;
    assert scoreA == 0.0 <==> verdict == PreferExisting;
    if scoreA == 1.0 && newRatingA < newRatingB {
      var avg := Round((newRatingA + newRatingB) as real / 2.0);
      newRatingA := avg + 1;
      newRatingB := avg - 1;
    } else if scoreA == 0.0 && newRatingA > newRatingB {
      var avg := Round((newRatingA + newRatingB) as real / 2.0);
      newRatingA := avg - 1;
      newRatingB := avg + 1;
    }
    newRatingA := Max(RATING_FLOOR, newRatingA);
    newRatingB := Max(RATING_FLOOR, newRatingB);
  }

  /** `ratingToScore`: the rating placed on a 1-10 scale between the
      collection's lowest and highest rating, in tenths; 7.5 when the two
      coincide. */
  function RatingToScore(rating: int, minRating: int, maxRating: int): (score: int)
    ensures minRating == maxRating ==> score == 75
    ensures minRating != maxRating && rating == maxRating ==> score == 100
    ensures minRating != maxRating && rating == minRating ==> score == 10
    ensures minRating < maxRating && minRating <= rating <= maxRating ==> 10 <= score <= 100
    // the linear 1-10 value in tenths, rounded to the nearest tenth with a half going up
    ensures minRating != maxRating ==>
              var x := 10.0 + 90.0 * ((rating - minRating) as real / (maxRating - minRating) as real);
              x - 0.5 < score as real <= x + 0.5
  {
    if minRating == maxRating then 75
    else
      var normalized := (rating - minRating) as real / (maxRating - minRating) as real;
      var x := (1.0 + normalized * 9.0) * 10.0;
      assert minRating < maxRating && minRating <= rating <= maxRating ==> 10.0 <= x <= 100.0 by {
        if minRating < maxRating && minRating <= rating <= maxRating {
          FractionBetween(rating - minRating, maxRating - minRating);
        }
      }
      assert rating == maxRating ==> normalized == 1.0 by {
        if rating == maxRating {
          SelfQuotient((maxRating - minRating) as real);
        }
      }
      if minRating < maxRating && minRating <= rating <= maxRating then
        RoundBetween(x, 10, 100);
        Round(x)
      else
        Round(x)
  }

  lemma SelfQuotient(d: real)
    requires d != 0.0
    ensures d / d == 1.0
  {
  }

  /** A part of a positive whole is a fraction in [0, 1]. */
  lemma FractionBetween(part: int, whole: int)
    requires 0 <= part <= whole && whole > 0
    ensures 0.0 <= part as real / whole as real <= 1.0
  {
    var q := part as real / whole as real;
    assert q * whole as real == part as real;
  }

  /** A higher rating never gets a lower display score. */
  lemma RatingToScoreMonotone(r1: int, r2: int, minRating: int, maxRating: int)
    requires minRating < maxRating && r1 <= r2
    ensures RatingToScore(r1, minRating, maxRating) <= RatingToScore(r2, minRating, maxRating)
  {
    var d := (maxRating - minRating) as real;
    var q1 := (r1 - minRating) as real / d;
    var q2 := (r2 - minRating) as real / d;
    assert q1 * d == (r1 - minRating) as real && q2 * d == (r2 - minRating) as real;
    assert (q2 - q1) * d >= 0.0;
    assert q1 <= q2;
    RoundMonotone((1.0 + q1 * 9.0) * 10.0, (1.0 + q2 * 9.0) * 10.0);
  }

  /** The source's own expectations of the scale: the midpoint of 1200..1800
      scores 5.5, the quarter point 3.3 (within 0.1 of 3.25). */
  lemma RatingToScoreExamples()
    ensures RatingToScore(1500, 1500, 1500) == 75
    ensures RatingToScore(1800, 1200, 1800) == 100
    ensures RatingToScore(1200, 1200, 1800) == 10
    ensures RatingToScore(1500, 1200, 1800) == 55
    ensures RatingToScore(1350, 1200, 1800) == 33
  {
    assert 300.0 / 600.0 == 0.5;
    assert 150.0 / 600.0 == 0.25;
  }

  /** The five display buckets of `getScoreClass`. */
  datatype ScoreClass = Excellent | Good | Average | Below | Poor

  /** `getScoreClass`: every bucket includes its lower bound. */
  function ScoreClassOf(score: int): (c: ScoreClass)
    ensures c == Excellent <==> score >= 85
    ensures c == Good <==> 70 <= score < 85
    ensures c == Average <==> 55 <= score < 70
    ensures c == Below <==> 40 <= score < 55
    ensures c == Poor <==> score < 40
  {
    if score >= 85 then Excellent
    else if score >= 70 then Good
    else if score >= 55 then Average
    else if score >= 40 then Below
    else Poor
  }

  function ClassRank(c: ScoreClass): nat
  {
    match c
    case Poor => 0
    case Below => 1
    case Average => 2
    case Good => 3
    case Excellent => 4
  }

  /** A higher score never falls in a lower bucket. */
  lemma ScoreClassMonotone(s1: int, s2: int)
    requires s1 <= s2
    ensures ClassRank(ScoreClassOf(s1)) <= ClassRank(ScoreClassOf(s2))
  {
  }

  /** Sum of the ratings, the `reduce` of `getInitialRating`. */
  function SumRatings(movies: seq<Movie>): int
  {
    if movies == [] then 0 else movies[0].rating + SumRatings(movies[1..])
  }

  /** `Math.min(...ratings)` */
  function MinRating(movies: seq<Movie>): (lo: int)
    requires movies != []
    ensures forall i :: 0 <= i < |movies| ==> lo <= movies[i].rating
  {
    if |movies| == 1 then movies[0].rating
    else
      var rest := MinRating(movies[1..]);
      assert forall i :: 1 <= i < |movies| ==> movies[i] == movies[1..][i - 1];
      Min(movies[0].rating, rest)
  }

  /** `Math.max(...ratings)` */
  function MaxRating(movies: seq<Movie>): (hi: int)
    requires movies != []
    ensures forall i :: 0 <= i < |movies| ==> movies[i].rating <= hi
  {
    if |movies| == 1 then movies[0].rating
    else
      var rest := MaxRating(movies[1..]);
      assert forall i :: 1 <= i < |movies| ==> movies[i] == movies[1..][i - 1];
      Max(movies[0].rating, rest)
  }

  /** The lowest and the highest rating are ratings of movies in the list. */
  lemma {:induction false} ExtremesAttained(movies: seq<Movie>)
    requires movies != []
    ensures exists i :: 0 <= i < |movies| && movies[i].rating == MinRating(movies)
    ensures exists i :: 0 <= i < |movies| && movies[i].rating == MaxRating(movies)
  {
    if |movies| > 1 {
      ExtremesAttained(movies[1..]);
      var i :| 0 <= i < |movies| - 1 && movies[1..][i].rating == MinRating(movies[1..]);
      var j :| 0 <= j < |movies| - 1 && movies[1..][j].rating == MaxRating(movies[1..]);
      assert movies[i + 1] == movies[1..][i] && movies[j + 1] == movies[1..][j];
      assert MinRating(movies) == movies[0].rating || MinRating(movies) == movies[i + 1].rating;
      assert MaxRating(movies) == movies[0].rating || MaxRating(movies) == movies[j + 1].rating;
    } else {
      assert MinRating(movies) == movies[0].rating == MaxRating(movies);
    }
  }

  /** How far the coarse opinion moves the seed from the average. */
  function Offset(quickRating: Option<string>): int
  {
    if quickRating == Some("liked") then 100
    else if quickRating == Some("disliked") then -100
    else 0
  }

  /** `getInitialRating`: fixed seeds for the first movie, otherwise the
      collection's mean rating moved by the opinion and rounded. An
      unrecognised opinion (or none) counts as "fine". */
  function InitialRating(quickRating: Option<string>, existing: seq<Movie>): (r: int)
    ensures existing == [] && quickRating == Some("liked") ==> r == 1600
    ensures existing == [] && quickRating == Some("fine") ==> r == 1500
    ensures existing == [] && quickRating == Some("disliked") ==> r == 1400
    ensures existing == [] && Offset(quickRating) == 0 ==> r == BASE_RATING
    ensures existing != [] ==>
              MinRating(existing) + Offset(quickRating) <= r <= MaxRating(existing) + Offset(quickRating)
    // the nearest integer to mean + offset, a half going up
    ensures existing != [] ==>
              var seed := SumRatings(existing) as real / |existing| as real + Offset(quickRating) as real;
              seed - 0.5 < r as real <= seed + 0.5
  {
    if existing == [] then
      if quickRating == Some("liked") then 1600
      else if quickRating == Some("fine") then 1500
      else if quickRating == Some("disliked") then 1400
      else BASE_RATING
    else
      var avgRating := SumRatings(existing) as real / |existing| as real;
      MeanBetween(existing);
      var r :=
        if quickRating == Some("liked") then Round(avgRating + 100.0)
        else if quickRating == Some("fine") then Round(avgRating)
        else if quickRating == Some("disliked") then Round(avgRating - 100.0)
        else Round(avgRating);
      RoundBetween(avgRating + Offset(quickRating) as real,
                   MinRating(existing) + Offset(quickRating), MaxRating(existing) + Offset(quickRating));
      r
  }

  /** The mean rating lies between the lowest and the highest. */
  lemma MeanBetween(movies: seq<Movie>)
    requires movies != []
    ensures MinRating(movies) as real <= SumRatings(movies) as real / |movies| as real <= MaxRating(movies) as real
  {
    SumBetween(movies, MinRating(movies), MaxRating(movies));
    MeanWithin(SumRatings(movies), |movies|, MinRating(movies), MaxRating(movies));
  }

  lemma {:induction false} SumBetween(movies: seq<Movie>, lo: int, hi: int)
    requires forall i :: 0 <= i < |movies| ==> lo <= movies[i].rating <= hi
    ensures Times(|movies|, lo) <= SumRatings(movies) <= Times(|movies|, hi)
  {
    if movies != [] {
      var rest := movies[1..];
      assert forall i :: 0 <= i < |rest| ==> rest[i] == movies[i + 1];
      SumBetween(rest, lo, hi);
    }
  }

  /** On a non-empty collection the three opinions sit exactly 100 apart, and
      an unrecognised opinion seeds like "fine". */
  lemma InitialRatingOffsets(existing: seq<Movie>, other: string)
    requires existing != [] && other != "liked" && other != "disliked"
    ensures InitialRating(Some("liked"), existing) == InitialRating(Some("fine"), existing) + 100
    ensures InitialRating(Some("disliked"), existing) == InitialRating(Some("fine"), existing) - 100
    ensures InitialRating(Some(other), existing) == InitialRating(Some("fine"), existing)
    ensures InitialRating(None, existing) == InitialRating(Some("fine"), existing)
  {
    var avg := SumRatings(existing) as real / |existing| as real;
    RoundShift(avg, 100);
    RoundShift(avg, -100);
  }

  /** The seeds the source's tests expect for a collection rated 1600, 1400
      and 1500 (mean 1500). */
  lemma InitialRatingExamples(a: Movie, b: Movie, c: Movie)
    requires a.rating == 1600 && b.rating == 1400 && c.rating == 1500
    ensures InitialRating(Some("liked"), [a, b, c]) == 1600
    ensures InitialRating(Some("fine"), [a, b, c]) == 1500
    ensures InitialRating(Some("disliked"), [a, b, c]) == 1400
  {
    var s := [a, b, c];
    assert SumRatings([c]) == 1500 by { assert [c][1..] == []; }
    assert SumRatings([b, c]) == 2900 by { assert [b, c][1..] == [c]; }
    assert SumRatings(s) == 4500 by { assert s[1..] == [b, c]; }
    assert SumRatings(s) as real / 3.0 == 1500.0;
  }

  // ----- choosing opponents -----

  predicate StrictlyIncreasing(s: seq<int>)
  {
    forall i, j :: 0 <= i < j < |s| ==> s[i] < s[j]
  }

  /** Adds `x` to a strictly increasing list unless it is already there. */
  function InsertUnique(x: int, s: seq<int>): (r: seq<int>)
    requires StrictlyIncreasing(s)
    ensures StrictlyIncreasing(r)
    ensures forall y :: y in r <==> y == x || y in s
    ensures |r| <= |s| + 1
    ensures r != [] && (r[0] == x || (s != [] && r[0] == s[0]))
  {
    if s == [] || x < s[0] then [x] + s
    else if x == s[0] then s
    else [s[0]] + InsertUnique(x, s[1..])
  }

  /** `[...new Set(s)].sort((a, b) => a - b)`: the distinct values of `s`,
      ascending. */
  function SortedDistinct(s: seq<int>): (r: seq<int>)
    ensures StrictlyIncreasing(r)
    ensures forall y :: y in r <==> y in s
    ensures |r| <= |s|
  {
    if s == [] then [] else InsertUnique(s[0], SortedDistinct(s[1..]))
  }

  /** A strictly increasing list is determined by the values it holds. */
  lemma {:induction false} StrictlyIncreasingUnique(r: seq<int>, t: seq<int>)
    requires StrictlyIncreasing(r) && StrictlyIncreasing(t)
    requires forall y :: y in r <==> y in t
    ensures r == t
  {
    assert r != [] ==> r[0] in r;
    assert t != [] ==> t[0] in t;
    if r != [] && t != [] {
      assert r[0] in t && t[0] in r;
      assert r[0] == t[0];
      forall y | y in r[1..] ensures y in t[1..] {
        var i :| 0 <= i < |r| - 1 && r[1..][i] == y;
        assert r[i + 1] == y && r[0] < y;
        assert y in t;
        var j :| 0 <= j < |t| && t[j] == y;
        assert j != 0;
        assert t[1..][j - 1] == y;
      }
      forall y | y in t[1..] ensures y in r[1..] {
        var i :| 0 <= i < |t| - 1 && t[1..][i] == y;
        assert t[i + 1] == y && t[0] < y;
        assert y in r;
        var j :| 0 <= j < |r| && r[j] == y;
        assert j != 0;
        assert r[1..][j - 1] == y;
      }
      StrictlyIncreasingUnique(r[1..], t[1..]);
      assert r == [r[0]] + r[1..] && t == [t[0]] + t[1..];
    }
  }

  /** The probe positions `getBinarySearchIndices` pushes: top and bottom,
      then the median and the two quartiles, as far as `selectCount` allows. */
  predicate IsProbe(x: int, totalCount: int, selectCount: int)
  {
    (selectCount >= 1 && x == 0) ||
    (selectCount >= 2 && x == totalCount - 1) ||
    (selectCount >= 3 && x == totalCount / 2) ||
    (selectCount >= 4 && x == totalCount / 4) ||
    (selectCount >= 5 && x == 3 * totalCount / 4)
  }

  /** `getBinarySearchIndices(totalCount, selectCount)` */
  method BinarySearchIndices(totalCount: int, selectCount: int) returns (indices: seq<int>)
    ensures StrictlyIncreasing(indices)
    ensures forall x :: x in indices <==> IsProbe(x, totalCount, selectCount)
    ensures |indices| <= Max(0, selectCount)
    ensures totalCount >= 1 ==> forall i :: 0 <= i < |indices| ==> 0 <= indices[i] < totalCount
    ensures selectCount >= 5 && totalCount >= 5 ==>
              indices == [0, totalCount / 4, totalCount / 2, 3 * totalCount / 4, totalCount - 1]
  {
    var pushed := PushProbes(totalCount, selectCount);
    var distinct := SortedDistinct(pushed);
    indices := Prefix(distinct, selectCount);
    assert indices == distinct;
    if totalCount >= 1 {
      ProbesInRange(indices, totalCount, selectCount);
    }
    if selectCount >= 5 && totalCount >= 5 {
      FiveProbes(indices, totalCount, selectCount);
    }
  }

  /** The pushes of `getBinarySearchIndices`, before duplicates go. */
  method PushProbes(totalCount: int, selectCount: int) returns (pushed: seq<int>)
    ensures forall x :: x in pushed <==> IsProbe(x, totalCount, selectCount)
    ensures |pushed| <= Max(0, selectCount)
  {
    pushed := [];
    if selectCount >= 1 { pushed := pushed + [0]; }
    if selectCount >= 2 { pushed := pushed + [totalCount - 1]; }
    if selectCount >= 3 { pushed := pushed + [totalCount / 2]; }
    if selectCount >= 4 { pushed := pushed + [totalCount / 4]; }
    if selectCount >= 5 { pushed := pushed + [3 * totalCount / 4]; }
  }

  lemma ProbesInRange(indices: seq<int>, totalCount: int, selectCount: int)
    requires totalCount >= 1
    requires forall x :: x in indices <==> IsProbe(x, totalCount, selectCount)
    ensures forall i :: 0 <= i < |indices| ==> 0 <= indices[i] < totalCount
  {
    forall i | 0 <= i < |indices| ensures 0 <= indices[i] < totalCount {
      assert indices[i] in indices;
      assert IsProbe(indices[i], totalCount, selectCount);
    }
  }

  /** With five probes on at least five movies, the probes are distinct and
      come out as top, first quartile, median, third quartile, bottom. */
  lemma FiveProbes(indices: seq<int>, totalCount: int, selectCount: int)
    requires selectCount >= 5 && totalCount >= 5
    requires StrictlyIncreasing(indices)
    requires forall x :: x in indices <==> IsProbe(x, totalCount, selectCount)
    ensures indices == [0, totalCount / 4, totalCount / 2, 3 * totalCount / 4, totalCount - 1]
  {
    var n := totalCount;
    assert 0 < n / 4 < n / 2 < 3 * n / 4 < n - 1;
    StrictlyIncreasingUnique(indices, [0, n / 4, n / 2, 3 * n / 4, n - 1]);
  }

  /** The elements of `s` at positions `idx`, in that order. */
  function Pick<T>(s: seq<T>, idx: seq<int>): (r: seq<T>)
    requires forall i :: 0 <= i < |idx| ==> 0 <= idx[i] < |s|
    ensures |r| == |idx| && forall i :: 0 <= i < |idx| ==> r[i] == s[idx[i]]
  {
    seq(|idx|, i requires 0 <= i < |idx| => s[idx[i]])
  }

  /** Picking at strictly increasing positions takes each element at most once. */
  lemma {:induction false} PickSubMultiset<T>(s: seq<T>, idx: seq<int>)
    requires StrictlyIncreasing(idx)
    requires forall i :: 0 <= i < |idx| ==> 0 <= idx[i] < |s|
    ensures multiset(Pick(s, idx)) <= multiset(s)
  {
    if idx != [] {
      var n := |idx|;
      var k := idx[n - 1];
      var front := idx[..n - 1];
      assert forall i :: 0 <= i < |front| ==> front[i] < k;
      PickSubMultiset(s[..k], front);
      PickLast(s, idx, k, front);
      PrefixAndNext(s, k);
    }
  }

  lemma PickLast<T>(s: seq<T>, idx: seq<int>, k: int, front: seq<int>)
    requires idx != [] && k == idx[|idx| - 1] && front == idx[..|idx| - 1]
    requires StrictlyIncreasing(idx)
    requires forall i :: 0 <= i < |idx| ==> 0 <= idx[i] < |s|
    ensures forall i :: 0 <= i < |front| ==> 0 <= front[i] < k
    ensures Pick(s, idx) == Pick(s[..k], front) + [s[k]]
  {
    assert forall i :: 0 <= i < |front| ==> front[i] < k;
    assert Pick(s[..k], front) == Pick(s, front);
  }

  lemma PrefixAndNext<T>(s: seq<T>, k: int)
    requires 0 <= k < |s|
    ensures multiset(s[..k]) + multiset{s[k]} <= multiset(s)
  {
    assert s[..k + 1] == s[..k] + [s[k]];
    assert s == s[..k + 1] + s[k + 1..];
  }

  /** `selectComparisonMovies(newMovie, existingMovies, maxComparisons)`:
      every movie (best first) when there are at most `maxComparisons` of
      them, otherwise the movies at the probe positions of the best-first
      order. */
  method SelectComparisonMovies(existing: seq<Movie>, maxComparisons: int) returns (selected: seq<Movie>)
    ensures existing == [] ==> selected == []
    ensures |existing| <= maxComparisons ==> selected == SortDesc(existing, RatingOf)
    ensures NonIncreasing(selected, RatingOf)
    ensures multiset(selected) <= multiset(existing)
    ensures |selected| <= Max(0, maxComparisons)
    ensures |existing| > maxComparisons >= 2 ==>
              |selected| > 0 &&
              forall m :: m in existing ==> selected[|selected| - 1].rating <= m.rating <= selected[0].rating
    ensures |existing| > maxComparisons >= 5 ==> |selected| == 5
    ensures |existing| > maxComparisons ==> ProbedFrom(selected, SortDesc(existing, RatingOf), maxComparisons)
  {
    if |existing| == 0 {
      return [];
    }
    var sorted := SortDesc(existing, RatingOf);
    if |sorted| <= maxComparisons {
      selected := sorted;
      WholeSelection(existing, sorted, maxComparisons);
    } else {
      selected := ProbeSelect(existing, sorted, maxComparisons);
    }
  }

  /** With no more movies than comparisons, the whole best-first order is
      the selection. */
  lemma WholeSelection(existing: seq<Movie>, sorted: seq<Movie>, maxComparisons: int)
    requires sorted == SortDesc(existing, RatingOf) && |sorted| <= maxComparisons
    ensures NonIncreasing(sorted, RatingOf) && multiset(sorted) <= multiset(existing)
    ensures |sorted| <= Max(0, maxComparisons) && !(|existing| > maxComparisons)
  {
  }

  /** `selected` is `sorted` read at exactly the probe positions, in
      increasing position order. */
  ghost predicate ProbedFrom(selected: seq<Movie>, sorted: seq<Movie>, maxComparisons: int)
  {
    exists idx ::
      StrictlyIncreasing(idx) && (forall x :: x in idx <==> IsProbe(x, |sorted|, maxComparisons)) &&
      (forall i :: 0 <= i < |idx| ==> 0 <= idx[i] < |sorted|) && selected == Pick(sorted, idx)
  }

  /** The probing half of `selectComparisonMovies`: more movies than
      comparisons, so only the probe positions of `sorted` are taken. */
  method ProbeSelect(existing: seq<Movie>, sorted: seq<Movie>, maxComparisons: int) returns (selected: seq<Movie>)
    requires NonIncreasing(sorted, RatingOf) && multiset(sorted) == multiset(existing)
    requires |sorted| > maxComparisons
    ensures NonIncreasing(selected, RatingOf)
    ensures multiset(selected) <= multiset(existing)
    ensures |selected| <= Max(0, maxComparisons)
    ensures maxComparisons >= 2 ==>
              |selected| > 0 &&
              forall m :: m in existing ==> selected[|selected| - 1].rating <= m.rating <= selected[0].rating
    ensures maxComparisons >= 5 ==> |selected| == 5
    ensures ProbedFrom(selected, sorted, maxComparisons)
  {
    var indices := BinarySearchIndices(|sorted|, maxComparisons);
    selected := PickAt(sorted, indices);
    ProbesSpan(existing, sorted, indices, maxComparisons);
    ProbedAt(selected, sorted, maxComparisons, indices);
  }

  lemma ProbedAt(selected: seq<Movie>, sorted: seq<Movie>, maxComparisons: int, indices: seq<int>)
    requires StrictlyIncreasing(indices) && (forall x :: x in indices <==> IsProbe(x, |sorted|, maxComparisons))
    requires forall i :: 0 <= i < |indices| ==> 0 <= indices[i] < |sorted|
    requires selected == Pick(sorted, indices)
    ensures ProbedFrom(selected, sorted, maxComparisons)
  {
  }

  /** `for (const idx of indices) selected.push(sorted[idx])` */
  method PickAt(sorted: seq<Movie>, indices: seq<int>) returns (selected: seq<Movie>)
    requires forall i :: 0 <= i < |indices| ==> 0 <= indices[i] < |sorted|
    ensures selected == Pick(sorted, indices)
  {
    selected := [];
    for k := 0 to |indices|
      invariant selected == Pick(sorted, indices[..k])
    {
      selected := selected + [sorted[indices[k]]];
    }
    assert indices[..|indices|] == indices;
  }

  /** The probes of a best-first list come out best first, take each movie at
      most once, and (with at least two probes) reach both ends of it. */
  lemma ProbesSpan(existing: seq<Movie>, sorted: seq<Movie>, indices: seq<int>, maxComparisons: int)
    requires NonIncreasing(sorted, RatingOf) && multiset(sorted) == multiset(existing)
    requires |sorted| > maxComparisons
    requires StrictlyIncreasing(indices)
    requires forall x :: x in indices <==> IsProbe(x, |sorted|, maxComparisons)
    requires forall i :: 0 <= i < |indices| ==> 0 <= indices[i] < |sorted|
    ensures NonIncreasing(Pick(sorted, indices), RatingOf)
    ensures multiset(Pick(sorted, indices)) <= multiset(existing)
    ensures maxComparisons >= 2 ==>
              var picked := Pick(sorted, indices);
              |picked| > 0 &&
              forall m :: m in existing ==> picked[|picked| - 1].rating <= m.rating <= picked[0].rating
  {
    PickSubMultiset(sorted, indices);
    PickNonIncreasing(sorted, indices, RatingOf);
    if maxComparisons >= 2 {
      ProbeEnds(indices, |sorted|, maxComparisons);
      var picked := Pick(sorted, indices);
      assert picked[0] == sorted[0] && picked[|picked| - 1] == sorted[|sorted| - 1];
      SortedBounds(existing, sorted);
    }
  }

  /** Every movie lies between the two ends of the best-first order. */
  lemma SortedBounds(existing: seq<Movie>, sorted: seq<Movie>)
    requires NonIncreasing(sorted, RatingOf) && multiset(sorted) == multiset(existing) && sorted != []
    ensures forall m :: m in existing ==> sorted[|sorted| - 1].rating <= m.rating <= sorted[0].rating
  {
    forall m | m in existing ensures sorted[|sorted| - 1].rating <= m.rating <= sorted[0].rating {
      assert m in multiset(sorted);
      SortedHeadIsMax(sorted, RatingOf, m);
    }
  }

  /** Picking at increasing positions of a sorted list keeps it sorted. */
  lemma PickNonIncreasing<T>(s: seq<T>, idx: seq<int>, key: T -> int)
    requires NonIncreasing(s, key) && StrictlyIncreasing(idx)
    requires forall i :: 0 <= i < |idx| ==> 0 <= idx[i] < |s|
    ensures NonIncreasing(Pick(s, idx), key)
  {
    var picked := Pick(s, idx);
    forall i, j | 0 <= i < j < |picked| ensures key(picked[i]) >= key(picked[j]) {
      assert idx[i] < idx[j];
    }
  }

  /** With at least two probes over more positions than probes, the first
      probe is the top and the last the bottom. */
  lemma ProbeEnds(indices: seq<int>, totalCount: int, selectCount: int)
    requires totalCount > selectCount >= 2
    requires StrictlyIncreasing(indices)
    requires forall x :: x in indices <==> IsProbe(x, totalCount, selectCount)
    requires forall i :: 0 <= i < |indices| ==> 0 <= indices[i] < totalCount
    ensures |indices| > 0 && indices[0] == 0 && indices[|indices| - 1] == totalCount - 1
  {
    assert IsProbe(0, totalCount, selectCount) && IsProbe(totalCount - 1, totalCount, selectCount);
    assert 0 in indices && totalCount - 1 in indices;
    var k :| 0 <= k < |indices| && indices[k] == 0;
    assert indices[0] <= indices[k] || k == 0;
    var l :| 0 <= l < |indices| && indices[l] == totalCount - 1;
    assert indices[l] <= indices[|indices| - 1] || l == |indices| - 1;
  }

  // ----- score projection -----

  /** A movie with its derived display score and bucket. */
  datatype Scored = Scored(movie: Movie, score: int, scoreClass: ScoreClass)

  function MovieOf(s: Scored): Movie { s.movie }

  function ScoredRating(s: Scored): int { s.movie.rating }

  function ScoreValue(s: Scored): int { s.score }

  function WithScore(m: Movie, minRating: int, maxRating: int): Scored
  {
    var score := RatingToScore(m.rating, minRating, maxRating);
    Scored(m, score, ScoreClassOf(score))
  }

  /** The score and bucket of `x` are those of its rating on the scale
      `minRating`..`maxRating`. */
  predicate ScoredOn(x: Scored, minRating: int, maxRating: int)
  {
    x.score == RatingToScore(x.movie.rating, minRating, maxRating) && x.scoreClass == ScoreClassOf(x.score)
  }

  /** `recalculateAllScores(movies)` (and `getMoviesWithScores` over the stored
      list): every movie with its score against the collection's own
      extremes, best first; the movies come out in the order of the stable
      best-first sort. */
  function RecalculateAllScores(movies: seq<Movie>): (r: seq<Scored>)
    ensures |r| == |movies| && NonIncreasing(r, ScoredRating)
  {
    if movies == [] then []
    else SortDesc(ScoreEach(movies, MinRating(movies), MaxRating(movies)), ScoredRating)
  }

  /** What `recalculateAllScores` returns: the collection in stable
      best-first order, each movie scored on the collection's scale. Kept
      apart from the function so that its facts are paid for only where
      they are used. */
  lemma RecalculatedOrder(movies: seq<Movie>)
    ensures var r := RecalculateAllScores(movies);
            Map(r, MovieOf) == SortDesc(movies, RatingOf) &&
            |r| == |movies| && multiset(Map(r, MovieOf)) == multiset(movies) &&
            NonIncreasing(r, ScoredRating) &&
            (movies != [] ==> forall x :: x in multiset(r) ==> ScoredOn(x, MinRating(movies), MaxRating(movies)))
  {
    if movies != [] {
      var lo, hi := MinRating(movies), MaxRating(movies);
      var scored := ScoreEach(movies, lo, hi);
      MapSortDesc(scored, MovieOf, ScoredRating, RatingOf);
    }
  }

  /** `movies.map(m => ({ ...m, score, scoreClass }))` on a fixed scale. */
  function ScoreEach(movies: seq<Movie>, minRating: int, maxRating: int): (r: seq<Scored>)
    ensures Map(r, MovieOf) == movies
    ensures forall x :: x in multiset(r) ==> ScoredOn(x, minRating, maxRating)
  {
    if movies == [] then []
    else
      var rest := ScoreEach(movies[1..], minRating, maxRating);
      var r := [WithScore(movies[0], minRating, maxRating)] + rest;
      assert Map(r, MovieOf) == [movies[0]] + Map(rest, MovieOf);
      r
  }

  /** Every score is the rating placed on the collection's own scale, every
      bucket agrees with its score, the best movie scores 10 and the worst 1
      (or every movie 7.5 when all ratings coincide). */
  lemma RecalculatedScores(movies: seq<Movie>)
    requires movies != []
    ensures |RecalculateAllScores(movies)| == |movies|
    ensures forall i :: 0 <= i < |movies| ==>
              ScoredOn(RecalculateAllScores(movies)[i], MinRating(movies), MaxRating(movies))
    ensures MinRating(movies) < MaxRating(movies) ==>
              var r := RecalculateAllScores(movies);
              r[0].score == 100 && r[|r| - 1].score == 10 &&
              forall i :: 0 <= i < |r| ==> 10 <= r[i].score <= 100
    ensures MinRating(movies) == MaxRating(movies) ==>
              forall i :: 0 <= i < |movies| ==> RecalculateAllScores(movies)[i].score == 75
  {
    RecalculatedOrder(movies);
    RankingScores(movies, RecalculateAllScores(movies));
  }

  lemma RankingScores(movies: seq<Movie>, r: seq<Scored>)
    requires movies != [] && |r| == |movies|
    requires NonIncreasing(r, ScoredRating) && multiset(Map(r, MovieOf)) == multiset(movies)
    requires forall x :: x in multiset(r) ==> ScoredOn(x, MinRating(movies), MaxRating(movies))
    ensures forall i :: 0 <= i < |r| ==> ScoredOn(r[i], MinRating(movies), MaxRating(movies))
    ensures MinRating(movies) < MaxRating(movies) ==>
              r[0].score == 100 && r[|r| - 1].score == 10 &&
              forall i :: 0 <= i < |r| ==> 10 <= r[i].score <= 100
    ensures MinRating(movies) == MaxRating(movies) ==> forall i :: 0 <= i < |r| ==> r[i].score == 75
  {
    var lo, hi := MinRating(movies), MaxRating(movies);
    ScoredInRange(movies, r);
    ScoredEnds(movies, r);
    if lo < hi {
      ScoresWithinScale(r, lo, hi);
    }
  }

  /** Every entry is scored on the collection's scale and its rating lies
      between the collection's extremes. */
  lemma ScoredInRange(movies: seq<Movie>, r: seq<Scored>)
    requires movies != [] && multiset(Map(r, MovieOf)) == multiset(movies)
    requires forall x :: x in multiset(r) ==> ScoredOn(x, MinRating(movies), MaxRating(movies))
    ensures forall i :: 0 <= i < |r| ==>
              ScoredOn(r[i], MinRating(movies), MaxRating(movies)) &&
              MinRating(movies) <= r[i].movie.rating <= MaxRating(movies)
  {
    var lo, hi := MinRating(movies), MaxRating(movies);
    var ms := Map(r, MovieOf);
    forall i | 0 <= i < |r| ensures ScoredOn(r[i], lo, hi) && lo <= r[i].movie.rating <= hi {
      assert r[i] in multiset(r);
      assert ms[i] == r[i].movie;
      assert r[i].movie in multiset(movies);
    }
  }

  /** The best-first list starts at the collection's highest rating and
      ends at its lowest. */
  lemma ScoredEnds(movies: seq<Movie>, r: seq<Scored>)
    requires movies != [] && |r| == |movies|
    requires NonIncreasing(r, ScoredRating) && multiset(Map(r, MovieOf)) == multiset(movies)
    ensures r[0].movie.rating == MaxRating(movies) && r[|r| - 1].movie.rating == MinRating(movies)
  {
    var ms := Map(r, MovieOf);
    assert NonIncreasing(ms, RatingOf);
    assert r[0].movie == ms[0] && r[|r| - 1].movie == ms[|ms| - 1];
    ExtremesAttained(movies);
    SortedHeadIsHighest(movies, ms);
    SortedLastIsLowest(movies, ms);
  }

  lemma SortedHeadIsHighest(movies: seq<Movie>, ms: seq<Movie>)
    requires movies != [] && NonIncreasing(ms, RatingOf) && multiset(ms) == multiset(movies)
    requires exists i :: 0 <= i < |movies| && movies[i].rating == MaxRating(movies)
    ensures |ms| > 0 && ms[0].rating == MaxRating(movies)
  {
    var iHi :| 0 <= iHi < |movies| && movies[iHi].rating == MaxRating(movies);
    assert movies[iHi] in multiset(ms);
    SortedHeadIsMax(ms, RatingOf, movies[iHi]);
    assert ms[0] in multiset(movies);
    var k :| 0 <= k < |movies| && movies[k] == ms[0];
  }

  lemma SortedLastIsLowest(movies: seq<Movie>, ms: seq<Movie>)
    requires movies != [] && NonIncreasing(ms, RatingOf) && multiset(ms) == multiset(movies)
    requires exists i :: 0 <= i < |movies| && movies[i].rating == MinRating(movies)
    ensures |ms| > 0 && ms[|ms| - 1].rating == MinRating(movies)
  {
    var iLo :| 0 <= iLo < |movies| && movies[iLo].rating == MinRating(movies);
    assert movies[iLo] in multiset(ms);
    SortedHeadIsMax(ms, RatingOf, movies[iLo]);
    assert ms[|ms| - 1] in multiset(movies);
    var k :| 0 <= k < |movies| && movies[k] == ms[|ms| - 1];
  }

  lemma ScoresWithinScale(r: seq<Scored>, minRating: int, maxRating: int)
    requires minRating < maxRating
    requires forall i :: 0 <= i < |r| ==> ScoredOn(r[i], minRating, maxRating)
    requires forall i :: 0 <= i < |r| ==> minRating <= r[i].movie.rating <= maxRating
    ensures forall i :: 0 <= i < |r| ==> 10 <= r[i].score <= 100
  {
    forall i | 0 <= i < |r| ensures 10 <= r[i].score <= 100 {
      ScoreWithinScale(r[i], minRating, maxRating);
    }
  }

  lemma ScoreWithinScale(x: Scored, minRating: int, maxRating: int)
    requires ScoredOn(x, minRating, maxRating) && minRating < maxRating
    requires minRating <= x.movie.rating <= maxRating
    ensures 10 <= x.score <= 100
  {
  }
}
