/** The views the social page derives from the scored collection (the output
    of `getMoviesWithScores`, best first): the taste profile and the curated
    lists. Genre and decade dictionaries are groups in insertion order; every
    score and average is in tenths and is computed exactly. */
module Curation {
  import opened Common
  import opened Lists
  import opened Groups
  import opened Records
  import opened Elo
  import Social
  import Storage

  /** The genres a scored movie lists. */
  function ScoredGenres(x: Scored): seq<string> { x.movie.genres }

  /** `Math.floor(year / 10) * 10`; Dafny's division by a positive number
      already rounds down, negative years included. */
  function DecadeOf(year: int): (d: int)
    ensures d <= year < d + 10 && d % 10 == 0
  {
    year / 10 * 10
  }

  /** The decade a movie is filed under: none when its year is missing or 0
      (the source tests `if (movie.year)`). */
  function DecadeKeys(x: Scored): (r: seq<int>)
    ensures |r| <= 1
    ensures r == [] <==> x.movie.year.None? || x.movie.year.value == 0
    ensures r != [] ==> r[0] % 10 == 0 && r[0] <= x.movie.year.value < r[0] + 10
  {
    match x.movie.year
    case Some(y) => if y != 0 then [DecadeOf(y)] else []
    case None => []
  }

  function AddedAt(x: Scored): int { x.movie.addedAt }

  function SumOfScores(xs: seq<Scored>): int
  {
    if xs == [] then 0 else xs[0].score + SumOfScores(xs[1..])
  }

  /** `Math.round(total / count * 10) / 10` in tenths: the mean score rounded
      to a tenth. The source only averages non-empty lists; the empty list
      is given 0. */
  function MeanScore(xs: seq<Scored>): (r: int)
    ensures xs == [] ==> r == 0
    // the nearest integer to the mean score, a half going up
    ensures xs != [] ==>
              var mean := SumOfScores(xs) as real / |xs| as real;
              mean - 0.5 < r as real <= mean + 0.5
  {
    if xs == [] then 0 else Round(SumOfScores(xs) as real / |xs| as real)
  }

  /** The mean lies between the smallest and the largest score. */
  lemma {:induction false} MeanScoreBetween(xs: seq<Scored>, lo: int, hi: int)
    requires xs != [] && forall i :: 0 <= i < |xs| ==> lo <= xs[i].score <= hi
    ensures lo <= MeanScore(xs) <= hi
  {
    SumOfScoresBetween(xs, lo, hi);
    MeanWithin(SumOfScores(xs), |xs|, lo, hi);
    RoundBetween(SumOfScores(xs) as real / |xs| as real, lo, hi);
  }

  lemma {:induction false} SumOfScoresBetween(xs: seq<Scored>, lo: int, hi: int)
    requires forall i :: 0 <= i < |xs| ==> lo <= xs[i].score <= hi
    ensures Times(|xs|, lo) <= SumOfScores(xs) <= Times(|xs|, hi)
  {
    if xs != [] {
      var rest := xs[1..];
      assert forall i :: 0 <= i < |rest| ==> rest[i] == xs[i + 1];
      SumOfScoresBetween(rest, lo, hi);
    }
  }

  // ---------------------------------------------------------------------
  // Rating distribution

  datatype Distribution = Distribution(excellent: nat, good: nat, average: nat, belowAverage: nat, poor: nat)

  function DistributionTotal(d: Distribution): nat
  {
    d.excellent + d.good + d.average + d.belowAverage + d.poor
  }

  /** The tests of the five `filter(...).length` counts of
      `calculateTasteProfile`, with the thresholds 8.5, 7, 5.5 and 4 in
      tenths. */
  predicate IsExcellent(x: Scored) { x.score >= 85 }
  predicate IsGood(x: Scored) { x.score >= 70 && x.score < 85 }
  predicate IsAverage(x: Scored) { x.score >= 55 && x.score < 70 }
  predicate IsBelowAverage(x: Scored) { x.score >= 40 && x.score < 55 }
  predicate IsPoor(x: Scored) { x.score < 40 }

  function DistributionOf(movies: seq<Scored>): (r: Distribution)
    ensures DistributionTotal(r) == |movies|
  {
    BucketsPartition(movies);
    Distribution(
      CountWhere(movies, IsExcellent), CountWhere(movies, IsGood), CountWhere(movies, IsAverage),
      CountWhere(movies, IsBelowAverage), CountWhere(movies, IsPoor))
  }

  /** The buckets partition the scores: every movie is counted exactly once,
      so the counts add up to the number of movies. */
  lemma {:induction false} BucketsPartition(movies: seq<Scored>)
    ensures CountWhere(movies, IsExcellent) + CountWhere(movies, IsGood) + CountWhere(movies, IsAverage) +
            CountWhere(movies, IsBelowAverage) + CountWhere(movies, IsPoor) == |movies|
  {
    if movies != [] {
      var x, t := movies[0], movies[1..];
      BucketsPartition(t);
      assert CountWhere(movies, IsExcellent) == (if IsExcellent(x) then 1 else 0) + CountWhere(t, IsExcellent);
      assert CountWhere(movies, IsGood) == (if IsGood(x) then 1 else 0) + CountWhere(t, IsGood);
      assert CountWhere(movies, IsAverage) == (if IsAverage(x) then 1 else 0) + CountWhere(t, IsAverage);
      assert CountWhere(movies, IsBelowAverage) == (if IsBelowAverage(x) then 1 else 0) + CountWhere(t, IsBelowAverage);
      assert CountWhere(movies, IsPoor) == (if IsPoor(x) then 1 else 0) + CountWhere(t, IsPoor);
    }
  }

  function ClassOfScored(x: Scored): ScoreClass { ScoreClassOf(x.score) }

  /** Each bucket counts the movies `getScoreClass` puts in the matching
      class. */
  lemma DistributionClasses(movies: seq<Scored>)
    ensures var d := DistributionOf(movies);
            d.excellent == CountWhere(movies, x => ClassOfScored(x) == Excellent) &&
            d.good == CountWhere(movies, x => ClassOfScored(x) == Good) &&
            d.average == CountWhere(movies, x => ClassOfScored(x) == Average) &&
            d.belowAverage == CountWhere(movies, x => ClassOfScored(x) == Below) &&
            d.poor == CountWhere(movies, x => ClassOfScored(x) == Poor)
  {
    CountWhereSame(movies, IsExcellent, x => ClassOfScored(x) == Excellent);
    CountWhereSame(movies, IsGood, x => ClassOfScored(x) == Good);
    CountWhereSame(movies, IsAverage, x => ClassOfScored(x) == Average);
    CountWhereSame(movies, IsBelowAverage, x => ClassOfScored(x) == Below);
    CountWhereSame(movies, IsPoor, x => ClassOfScored(x) == Poor);
  }

  // ---------------------------------------------------------------------
  // Taste profile

  datatype GenrePreference = GenrePreference(genre: string, avgScore: int, count: nat)

  /** A decade preference; the source labels it `decade + 's'`. */
  datatype DecadePreference = DecadePreference(decade: int, avgScore: int, count: nat)

  datatype TasteProfile = TasteProfile(
    genrePreferences: seq<GenrePreference>,
    favoriteGenres: seq<string>,
    decadePreferences: seq<DecadePreference>,
    distribution: Distribution,
    avgRating: int,
    totalMovies: nat,
    totalComparisons: int,
    topRated: seq<Scored>,
    recentlyAdded: seq<Scored>)

  function GenreOfPreference(p: GenrePreference): string { p.genre }

  function GenreAverage(p: GenrePreference): int { p.avgScore }

  function DecadeOfPreference(p: DecadePreference): int { p.decade }

  function GenrePreferenceOf(g: Group<string, Scored>): GenrePreference
  {
    GenrePreference(g.key, MeanScore(g.members), |g.members|)
  }

  function DecadePreferenceOf(g: Group<int, Scored>): DecadePreference
  {
    DecadePreference(g.key, MeanScore(g.members), |g.members|)
  }

  /** The genre entries of the profile, best average first, ties in order of
      first appearance. */
  function GenrePreferences(movies: seq<Scored>): (r: seq<GenrePreference>)
    ensures NonIncreasing(r, GenreAverage)
    ensures DistinctIds(r, GenreOfPreference)
    ensures forall i :: 0 <= i < |r| ==>
              r[i].count == |Collect(movies, ScoredGenres, r[i].genre)| > 0 &&
              r[i].avgScore == MeanScore(Collect(movies, ScoredGenres, r[i].genre))
    ensures forall g :: HasId(r, GenreOfPreference, g) <==> exists i :: 0 <= i < |movies| && g in ScoredGenres(movies[i])
  {
    var gs := Grouped(movies, ScoredGenres);
    var entries := Map(gs, GenrePreferenceOf);
    var r := SortDesc(entries, GenreAverage);
    GenreEntries(movies, entries);
    GenreRanking(movies, entries, r);
    GenreCoverage(movies, r);
    r
  }

  /** A genre has an entry exactly when some movie of the collection lists it. */
  lemma GenreCoverage(movies: seq<Scored>, r: seq<GenrePreference>)
    requires multiset(r) == multiset(Map(Grouped(movies, ScoredGenres), GenrePreferenceOf))
    ensures forall g :: HasId(r, GenreOfPreference, g) <==> exists i :: 0 <= i < |movies| && g in ScoredGenres(movies[i])
  {
    var gs := Grouped(movies, ScoredGenres);
    assert forall i :: 0 <= i < |gs| ==> GenreOfPreference(GenrePreferenceOf(gs[i])) == KeyOf(gs[i]);
    EntryKeys(movies, ScoredGenres, GenrePreferenceOf, GenreOfPreference, r);
  }

  lemma GenreRanking(movies: seq<Scored>, entries: seq<GenrePreference>, r: seq<GenrePreference>)
    requires multiset(r) == multiset(entries) && DistinctIds(entries, GenreOfPreference)
    requires forall i :: 0 <= i < |entries| ==>
               entries[i].count == |Collect(movies, ScoredGenres, entries[i].genre)| > 0 &&
               entries[i].avgScore == MeanScore(Collect(movies, ScoredGenres, entries[i].genre))
    ensures DistinctIds(r, GenreOfPreference)
    ensures forall i :: 0 <= i < |r| ==>
              r[i].count == |Collect(movies, ScoredGenres, r[i].genre)| > 0 &&
              r[i].avgScore == MeanScore(Collect(movies, ScoredGenres, r[i].genre))
  {
    DistinctSub(r, entries, GenreOfPreference);
    forall i | 0 <= i < |r|
      ensures r[i].count == |Collect(movies, ScoredGenres, r[i].genre)| > 0
      ensures r[i].avgScore == MeanScore(Collect(movies, ScoredGenres, r[i].genre))
    {
      assert r[i] in multiset(entries);
    }
  }

  lemma GenreEntries(movies: seq<Scored>, entries: seq<GenrePreference>)
    requires entries == Map(Grouped(movies, ScoredGenres), GenrePreferenceOf)
    ensures DistinctIds(entries, GenreOfPreference)
    ensures forall i :: 0 <= i < |entries| ==>
              entries[i].count == |Collect(movies, ScoredGenres, entries[i].genre)| > 0 &&
              entries[i].avgScore == MeanScore(Collect(movies, ScoredGenres, entries[i].genre))
  {
    var gs := Grouped(movies, ScoredGenres);
    GroupedSpec(movies, ScoredGenres, "");
    forall i, j | 0 <= i < j < |entries| ensures GenreOfPreference(entries[i]) != GenreOfPreference(entries[j]) {
      assert KeyOf(gs[i]) != KeyOf(gs[j]);
    }
    forall i | 0 <= i < |entries|
      ensures entries[i].count == |Collect(movies, ScoredGenres, entries[i].genre)| > 0
      ensures entries[i].avgScore == MeanScore(Collect(movies, ScoredGenres, entries[i].genre))
    {
      GroupMembers(movies, ScoredGenres, i);
      GroupNonEmpty(movies, ScoredGenres, i);
    }
  }

  /** The decade entries of the profile, latest decade first. */
  function DecadePreferences(movies: seq<Scored>): (r: seq<DecadePreference>)
    ensures forall i, j :: 0 <= i < j < |r| ==> r[i].decade > r[j].decade
    ensures forall i :: 0 <= i < |r| ==>
              r[i].count == |Collect(movies, DecadeKeys, r[i].decade)| > 0 &&
              r[i].avgScore == MeanScore(Collect(movies, DecadeKeys, r[i].decade))
    ensures forall d :: HasId(r, DecadeOfPreference, d) <==> exists i :: 0 <= i < |movies| && d in DecadeKeys(movies[i])
  {
    var gs := Grouped(movies, DecadeKeys);
    var entries := Map(gs, DecadePreferenceOf);
    var r := SortDesc(entries, DecadeOfPreference);
    DecadeEntries(movies, entries);
    DecadeRanking(movies, entries, r);
    DecadeCoverage(movies, r);
    r
  }

  /** A decade has an entry exactly when some movie of the collection has a
      (non-zero) year in it. */
  lemma DecadeCoverage(movies: seq<Scored>, r: seq<DecadePreference>)
    requires multiset(r) == multiset(Map(Grouped(movies, DecadeKeys), DecadePreferenceOf))
    ensures forall d :: HasId(r, DecadeOfPreference, d) <==> exists i :: 0 <= i < |movies| && d in DecadeKeys(movies[i])
  {
    var gs := Grouped(movies, DecadeKeys);
    assert forall i :: 0 <= i < |gs| ==> DecadeOfPreference(DecadePreferenceOf(gs[i])) == KeyOf(gs[i]);
    EntryKeys(movies, DecadeKeys, DecadePreferenceOf, DecadeOfPreference, r);
  }

  lemma DecadeRanking(movies: seq<Scored>, entries: seq<DecadePreference>, r: seq<DecadePreference>)
    requires NonIncreasing(r, DecadeOfPreference)
    requires multiset(r) == multiset(entries) && DistinctIds(entries, DecadeOfPreference)
    requires forall i :: 0 <= i < |entries| ==>
               entries[i].count == |Collect(movies, DecadeKeys, entries[i].decade)| > 0 &&
               entries[i].avgScore == MeanScore(Collect(movies, DecadeKeys, entries[i].decade))
    ensures forall i, j :: 0 <= i < j < |r| ==> r[i].decade > r[j].decade
    ensures forall i :: 0 <= i < |r| ==>
              r[i].count == |Collect(movies, DecadeKeys, r[i].decade)| > 0 &&
              r[i].avgScore == MeanScore(Collect(movies, DecadeKeys, r[i].decade))
  {
    DistinctSub(r, entries, DecadeOfPreference);
    forall i, j | 0 <= i < j < |r| ensures r[i].decade > r[j].decade {
      assert DecadeOfPreference(r[i]) >= DecadeOfPreference(r[j]);
      assert DecadeOfPreference(r[i]) != DecadeOfPreference(r[j]);
    }
    forall i | 0 <= i < |r|
      ensures r[i].count == |Collect(movies, DecadeKeys, r[i].decade)| > 0
      ensures r[i].avgScore == MeanScore(Collect(movies, DecadeKeys, r[i].decade))
    {
      assert r[i] in multiset(entries);
    }
  }

  lemma DecadeEntries(movies: seq<Scored>, entries: seq<DecadePreference>)
    requires entries == Map(Grouped(movies, DecadeKeys), DecadePreferenceOf)
    ensures DistinctIds(entries, DecadeOfPreference)
    ensures forall i :: 0 <= i < |entries| ==>
              entries[i].count == |Collect(movies, DecadeKeys, entries[i].decade)| > 0 &&
              entries[i].avgScore == MeanScore(Collect(movies, DecadeKeys, entries[i].decade))
  {
    var gs := Grouped(movies, DecadeKeys);
    GroupedSpec(movies, DecadeKeys, 0);
    forall i, j | 0 <= i < j < |entries| ensures DecadeOfPreference(entries[i]) != DecadeOfPreference(entries[j]) {
      assert KeyOf(gs[i]) != KeyOf(gs[j]);
    }
    forall i | 0 <= i < |entries|
      ensures entries[i].count == |Collect(movies, DecadeKeys, entries[i].decade)| > 0
      ensures entries[i].avgScore == MeanScore(Collect(movies, DecadeKeys, entries[i].decade))
    {
      GroupMembers(movies, DecadeKeys, i);
      GroupNonEmpty(movies, DecadeKeys, i);
    }
  }

  /** What `calculateTasteProfile` promises about a profile built from
      `movies` and `stats`. */
  predicate ProfileShape(p: TasteProfile, movies: seq<Scored>, stats: map<string, int>)
  {
    p.genrePreferences == Prefix(GenrePreferences(movies), 10) &&
    |p.genrePreferences| <= 10 && |p.favoriteGenres| == Min(3, |p.genrePreferences|) &&
    (forall i :: 0 <= i < |p.favoriteGenres| ==> p.favoriteGenres[i] == p.genrePreferences[i].genre) &&
    NonIncreasing(p.genrePreferences, GenreAverage) &&
    p.decadePreferences == DecadePreferences(movies) &&
    p.distribution == DistributionOf(movies) &&
    DistributionTotal(p.distribution) == p.totalMovies == |movies| &&
    p.avgRating == MeanScore(movies) &&
    p.totalComparisons == Storage.StatOf(stats, Storage.TOTAL_COMPARISONS) &&
    p.topRated == movies[..Min(5, |movies|)] &&
    p.recentlyAdded == Top(movies, AddedAt, 5)
  }

  /** `calculateTasteProfile()` over the scored collection and the stats:
      null for an empty collection; otherwise the ten best-liked genres and
      the three favourite ones (the head of the same ranking), the decades
      latest first, the score distribution, the mean score, the totals, the
      five best movies and the five added last. */
  function TasteProfileOf(movies: seq<Scored>, stats: map<string, int>): (r: Option<TasteProfile>)
    ensures r.None? <==> movies == []
    ensures r.Some? ==> ProfileShape(r.value, movies, stats)
  {
    if movies == [] then None
    else
      var prefs := GenrePreferences(movies);
      var dist := DistributionOf(movies);
      var p := TasteProfile(
        Prefix(prefs, 10),
        Map(Prefix(prefs, 3), GenreOfPreference),
        DecadePreferences(movies),
        dist,
        MeanScore(movies),
        |movies|,
        Storage.StatOf(stats, Storage.TOTAL_COMPARISONS),
        Prefix(movies, 5),
        Top(movies, AddedAt, 5));
      ProfileFacts(p, movies, stats, prefs);
      Some(p)
  }

  lemma ProfileFacts(p: TasteProfile, movies: seq<Scored>, stats: map<string, int>, prefs: seq<GenrePreference>)
    requires prefs == GenrePreferences(movies)
    requires p.genrePreferences == Prefix(prefs, 10) && p.favoriteGenres == Map(Prefix(prefs, 3), GenreOfPreference)
    requires p.decadePreferences == DecadePreferences(movies) && p.distribution == DistributionOf(movies)
    requires DistributionTotal(p.distribution) == p.totalMovies == |movies| && p.avgRating == MeanScore(movies)
    requires p.totalComparisons == Storage.StatOf(stats, Storage.TOTAL_COMPARISONS)
    requires p.topRated == Prefix(movies, 5) && p.recentlyAdded == Top(movies, AddedAt, 5)
    ensures ProfileShape(p, movies, stats)
  {
    SortedPrefix(prefs, p.genrePreferences, GenreAverage);
  }

  // ---------------------------------------------------------------------
  // Curated lists

  /** Which list `generateCuratedLists` built; the id, title and
      description strings the source derives from it are left out. */
  datatype ListKind =
    | TopOverall
    | GenreList(genre: string)
    | DecadeList(decade: int)
    | RecentlyAdded
    | TaggedFavorites
    | Rewatchable

  datatype CuratedList = CuratedList(kind: ListKind, icon: string, movies: seq<Scored>)

  function KindOf(l: CuratedList): ListKind { l.kind }

  /** The fewest movies a list (and the collection) must have. */
  const MIN_LIST: nat := 3

  /** The most movies a list shows. */
  const MAX_LIST: nat := 10

  /** The icon of each kind of list; a genre list shows its genre's icon. */
  function IconOf(kind: ListKind): string
  {
    match kind
    case TopOverall => "\U{1F3C6}"
    case GenreList(g) => Social.GenreIcon(g)
    case DecadeList(_) => "\U{1F4C5}"
    case RecentlyAdded => "\U{1F195}"
    case TaggedFavorites => "\U{1F3F7}\U{FE0F}"
    case Rewatchable => "\U{1F504}"
  }

  predicate HasTags(x: Scored) { x.movie.tags != [] }

  predicate IsRewatchable(x: Scored) { "rewatchable" in x.movie.tags }

  /** What qualifies a movie for a list of the given kind. */
  predicate Belongs(kind: ListKind, x: Scored)
  {
    match kind
    case GenreList(g) => g in x.movie.genres
    case DecadeList(d) => d in DecadeKeys(x)
    case TaggedFavorites => HasTags(x)
    case Rewatchable => IsRewatchable(x)
    case _ => true
  }

  /** The order a list shows its movies in: the recent list by the time they
      were added, the top and tagged lists in the collection's own order
      (best first), the others by score. */
  predicate InOrder(l: CuratedList)
  {
    match l.kind
    case RecentlyAdded => NonIncreasing(l.movies, AddedAt)
    case TopOverall => true
    case TaggedFavorites => true
    case _ => NonIncreasing(l.movies, ScoreValue)
  }

  /** A list as the source promises it: its own icon, between 3 and 10
      movies, each from the collection and qualifying for the list, in the
      list's order. */
  predicate Fits(l: CuratedList, movies: seq<Scored>)
  {
    l.icon == IconOf(l.kind) &&
    MIN_LIST <= |l.movies| <= MAX_LIST && InOrder(l) &&
    forall i :: 0 <= i < |l.movies| ==> l.movies[i] in movies && Belongs(l.kind, l.movies[i])
  }

  predicate AllFit(ls: seq<CuratedList>, movies: seq<Scored>)
  {
    forall i :: 0 <= i < |ls| ==> Fits(ls[i], movies)
  }

  predicate IsGenreList(l: CuratedList) { l.kind.GenreList? }

  predicate IsDecadeList(l: CuratedList) { l.kind.DecadeList? }

  predicate IsTopOverall(l: CuratedList) { l.kind.TopOverall? }

  function GroupSize<K>(g: Group<K, Scored>): int { |g.members| }

  predicate IsLarge<K>(g: Group<K, Scored>) { |g.members| >= MIN_LIST }

  /** `sorted.slice(0, 10)` after sorting by score, best first. */
  function Best(xs: seq<Scored>): (r: seq<Scored>)
    ensures |r| == Min(MAX_LIST, |xs|)
    ensures NonIncreasing(r, ScoreValue)
    ensures multiset(r) <= multiset(xs)
    ensures forall x :: x in multiset(xs) - multiset(r) ==> |r| == MAX_LIST && x.score <= r[MAX_LIST - 1].score
  {
    Top(xs, ScoreValue, MAX_LIST)
  }

  /** Every group member comes from the collection and lists the group's
      key. */
  lemma GroupedFromItems<K>(movies: seq<Scored>, keys: Scored -> seq<K>, g: Group<K, Scored>)
    requires g in Grouped(movies, keys)
    ensures forall i :: 0 <= i < |g.members| ==> g.members[i] in movies && g.key in keys(g.members[i])
  {
    var gs := Grouped(movies, keys);
    var j :| 0 <= j < |gs| && gs[j] == g;
    GroupMembers(movies, keys, j);
    forall i | 0 <= i < |g.members| ensures g.members[i] in movies && g.key in keys(g.members[i]) {
      CollectListsKey(movies, keys, g.key, g.members[i]);
    }
  }

  /** The list shown for a group: its best ten members. */
  lemma GroupListFits<K>(movies: seq<Scored>, keys: Scored -> seq<K>, g: Group<K, Scored>, l: CuratedList)
    requires g in Grouped(movies, keys) && |g.members| >= MIN_LIST
    requires l.movies == Best(g.members) && l.icon == IconOf(l.kind)
    requires forall x :: g.key in keys(x) ==> Belongs(l.kind, x)
    requires l.kind.GenreList? || l.kind.DecadeList?
    ensures Fits(l, movies)
  {
    GroupedFromItems(movies, keys, g);
    forall i | 0 <= i < |l.movies| ensures l.movies[i] in movies && Belongs(l.kind, l.movies[i]) {
      assert l.movies[i] in multiset(g.members);
    }
  }

  /** The groups given a list: the first `cap` of the groups with at least
      three members, after sorting by `key`. A large group is left out only
      when `cap` groups were taken, none ranking below it. */
  function Picked<K(==)>(movies: seq<Scored>, keys: Scored -> seq<K>, key: Group<K, Scored> -> int, cap: nat)
    : (r: seq<Group<K, Scored>>)
    ensures |r| <= cap && NonIncreasing(r, key)
    ensures multiset(r) <= multiset(Grouped(movies, keys))
    ensures forall i :: 0 <= i < |r| ==> r[i] in Grouped(movies, keys) && |r[i].members| >= MIN_LIST
    ensures forall j :: 0 <= j < |Grouped(movies, keys)| && IsLarge(Grouped(movies, keys)[j]) &&
                        Grouped(movies, keys)[j] !in r ==>
              |r| == cap && (cap > 0 ==> key(Grouped(movies, keys)[j]) <= key(r[cap - 1]))
  {
    var gs := Grouped(movies, keys);
    PickedFacts(gs, key, cap);
    LeftOutFacts(gs, key, cap);
    Prefix(SortDesc(Filter(gs, IsLarge), key), cap)
  }

  /** Each group is picked at most once, so no key is picked twice. */
  lemma PickedOnce<K>(movies: seq<Scored>, keys: Scored -> seq<K>, key: Group<K, Scored> -> int, cap: nat)
    ensures DistinctKeys(Picked(movies, keys, key, cap))
  {
    GroupedDistinct(movies, keys);
    DistinctSub(Picked(movies, keys, key, cap), Grouped(movies, keys), KeyOf);
  }

  lemma PickedFacts<K>(gs: seq<Group<K, Scored>>, key: Group<K, Scored> -> int, cap: nat)
    ensures var r := Prefix(SortDesc(Filter(gs, IsLarge), key), cap);
            |r| <= cap && NonIncreasing(r, key) && multiset(r) <= multiset(gs) &&
            forall i :: 0 <= i < |r| ==> r[i] in gs && |r[i].members| >= MIN_LIST
  {
    var large := Filter(gs, IsLarge);
    TopOfSorted(large, key, cap);
    var r := Prefix(SortDesc(large, key), cap);
    FilteredSub(gs, IsLarge, r);
  }

  lemma LeftOutFacts<K>(gs: seq<Group<K, Scored>>, key: Group<K, Scored> -> int, cap: nat)
    ensures var r := Prefix(SortDesc(Filter(gs, IsLarge), key), cap);
            forall j :: 0 <= j < |gs| && IsLarge(gs[j]) && gs[j] !in r ==>
              |r| == cap && (cap > 0 ==> key(gs[j]) <= key(r[cap - 1]))
  {
    var large := Filter(gs, IsLarge);
    TopOfSorted(large, key, cap);
    var r := Prefix(SortDesc(large, key), cap);
    forall j | 0 <= j < |gs| && IsLarge(gs[j]) && gs[j] !in r
      ensures |r| == cap && (cap > 0 ==> key(gs[j]) <= key(r[cap - 1]))
    {
      LeftOut(gs, large, r, gs[j]);
    }
  }

  lemma LeftOut<K>(gs: seq<Group<K, Scored>>, large: seq<Group<K, Scored>>, r: seq<Group<K, Scored>>, g: Group<K, Scored>)
    requires large == Filter(gs, IsLarge) && g in gs && IsLarge(g) && g !in r
    ensures g in multiset(large) - multiset(r)
  {
    var j :| 0 <= j < |gs| && gs[j] == g;
    assert g in large;
  }

  /** A key listed by at least three movies is picked with its whole group,
      or `cap` groups were picked and every one of them ranks at least as
      high. */
  lemma PickedOrOutranked<K>(movies: seq<Scored>, keys: Scored -> seq<K>, key: Group<K, Scored> -> int, cap: nat, k: K)
    requires |Collect(movies, keys, k)| >= MIN_LIST
    ensures var r, g := Picked(movies, keys, key, cap), Group(k, Collect(movies, keys, k));
            (exists i :: 0 <= i < |r| && r[i] == g) ||
            (|r| == cap && forall i :: 0 <= i < cap ==> key(r[i]) >= key(g))
  {
    var gs := Grouped(movies, keys);
    var r, g := Picked(movies, keys, key, cap), Group(k, Collect(movies, keys, k));
    GroupedSpec(movies, keys, k);
    var j := FirstIndex(gs, KeyOf, k).value;
    MembersAt(gs, j);
    assert gs[j] == g && IsLarge(g);
    if g !in r {
      Outranked(r, key, cap, g);
    } else {
      var i :| 0 <= i < |r| && r[i] == g;
    }
  }

  lemma Outranked<K>(r: seq<Group<K, Scored>>, key: Group<K, Scored> -> int, cap: nat, g: Group<K, Scored>)
    requires NonIncreasing(r, key) && |r| == cap && (cap > 0 ==> key(g) <= key(r[cap - 1]))
    ensures forall i :: 0 <= i < cap ==> key(r[i]) >= key(g)
  {
    forall i | 0 <= i < cap ensures key(r[i]) >= key(g) {
      assert key(r[i]) >= key(r[cap - 1]) || i == cap - 1;
    }
  }

  function GenreListOf(g: Group<string, Scored>): CuratedList
  {
    CuratedList(GenreList(g.key), Social.GenreIcon(g.key), Best(g.members))
  }

  function DecadeListOf(g: Group<int, Scored>): CuratedList
  {
    CuratedList(DecadeList(g.key), "\U{1F4C5}", Best(g.members))
  }

  /** The genres shown: up to five with at least three movies, most movies
      first, ties in order of first appearance. */
  function GenreGroups(movies: seq<Scored>): seq<Group<string, Scored>>
  {
    Picked(movies, ScoredGenres, GroupSize, 5)
  }

  /** The decades shown: up to three with at least three movies, latest
      first. */
  function DecadeGroups(movies: seq<Scored>): seq<Group<int, Scored>>
  {
    Picked(movies, DecadeKeys, KeyOf, 3)
  }

  /** Groups with distinct keys give lists of distinct kinds. */
  lemma GenreListKinds(gs: seq<Group<string, Scored>>)
    requires DistinctKeys(gs)
    ensures DistinctIds(Map(gs, GenreListOf), KindOf)
  {
    var r := Map(gs, GenreListOf);
    forall i, j | 0 <= i < j < |r| ensures KindOf(r[i]) != KindOf(r[j]) {
      assert KeyOf(gs[i]) != KeyOf(gs[j]);
    }
  }

  lemma DecadeListKinds(gs: seq<Group<int, Scored>>)
    requires DistinctKeys(gs)
    ensures DistinctIds(Map(gs, DecadeListOf), KindOf)
  {
    var r := Map(gs, DecadeListOf);
    forall i, j | 0 <= i < j < |r| ensures KindOf(r[i]) != KindOf(r[j]) {
      assert KeyOf(gs[i]) != KeyOf(gs[j]);
    }
  }

  lemma GenreListsFit(movies: seq<Scored>)
    ensures var r := Map(GenreGroups(movies), GenreListOf);
            AllFit(r, movies) && DistinctIds(r, KindOf)
  {
    var gs := GenreGroups(movies);
    PickedOnce(movies, ScoredGenres, GroupSize, 5);
    var r := Map(gs, GenreListOf);
    GenreListKinds(gs);
    forall i | 0 <= i < |r| ensures Fits(r[i], movies) {
      GroupListFits(movies, ScoredGenres, gs[i], r[i]);
    }
  }

  /** The genre lists: at most five, each a fitting genre list. */
  function GenreLists(movies: seq<Scored>): (r: seq<CuratedList>)
    ensures |r| <= 5 && AllFit(r, movies)
    ensures forall i :: 0 <= i < |r| ==> IsGenreList(r[i])
    ensures |r| == |GenreGroups(movies)|
    ensures forall i :: 0 <= i < |r| ==>
              r[i].kind == GenreList(GenreGroups(movies)[i].key) && r[i].movies == Best(GenreGroups(movies)[i].members)
    ensures DistinctIds(r, KindOf)
  {
    GenreListsFit(movies);
    Map(GenreGroups(movies), GenreListOf)
  }

  lemma DecadeListsFit(movies: seq<Scored>)
    ensures var r := Map(DecadeGroups(movies), DecadeListOf);
            AllFit(r, movies) && DistinctIds(r, KindOf)
  {
    var gs := DecadeGroups(movies);
    PickedOnce(movies, DecadeKeys, KeyOf, 3);
    var r := Map(gs, DecadeListOf);
    DecadeListKinds(gs);
    forall i | 0 <= i < |r| ensures Fits(r[i], movies) {
      GroupListFits(movies, DecadeKeys, gs[i], r[i]);
    }
  }

  /** The decade lists: at most three, each a fitting decade list. */
  function DecadeLists(movies: seq<Scored>): (r: seq<CuratedList>)
    ensures |r| <= 3 && AllFit(r, movies)
    ensures forall i :: 0 <= i < |r| ==> IsDecadeList(r[i])
    ensures |r| == |DecadeGroups(movies)|
    ensures forall i :: 0 <= i < |r| ==>
              r[i].kind == DecadeList(DecadeGroups(movies)[i].key) && r[i].movies == Best(DecadeGroups(movies)[i].members)
    ensures DistinctIds(r, KindOf)
  {
    DecadeListsFit(movies);
    Map(DecadeGroups(movies), DecadeListOf)
  }

  /** 'top-overall': the ten best movies, shown once there are five. */
  function TopList(movies: seq<Scored>): (r: seq<CuratedList>)
    requires |movies| >= MIN_LIST
    ensures r != [] <==> |movies| >= 5
    ensures |r| <= 1 && AllFit(r, movies)
    ensures forall i :: 0 <= i < |r| ==> IsTopOverall(r[i]) && r[i].movies == movies[..Min(MAX_LIST, |movies|)]
  {
    if |movies| >= 5 then [CuratedList(TopOverall, IconOf(TopOverall), Prefix(movies, MAX_LIST))] else []
  }

  /** 'recently-added': the ten added last, newest first. */
  function RecentList(movies: seq<Scored>): (r: seq<CuratedList>)
    ensures |r| <= 1 && AllFit(r, movies)
    ensures r != [] <==> |movies| >= MIN_LIST
    ensures forall i :: 0 <= i < |r| ==> r[i].kind == RecentlyAdded
    ensures r != [] ==> r[0].movies == Top(movies, AddedAt, MAX_LIST)
  {
    var recent := Top(movies, AddedAt, MAX_LIST);
    if |recent| >= MIN_LIST then
      var l := CuratedList(RecentlyAdded, IconOf(RecentlyAdded), recent);
      FitsFrom(l, movies, movies);
      [l]
    else []
  }

  /** 'tagged-favorites': the first ten tagged movies, in collection order. */
  function TaggedList(movies: seq<Scored>): (r: seq<CuratedList>)
    ensures |r| <= 1 && AllFit(r, movies)
    ensures r != [] <==> CountWhere(movies, HasTags) >= MIN_LIST
    ensures forall i :: 0 <= i < |r| ==> r[i].kind == TaggedFavorites
    ensures r != [] ==> r[0].movies == Prefix(Filter(movies, HasTags), MAX_LIST)
  {
    var tagged := Filter(movies, HasTags);
    if |tagged| >= MIN_LIST then
      var l := CuratedList(TaggedFavorites, IconOf(TaggedFavorites), Prefix(tagged, MAX_LIST));
      PrefixSubMultiset(tagged, MAX_LIST);
      FitsFrom(l, movies, tagged);
      [l]
    else []
  }

  /** 'rewatchable': the ten best movies tagged 'rewatchable'. */
  function RewatchList(movies: seq<Scored>): (r: seq<CuratedList>)
    ensures |r| <= 1 && AllFit(r, movies)
    ensures r != [] <==> CountWhere(movies, IsRewatchable) >= MIN_LIST
    ensures forall i :: 0 <= i < |r| ==> r[i].kind == Rewatchable
    ensures r != [] ==> r[0].movies == Best(Filter(movies, IsRewatchable))
  {
    var rewatchable := Filter(movies, IsRewatchable);
    if |rewatchable| >= MIN_LIST then
      var l := CuratedList(Rewatchable, IconOf(Rewatchable), Best(rewatchable));
      RewatchFits(movies, l);
      [l]
    else []
  }

  lemma RewatchFits(movies: seq<Scored>, l: CuratedList)
    requires |Filter(movies, IsRewatchable)| >= MIN_LIST
    requires l == CuratedList(Rewatchable, IconOf(Rewatchable), Best(Filter(movies, IsRewatchable)))
    ensures AllFit([l], movies)
  {
    FitsFrom(l, movies, Filter(movies, IsRewatchable));
  }

  /** A list fits when it is well formed and its movies are drawn from a pool
      of qualifying movies of the collection. */
  lemma FitsFrom(l: CuratedList, movies: seq<Scored>, pool: seq<Scored>)
    requires l.icon == IconOf(l.kind) && MIN_LIST <= |l.movies| <= MAX_LIST && InOrder(l)
    requires multiset(l.movies) <= multiset(pool) && multiset(pool) <= multiset(movies)
    requires forall i :: 0 <= i < |pool| ==> Belongs(l.kind, pool[i])
    ensures Fits(l, movies) && AllFit([l], movies)
  {
    forall i | 0 <= i < |l.movies| ensures l.movies[i] in movies && Belongs(l.kind, l.movies[i]) {
      var x := l.movies[i];
      assert x in multiset(l.movies);
      assert x in multiset(pool);
      var j :| 0 <= j < |pool| && pool[j] == x;
    }
  }

  /** The recent, tagged and rewatchable lists, those that are shown. */
  function TailLists(movies: seq<Scored>): (r: seq<CuratedList>)
    ensures AllFit(r, movies)
    ensures forall i :: 0 <= i < |r| ==> r[i].kind in {RecentlyAdded, TaggedFavorites, Rewatchable}
  {
    var recent, tagged, rewatch := RecentList(movies), TaggedList(movies), RewatchList(movies);
    AllFitAppend(recent, tagged, movies);
    AllFitAppend(recent + tagged, rewatch, movies);
    TailKinds(recent, tagged, rewatch);
    recent + tagged + rewatch
  }

  /** `generateCuratedLists()` over the scored collection: nothing below
      three movies; otherwise the top list, the genre lists, the decade
      lists, then the recent, tagged and rewatchable lists, each only when
      it would hold at least three movies. */
  function CuratedLists(movies: seq<Scored>): (r: seq<CuratedList>)
    ensures |movies| < MIN_LIST ==> r == []
    ensures |movies| >= 5 <==> r != [] && IsTopOverall(r[0])
    ensures forall i :: 0 < i < |r| ==> !IsTopOverall(r[i])
    ensures AllFit(r, movies)
    ensures CountWhere(r, IsGenreList) <= 5 && CountWhere(r, IsDecadeList) <= 3
    ensures |movies| >= MIN_LIST ==>
              |TailLists(movies)| <= |r| && r[|r| - |TailLists(movies)|..] == TailLists(movies)
  {
    if |movies| < MIN_LIST then []
    else
      var top, genres, decades := TopList(movies), GenreLists(movies), DecadeLists(movies);
      var tail := TailLists(movies);
      CuratedFacts(movies, top, genres, decades, tail);
      top + genres + decades + tail
  }

  /** With three movies or more the ten most recently added are always
      listed. */
  lemma RecentListShown(movies: seq<Scored>)
    requires |movies| >= MIN_LIST
    ensures var r := CuratedLists(movies);
            exists i :: 0 <= i < |r| && r[i].kind == RecentlyAdded && r[i].movies == Top(movies, AddedAt, MAX_LIST)
  {
    TailOrder(movies);
    InTail(CuratedLists(movies), TailLists(movies), 0);
  }

  /** The first ten tagged movies are listed when three or more carry tags. */
  lemma TaggedListShown(movies: seq<Scored>)
    requires |movies| >= MIN_LIST && CountWhere(movies, HasTags) >= MIN_LIST
    ensures var r := CuratedLists(movies);
            exists i :: 0 <= i < |r| && r[i].kind == TaggedFavorites &&
                        r[i].movies == Prefix(Filter(movies, HasTags), MAX_LIST)
  {
    TailOrder(movies);
    InTail(CuratedLists(movies), TailLists(movies), 1);
  }

  /** The ten best rewatchable movies are listed when three or more are
      marked rewatchable. */
  lemma RewatchListShown(movies: seq<Scored>)
    requires |movies| >= MIN_LIST && CountWhere(movies, IsRewatchable) >= MIN_LIST
    ensures var r := CuratedLists(movies);
            exists i :: 0 <= i < |r| && r[i].kind == Rewatchable &&
                        r[i].movies == Best(Filter(movies, IsRewatchable))
  {
    TailOrder(movies);
    InTail(CuratedLists(movies), TailLists(movies), |TailLists(movies)| - 1);
  }

  /** Where each closing list sits in `TailLists`. */
  lemma TailOrder(movies: seq<Scored>)
    requires |movies| >= MIN_LIST
    ensures var tail := TailLists(movies);
            tail != [] && tail[0] == RecentList(movies)[0] &&
            (CountWhere(movies, HasTags) >= MIN_LIST ==> |tail| >= 2 && tail[1] == TaggedList(movies)[0]) &&
            (CountWhere(movies, IsRewatchable) >= MIN_LIST ==> tail[|tail| - 1] == RewatchList(movies)[0])
  {
    var recent, tagged, rewatch := RecentList(movies), TaggedList(movies), RewatchList(movies);
    assert TailLists(movies) == recent + tagged + rewatch;
    ThreeParts(recent, tagged, rewatch);
  }

  lemma ThreeParts<T>(a: seq<T>, b: seq<T>, c: seq<T>)
    requires |a| == 1 && |b| <= 1 && |c| <= 1
    ensures var s := a + b + c;
            s[0] == a[0] && (b != [] ==> |s| >= 2 && s[1] == b[0]) && (c != [] ==> s[|s| - 1] == c[0])
  {
  }

  lemma InTail<T>(r: seq<T>, tail: seq<T>, k: int)
    requires |tail| <= |r| && r[|r| - |tail|..] == tail && 0 <= k < |tail|
    ensures r[|r| - |tail| + k] == tail[k]
  {
    assert r[|r| - |tail|..][k] == tail[k];
  }

  /** A genre listed by at least three movies of a collection of three or
      more gets its list, holding its ten best movies, unless five genres
      with at least as many movies were shown instead. */
  lemma GenreListShown(movies: seq<Scored>, g: string)
    requires |movies| >= MIN_LIST && |Collect(movies, ScoredGenres, g)| >= MIN_LIST
    ensures var r, members := CuratedLists(movies), Collect(movies, ScoredGenres, g);
            (exists i :: 0 <= i < |r| && r[i].kind == GenreList(g) && r[i].movies == Best(members)) ||
            (|GenreGroups(movies)| == 5 && forall i :: 0 <= i < 5 ==> |GenreGroups(movies)[i].members| >= |members|)
  {
    PickedOrOutranked(movies, ScoredGenres, GroupSize, 5, g);
    var gs, members := GenreGroups(movies), Collect(movies, ScoredGenres, g);
    if i :| 0 <= i < |gs| && gs[i] == Group(g, members) {
      GenreListAt(movies, i);
    }
  }

  lemma GenreListAt(movies: seq<Scored>, i: nat)
    requires |movies| >= MIN_LIST && i < |GenreGroups(movies)|
    ensures var r, group := CuratedLists(movies), GenreGroups(movies)[i];
            exists j :: 0 <= j < |r| && r[j].kind == GenreList(group.key) && r[j].movies == Best(group.members)
  {
    var top, genres, decades := TopList(movies), GenreLists(movies), DecadeLists(movies);
    InSecondOfFour(top, genres, decades, TailLists(movies), i);
    assert top + genres + decades + TailLists(movies) == CuratedLists(movies);
  }

  /** A decade holding at least three movies of a collection of three or
      more gets its list, holding its ten best movies, unless three later
      decades were shown instead. */
  lemma DecadeListShown(movies: seq<Scored>, d: int)
    requires |movies| >= MIN_LIST && |Collect(movies, DecadeKeys, d)| >= MIN_LIST
    ensures var r, members := CuratedLists(movies), Collect(movies, DecadeKeys, d);
            (exists i :: 0 <= i < |r| && r[i].kind == DecadeList(d) && r[i].movies == Best(members)) ||
            (|DecadeGroups(movies)| == 3 && forall i :: 0 <= i < 3 ==> DecadeGroups(movies)[i].key >= d)
  {
    PickedOrOutranked(movies, DecadeKeys, KeyOf, 3, d);
    var gs, members := DecadeGroups(movies), Collect(movies, DecadeKeys, d);
    if i :| 0 <= i < |gs| && gs[i] == Group(d, members) {
      DecadeListAt(movies, i);
    }
  }

  lemma DecadeListAt(movies: seq<Scored>, i: nat)
    requires |movies| >= MIN_LIST && i < |DecadeGroups(movies)|
    ensures var r, group := CuratedLists(movies), DecadeGroups(movies)[i];
            exists j :: 0 <= j < |r| && r[j].kind == DecadeList(group.key) && r[j].movies == Best(group.members)
  {
    var front, decades := TopList(movies) + GenreLists(movies), DecadeLists(movies);
    InSecond(front, decades, TailLists(movies), i);
    assert front + decades + TailLists(movies) == CuratedLists(movies);
  }

  lemma InSecondOfFour<T>(a: seq<T>, b: seq<T>, c: seq<T>, d: seq<T>, i: nat)
    requires i < |b|
    ensures |a| + i < |a + b + c + d| && (a + b + c + d)[|a| + i] == b[i]
  {
  }

  lemma InSecond<T>(a: seq<T>, b: seq<T>, c: seq<T>, i: nat)
    requires i < |b|
    ensures |a| + i < |a + b + c| && (a + b + c)[|a| + i] == b[i]
  {
  }

  lemma CuratedFacts(movies: seq<Scored>, top: seq<CuratedList>, genres: seq<CuratedList>,
                     decades: seq<CuratedList>, tail: seq<CuratedList>)
    requires |top| <= 1 && (top != [] <==> |movies| >= 5)
    requires forall i :: 0 <= i < |top| ==> IsTopOverall(top[i])
    requires |genres| <= 5 && forall i :: 0 <= i < |genres| ==> IsGenreList(genres[i])
    requires |decades| <= 3 && forall i :: 0 <= i < |decades| ==> IsDecadeList(decades[i])
    requires forall i :: 0 <= i < |tail| ==> tail[i].kind in {RecentlyAdded, TaggedFavorites, Rewatchable}
    requires AllFit(top, movies) && AllFit(genres, movies) && AllFit(decades, movies) && AllFit(tail, movies)
    ensures var r := top + genres + decades + tail;
            (|movies| >= 5 <==> r != [] && IsTopOverall(r[0])) &&
            (forall i :: 0 < i < |r| ==> !IsTopOverall(r[i])) &&
            AllFit(r, movies) &&
            CountWhere(r, IsGenreList) <= 5 && CountWhere(r, IsDecadeList) <= 3
  {
    AllFitAppend(top, genres, movies);
    AllFitAppend(top + genres, decades, movies);
    AllFitAppend(top + genres + decades, tail, movies);
    NoTopAfter(genres, decades, tail);
    TopOnlyFirst(movies, top, genres + decades + tail);
    assert top + genres + decades + tail == top + (genres + decades + tail);
    KindCounts(top, genres, decades, tail);
  }

  lemma TailKinds(recent: seq<CuratedList>, tagged: seq<CuratedList>, rewatch: seq<CuratedList>)
    requires forall i :: 0 <= i < |recent| ==> recent[i].kind == RecentlyAdded
    requires forall i :: 0 <= i < |tagged| ==> tagged[i].kind == TaggedFavorites
    requires forall i :: 0 <= i < |rewatch| ==> rewatch[i].kind == Rewatchable
    ensures var r := recent + tagged + rewatch;
            forall i :: 0 <= i < |r| ==> r[i].kind in {RecentlyAdded, TaggedFavorites, Rewatchable}
  {
    var r := recent + tagged + rewatch;
    forall i | 0 <= i < |r| ensures r[i].kind in {RecentlyAdded, TaggedFavorites, Rewatchable} {
      if i < |recent| {
        assert r[i] == recent[i];
      } else if i < |recent| + |tagged| {
        assert r[i] == tagged[i - |recent|];
      } else {
        assert r[i] == rewatch[i - |recent| - |tagged|];
      }
    }
  }

  lemma AllFitAppend(a: seq<CuratedList>, b: seq<CuratedList>, movies: seq<Scored>)
    requires AllFit(a, movies) && AllFit(b, movies)
    ensures AllFit(a + b, movies)
  {
    forall i | 0 <= i < |a + b| ensures Fits((a + b)[i], movies) {
      if i < |a| {
        assert (a + b)[i] == a[i];
      } else {
        assert (a + b)[i] == b[i - |a|];
      }
    }
  }

  lemma NoTopAfter(genres: seq<CuratedList>, decades: seq<CuratedList>, tail: seq<CuratedList>)
    requires forall i :: 0 <= i < |genres| ==> IsGenreList(genres[i])
    requires forall i :: 0 <= i < |decades| ==> IsDecadeList(decades[i])
    requires forall i :: 0 <= i < |tail| ==> tail[i].kind in {RecentlyAdded, TaggedFavorites, Rewatchable}
    ensures forall i :: 0 <= i < |genres + decades + tail| ==> !IsTopOverall((genres + decades + tail)[i])
  {
    var rest := genres + decades + tail;
    forall i | 0 <= i < |rest| ensures !IsTopOverall(rest[i]) {
      if i < |genres| {
        assert rest[i] == genres[i];
      } else if i < |genres| + |decades| {
        assert rest[i] == decades[i - |genres|];
      } else {
        assert rest[i] == tail[i - |genres| - |decades|];
      }
    }
  }

  /** The top list, when there is one, comes first and nowhere else. */
  lemma TopOnlyFirst(movies: seq<Scored>, top: seq<CuratedList>, rest: seq<CuratedList>)
    requires |top| <= 1 && (top != [] <==> |movies| >= 5)
    requires forall i :: 0 <= i < |top| ==> IsTopOverall(top[i])
    requires forall i :: 0 <= i < |rest| ==> !IsTopOverall(rest[i])
    ensures var r := top + rest;
            (|movies| >= 5 <==> r != [] && IsTopOverall(r[0])) &&
            (forall i :: 0 < i < |r| ==> !IsTopOverall(r[i]))
  {
    var r := top + rest;
    if top != [] {
      assert r[0] == top[0];
      forall i | 0 < i < |r| ensures !IsTopOverall(r[i]) {
        assert r[i] == rest[i - 1];
      }
    } else {
      assert r == rest;
    }
  }

  lemma KindCounts(top: seq<CuratedList>, genres: seq<CuratedList>, decades: seq<CuratedList>, tail: seq<CuratedList>)
    requires |top| <= 1 && forall i :: 0 <= i < |top| ==> IsTopOverall(top[i])
    requires |genres| <= 5 && forall i :: 0 <= i < |genres| ==> IsGenreList(genres[i])
    requires |decades| <= 3 && forall i :: 0 <= i < |decades| ==> IsDecadeList(decades[i])
    requires forall i :: 0 <= i < |tail| ==> tail[i].kind in {RecentlyAdded, TaggedFavorites, Rewatchable}
    ensures CountWhere(top + genres + decades + tail, IsGenreList) <= 5
    ensures CountWhere(top + genres + decades + tail, IsDecadeList) <= 3
  {
    CountFour(top, genres, decades, tail, IsGenreList);
    assert CountWhere(top, IsGenreList) == 0 && CountWhere(decades, IsGenreList) == 0;
    assert CountWhere(tail, IsGenreList) == 0;
    CountFour(top, genres, decades, tail, IsDecadeList);
    assert CountWhere(top, IsDecadeList) == 0 && CountWhere(genres, IsDecadeList) == 0;
    assert CountWhere(tail, IsDecadeList) == 0;
  }

  lemma CountFour(a: seq<CuratedList>, b: seq<CuratedList>, c: seq<CuratedList>, d: seq<CuratedList>, p: CuratedList -> bool)
    ensures CountWhere(a + b + c + d, p) == CountWhere(a, p) + CountWhere(b, p) + CountWhere(c, p) + CountWhere(d, p)
  {
    CountWhereAppend(a + b + c, d, p);
    CountWhereAppend(a + b, c, p);
    CountWhereAppend(a, b, p);
  }

  /** `generateCuratedLists()`: fills the genre and decade dictionaries,
      then pushes each list that qualifies, in the source's order. */
  method GenerateCuratedLists(movies: seq<Scored>) returns (lists: seq<CuratedList>)
    ensures lists == CuratedLists(movies)
  {
    if |movies| < MIN_LIST {
      return [];
    }
    lists := [];
    if |movies| >= 5 {
      lists := lists + [CuratedList(TopOverall, IconOf(TopOverall), Prefix(movies, MAX_LIST))];
    }
    var top := lists;
    assert top == TopList(movies);

    var genreMovies := GroupBy(movies, ScoredGenres);
    var genres := Prefix(SortDesc(Filter(genreMovies, IsLarge), GroupSize), 5);
    assert genres == GenreGroups(movies);
    lists := PushEach(lists, genres, GenreListOf);
    assert lists == top + GenreLists(movies);

    var decadeMovies := GroupBy(movies, DecadeKeys);
    var decades := Prefix(SortDesc(Filter(decadeMovies, IsLarge), KeyOf), 3);
    assert decades == DecadeGroups(movies);
    lists := PushEach(lists, decades, DecadeListOf);
    assert lists == top + GenreLists(movies) + DecadeLists(movies);

    lists := PushTail(lists, movies);
    assert lists == TopList(movies) + GenreLists(movies) + DecadeLists(movies) + TailLists(movies);
  }

  /** `groups.forEach(g => lists.push(f(g)))` */
  method PushEach<G>(lists: seq<CuratedList>, groups: seq<G>, f: G -> CuratedList) returns (out: seq<CuratedList>)
    ensures out == lists + Map(groups, f)
  {
    out := lists;
    for i := 0 to |groups|
      invariant out == lists + Map(groups[..i], f)
    {
      assert Map(groups[..i + 1], f) == Map(groups[..i], f) + [f(groups[i])];
      out := out + [f(groups[i])];
    }
    assert groups[..|groups|] == groups;
  }

  /** The last three pushes of `generateCuratedLists`. */
  method PushTail(lists: seq<CuratedList>, movies: seq<Scored>) returns (out: seq<CuratedList>)
    ensures out == lists + TailLists(movies)
  {
    var withRecent := PushRecent(lists, movies);
    var withTagged := PushTagged(withRecent, movies);
    out := PushRewatchable(withTagged, movies);
    TailPieces(lists, RecentList(movies), TaggedList(movies), RewatchList(movies));
  }

  method PushRecent(lists: seq<CuratedList>, movies: seq<Scored>) returns (out: seq<CuratedList>)
    ensures out == lists + RecentList(movies)
  {
    out := lists;
    var recent := Top(movies, AddedAt, MAX_LIST);
    if |recent| >= MIN_LIST {
      out := out + [CuratedList(RecentlyAdded, IconOf(RecentlyAdded), recent)];
    }
  }

  method PushTagged(lists: seq<CuratedList>, movies: seq<Scored>) returns (out: seq<CuratedList>)
    ensures out == lists + TaggedList(movies)
  {
    out := lists;
    var tagged := Filter(movies, HasTags);
    if |tagged| >= MIN_LIST {
      out := out + [CuratedList(TaggedFavorites, IconOf(TaggedFavorites), Prefix(tagged, MAX_LIST))];
    }
  }

  method PushRewatchable(lists: seq<CuratedList>, movies: seq<Scored>) returns (out: seq<CuratedList>)
    ensures out == lists + RewatchList(movies)
  {
    out := lists;
    var rewatchable := Filter(movies, IsRewatchable);
    if |rewatchable| >= MIN_LIST {
      out := out + [CuratedList(Rewatchable, IconOf(Rewatchable), Best(rewatchable))];
    }
  }

  lemma TailPieces(lists: seq<CuratedList>, r: seq<CuratedList>, t: seq<CuratedList>, w: seq<CuratedList>)
    ensures lists + r + t + w == lists + (r + t + w)
  {
  }

  /** `calculateTasteProfile()`: fills the genre and decade dictionaries
      and assembles the profile from them. */
  method CalculateTasteProfile(movies: seq<Scored>, stats: map<string, int>) returns (profile: Option<TasteProfile>)
    ensures profile == TasteProfileOf(movies, stats)
  {
    if |movies| == 0 {
      return None;
    }
    var genreScores := GroupBy(movies, ScoredGenres);
    var genrePreferences := SortDesc(Map(genreScores, GenrePreferenceOf), GenreAverage);
    var decadeScores := GroupBy(movies, DecadeKeys);
    var decadePreferences := SortDesc(Map(decadeScores, DecadePreferenceOf), DecadeOfPreference);
    profile := Some(TasteProfile(
      Prefix(genrePreferences, 10),
      Map(Prefix(genrePreferences, 3), GenreOfPreference),
      decadePreferences,
      DistributionOf(movies),
      MeanScore(movies),
      |movies|,
      Storage.StatOf(stats, Storage.TOTAL_COMPARISONS),
      Prefix(movies, 5),
      Prefix(SortDesc(movies, AddedAt), 5)));
  }
}
