/** The collection store of js/storage.js: the list of rated movies, the
    list of recorded comparisons and the counters, each operation a
    load-change-save step. Persistence (localStorage, JSON) is not modelled:
    the stored values are the fields of one `Store` object. */
module Storage {
  import opened Common
  import opened Lists
  import opened Groups
  import opened Records
  import opened Elo

  const TOTAL_MOVIES: string := "totalMovies"
  const TOTAL_COMPARISONS: string := "totalComparisons"

  /** What `recordComparison` stores for one verdict. */
  datatype Comparison = Comparison(newMovieId: string, comparedMovieId: string, result: Verdict)

  /** `loadStats()` when nothing is stored yet. */
  function DefaultStats(): (stats: map<string, int>)
    ensures TOTAL_MOVIES in stats && TOTAL_COMPARISONS in stats
    ensures forall name :: StatOf(stats, name) == 0
  {
    map[TOTAL_MOVIES := 0, TOTAL_COMPARISONS := 0]
  }

  /** `stats[name] || 0`: a missing counter reads as zero. */
  function StatOf(stats: map<string, int>, name: string): (r: int)
    ensures name in stats ==> r == stats[name]
    ensures name !in stats ==> r == 0
  {
    if name in stats then stats[name] else 0
  }

  /** The counters after `incrementStat(name)`. */
  function Incremented(stats: map<string, int>, name: string): (r: map<string, int>)
    ensures r.Keys == stats.Keys + {name}
    ensures StatOf(r, name) == StatOf(stats, name) + 1
    ensures forall other :: other != name ==> StatOf(r, other) == StatOf(stats, other)
  {
    stats[name := StatOf(stats, name) + 1]
  }

  /** The list after `movies.find(m => m.id === id).rating = rating`: the
      first record with that id gets the new rating and nothing else
      changes; without such a record nothing changes at all. */
  function WithRating(movies: seq<Movie>, id: string, rating: int): (r: seq<Movie>)
    ensures |r| == |movies|
    ensures !HasId(movies, MovieId, id) ==> r == movies
    ensures HasId(movies, MovieId, id) ==>
              var i := FirstIndex(movies, MovieId, id).value;
              r[i] == movies[i].(rating := rating) &&
              forall j :: 0 <= j < |movies| && j != i ==> r[j] == movies[j]
  {
    match FirstIndex(movies, MovieId, id)
    case None => movies
    case Some(i) => movies[i := movies[i].(rating := rating)]
  }

  /** The list after setting notes and tags on the first record with that id. */
  function WithNotes(movies: seq<Movie>, id: string, notes: string, tags: seq<string>): (r: seq<Movie>)
    ensures |r| == |movies|
    ensures !HasId(movies, MovieId, id) ==> r == movies
    ensures HasId(movies, MovieId, id) ==>
              var i := FirstIndex(movies, MovieId, id).value;
              r[i] == movies[i].(notes := notes, tags := tags) &&
              forall j :: 0 <= j < |movies| && j != i ==> r[j] == movies[j]
  {
    match FirstIndex(movies, MovieId, id)
    case None => movies
    case Some(i) => movies[i := movies[i].(notes := notes, tags := tags)]
  }

  /** Updating a rating never changes which ids are stored, nor where. */
  lemma WithRatingKeepsIds(movies: seq<Movie>, id: string, rating: int, other: string)
    ensures Map(WithRating(movies, id, rating), MovieId) == Map(movies, MovieId)
    ensures FirstIndex(WithRating(movies, id, rating), MovieId, other) == FirstIndex(movies, MovieId, other)
  {
    var r := WithRating(movies, id, rating);
    assert forall j :: 0 <= j < |movies| ==> r[j].id == movies[j].id;
    assert Map(r, MovieId) == Map(movies, MovieId);
    FirstIndexSameIds(r, movies, other);
  }

  lemma {:induction false} FirstIndexSameIds(r: seq<Movie>, s: seq<Movie>, id: string)
    requires |r| == |s| && forall j :: 0 <= j < |s| ==> r[j].id == s[j].id
    ensures FirstIndex(r, MovieId, id) == FirstIndex(s, MovieId, id)
  {
    if s != [] {
      assert MovieId(r[0]) == MovieId(s[0]);
      FirstIndexSameIds(r[1..], s[1..], id);
    }
  }

  /** A genre with the number of times the collection lists it. */
  datatype GenreCount = GenreCount(genre: string, count: nat)

  function GenreOf(g: GenreCount): string { g.genre }

  function CountOf(g: GenreCount): int { g.count }

  function CountEntry(g: Group<string, Movie>): GenreCount
  {
    GenreCount(g.key, |g.members|)
  }

  /** How many times the movies list `genre` (a movie listing it twice counts twice). */
  function GenreTally(movies: seq<Movie>, genre: string): nat
  {
    |Collect(movies, GenresOf, genre)|
  }

  /** `getTopGenres()`: the five most listed genres, most listed first, ties in
      order of first appearance. */
  function TopGenres(movies: seq<Movie>): (r: seq<GenreCount>)
    ensures |r| <= 5
    ensures NonIncreasing(r, CountOf)
    ensures DistinctIds(r, GenreOf)
    ensures forall i :: 0 <= i < |r| ==> r[i].count == GenreTally(movies, r[i].genre) > 0
    ensures forall g :: GenreTally(movies, g) > 0 && !HasId(r, GenreOf, g) ==>
              |r| == 5 && GenreTally(movies, g) <= r[4].count
  {
    var entries := Map(Grouped(movies, GenresOf), CountEntry);
    var sorted := SortDesc(entries, CountOf);
    TopFacts(movies, entries, sorted);
    Prefix(sorted, 5)
  }

  lemma TopFacts(movies: seq<Movie>, entries: seq<GenreCount>, sorted: seq<GenreCount>)
    requires entries == Map(Grouped(movies, GenresOf), CountEntry)
    requires NonIncreasing(sorted, CountOf) && multiset(sorted) == multiset(entries)
    ensures var r := Prefix(sorted, 5);
            |r| <= 5 && NonIncreasing(r, CountOf) && DistinctIds(r, GenreOf) &&
            (forall i :: 0 <= i < |r| ==> r[i].count == GenreTally(movies, r[i].genre) > 0) &&
            (forall g :: GenreTally(movies, g) > 0 && !HasId(r, GenreOf, g) ==>
               |r| == 5 && GenreTally(movies, g) <= r[4].count)
  {
    TallyFacts(movies, entries);
    DistinctSub(sorted, entries, GenreOf);
    PrefixFacts(movies, entries, sorted);
    var r := Prefix(sorted, 5);
    assert forall i :: 0 <= i < |r| ==> r[i] == sorted[i];
  }

  /** The dictionary entries count what they should, without repeats, and
      every listed genre has one. */
  lemma TallyFacts(movies: seq<Movie>, entries: seq<GenreCount>)
    requires entries == Map(Grouped(movies, GenresOf), CountEntry)
    ensures DistinctIds(entries, GenreOf)
    ensures forall i :: 0 <= i < |entries| ==> entries[i].count == GenreTally(movies, entries[i].genre) > 0
    ensures forall g :: GenreTally(movies, g) > 0 ==> HasId(entries, GenreOf, g)
  {
    var gs := Grouped(movies, GenresOf);
    GroupedSpec(movies, GenresOf, "");
    forall i, j | 0 <= i < j < |entries| ensures GenreOf(entries[i]) != GenreOf(entries[j]) {
      assert KeyOf(gs[i]) != KeyOf(gs[j]);
    }
    forall i | 0 <= i < |entries| ensures entries[i].count == GenreTally(movies, entries[i].genre) > 0 {
      GroupMembers(movies, GenresOf, i);
      GroupNonEmpty(movies, GenresOf, i);
    }
    forall g | GenreTally(movies, g) > 0 ensures HasId(entries, GenreOf, g) {
      GroupedSpec(movies, GenresOf, g);
      var k := FirstIndex(gs, KeyOf, g);
      assert k.Some? by {
        assert MembersOf(gs, g) != [];
      }
      assert GenreOf(entries[k.value]) == g;
    }
  }

  /** Facts about the five-entry prefix of the sorted tally. */
  lemma PrefixFacts(movies: seq<Movie>, entries: seq<GenreCount>, sorted: seq<GenreCount>)
    requires NonIncreasing(sorted, CountOf) && multiset(sorted) == multiset(entries)
    requires forall i :: 0 <= i < |entries| ==> entries[i].count == GenreTally(movies, entries[i].genre) > 0
    requires forall g :: GenreTally(movies, g) > 0 ==> HasId(entries, GenreOf, g)
    ensures forall i :: 0 <= i < |sorted| ==> sorted[i].count == GenreTally(movies, sorted[i].genre) > 0
    ensures forall g :: GenreTally(movies, g) > 0 ==>
              HasId(Prefix(sorted, 5), GenreOf, g) ||
              (|Prefix(sorted, 5)| == 5 && GenreTally(movies, g) <= Prefix(sorted, 5)[4].count)
  {
    forall i | 0 <= i < |sorted| ensures sorted[i].count == GenreTally(movies, sorted[i].genre) > 0 {
      assert sorted[i] in multiset(entries);
    }
    var top := Prefix(sorted, 5);
    forall g | GenreTally(movies, g) > 0
      ensures HasId(top, GenreOf, g) || (|top| == 5 && GenreTally(movies, g) <= top[4].count)
    {
      var e :| 0 <= e < |entries| && GenreOf(entries[e]) == g;
      assert entries[e] in multiset(sorted);
      var p :| 0 <= p < |sorted| && sorted[p] == entries[e];
      if p < |top| {
        assert GenreOf(top[p]) == g;
      } else {
        assert CountOf(sorted[4]) >= CountOf(sorted[p]);
      }
    }
  }

  /** The stored state of the collection. */
  class Store {
    var movies: seq<Movie>
    var comparisons: seq<Comparison>
    var stats: map<string, int>

    /** A store with nothing saved yet. */
    constructor ()
      ensures movies == [] && comparisons == [] && stats == DefaultStats()
    {
      movies := [];
      comparisons := [];
      stats := DefaultStats();
    }

    /** `addMovie(movie)`: appends the record, stamped with the clock reading
        `now`, and counts it. */
    method AddMovie(movie: Movie, now: int)
      modifies this
      ensures movies == old(movies) + [movie.(addedAt := now)]
      ensures stats == Incremented(old(stats), TOTAL_MOVIES)
      ensures comparisons == old(comparisons)
    {
      movies := movies + [movie.(addedAt := now)];
      IncrementStat(TOTAL_MOVIES);
    }

    /** `updateMovieRating(id, rating)` */
    method UpdateMovieRating(id: string, rating: int)
      modifies this
      ensures movies == WithRating(old(movies), id, rating)
      ensures stats == old(stats) && comparisons == old(comparisons)
    {
      var i := FirstIndex(movies, MovieId, id);
      if i.Some? {
        movies := movies[i.value := movies[i.value].(rating := rating)];
      }
    }

    /** `updateMovieNotes(id, notes, tags)` */
    method UpdateMovieNotes(id: string, notes: string, tags: seq<string>)
      modifies this
      ensures movies == WithNotes(old(movies), id, notes, tags)
      ensures stats == old(stats) && comparisons == old(comparisons)
    {
      var i := FirstIndex(movies, MovieId, id);
      if i.Some? {
        movies := movies[i.value := movies[i.value].(notes := notes, tags := tags)];
      }
    }

    /** `removeMovie(id)`: keeps every record with another id, in order. The
        counters are left as they are. */
    method RemoveMovie(id: string)
      modifies this
      ensures movies == Without(old(movies), MovieId, id)
      ensures stats == old(stats) && comparisons == old(comparisons)
    {
      movies := Without(movies, MovieId, id);
    }

    /** `hasMovie(id)` */
    function HasMovie(id: string): (b: bool)
      reads this
      ensures b <==> exists i :: 0 <= i < |movies| && movies[i].id == id
    {
      HasId(movies, MovieId, id)
    }

    /** `getMovie(id)`: the first record with that id, or None for `null`. */
    function GetMovie(id: string): (r: Option<Movie>)
      reads this
      ensures r.Some? <==> HasMovie(id)
      ensures r.Some? ==> exists i :: 0 <= i < |movies| && movies[i] == r.value &&
                            r.value.id == id && forall j :: 0 <= j < i ==> movies[j].id != id
    {
      match FirstIndex(movies, MovieId, id)
      case None => None
      case Some(i) => Some(movies[i])
    }

    /** `incrementStat(name)` */
    method IncrementStat(name: string)
      modifies this
      ensures stats == Incremented(old(stats), name)
      ensures movies == old(movies) && comparisons == old(comparisons)
    {
      var current := if name in stats then stats[name] else 0;
      stats := stats[name := current + 1];
    }

    /** `recordComparison(c)`: logs it and counts it. */
    method RecordComparison(c: Comparison)
      modifies this
      ensures comparisons == old(comparisons) + [c]
      ensures stats == Incremented(old(stats), TOTAL_COMPARISONS)
      ensures movies == old(movies)
    {
      comparisons := comparisons + [c];
      IncrementStat(TOTAL_COMPARISONS);
    }

    /** `getTopGenres()`: tallies the genres in a dictionary, then sorts and
        cuts the entries. */
    method GetTopGenres() returns (top: seq<GenreCount>)
      ensures top == TopGenres(movies)
    {
      var groups := GroupBy(movies, GenresOf);
      var entries := Map(groups, CountEntry);
      top := Prefix(SortDesc(entries, CountOf), 5);
    }
  }
}
