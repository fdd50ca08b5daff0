/** The ranking session of the app: a movie picked from search gets a coarse
    opinion, is seeded with a rating, meets up to five opponents one verdict
    at a time and is then saved. The screens, modals and toasts around it
    are left out; what remains are the session fields and the store and
    social lists they change. */
module Session {
  import opened Common
  import opened Lists
  import opened Records
  import opened Elo
  import Storage
  import Social

  /** `indexOf` compares the tags themselves: a tag is its own id. One named
      function, so that the method and its specification look up with the
      same one. */
  function TagId(tag: string): string { tag }

  /** `toggleTag(tag)`: drops the first occurrence of `tag`, or appends it
      when it is not selected. */
  function Toggled(tags: seq<string>, tag: string): (r: seq<string>)
    ensures tag !in tags ==> r == tags + [tag]
    ensures tag in tags ==> |r| == |tags| - 1 && multiset(r) == multiset(tags) - multiset{tag}
    ensures tag in tags ==>
              exists i :: 0 <= i < |tags| && tags[i] == tag && tag !in tags[..i] && r == tags[..i] + tags[i + 1..]
  {
    match FirstIndex(tags, TagId, tag)
    case None => tags + [tag]
    case Some(i) =>
      DropFirst(tags, tag, i);
      tags[..i] + tags[i + 1..]
  }

  lemma DropFirst(tags: seq<string>, tag: string, i: nat)
    requires i < |tags| && tags[i] == tag && forall j :: 0 <= j < i ==> TagId(tags[j]) != tag
    ensures var r := tags[..i] + tags[i + 1..];
            |r| == |tags| - 1 && multiset(r) == multiset(tags) - multiset{tag} && tag !in tags[..i]
  {
    assert tags == tags[..i] + [tags[i]] + tags[i + 1..];
  }

  /** Toggling an unselected tag twice restores the list. */
  lemma ToggleTwiceAbsent(tags: seq<string>, tag: string)
    requires tag !in tags
    ensures Toggled(Toggled(tags, tag), tag) == tags
  {
    var once := tags + [tag];
    assert once[|tags|] == tag;
    var k := FirstIndex(once, TagId, tag);
    assert forall j :: 0 <= j < |tags| ==> once[j] == tags[j] && once[j] != tag;
    assert k == Some(|tags|);
    assert once[..|tags|] == tags;
  }

  /** Toggling a tag selected once twice restores the selection as a
      multiset (the tag moves to the end). */
  lemma ToggleTwicePresent(tags: seq<string>, tag: string)
    requires multiset(tags)[tag] == 1
    ensures tag in Toggled(Toggled(tags, tag), tag)
    ensures multiset(Toggled(Toggled(tags, tag), tag)) == multiset(tags)
  {
    var once := Toggled(tags, tag);
    assert multiset(once)[tag] == 0;
    assert tag !in once;
  }

  function ScoredId(x: Scored): string { x.movie.id }

  /** The activity log after saving movie `id`: its scored entry (the first
      with that id in `getMoviesWithScores`) is logged as rated, with its
      title and score; nothing is logged when it cannot be found. */
  function AfterRating(log: seq<Social.Activity>, movies: seq<Movie>, id: string): (r: seq<Social.Activity>)
    ensures var scored := RecalculateAllScores(movies);
            r == log ||
            (1 <= |r| <= Social.ACTIVITY_LIMIT && r[1..] == log[..Min(|log|, Social.ACTIVITY_LIMIT - 1)] &&
             exists i :: 0 <= i < |scored| && ScoredId(scored[i]) == id &&
                         r[0] == Social.MovieRated(id, scored[i].movie.title, scored[i].score))
  {
    var scored := RecalculateAllScores(movies);
    match FirstIndex(scored, ScoredId, id)
    case Some(i) => Social.Logged(log, Social.MovieRated(id, scored[i].movie.title, scored[i].score))
    case None => log
  }

  /** A saved movie is always found among the scored movies, so saving it
      always logs one rating activity for it; an id that is not stored
      logs nothing. */
  lemma SavedMovieLogged(log: seq<Social.Activity>, movies: seq<Movie>, id: string)
    ensures HasId(movies, MovieId, id) ==> HasId(RecalculateAllScores(movies), ScoredId, id)
    ensures HasId(movies, MovieId, id) ==>
              var scored := RecalculateAllScores(movies);
              var x := scored[FirstIndex(scored, ScoredId, id).value];
              var r := AfterRating(log, movies, id);
              x.movie.id == id && x.movie in movies && ScoredOn(x, MinRating(movies), MaxRating(movies)) &&
              1 <= |r| <= Social.ACTIVITY_LIMIT && r[0] == Social.MovieRated(id, x.movie.title, x.score) &&
              r[1..] == log[..Min(|log|, Social.ACTIVITY_LIMIT - 1)]
    ensures !HasId(movies, MovieId, id) ==> AfterRating(log, movies, id) == log
  {
    RecalculatedOrder(movies);
    var scored := RecalculateAllScores(movies);
    if HasId(movies, MovieId, id) {
      FoundAmongScored(movies, scored, id);
      var k := FirstIndex(scored, ScoredId, id).value;
      assert Map(scored, MovieOf)[k] == scored[k].movie;
      assert scored[k] in multiset(scored);
    } else if HasId(scored, ScoredId, id) {
      FoundAmongMovies(movies, scored, id);
    }
  }

  lemma FoundAmongScored(movies: seq<Movie>, scored: seq<Scored>, id: string)
    requires multiset(Map(scored, MovieOf)) == multiset(movies) && HasId(movies, MovieId, id)
    ensures HasId(scored, ScoredId, id)
  {
    var i :| 0 <= i < |movies| && movies[i].id == id;
    assert movies[i] in multiset(Map(scored, MovieOf));
    var j :| 0 <= j < |scored| && Map(scored, MovieOf)[j] == movies[i];
    assert ScoredId(scored[j]) == id;
  }

  lemma FoundAmongMovies(movies: seq<Movie>, scored: seq<Scored>, id: string)
    requires multiset(Map(scored, MovieOf)) == multiset(movies) && HasId(scored, ScoredId, id)
    ensures HasId(movies, MovieId, id)
  {
    var j :| 0 <= j < |scored| && ScoredId(scored[j]) == id;
    assert Map(scored, MovieOf)[j] in multiset(movies);
    var i :| 0 <= i < |movies| && movies[i] == Map(scored, MovieOf)[j];
    assert MovieId(movies[i]) == id;
  }

  /** The opponents `startComparison` lines up for a movie seeded against
      `existing`: min(5, n) of them, each used at most as often as it is
      stored, highest rating first; the whole collection when it has at
      most five movies, and otherwise the five probed from the collection
      sorted by rating (its first, its last and three between). */
  ghost predicate OpponentsFor(queue: seq<Movie>, existing: seq<Movie>)
  {
    |queue| == Min(5, |existing|) &&
    multiset(queue) <= multiset(existing) &&
    NonIncreasing(queue, RatingOf) &&
    (|existing| <= 5 ==> queue == SortDesc(existing, RatingOf)) &&
    (|existing| > 5 ==> forall m :: m in existing ==> queue[4].rating <= m.rating <= queue[0].rating) &&
    (|existing| > 5 ==> ProbedFrom(queue, SortDesc(existing, RatingOf), 5))
  }

  /** What `selectComparisonMovies` returns for at most five opponents is
      the queue `startComparison` needs. */
  lemma OpponentsChosen(existing: seq<Movie>, queue: seq<Movie>)
    requires |existing| <= 5 ==> queue == SortDesc(existing, RatingOf)
    requires NonIncreasing(queue, RatingOf) && multiset(queue) <= multiset(existing)
    requires |existing| > 5 ==>
               |queue| == 5 && forall m :: m in existing ==> queue[4].rating <= m.rating <= queue[0].rating
    requires |existing| > 5 ==> ProbedFrom(queue, SortDesc(existing, RatingOf), 5)
    ensures existing != [] ==> OpponentsFor(queue, existing)
    ensures |queue| == 0 <==> existing == []
  {
  }

  /** `selectComparisonMovies(existing, Math.min(5, existing.length))`:
      the opponents `startComparison` lines up. */
  method ChooseOpponents(existing: seq<Movie>) returns (queue: seq<Movie>)
    ensures existing != [] ==> OpponentsFor(queue, existing)
    ensures |queue| == 0 <==> existing == []
  {
    queue := SelectComparisonMovies(existing, Min(5, |existing|));
    OpponentsChosen(existing, queue);
  }

  /** A movie that is not stored never meets itself. */
  lemma NoSelfComparison(queue: seq<Movie>, existing: seq<Movie>, id: string)
    requires multiset(queue) <= multiset(existing) && !HasId(existing, MovieId, id)
    ensures forall i :: 0 <= i < |queue| ==> queue[i].id != id
  {
    forall i | 0 <= i < |queue| ensures queue[i].id != id {
      assert queue[i] in multiset(existing);
    }
  }

  /** The opinion `startRecompare` reuses: the stored one, or 'fine' when
      it is missing or empty. */
  function RecompareOpinion(stored: Option<string>): (q: Option<string>)
    ensures q.Some? && q.value != ""
    ensures stored.Some? && stored.value != "" ==> q == stored
  {
    if stored.Some? && stored.value != "" then stored else Some("fine")
  }

  /** The app's session state, with the saved collection and the social
      lists it writes to. */
  class App {
    const store: Storage.Store
    const social: Social.SocialStore
    var selectedMovie: Option<Movie>
    var quickRating: Option<string>
    var comparisonQueue: seq<Movie>
    var comparisonIndex: int
    var selectedTags: seq<string>

    /** The app's fields before any interaction. */
    constructor (store: Storage.Store, social: Social.SocialStore)
      ensures this.store == store && this.social == social
      ensures selectedMovie == None && quickRating == None
      ensures comparisonQueue == [] && comparisonIndex == 0 && selectedTags == []
    {
      this.store := store;
      this.social := social;
      selectedMovie := None;
      quickRating := None;
      comparisonQueue := [];
      comparisonIndex := 0;
      selectedTags := [];
    }

    /** The selected movie has been seeded against `existing` with opinion
        `q` and the first opponent is up. */
    ghost predicate SeededAgainst(existing: seq<Movie>, movie: Movie, q: Option<string>)
      reads this
    {
      selectedMovie == Some(movie.(rating := InitialRating(q, existing))) &&
      comparisonIndex == 0 &&
      OpponentsFor(comparisonQueue, existing)
    }

    /** The session is over and its fields are back to their empty values. */
    ghost predicate Reset()
      reads this
    {
      selectedMovie == None && comparisonQueue == [] && comparisonIndex == 0 && quickRating == None
    }

    /** The common tail of `addMovieWithRating` and `finishAddingMovie`:
        save the movie, log its score, and take it off the watchlist. */
    method Save(movie: Movie, now: int)
      modifies store, social
      ensures store.movies == old(store.movies) + [movie.(addedAt := now)]
      ensures store.stats == Storage.Incremented(old(store.stats), Storage.TOTAL_MOVIES)
      ensures store.comparisons == old(store.comparisons)
      ensures social.activities == AfterRating(old(social.activities), store.movies, movie.id)
      ensures social.watchlist == Without(old(social.watchlist), Social.WatchId, movie.id)
      ensures social.friends == old(social.friends)
    {
      store.AddMovie(movie, now);
      LogRating(store.movies, movie.id);
      LeaveWatchlist(movie.id);
    }

    /** Logs the score the saved movie `id` now has among `movies`. */
    method LogRating(movies: seq<Movie>, id: string)
      modifies social
      ensures social.activities == AfterRating(old(social.activities), movies, id)
      ensures social.watchlist == old(social.watchlist) && social.friends == old(social.friends)
    {
      var scored := RecalculateAllScores(movies);
      var found := FirstIndex(scored, ScoredId, id);
      if found.Some? {
        var added := scored[found.value];
        social.RecordMovieRating(id, added.movie.title, added.score);
      }
    }

    /** `if (isInWatchlist(id)) removeFromWatchlist(id)` */
    method LeaveWatchlist(id: string)
      modifies social
      ensures social.watchlist == Without(old(social.watchlist), Social.WatchId, id)
      ensures social.activities == old(social.activities) && social.friends == old(social.friends)
    {
      if social.IsInWatchlist(id) {
        social.RemoveFromWatchlist(id);
      } else {
        WithoutAbsent(social.watchlist, Social.WatchId, id);
      }
    }

    /** `addMovieWithRating()`: saves the selected movie with the opinion's
        rating on an empty scale. The session fields are left as they are. */
    method AddMovieWithRating(now: int)
      requires selectedMovie.Some?
      modifies store, social
      ensures var m := old(selectedMovie.value);
              store.movies == old(store.movies) +
                [m.(rating := InitialRating(old(quickRating), []), quickRating := old(quickRating), addedAt := now)]
      ensures store.stats == Storage.Incremented(old(store.stats), Storage.TOTAL_MOVIES)
      ensures social.activities == AfterRating(old(social.activities), store.movies, old(selectedMovie.value.id))
      ensures social.watchlist == Without(old(social.watchlist), Social.WatchId, old(selectedMovie.value.id))
      ensures store.comparisons == old(store.comparisons) && social.friends == old(social.friends)
    {
      var m := selectedMovie.value;
      var movieToAdd := m.(rating := InitialRating(quickRating, []), quickRating := quickRating);
      Save(movieToAdd, now);
    }

    /** `startComparison()`: seeds the selected movie against the stored
        ones and lines up its opponents; with nothing to compare against it
        saves the movie straight away. */
    method StartComparison(now: int)
      requires selectedMovie.Some?
      modifies this, store, social
      ensures quickRating == old(quickRating) && selectedTags == old(selectedTags)
      ensures store.comparisons == old(store.comparisons) && social.friends == old(social.friends)
      ensures old(store.movies) != [] ==>
                SeededAgainst(old(store.movies), old(selectedMovie.value), quickRating) &&
                store.movies == old(store.movies) && store.stats == old(store.stats) &&
                social.activities == old(social.activities) && social.watchlist == old(social.watchlist)
      ensures old(store.movies) == [] ==>
                var m := old(selectedMovie.value).(rating := InitialRating(old(quickRating), []));
                selectedMovie == Some(m) && comparisonQueue == [] &&
                comparisonIndex == old(comparisonIndex) &&
                store.movies == [m.(quickRating := old(quickRating), addedAt := now)] &&
                store.stats == Storage.Incremented(old(store.stats), Storage.TOTAL_MOVIES) &&
                social.activities == AfterRating(old(social.activities), store.movies, m.id) &&
                social.watchlist == Without(old(social.watchlist), Social.WatchId, m.id)
    {
      var existing := store.movies;
      var initialRating := InitialRating(quickRating, existing);
      selectedMovie := Some(selectedMovie.value.(rating := initialRating));
      var queue := ChooseOpponents(existing);
      comparisonQueue := queue;
      if |comparisonQueue| == 0 {
        AddMovieWithRating(now);
        return;
      }
      comparisonIndex := 0;
    }

    /** `handleQuickRating(rating)`: records the opinion, then saves the
        movie at once into an empty collection or starts comparing. */
    method HandleQuickRating(rating: string, now: int)
      requires selectedMovie.Some?
      modifies this, store, social
      ensures quickRating == Some(rating) && selectedTags == old(selectedTags)
      ensures store.comparisons == old(store.comparisons) && social.friends == old(social.friends)
      ensures old(store.movies) == [] ==>
                var id := old(selectedMovie.value.id);
                selectedMovie == old(selectedMovie) && comparisonQueue == old(comparisonQueue) &&
                comparisonIndex == old(comparisonIndex) &&
                store.movies == [old(selectedMovie.value).(rating := InitialRating(Some(rating), []),
                                                           quickRating := Some(rating), addedAt := now)] &&
                store.stats == Storage.Incremented(old(store.stats), Storage.TOTAL_MOVIES) &&
                social.activities == AfterRating(old(social.activities), store.movies, id) &&
                social.watchlist == Without(old(social.watchlist), Social.WatchId, id)
      ensures old(store.movies) != [] ==>
                SeededAgainst(old(store.movies), old(selectedMovie.value), Some(rating)) &&
                store.movies == old(store.movies) && store.stats == old(store.stats) &&
                social.activities == old(social.activities) && social.watchlist == old(social.watchlist)
    {
      quickRating := Some(rating);
      if |store.movies| == 0 {
        AddMovieWithRating(now);
      } else {
        StartComparison(now);
      }
    }

    /** `finishAddingMovie()`: saves the selected movie with the rating the
        comparisons gave it and ends the session. */
    method FinishAddingMovie(now: int)
      requires selectedMovie.Some?
      modifies this, store, social
      ensures store.movies == old(store.movies) +
                [old(selectedMovie.value).(quickRating := old(quickRating), addedAt := now)]
      ensures store.stats == Storage.Incremented(old(store.stats), Storage.TOTAL_MOVIES)
      ensures store.comparisons == old(store.comparisons)
      ensures social.activities == AfterRating(old(social.activities), store.movies, old(selectedMovie.value.id))
      ensures social.watchlist == Without(old(social.watchlist), Social.WatchId, old(selectedMovie.value.id))
      ensures social.friends == old(social.friends)
      ensures Reset() && selectedTags == old(selectedTags)
    {
      var movieToAdd := selectedMovie.value.(quickRating := quickRating);
      Save(movieToAdd, now);
      ghost var saved, log, watchlist, friends := store.movies, social.activities, social.watchlist, social.friends;
      ResetSession();
      assert store.movies == saved && social.activities == log && social.watchlist == watchlist && social.friends == friends;
    }

    /** The state reset at the end of `finishAddingMovie`. */
    method ResetSession()
      modifies this
      ensures Reset() && selectedTags == old(selectedTags)
    {
      selectedMovie := None;
      comparisonQueue := [];
      comparisonIndex := 0;
      quickRating := None;
    }

    /** `handleComparison(score)`: rates the selected movie against the
        current opponent, saves the opponent's new rating and the verdict,
        and moves on; after the last opponent the movie is saved. */
    method HandleComparison(verdict: Verdict, e: (int, int) -> real, now: int)
      requires selectedMovie.Some? && 0 <= comparisonIndex < |comparisonQueue|
      requires IsExpectedScore(e)
      modifies this, store, social
      ensures store.comparisons ==
                old(store.comparisons) + [Storage.Comparison(old(selectedMovie.value.id), old(comparisonQueue[comparisonIndex].id), verdict)]
      ensures social.friends == old(social.friends) && selectedTags == old(selectedTags)
      ensures old(comparisonIndex) + 1 < old(|comparisonQueue|) ==>
                var m := old(selectedMovie.value);
                var opponent := old(comparisonQueue[comparisonIndex]);
                var ratings := NewRatings(m.rating, opponent.rating, verdict, e);
                selectedMovie == Some(m.(rating := ratings.0)) &&
                comparisonIndex == old(comparisonIndex) + 1 &&
                comparisonQueue == old(comparisonQueue) && quickRating == old(quickRating) &&
                store.movies == Storage.WithRating(old(store.movies), opponent.id, ratings.1) &&
                store.stats == Storage.Incremented(old(store.stats), Storage.TOTAL_COMPARISONS) &&
                social.activities == old(social.activities) && social.watchlist == old(social.watchlist)
      ensures old(comparisonIndex) + 1 == old(|comparisonQueue|) ==>
                var m := old(selectedMovie.value);
                var opponent := old(comparisonQueue[comparisonIndex]);
                var ratings := NewRatings(m.rating, opponent.rating, verdict, e);
                var counted := Storage.Incremented(old(store.stats), Storage.TOTAL_COMPARISONS);
                Reset() &&
                store.movies == Storage.WithRating(old(store.movies), opponent.id, ratings.1) +
                                [m.(rating := ratings.0, quickRating := old(quickRating), addedAt := now)] &&
                store.stats == Storage.Incremented(counted, Storage.TOTAL_MOVIES) &&
                social.activities == AfterRating(old(social.activities), store.movies, m.id) &&
                social.watchlist == Without(old(social.watchlist), Social.WatchId, m.id)
    {
      ghost var id, watchlist, friends := selectedMovie.value.id, social.watchlist, social.friends;
      RecordVerdict(verdict, e);
      assert selectedMovie.value.id == id && social.watchlist == watchlist && social.friends == friends;
      if comparisonIndex >= |comparisonQueue| {
        FinishAddingMovie(now);
        assert social.watchlist == Without(watchlist, Social.WatchId, id);
      }
    }

    /** The first half of `handleComparison`: both new ratings, the
        comparison record, and the step to the next opponent. */
    method RecordVerdict(verdict: Verdict, e: (int, int) -> real)
      requires selectedMovie.Some? && 0 <= comparisonIndex < |comparisonQueue|
      requires IsExpectedScore(e)
      modifies this, store
      ensures var m := old(selectedMovie.value);
              var opponent := old(comparisonQueue[comparisonIndex]);
              var ratings := NewRatings(m.rating, opponent.rating, verdict, e);
              selectedMovie == Some(m.(rating := ratings.0)) &&
              comparisonIndex == old(comparisonIndex) + 1 && comparisonQueue == old(comparisonQueue) &&
              quickRating == old(quickRating) && selectedTags == old(selectedTags) &&
              store.movies == Storage.WithRating(old(store.movies), opponent.id, ratings.1) &&
              store.stats == Storage.Incremented(old(store.stats), Storage.TOTAL_COMPARISONS) &&
              store.comparisons == old(store.comparisons) + [Storage.Comparison(m.id, opponent.id, verdict)]
    {
      var opponent := comparisonQueue[comparisonIndex];
      var m := selectedMovie.value;
      var ratingA, ratingB := CalculateNewRatings(m.rating, opponent.rating, verdict, e);
      selectedMovie := Some(m.(rating := ratingA));
      store.UpdateMovieRating(opponent.id, ratingB);
      store.RecordComparison(Storage.Comparison(m.id, opponent.id, verdict));
      comparisonIndex := comparisonIndex + 1;
    }

    /** `startRecompare()`: takes the selected movie out of the collection
        and ranks it again from its stored opinion (or 'fine'). */
    method StartRecompare(now: int)
      requires selectedMovie.Some?
      modifies this, store, social
      ensures quickRating == RecompareOpinion(old(selectedMovie.value.quickRating)) &&
              selectedTags == old(selectedTags)
      ensures store.comparisons == old(store.comparisons) && social.friends == old(social.friends)
      ensures var m := old(selectedMovie.value);
              var remaining := Without(old(store.movies), MovieId, m.id);
              remaining != [] ==>
                SeededAgainst(remaining, m, quickRating) && store.movies == remaining &&
                store.stats == old(store.stats) && social.activities == old(social.activities) &&
                social.watchlist == old(social.watchlist) &&
                forall i :: 0 <= i < |comparisonQueue| ==> comparisonQueue[i].id != m.id
      ensures var m := old(selectedMovie.value);
              var q := quickRating;
              Without(old(store.movies), MovieId, m.id) == [] ==>
                selectedMovie == Some(m.(rating := InitialRating(q, []))) && comparisonQueue == [] &&
                comparisonIndex == old(comparisonIndex) &&
                store.movies == [m.(rating := InitialRating(q, []), quickRating := q, addedAt := now)] &&
                store.stats == Storage.Incremented(old(store.stats), Storage.TOTAL_MOVIES) &&
                social.activities == AfterRating(old(social.activities), store.movies, m.id) &&
                social.watchlist == Without(old(social.watchlist), Social.WatchId, m.id)
    {
      var m := selectedMovie.value;
      quickRating := RecompareOpinion(m.quickRating);
      store.RemoveMovie(m.id);
      ghost var remaining := store.movies;
      selectedMovie := Some(m);
      StartComparison(now);
      if remaining != [] {
        NoSelfComparison(comparisonQueue, remaining, m.id);
      }
    }

    /** `toggleTag(tag)` */
    method ToggleTag(tag: string)
      modifies this
      ensures selectedTags == Toggled(old(selectedTags), tag)
      ensures selectedMovie == old(selectedMovie) && comparisonQueue == old(comparisonQueue)
      ensures comparisonIndex == old(comparisonIndex) && quickRating == old(quickRating)
    {
      var idx := FirstIndex(selectedTags, TagId, tag);
      if idx.Some? {
        selectedTags := selectedTags[..idx.value] + selectedTags[idx.value + 1..];
      } else {
        selectedTags := selectedTags + [tag];
      }
    }
  }
}
