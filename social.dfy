/** The social side of the app that lives next to the collection: the friend
    list, the watchlist and the activity log, each a list the source loads,
    changes and saves back; the scores demo friends gave a movie; and the
    emoji shown for a genre. Profile data, sharing links, clocks and the
    user id stamped on activities are not modelled. */
module Social {
  import opened Common
  import opened Lists

  /** The fields `addFriend` copies from a friend's profile. */
  datatype Friend = Friend(id: string, username: string, displayName: string, avatar: string)

  function FriendId(f: Friend): string { f.id }

  /** The fields `addToWatchlist` copies from a movie (the poster URL is
      display data and is left out). */
  datatype WatchItem = WatchItem(id: string, title: string, year: Option<int>)

  function WatchId(w: WatchItem): string { w.id }

  /** The three kinds of activity the app records, with their payloads; a
      score is in tenths. */
  datatype Activity =
    | FriendAdded(friendId: string, friendName: string)
    | WatchlistAdded(movieId: string, movieTitle: string)
    | MovieRated(movieId: string, movieTitle: string, score: int)

  /** How many activities the log keeps. */
  const ACTIVITY_LIMIT: nat := 100

  /** The default `limit` of `getActivityFeed`. */
  const FEED_LIMIT: int := 20

  /** `recordActivity(a)` on a stored log: the new activity goes first and the
      log keeps its 100 most recent entries. */
  function Logged(log: seq<Activity>, a: Activity): (r: seq<Activity>)
    ensures 1 <= |r| <= ACTIVITY_LIMIT && r[0] == a
    ensures r[1..] == log[..Min(|log|, ACTIVITY_LIMIT - 1)]
  {
    var r := Prefix([a] + Prefix(log, ACTIVITY_LIMIT), ACTIVITY_LIMIT);
    assert r[1..] == log[..Min(|log|, ACTIVITY_LIMIT - 1)];
    r
  }

  /** Logging keeps everything that fits below the new entry, newest first:
      an activity logged `k` steps ago (k < 100) is at position `k`. */
  lemma {:induction false} LoggedTwice(log: seq<Activity>, a: Activity, b: Activity)
    ensures var r := Logged(Logged(log, a), b);
            r[0] == b && r[1] == a && r[2..] == log[..Min(|log|, ACTIVITY_LIMIT - 2)]
  {
    var once := Logged(log, a);
    var r := Logged(once, b);
    assert r[1..] == once[..Min(|once|, ACTIVITY_LIMIT - 1)];
    assert r[1] == once[0];
    assert r[2..] == once[1..Min(|once|, ACTIVITY_LIMIT - 1)];
  }

  /** One entry of a demo friend's list: a movie id and the score they gave
      it, in tenths. */
  datatype DemoRating = DemoRating(id: string, score: int)

  function DemoRatingId(d: DemoRating): string { d.id }

  /** A demo friend and the movies they rated. */
  datatype DemoFriend = DemoFriend(id: string, movies: seq<DemoRating>)

  function DemoFriendId(d: DemoFriend): string { d.id }

  /** `getDemoFriends()`: the fixed sample data standing in for a server. */
  const DEMO_FRIENDS: seq<DemoFriend> := [
    DemoFriend("demo_alex", [
      DemoRating("tt1375666", 92), DemoRating("tt0468569", 95), DemoRating("tt0137523", 88),
      DemoRating("tt0816692", 90), DemoRating("tt0111161", 98)]),
    DemoFriend("demo_sam", [
      DemoRating("tt0068646", 100), DemoRating("tt0071562", 95), DemoRating("tt0110912", 90),
      DemoRating("tt0109830", 85), DemoRating("tt0073486", 92)]),
    DemoFriend("demo_jordan", [
      DemoRating("tt0133093", 95), DemoRating("tt0167260", 100), DemoRating("tt0120737", 98),
      DemoRating("tt0080684", 90), DemoRating("tt0245429", 93)])
  ]

  /** What a friend's entry in `getFriendScoresForMovie` carries. */
  datatype FriendScore = FriendScore(friendId: string, friendName: string, friendAvatar: string, score: int)

  function ScoreOf(s: FriendScore): int { s.score }

  datatype FriendScores = FriendScores(scores: seq<FriendScore>, averageScore: int, count: nat)

  /** Some entry of `demo` for friend `friendId` scores `movieId` with `score`. */
  predicate Rated(demo: seq<DemoFriend>, friendId: string, movieId: string, score: int)
  {
    exists i, j :: 0 <= i < |demo| && 0 <= j < |demo[i].movies| && demo[i].id == friendId &&
                   demo[i].movies[j].id == movieId && demo[i].movies[j].score == score
  }

  /** The score `demo` holds for friend `f` on `movieId`: the first demo
      friend with that id, then the first of their entries for the movie. */
  function DemoScore(demo: seq<DemoFriend>, f: Friend, movieId: string): (r: Option<int>)
    ensures !HasId(demo, DemoFriendId, f.id) ==> r == None
    ensures r.Some? ==> Rated(demo, f.id, movieId, r.value)
    // found exactly when the first demo friend with the id rates the movie,
    // and then it is the score of that friend's first entry for it
    ensures HasId(demo, DemoFriendId, f.id) ==>
              var d := demo[FirstIndex(demo, DemoFriendId, f.id).value];
              (r.Some? <==> HasId(d.movies, DemoRatingId, movieId)) &&
              (r.Some? ==> r.value == d.movies[FirstIndex(d.movies, DemoRatingId, movieId).value].score)
  {
    match FirstIndex(demo, DemoFriendId, f.id)
    case None => None
    case Some(i) =>
      match FirstIndex(demo[i].movies, DemoRatingId, movieId)
      case None => None
      case Some(j) => Some(demo[i].movies[j].score)
  }

  /** The `forEach` over the friend list that collects the friends' scores
      for a movie, in friend-list order. */
  function ScoresAmong(friends: seq<Friend>, demo: seq<DemoFriend>, movieId: string): (r: seq<FriendScore>)
    ensures |r| == CountWhere(friends, f => DemoScore(demo, f, movieId).Some?)
    ensures r == [] <==> forall i :: 0 <= i < |friends| ==> DemoScore(demo, friends[i], movieId).None?
  {
    if friends == [] then []
    else
      var f := friends[0];
      var rest := ScoresAmong(friends[1..], demo, movieId);
      assert forall i :: 1 <= i < |friends| ==> friends[i] == friends[1..][i - 1];
      match DemoScore(demo, f, movieId)
      case None => rest
      case Some(s) =>
        var r := [FriendScore(f.id, f.displayName, f.avatar, s)] + rest;
        assert forall k :: 1 <= k < |r| ==> r[k] == rest[k - 1];
        r
  }

  function SumScores(scores: seq<FriendScore>): int
  {
    if scores == [] then 0 else scores[0].score + SumScores(scores[1..])
  }

  /** `getFriendScoresForMovie(movieId)`: null when no friend has scored the
      movie, otherwise their scores, how many there are and the average. */
  function FriendScoresForMovie(friends: seq<Friend>, demo: seq<DemoFriend>, movieId: string): (r: Option<FriendScores>)
    ensures r.None? <==> forall i :: 0 <= i < |friends| ==> DemoScore(demo, friends[i], movieId).None?
    ensures r.Some? ==> 0 < r.value.count == |r.value.scores| <= |friends|
    ensures r.Some? ==> r.value.scores == ScoresAmong(friends, demo, movieId)
  {
    var scores := ScoresAmong(friends, demo, movieId);
    if scores == [] then None
    else Some(FriendScores(scores, Round(SumScores(scores) as real / |scores| as real), |scores|))
  }

  /** A friend with no demo data contributes nothing. */
  lemma StrangerScoresNothing()
    ensures FriendScoresForMovie([Friend("someone", "s", "S", "")], DEMO_FRIENDS, "tt0468569").None?
  {
    assert !HasId(DEMO_FRIENDS, DemoFriendId, "someone") by {
      assert DEMO_FRIENDS[0].id != "someone" && DEMO_FRIENDS[1].id != "someone" && DEMO_FRIENDS[2].id != "someone";
    }
  }

  /** Alex's demo score for The Dark Knight. */
  lemma AlexScore(alex: Friend)
    requires alex.id == "demo_alex"
    ensures DemoScore(DEMO_FRIENDS, alex, "tt0468569") == Some(95)
  {
    assert FirstIndex(DEMO_FRIENDS, DemoFriendId, "demo_alex") == Some(0);
    assert FirstIndex(DEMO_FRIENDS[0].movies, DemoRatingId, "tt0468569") == Some(1);
  }

  /** A demo friend's score shows up for the movie they rated. */
  lemma DemoFriendScores()
    ensures var r := FriendScoresForMovie([Friend("demo_alex", "alex_movies", "Alex Chen", "\U{1F3AD}")],
                                          DEMO_FRIENDS, "tt0468569");
            r.Some? && r.value.count == 1 && r.value.averageScore == 95
  {
    var alex := Friend("demo_alex", "alex_movies", "Alex Chen", "\U{1F3AD}");
    AlexScore(alex);
    var scores := ScoresAmong([alex], DEMO_FRIENDS, "tt0468569");
    assert scores == [FriendScore("demo_alex", "Alex Chen", "\U{1F3AD}", 95)];
    assert SumScores(scores) == 95;
  }

  /** The genre icons of `getGenreIcon`. */
  const GENRE_ICONS: map<string, string> := map[
    "Action" := "\U{1F4A5}",
    "Adventure" := "\U{1F5FA}\U{FE0F}",
    "Animation" := "\U{1F3A8}",
    "Biography" := "\U{1F4D6}",
    "Comedy" := "\U{1F602}",
    "Crime" := "\U{1F52B}",
    "Documentary" := "\U{1F3A5}",
    "Drama" := "\U{1F3AD}",
    "Family" := "\U{1F468}\U{200D}\U{1F469}\U{200D}\U{1F467}\U{200D}\U{1F466}",
    "Fantasy" := "\U{1F9D9}",
    "Film-Noir" := "\U{1F3A9}",
    "History" := "\U{1F4DC}",
    "Horror" := "\U{1F47B}",
    "Music" := "\U{1F3B5}",
    "Musical" := "\U{1F3B6}",
    "Mystery" := "\U{1F50D}",
    "Romance" := "\U{2764}\U{FE0F}",
    "Sci-Fi" := "\U{1F680}",
    "Sport" := "\U{26BD}",
    "Thriller" := "\U{1F631}",
    "War" := "\U{2694}\U{FE0F}",
    "Western" := "\U{1F920}"
  ]

  /** The clapperboard shown for any other genre. */
  const DEFAULT_ICON: string := "\U{1F3AC}"

  /** `getGenreIcon(genre)`: the genre's own icon, or the default. */
  function GenreIcon(genre: string): (icon: string)
    ensures genre in GENRE_ICONS ==> icon == GENRE_ICONS[genre]
    ensures icon == DEFAULT_ICON <==> genre !in GENRE_ICONS
  {
    if genre in GENRE_ICONS then GENRE_ICONS[genre] else DEFAULT_ICON
  }

  /** The saved friend list, watchlist and activity log. */
  class SocialStore {
    var friends: seq<Friend>
    var watchlist: seq<WatchItem>
    var activities: seq<Activity>

    /** Nothing saved yet. */
    constructor ()
      ensures friends == [] && watchlist == [] && activities == []
    {
      friends := [];
      watchlist := [];
      activities := [];
    }

    /** `getActivityFeed(limit)`: the `limit` most recent activities (a
        negative limit counts back from the end, as `slice` does). */
    function ActivityFeed(limit: int): (feed: seq<Activity>)
      reads this
      ensures |feed| <= |activities| && feed == activities[..|feed|]
      ensures limit >= 0 ==> |feed| == Min(limit, |activities|)
    {
      Prefix(activities, limit)
    }

    /** `getActivityFeed()` with its default limit: the 20 most recent
        activities, or all of them when there are fewer. */
    function DefaultActivityFeed(): (feed: seq<Activity>)
      reads this
      ensures |feed| == Min(FEED_LIMIT, |activities|) && feed == activities[..|feed|]
    {
      ActivityFeed(FEED_LIMIT)
    }

    /** `recordActivity(a)`: reads back at most 100 entries, puts the new
        one in front and saves the first 100. */
    method RecordActivity(a: Activity)
      modifies this
      ensures activities == Logged(old(activities), a)
      ensures friends == old(friends) && watchlist == old(watchlist)
    {
      var recent := ActivityFeed(ACTIVITY_LIMIT);
      recent := [a] + recent;
      activities := Prefix(recent, ACTIVITY_LIMIT);
    }

    /** `recordMovieRating(movie, score)` */
    method RecordMovieRating(movieId: string, title: string, score: int)
      modifies this
      ensures activities == Logged(old(activities), MovieRated(movieId, title, score))
      ensures friends == old(friends) && watchlist == old(watchlist)
    {
      RecordActivity(MovieRated(movieId, title, score));
    }

    /** `addFriend(profile)`: a friend whose id is new is appended and the
        addition logged; an id already listed changes nothing. */
    method AddFriend(profile: Friend)
      modifies this
      ensures friends == AddOnce(old(friends), profile, FriendId)
      ensures HasId(old(friends), FriendId, profile.id) ==> activities == old(activities)
      ensures !HasId(old(friends), FriendId, profile.id) ==>
                activities == Logged(old(activities), FriendAdded(profile.id, profile.displayName))
      ensures watchlist == old(watchlist)
    {
      if !HasId(friends, FriendId, profile.id) {
        friends := friends + [profile];
        RecordActivity(FriendAdded(profile.id, profile.displayName));
      }
    }

    /** `removeFriend(id)` */
    method RemoveFriend(id: string)
      modifies this
      ensures friends == Without(old(friends), FriendId, id)
      ensures watchlist == old(watchlist) && activities == old(activities)
    {
      friends := Without(friends, FriendId, id);
    }

    /** `addToWatchlist(movie)`: as `addFriend`, for the watchlist. */
    method AddToWatchlist(item: WatchItem)
      modifies this
      ensures watchlist == AddOnce(old(watchlist), item, WatchId)
      ensures HasId(old(watchlist), WatchId, item.id) ==> activities == old(activities)
      ensures !HasId(old(watchlist), WatchId, item.id) ==>
                activities == Logged(old(activities), WatchlistAdded(item.id, item.title))
      ensures friends == old(friends)
    {
      if !HasId(watchlist, WatchId, item.id) {
        watchlist := watchlist + [item];
        RecordActivity(WatchlistAdded(item.id, item.title));
      }
    }

    /** `removeFromWatchlist(id)` */
    method RemoveFromWatchlist(id: string)
      modifies this
      ensures watchlist == Without(old(watchlist), WatchId, id)
      ensures friends == old(friends) && activities == old(activities)
    {
      watchlist := Without(watchlist, WatchId, id);
    }

    /** `isInWatchlist(id)` */
    function IsInWatchlist(id: string): (b: bool)
      reads this
      ensures b <==> exists i :: 0 <= i < |watchlist| && watchlist[i].id == id
    {
      HasId(watchlist, WatchId, id)
    }

    /** `getFriendScoresForMovie(movieId)` over the saved friends. */
    function FriendScoresFor(movieId: string): (r: Option<FriendScores>)
      reads this
      ensures r.None? <==> forall i :: 0 <= i < |friends| ==> DemoScore(DEMO_FRIENDS, friends[i], movieId).None?
    {
      FriendScoresForMovie(friends, DEMO_FRIENDS, movieId)
    }
  }

  /** Adding to the watchlist and then asking finds the movie; removing it
      again and asking does not, and restores the list when the add was
      new. */
  lemma WatchlistRoundTrip(list: seq<WatchItem>, item: WatchItem)
    ensures HasId(AddOnce(list, item, WatchId), WatchId, item.id)
    ensures !HasId(Without(AddOnce(list, item, WatchId), WatchId, item.id), WatchId, item.id)
    ensures !HasId(list, WatchId, item.id) ==>
              Without(AddOnce(list, item, WatchId), WatchId, item.id) == list
  {
    if !HasId(list, WatchId, item.id) {
      WithoutAddOnce(list, item, WatchId);
    }
  }
}
