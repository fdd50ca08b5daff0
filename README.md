# Teli ranking engine in Dafny

Teli is a browser app that ranks the movies a user has seen by asking them
to compare pairs of movies. This project models its core in Dafny and proves
properties of that model. The core has four parts:

- **The rating model** (`js/elo.js`), in module `Elo`:
  - the Elo update after one comparison, including the "the movie the user
    preferred ranks at least as high" override and the floor of 100;
  - the 1-10 display score, relative to the lowest and highest rating in
    the collection;
  - the five score classes;
  - the seed rating of a new movie;
  - the choice of opponents for a new movie (top, bottom, median and
    quartiles);
  - the scored, best-first view of the collection.
- **The collection store** (`js/storage.js`), in module `Storage`. Class
  `Store` holds the movie records, the comparison log and the stats
  counters.
- **The ranking session** (`js/app.js`), in module `Session`. Class `App`
  holds the selected movie, the quick opinion, the opponent queue and its
  index, and the selected tags. Its methods are the session's state
  transitions:
  - seeding a new movie;
  - one comparison step;
  - committing the movie;
  - ranking a stored movie again;
  - toggling a tag.
- **The social list logic** (`js/social.js`):
  - in module `Social`: friends and the watchlist without duplicate ids,
    the capped activity log, the demo friends' scores for a movie, and the
    genre icons;
  - in module `Curation`: the taste profile and the curated lists.

Supporting modules:

- `Common`: JavaScript's `Math.round` and `slice`.
- `Lists`: the stable best-first sort, removal and lookup by id, add-once,
  counting and filtering.
- `Groups`: the insertion-ordered dictionary grouping that the source builds
  with `obj[key] = obj[key] || []` loops and reads back with
  `Object.entries`.
- `Records`: the movie record.

Modelling conventions:

- Ratings are integers. A display score is an integer number of tenths, so
  7.5 is 75.
- `Math.round(x)` is `floor(x + 1/2)` computed over exact reals.
- The expected score `1 / (1 + 10^((b - a) / 400))` is a function parameter
  `e`. The model knows only three facts about it (`Elo.IsExpectedScore`):
  - `e(a, b)` lies strictly between 0 and 1;
  - `e(a, a)` is 1/2;
  - `e(a, b) + e(b, a)` is 1.
- The verdict of a comparison (1, 0.5 or 0 in the source) is the datatype
  `Elo.Verdict`.
- `localStorage` is replaced by the fields of `Store` and `SocialStore`.
- The clock is a parameter `now`. It gives the `addedAt` stamp that the
  "recently added" orderings sort by.

## Model

| member | source | states |
|---|---|---|
| Common.Round | js/elo.js:36-37 | `Math.round`: the integer within one half of x, with halves rounded up |
| Common.RoundShift | js/elo.js:102-104 | rounding commutes with adding a whole number (why the liked/disliked seeds are exactly 100 from the "fine" seed) |
| Common.RoundMonotone | js/elo.js:77 | rounding preserves order |
| Common.Prefix | js/social.js:237 | `slice(0, end)`: the first min(end, n) elements for end >= 0; for a negative end, all but the last -end elements |
| Lists.SortDesc | js/elo.js:121 | the best-first `sort` comparator: the result is ordered non-increasing by the key and is a permutation of the input |
| Lists.SortedHeadIsMax | js/elo.js:121-124 | in a best-first list, the head has the largest key and the last element the smallest |
| Lists.MapSortDesc | js/elo.js:186-192 | sorting after adding scores equals adding scores after sorting, because the stable sort sees only the rating |
| Lists.SortDescStable | js/elo.js:121 | the sort is stable: the elements with any one key come out in their input order |
| Lists.Top | js/social.js:648-650 | `sort` by a key, best first, then `slice(0, k)`: min(k, n) elements of the input, best first, and no element left out has a higher key than the last one kept |
| Lists.FirstIndex | js/storage.js:62 | `find`: the index of the first element with the id, or none exactly when no element has it |
| Lists.Without | js/storage.js:95 | `filter(m => m.id !== id)`: no element with the id is left, every element with another id is kept, and nothing else is added |
| Lists.WithoutAppend | js/social.js:131 | the filter works element by element, so the rest keeps its relative order |
| Lists.WithoutDistinct | js/social.js:396 | removing by id keeps ids distinct |
| Lists.AddOnce | js/social.js:105-112 | the "push unless an element with the id is there" step: an absent id gets exactly the new element appended, a present id leaves the list unchanged, and distinct ids stay distinct |
| Lists.AddOnceMembership | js/social.js:105 | after adding once, an id is present if and only if it was present before or is the added id |
| Lists.WithoutAddOnce | js/social.js:394-399 | removing an id that was just added restores the original list |
| Lists.CountWhere | js/social.js:472-476 | `filter(p).length`: at most the list length, and zero exactly when no element satisfies p |
| Lists.CountWhereAppend | js/social.js:472-476 | counts add up over concatenation |
| Lists.Filter | js/social.js:662 | `filter(p)`: every kept element satisfies p, every element that satisfies p is kept, the length is the count of such elements, and it is a sub-multiset of the input |
| Lists.FilterCons | js/social.js:662 | the head is kept in front exactly when it satisfies p |
| Lists.FilterAppend | js/social.js:662 | filtering a concatenation concatenates the filtered parts, so kept elements keep their order |
| Groups.GroupedSpec | js/storage.js:279-287 | accumulating into a dictionary gives distinct keys, and each key's members are the items listing that key, in order and once per listing |
| Groups.GroupNonEmpty | js/social.js:596-599 | a key only appears in the dictionary together with a first member |
| Groups.GroupedKeys | js/social.js:428-438 | the dictionary has an entry for a key if and only if some item lists that key |
| Groups.AddUnderAllSpec | js/social.js:595-600 | one item's pass appends it under each of its keys and changes no other key's list |
| Groups.GroupBy | js/social.js:592-602 | the `forEach`/`push` loops build exactly the grouping `Grouped` describes |
| Elo.NewRatings | js/elo.js:31-57 | both ratings are at least 100; a preferred new movie ends at least as high as the existing one and the reverse for a preferred existing movie; the preferred side never loses rating and the other never gains above the floor; a draw between equal ratings changes neither; without the override each side is its rounded Elo update, with it the pair is the rounded midpoint plus or minus one |
| Elo.CalculateNewRatings | js/elo.js:31-57 | the branch-by-branch reassignment of `newRatingA`/`newRatingB` returns exactly `NewRatings` |
| Elo.RatingToScore | js/elo.js:67-78 | 7.5 when min equals max; otherwise the linear value 1 + 9·(rating − min)/(max − min) rounded to the nearest tenth, a half rounding up: 10 at max, 1 at min and between 1 and 10 for ratings in range |
| Elo.RatingToScoreMonotone | js/elo.js:73-77 | a higher rating never gets a lower display score |
| Elo.RatingToScoreExamples | js/elo.js:67-78 | sample values: 7.5, 10, 1, 5.5 and 3.3 |
| Elo.ScoreClassOf | js/elo.js:165-171 | each class holds exactly the scores in its half-open band: at least 8.5, [7, 8.5), [5.5, 7), [4, 5.5), below 4 |
| Elo.ScoreClassMonotone | js/elo.js:165-171 | a higher score never falls into a lower class |
| Elo.MinRating | js/elo.js:183 | `Math.min(...ratings)` is a lower bound of the ratings |
| Elo.MaxRating | js/elo.js:184 | `Math.max(...ratings)` is an upper bound of the ratings |
| Elo.ExtremesAttained | js/elo.js:183-184 | both extremes are some movie's rating |
| Elo.InitialRating | js/elo.js:86-107 | first movie: liked 1600, fine 1500, disliked 1400, any other opinion 1500; otherwise the integer nearest to the mean rating plus the opinion's offset (+100 liked, -100 disliked, 0 otherwise), a half rounding up, which lies between the lowest and highest rating shifted by that offset |
| Elo.MeanBetween | js/elo.js:98 | the mean rating lies between the lowest and the highest rating |
| Elo.InitialRatingOffsets | js/elo.js:101-106 | over a non-empty collection, liked is exactly 100 above fine, disliked exactly 100 below, and an unknown or missing opinion equals fine |
| Elo.InitialRatingExamples | js/elo.js:98-104 | with ratings 1600, 1400 and 1500 the seeds are 1600, 1500 and 1400 |
| Elo.SortedDistinct | js/elo.js:157 | `[...new Set(indices)].sort()`: strictly increasing, with the same elements as the input |
| Elo.StrictlyIncreasingUnique | js/elo.js:157 | a strictly increasing list is determined by its elements |
| Elo.BinarySearchIndices | js/elo.js:144-158 | the probes are strictly increasing and in range; they are exactly the top, bottom, median and quartile probes that selectCount enables; there are at most selectCount of them; with 5 probes over at least 5 movies there are exactly 5 |
| Elo.PushProbes | js/elo.js:147-154 | the pushed indices are exactly the probes selectCount enables (top, bottom, median, quartiles), at most selectCount of them |
| Elo.SelectComparisonMovies | js/elo.js:117-136 | nothing for an empty collection; the whole collection best-first when it has at most max movies; otherwise exactly the movies at the probe positions (`BinarySearchIndices`) of the best-first order, in position order: at most max movies, drawn from the collection, spanning its highest and lowest rating when max >= 2, and exactly 5 when max >= 5 |
| Elo.ProbeSelect | js/elo.js:126-133 | over more movies than comparisons: the movies at exactly the enabled probe positions of the sorted list, best first, spanning both ends when max >= 2 |
| Elo.FiveProbes | js/elo.js:144-158 | with five probes over at least five movies the probes are distinct and come out as 0, n/4, n/2, 3n/4, n-1 |
| Elo.PickSubMultiset | js/elo.js:131-133 | picking at strictly increasing indices never takes a movie twice |
| Elo.PickAt | js/elo.js:131-133 | the `map` over the indices returns the sorted movies at those indices, in index order |
| Elo.RecalculateAllScores | js/elo.js:179-193 | one scored entry per movie, best rating first |
| Elo.RecalculatedOrder | js/elo.js:179-193 | a permutation of the collection, best rating first (stable), each movie carrying the display score and class of its rating on the collection's scale |
| Elo.RecalculatedScores | js/storage.js:249-269 | `getMoviesWithScores` over a non-empty collection: as many entries as movies, ordered by rating; with differing ratings the first scores 10, the last 1 and every score lies in [1, 10]; with equal ratings every score is 7.5 |
| Elo.ScoresWithinScale | js/elo.js:186-191 | every recomputed score lies within 1 to 10 |
| Storage.DefaultStats | js/storage.js:174-177 | the default stats hold both counters at 0, and a missing stat reads as 0 |
| Storage.StatOf | js/storage.js:189 | a stored counter reads as its value and a missing one as 0 |
| Storage.Incremented | js/storage.js:187-191 | the named stat (0 when missing) goes up by exactly one and every other stat is unchanged |
| Storage.WithRating | js/storage.js:60-69 | only the first record with the id gets the new rating; every other record is unchanged, and an absent id changes nothing |
| Storage.WithNotes | js/storage.js:77-87 | only the first record with the id gets the notes and tags; nothing else changes |
| Storage.WithRatingKeepsIds | js/storage.js:60-69 | a rating update keeps every record's id in place, so later lookups find the same records |
| Storage.TopGenres | js/storage.js:275-291 | at most 5 distinct genres, most-listed first; each count is the number of times the collection lists that genre; any genre left out is listed no more often than the fifth |
| Storage.Store.constructor | js/storage.js:30-37 | an empty store: no movies, no comparisons, default stats |
| Storage.Store.AddMovie | js/storage.js:44-53 | appends exactly one record, stamped with `now`, after the unchanged earlier records, and raises `totalMovies` by one |
| Storage.Store.UpdateMovieRating | js/storage.js:60-69 | the movie list becomes `WithRating`; stats and comparisons are unchanged |
| Storage.Store.UpdateMovieNotes | js/storage.js:77-87 | the movie list becomes `WithNotes`; stats and comparisons are unchanged |
| Storage.Store.RemoveMovie | js/storage.js:93-98 | drops every record with the id and keeps the rest in order |
| Storage.Store.HasMovie | js/storage.js:105-108 | true if and only if some record has the id |
| Storage.Store.GetMovie | js/storage.js:115-118 | the first record with the id, or none exactly when `HasMovie` is false |
| Storage.Store.IncrementStat | js/storage.js:187-191 | the stats become `Incremented`; movies and comparisons are unchanged |
| Storage.Store.RecordComparison | js/storage.js:124-136 | appends the comparison and raises `totalComparisons` by one |
| Storage.Store.GetTopGenres | js/storage.js:275-291 | the counting loop over the stored movies returns `TopGenres` |
| Social.Logged | js/social.js:247-261 | the new activity comes first, the older ones follow in order, and the log never exceeds 100 entries |
| Social.LoggedTwice | js/social.js:249-257 | two activities logged in a row sit at positions 0 and 1, newest first, above the older log |
| Social.ScoresAmong | js/social.js:323-336 | one entry per friend who has a demo score for the movie |
| Social.DemoScore | js/social.js:326-329 | nothing for a friend without a demo entry; otherwise a score exactly when the first demo friend with that id has an entry for the movie, and then it is the score of the first such entry |
| Social.FriendScoresForMovie | js/social.js:318-346 | null exactly when no friend scored the movie; otherwise count equals the number of scores, is positive, and is at most the number of friends |
| Social.AlexScore | js/social.js:157-168 | the demo data gives friend demo_alex a 9.5 for The Dark Knight (tt0468569) |
| Social.StrangerScoresNothing | js/social.js:318-338 | a friend absent from the demo data yields null for The Dark Knight |
| Social.DemoFriendScores | js/social.js:318-346 | with demo_alex as the only friend, The Dark Knight gets one score and an average of 9.5 |
| Social.GenreIcon | js/social.js:693-719 | a genre in the icon table gets its own icon, and the clapperboard appears exactly for genres not in the table |
| Social.SocialStore.constructor | js/social.js:89-96 | no friends, no watchlist and no activities |
| Social.SocialStore.ActivityFeed | js/social.js:233-241 | `slice(0, limit)`: a prefix of the log, of length min(limit, n) for a non-negative limit |
| Social.SocialStore.DefaultActivityFeed | js/social.js:233-241 | with the default limit: the first min(20, n) activities of the log |
| Social.SocialStore.RecordActivity | js/social.js:247-261 | the log becomes `Logged` of the old log; friends and watchlist are unchanged |
| Social.SocialStore.RecordMovieRating | js/social.js:268-276 | logs one movie-rated activity carrying the id, title and score |
| Social.SocialStore.AddFriend | js/social.js:103-123 | friends become `AddOnce`, so no id is ever duplicated; a known id changes nothing and logs nothing, and a new id logs one friend-added activity |
| Social.SocialStore.RemoveFriend | js/social.js:129-134 | drops every friend with the id and keeps the others in order |
| Social.SocialStore.AddToWatchlist | js/social.js:369-388 | the watchlist becomes `AddOnce`: the movie is then on it, a repeat add changes nothing, and only a first add logs a watchlist-added activity |
| Social.SocialStore.RemoveFromWatchlist | js/social.js:394-399 | drops the entries with the id and keeps the others in order |
| Social.SocialStore.IsInWatchlist | js/social.js:406-408 | true if and only if some watchlist entry has the id |
| Social.SocialStore.FriendScoresFor | js/social.js:318-346 | null exactly when none of the stored friends has a demo score for the movie |
| Social.WatchlistRoundTrip | js/social.js:369-408 | after adding, the movie is on the watchlist; after removing, it is not; add then remove of a new movie restores the list |
| Curation.DecadeOf | js/social.js:454 | `Math.floor(year / 10) * 10`: a multiple of ten, at most the year and within ten of it, negative years included |
| Curation.MeanScoreBetween | js/social.js:444 | a group's rounded mean score lies between its lowest and highest score |
| Curation.DecadeKeys | js/social.js:453-455 | no decade for a missing or zero year; otherwise exactly one, a multiple of ten at most the year and within ten of it |
| Curation.MeanScore | js/social.js:480-488 | 0 for no movies; otherwise the integer nearest to the mean score, a half rounding up |
| Curation.DistributionOf | js/social.js:471-477 | the five bucket counts add up to the number of movies |
| Curation.BucketsPartition | js/social.js:471-477 | the five bands partition the scores: every movie is counted in exactly one of them |
| Curation.DistributionClasses | js/social.js:471-477 | each bucket counts exactly the movies `getScoreClass` puts in the matching class |
| Curation.GenrePreferences | js/social.js:425-446 | a genre has an entry if and only if some movie lists it, and no genre has two; best average first; each count is the number of times the collection lists the genre (positive) and each average is the rounded mean score over those listings |
| Curation.DecadePreferences | js/social.js:449-468 | a decade has an entry if and only if some movie has a (non-zero) year in it; strictly latest first; each count and average is that of the decade's movies |
| Curation.TasteProfileOf | js/social.js:418-496 | null exactly for an empty collection; otherwise the genre preferences are the first 10 of `GenrePreferences` and the favourites the names of the first min(3, k) of them; the decade preferences are `DecadePreferences`; the distribution is `DistributionOf` and totals n = totalMovies; avgRating is the rounded mean score; totalComparisons is the stat or 0; topRated is the first 5; recentlyAdded is `Top` by `addedAt` of 5: the five newest, none left out newer than the last |
| Curation.CalculateTasteProfile | js/social.js:418-496 | the accumulation loops compute `TasteProfileOf` |
| Curation.Best | js/social.js:610-616 | a list's movies: min(10, n) members, best first, and any member left out scores no higher than the last one kept |
| Curation.Picked | js/social.js:603-608 | at most `cap` groups, ordered by the key, each a group of the collection with at least 3 members, and no group of the collection taken more often than it occurs; a group with at least 3 members is left out only when `cap` groups were taken and it ranks no higher than the last |
| Curation.PickedOnce | js/social.js:603-608 | no key is picked twice |
| Curation.PickedOrOutranked | js/social.js:603-608 | a key with at least 3 movies is picked with all its movies, or `cap` groups ranking at least as high were picked |
| Curation.GenreLists | js/social.js:591-618 | one genre list per picked genre (at most 5, most movies first), holding `Best` of that genre's movies, each fitting with the genre's icon; no genre has two lists |
| Curation.DecadeLists | js/social.js:620-645 | one decade list per picked decade (at most 3, latest first), holding `Best` of that decade's movies; no decade has two lists |
| Curation.GenreListShown | js/social.js:591-618 | a genre with at least 3 movies gets a list of its best movies among the curated lists, unless five genres with at least as many movies were shown |
| Curation.DecadeListShown | js/social.js:620-645 | a decade with at least 3 movies gets a list of its best movies among the curated lists, unless three later decades were shown |
| Curation.RecentListShown | js/social.js:647-659 | with at least 3 movies the curated lists include a recently-added list of the ten newest |
| Curation.TaggedListShown | js/social.js:661-671 | with at least 3 tagged movies the curated lists include a list of the first ten tagged movies |
| Curation.RewatchListShown | js/social.js:673-683 | with at least 3 rewatchable movies the curated lists include a list of the best ten of them |
| Curation.TopList | js/social.js:580-589 | the top list exists exactly when there are at least 5 movies, and holds the first 10 of the collection |
| Curation.RecentList | js/social.js:647-659 | a list exactly when there are at least 3 movies, holding `Top` by `addedAt` of 10: the newest ten, none left out newer than the last |
| Curation.TaggedList | js/social.js:661-671 | a list exactly when at least 3 movies carry tags, holding the first ten tagged movies in collection order |
| Curation.RewatchList | js/social.js:673-683 | a list exactly when at least 3 movies are tagged rewatchable, holding `Best` of them |
| Curation.CuratedLists | js/social.js:574-686 | no lists below 3 movies; the top list exists exactly when there are at least 5 movies, and only in first place; every list fits (3 to 10 movies from the collection, qualifying and in order); at most 5 genre and 3 decade lists; the recent, tagged and rewatchable lists that are shown close the result |
| Curation.GenerateCuratedLists | js/social.js:574-686 | the push-by-push construction returns exactly `CuratedLists` |
| Curation.PushEach | js/social.js:609-618 | the `forEach` push loop appends one list per group, in order |
| Curation.PushRecent | js/social.js:647-659 | the conditional push appends exactly `RecentList` |
| Curation.PushTagged | js/social.js:661-671 | the conditional push appends exactly `TaggedList` |
| Curation.PushRewatchable | js/social.js:673-683 | the conditional push appends exactly `RewatchList` |
| Session.Toggled | js/app.js:775-783 | an absent tag is appended; for a present tag its first occurrence is removed and the tags before and after it keep their order |
| Session.ToggleTwiceAbsent | js/app.js:775-783 | toggling a new tag twice restores the tag list exactly |
| Session.ToggleTwicePresent | js/app.js:775-783 | toggling a tag that appears once, twice, restores its membership and the tag multiset |
| Session.AfterRating | js/app.js:444-449 | the log either stays as it is or gains exactly one movie-rated activity in first place, above the older entries, capped at 100, carrying the id with the title and display score of a scored entry with that id |
| Session.SavedMovieLogged | js/app.js:444-449 | a saved movie is always found among the scored movies, so exactly one rating activity is logged for it, in first place, carrying the title and score of its first scored entry: a stored movie with that id, scored on the collection's scale; an id that is not stored logs nothing |
| Session.ChooseOpponents | js/app.js:479-483 | empty exactly for an empty collection; otherwise `OpponentsFor`: min(5, n) opponents drawn from the collection, best first, the whole collection when n <= 5 and otherwise the movies at the five probe positions of the collection sorted by rating |
| Session.NoSelfComparison | js/app.js:732-735 | opponents drawn from a collection without the movie never include the movie itself |
| Session.RecompareOpinion | js/app.js:728 | the stored opinion when present and non-empty, otherwise 'fine' |
| Session.App.constructor | js/app.js:6-17 | no selected movie, no opinion, an empty queue at index 0, no selected tags |
| Session.App.Save | js/app.js:442-458 | appends the movie once and raises `totalMovies`, logs its score and takes it off the watchlist; friends unchanged |
| Session.App.LogRating | js/app.js:444-449 | the activity log becomes `AfterRating`; watchlist and friends unchanged |
| Session.App.LeaveWatchlist | js/app.js:454-458 | the watchlist loses the entries with the id (unchanged when there are none); activity log and friends unchanged |
| Session.App.AddMovieWithRating | js/app.js:428-466 | saves the selected movie with the empty-collection seed of its opinion: appended once, `totalMovies` raised, its score logged, off the watchlist; comparisons and friends unchanged; the session fields are left as they are |
| Session.App.StartComparison | js/app.js:471-492 | with stored movies: the movie is seeded from the collection, the queue is `OpponentsFor` the collection (min(5, n) opponents best first: all of them when n <= 5, otherwise the five probe positions of the rating order), the index is 0, and store and social lists are untouched; with none: the movie carries its empty-collection seed, the queue is empty, the index is unchanged and the movie is saved at once (appended, counted, logged, off the watchlist); comparisons, friends and tags never change |
| Session.App.HandleQuickRating | js/app.js:410-423 | records the opinion; an empty collection gets the movie saved straight away (appended, counted, logged, off the watchlist) with the selected movie, queue and index left as they are; otherwise the movie is seeded and its opponents lined up as in `StartComparison`, and store and social lists are untouched; comparisons, friends and tags never change |
| Session.App.HandleComparison | js/app.js:527-556 | the movie takes the new rating A, only the current opponent takes rating B, one comparison is logged and counted; while opponents remain the index advances by one and the activity log and watchlist are untouched; after the last the movie is saved once, logged, taken off the watchlist and the session reset; friends and tags never change |
| Session.App.RecordVerdict | js/app.js:528-547 | both new ratings, the comparison record and the index step, leaving the social lists alone |
| Session.App.FinishAddingMovie | js/app.js:561-604 | appends the movie once with its final rating and opinion, logs it, removes it from the watchlist and resets the session fields |
| Session.App.ResetSession | js/app.js:599-603 | clears the selected movie, queue, index and opinion |
| Session.App.StartRecompare | js/app.js:726-736 | the movie is removed from the collection before reseeding, with its stored opinion or 'fine'; it is seeded and its opponents lined up from the rest as in `StartComparison`, it is never among its own opponents and the stats and social lists are untouched; if it was the only movie it carries its empty-collection seed, the queue is empty, the index unchanged, and it is saved again at once (appended, counted, logged, off the watchlist); comparisons, friends and tags never change |
| Session.App.ToggleTag | js/app.js:775-783 | the selected tags become `Toggled`; the selected movie, queue, index and opinion are unchanged |

## Left out

- Everything in the browser layer: DOM updates, modals, toasts, view
  switching, list refreshes and search clearing in `js/app.js`.
- `localStorage` reads and writes, JSON encoding, `importData`,
  `exportData`, `clearAllData`, onboarding, and the `try`/`catch` fallbacks
  of `js/storage.js` and `js/social.js`. The saved state is the fields of
  the store classes.
- `js/movies.js` is not part of this model: the OMDb client, the demo
  catalogue and `getGenreNames`. A selected movie therefore already carries
  its genre names; the `genreIds` translation in `addMovieWithRating` and
  `finishAddingMovie` is not modelled.
- The floating-point body of `getExpectedScore` (`Math.pow`), which the
  model only knows through `IsExpectedScore`. `getConfidence` (`Math.log2`)
  is not modelled.
- Time stamps other than a movie's `addedAt`: `updatedAt`, the comparison
  and activity time stamps, and the activity's `userId`. `Social.Friend`
  and `Social.WatchItem` do not carry the `addedAt` stamp that `addFriend`
  and `addToWatchlist` store (js/social.js:111, js/social.js:377). `generateUserId`, `getTimeAgo`,
  `getFriendsActivityFeed`, the profile, the sharing text and the poster
  fields are also left out.
- Averages (`averageScore`, the genre and decade `avgScore`, `avgRating`)
  are computed exactly and then rounded to one decimal. IEEE rounding
  artefacts of the source's float arithmetic are not modelled.
- The genre and decade dictionaries are insertion-ordered groupings. This
  differs from JavaScript objects in two ways that are not modelled:
  integer-like genre names, which `Object.entries` lists first, and genre
  names that collide with inherited object keys such as "constructor".
  The same holds for the icon table: `icons[genre] || '🎬'` returns the
  inherited member for "constructor" or "toString", where
  `Social.GenreIcon` returns the clapperboard.
- Elo.RatingToScore, Elo.InitialRating: both are computed over exact
  rationals. The source computes them in IEEE doubles, so at exact
  half-tenth (or half-unit) ties the two can round differently: at 3/20 of
  the scale the exact score is 2.35, which the model rounds to 2.4, while
  the double arithmetic can land just below the tie and give 2.3. These
  float artefacts are not modelled.
- `!genreScores[genre]` in `calculateTasteProfile` would restart a genre
  whose running total is 0. Scores are always at least 1, so that reset
  never fires and is not modelled.
- A movie record's `year` is `Option<int>`. A missing year and a year of 0
  (both falsy in the source) give no decade.
- Session.App.AddMovieWithRating: leaves the session fields as they are,
  exactly as the source does; only `finishAddingMovie` resets them.
- Session.App.StartComparison: on the empty-collection path, keeps
  `comparisonIndex` unchanged, as the source returns before setting it to 0.
- Session.App.HandleComparison: requires a selected movie and an index
  inside the queue. The source reads `comparisonQueue[comparisonIndex]`
  without checking, and the UI only calls it while an opponent is shown.
- Session.App.StartComparison, Session.App.HandleQuickRating,
  Session.App.StartRecompare: require a selected movie. The source
  dereferences `this.selectedMovie` without a null check.
- Social.FriendScoresForMovie: the rounded average is computed but only
  the null case, the count and the scores are stated.
- Curation.DecadePreferences: a decade is the number itself; the source's
  label `decade + 's'` ("1990s") is not modelled.
- Curation.CuratedLists: the `id`, `title` and `description` strings of
  each list are not modelled; a list carries its kind, icon and movies.
- Social.SocialStore.IsInWatchlist, Storage.Store.HasMovie: the source
  reloads the list from storage on every call; the model reads the field.
