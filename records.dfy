/** The movie record the store keeps, with the source's optional fields made
    explicit: an absent `genres` or `tags` list reads as empty, absent `notes`
    as the empty string, an absent `year` or `quickRating` as None. */
module Records {
  import opened Common

  datatype Movie = Movie(
    id: string,
    title: string,
    year: Option<int>,
    rating: int,
    genres: seq<string>,
    tags: seq<string>,
    notes: string,
    quickRating: Option<string>,
    addedAt: int)    // the clock reading stored by `addMovie`

  function MovieId(m: Movie): string { m.id }

  function RatingOf(m: Movie): int { m.rating }

  function GenresOf(m: Movie): seq<string> { m.genres }
}
