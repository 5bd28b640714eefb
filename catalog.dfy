/** The three catalogue lookups of the movie agent, each over a fixed in-memory table. */
module Catalog {

  datatype Option<T> = None | Some(value: T)

  /** A past review of a user; the records of "user2" carry no movie id. */
  datatype Review = Review(movie: string, id: Option<int>, review: string)

  /** A catalogue entry as listed under a genre. */
  datatype Movie = Movie(id: int, title: string)

  /** A dictionary lookup: the value found, or the KeyError raised for the missing key. */
  datatype Lookup<T> = Found(value: T) | KeyError(key: string)

  // ---------------------------------------------------------------------------
  // get_user_past_reviews
  // ---------------------------------------------------------------------------

  const SimulatedReviews: map<string, seq<Review>> := map[
    "user1" := [
      Review("Inception", Some(101), "Amazing plot and visuals!"),
      Review("The Matrix", Some(102), "A mind-bending experience."),
      Review("Jurassic Park", Some(103), "One time watch movie. Wont watch it again"),
      Review("Godfather", Some(104), "Boring movie")
    ],
    "user2" := [
      Review("Titanic", None, "A heartbreaking love story."),
      Review("Avatar", None, "Stunning world-building and effects.")
    ]
  ]

  /** The movie ids of a list of reviews, in order. */
  function ReviewIds(reviews: seq<Review>): seq<Option<int>>
  {
    seq(|reviews|, k requires 0 <= k < |reviews| => reviews[k].id)
  }

  /** Looks a user up in the review table; an unknown id raises KeyError. */
  function GetUserPastReviews(userId: string): (r: Lookup<seq<Review>>)
    ensures r.Found? <==> userId == "user1" || userId == "user2"
    ensures r.KeyError? ==> r.key == userId
    ensures r.Found? ==> r.value == SimulatedReviews[userId]
    ensures userId == "user1" ==> ReviewIds(r.value) == [Some(101), Some(102), Some(103), Some(104)]
    ensures userId == "user2" ==> ReviewIds(r.value) == [None, None]
  {
    if userId in SimulatedReviews then Found(SimulatedReviews[userId]) else KeyError(userId)
  }

  // ---------------------------------------------------------------------------
  // get_genres
  // ---------------------------------------------------------------------------

  /** For each movie id, the genres it is listed under. */
  type GenreTable = map<int, seq<string>>

  const SimulatedGenres: GenreTable := map[
    101 := ["Sci-Fi", "Thriller"],
    102 := ["Sci-Fi", "Action"],
    103 := ["Adventure"],
    104 := ["Crime", "Drama"],
    201 := ["Romance", "Drama"],
    202 := ["Sci-Fi", "Adventure"]
  ]

  /** The genres one id contributes: its table entry, or nothing for an unknown id. */
  function KnownGenres(table: GenreTable, id: int): set<string>
  {
    if id in table then set g | g in table[id] else {}
  }

  /** The genre set accumulated after visiting the ids in order. */
  function GenreUnion(table: GenreTable, ids: seq<int>): set<string>
  {
    if ids == [] then {} else GenreUnion(table, ids[..|ids| - 1]) + KnownGenres(table, ids[|ids| - 1])
  }

  /** A genre is in the union exactly when some known id of the input lists it. */
  lemma {:induction false} GenreUnionMembers(table: GenreTable, ids: seq<int>, g: string)
    ensures g in GenreUnion(table, ids) <==>
            exists k :: 0 <= k < |ids| && ids[k] in table && g in table[ids[k]]
  {
    if ids != [] {
      var n := |ids| - 1;
      var init := ids[..n];
      GenreUnionMembers(table, init, g);
      if g in GenreUnion(table, init) {
        var k :| 0 <= k < |init| && init[k] in table && g in table[init[k]];
        assert ids[k] == init[k];
      }
      if exists k :: 0 <= k < |ids| && ids[k] in table && g in table[ids[k]] {
        var k :| 0 <= k < |ids| && ids[k] in table && g in table[ids[k]];
        if k < n {
          assert init[k] == ids[k];
        }
      }
    }
  }

  /** The union depends only on which ids occur, not on their order or repetition. */
  lemma {:induction false} GenreUnionOrderFree(table: GenreTable, a: seq<int>, b: seq<int>)
    requires forall i :: 0 <= i < |a| ==> a[i] in b
    requires forall i :: 0 <= i < |b| ==> b[i] in a
    ensures GenreUnion(table, a) == GenreUnion(table, b)
  {
    forall g ensures g in GenreUnion(table, a) <==> g in GenreUnion(table, b) {
      GenreUnionMembers(table, a, g);
      GenreUnionMembers(table, b, g);
      if g in GenreUnion(table, a) {
        var k :| 0 <= k < |a| && a[k] in table && g in table[a[k]];
        var j :| 0 <= j < |b| && b[j] == a[k];
      }
      if g in GenreUnion(table, b) {
        var k :| 0 <= k < |b| && b[k] in table && g in table[b[k]];
        var j :| 0 <= j < |a| && a[j] == b[k];
      }
    }
  }

  /** An id missing from the table adds nothing, wherever it occurs. */
  lemma UnknownIdIgnored(table: GenreTable, a: seq<int>, x: int, b: seq<int>)
    requires x !in table
    ensures GenreUnion(table, a + [x] + b) == GenreUnion(table, a + b)
  {
    forall g ensures g in GenreUnion(table, a + [x] + b) <==> g in GenreUnion(table, a + b) {
      var s, t := a + [x] + b, a + b;
      GenreUnionMembers(table, s, g);
      GenreUnionMembers(table, t, g);
      if g in GenreUnion(table, s) {
        var k :| 0 <= k < |s| && s[k] in table && g in table[s[k]];
        if k < |a| {
          assert t[k] == s[k];
        } else {
          assert k > |a|;
          assert t[k - 1] == s[k];
        }
      }
      if g in GenreUnion(table, t) {
        var k :| 0 <= k < |t| && t[k] in table && g in table[t[k]];
        if k < |a| {
          assert s[k] == t[k];
        } else {
          assert s[k + 1] == t[k];
        }
      }
    }
  }

  /** The distinct elements of a list. */
  function Elements(s: seq<string>): set<string>
  {
    set x | x in s
  }

  /** No element occurs twice. */
  predicate NoDuplicates(s: seq<string>)
  {
    forall i, j :: 0 <= i < j < |s| ==> s[i] != s[j]
  }

  /** Lists a set, each element once, in an order the model leaves open (Python's `list(set)`). */
  method ListOfSet(items: set<string>) returns (list: seq<string>)
    ensures Elements(list) == items
    ensures NoDuplicates(list)
  {
    list := [];
    var pending := items;
    while pending != {}
      invariant Elements(list) !! pending
      invariant Elements(list) + pending == items
      invariant NoDuplicates(list)
      decreases |pending|
    {
      var g :| g in pending;
      assert Elements(list + [g]) == Elements(list) + {g};
      list := list + [g];
      pending := pending - {g};
    }
  }

  /**
   * Collects the genres of the known ids into a set and returns it as a list
   * without duplicates.
   */
  method GetGenres(movieIds: seq<int>) returns (genres: seq<string>)
    ensures Elements(genres) == GenreUnion(SimulatedGenres, movieIds)
    ensures NoDuplicates(genres)
  {
    var found: set<string> := {};
    for i := 0 to |movieIds|
      invariant found == GenreUnion(SimulatedGenres, movieIds[..i])
    {
      assert movieIds[..i + 1][..i] == movieIds[..i];
      if movieIds[i] in SimulatedGenres {
        found := found + set g | g in SimulatedGenres[movieIds[i]];
      }
    }
    assert movieIds[..|movieIds|] == movieIds;
    genres := ListOfSet(found);
  }

  /** The genres of the movies "user1" reviewed as 101 and 103. */
  lemma User1Genres()
    ensures GenreUnion(SimulatedGenres, [101, 103]) == {"Sci-Fi", "Thriller", "Adventure"}
  {
    assert [101, 103][..1] == [101];
    assert [101][..0] == [];
  }

  // ---------------------------------------------------------------------------
  // get_movies
  // ---------------------------------------------------------------------------

  /** For each genre, its catalogue entries in order. */
  type MovieTable = map<string, seq<Movie>>

  const SimulatedGenresMovies: MovieTable := map[
    "Sci-Fi" := [Movie(201, "Interstellar"), Movie(202, "The Martian")],
    "Adventure" := [Movie(203, "Avatar"), Movie(204, "Guardians of the Galaxy")],
    "Thriller" := [Movie(205, "Tenet"), Movie(101, "Inception"), Movie(102, "The Matrix"),
                   Movie(208, "Edge of Tomorrow")],
    "Crime" := [Movie(209, "Pulp Fiction"), Movie(210, "The Dark Knight")]
  ]

  /** The titles of the entries whose id is not watched, in catalogue order. */
  function Unwatched(movies: seq<Movie>, watched: seq<int>): seq<string>
  {
    if movies == [] then []
    else
      var m := movies[|movies| - 1];
      Unwatched(movies[..|movies| - 1], watched) + (if m.id in watched then [] else [m.title])
  }

  /** The titles one genre contributes: nothing for a genre that is not a key of the table. */
  function GenreTitles<G>(table: map<G, seq<Movie>>, genre: G, watched: seq<int>): seq<string>
  {
    if genre in table then Unwatched(table[genre], watched) else []
  }

  /** The recommendation list after visiting the genres in order. */
  function Recommend<G>(table: map<G, seq<Movie>>, genres: seq<G>, watched: seq<int>): seq<string>
  {
    if genres == [] then []
    else Recommend(table, genres[..|genres| - 1], watched) + GenreTitles(table, genres[|genres| - 1], watched)
  }

  /** Filtering keeps catalogue order: it distributes over concatenation. */
  lemma {:induction false} UnwatchedConcat(a: seq<Movie>, b: seq<Movie>, watched: seq<int>)
    ensures Unwatched(a + b, watched) == Unwatched(a, watched) + Unwatched(b, watched)
  {
    if b == [] {
      assert a + b == a;
    } else {
      var n := |b| - 1;
      assert (a + b)[..|a + b| - 1] == a + b[..n];
      UnwatchedConcat(a, b[..n], watched);
    }
  }

  /** A title is kept exactly when some entry with that title is not watched. */
  lemma {:induction false} UnwatchedMembers(movies: seq<Movie>, watched: seq<int>, t: string)
    ensures t in Unwatched(movies, watched) <==>
            exists k :: 0 <= k < |movies| && movies[k].id !in watched && movies[k].title == t
  {
    if movies != [] {
      var n := |movies| - 1;
      var init := movies[..n];
      UnwatchedMembers(init, watched, t);
      if t in Unwatched(init, watched) {
        var k :| 0 <= k < |init| && init[k].id !in watched && init[k].title == t;
        assert movies[k] == init[k];
      }
      if exists k :: 0 <= k < |movies| && movies[k].id !in watched && movies[k].title == t {
        var k :| 0 <= k < |movies| && movies[k].id !in watched && movies[k].title == t;
        if k < n {
          assert init[k] == movies[k];
        }
      }
    }
  }

  /** The output is genre-major: the genres' contributions are concatenated in input order. */
  lemma {:induction false} RecommendConcat<G>(table: map<G, seq<Movie>>, g1: seq<G>, g2: seq<G>, watched: seq<int>)
    ensures Recommend(table, g1 + g2, watched) == Recommend(table, g1, watched) + Recommend(table, g2, watched)
  {
    if g2 == [] {
      assert g1 + g2 == g1;
    } else {
      var n := |g2| - 1;
      assert (g1 + g2)[..|g1 + g2| - 1] == g1 + g2[..n];
      RecommendConcat(table, g1, g2[..n], watched);
    }
  }

  /** One genre alone yields its unwatched entries in catalogue order, or nothing when unknown. */
  lemma RecommendOne<G>(table: map<G, seq<Movie>>, genre: G, watched: seq<int>)
    ensures Recommend(table, [genre], watched) ==
            if genre in table then Unwatched(table[genre], watched) else []
  {
    assert [genre][..0] == [];
  }

  /** A title is returned exactly when some input genre contributes it. */
  lemma {:induction false} RecommendMembers<G>(table: map<G, seq<Movie>>, genres: seq<G>, watched: seq<int>, t: string)
    ensures t in Recommend(table, genres, watched) <==>
            exists k :: 0 <= k < |genres| && t in GenreTitles(table, genres[k], watched)
  {
    if genres != [] {
      var n := |genres| - 1;
      var init := genres[..n];
      RecommendMembers(table, init, watched, t);
      assert Recommend(table, genres, watched) == Recommend(table, init, watched) + GenreTitles(table, genres[n], watched);
      assert forall k :: 0 <= k < n ==> init[k] == genres[k];
    }
  }

  /** Entry j listed under genre g is not watched. */
  predicate Offered(table: MovieTable, g: string, j: int, watched: seq<int>)
  {
    g in table && 0 <= j < |table[g]| && table[g][j].id !in watched
  }

  /**
   * Every returned title is the title of an unwatched catalogue entry listed
   * under an input genre that is a key of the table, and every such title is
   * returned.
   */
  lemma RecommendedTitles(table: MovieTable, genres: seq<string>, watched: seq<int>, t: string)
    ensures t in Recommend(table, genres, watched) <==>
            exists k, j :: 0 <= k < |genres| && Offered(table, genres[k], j, watched) && table[genres[k]][j].title == t
  {
    RecommendMembers(table, genres, watched, t);
    if t in Recommend(table, genres, watched) {
      var k :| 0 <= k < |genres| && t in GenreTitles(table, genres[k], watched);
      UnwatchedMembers(table[genres[k]], watched, t);
      var j :| 0 <= j < |table[genres[k]]| && table[genres[k]][j].id !in watched && table[genres[k]][j].title == t;
      assert Offered(table, genres[k], j, watched);
    }
    if exists k, j :: 0 <= k < |genres| && Offered(table, genres[k], j, watched) && table[genres[k]][j].title == t {
      var k, j :| 0 <= k < |genres| && Offered(table, genres[k], j, watched) && table[genres[k]][j].title == t;
      UnwatchedMembers(table[genres[k]], watched, t);
    }
  }

  /** Within a table, a title names one id only. */
  ghost predicate TitlesDetermineIds(table: MovieTable)
  {
    forall g1, j1, g2, j2 ::
      (g1 in table && 0 <= j1 < |table[g1]| && g2 in table && 0 <= j2 < |table[g2]|
       && table[g1][j1].title == table[g2][j2].title)
      ==> table[g1][j1].id == table[g2][j2].id
  }

  /** The movie table gives every title a single id. */
  lemma CatalogTitlesDetermineIds()
    ensures TitlesDetermineIds(SimulatedGenresMovies)
  {
  }

  /** When titles determine ids, no returned title is the title of an entry whose id is watched. */
  lemma RecommendExcludesWatched(table: MovieTable, genres: seq<string>, watched: seq<int>, g: string, j: int)
    requires TitlesDetermineIds(table)
    requires g in table && 0 <= j < |table[g]| && table[g][j].id in watched
    ensures table[g][j].title !in Recommend(table, genres, watched)
  {
    var t := table[g][j].title;
    RecommendedTitles(table, genres, watched, t);
    forall k, i | 0 <= k < |genres| && Offered(table, genres[k], i, watched)
      ensures table[genres[k]][i].title != t
    {
    }
  }

  /**
   * Walks the genres in order and, within each known genre, the catalogue in
   * order, appending the title of every entry whose id is not watched.
   */
  method GetMovies(genres: seq<string>, watchedMovieIds: seq<int>) returns (recommended: seq<string>)
    ensures recommended == Recommend(SimulatedGenresMovies, genres, watchedMovieIds)
  {
    recommended := [];
    for i := 0 to |genres|
      invariant recommended == Recommend(SimulatedGenresMovies, genres[..i], watchedMovieIds)
    {
      assert genres[..i + 1][..i] == genres[..i];
      if genres[i] in SimulatedGenresMovies {
        var movies := SimulatedGenresMovies[genres[i]];
        ghost var before := recommended;
        for j := 0 to |movies|
          invariant recommended == before + Unwatched(movies[..j], watchedMovieIds)
        {
          assert movies[..j + 1][..j] == movies[..j];
          if movies[j].id !in watchedMovieIds {
            recommended := recommended + [movies[j].title];
          }
        }
        assert movies[..|movies|] == movies;
      }
    }
    assert genres[..|genres|] == genres;
  }

  // ---------------------------------------------------------------------------
  // The worked recommendation for "user1"
  // ---------------------------------------------------------------------------

  /** The unwatched titles of the genres of "user1", genre by genre, for a user who watched 101 to 104. */
  lemma User1Recommendations()
    ensures Recommend(SimulatedGenresMovies, ["Sci-Fi", "Adventure", "Thriller"], [101, 102, 103, 104]) ==
            ["Interstellar", "The Martian", "Avatar", "Guardians of the Galaxy", "Tenet", "Edge of Tomorrow"]
  {
    var w := [101, 102, 103, 104];
    RecommendThree(SimulatedGenresMovies, "Sci-Fi", "Adventure", "Thriller", w);
    SciFiTitles(w);
    AdventureTitles(w);
    ThrillerTitles(w);
  }

  /** Three genres contribute their titles one after another. */
  lemma RecommendThree<G>(table: map<G, seq<Movie>>, a: G, b: G, c: G, watched: seq<int>)
    ensures Recommend(table, [a, b, c], watched) ==
            GenreTitles(table, a, watched) + GenreTitles(table, b, watched) + GenreTitles(table, c, watched)
  {
    var abc, ab, a1 := [a, b, c], [a, b], [a];
    assert abc[..2] == ab;
    assert ab[..1] == a1;
    assert a1[..0] == [];
    assert Recommend(table, a1, watched) == GenreTitles(table, a, watched);
    assert Recommend(table, ab, watched) == Recommend(table, a1, watched) + GenreTitles(table, b, watched);
  }

  /** Two catalogue entries keep the titles of the unwatched ones, in order. */
  lemma UnwatchedPair(a: Movie, b: Movie, watched: seq<int>)
    ensures Unwatched([a, b], watched) ==
            (if a.id in watched then [] else [a.title]) + (if b.id in watched then [] else [b.title])
  {
    assert [a][..0] == [];
    assert Unwatched([a], watched) == if a.id in watched then [] else [a.title];
    assert [a, b][..1] == [a];
  }

  lemma SciFiTitles(w: seq<int>)
    requires w == [101, 102, 103, 104]
    ensures GenreTitles(SimulatedGenresMovies, "Sci-Fi", w) == ["Interstellar", "The Martian"]
  {
    UnwatchedPair(Movie(201, "Interstellar"), Movie(202, "The Martian"), w);
  }

  lemma AdventureTitles(w: seq<int>)
    requires w == [101, 102, 103, 104]
    ensures GenreTitles(SimulatedGenresMovies, "Adventure", w) == ["Avatar", "Guardians of the Galaxy"]
  {
    UnwatchedPair(Movie(203, "Avatar"), Movie(204, "Guardians of the Galaxy"), w);
  }

  lemma ThrillerTitles(w: seq<int>)
    requires w == [101, 102, 103, 104]
    ensures GenreTitles(SimulatedGenresMovies, "Thriller", w) == ["Tenet", "Edge of Tomorrow"]
  {
    var a, b := [Movie(205, "Tenet"), Movie(101, "Inception")], [Movie(102, "The Matrix"), Movie(208, "Edge of Tomorrow")];
    assert SimulatedGenresMovies["Thriller"] == a + b;
    UnwatchedConcat(a, b, w);
    UnwatchedPair(a[0], a[1], w);
    UnwatchedPair(b[0], b[1], w);
  }
}
