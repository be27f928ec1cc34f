/**
 * The title.basics loader (MovieTSVParser): every kept title becomes a movie
 * upsert, and every genre it lists becomes a genre (inserted at once if new) and
 * a genres_in_movies link. Movie upserts and links are buffered in two batches;
 * the movie batch is always committed before the link batch.
 */
module MovieLoader {
  import opened Optional
  import opened JavaText
  import opened Tsv
  import opened Batching
  import opened Store

  /** tconst, titleType, primaryTitle, originalTitle, isAdult, startYear, endYear, runtimeMinutes, genres. */
  const MovieColumns: nat := 9

  /** The title filter: titleType exactly "movie", and isAdult anything but exactly "1". */
  predicate IsKeptTitle(titleType: string, isAdult: string)
  {
    titleType == "movie" && isAdult != "1"
  }

  datatype MovieLine = MovieRow(row: MovieUpsert, genres: string) | SkippedMovie(reason: SkipReason)

  /** What processLine decides for one data line, before it touches the genres. */
  function ClassifyMovieLine(line: string): MovieLine
  {
    var fields := Split(line, Tab);
    if |fields| < MovieColumns then SkippedMovie(MalformedLine)
    else if !IsKeptTitle(fields[1], fields[4]) then SkippedMovie(FilteredOut)
    else MovieRow(MovieUpsert(fields[0], fields[2], OptionalInt(fields[5])), fields[8])
  }

  /** The entries of the genres column as `genres.split(",")` gives them; none for `\N` or an empty column. */
  function GenreTokens(genres: string): seq<string>
  {
    if genres == Sentinel || genres == "" then [] else SplitDroppingTrailing(genres, ',')
  }

  /** The genre names a list of entries yields: each entry trimmed, the empty ones dropped. */
  function GenreNames(tokens: seq<string>): (names: seq<string>)
    ensures |names| <= |tokens|
    ensures forall i :: 0 <= i < |names| ==> names[i] != ""
  {
    if tokens == [] then []
    else
      var g := Trim(tokens[|tokens| - 1]);
      GenreNames(tokens[..|tokens| - 1]) + (if g == "" then [] else [g])
  }

  /** Dropping trailing empty entries, as `split(",")` does, never changes the genre names. */
  lemma {:induction false} GenreNamesDropTrailing(tokens: seq<string>)
    ensures GenreNames(DropTrailingEmpty(tokens)) == GenreNames(tokens)
    decreases |tokens|
  {
    if tokens != [] && tokens[|tokens| - 1] == "" {
      GenreNamesDropTrailing(tokens[..|tokens| - 1]);
      assert Trim("") == "";
    }
  }

  /**
   * The genre names of a column are those of its full comma split: the zero-limit
   * split of the source and a split keeping every field agree once empty entries
   * are dropped.
   */
  lemma GenreNamesOfColumn(genres: string)
    requires genres != Sentinel && genres != ""
    ensures GenreNames(GenreTokens(genres)) == GenreNames(Split(genres, ','))
  {
    if ',' !in genres {
      SplitField(genres, ',');
    } else {
      GenreNamesDropTrailing(Split(genres, ','));
    }
  }

  /**
   * The filter on a well-formed line: a row is kept iff titleType is exactly
   * "movie" and isAdult is not exactly "1"; it carries tconst, primaryTitle and the
   * start year (absent for `\N` or an unparseable value), and the genres column.
   */
  lemma {:induction false} ClassifyMovieFields(fields: seq<string>)
    requires |fields| >= MovieColumns
    requires forall i :: 0 <= i < |fields| ==> Tab !in fields[i]
    ensures ClassifyMovieLine(Join(fields, Tab)).MovieRow? <==> fields[1] == "movie" && fields[4] != "1"
    ensures ClassifyMovieLine(Join(fields, Tab)).MovieRow? ==>
      && ClassifyMovieLine(Join(fields, Tab)).row == MovieUpsert(fields[0], fields[2], ParseInt(fields[5]))
      && ClassifyMovieLine(Join(fields, Tab)).genres == fields[8]
  {
    SplitJoin(fields, Tab);
  }

  /** A line with fewer than nine fields is malformed, however its fields read. */
  lemma {:induction false} ClassifyMovieShortLine(fields: seq<string>)
    requires 1 <= |fields| < MovieColumns
    requires forall i :: 0 <= i < |fields| ==> Tab !in fields[i]
    ensures ClassifyMovieLine(Join(fields, Tab)) == SkippedMovie(MalformedLine)
  {
    SplitJoin(fields, Tab);
  }

  lemma SplitDramaAction()
    ensures Split("Drama,Action", ',') == ["Drama", "Action"]
  {
    assert "Drama,Action" == Join(["Drama", "Action"], ',');
    SplitJoin(["Drama", "Action"], ',');
  }

  /** "Drama,Action" yields the two genres Drama and Action, in that order. */
  lemma TwoGenres()
    ensures GenreNames(GenreTokens("Drama,Action")) == ["Drama", "Action"]
  {
    SplitDramaAction();
    GenreNamesOfColumn("Drama,Action");
    TrimUnpadded("Drama");
    TrimUnpadded("Action");
    assert GenreNames(["Drama"]) == ["Drama"];
    assert ["Drama", "Action"][..1] == ["Drama"];
  }

  // ---------------------------------------------------------------------------
  // the loader's state and its steps, as values
  // ---------------------------------------------------------------------------

  /** The parser's fields, with the store and commit log its connection holds. */
  datatype MovieLoad = MovieLoad(
    movieBatch: seq<MovieUpsert>,
    genreMovieBatch: seq<GenreLink>,
    movieBatchCount: int,
    genreMovieBatchCount: int,
    moviesProcessed: int,
    genreLinksCreated: int,
    linesSkipped: int,
    closed: bool,
    db: Db,
    log: seq<Commit>)

  /** The ids of a batch of movie upserts. */
  function MovieIds(rows: seq<MovieUpsert>): (ids: set<string>)
    ensures forall i :: 0 <= i < |rows| ==> rows[i].id in ids
  {
    if rows == [] then {} else MovieIds(rows[..|rows| - 1]) + {rows[|rows| - 1].id}
  }

  /** Every pending link names a movie of `movieIds` and a genre the store holds. */
  ghost predicate LinksResolved(links: seq<GenreLink>, movieIds: set<string>, db: Db)
  {
    forall i :: 0 <= i < |links| ==> links[i].movieId in movieIds && links[i].genreId in db.genres.Values
  }

  /**
   * The state between two lines: the counters track the buffers, the movie buffer
   * is below the threshold, and every pending genre link refers to a movie in the
   * pending movie batch, so no link is ever pending without its movie.
   */
  ghost predicate Inv(st: MovieLoad)
  {
    && !st.closed
    && st.movieBatchCount == |st.movieBatch| < BatchSize
    && st.genreMovieBatchCount == |st.genreMovieBatch|
    && LinksResolved(st.genreMovieBatch, MovieIds(st.movieBatch), st.db)
    && (st.genreMovieBatch != [] ==> st.movieBatch != [])
  }

  /** A freshly constructed parser on a connection whose store is `db`. */
  function NewMovieLoad(db: Db, log: seq<Commit>): (st: MovieLoad)
    ensures Inv(st)
  {
    MovieLoad([], [], 0, 0, 0, 0, 0, false, db, log)
  }

  /** One genre entry of the current movie: insert the name, look its id up, buffer the link. */
  function GenreStep(st: MovieLoad, movieId: string, token: string): MovieLoad
  {
    var genre := Trim(token);
    if genre == "" then st
    else
      var db := InsertGenre(st.db, genre);
      if genre in db.genres then
        st.(db := db,
            genreMovieBatch := st.genreMovieBatch + [GenreLink(db.genres[genre], movieId)],
            genreMovieBatchCount := st.genreMovieBatchCount + 1,
            genreLinksCreated := st.genreLinksCreated + 1)
      else st.(db := db)
  }

  /** The genre loop over the entries of one line, first to last. */
  function GenreSteps(st: MovieLoad, movieId: string, tokens: seq<string>): MovieLoad
  {
    if tokens == [] then st
    else GenreStep(GenreSteps(st, movieId, tokens[..|tokens| - 1]), movieId, tokens[|tokens| - 1])
  }

  /** executeBatch and commit of the movie upserts. */
  function CommitMovieBatch(st: MovieLoad): MovieLoad
  {
    st.(db := st.db.(movies := UpsertMovies(st.db.movies, st.movieBatch)),
        log := st.log + [MovieCommit(st.movieBatch)],
        movieBatch := [],
        movieBatchCount := 0)
  }

  /** executeBatch and commit of the genre links. */
  function CommitLinkBatch(st: MovieLoad): MovieLoad
  {
    st.(db := st.db.(genreLinks := InsertLinks(st.db.genreLinks, st.genreMovieBatch)),
        log := st.log + [GenreLinkCommit(st.genreMovieBatch)],
        genreMovieBatch := [],
        genreMovieBatchCount := 0)
  }

  /** The movie batch, then any pending links. */
  function CommitBoth(st: MovieLoad): MovieLoad
  {
    var st1 := CommitMovieBatch(st);
    if st1.genreMovieBatchCount > 0 then CommitLinkBatch(st1) else st1
  }

  /** processLine once the line is classified. */
  function ApplyMovieLine(st: MovieLoad, outcome: MovieLine): MovieLoad
  {
    match outcome
    case SkippedMovie(_) => st.(linesSkipped := st.linesSkipped + 1)
    case MovieRow(row, genres) =>
      var st1 := AddMovie(st, row, genres);
      if st1.movieBatchCount >= BatchSize then CommitBoth(st1) else st1
  }

  /** A kept line up to the threshold test: buffer the upsert, run the genre loop, count the movie. */
  function AddMovie(st: MovieLoad, row: MovieUpsert, genres: string): MovieLoad
  {
    var st1 := st.(movieBatch := st.movieBatch + [row], movieBatchCount := st.movieBatchCount + 1);
    var st2 := GenreSteps(st1, row.id, GenreTokens(genres));
    st2.(moviesProcessed := st2.moviesProcessed + 1)
  }

  /** processLine. */
  function MovieStep(st: MovieLoad, line: string): MovieLoad
  {
    ApplyMovieLine(st, ClassifyMovieLine(line))
  }

  /** processLine over a sequence of data lines, first to last. */
  function MovieSteps(st: MovieLoad, lines: seq<string>): MovieLoad
  {
    if lines == [] then st
    else MovieStep(MovieSteps(st, lines[..|lines| - 1]), lines[|lines| - 1])
  }

  /** finalizeParsing: the remaining movies first, then the remaining links; both counters end at 0. */
  function MovieFinish(st: MovieLoad): MovieLoad
  {
    var st1 := if st.movieBatchCount > 0 then CommitMovieBatch(st) else st;
    var st2 := if st1.genreMovieBatchCount > 0 then CommitLinkBatch(st1) else st1;
    st2.(closed := true)
  }

  /** parse: the header is skipped, every other line processed, then the parser finalized. */
  function MovieParse(st: MovieLoad, lines: seq<string>): MovieLoad
  {
    MovieFinish(MovieSteps(st, DataLines(lines)))
  }

  /** The movie upserts a stream of data lines yields, in order. */
  function AcceptedMovies(lines: seq<string>): (rows: seq<MovieUpsert>)
    ensures |rows| <= |lines|
  {
    if lines == [] then []
    else
      var front := AcceptedMovies(lines[..|lines| - 1]);
      match ClassifyMovieLine(lines[|lines| - 1])
      case MovieRow(row, _) => front + [row]
      case SkippedMovie(_) => front
  }

  /** The genre names of the kept lines of a stream, line after line: one link each. */
  function AcceptedGenreNames(lines: seq<string>): seq<string>
  {
    if lines == [] then []
    else
      var front := AcceptedGenreNames(lines[..|lines| - 1]);
      match ClassifyMovieLine(lines[|lines| - 1])
      case MovieRow(_, genres) => front + GenreNames(GenreTokens(genres))
      case SkippedMovie(_) => front
  }

  /** The movie batches a commit log holds, in commit order. */
  function MovieBatches(log: seq<Commit>): seq<seq<MovieUpsert>>
  {
    if log == [] then []
    else
      var front := MovieBatches(log[..|log| - 1]);
      match log[|log| - 1]
      case MovieCommit(rows) => front + [rows]
      case _ => front
  }

  /** Movies before genres: every genre-link commit comes straight after a movie commit. */
  ghost predicate LinksFollowMovies(log: seq<Commit>)
  {
    forall i :: 0 <= i < |log| && log[i].GenreLinkCommit? ==> 0 < i && log[i - 1].MovieCommit?
  }

  /** Referential integrity of genres_in_movies: every link names a stored movie and a stored genre id. */
  ghost predicate GenreLinksSound(db: Db)
  {
    forall l :: l in db.genreLinks ==> l.movieId in db.movies && l.genreId in db.genres.Values
  }

  // ---------------------------------------------------------------------------
  // which link each genre name becomes
  // ---------------------------------------------------------------------------

  /** A genre name met on the line of movie `movieId`: it becomes one genres_in_movies link. */
  datatype NamedLink = NamedLink(movieId: string, name: string)

  /** The genre names of one line, each paired with the line's tconst. */
  function LinePairs(movieId: string, names: seq<string>): (pairs: seq<NamedLink>)
    ensures |pairs| == |names|
    ensures forall i :: 0 <= i < |names| ==> pairs[i] == NamedLink(movieId, names[i])
  {
    seq(|names|, i requires 0 <= i < |names| => NamedLink(movieId, names[i]))
  }

  /** Every genre name of `pairs` is a key of the genres table. */
  predicate NamesStored(pairs: seq<NamedLink>, genres: map<string, int>)
  {
    forall i :: 0 <= i < |pairs| ==> pairs[i].name in genres
  }

  /** The links `pairs` stand for: each genre name replaced by the id the genres table gives it. */
  function ResolveLinks(genres: map<string, int>, pairs: seq<NamedLink>): (links: seq<GenreLink>)
    requires NamesStored(pairs, genres)
    ensures |links| == |pairs|
    ensures forall i :: 0 <= i < |pairs| ==> links[i] == GenreLink(genres[pairs[i].name], pairs[i].movieId)
  {
    seq(|pairs|, i requires 0 <= i < |pairs| => GenreLink(genres[pairs[i].name], pairs[i].movieId))
  }

  /** Resolving a concatenation resolves each part. */
  lemma ResolveAppend(genres: map<string, int>, a: seq<NamedLink>, b: seq<NamedLink>)
    requires NamesStored(a, genres) && NamesStored(b, genres)
    ensures NamesStored(a + b, genres)
    ensures ResolveLinks(genres, a + b) == ResolveLinks(genres, a) + ResolveLinks(genres, b)
  {
    assert forall i :: 0 <= i < |a + b| ==> (a + b)[i] == if i < |a| then a[i] else b[i - |a|];
  }

  /** A genres table that only grew without renumbering resolves old names to the same links. */
  lemma ResolveGrow(genres: map<string, int>, genres': map<string, int>, pairs: seq<NamedLink>)
    requires NamesStored(pairs, genres) && GenresGrow(genres, genres')
    ensures NamesStored(pairs, genres')
    ensures ResolveLinks(genres', pairs) == ResolveLinks(genres, pairs)
  {
  }

  /** The pairs of one line, appended after another line's. */
  lemma LinePairsAppend(movieId: string, a: seq<string>, b: seq<string>)
    ensures LinePairs(movieId, a + b) == LinePairs(movieId, a) + LinePairs(movieId, b)
  {
  }

  // ---------------------------------------------------------------------------
  // the genre loop
  // ---------------------------------------------------------------------------

  /**
   * What a run of the genre loop for movie `movieId` over the genre names `names`
   * changes: the genres table gains those names and no other, without renumbering;
   * the link (id of the name, movieId) is appended to the pending links for each
   * name in order; both link counters go up by one per name; nothing else moves.
   */
  ghost predicate GenreFrame(st: MovieLoad, st': MovieLoad, movieId: string, names: seq<string>)
  {
    && st' == st.(db := st'.db, genreMovieBatch := st'.genreMovieBatch,
                  genreMovieBatchCount := st.genreMovieBatchCount + |names|,
                  genreLinksCreated := st.genreLinksCreated + |names|)
    && st'.db == st.db.(genres := st'.db.genres, nextGenreId := st'.db.nextGenreId)
    && GenresGrow(st.db.genres, st'.db.genres)
    && (forall n :: n in st'.db.genres ==> n in st.db.genres || n in names)
    && NamesStored(LinePairs(movieId, names), st'.db.genres)
    && st'.genreMovieBatch == st.genreMovieBatch + ResolveLinks(st'.db.genres, LinePairs(movieId, names))
  }

  /** No genre disappears or changes id. */
  ghost predicate GenresGrow(g: map<string, int>, g': map<string, int>)
  {
    forall n :: n in g ==> n in g' && g'[n] == g[n]
  }

  lemma GenresGrowValues(g: map<string, int>, g': map<string, int>)
    requires GenresGrow(g, g')
    ensures g.Values <= g'.Values
  {
    forall v | v in g.Values
      ensures v in g'.Values
    {
      var n :| n in g && g[n] == v;
      assert g'[n] == v;
    }
  }

  /** One genre entry: a blank entry changes nothing; otherwise its trimmed name is stored and linked under its id. */
  lemma GenreStepFrame(st: MovieLoad, movieId: string, token: string)
    ensures GenreFrame(st, GenreStep(st, movieId, token), movieId, if Trim(token) == "" then [] else [Trim(token)])
  {
    var genre := Trim(token);
    if genre == "" {
      assert st.(db := st.db, genreMovieBatch := st.genreMovieBatch) == st;
      assert ResolveLinks(st.db.genres, LinePairs(movieId, [])) == [];
    } else {
      var db := InsertGenre(st.db, genre);
      assert LinePairs(movieId, [genre]) == [NamedLink(movieId, genre)];
      assert ResolveLinks(db.genres, [NamedLink(movieId, genre)]) == [GenreLink(db.genres[genre], movieId)];
    }
  }

  lemma GenreFrameTrans(st: MovieLoad, st1: MovieLoad, st2: MovieLoad, movieId: string, a: seq<string>, b: seq<string>)
    requires GenreFrame(st, st1, movieId, a)
    requires GenreFrame(st1, st2, movieId, b)
    ensures GenreFrame(st, st2, movieId, a + b)
  {
    var pa, pb := LinePairs(movieId, a), LinePairs(movieId, b);
    ResolveGrow(st1.db.genres, st2.db.genres, pa);
    LinePairsAppend(movieId, a, b);
    ResolveAppend(st2.db.genres, pa, pb);
    assert st2.genreMovieBatch == st.genreMovieBatch + ResolveLinks(st2.db.genres, pa + pb);
  }

  /** The genre loop over a line's entries stores and links the line's genre names, in order, all for that line's movie. */
  lemma {:induction false} GenreStepsFrame(st: MovieLoad, movieId: string, tokens: seq<string>)
    ensures GenreFrame(st, GenreSteps(st, movieId, tokens), movieId, GenreNames(tokens))
    decreases |tokens|
  {
    if tokens == [] {
      assert st.(db := st.db, genreMovieBatch := st.genreMovieBatch) == st;
      assert ResolveLinks(st.db.genres, LinePairs(movieId, [])) == [];
    } else {
      var front := tokens[..|tokens| - 1];
      var last := tokens[|tokens| - 1];
      GenreStepsFrame(st, movieId, front);
      GenreStepFrame(GenreSteps(st, movieId, front), movieId, last);
      GenreFrameTrans(st, GenreSteps(st, movieId, front), GenreSteps(st, movieId, tokens), movieId,
                      GenreNames(front), if Trim(last) == "" then [] else [Trim(last)]);
    }
  }

  /** After the genre loop every genre name of the line is in the genres table. */
  lemma {:induction false} GenreStepsNames(st: MovieLoad, movieId: string, tokens: seq<string>)
    ensures forall i :: 0 <= i < |GenreNames(tokens)| ==> GenreNames(tokens)[i] in GenreSteps(st, movieId, tokens).db.genres
    decreases |tokens|
  {
    if tokens != [] {
      var front := tokens[..|tokens| - 1];
      var g := Trim(tokens[|tokens| - 1]);
      var names, frontNames := GenreNames(tokens), GenreNames(front);
      assert names == frontNames + (if g == "" then [] else [g]);
      GenreStepsNames(st, movieId, front);
      var before := GenreSteps(st, movieId, front);
      var after := GenreSteps(st, movieId, tokens);
      assert after == GenreStep(before, movieId, tokens[|tokens| - 1]);
      GenreStepFrame(before, movieId, tokens[|tokens| - 1]);
      forall i | 0 <= i < |names|
        ensures names[i] in after.db.genres
      {
        if i < |frontNames| {
          assert names[i] == frontNames[i] && frontNames[i] in before.db.genres;
        }
      }
    }
  }

  // ---------------------------------------------------------------------------
  // one line
  // ---------------------------------------------------------------------------

  lemma MovieIdsSnoc(rows: seq<MovieUpsert>, row: MovieUpsert)
    ensures MovieIds(rows + [row]) == MovieIds(rows) + {row.id}
  {
    assert (rows + [row])[..|rows|] == rows;
  }

  /**
   * A kept line, before the threshold test: the upsert is buffered; the genres
   * table gains the line's genre names and nothing else, without renumbering; for
   * each name, in order, the link (its id, tconst) is buffered and counted; every
   * pending link still names a buffered movie; nothing is committed.
   */
  lemma AddMovieEffect(st: MovieLoad, row: MovieUpsert, genres: string)
    requires Inv(st)
    ensures var st' := AddMovie(st, row, genres);
      var names := GenreNames(GenreTokens(genres));
      && NamesStored(LinePairs(row.id, names), st'.db.genres)
      && st'.genreMovieBatch == st.genreMovieBatch + ResolveLinks(st'.db.genres, LinePairs(row.id, names))
      && (forall n :: n in st'.db.genres ==> n in st.db.genres || n in names)
      && st'.movieBatch == st.movieBatch + [row]
      && st'.movieBatchCount == st.movieBatchCount + 1
      && st'.genreMovieBatchCount == |st'.genreMovieBatch|
      && LinksResolved(st'.genreMovieBatch, MovieIds(st'.movieBatch), st'.db)
      && !st'.closed
      && st'.moviesProcessed == st.moviesProcessed + 1
      && st'.linesSkipped == st.linesSkipped
      && st'.genreLinksCreated == st.genreLinksCreated + |GenreNames(GenreTokens(genres))|
      && st'.log == st.log
      && st'.db == st.db.(genres := st'.db.genres, nextGenreId := st'.db.nextGenreId)
      && GenresGrow(st.db.genres, st'.db.genres)
      && (forall i :: 0 <= i < |GenreNames(GenreTokens(genres))| ==> GenreNames(GenreTokens(genres))[i] in st'.db.genres)
  {
    var tokens := GenreTokens(genres);
    var st1 := st.(movieBatch := st.movieBatch + [row], movieBatchCount := st.movieBatchCount + 1);
    var st2 := GenreSteps(st1, row.id, tokens);
    GenreStepsFrame(st1, row.id, tokens);
    GenreStepsNames(st1, row.id, tokens);
    GenresGrowValues(st.db.genres, st2.db.genres);
    MovieIdsSnoc(st.movieBatch, row);
    var n := |st.genreMovieBatch|;
    var added := ResolveLinks(st2.db.genres, LinePairs(row.id, GenreNames(tokens)));
    forall i | 0 <= i < |st2.genreMovieBatch|
      ensures st2.genreMovieBatch[i].movieId in MovieIds(st2.movieBatch)
      ensures st2.genreMovieBatch[i].genreId in st2.db.genres.Values
    {
      if i < n {
        assert st2.genreMovieBatch[i] == st.genreMovieBatch[i];
      } else {
        assert st2.genreMovieBatch[i] == added[i - n];
      }
    }
  }

  lemma AddMovieResolved(st: MovieLoad, row: MovieUpsert, genres: string)
    requires Inv(st)
    ensures var st' := AddMovie(st, row, genres);
      LinksResolved(st'.genreMovieBatch, MovieIds(st'.movieBatch), st'.db)
  {
    AddMovieEffect(st, row, genres);
  }

  /** processLine keeps the state invariant; the threshold flush empties both buffers. */
  lemma MovieStepInv(st: MovieLoad, outcome: MovieLine)
    requires Inv(st)
    ensures Inv(ApplyMovieLine(st, outcome))
    ensures outcome.SkippedMovie? ==> ApplyMovieLine(st, outcome) == st.(linesSkipped := st.linesSkipped + 1)
  {
    if outcome.MovieRow? {
      AddMovieEffect(st, outcome.row, outcome.genres);
    }
  }

  // ---------------------------------------------------------------------------
  // commits
  // ---------------------------------------------------------------------------

  lemma MovieBatchesOfMovieCommit(log: seq<Commit>, rows: seq<MovieUpsert>)
    ensures MovieBatches(log + [MovieCommit(rows)]) == MovieBatches(log) + [rows]
  {
    assert (log + [MovieCommit(rows)])[..|log|] == log;
  }

  lemma MovieBatchesOfLinkCommit(log: seq<Commit>, links: seq<GenreLink>)
    ensures MovieBatches(log + [GenreLinkCommit(links)]) == MovieBatches(log)
  {
    assert (log + [GenreLinkCommit(links)])[..|log|] == log;
  }

  lemma {:induction false} MovieIdsUpserted(movies: map<string, Movie>, rows: seq<MovieUpsert>)
    ensures MovieIds(rows) <= UpsertMovies(movies, rows).Keys
    decreases |rows|
  {
    if rows != [] {
      MovieIdsUpserted(movies, rows[..|rows| - 1]);
    }
  }

  /**
   * Committing the movie batch and then (if any) the pending links: the links
   * commit directly follows the movies commit, and the log only grows.
   */
  lemma CommitBothLog(st: MovieLoad)
    requires LinksFollowMovies(st.log)
    ensures var st' := CommitBoth(st);
      && LinksFollowMovies(st'.log)
      && MovieBatches(st'.log) == MovieBatches(st.log) + [st.movieBatch]
      && st.log <= st'.log
  {
    var st1 := CommitMovieBatch(st);
    MovieBatchesOfMovieCommit(st.log, st.movieBatch);
    assert LinksFollowMovies(st1.log);
    if st1.genreMovieBatchCount > 0 {
      MovieBatchesOfLinkCommit(st1.log, st1.genreMovieBatch);
      assert CommitBoth(st).log == st1.log + [GenreLinkCommit(st.genreMovieBatch)];
    }
  }

  /**
   * Committing the movie batch and then (if any) the pending links keeps
   * genres_in_movies referentially sound: each pending link names a movie of the
   * batch committed just before it.
   */
  lemma CommitBothDb(st: MovieLoad)
    requires st.genreMovieBatchCount == |st.genreMovieBatch|
    requires LinksResolved(st.genreMovieBatch, MovieIds(st.movieBatch), st.db)
    requires GenreLinksSound(st.db)
    ensures var st' := CommitBoth(st);
      && GenreLinksSound(st'.db)
      && st'.db == st.db.(movies := UpsertMovies(st.db.movies, st.movieBatch), genreLinks := st'.db.genreLinks)
      && st'.movieBatch == [] && st'.genreMovieBatch == []
      && st'.movieBatchCount == 0 && st'.genreMovieBatchCount == 0
  {
    var movies := UpsertMovies(st.db.movies, st.movieBatch);
    MovieIdsUpserted(st.db.movies, st.movieBatch);
    UpsertMoviesKeys(st.db.movies, st.movieBatch);
    var st1 := CommitMovieBatch(st);
    assert st1.db.movies == movies && st1.db.genres == st.db.genres && st1.db.genreLinks == st.db.genreLinks;
    assert GenreLinksSound(st1.db);
  }

  // ---------------------------------------------------------------------------
  // a whole file
  // ---------------------------------------------------------------------------

  /**
   * The movie side of a loader after some lines from a fresh buffer: the movie
   * commits so far are full batches that, followed by the pending batch, give the
   * accepted upserts in order, and the movies table holds the committed ones.
   */
  ghost predicate Buffered(st0: MovieLoad, full: seq<seq<MovieUpsert>>, st: MovieLoad, accepted: seq<MovieUpsert>)
  {
    && Inv(st)
    && (forall i :: 0 <= i < |full| ==> |full[i]| == BatchSize)
    && Flatten(full) + st.movieBatch == accepted
    && MovieBatches(st.log) == MovieBatches(st0.log) + full
    && st.db.movies == UpsertMovies(st0.db.movies, Flatten(full))
  }

  /**
   * What stays true of the store and the log: the log only grows, links follow
   * movies, genres_in_movies stays sound, the tables the loader does not write stay
   * as they were, and every genre name seen so far is stored under a stable id.
   */
  ghost predicate Sound(st0: MovieLoad, st: MovieLoad, names: seq<string>)
  {
    && st0.log <= st.log
    && LinksFollowMovies(st.log)
    && GenreLinksSound(st.db)
    && st.db.stars == st0.db.stars && st.db.castLinks == st0.db.castLinks && st.db.indexes == st0.db.indexes
    && GenresGrow(st0.db.genres, st.db.genres)
    && (forall i :: 0 <= i < |names| ==> names[i] in st.db.genres)
  }

  ghost predicate Counted(st0: MovieLoad, st: MovieLoad, accepted: seq<MovieUpsert>, names: seq<string>, seen: nat)
  {
    && st.moviesProcessed == st0.moviesProcessed + |accepted|
    && st.linesSkipped == st0.linesSkipped + seen - |accepted|
    && st.genreLinksCreated == st0.genreLinksCreated + |names|
  }

  ghost predicate Committed(st0: MovieLoad, full: seq<seq<MovieUpsert>>, st: MovieLoad,
                            accepted: seq<MovieUpsert>, names: seq<string>, seen: nat)
  {
    Buffered(st0, full, st, accepted) && Sound(st0, st, names) && Counted(st0, st, accepted, names, seen)
  }

  /** The accepted upserts and genre names after one more line. */
  function MoreMovies(accepted: seq<MovieUpsert>, outcome: MovieLine): seq<MovieUpsert>
  {
    if outcome.MovieRow? then accepted + [outcome.row] else accepted
  }

  function MoreNames(names: seq<string>, outcome: MovieLine): seq<string>
  {
    if outcome.MovieRow? then names + GenreNames(GenreTokens(outcome.genres)) else names
  }

  /** The Sound part of a kept line below the threshold. */
  lemma AddMovieSound(st0: MovieLoad, st: MovieLoad, names: seq<string>, row: MovieUpsert, genres: string)
    requires Inv(st) && Sound(st0, st, names)
    ensures Sound(st0, AddMovie(st, row, genres), names + GenreNames(GenreTokens(genres)))
  {
    var st' := AddMovie(st, row, genres);
    var more := GenreNames(GenreTokens(genres));
    AddMovieEffect(st, row, genres);
    GenresGrowValues(st.db.genres, st'.db.genres);
    assert st'.db.genreLinks == st.db.genreLinks && st'.db.movies == st.db.movies;
    forall i | 0 <= i < |names + more|
      ensures (names + more)[i] in st'.db.genres
    {
      if i < |names| {
        assert (names + more)[i] == names[i];
      } else {
        assert (names + more)[i] == more[i - |names|];
      }
    }
  }

  /** The Sound part of a kept line that reaches the threshold. */
  lemma ThresholdSound(st0: MovieLoad, st: MovieLoad, names: seq<string>, row: MovieUpsert, genres: string)
    requires Inv(st) && Sound(st0, st, names)
    ensures Sound(st0, CommitBoth(AddMovie(st, row, genres)), names + GenreNames(GenreTokens(genres)))
  {
    var st1 := AddMovie(st, row, genres);
    AddMovieEffect(st, row, genres);
    AddMovieSound(st0, st, names, row, genres);
    CommitBothLog(st1);
    CommitBothDb(st1);
  }

  /** The Buffered part of a kept line that reaches the threshold: one more full batch is committed. */
  lemma ThresholdBuffered(st0: MovieLoad, full: seq<seq<MovieUpsert>>, st: MovieLoad, accepted: seq<MovieUpsert>,
                          row: MovieUpsert, genres: string)
    returns (full': seq<seq<MovieUpsert>>)
    requires Buffered(st0, full, st, accepted)
    requires |st.movieBatch| + 1 == BatchSize
    requires LinksFollowMovies(st.log) && GenreLinksSound(st.db)
    ensures Buffered(st0, full', CommitBoth(AddMovie(st, row, genres)), accepted + [row])
  {
    var st1 := AddMovie(st, row, genres);
    AddMovieEffect(st, row, genres);
    var b := st1.movieBatch;
    CommitBothLog(st1);
    CommitBothDb(st1);
    var st2 := CommitBoth(st1);
    FlattenSnoc(full, b);
    full' := full + [b];
    UpsertMoviesAppend(st0.db.movies, Flatten(full), b);
    assert st2.db.movies == UpsertMovies(st.db.movies, b);
    assert MovieBatches(st2.log) == MovieBatches(st0.log) + full';
    assert Flatten(full') + st2.movieBatch == accepted + [row];
  }

  /** One more line keeps a loader Committed. */
  lemma CommittedStep(st0: MovieLoad, full: seq<seq<MovieUpsert>>, st: MovieLoad, accepted: seq<MovieUpsert>,
                      names: seq<string>, seen: nat, outcome: MovieLine)
    returns (full': seq<seq<MovieUpsert>>)
    requires Committed(st0, full, st, accepted, names, seen)
    ensures Committed(st0, full', ApplyMovieLine(st, outcome), MoreMovies(accepted, outcome), MoreNames(names, outcome), seen + 1)
  {
    full' := full;
    match outcome
    case SkippedMovie(_) =>
      MovieStepInv(st, outcome);
    case MovieRow(row, genres) =>
      if |st.movieBatch| + 1 == BatchSize {
        full' := ThresholdStep(st0, full, st, accepted, names, seen, row, genres);
      } else {
        BelowThresholdStep(st0, full, st, accepted, names, seen, row, genres);
      }
  }

  /** An accepted line that leaves the batch below the threshold keeps a loader Committed. */
  lemma BelowThresholdStep(st0: MovieLoad, full: seq<seq<MovieUpsert>>, st: MovieLoad, accepted: seq<MovieUpsert>,
                           names: seq<string>, seen: nat, row: MovieUpsert, genres: string)
    requires Committed(st0, full, st, accepted, names, seen)
    requires |st.movieBatch| + 1 != BatchSize
    ensures Committed(st0, full, ApplyMovieLine(st, MovieRow(row, genres)), accepted + [row],
                      names + GenreNames(GenreTokens(genres)), seen + 1)
  {
    MovieStepInv(st, MovieRow(row, genres));
    AddMovieEffect(st, row, genres);
    AddMovieSound(st0, st, names, row, genres);
    assert Flatten(full) + (st.movieBatch + [row]) == accepted + [row];
  }

  /** An accepted line that fills the batch keeps a loader Committed, with one more full batch committed. */
  lemma ThresholdStep(st0: MovieLoad, full: seq<seq<MovieUpsert>>, st: MovieLoad, accepted: seq<MovieUpsert>,
                      names: seq<string>, seen: nat, row: MovieUpsert, genres: string)
    returns (full': seq<seq<MovieUpsert>>)
    requires Committed(st0, full, st, accepted, names, seen)
    requires |st.movieBatch| + 1 == BatchSize
    ensures Committed(st0, full', ApplyMovieLine(st, MovieRow(row, genres)), accepted + [row],
                      names + GenreNames(GenreTokens(genres)), seen + 1)
  {
    MovieStepInv(st, MovieRow(row, genres));
    AddMovieEffect(st, row, genres);
    full' := ThresholdBuffered(st0, full, st, accepted, row, genres);
    ThresholdSound(st0, st, names, row, genres);
  }

  lemma {:induction false} MovieStepsShape(st0: MovieLoad, lines: seq<string>) returns (full: seq<seq<MovieUpsert>>)
    requires Inv(st0) && st0.movieBatch == []
    requires LinksFollowMovies(st0.log) && GenreLinksSound(st0.db)
    ensures Committed(st0, full, MovieSteps(st0, lines), AcceptedMovies(lines), AcceptedGenreNames(lines), |lines|)
    decreases |lines|
  {
    if lines == [] {
      full := [];
      assert Flatten(full) + st0.movieBatch == [];
    } else {
      var front := lines[..|lines| - 1];
      var outcome := ClassifyMovieLine(lines[|lines| - 1]);
      full := MovieStepsShape(st0, front);
      full := CommittedStep(st0, full, MovieSteps(st0, front), AcceptedMovies(front), AcceptedGenreNames(front), |front|, outcome);
    }
  }

  /** Under the invariant, finalizeParsing is the threshold flush whenever a movie is pending, and no commit otherwise. */
  lemma FinishIsFlush(st: MovieLoad)
    requires Inv(st)
    ensures MovieFinish(st) == (if st.movieBatchCount > 0 then CommitBoth(st) else st).(closed := true)
  {
  }

  /** finalizeParsing turns a Committed loader's state into the commits of Chunks of its movies. */
  lemma FinishBuffered(st0: MovieLoad, full: seq<seq<MovieUpsert>>, st: MovieLoad, accepted: seq<MovieUpsert>)
    requires Buffered(st0, full, st, accepted)
    requires LinksFollowMovies(st.log) && GenreLinksSound(st.db)
    ensures var fin := MovieFinish(st);
      && MovieBatches(fin.log) == MovieBatches(st0.log) + Chunks(accepted)
      && fin.db.movies == UpsertMovies(st0.db.movies, accepted)
  {
    FinishIsFlush(st);
    ChunksOfCommitted(full, st.movieBatch);
    if st.movieBatchCount > 0 {
      CommitBothLog(st);
      CommitBothDb(st);
      UpsertMoviesAppend(st0.db.movies, Flatten(full), st.movieBatch);
      assert MovieBatches(st0.log) + full + [st.movieBatch] == MovieBatches(st0.log) + (full + [st.movieBatch]);
    } else {
      assert Flatten(full) + st.movieBatch == Flatten(full);
      assert full + [] == full;
    }
  }

  lemma FinishSound(st0: MovieLoad, st: MovieLoad, names: seq<string>)
    requires Inv(st) && Sound(st0, st, names)
    ensures Sound(st0, MovieFinish(st), names)
    ensures MovieFinish(st).movieBatch == [] && MovieFinish(st).genreMovieBatch == []
  {
    FinishIsFlush(st);
    if st.movieBatchCount > 0 {
      CommitBothLog(st);
      CommitBothDb(st);
    }
  }

  /** The (tconst, genre name) pairs of the kept lines of a stream, line after line. */
  function AcceptedGenrePairs(lines: seq<string>): seq<NamedLink>
  {
    if lines == [] then []
    else
      var front := AcceptedGenrePairs(lines[..|lines| - 1]);
      match ClassifyMovieLine(lines[|lines| - 1])
      case MovieRow(row, genres) => front + LinePairs(row.id, GenreNames(GenreTokens(genres)))
      case SkippedMovie(_) => front
  }

  /** The pairs of a stream carry its genre names, one pair per name, in order. */
  lemma {:induction false} AcceptedGenrePairsNames(lines: seq<string>)
    ensures |AcceptedGenrePairs(lines)| == |AcceptedGenreNames(lines)|
    ensures forall i :: 0 <= i < |AcceptedGenrePairs(lines)| ==> AcceptedGenrePairs(lines)[i].name == AcceptedGenreNames(lines)[i]
    decreases |lines|
  {
    if lines != [] {
      var front := lines[..|lines| - 1];
      AcceptedGenrePairsNames(front);
      var pf, nf := AcceptedGenrePairs(front), AcceptedGenreNames(front);
      var p, n := AcceptedGenrePairs(lines), AcceptedGenreNames(lines);
      match ClassifyMovieLine(lines[|lines| - 1])
      case MovieRow(row, genres) =>
        var more := GenreNames(GenreTokens(genres));
        assert p == pf + LinePairs(row.id, more) && n == nf + more;
        forall i | 0 <= i < |p|
          ensures p[i].name == n[i]
        {
          if i < |pf| {
            assert p[i] == pf[i] && n[i] == nf[i];
          } else {
            assert p[i] == LinePairs(row.id, more)[i - |pf|] && n[i] == more[i - |nf|];
          }
        }
      case SkippedMovie(_) =>
    }
  }

  /**
   * The genre side of a loader after some lines: the genres table gained the names
   * met so far and no other, without renumbering, and the stored links together
   * with the pending ones are the links the pairs met so far resolve to.
   */
  ghost predicate Linked(st0: MovieLoad, st: MovieLoad, pairs: seq<NamedLink>, names: seq<string>)
  {
    && GenresGrow(st0.db.genres, st.db.genres)
    && (forall n :: n in st.db.genres ==> n in st0.db.genres || n in names)
    && (forall i :: 0 <= i < |names| ==> names[i] in st.db.genres)
    && NamesStored(pairs, st.db.genres)
    && InsertLinks(st.db.genreLinks, st.genreMovieBatch) == InsertLinks(st0.db.genreLinks, ResolveLinks(st.db.genres, pairs))
  }

  function MorePairs(pairs: seq<NamedLink>, outcome: MovieLine): seq<NamedLink>
  {
    if outcome.MovieRow? then pairs + LinePairs(outcome.row.id, GenreNames(GenreTokens(outcome.genres))) else pairs
  }

  /** Committing moves pending links into the table: stored plus pending stays the same, and the genres table is untouched. */
  lemma FlushKeepsLinks(st: MovieLoad)
    requires st.genreMovieBatchCount == |st.genreMovieBatch|
    ensures CommitBoth(st).db.genres == st.db.genres && MovieFinish(st).db.genres == st.db.genres
    ensures InsertLinks(CommitBoth(st).db.genreLinks, CommitBoth(st).genreMovieBatch) == InsertLinks(st.db.genreLinks, st.genreMovieBatch)
    ensures InsertLinks(MovieFinish(st).db.genreLinks, MovieFinish(st).genreMovieBatch) == InsertLinks(st.db.genreLinks, st.genreMovieBatch)
  {
    InsertPresentLinks(InsertLinks(st.db.genreLinks, st.genreMovieBatch), []);
    InsertPresentLinks(st.db.genreLinks, []);
  }

  /** A kept line adds its pairs' links to stored-plus-pending, and the names to the genres table. */
  lemma AddMovieLinked(st0: MovieLoad, st: MovieLoad, pairs: seq<NamedLink>, names: seq<string>, row: MovieUpsert, genres: string)
    requires Inv(st) && Linked(st0, st, pairs, names)
    ensures Linked(st0, AddMovie(st, row, genres), pairs + LinePairs(row.id, GenreNames(GenreTokens(genres))),
                   names + GenreNames(GenreTokens(genres)))
  {
    var st' := AddMovie(st, row, genres);
    var more := GenreNames(GenreTokens(genres));
    var lp := LinePairs(row.id, more);
    AddMovieEffect(st, row, genres);
    var g, g' := st.db.genres, st'.db.genres;
    ResolveGrow(g, g', pairs);
    ResolveAppend(g', pairs, lp);
    InsertLinksAppend(st.db.genreLinks, st.genreMovieBatch, ResolveLinks(g', lp));
    InsertLinksAppend(st0.db.genreLinks, ResolveLinks(g', pairs), ResolveLinks(g', lp));
    forall i | 0 <= i < |names + more|
      ensures (names + more)[i] in g'
    {
      if i < |names| {
        assert (names + more)[i] == names[i];
      } else {
        assert (names + more)[i] == more[i - |names|] == lp[i - |names|].name;
      }
    }
  }

  /** processLine keeps a loader Linked. */
  lemma LinkedStep(st0: MovieLoad, st: MovieLoad, pairs: seq<NamedLink>, names: seq<string>, outcome: MovieLine)
    requires Inv(st) && Linked(st0, st, pairs, names)
    ensures Linked(st0, ApplyMovieLine(st, outcome), MorePairs(pairs, outcome), MoreNames(names, outcome))
  {
    if outcome.MovieRow? {
      var st1 := AddMovie(st, outcome.row, outcome.genres);
      AddMovieLinked(st0, st, pairs, names, outcome.row, outcome.genres);
      AddMovieEffect(st, outcome.row, outcome.genres);
      FlushKeepsLinks(st1);
    }
  }

  lemma {:induction false} LinkedSteps(st0: MovieLoad, lines: seq<string>)
    requires Inv(st0) && st0.genreMovieBatch == []
    ensures Inv(MovieSteps(st0, lines))
    ensures Linked(st0, MovieSteps(st0, lines), AcceptedGenrePairs(lines), AcceptedGenreNames(lines))
    decreases |lines|
  {
    if lines == [] {
      assert ResolveLinks(st0.db.genres, []) == [];
    } else {
      var front := lines[..|lines| - 1];
      var outcome := ClassifyMovieLine(lines[|lines| - 1]);
      LinkedSteps(st0, front);
      MovieStepInv(MovieSteps(st0, front), outcome);
      LinkedStep(st0, MovieSteps(st0, front), AcceptedGenrePairs(front), AcceptedGenreNames(front), outcome);
    }
  }

  /**
   * parse from a fresh parser, on any store: the genres table gains exactly the
   * genre names of the kept lines, no stored genre is renumbered, and
   * genres_in_movies gains exactly the links (id of the name, tconst) of every
   * genre name of every kept line.
   */
  lemma MovieParseGenres(db: Db, log: seq<Commit>, lines: seq<string>)
    ensures var fin := MovieParse(NewMovieLoad(db, log), lines);
      var body := DataLines(lines);
      var pairs := AcceptedGenrePairs(body);
      var names := AcceptedGenreNames(body);
      && GenresGrow(db.genres, fin.db.genres)
      && (forall n :: n in fin.db.genres <==> n in db.genres || n in names)
      && NamesStored(pairs, fin.db.genres)
      && fin.db.genreLinks == InsertLinks(db.genreLinks, ResolveLinks(fin.db.genres, pairs))
  {
    var st0 := NewMovieLoad(db, log);
    var body := DataLines(lines);
    var st := MovieSteps(st0, body);
    LinkedSteps(st0, body);
    FlushKeepsLinks(st);
    FinishIsFlush(st);
    var fin := MovieFinish(st);
    assert fin.genreMovieBatch == [];
    InsertPresentLinks(fin.db.genreLinks, []);
  }

  /**
   * parse from a fresh parser: the movie commits are Chunks of the accepted
   * upserts; the movies table holds them upserted in file order; every genre-link
   * commit follows a movie commit and every stored link names a stored movie and
   * genre; every genre name met is stored, no stored genre is renumbered; the stars,
   * cast and index state is untouched; moviesProcessed counts the kept lines,
   * linesSkipped the other data lines and genreLinksCreated the genre names of the
   * kept lines; both buffers end empty.
   */
  lemma MovieParseEffect(db: Db, log: seq<Commit>, lines: seq<string>)
    requires LinksFollowMovies(log) && GenreLinksSound(db)
    ensures var fin := MovieParse(NewMovieLoad(db, log), lines);
      var body := DataLines(lines);
      var accepted := AcceptedMovies(body);
      var names := AcceptedGenreNames(body);
      && MovieBatches(fin.log) == MovieBatches(log) + Chunks(accepted)
      && fin.db.movies == UpsertMovies(db.movies, accepted)
      && log <= fin.log
      && LinksFollowMovies(fin.log)
      && GenreLinksSound(fin.db)
      && GenresGrow(db.genres, fin.db.genres)
      && (forall n :: n in fin.db.genres <==> n in db.genres || n in names)
      && NamesStored(AcceptedGenrePairs(body), fin.db.genres)
      && fin.db.genreLinks == InsertLinks(db.genreLinks, ResolveLinks(fin.db.genres, AcceptedGenrePairs(body)))
      && fin.db.stars == db.stars && fin.db.castLinks == db.castLinks && fin.db.indexes == db.indexes
      && fin.moviesProcessed == |accepted|
      && fin.linesSkipped == |body| - |accepted|
      && fin.genreLinksCreated == |names|
      && fin.closed && fin.movieBatch == [] && fin.genreMovieBatch == []
  {
    var st0 := NewMovieLoad(db, log);
    var body := DataLines(lines);
    var full := MovieStepsShape(st0, body);
    var st := MovieSteps(st0, body);
    FinishBuffered(st0, full, st, AcceptedMovies(body));
    FinishSound(st0, st, AcceptedGenreNames(body));
    FinishIsFlush(st);
    MovieParseGenres(db, log, lines);
  }

  // ---------------------------------------------------------------------------
  // the parser object
  // ---------------------------------------------------------------------------

  class MovieTSVParser {
    const conn: Connection
    /** movieStmt's pending batch. */
    var movieBatch: seq<MovieUpsert>
    /** genreMovieStmt's pending batch. */
    var genreMovieBatch: seq<GenreLink>
    var movieBatchCount: int
    var genreMovieBatchCount: int
    var moviesProcessed: int
    var genreLinksCreated: int
    var linesSkipped: int
    /** The statements have been closed by finalizeParsing. */
    var closed: bool

    ghost function State(): MovieLoad
      reads this, conn
    {
      MovieLoad(movieBatch, genreMovieBatch, movieBatchCount, genreMovieBatchCount,
                moviesProcessed, genreLinksCreated, linesSkipped, closed, conn.db, conn.log)
    }

    ghost predicate Valid()
      reads this, conn
    {
      Inv(State())
    }

    constructor (conn: Connection)
      ensures this.conn == conn
      ensures State() == NewMovieLoad(conn.db, conn.log)
    {
      this.conn := conn;
      movieBatch := [];
      genreMovieBatch := [];
      movieBatchCount := 0;
      genreMovieBatchCount := 0;
      moviesProcessed := 0;
      genreLinksCreated := 0;
      linesSkipped := 0;
      closed := false;
    }

    method Parse(lines: seq<string>)
      requires Valid()
      modifies this, conn
      ensures State() == MovieParse(old(State()), lines)
    {
      var isFirstLine := true;
      var i := 0;
      while i < |lines|
        invariant 0 <= i <= |lines|
        invariant isFirstLine <==> i == 0
        invariant Valid()
        invariant State() == MovieSteps(old(State()), DataLines(lines[..i]))
      {
        var line := lines[i];
        if isFirstLine {
          isFirstLine := false;
        } else {
          DataLinesSnoc(lines, i);
          ProcessLine(line);
        }
        i := i + 1;
      }
      assert lines[..i] == lines;
      FinalizeParsing();
    }

    method ProcessLine(line: string)
      requires Valid()
      modifies this, conn
      ensures Valid()
      ensures State() == MovieStep(old(State()), line)
    {
      var fields := Split(line, Tab);
      if |fields| < MovieColumns {
        linesSkipped := linesSkipped + 1;
        return;
      }
      var tconst, titleType, primaryTitle := fields[0], fields[1], fields[2];
      var isAdult, startYear, genres := fields[4], fields[5], fields[8];
      if titleType != "movie" || isAdult == "1" {
        linesSkipped := linesSkipped + 1;
        return;
      }
      var year: Option<int> := None;
      if startYear != Sentinel {
        year := ParseInt(startYear);
      }
      var row := MovieUpsert(tconst, primaryTitle, year);
      assert ClassifyMovieLine(line) == MovieRow(row, genres);
      KeepMovie(row, genres);
    }

    /** The rest of processLine for a kept title: buffer it, link its genres, flush at the threshold. */
    method KeepMovie(row: MovieUpsert, genres: string)
      requires Valid()
      modifies this, conn
      ensures Valid()
      ensures State() == ApplyMovieLine(old(State()), MovieRow(row, genres))
    {
      ghost var st0 := State();
      MovieStepInv(st0, MovieRow(row, genres));
      movieBatch := movieBatch + [row];
      movieBatchCount := movieBatchCount + 1;
      AddGenres(row.id, genres);
      moviesProcessed := moviesProcessed + 1;
      assert State() == AddMovie(st0, row, genres);
      AddMovieResolved(st0, row, genres);
      if movieBatchCount >= BatchSize {
        FlushBoth();
      }
    }

    /** The genre loop of processLine for movie `tconst`. */
    method AddGenres(tconst: string, genres: string)
      modifies this, conn
      ensures State() == GenreSteps(old(State()), tconst, GenreTokens(genres))
    {
      var genreList: seq<string> := [];
      if genres != Sentinel && genres != "" {
        genreList := SplitDroppingTrailing(genres, ',');
      }
      for k := 0 to |genreList|
        invariant State() == GenreSteps(old(State()), tconst, genreList[..k])
      {
        assert genreList[..k + 1][..k] == genreList[..k];
        AddGenre(tconst, genreList[k]);
      }
      assert genreList[..|genreList|] == genreList;
    }

    /** One entry of the genre loop: insert the genre, select its id, buffer the link. */
    method AddGenre(tconst: string, entry: string)
      modifies this, conn
      ensures State() == GenreStep(old(State()), tconst, entry)
      ensures GenreFrame(old(State()), State(), tconst, if Trim(entry) == "" then [] else [Trim(entry)])
    {
      GenreStepFrame(State(), tconst, entry);
      var genre := Trim(entry);
      if genre != "" {
        conn.InsertGenreName(genre);
        var id := conn.SelectGenreId(genre);
        if id.Some? {
          genreMovieBatch := genreMovieBatch + [GenreLink(id.value, tconst)];
          genreMovieBatchCount := genreMovieBatchCount + 1;
          genreLinksCreated := genreLinksCreated + 1;
        }
      }
    }

    /** The threshold flush: movies first, then the pending genre links, if any. */
    method FlushBoth()
      requires FlushReady()
      modifies this, conn
      ensures State() == CommitBoth(old(State()))
    {
      ghost var pending := movieBatch;
      MovieIdsUpserted(conn.db.movies, pending);
      conn.CommitMovies(movieBatch);
      movieBatch := [];
      movieBatchCount := 0;
      if genreMovieBatchCount > 0 {
        conn.CommitGenreLinks(genreMovieBatch);
        genreMovieBatch := [];
        genreMovieBatchCount := 0;
      }
    }

    /** What a flush needs: every pending link names a pending movie and a stored genre. */
    ghost predicate FlushReady()
      reads this, conn
    {
      LinksResolved(genreMovieBatch, MovieIds(movieBatch), conn.db)
    }

    method FinalizeParsing()
      requires Valid()
      modifies this, conn
      ensures State() == MovieFinish(old(State()))
    {
      ghost var pending := movieBatch;
      MovieIdsUpserted(conn.db.movies, pending);
      if movieBatchCount > 0 {
        conn.CommitMovies(movieBatch);
        movieBatch := [];
        movieBatchCount := 0;
      }
      if genreMovieBatchCount > 0 {
        conn.CommitGenreLinks(genreMovieBatch);
        genreMovieBatch := [];
        genreMovieBatchCount := 0;
      }
      closed := true;
    }
  }
}
