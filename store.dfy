/**
 * The relational store the loaders write to, as a value: the movies, stars and
 * genres tables, the genres_in_movies and stars_in_movies junctions, and the
 * secondary indexes the bulk load drops and recreates. A `Connection` holds the
 * store and applies committed statement batches to it.
 */
module Store {
  import opened Optional

  datatype Movie = Movie(title: string, year: Option<int>, director: Option<string>)
  datatype Star = Star(name: string, birthYear: Option<int>)

  /** The parameters of one `INSERT INTO movies ... ON CONFLICT (id) DO UPDATE`. */
  datatype MovieUpsert = MovieUpsert(id: string, title: string, year: Option<int>)
  /** The parameters of one `INSERT INTO stars ... ON CONFLICT (id) DO UPDATE`. */
  datatype StarUpsert = StarUpsert(id: string, name: string, birthYear: Option<int>)
  /** A row of genres_in_movies. */
  datatype GenreLink = GenreLink(genreId: int, movieId: string)
  /** A row of stars_in_movies. */
  datatype CastLink = CastLink(starId: string, movieId: string)

  /** The secondary indexes: idx_movies_title, idx_movies_year, idx_stars_name. */
  datatype Index = MoviesTitle | MoviesYear | StarsName

  datatype Db = Db(
    movies: map<string, Movie>,
    stars: map<string, Star>,
    genres: map<string, int>,
    nextGenreId: int,
    genreLinks: set<GenreLink>,
    castLinks: set<CastLink>,
    indexes: set<Index>)

  /** One committed batch, as it was sent to the store. */
  datatype Commit =
    | MovieCommit(movieRows: seq<MovieUpsert>)
    | GenreLinkCommit(genreLinks: seq<GenreLink>)
    | StarCommit(starRows: seq<StarUpsert>)
    | CastCommit(castLinks: seq<CastLink>)

  // ---------------------------------------------------------------------------
  // movies: insert with a NULL director, or update title and year only
  // ---------------------------------------------------------------------------

  /**
   * One movie upsert: the row gets the new title and year; an existing row keeps
   * its director, a new row gets none; no other row changes.
   */
  function UpsertMovie(movies: map<string, Movie>, u: MovieUpsert): (r: map<string, Movie>)
    ensures r.Keys == movies.Keys + {u.id}
    ensures r[u.id].title == u.title && r[u.id].year == u.year
    ensures r[u.id].director == if u.id in movies then movies[u.id].director else None
    ensures forall k :: k in movies && k != u.id ==> r[k] == movies[k]
  {
    var director := if u.id in movies then movies[u.id].director else None;
    movies[u.id := Movie(u.title, u.year, director)]
  }

  /** A batch of movie upserts, executed one statement after the other. */
  function UpsertMovies(movies: map<string, Movie>, rows: seq<MovieUpsert>): map<string, Movie>
  {
    if rows == [] then movies
    else UpsertMovie(UpsertMovies(movies, rows[..|rows| - 1]), rows[|rows| - 1])
  }

  lemma {:induction false} UpsertMoviesAppend(movies: map<string, Movie>, a: seq<MovieUpsert>, b: seq<MovieUpsert>)
    ensures UpsertMovies(movies, a + b) == UpsertMovies(UpsertMovies(movies, a), b)
    decreases |b|
  {
    if b == [] {
      assert a + b == a;
    } else {
      assert (a + b)[..|a + b| - 1] == a + b[..|b| - 1];
      UpsertMoviesAppend(movies, a, b[..|b| - 1]);
    }
  }

  /** A movie batch only adds rows: every id it names is present afterwards, and so is every earlier id. */
  lemma {:induction false} UpsertMoviesKeys(movies: map<string, Movie>, rows: seq<MovieUpsert>)
    ensures movies.Keys <= UpsertMovies(movies, rows).Keys
    ensures forall i :: 0 <= i < |rows| ==> rows[i].id in UpsertMovies(movies, rows)
    decreases |rows|
  {
    if rows != [] {
      UpsertMoviesKeys(movies, rows[..|rows| - 1]);
    }
  }

  /** The last upsert in `rows` for the id `k`, if any. */
  function LastMovieRow(rows: seq<MovieUpsert>, k: string): (r: Option<MovieUpsert>)
    ensures r.Some? ==> r.value in rows && r.value.id == k
    ensures r.None? ==> forall i :: 0 <= i < |rows| ==> rows[i].id != k
  {
    if rows == [] then None
    else if rows[|rows| - 1].id == k then Some(rows[|rows| - 1])
    else LastMovieRow(rows[..|rows| - 1], k)
  }

  /**
   * The movies table after a batch, row by row: the last upsert of an id decides
   * title and year, and the director is the one the row had before the batch.
   */
  lemma {:induction false} UpsertMoviesAt(movies: map<string, Movie>, rows: seq<MovieUpsert>, k: string)
    ensures var r := UpsertMovies(movies, rows);
      && (k in r <==> k in movies || LastMovieRow(rows, k).Some?)
      && (LastMovieRow(rows, k).None? && k in movies ==> r[k] == movies[k])
      && (LastMovieRow(rows, k).Some? ==>
            var u := LastMovieRow(rows, k).value;
            r[k] == Movie(u.title, u.year, if k in movies then movies[k].director else None))
    decreases |rows|
  {
    if rows != [] {
      UpsertMoviesAt(movies, rows[..|rows| - 1], k);
    }
  }

  /** Re-running a movie batch on its own result changes nothing: a refresh is idempotent. */
  lemma UpsertMoviesIdempotent(movies: map<string, Movie>, rows: seq<MovieUpsert>)
    ensures UpsertMovies(UpsertMovies(movies, rows), rows) == UpsertMovies(movies, rows)
  {
    var once := UpsertMovies(movies, rows);
    var twice := UpsertMovies(once, rows);
    forall k | k in once || k in twice
      ensures k in once && k in twice && twice[k] == once[k]
    {
      UpsertMoviesAt(movies, rows, k);
      UpsertMoviesAt(once, rows, k);
    }
  }

  /** The pipeline never writes a director: it keeps the stored one, or leaves a new row without. */
  lemma UpsertMoviesKeepsDirector(movies: map<string, Movie>, rows: seq<MovieUpsert>, k: string)
    requires k in UpsertMovies(movies, rows)
    ensures UpsertMovies(movies, rows)[k].director == if k in movies then movies[k].director else None
  {
    UpsertMoviesAt(movies, rows, k);
  }

  // ---------------------------------------------------------------------------
  // stars: insert, or overwrite name and birth year
  // ---------------------------------------------------------------------------

  /** One star upsert: the row for the id holds the new name and birth year; no other row changes. */
  function UpsertStar(stars: map<string, Star>, u: StarUpsert): (r: map<string, Star>)
    ensures r.Keys == stars.Keys + {u.id}
    ensures r[u.id] == Star(u.name, u.birthYear)
    ensures forall k :: k in stars && k != u.id ==> r[k] == stars[k]
  {
    stars[u.id := Star(u.name, u.birthYear)]
  }

  function UpsertStars(stars: map<string, Star>, rows: seq<StarUpsert>): map<string, Star>
  {
    if rows == [] then stars
    else UpsertStar(UpsertStars(stars, rows[..|rows| - 1]), rows[|rows| - 1])
  }

  lemma {:induction false} UpsertStarsAppend(stars: map<string, Star>, a: seq<StarUpsert>, b: seq<StarUpsert>)
    ensures UpsertStars(stars, a + b) == UpsertStars(UpsertStars(stars, a), b)
    decreases |b|
  {
    if b == [] {
      assert a + b == a;
    } else {
      assert (a + b)[..|a + b| - 1] == a + b[..|b| - 1];
      UpsertStarsAppend(stars, a, b[..|b| - 1]);
    }
  }

  /** A star batch only adds rows: every id it names is present afterwards, and so is every earlier id. */
  lemma {:induction false} UpsertStarsKeys(stars: map<string, Star>, rows: seq<StarUpsert>)
    ensures stars.Keys <= UpsertStars(stars, rows).Keys
    ensures forall i :: 0 <= i < |rows| ==> rows[i].id in UpsertStars(stars, rows)
    decreases |rows|
  {
    if rows != [] {
      UpsertStarsKeys(stars, rows[..|rows| - 1]);
    }
  }

  // ---------------------------------------------------------------------------
  // genres: insert the name unless it is already there; the store picks the id
  // ---------------------------------------------------------------------------

  /** Every genre id was handed out by the store's sequence, and no two names share one. */
  ghost predicate GenreIdsFresh(db: Db)
  {
    && (forall n :: n in db.genres ==> db.genres[n] < db.nextGenreId)
    && (forall n, m :: n in db.genres && m in db.genres && n != m ==> db.genres[n] != db.genres[m])
  }

  /**
   * `INSERT INTO genres (name) VALUES (?) ON CONFLICT (name) DO NOTHING`: a known
   * name leaves the store as it is; a new name gets an id no other name has. No
   * existing name changes id and no other table changes.
   */
  function InsertGenre(db: Db, name: string): (r: Db)
    ensures name in r.genres
    ensures name in db.genres ==> r == db
    ensures r.genres.Keys == db.genres.Keys + {name}
    ensures forall n :: n in db.genres ==> r.genres[n] == db.genres[n]
    ensures r.(genres := db.genres, nextGenreId := db.nextGenreId) == db
    ensures GenreIdsFresh(db) ==> GenreIdsFresh(r)
  {
    if name in db.genres then db
    else db.(genres := db.genres[name := db.nextGenreId], nextGenreId := db.nextGenreId + 1)
  }

  // ---------------------------------------------------------------------------
  // junctions: INSERT ... ON CONFLICT DO NOTHING
  // ---------------------------------------------------------------------------

  /** Link rows inserted one by one; a row already present is ignored. */
  function InsertLinks<T(!new)>(links: set<T>, rows: seq<T>): (r: set<T>)
    ensures forall x :: x in r <==> x in links || x in rows
  {
    if rows == [] then links
    else InsertLinks(links, rows[..|rows| - 1]) + {rows[|rows| - 1]}
  }

  /** Inserting links that are all present already is a no-op. */
  lemma InsertPresentLinks<T(!new)>(links: set<T>, rows: seq<T>)
    requires forall i :: 0 <= i < |rows| ==> rows[i] in links
    ensures InsertLinks(links, rows) == links
  {
  }

  /** Re-inserting a link batch on its own result changes nothing. */
  lemma InsertLinksIdempotent<T(!new)>(links: set<T>, rows: seq<T>)
    ensures InsertLinks(InsertLinks(links, rows), rows) == InsertLinks(links, rows)
  {
    InsertPresentLinks(InsertLinks(links, rows), rows);
  }

  lemma {:induction false} InsertLinksAppend<T(!new)>(links: set<T>, a: seq<T>, b: seq<T>)
    ensures InsertLinks(links, a + b) == InsertLinks(InsertLinks(links, a), b)
  {
  }

  // ---------------------------------------------------------------------------
  // secondary indexes
  // ---------------------------------------------------------------------------

  /** The indexes dropped before the bulk load and recreated after it. */
  const BulkLoadIndexes: set<Index> := {MoviesTitle, MoviesYear, StarsName}

  /** `DROP INDEX IF EXISTS` on each bulk-load index. */
  function DropIndexes(db: Db): (r: Db)
    ensures r.indexes * BulkLoadIndexes == {}
    ensures r.(indexes := db.indexes) == db
  {
    db.(indexes := db.indexes - BulkLoadIndexes)
  }

  /** `CREATE INDEX IF NOT EXISTS` on each bulk-load index. */
  function RestoreIndexes(db: Db): (r: Db)
    ensures BulkLoadIndexes <= r.indexes
    ensures r.(indexes := db.indexes) == db
  {
    db.(indexes := db.indexes + BulkLoadIndexes)
  }

  /** Restoring after dropping recreates exactly the indexes that were dropped. */
  lemma RestoreAfterDrop(db: Db)
    ensures RestoreIndexes(DropIndexes(db)).indexes == db.indexes + BulkLoadIndexes
    ensures DropIndexes(db).indexes + BulkLoadIndexes == RestoreIndexes(DropIndexes(db)).indexes
  {
  }

  // ---------------------------------------------------------------------------
  // the connection
  // ---------------------------------------------------------------------------

  /**
   * A JDBC connection with auto-commit off. `db` is what the connection sees;
   * `log` records every committed statement batch, in commit order. Executing a
   * batch and committing it are one step here.
   */
  class Connection {
    var db: Db
    ghost var log: seq<Commit>

    constructor (initial: Db)
      ensures db == initial && log == []
    {
      db := initial;
      log := [];
    }

    /** The genre insert, executed on its own (not batched). */
    method InsertGenreName(name: string)
      modifies this
      ensures db == InsertGenre(old(db), name) && log == old(log)
    {
      db := InsertGenre(db, name);
    }

    /** `SELECT id FROM genres WHERE name = ?`: the id, or no row. */
    method SelectGenreId(name: string) returns (id: Option<int>)
      ensures id.Some? <==> name in db.genres
      ensures id.Some? ==> id.value == db.genres[name]
    {
      id := if name in db.genres then Some(db.genres[name]) else None;
    }

    method CommitMovies(rows: seq<MovieUpsert>)
      modifies this
      ensures db == old(db).(movies := UpsertMovies(old(db).movies, rows))
      ensures log == old(log) + [MovieCommit(rows)]
    {
      db := db.(movies := UpsertMovies(db.movies, rows));
      log := log + [MovieCommit(rows)];
    }

    /**
     * A genres_in_movies batch. Every link must name a genre and a movie the store
     * already holds: the loader commits the movie batch first for that reason.
     */
    method CommitGenreLinks(links: seq<GenreLink>)
      requires forall i :: 0 <= i < |links| ==> links[i].movieId in db.movies && links[i].genreId in db.genres.Values
      modifies this
      ensures db == old(db).(genreLinks := InsertLinks(old(db).genreLinks, links))
      ensures log == old(log) + [GenreLinkCommit(links)]
    {
      db := db.(genreLinks := InsertLinks(db.genreLinks, links));
      log := log + [GenreLinkCommit(links)];
    }

    method CommitStars(rows: seq<StarUpsert>)
      modifies this
      ensures db == old(db).(stars := UpsertStars(old(db).stars, rows))
      ensures log == old(log) + [StarCommit(rows)]
    {
      db := db.(stars := UpsertStars(db.stars, rows));
      log := log + [StarCommit(rows)];
    }

    /** A stars_in_movies batch: every link must name a star and a movie the store holds. */
    method CommitCastLinks(links: seq<CastLink>)
      requires forall i :: 0 <= i < |links| ==> links[i].starId in db.stars && links[i].movieId in db.movies
      modifies this
      ensures db == old(db).(castLinks := InsertLinks(old(db).castLinks, links))
      ensures log == old(log) + [CastCommit(links)]
    {
      db := db.(castLinks := InsertLinks(db.castLinks, links));
      log := log + [CastCommit(links)];
    }

    method DropBulkLoadIndexes()
      modifies this
      ensures db == DropIndexes(old(db)) && log == old(log)
    {
      db := DropIndexes(db);
    }

    method RestoreBulkLoadIndexes()
      modifies this
      ensures db == RestoreIndexes(old(db)) && log == old(log)
    {
      db := RestoreIndexes(db);
    }
  }
}
