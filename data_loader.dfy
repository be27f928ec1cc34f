/**
 * The bulk-load driver (DataLoader.main): check the credentials, connect, drop
 * the bulk-load indexes, load actors, movies and cast in that order, restore the
 * indexes and report what the store holds. Missing credentials, a missing movies
 * file and any exception end the run with exit code 1; a missing actors or cast
 * file only skips its own stage.
 */
module DataLoader {
  import opened Optional
  import opened Tsv
  import opened Batching
  import opened Store
  import opened ActorLoader
  import opened MovieLoader
  import opened CastLoader

  /** The stages of a run, in the order main performs them. */
  datatype Stage = Connect | OptimizeForLoading | LoadActors | LoadMovies | LoadCasts | Restore | Verify

  function StageIndex(s: Stage): nat
  {
    match s
    case Connect => 0
    case OptimizeForLoading => 1
    case LoadActors => 2
    case LoadMovies => 3
    case LoadCasts => 4
    case Restore => 5
    case Verify => 6
  }

  const ActorsPath: string := "data/name.basics.tsv.gz"
  const MoviesPath: string := "data/title.basics.tsv.gz"
  const CastsPath: string := "data/title.principals.tsv.gz"

  /** The requirement the verification step checks. */
  const MinMovies: int := 10000

  /** DB_URL, DB_USER and DB_PASSWORD are all set (to anything, the empty string included). */
  predicate HasCredentials(env: map<string, string>)
  {
    "DB_URL" in env && "DB_USER" in env && "DB_PASSWORD" in env
  }

  /** What verifyData prints: the five counts, and whether the movie count misses the requirement. */
  datatype Report = Report(
    movies: int,
    stars: int,
    genresUsed: int,
    moviesWithGenres: int,
    moviesWithCast: int,
    belowRequirement: bool)

  /**
   * verifyData: COUNT(*) of movies and stars, COUNT(DISTINCT genre_id) and
   * COUNT(DISTINCT movie_id) of genres_in_movies, COUNT(DISTINCT movie_id) of
   * stars_in_movies; the warning is raised iff fewer than MinMovies movies are stored.
   */
  function VerifyData(db: Db): (r: Report)
    ensures r.belowRequirement <==> |db.movies| < MinMovies
    ensures r.movies == |db.movies.Keys| && r.stars == |db.stars.Keys|
    ensures r.genresUsed == |GenreIdsLinked(db)|
    ensures r.moviesWithGenres == |MoviesWithGenres(db)| && r.moviesWithCast == |MoviesWithCast(db)|
  {
    Report(|db.movies|, |db.stars|, |GenreIdsLinked(db)|, |MoviesWithGenres(db)|, |MoviesWithCast(db)|,
           |db.movies| < MinMovies)
  }

  /** The genre ids genres_in_movies uses: a value is in it iff some link carries it. */
  function GenreIdsLinked(db: Db): (ids: set<int>)
    ensures forall g :: g in ids <==> exists l :: l in db.genreLinks && l.genreId == g
  {
    set l | l in db.genreLinks :: l.genreId
  }

  /** The movies genres_in_movies links to a genre. */
  function MoviesWithGenres(db: Db): (ids: set<string>)
    ensures forall m :: m in ids <==> exists l :: l in db.genreLinks && l.movieId == m
  {
    set l | l in db.genreLinks :: l.movieId
  }

  /** The movies stars_in_movies links to a star. */
  function MoviesWithCast(db: Db): (ids: set<string>)
    ensures forall m :: m in ids <==> exists l :: l in db.castLinks && l.movieId == m
  {
    set l | l in db.castLinks :: l.movieId
  }

  // ---------------------------------------------------------------------------
  // a run, as values
  // ---------------------------------------------------------------------------

  datatype Status = Running | Exited(code: int)

  /**
   * Where a run stands: whether it has exited, the stages it completed in order
   * (a skipped stage does not appear), the verification report once there is
   * one, and the store and commit log.
   */
  datatype Progress = Progress(status: Status, trace: seq<Stage>, report: Option<Report>, db: Db, log: seq<Commit>)

  /**
   * One stage of main. A run that has exited stays as it is. An optional file that
   * is absent skips its stage; an absent movies file exits with 1. A stage that
   * throws (`fault`) exits with 1 before it changes the store.
   */
  function StageStep(p: Progress, stage: Stage, files: map<string, seq<string>>, fault: Option<Stage>): Progress
  {
    if !p.status.Running? then p
    else if stage == LoadActors && ActorsPath !in files then p
    else if stage == LoadCasts && CastsPath !in files then p
    else if stage == LoadMovies && MoviesPath !in files then p.(status := Exited(1))
    else if fault == Some(stage) then p.(status := Exited(1))
    else
      var p' := p.(trace := p.trace + [stage]);
      match stage
      case Connect => p'
      case OptimizeForLoading => p'.(db := DropIndexes(p.db))
      case LoadActors =>
        var st := ActorParse(NewActorLoad(p.db, p.log), files[ActorsPath]);
        p'.(db := st.db, log := st.log)
      case LoadMovies =>
        var st := MovieParse(NewMovieLoad(p.db, p.log), files[MoviesPath]);
        p'.(db := st.db, log := st.log)
      case LoadCasts =>
        var st := CastParse(NewCastLoad(p.db, p.log), files[CastsPath]);
        p'.(db := st.db, log := st.log)
      case Restore => p'.(db := RestoreIndexes(p.db))
      case Verify => p'.(report := Some(VerifyData(p.db)))
  }

  /** The stages of main, in order. */
  const Pipeline: seq<Stage> := [Connect, OptimizeForLoading, LoadActors, LoadMovies, LoadCasts, Restore, Verify]

  /** The remaining stages, one after the other. */
  function RunStages(p: Progress, stages: seq<Stage>, files: map<string, seq<string>>, fault: Option<Stage>): Progress
    decreases |stages|
  {
    if stages == [] then p else RunStages(StageStep(p, stages[0], files, fault), stages[1..], files, fault)
  }

  /** A run that got through every stage returns normally from main: exit code 0. */
  function Conclude(p: Progress): Progress
  {
    if p.status.Running? then p.(status := Exited(0)) else p
  }

  function Start(initial: Db): Progress
  {
    Progress(Running, [], None, initial, [])
  }

  /** main: the credential check, then the pipeline. */
  function RunSpec(env: map<string, string>, files: map<string, seq<string>>, initial: Db, fault: Option<Stage>): Progress
  {
    if !HasCredentials(env) then Start(initial).(status := Exited(1))
    else Conclude(RunStages(Start(initial), Pipeline, files, fault))
  }

  /** Once a run has exited, no later stage changes anything. */
  lemma {:induction false} ExitedStays(p: Progress, stages: seq<Stage>, files: map<string, seq<string>>, fault: Option<Stage>)
    requires !p.status.Running?
    ensures RunStages(p, stages, files, fault) == p
    decreases |stages|
  {
    if stages != [] {
      ExitedStays(p, stages[1..], files, fault);
    }
  }

  // ---------------------------------------------------------------------------
  // main
  // ---------------------------------------------------------------------------

  /** Stage 1: an ActorTSVParser on the connection parses the actors file. */
  method ActorStage(conn: Connection, lines: seq<string>)
    modifies conn
    ensures var st := ActorParse(NewActorLoad(old(conn.db), old(conn.log)), lines);
      conn.db == st.db && conn.log == st.log
  {
    var parser := new ActorTSVParser(conn);
    parser.Parse(lines);
  }

  /** Stage 2: a MovieTSVParser on the connection parses the movies file. */
  method MovieStage(conn: Connection, lines: seq<string>)
    modifies conn
    ensures var st := MovieParse(NewMovieLoad(old(conn.db), old(conn.log)), lines);
      conn.db == st.db && conn.log == st.log
  {
    var parser := new MovieTSVParser(conn);
    parser.Parse(lines);
  }

  /** Stage 3: a CastTSVParser, built now, preloads the ids the store holds and parses the cast file. */
  method CastStage(conn: Connection, lines: seq<string>)
    modifies conn
    ensures var st := CastParse(NewCastLoad(old(conn.db), old(conn.log)), lines);
      conn.db == st.db && conn.log == st.log
  {
    var parser := new CastTSVParser(conn);
    parser.Parse(lines);
  }

  /** The three file stages: actors, then movies, then cast. */
  const FileStages: seq<Stage> := [LoadActors, LoadMovies, LoadCasts]

  /** The closing stages: restoreIndexes, then verifyData. */
  const ClosingStages: seq<Stage> := [Restore, Verify]

  lemma {:induction false} RunStagesAppend(p: Progress, a: seq<Stage>, b: seq<Stage>, files: map<string, seq<string>>, fault: Option<Stage>)
    ensures RunStages(p, a + b, files, fault) == RunStages(RunStages(p, a, files, fault), b, files, fault)
    decreases |a|
  {
    if a == [] {
      assert a + b == b;
    } else {
      assert (a + b)[1..] == a[1..] + b;
      RunStagesAppend(StageStep(p, a[0], files, fault), a[1..], b, files, fault);
    }
  }

  /** The state of a run that is still going, as the connection and main's locals hold it. */
  function Live(trace: seq<Stage>, report: Option<Report>, db: Db, log: seq<Commit>): Progress
  {
    Progress(Running, trace, report, db, log)
  }

  /** Stages 1 to 3 of main, each skipped or exiting as its file and `fault` decide. */
  method LoadFiles(conn: Connection, files: map<string, seq<string>>, fault: Option<Stage>, trace0: seq<Stage>)
    returns (running: bool, trace: seq<Stage>)
    modifies conn
    ensures RunStages(Live(trace0, None, old(conn.db), old(conn.log)), FileStages, files, fault)
         == Progress(if running then Running else Exited(1), trace, None, conn.db, conn.log)
  {
    ghost var p := Live(trace0, None, conn.db, conn.log);
    trace := trace0;
    ghost var p1 := StageStep(p, LoadActors, files, fault);
    if ActorsPath in files {
      if fault == Some(LoadActors) {
        ExitedStays(p1, FileStages[1..], files, fault);
        return false, trace;
      }
      ActorStage(conn, files[ActorsPath]);
      trace := trace + [LoadActors];
    }
    assert p1 == Live(trace, None, conn.db, conn.log);
    ghost var p2 := StageStep(p1, LoadMovies, files, fault);
    if MoviesPath !in files || fault == Some(LoadMovies) {
      ExitedStays(p2, FileStages[2..], files, fault);
      return false, trace;
    }
    MovieStage(conn, files[MoviesPath]);
    trace := trace + [LoadMovies];
    assert p2 == Live(trace, None, conn.db, conn.log);
    ghost var p3 := StageStep(p2, LoadCasts, files, fault);
    if CastsPath in files {
      if fault == Some(LoadCasts) {
        return false, trace;
      }
      CastStage(conn, files[CastsPath]);
      trace := trace + [LoadCasts];
    }
    assert p3 == Live(trace, None, conn.db, conn.log);
    running := true;
  }

  /** restoreIndexes, then verifyData. */
  method RestoreAndVerify(conn: Connection, fault: Option<Stage>, trace0: seq<Stage>)
    returns (running: bool, trace: seq<Stage>, report: Option<Report>)
    modifies conn
    ensures forall files: map<string, seq<string>> ::
      RunStages(Live(trace0, None, old(conn.db), old(conn.log)), ClosingStages, files, fault)
        == Progress(if running then Running else Exited(1), trace, report, conn.db, conn.log)
  {
    trace, report := trace0, None;
    if fault == Some(Restore) {
      return false, trace, report;
    }
    conn.RestoreBulkLoadIndexes();
    trace := trace + [Restore];
    if fault == Some(Verify) {
      return false, trace, report;
    }
    report := Some(VerifyData(conn.db));
    trace := trace + [Verify];
    running := true;
  }

  /**
   * main, with the environment, the data directory and the store's contents as
   * parameters, `fault` naming the stage (if any) whose JDBC call throws, and the
   * exit code returned instead of passed to System.exit.
   */
  method Run(env: map<string, string>, files: map<string, seq<string>>, initial: Db, fault: Option<Stage>)
    returns (exitCode: int, trace: seq<Stage>, report: Option<Report>, db: Db, ghost log: seq<Commit>)
    ensures var r := RunSpec(env, files, initial, fault);
      r.status == Exited(exitCode) && r.trace == trace && r.report == report && r.db == db
    ensures RunSpec(env, files, initial, fault).log == log
  {
    if !("DB_URL" in env && "DB_USER" in env && "DB_PASSWORD" in env) {
      return 1, [], None, initial, [];
    }
    PipelineSplit(env, files, initial, fault);
    exitCode, trace, report, db, log := Connected(files, initial, fault);
  }

  /** The body of main's try-with-resources block, from getConnection to verifyData. */
  method Connected(files: map<string, seq<string>>, initial: Db, fault: Option<Stage>)
    returns (exitCode: int, trace: seq<Stage>, report: Option<Report>, db: Db, ghost log: seq<Commit>)
    ensures var r := Conclude(RunStages(RunStages(RunStages(Start(initial), [Connect, OptimizeForLoading], files, fault),
                                                  FileStages, files, fault), ClosingStages, files, fault));
      r.status == Exited(exitCode) && r.trace == trace && r.report == report && r.db == db
    ensures Conclude(RunStages(RunStages(RunStages(Start(initial), [Connect, OptimizeForLoading], files, fault),
                                         FileStages, files, fault), ClosingStages, files, fault)).log == log
  {
    trace, report, db, log := [], None, initial, [];
    ghost var p2 := RunStages(Start(initial), [Connect, OptimizeForLoading], files, fault);
    ghost var p3 := RunStages(p2, FileStages, files, fault);
    if fault == Some(Connect) {
      OpeningFault(initial, files, fault);
      return 1, trace, report, db, log;
    }
    var conn := new Connection(initial);
    trace := [Connect];
    if fault == Some(OptimizeForLoading) {
      OpeningFault(initial, files, fault);
      return 1, trace, report, conn.db, conn.log;
    }
    conn.DropBulkLoadIndexes();
    trace := trace + [OptimizeForLoading];
    OpeningStages(initial, files, fault);
    assert p2 == Live(trace, None, conn.db, conn.log);

    var running;
    running, trace := LoadFiles(conn, files, fault, trace);
    if !running {
      ExitedStays(p3, ClosingStages, files, fault);
      return 1, trace, report, conn.db, conn.log;
    }
    assert p3 == Live(trace, None, conn.db, conn.log);
    running, trace, report := RestoreAndVerify(conn, fault, trace);
    return if running then 0 else 1, trace, report, conn.db, conn.log;
  }

  /** With the credentials present, main runs the opening stages, the file stages and the closing stages in turn. */
  lemma PipelineSplit(env: map<string, string>, files: map<string, seq<string>>, initial: Db, fault: Option<Stage>)
    requires HasCredentials(env)
    ensures RunSpec(env, files, initial, fault)
         == Conclude(RunStages(RunStages(RunStages(Start(initial), [Connect, OptimizeForLoading], files, fault),
                                         FileStages, files, fault), ClosingStages, files, fault))
  {
    assert Pipeline == [Connect, OptimizeForLoading] + FileStages + ClosingStages;
    RunStagesAppend(Start(initial), [Connect, OptimizeForLoading] + FileStages, ClosingStages, files, fault);
    RunStagesAppend(Start(initial), [Connect, OptimizeForLoading], FileStages, files, fault);
  }

  /** Connecting and dropping the indexes, when neither throws. */
  lemma OpeningStages(initial: Db, files: map<string, seq<string>>, fault: Option<Stage>)
    requires fault != Some(Connect) && fault != Some(OptimizeForLoading)
    ensures RunStages(Start(initial), [Connect, OptimizeForLoading], files, fault)
         == Live([Connect, OptimizeForLoading], None, DropIndexes(initial), [])
  {
    var p1 := StageStep(Start(initial), Connect, files, fault);
    assert [Connect, OptimizeForLoading][1..] == [OptimizeForLoading];
    assert RunStages(Start(initial), [Connect, OptimizeForLoading], files, fault)
        == RunStages(p1, [OptimizeForLoading], files, fault);
  }

  /** A throw while connecting or dropping the indexes ends the run with 1 before the store changes. */
  lemma OpeningFault(initial: Db, files: map<string, seq<string>>, fault: Option<Stage>)
    requires fault == Some(Connect) || fault == Some(OptimizeForLoading)
    ensures var p2 := RunStages(Start(initial), [Connect, OptimizeForLoading], files, fault);
      && p2 == Progress(Exited(1), if fault == Some(Connect) then [] else [Connect], None, initial, [])
      && RunStages(RunStages(p2, FileStages, files, fault), ClosingStages, files, fault) == p2
  {
    var p1 := StageStep(Start(initial), Connect, files, fault);
    assert [Connect, OptimizeForLoading][1..] == [OptimizeForLoading];
    var p2 := RunStages(p1, [OptimizeForLoading], files, fault);
    assert RunStages(Start(initial), [Connect, OptimizeForLoading], files, fault) == p2;
    ExitedStays(p2, FileStages, files, fault);
    ExitedStays(p2, ClosingStages, files, fault);
  }

  // ---------------------------------------------------------------------------
  // properties of a run
  // ---------------------------------------------------------------------------

  /** Referential integrity of stars_in_movies: every link names a stored star and a stored movie. */
  ghost predicate CastLinksSound(db: Db)
  {
    forall l :: l in db.castLinks ==> l.starId in db.stars && l.movieId in db.movies
  }

  /** The foreign keys of genres_in_movies and stars_in_movies hold. */
  ghost predicate StoreSound(db: Db)
  {
    GenreLinksSound(db) && CastLinksSound(db)
  }

  /**
   * On a store whose foreign keys hold, the report's distinct counts are bounded by
   * the tables they refer to: movies with genres or with cast are stored movies,
   * and the genres used are stored genre ids.
   */
  lemma ReportBounds(db: Db)
    requires StoreSound(db)
    ensures var r := VerifyData(db);
      r.moviesWithGenres <= r.movies && r.moviesWithCast <= r.movies && r.genresUsed <= |db.genres.Values|
  {
    assert MoviesWithGenres(db) <= db.movies.Keys;
    assert MoviesWithCast(db) <= db.movies.Keys;
    assert GenreIdsLinked(db) <= db.genres.Values;
    SubsetCard(MoviesWithGenres(db), db.movies.Keys);
    SubsetCard(MoviesWithCast(db), db.movies.Keys);
    SubsetCard(GenreIdsLinked(db), db.genres.Values);
  }

  lemma {:induction false} SubsetCard<T>(a: set<T>, b: set<T>)
    requires a <= b
    ensures |a| <= |b|
    decreases |b|
  {
    if a != {} {
      var x :| x in a;
      SubsetCard(a - {x}, b - {x});
    }
  }

  /** Without DB_URL, DB_USER or DB_PASSWORD main exits with 1 before connecting: nothing is done. */
  lemma MissingCredentials(env: map<string, string>, files: map<string, seq<string>>, initial: Db, fault: Option<Stage>)
    requires !HasCredentials(env)
    ensures var r := RunSpec(env, files, initial, fault);
      r.status == Exited(1) && r.trace == [] && r.report == None && r.db == initial && r.log == []
  {
  }

  /** Commits that hold no movie batch add nothing to the movie batches of a log. */
  lemma {:induction false} NoMovieCommits(a: seq<Commit>, b: seq<Commit>)
    requires forall i :: 0 <= i < |b| ==> !b[i].MovieCommit?
    ensures MovieBatches(a + b) == MovieBatches(a)
    decreases |b|
  {
    if b != [] {
      var c := a + b;
      assert c[..|c| - 1] == a + b[..|b| - 1];
      assert c[|c| - 1] == b[|b| - 1];
      NoMovieCommits(a, b[..|b| - 1]);
    } else {
      assert a + b == a;
    }
  }

  /** Commits that hold no genre links keep every genre-link commit right after its movie commit. */
  lemma NoGenreLinkCommits(a: seq<Commit>, b: seq<Commit>)
    requires LinksFollowMovies(a)
    requires forall i :: 0 <= i < |b| ==> !b[i].GenreLinkCommit?
    ensures LinksFollowMovies(a + b)
  {
    var c := a + b;
    forall i | 0 <= i < |c|
      ensures c[i].GenreLinkCommit? ==> 0 < i && c[i - 1].MovieCommit?
    {
      if i < |a| {
        assert c[i] == a[i];
        if c[i].GenreLinkCommit? {
          assert c[i - 1] == a[i - 1];
        }
      } else {
        assert c[i] == b[i - |a|];
      }
    }
  }

  /** The actors stage with no fault: skipped without its file, otherwise the stars are upserted and committed in batches. */
  lemma ActorStageEffect(p: Progress, files: map<string, seq<string>>, fault: Option<Stage>)
    requires p.status.Running? && fault != Some(LoadActors)
    ensures var q := StageStep(p, LoadActors, files, fault);
      if ActorsPath in files then
        var rows := AcceptedStars(DataLines(files[ActorsPath]));
        && q == p.(trace := p.trace + [LoadActors], db := p.db.(stars := UpsertStars(p.db.stars, rows)),
                   log := p.log + StarCommits(Chunks(rows)))
      else q == p
  {
    if ActorsPath in files {
      ActorParseEffect(p.db, p.log, files[ActorsPath]);
    }
  }

  /**
   * The movies stage with no fault, on a store whose foreign keys hold and a log
   * with movies before genres: movies are upserted, the genres table gains the
   * genre names of the kept lines, and genres_in_movies their links.
   */
  lemma MovieStageEffect(p: Progress, files: map<string, seq<string>>)
    requires p.status.Running? && MoviesPath in files
    requires LinksFollowMovies(p.log) && StoreSound(p.db)
    ensures var q := StageStep(p, LoadMovies, files, None);
      var rows := AcceptedMovies(DataLines(files[MoviesPath]));
      var pairs := AcceptedGenrePairs(DataLines(files[MoviesPath]));
      && q.status.Running? && q.trace == p.trace + [LoadMovies] && q.report == p.report
      && q.db.movies == UpsertMovies(p.db.movies, rows)
      && GenresGrow(p.db.genres, q.db.genres)
      && (forall n :: n in q.db.genres <==> n in p.db.genres || n in AcceptedGenreNames(DataLines(files[MoviesPath])))
      && NamesStored(pairs, q.db.genres)
      && q.db.genreLinks == InsertLinks(p.db.genreLinks, ResolveLinks(q.db.genres, pairs))
      && q.db.stars == p.db.stars && q.db.castLinks == p.db.castLinks && q.db.indexes == p.db.indexes
      && MovieBatches(q.log) == MovieBatches(p.log) + Chunks(rows)
      && LinksFollowMovies(q.log)
      && StoreSound(q.db)
  {
    var rows := AcceptedMovies(DataLines(files[MoviesPath]));
    MovieParseEffect(p.db, p.log, files[MoviesPath]);
    UpsertMoviesKeys(p.db.movies, rows);
  }

  /** The cast stage with no fault: skipped without its file, otherwise the links to known ids are inserted. */
  lemma CastStageEffect(p: Progress, files: map<string, seq<string>>)
    requires p.status.Running?
    ensures var q := StageStep(p, LoadCasts, files, None);
      if CastsPath in files then
        var links := AcceptedLinks(p.db.movies.Keys, p.db.stars.Keys, DataLines(files[CastsPath]));
        && q == p.(trace := p.trace + [LoadCasts], db := p.db.(castLinks := InsertLinks(p.db.castLinks, links)),
                   log := p.log + CastCommits(Chunks(links)))
        && (forall i :: 0 <= i < |links| ==> links[i].starId in p.db.stars && links[i].movieId in p.db.movies)
      else q == p
  {
    if CastsPath in files {
      CastParseEffect(p.db, p.log, files[CastsPath]);
    }
  }

  /** The actors stage keeps both foreign keys and the order of movie and genre-link commits. */
  lemma ActorStageSound(p: Progress, files: map<string, seq<string>>)
    requires p.status.Running? && LinksFollowMovies(p.log) && StoreSound(p.db)
    ensures var q := StageStep(p, LoadActors, files, None);
      && q.db.movies == p.db.movies && p.db.stars.Keys <= q.db.stars.Keys
      && MovieBatches(q.log) == MovieBatches(p.log) && LinksFollowMovies(q.log) && StoreSound(q.db)
  {
    ActorStageEffect(p, files, None);
    if ActorsPath in files {
      var rows := AcceptedStars(DataLines(files[ActorsPath]));
      UpsertStarsKeys(p.db.stars, rows);
      NoMovieCommits(p.log, StarCommits(Chunks(rows)));
      NoGenreLinkCommits(p.log, StarCommits(Chunks(rows)));
    }
  }

  /** The cast stage keeps both foreign keys and the order of movie and genre-link commits. */
  lemma CastStageSound(p: Progress, files: map<string, seq<string>>)
    requires p.status.Running? && LinksFollowMovies(p.log) && StoreSound(p.db)
    ensures var q := StageStep(p, LoadCasts, files, None);
      && MovieBatches(q.log) == MovieBatches(p.log) && LinksFollowMovies(q.log) && StoreSound(q.db)
  {
    CastStageEffect(p, files);
    if CastsPath in files {
      var links := AcceptedLinks(p.db.movies.Keys, p.db.stars.Keys, DataLines(files[CastsPath]));
      NoMovieCommits(p.log, CastCommits(Chunks(links)));
      NoGenreLinkCommits(p.log, CastCommits(Chunks(links)));
    }
  }

  /** The file stages are the actors, movies and cast steps, one after the other. */
  lemma FileStagesUnroll(p: Progress, files: map<string, seq<string>>, fault: Option<Stage>)
    ensures RunStages(p, FileStages, files, fault)
         == StageStep(StageStep(StageStep(p, LoadActors, files, fault), LoadMovies, files, fault), LoadCasts, files, fault)
  {
    assert FileStages[1..] == [LoadMovies, LoadCasts] && FileStages[1..][1..] == [LoadCasts];
  }

  /**
   * The three file stages with no fault and the movies file present: stars are
   * upserted when the actors file exists; movies always, with their genre names
   * and genre links; and cast links against the ids the store holds after both,
   * when the cast file exists.
   */
  lemma FileStagesEffect(p: Progress, files: map<string, seq<string>>)
    requires p.status.Running? && MoviesPath in files
    requires LinksFollowMovies(p.log) && StoreSound(p.db)
    ensures var q := RunStages(p, FileStages, files, None);
      && q.status.Running? && q.report == p.report
      && q.trace == p.trace + (if ActorsPath in files then [LoadActors] else []) + [LoadMovies]
                            + (if CastsPath in files then [LoadCasts] else [])
      && q.db.indexes == p.db.indexes
      && q.db.movies == UpsertMovies(p.db.movies, AcceptedMovies(DataLines(files[MoviesPath])))
      && q.db.stars == (if ActorsPath in files then UpsertStars(p.db.stars, AcceptedStars(DataLines(files[ActorsPath])))
                        else p.db.stars)
      && q.db.castLinks == (if CastsPath in files
                            then InsertLinks(p.db.castLinks, AcceptedLinks(q.db.movies.Keys, q.db.stars.Keys, DataLines(files[CastsPath])))
                            else p.db.castLinks)
      && GenresGrow(p.db.genres, q.db.genres)
      && (forall n :: n in q.db.genres <==> n in p.db.genres || n in AcceptedGenreNames(DataLines(files[MoviesPath])))
      && NamesStored(AcceptedGenrePairs(DataLines(files[MoviesPath])), q.db.genres)
      && q.db.genreLinks == InsertLinks(p.db.genreLinks, ResolveLinks(q.db.genres, AcceptedGenrePairs(DataLines(files[MoviesPath]))))
  {
    var q1 := StageStep(p, LoadActors, files, None);
    ActorStageEffect(p, files, None);
    ActorStageSound(p, files);
    var q2 := StageStep(q1, LoadMovies, files, None);
    MovieStageEffect(q1, files);
    var q3 := StageStep(q2, LoadCasts, files, None);
    CastStageEffect(q2, files);
    assert q1.trace == p.trace + (if ActorsPath in files then [LoadActors] else []);
    assert q3.db.movies == q2.db.movies && q3.db.stars == q2.db.stars;
    assert q3.db.genres == q2.db.genres && q3.db.genreLinks == q2.db.genreLinks;
    assert q1.db.genres == p.db.genres && q1.db.genreLinks == p.db.genreLinks;
    FileStagesUnroll(p, files, None);
  }

  /** The file stages commit the movies in batches of 1000, after their genre links only, and keep both foreign keys. */
  lemma FileStagesSound(p: Progress, files: map<string, seq<string>>)
    requires p.status.Running? && MoviesPath in files
    requires LinksFollowMovies(p.log) && StoreSound(p.db)
    ensures var q := RunStages(p, FileStages, files, None);
      && MovieBatches(q.log) == MovieBatches(p.log) + Chunks(AcceptedMovies(DataLines(files[MoviesPath])))
      && LinksFollowMovies(q.log) && StoreSound(q.db)
  {
    var q1 := StageStep(p, LoadActors, files, None);
    ActorStageSound(p, files);
    var q2 := StageStep(q1, LoadMovies, files, None);
    MovieStageEffect(q1, files);
    CastStageSound(q2, files);
    FileStagesUnroll(p, files, None);
  }

  /** Restoring the indexes, then the verification report on the restored store. */
  lemma ClosingStagesEffect(p: Progress, files: map<string, seq<string>>)
    requires p.status.Running?
    ensures RunStages(p, ClosingStages, files, None)
         == p.(trace := p.trace + [Restore, Verify], db := RestoreIndexes(p.db), report := Some(VerifyData(RestoreIndexes(p.db))))
  {
    assert ClosingStages[1..] == [Verify];
  }

  /**
   * A run with the credentials and the movies file and no failure exits with 0
   * after every stage whose file exists, in main's order; it reports on the final
   * store, recreates the dropped indexes, and leaves movies, stars, genres, genre
   * links and cast links as the three files make them, the cast file being read
   * against the ids the actors and movies stages left in the store.
   */
  lemma SuccessfulRun(env: map<string, string>, files: map<string, seq<string>>, initial: Db)
    requires HasCredentials(env) && MoviesPath in files && StoreSound(initial)
    ensures var r := RunSpec(env, files, initial, None);
      && r.status == Exited(0)
      && r.trace == [Connect, OptimizeForLoading] + (if ActorsPath in files then [LoadActors] else []) + [LoadMovies]
                    + (if CastsPath in files then [LoadCasts] else []) + [Restore, Verify]
      && r.report == Some(VerifyData(r.db))
      && r.db.indexes == initial.indexes + BulkLoadIndexes
      && r.db.movies == UpsertMovies(initial.movies, AcceptedMovies(DataLines(files[MoviesPath])))
      && r.db.stars == (if ActorsPath in files then UpsertStars(initial.stars, AcceptedStars(DataLines(files[ActorsPath])))
                        else initial.stars)
      && r.db.castLinks == (if CastsPath in files
                            then InsertLinks(initial.castLinks, AcceptedLinks(r.db.movies.Keys, r.db.stars.Keys, DataLines(files[CastsPath])))
                            else initial.castLinks)
      && GenresGrow(initial.genres, r.db.genres)
      && (forall n :: n in r.db.genres <==> n in initial.genres || n in AcceptedGenreNames(DataLines(files[MoviesPath])))
      && NamesStored(AcceptedGenrePairs(DataLines(files[MoviesPath])), r.db.genres)
      && r.db.genreLinks == InsertLinks(initial.genreLinks, ResolveLinks(r.db.genres, AcceptedGenrePairs(DataLines(files[MoviesPath]))))
  {
    PipelineSplit(env, files, initial, None);
    OpeningStages(initial, files, None);
    var p2 := Live([Connect, OptimizeForLoading], None, DropIndexes(initial), []);
    FileStagesEffect(p2, files);
    var p3 := RunStages(p2, FileStages, files, None);
    ClosingStagesEffect(p3, files);
    RestoreAfterDrop(initial);
  }

  /**
   * A successful run from a store whose foreign keys hold keeps them, and its
   * commit log sends the movies in batches of 1000, each batch of genre links
   * right after a movie batch.
   */
  lemma SuccessfulRunSound(env: map<string, string>, files: map<string, seq<string>>, initial: Db)
    requires HasCredentials(env) && MoviesPath in files && StoreSound(initial)
    ensures var r := RunSpec(env, files, initial, None);
      && MovieBatches(r.log) == Chunks(AcceptedMovies(DataLines(files[MoviesPath])))
      && LinksFollowMovies(r.log)
      && StoreSound(r.db)
  {
    PipelineSplit(env, files, initial, None);
    OpeningStages(initial, files, None);
    var p2 := Live([Connect, OptimizeForLoading], None, DropIndexes(initial), []);
    IndexesKeepSound(initial, DropIndexes(initial).indexes);
    assert MovieBatches(p2.log) == [] && LinksFollowMovies(p2.log);
    FileStagesSound(p2, files);
    var p3 := RunStages(p2, FileStages, files, None);
    FileStagesEffect(p2, files);
    ClosingStagesEffect(p3, files);
    IndexesKeepSound(p3.db, RestoreIndexes(p3.db).indexes);
    var r := RunSpec(env, files, initial, None);
    assert r.log == p3.log && r.db == RestoreIndexes(p3.db);
  }

  /** Dropping or creating indexes does not touch the foreign keys. */
  lemma IndexesKeepSound(db: Db, indexes: set<Index>)
    requires StoreSound(db)
    ensures StoreSound(db.(indexes := indexes))
  {
  }

  /**
   * Without the movies file main exits with 1 right after the actors stage: no
   * cast is loaded, the indexes stay dropped, nothing is reported, and the stars
   * already committed stay.
   */
  lemma MissingMovies(env: map<string, string>, files: map<string, seq<string>>, initial: Db, fault: Option<Stage>)
    requires HasCredentials(env) && MoviesPath !in files
    requires fault == None || StageIndex(fault.value) > StageIndex(LoadActors)
    ensures var r := RunSpec(env, files, initial, fault);
      && r.status == Exited(1)
      && r.trace == [Connect, OptimizeForLoading] + (if ActorsPath in files then [LoadActors] else [])
      && r.report == None
      && r.db.indexes == initial.indexes - BulkLoadIndexes
      && r.db.movies == initial.movies && r.db.castLinks == initial.castLinks
      && r.db.stars == (if ActorsPath in files then UpsertStars(initial.stars, AcceptedStars(DataLines(files[ActorsPath])))
                        else initial.stars)
  {
    PipelineSplit(env, files, initial, fault);
    OpeningStages(initial, files, fault);
    var p2 := Live([Connect, OptimizeForLoading], None, DropIndexes(initial), []);
    var q1 := StageStep(p2, LoadActors, files, fault);
    ActorStageEffect(p2, files, fault);
    var q2 := StageStep(q1, LoadMovies, files, fault);
    ExitedStays(q2, [LoadCasts], files, fault);
    FileStagesUnroll(p2, files, fault);
    ExitedStays(q2, ClosingStages, files, fault);
  }

  /** Stages strictly in main's order: each at most once, none after a later one. */
  ghost predicate InOrder(stages: seq<Stage>)
  {
    forall i, j :: 0 <= i < j < |stages| ==> StageIndex(stages[i]) < StageIndex(stages[j])
  }

  /** Every stage of `done` comes before every stage of `todo`. */
  ghost predicate AllBefore(done: seq<Stage>, todo: seq<Stage>)
  {
    forall i, j :: 0 <= i < |done| && 0 <= j < |todo| ==> StageIndex(done[i]) < StageIndex(todo[j])
  }

  /** The pipeline lists each stage at its own index. */
  lemma PipelineIndexes()
    ensures |Pipeline| == 7
    ensures forall i :: 0 <= i < |Pipeline| ==> StageIndex(Pipeline[i]) == i
    ensures InOrder(Pipeline)
  {
  }

  /**
   * Running stages in order extends the trace with some of them, in order; the
   * report is left alone unless Verify is among them.
   */
  lemma {:induction false} RunStagesInOrder(p: Progress, stages: seq<Stage>, files: map<string, seq<string>>, fault: Option<Stage>)
    requires InOrder(p.trace) && InOrder(stages) && AllBefore(p.trace, stages)
    ensures var r := RunStages(p, stages, files, fault);
      && InOrder(r.trace) && p.trace <= r.trace
      && (forall j :: |p.trace| <= j < |r.trace| ==> r.trace[j] in stages)
      && (Verify !in stages ==> r.report == p.report)
    decreases |stages|
  {
    if stages != [] {
      var q := StageStep(p, stages[0], files, fault);
      assert q.trace == p.trace || q.trace == p.trace + [stages[0]];
      assert stages[0] != Verify ==> q.report == p.report;
      assert InOrder(q.trace) by {
        forall i, j | 0 <= i < j < |q.trace|
          ensures StageIndex(q.trace[i]) < StageIndex(q.trace[j])
        {
          if j >= |p.trace| {
            assert q.trace[j] == stages[0];
            assert q.trace[i] == p.trace[i];
          }
        }
      }
      assert AllBefore(q.trace, stages[1..]) by {
        forall i, j | 0 <= i < |q.trace| && 0 <= j < |stages[1..]|
          ensures StageIndex(q.trace[i]) < StageIndex(stages[1..][j])
        {
          assert stages[1..][j] == stages[j + 1];
          if i >= |p.trace| {
            assert q.trace[i] == stages[0];
          }
        }
      }
      RunStagesInOrder(q, stages[1..], files, fault);
      var r := RunStages(q, stages[1..], files, fault);
      forall j | |p.trace| <= j < |r.trace|
        ensures r.trace[j] in stages
      {
        if j >= |q.trace| {
          assert r.trace[j] in stages[1..];
        } else {
          assert r.trace[j] == q.trace[j] == stages[0];
        }
      }
    }
  }

  /** Whatever the environment, files and failure, the stages a run completes follow main's order, each at most once. */
  lemma TraceInOrder(env: map<string, string>, files: map<string, seq<string>>, initial: Db, fault: Option<Stage>)
    ensures InOrder(RunSpec(env, files, initial, fault).trace)
  {
    if HasCredentials(env) {
      PipelineIndexes();
      RunStagesInOrder(Start(initial), Pipeline, files, fault);
    }
  }

  /** Running a list of stages is running those before position k, the stage at k, then the rest. */
  lemma RunStagesAt(p: Progress, stages: seq<Stage>, k: nat, files: map<string, seq<string>>, fault: Option<Stage>)
    requires k < |stages|
    ensures RunStages(p, stages, files, fault)
         == RunStages(StageStep(RunStages(p, stages[..k], files, fault), stages[k], files, fault), stages[k + 1..], files, fault)
  {
    assert stages == stages[..k] + [stages[k]] + stages[k + 1..];
    RunStagesAppend(p, stages[..k] + [stages[k]], stages[k + 1..], files, fault);
    RunStagesAppend(p, stages[..k], [stages[k]], files, fault);
  }

  /** A stage that throws, and whose file (if it needs one) exists, stops the run where it stands. */
  lemma ThrowingStage(q: Progress, s: Stage, files: map<string, seq<string>>)
    requires s == LoadActors ==> ActorsPath in files
    requires s == LoadCasts ==> CastsPath in files
    ensures var q2 := StageStep(q, s, files, Some(s));
      && q2.status == (if q.status.Running? then Exited(1) else q.status)
      && q2.trace == q.trace && q2.report == q.report
  {
  }

  /**
   * A stage that throws (and is not skipped for a missing file) ends the run with
   * exit code 1 and no report; only stages before it were completed.
   */
  lemma FaultIsFatal(env: map<string, string>, files: map<string, seq<string>>, initial: Db, s: Stage)
    requires HasCredentials(env)
    requires s == LoadActors ==> ActorsPath in files
    requires s == LoadCasts ==> CastsPath in files
    ensures var r := RunSpec(env, files, initial, Some(s));
      && r.status == Exited(1) && r.report == None
      && (forall j :: 0 <= j < |r.trace| ==> StageIndex(r.trace[j]) < StageIndex(s))
  {
    var k := StageIndex(s);
    PipelinePrefix(s);
    ThrowStops(Start(initial), Pipeline, k, files);
    var r := RunStages(Start(initial), Pipeline, files, Some(s));
    RunSpecRuns(env, files, initial, Some(s));
    StagesBefore(r.trace, Pipeline[..k], k);
  }

  /** With the credentials present, main is the pipeline followed by the normal return. */
  lemma RunSpecRuns(env: map<string, string>, files: map<string, seq<string>>, initial: Db, fault: Option<Stage>)
    requires HasCredentials(env)
    ensures RunSpec(env, files, initial, fault) == Conclude(RunStages(Start(initial), Pipeline, files, fault))
  {
  }

  /** Every exit a stage takes has code 1. */
  lemma {:induction false} ExitCodeIsOne(p: Progress, stages: seq<Stage>, files: map<string, seq<string>>, fault: Option<Stage>)
    requires p.status.Running? || p.status == Exited(1)
    ensures var r := RunStages(p, stages, files, fault);
      r.status.Running? || r.status == Exited(1)
    decreases |stages|
  {
    if stages != [] {
      ExitCodeIsOne(StageStep(p, stages[0], files, fault), stages[1..], files, fault);
    }
  }

  /**
   * When stage k of a list throws (and is not skipped), the run ends there with
   * the stages before k at most added to the trace and the report untouched
   * unless Verify came earlier.
   */
  lemma ThrowStops(p: Progress, stages: seq<Stage>, k: nat, files: map<string, seq<string>>)
    requires k < |stages|
    requires stages[k] == LoadActors ==> ActorsPath in files
    requires stages[k] == LoadCasts ==> CastsPath in files
    requires InOrder(p.trace) && InOrder(stages[..k]) && AllBefore(p.trace, stages[..k])
    requires p.status.Running?
    ensures var r := RunStages(p, stages, files, Some(stages[k]));
      && r.status == Exited(1) && p.trace <= r.trace
      && (forall j :: |p.trace| <= j < |r.trace| ==> r.trace[j] in stages[..k])
      && (Verify !in stages[..k] ==> r.report == p.report)
  {
    var fault := Some(stages[k]);
    RunStagesAt(p, stages, k, files, fault);
    RunStagesInOrder(p, stages[..k], files, fault);
    var q := RunStages(p, stages[..k], files, fault);
    ExitCodeIsOne(p, stages[..k], files, fault);
    ThrowingStage(q, stages[k], files);
    var q2 := StageStep(q, stages[k], files, fault);
    ExitedStays(q2, stages[k + 1..], files, fault);
  }

  /** The stages before s in the pipeline are in order and do not include Verify. */
  lemma PipelinePrefix(s: Stage)
    ensures StageIndex(s) < |Pipeline| && Pipeline[StageIndex(s)] == s
    ensures InOrder(Pipeline[..StageIndex(s)]) && Verify !in Pipeline[..StageIndex(s)]
    ensures InOrder([]) && AllBefore([], Pipeline[..StageIndex(s)])
  {
    PipelineIndexes();
    var before := Pipeline[..StageIndex(s)];
    forall i | 0 <= i < |before|
      ensures before[i] != Verify
    {
      assert StageIndex(before[i]) == i;
    }
  }

  /** Stages taken from the pipeline's first k entries all have an index below k. */
  lemma StagesBefore(trace: seq<Stage>, before: seq<Stage>, k: nat)
    requires k <= |Pipeline| && before == Pipeline[..k]
    requires forall j :: 0 <= j < |trace| ==> trace[j] in before
    ensures forall j :: 0 <= j < |trace| ==> StageIndex(trace[j]) < k
  {
    PipelineIndexes();
    forall j | 0 <= j < |trace|
      ensures StageIndex(trace[j]) < k
    {
      var m :| 0 <= m < k && before[m] == trace[j];
      assert Pipeline[m] == trace[j];
    }
  }
}
