/**
 * The title.principals loader (CastTSVParser): every acting credit whose movie and
 * star the store already holds becomes a stars_in_movies link, buffered and
 * committed in batches of BatchSize. Existence is checked against two id sets read
 * from the store once, when the parser is built.
 */
module CastLoader {
  import opened Optional
  import opened JavaText
  import opened Tsv
  import opened Batching
  import opened Store
  import ActorLoader

  /** tconst, ordering, nconst, category, job, characters: only the first four are read. */
  const CastColumns: nat := 4

  /** The category filter: exact equality, not a substring test. */
  predicate IsCastCategory(category: string)
  {
    category == "actor" || category == "actress"
  }

  datatype CastLine = LinkRow(link: CastLink) | SkippedCast(reason: SkipReason)

  /** What processLine decides for one data line, given the preloaded id sets. */
  function ClassifyCastLine(movieIds: set<string>, starIds: set<string>, line: string): CastLine
  {
    var fields := Split(line, Tab);
    if |fields| < CastColumns then SkippedCast(MalformedLine)
    else if !IsCastCategory(fields[3]) then SkippedCast(FilteredOut)
    else if fields[0] !in movieIds then SkippedCast(DanglingReference)
    else if fields[2] !in starIds then SkippedCast(DanglingReference)
    else LinkRow(CastLink(fields[2], fields[0]))
  }

  // ---------------------------------------------------------------------------
  // the loader's state and its steps, as values
  // ---------------------------------------------------------------------------

  /** The parser's fields, with the store and commit log its connection holds. */
  datatype CastLoad = CastLoad(
    existingMovieIds: set<string>,
    existingStarIds: set<string>,
    batch: seq<CastLink>,
    batchCount: int,
    linksCreated: int,
    linesSkipped: int,
    closed: bool,
    db: Db,
    log: seq<Commit>)

  /** Every link of `links` names a star of `starIds` and a movie of `movieIds`. */
  ghost predicate LinksKnown(links: seq<CastLink>, movieIds: set<string>, starIds: set<string>)
  {
    forall i :: 0 <= i < |links| ==> links[i].movieId in movieIds && links[i].starId in starIds
  }

  /**
   * The state between two lines: the counter tracks the buffer, which is below the
   * threshold; every pending link is in the id sets, and the id sets are ids the
   * store holds.
   */
  ghost predicate Inv(st: CastLoad)
  {
    && !st.closed
    && st.batchCount == |st.batch| < BatchSize
    && LinksKnown(st.batch, st.existingMovieIds, st.existingStarIds)
    && st.existingMovieIds <= st.db.movies.Keys
    && st.existingStarIds <= st.db.stars.Keys
  }

  /** A freshly constructed parser: the id sets are the ids the store holds at that moment. */
  function NewCastLoad(db: Db, log: seq<Commit>): (st: CastLoad)
    ensures Inv(st)
  {
    CastLoad(db.movies.Keys, db.stars.Keys, [], 0, 0, 0, false, db, log)
  }

  /** executeBatch and commit: the buffered links reach the store, duplicates ignored. */
  function CommitBatch(st: CastLoad): CastLoad
  {
    st.(db := st.db.(castLinks := InsertLinks(st.db.castLinks, st.batch)),
        log := st.log + [CastCommit(st.batch)],
        batch := [])
  }

  /** processLine once the line is classified. */
  function ApplyCastLine(st: CastLoad, outcome: CastLine): CastLoad
  {
    match outcome
    case SkippedCast(_) => st.(linesSkipped := st.linesSkipped + 1)
    case LinkRow(link) =>
      var st1 := st.(batch := st.batch + [link], batchCount := st.batchCount + 1, linksCreated := st.linksCreated + 1);
      if st1.batchCount >= BatchSize then CommitBatch(st1).(batchCount := 0) else st1
  }

  /** processLine. */
  function CastStep(st: CastLoad, line: string): CastLoad
  {
    ApplyCastLine(st, ClassifyCastLine(st.existingMovieIds, st.existingStarIds, line))
  }

  /** processLine over a sequence of data lines, first to last. */
  function CastSteps(st: CastLoad, lines: seq<string>): CastLoad
  {
    if lines == [] then st
    else CastStep(CastSteps(st, lines[..|lines| - 1]), lines[|lines| - 1])
  }

  /** finalizeParsing: a partial batch is committed iff batchCount > 0; batchCount itself is not reset. */
  function CastFinish(st: CastLoad): CastLoad
  {
    (if st.batchCount > 0 then CommitBatch(st) else st).(closed := true)
  }

  /** parse: the header is skipped, every other line processed, then the parser finalized. */
  function CastParse(st: CastLoad, lines: seq<string>): CastLoad
  {
    CastFinish(CastSteps(st, DataLines(lines)))
  }

  /** The links a stream of data lines yields against fixed id sets, in order. */
  function AcceptedLinks(movieIds: set<string>, starIds: set<string>, lines: seq<string>): (links: seq<CastLink>)
    ensures |links| <= |lines|
  {
    if lines == [] then []
    else
      var front := AcceptedLinks(movieIds, starIds, lines[..|lines| - 1]);
      match ClassifyCastLine(movieIds, starIds, lines[|lines| - 1])
      case LinkRow(link) => front + [link]
      case SkippedCast(_) => front
  }

  function CastCommits(batches: seq<seq<CastLink>>): (commits: seq<Commit>)
    ensures |commits| == |batches|
    ensures forall i :: 0 <= i < |batches| ==> commits[i] == CastCommit(batches[i])
  {
    if batches == [] then [] else CastCommits(batches[..|batches| - 1]) + [CastCommit(batches[|batches| - 1])]
  }

  // ---------------------------------------------------------------------------
  // properties of one line
  // ---------------------------------------------------------------------------

  /**
   * The filter on a well-formed line: a link is made iff category is exactly
   * "actor" or "actress", tconst is a known movie and nconst a known star; the link
   * is (nconst, tconst). A known category with an unknown id is a dangling reference.
   */
  lemma {:induction false} ClassifyCastFields(movieIds: set<string>, starIds: set<string>, fields: seq<string>)
    requires |fields| >= CastColumns
    requires forall i :: 0 <= i < |fields| ==> Tab !in fields[i]
    ensures var outcome := ClassifyCastLine(movieIds, starIds, Join(fields, Tab));
      && (outcome.LinkRow? <==> IsCastCategory(fields[3]) && fields[0] in movieIds && fields[2] in starIds)
      && (outcome.LinkRow? ==> outcome.link == CastLink(fields[2], fields[0]))
      && (IsCastCategory(fields[3]) && (fields[0] !in movieIds || fields[2] !in starIds) ==>
            outcome == SkippedCast(DanglingReference))
  {
    SplitJoin(fields, Tab);
  }

  /** A line with fewer than four fields is malformed, however its fields read. */
  lemma {:induction false} ClassifyCastShortLine(movieIds: set<string>, starIds: set<string>, fields: seq<string>)
    requires 1 <= |fields| < CastColumns
    requires forall i :: 0 <= i < |fields| ==> Tab !in fields[i]
    ensures ClassifyCastLine(movieIds, starIds, Join(fields, Tab)) == SkippedCast(MalformedLine)
  {
    SplitJoin(fields, Tab);
  }

  /** Every link a line yields is in the id sets. */
  lemma ClassifiedLinkKnown(movieIds: set<string>, starIds: set<string>, line: string)
    ensures var outcome := ClassifyCastLine(movieIds, starIds, line);
      outcome.LinkRow? ==> outcome.link.movieId in movieIds && outcome.link.starId in starIds
  {
  }

  /**
   * The two loaders filter differently: a profession "reactor" passes the actor
   * loader's substring test, while a category "reactor" fails this loader's
   * equality test.
   */
  lemma CategoryIsExact()
    ensures ActorLoader.IsActing("reactor") && !IsCastCategory("reactor")
  {
    ActorLoader.SubstringNotToken();
  }

  // ---------------------------------------------------------------------------
  // properties of a whole file
  // ---------------------------------------------------------------------------

  /** Every link a stream yields names a star and a movie of the id sets. */
  lemma {:induction false} AcceptedLinksKnown(movieIds: set<string>, starIds: set<string>, lines: seq<string>)
    ensures LinksKnown(AcceptedLinks(movieIds, starIds, lines), movieIds, starIds)
    decreases |lines|
  {
    if lines != [] {
      AcceptedLinksKnown(movieIds, starIds, lines[..|lines| - 1]);
      ClassifiedLinkKnown(movieIds, starIds, lines[|lines| - 1]);
    }
  }

  /**
   * Where a loader stands after some lines from a fresh buffer: the id sets are
   * those it was built with; the commits so far are full batches that, followed by
   * the pending buffer, give the accepted links in order; the store holds them; the
   * counters add up.
   */
  ghost predicate Committed(st0: CastLoad, full: seq<seq<CastLink>>, st: CastLoad, accepted: seq<CastLink>, seen: nat)
  {
    && Inv(st)
    && st.existingMovieIds == st0.existingMovieIds && st.existingStarIds == st0.existingStarIds
    && (forall i :: 0 <= i < |full| ==> |full[i]| == BatchSize)
    && Flatten(full) + st.batch == accepted
    && st.log == st0.log + CastCommits(full)
    && st.db == st0.db.(castLinks := InsertLinks(st0.db.castLinks, Flatten(full)))
    && st.linksCreated == st0.linksCreated + |accepted|
    && st.linesSkipped == st0.linesSkipped + seen - |accepted|
  }

  /** One more line keeps a loader Committed. */
  lemma CommittedStep(st0: CastLoad, full: seq<seq<CastLink>>, st: CastLoad, accepted: seq<CastLink>, seen: nat, line: string)
    returns (full': seq<seq<CastLink>>)
    requires Committed(st0, full, st, accepted, seen)
    ensures var outcome := ClassifyCastLine(st0.existingMovieIds, st0.existingStarIds, line);
      Committed(st0, full', CastStep(st, line), if outcome.LinkRow? then accepted + [outcome.link] else accepted, seen + 1)
  {
    full' := full;
    var outcome := ClassifyCastLine(st.existingMovieIds, st.existingStarIds, line);
    ClassifiedLinkKnown(st.existingMovieIds, st.existingStarIds, line);
    if outcome.LinkRow? {
      if |st.batch| + 1 == BatchSize {
        full' := CommittedByThreshold(st0, full, st, accepted, seen, outcome.link);
      } else {
        assert Flatten(full) + (st.batch + [outcome.link]) == accepted + [outcome.link];
      }
    }
  }

  lemma CommittedByThreshold(st0: CastLoad, full: seq<seq<CastLink>>, st: CastLoad, accepted: seq<CastLink>, seen: nat, link: CastLink)
    returns (full': seq<seq<CastLink>>)
    requires Committed(st0, full, st, accepted, seen)
    requires |st.batch| + 1 == BatchSize
    requires link.movieId in st.existingMovieIds && link.starId in st.existingStarIds
    ensures Committed(st0, full', ApplyCastLine(st, LinkRow(link)), accepted + [link], seen + 1)
  {
    var b := st.batch + [link];
    var st' := ApplyCastLine(st, LinkRow(link));
    assert st'.batch == [] && st'.batchCount == 0;
    assert st'.log == st.log + [CastCommit(b)];
    assert st'.db == st.db.(castLinks := InsertLinks(st.db.castLinks, b));
    FlattenSnoc(full, b);
    full' := full + [b];
    ThresholdLog(st0.log, full, st.log, b);
    ThresholdDb(st0.db, Flatten(full), st.db, b);
  }

  lemma ThresholdDb(db0: Db, links: seq<CastLink>, db: Db, b: seq<CastLink>)
    requires db == db0.(castLinks := InsertLinks(db0.castLinks, links))
    ensures db.(castLinks := InsertLinks(db.castLinks, b)) == db0.(castLinks := InsertLinks(db0.castLinks, links + b))
  {
    InsertLinksAppend(db0.castLinks, links, b);
  }

  lemma ThresholdLog(log0: seq<Commit>, full: seq<seq<CastLink>>, log: seq<Commit>, b: seq<CastLink>)
    requires log == log0 + CastCommits(full)
    ensures log + [CastCommit(b)] == log0 + CastCommits(full + [b])
  {
    assert (full + [b])[..|full|] == full;
  }

  lemma {:induction false} CastStepsShape(st0: CastLoad, lines: seq<string>) returns (full: seq<seq<CastLink>>)
    requires Inv(st0) && st0.batch == []
    ensures Committed(st0, full, CastSteps(st0, lines), AcceptedLinks(st0.existingMovieIds, st0.existingStarIds, lines), |lines|)
    decreases |lines|
  {
    if lines == [] {
      full := [];
    } else {
      var front := lines[..|lines| - 1];
      full := CastStepsShape(st0, front);
      full := CommittedStep(st0, full, CastSteps(st0, front), AcceptedLinks(st0.existingMovieIds, st0.existingStarIds, front),
                            |front|, lines[|lines| - 1]);
    }
  }

  /** finalizeParsing turns a Committed loader's state into the commits of Chunks of its links. */
  lemma FinishCommitted(st0: CastLoad, full: seq<seq<CastLink>>, st: CastLoad, accepted: seq<CastLink>, seen: nat)
    requires Committed(st0, full, st, accepted, seen)
    ensures var fin := CastFinish(st);
      && fin.log == st0.log + CastCommits(Chunks(accepted))
      && fin.db == st0.db.(castLinks := InsertLinks(st0.db.castLinks, accepted))
      && fin.linksCreated == st0.linksCreated + |accepted|
      && fin.linesSkipped == st0.linesSkipped + seen - |accepted|
      && fin.existingMovieIds == st0.existingMovieIds && fin.existingStarIds == st0.existingStarIds
      && fin.closed
  {
    FinishLog(st0.log, full, st);
    FinishLinks(st0.db, full, st);
  }

  lemma FinishLog(log0: seq<Commit>, full: seq<seq<CastLink>>, st: CastLoad)
    requires forall i :: 0 <= i < |full| ==> |full[i]| == BatchSize
    requires st.batchCount == |st.batch| < BatchSize
    requires st.log == log0 + CastCommits(full)
    ensures CastFinish(st).log == log0 + CastCommits(Chunks(Flatten(full) + st.batch))
  {
    var cs := FinalCommits(full, st.batch);
    if st.batchCount > 0 {
      assert CastFinish(st).log == (log0 + CastCommits(full)) + [CastCommit(st.batch)];
    } else {
      assert CastFinish(st).log == log0 + CastCommits(full);
    }
  }

  lemma FinishLinks(db0: Db, full: seq<seq<CastLink>>, st: CastLoad)
    requires st.batchCount == |st.batch|
    requires st.db == db0.(castLinks := InsertLinks(db0.castLinks, Flatten(full)))
    ensures CastFinish(st).db == db0.(castLinks := InsertLinks(db0.castLinks, Flatten(full) + st.batch))
  {
    if st.batchCount > 0 {
      InsertLinksAppend(db0.castLinks, Flatten(full), st.batch);
    } else {
      assert Flatten(full) + st.batch == Flatten(full);
    }
  }

  /** The cast commits once the pending batch, if any, is committed: Chunks of all the links. */
  lemma FinalCommits(full: seq<seq<CastLink>>, pending: seq<CastLink>) returns (cs: seq<Commit>)
    requires forall i :: 0 <= i < |full| ==> |full[i]| == BatchSize
    requires |pending| < BatchSize
    ensures cs == CastCommits(full) + (if pending == [] then [] else [CastCommit(pending)])
    ensures cs == CastCommits(Chunks(Flatten(full) + pending))
  {
    ChunksOfCommitted(full, pending);
    if pending == [] {
      assert full + [] == full;
    } else {
      assert (full + [pending])[..|full|] == full;
    }
    cs := CastCommits(Chunks(Flatten(full) + pending));
  }

  /**
   * parse from a fresh parser: the id sets are the store's movie and star ids at
   * construction and never change; the accepted links are committed as Chunks of
   * them; stars_in_movies gains exactly those links (duplicates ignored), each
   * naming a stored star and a stored movie; nothing else in the store changes;
   * linksCreated counts every accepted line, duplicates included, and linesSkipped
   * the other data lines.
   */
  lemma CastParseEffect(db: Db, log: seq<Commit>, lines: seq<string>)
    ensures var st := CastParse(NewCastLoad(db, log), lines);
      var accepted := AcceptedLinks(db.movies.Keys, db.stars.Keys, DataLines(lines));
      && st.existingMovieIds == db.movies.Keys && st.existingStarIds == db.stars.Keys
      && st.log == log + CastCommits(Chunks(accepted))
      && st.db == db.(castLinks := InsertLinks(db.castLinks, accepted))
      && (forall i :: 0 <= i < |accepted| ==> accepted[i].starId in db.stars && accepted[i].movieId in db.movies)
      && st.linksCreated == |accepted|
      && st.linesSkipped == |DataLines(lines)| - |accepted|
      && st.closed
  {
    var st0 := NewCastLoad(db, log);
    var body := DataLines(lines);
    var full := CastStepsShape(st0, body);
    FinishCommitted(st0, full, CastSteps(st0, body), AcceptedLinks(db.movies.Keys, db.stars.Keys, body), |body|);
    AcceptedLinksKnown(db.movies.Keys, db.stars.Keys, body);
  }

  /**
   * linksCreated counts buffered rows, not stored ones: a file repeating one credit
   * reports two links while stars_in_movies gains one.
   */
  lemma DuplicateCredit(db: Db, log: seq<Commit>, header: string, line: string)
    requires ClassifyCastLine(db.movies.Keys, db.stars.Keys, line).LinkRow?
    ensures var st := CastParse(NewCastLoad(db, log), [header, line, line]);
      var link := ClassifyCastLine(db.movies.Keys, db.stars.Keys, line).link;
      && st.linksCreated == 2
      && st.db.castLinks == db.castLinks + {link}
  {
    var link := ClassifyCastLine(db.movies.Keys, db.stars.Keys, line).link;
    var body := DataLines([header, line, line]);
    assert body == [line, line];
    assert body[..1] == [line];
    assert AcceptedLinks(db.movies.Keys, db.stars.Keys, body) == [link, link];
    CastParseEffect(db, log, [header, line, line]);
  }

  // ---------------------------------------------------------------------------
  // the parser object
  // ---------------------------------------------------------------------------

  /** loadExistingIds: read the ids of a table row by row into a new set. */
  method LoadExistingIds(table: set<string>) returns (ids: set<string>)
    ensures ids == table
  {
    ids := {};
    var rows := table;
    while rows != {}
      invariant ids + rows == table
      invariant ids !! rows
      decreases |rows|
    {
      var id :| id in rows;
      ids := ids + {id};
      rows := rows - {id};
    }
  }

  class CastTSVParser {
    const conn: Connection
    const existingMovieIds: set<string>
    const existingStarIds: set<string>
    /** castStmt's pending batch. */
    var batch: seq<CastLink>
    var batchCount: int
    var linksCreated: int
    var linesSkipped: int
    /** castStmt has been closed by finalizeParsing. */
    var closed: bool

    ghost function State(): CastLoad
      reads this, conn
    {
      CastLoad(existingMovieIds, existingStarIds, batch, batchCount, linksCreated, linesSkipped, closed, conn.db, conn.log)
    }

    ghost predicate Valid()
      reads this, conn
    {
      Inv(State())
    }

    /** The id sets are preloaded from the store as it is now. */
    constructor (conn: Connection)
      ensures this.conn == conn
      ensures State() == NewCastLoad(conn.db, conn.log)
    {
      var movieIds := LoadExistingIds(conn.db.movies.Keys);
      var starIds := LoadExistingIds(conn.db.stars.Keys);
      this.conn := conn;
      existingMovieIds := movieIds;
      existingStarIds := starIds;
      batch := [];
      batchCount := 0;
      linksCreated := 0;
      linesSkipped := 0;
      closed := false;
    }

    method Parse(lines: seq<string>)
      requires Valid()
      modifies this, conn
      ensures State() == CastParse(old(State()), lines)
    {
      var isFirstLine := true;
      var i := 0;
      while i < |lines|
        invariant 0 <= i <= |lines|
        invariant isFirstLine <==> i == 0
        invariant Valid()
        invariant State() == CastSteps(old(State()), DataLines(lines[..i]))
      {
        var line := lines[i];
        if isFirstLine {
          isFirstLine := false;
        } else {
          DataLinesSnoc(lines, i);
          ProcessLine(line);
        }
        i := i + 1;
      }
      assert lines[..i] == lines;
      FinalizeParsing();
    }

    method ProcessLine(line: string)
      requires Valid()
      modifies this, conn
      ensures Valid()
      ensures State() == CastStep(old(State()), line)
    {
      var fields := Split(line, Tab);
      if |fields| < CastColumns {
        linesSkipped := linesSkipped + 1;
        return;
      }
      var tconst, nconst, category := fields[0], fields[2], fields[3];
      if category != "actor" && category != "actress" {
        linesSkipped := linesSkipped + 1;
        return;
      }
      if tconst !in existingMovieIds {
        linesSkipped := linesSkipped + 1;
        return;
      }
      if nconst !in existingStarIds {
        linesSkipped := linesSkipped + 1;
        return;
      }
      batch := batch + [CastLink(nconst, tconst)];
      batchCount := batchCount + 1;
      linksCreated := linksCreated + 1;
      if batchCount >= BatchSize {
        conn.CommitCastLinks(batch);
        batch := [];
        batchCount := 0;
      }
    }

    method FinalizeParsing()
      requires Valid()
      modifies this, conn
      ensures State() == CastFinish(old(State()))
    {
      if batchCount > 0 {
        conn.CommitCastLinks(batch);
        batch := [];
      }
      closed := true;
    }
  }
}
