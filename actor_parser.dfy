/**
 * The name.basics loader (ActorTSVParser): every acting person becomes a star
 * upsert, buffered and committed in batches of BatchSize.
 */
module ActorLoader {
  import opened Optional
  import opened JavaText
  import opened Tsv
  import opened Batching
  import opened Store

  /** nconst, primaryName, birthYear, deathYear, primaryProfession, knownForTitles. */
  const ActorColumns: nat := 6

  /** The raw, case-sensitive substring filter on primaryProfession (not a match on its comma-separated entries). */
  predicate IsActing(profession: string)
  {
    Contains(profession, "actor") || Contains(profession, "actress")
  }

  datatype ActorLine = StarRow(row: StarUpsert) | SkippedActor(reason: SkipReason)

  /** What processLine decides for one data line. */
  function ClassifyActorLine(line: string): ActorLine
  {
    var fields := Split(line, Tab);
    if |fields| < ActorColumns then SkippedActor(MalformedLine)
    else if !IsActing(fields[4]) then SkippedActor(FilteredOut)
    else StarRow(StarUpsert(fields[0], fields[1], OptionalInt(fields[2])))
  }

  // ---------------------------------------------------------------------------
  // the loader's state and its steps, as values
  // ---------------------------------------------------------------------------

  /** The parser's fields, with the store and commit log its connection holds. */
  datatype ActorLoad = ActorLoad(
    batch: seq<StarUpsert>,
    batchCount: int,
    actorsProcessed: int,
    linesSkipped: int,
    closed: bool,
    db: Db,
    log: seq<Commit>)

  /** The state between two lines: the counter tracks the buffer, which is below the threshold. */
  ghost predicate Inv(st: ActorLoad)
  {
    !st.closed && st.batchCount == |st.batch| < BatchSize
  }

  /** A freshly constructed parser on a connection whose store is `db`. */
  function NewActorLoad(db: Db, log: seq<Commit>): (st: ActorLoad)
    ensures Inv(st)
  {
    ActorLoad([], 0, 0, 0, false, db, log)
  }

  /** executeBatch and commit: the buffered upserts reach the store. */
  function CommitBatch(st: ActorLoad): ActorLoad
  {
    st.(db := st.db.(stars := UpsertStars(st.db.stars, st.batch)),
        log := st.log + [StarCommit(st.batch)],
        batch := [])
  }

  /** processLine. */
  function ActorStep(st: ActorLoad, line: string): ActorLoad
  {
    ApplyActorLine(st, ClassifyActorLine(line))
  }

  /** processLine once the line is classified. */
  function ApplyActorLine(st: ActorLoad, outcome: ActorLine): ActorLoad
  {
    match outcome
    case SkippedActor(_) => st.(linesSkipped := st.linesSkipped + 1)
    case StarRow(row) =>
      var st1 := st.(batch := st.batch + [row],
                     batchCount := st.batchCount + 1,
                     actorsProcessed := st.actorsProcessed + 1);
      if st1.batchCount >= BatchSize then CommitBatch(st1).(batchCount := 0) else st1
  }

  /** processLine over a sequence of data lines, first to last. */
  function ActorSteps(st: ActorLoad, lines: seq<string>): ActorLoad
  {
    if lines == [] then st
    else ActorStep(ActorSteps(st, lines[..|lines| - 1]), lines[|lines| - 1])
  }

  /** finalizeParsing: commits a partial batch iff the counter is positive; the counter is not reset. */
  function ActorFinish(st: ActorLoad): ActorLoad
  {
    (if st.batchCount > 0 then CommitBatch(st) else st).(closed := true)
  }

  /** parse: the header is skipped, every other line processed, then the parser finalized. */
  function ActorParse(st: ActorLoad, lines: seq<string>): ActorLoad
  {
    ActorFinish(ActorSteps(st, DataLines(lines)))
  }

  /** The star upserts a stream of data lines yields, in order. */
  function AcceptedStars(lines: seq<string>): (rows: seq<StarUpsert>)
    ensures |rows| <= |lines|
  {
    if lines == [] then []
    else
      var front := AcceptedStars(lines[..|lines| - 1]);
      match ClassifyActorLine(lines[|lines| - 1])
      case StarRow(row) => front + [row]
      case SkippedActor(_) => front
  }

  function StarCommits(batches: seq<seq<StarUpsert>>): (commits: seq<Commit>)
    ensures |commits| == |batches|
    ensures forall i :: 0 <= i < |batches| ==> commits[i] == StarCommit(batches[i])
  {
    if batches == [] then [] else StarCommits(batches[..|batches| - 1]) + [StarCommit(batches[|batches| - 1])]
  }

  // ---------------------------------------------------------------------------
  // properties of one line
  // ---------------------------------------------------------------------------

  /**
   * Every data line moves exactly one of actorsProcessed and linesSkipped up by
   * one; a skipped line changes nothing else; an accepted line appends its row,
   * and the counter stays below the threshold, the batch being committed when it
   * reaches it.
   */
  lemma ActorStepEffect(st: ActorLoad, outcome: ActorLine)
    requires Inv(st)
    ensures var st' := ApplyActorLine(st, outcome);
      && Inv(st')
      && (outcome.SkippedActor? ==> st' == st.(linesSkipped := st.linesSkipped + 1))
      && (outcome.StarRow? ==>
            && st'.actorsProcessed == st.actorsProcessed + 1
            && st'.linesSkipped == st.linesSkipped
            && (|st.batch| + 1 < BatchSize ==> st' == st.(batch := st.batch + [outcome.row],
                                                          batchCount := st.batchCount + 1,
                                                          actorsProcessed := st.actorsProcessed + 1))
            && (|st.batch| + 1 == BatchSize ==>
                  && st' == st.(db := st.db.(stars := UpsertStars(st.db.stars, st.batch + [outcome.row])),
                                log := st.log + [StarCommit(st.batch + [outcome.row])],
                                batch := [], batchCount := 0,
                                actorsProcessed := st.actorsProcessed + 1)))
  {
  }

  /**
   * The filter on a well-formed line: a row is kept iff primaryProfession holds
   * "actor" or "actress" anywhere; the row carries nconst, primaryName and the
   * birth year, absent for `\N` or an unparseable value.
   */
  lemma {:induction false} ClassifyFields(fields: seq<string>)
    requires |fields| >= ActorColumns
    requires forall i :: 0 <= i < |fields| ==> Tab !in fields[i]
    ensures ClassifyActorLine(Join(fields, Tab)).StarRow? <==> IsActing(fields[4])
    ensures IsActing(fields[4]) ==>
      ClassifyActorLine(Join(fields, Tab)).row == StarUpsert(fields[0], fields[1], ParseInt(fields[2]))
  {
    SplitJoin(fields, Tab);
  }

  /** A line with fewer than six fields is malformed, however its fields read. */
  lemma {:induction false} ClassifyShortLine(fields: seq<string>)
    requires 1 <= |fields| < ActorColumns
    requires forall i :: 0 <= i < |fields| ==> Tab !in fields[i]
    ensures ClassifyActorLine(Join(fields, Tab)) == SkippedActor(MalformedLine)
  {
    SplitJoin(fields, Tab);
  }

  /** The filter is a substring test: "reactor" passes it although it names no acting role. */
  lemma SubstringNotToken()
    ensures IsActing("reactor")
  {
    assert StartsWith("reactor"[2..], "actor");
  }

  // ---------------------------------------------------------------------------
  // properties of a whole file
  // ---------------------------------------------------------------------------

  /**
   * Where a loader stands after some lines from a fresh buffer: the commits so far
   * are full batches that, followed by the pending buffer, give the accepted rows
   * in order; the store holds them upserted in that order; the counters add up.
   */
  ghost predicate Committed(st0: ActorLoad, full: seq<seq<StarUpsert>>, st: ActorLoad, accepted: seq<StarUpsert>, seen: nat)
  {
    && Inv(st)
    && (forall i :: 0 <= i < |full| ==> |full[i]| == BatchSize)
    && Flatten(full) + st.batch == accepted
    && st.log == st0.log + StarCommits(full)
    && st.db == st0.db.(stars := UpsertStars(st0.db.stars, Flatten(full)))
    && st.actorsProcessed == st0.actorsProcessed + |accepted|
    && st.linesSkipped == st0.linesSkipped + seen - |accepted|
  }

  /** One more line keeps a loader Committed. */
  lemma CommittedStep(st0: ActorLoad, full: seq<seq<StarUpsert>>, st: ActorLoad, accepted: seq<StarUpsert>, seen: nat, outcome: ActorLine)
    returns (full': seq<seq<StarUpsert>>)
    requires Committed(st0, full, st, accepted, seen)
    ensures Committed(st0, full', ApplyActorLine(st, outcome),
                      if outcome.StarRow? then accepted + [outcome.row] else accepted, seen + 1)
  {
    full' := full;
    if outcome.StarRow? {
      if |st.batch| + 1 == BatchSize {
        full' := CommittedByThreshold(st0, full, st, accepted, seen, outcome.row);
      } else {
        assert Flatten(full) + (st.batch + [outcome.row]) == accepted + [outcome.row];
      }
    }
  }

  lemma CommittedByThreshold(st0: ActorLoad, full: seq<seq<StarUpsert>>, st: ActorLoad, accepted: seq<StarUpsert>, seen: nat, row: StarUpsert)
    returns (full': seq<seq<StarUpsert>>)
    requires Committed(st0, full, st, accepted, seen)
    requires |st.batch| + 1 == BatchSize
    ensures Committed(st0, full', ApplyActorLine(st, StarRow(row)), accepted + [row], seen + 1)
  {
    var b := st.batch + [row];
    var st' := ApplyActorLine(st, StarRow(row));
    assert st'.batch == [] && st'.batchCount == 0;
    assert st'.log == st.log + [StarCommit(b)];
    assert st'.db == st.db.(stars := UpsertStars(st.db.stars, b));
    FlattenSnoc(full, b);
    full' := full + [b];
    ThresholdLog(st0.log, full, st.log, b);
    ThresholdDb(st0.db, Flatten(full), st.db, b);
  }

  lemma ThresholdDb(db0: Db, rows: seq<StarUpsert>, db: Db, b: seq<StarUpsert>)
    requires db == db0.(stars := UpsertStars(db0.stars, rows))
    ensures db.(stars := UpsertStars(db.stars, b)) == db0.(stars := UpsertStars(db0.stars, rows + b))
  {
    UpsertStarsAppend(db0.stars, rows, b);
  }

  lemma ThresholdLog(log0: seq<Commit>, full: seq<seq<StarUpsert>>, log: seq<Commit>, b: seq<StarUpsert>)
    requires log == log0 + StarCommits(full)
    ensures log + [StarCommit(b)] == log0 + StarCommits(full + [b])
  {
    assert (full + [b])[..|full|] == full;
  }

  lemma {:induction false} ActorStepsShape(st0: ActorLoad, lines: seq<string>) returns (full: seq<seq<StarUpsert>>)
    requires Inv(st0) && st0.batch == []
    ensures Committed(st0, full, ActorSteps(st0, lines), AcceptedStars(lines), |lines|)
    decreases |lines|
  {
    if lines == [] {
      full := [];
    } else {
      var front := lines[..|lines| - 1];
      var outcome := ClassifyActorLine(lines[|lines| - 1]);
      full := ActorStepsShape(st0, front);
      full := CommittedStep(st0, full, ActorSteps(st0, front), AcceptedStars(front), |front|, outcome);
    }
  }

  /**
   * parse from a fresh parser: n accepted rows are committed as Chunks of them
   * (ceil(n / 1000) commits, all full but the last); the stars table holds every
   * accepted row upserted in file order; actorsProcessed counts the accepted rows
   * and linesSkipped the other data lines; the header counts as neither.
   */
  lemma ActorParseEffect(db: Db, log: seq<Commit>, lines: seq<string>)
    ensures var st := ActorParse(NewActorLoad(db, log), lines);
      var accepted := AcceptedStars(DataLines(lines));
      && st.log == log + StarCommits(Chunks(accepted))
      && st.db == db.(stars := UpsertStars(db.stars, accepted))
      && st.actorsProcessed == |accepted|
      && st.linesSkipped == |DataLines(lines)| - |accepted|
      && st.closed
  {
    var st0 := NewActorLoad(db, log);
    var body := DataLines(lines);
    var full := ActorStepsShape(st0, body);
    FinishCommitted(st0, full, ActorSteps(st0, body), AcceptedStars(body), |body|);
  }

  /** finalizeParsing turns a Committed loader's state into the commits of Chunks of its rows. */
  lemma FinishCommitted(st0: ActorLoad, full: seq<seq<StarUpsert>>, st: ActorLoad, accepted: seq<StarUpsert>, seen: nat)
    requires Committed(st0, full, st, accepted, seen)
    ensures var fin := ActorFinish(st);
      && fin.log == st0.log + StarCommits(Chunks(accepted))
      && fin.db == st0.db.(stars := UpsertStars(st0.db.stars, accepted))
      && fin.actorsProcessed == st0.actorsProcessed + |accepted|
      && fin.linesSkipped == st0.linesSkipped + seen - |accepted|
      && fin.closed
  {
    FinishLog(st0.log, full, st);
    FinishStars(st0.db, full, st);
  }

  lemma FinishLog(log0: seq<Commit>, full: seq<seq<StarUpsert>>, st: ActorLoad)
    requires forall i :: 0 <= i < |full| ==> |full[i]| == BatchSize
    requires st.batchCount == |st.batch| < BatchSize
    requires st.log == log0 + StarCommits(full)
    ensures ActorFinish(st).log == log0 + StarCommits(Chunks(Flatten(full) + st.batch))
  {
    var cs := FinalCommits(full, st.batch);
    if st.batchCount > 0 {
      assert ActorFinish(st).log == (log0 + StarCommits(full)) + [StarCommit(st.batch)];
    } else {
      assert ActorFinish(st).log == log0 + StarCommits(full);
    }
  }

  lemma FinishStars(db0: Db, full: seq<seq<StarUpsert>>, st: ActorLoad)
    requires st.batchCount == |st.batch|
    requires st.db == db0.(stars := UpsertStars(db0.stars, Flatten(full)))
    ensures ActorFinish(st).db == db0.(stars := UpsertStars(db0.stars, Flatten(full) + st.batch))
  {
    if st.batchCount > 0 {
      UpsertStarsAppend(db0.stars, Flatten(full), st.batch);
    } else {
      assert Flatten(full) + st.batch == Flatten(full);
    }
  }

  /** The star commits once the pending batch, if any, is committed: Chunks of all the rows. */
  lemma FinalCommits(full: seq<seq<StarUpsert>>, pending: seq<StarUpsert>) returns (cs: seq<Commit>)
    requires forall i :: 0 <= i < |full| ==> |full[i]| == BatchSize
    requires |pending| < BatchSize
    ensures cs == StarCommits(full) + (if pending == [] then [] else [StarCommit(pending)])
    ensures cs == StarCommits(Chunks(Flatten(full) + pending))
  {
    ChunksOfCommitted(full, pending);
    if pending == [] {
      assert full + [] == full;
    } else {
      assert (full + [pending])[..|full|] == full;
    }
    cs := StarCommits(Chunks(Flatten(full) + pending));
  }

  // ---------------------------------------------------------------------------
  // the parser object
  // ---------------------------------------------------------------------------

  class ActorTSVParser {
    const conn: Connection
    /** starStmt's pending batch. */
    var batch: seq<StarUpsert>
    var batchCount: int
    var actorsProcessed: int
    var linesSkipped: int
    /** starStmt has been closed by finalizeParsing. */
    var closed: bool

    ghost function State(): ActorLoad
      reads this, conn
    {
      ActorLoad(batch, batchCount, actorsProcessed, linesSkipped, closed, conn.db, conn.log)
    }

    ghost predicate Valid()
      reads this, conn
    {
      Inv(State())
    }

    constructor (conn: Connection)
      ensures this.conn == conn
      ensures State() == NewActorLoad(conn.db, conn.log)
    {
      this.conn := conn;
      batch := [];
      batchCount := 0;
      actorsProcessed := 0;
      linesSkipped := 0;
      closed := false;
    }

    method Parse(lines: seq<string>)
      requires Valid()
      modifies this, conn
      ensures State() == ActorParse(old(State()), lines)
    {
      var isFirstLine := true;
      var i := 0;
      while i < |lines|
        invariant 0 <= i <= |lines|
        invariant isFirstLine <==> i == 0
        invariant Valid()
        invariant State() == ActorSteps(old(State()), DataLines(lines[..i]))
      {
        var line := lines[i];
        if isFirstLine {
          isFirstLine := false;
        } else {
          DataLinesSnoc(lines, i);
          ProcessLine(line);
        }
        i := i + 1;
      }
      assert lines[..i] == lines;
      FinalizeParsing();
    }

    method ProcessLine(line: string)
      requires Valid()
      modifies this, conn
      ensures Valid()
      ensures State() == ActorStep(old(State()), line)
    {
      ActorStepEffect(State(), ClassifyActorLine(line));
      var fields := Split(line, Tab);
      if |fields| < ActorColumns {
        linesSkipped := linesSkipped + 1;
        return;
      }
      var nconst, primaryName, birthYear, primaryProfession := fields[0], fields[1], fields[2], fields[4];
      if !Contains(primaryProfession, "actor") && !Contains(primaryProfession, "actress") {
        linesSkipped := linesSkipped + 1;
        return;
      }
      var year: Option<int> := None;
      if birthYear != Sentinel {
        year := ParseInt(birthYear);
      }
      batch := batch + [StarUpsert(nconst, primaryName, year)];
      batchCount := batchCount + 1;
      actorsProcessed := actorsProcessed + 1;
      if batchCount >= BatchSize {
        conn.CommitStars(batch);
        batch := [];
        batchCount := 0;
      }
    }

    method FinalizeParsing()
      requires !closed
      modifies this, conn
      ensures State() == ActorFinish(old(State()))
    {
      if batchCount > 0 {
        conn.CommitStars(batch);
        batch := [];
      }
      closed := true;
    }
  }
}
