# Filmer IMDb bulk loader, modelled in Dafny

Filmer loads three IMDb dumps into PostgreSQL:
- `name.basics` gives the `stars` table;
- `title.basics` gives `movies`, `genres` and `genres_in_movies`;
- `title.principals` gives `stars_in_movies`.

Each dump is handled by its own line-oriented loader:
- `ActorTSVParser` keeps people whose profession column contains "actor" or "actress". It upserts id, name and birth year.
- `MovieTSVParser` keeps titles whose type is exactly "movie" and whose adult flag is not "1". It upserts id, title and year. For each genre name, it inserts the name unless it already exists and buffers a `(genre id, movie id)` link.
- `CastTSVParser` preloads the movie ids and star ids the store holds. It keeps credits whose category is exactly "actor" or "actress" and whose two ids are both known.

Every loader works the same way:
- It skips the header line.
- It splits each line on tabs, keeping trailing empty fields.
- It buffers rows in JDBC batches and commits a batch as soon as it holds 1000 rows.
- `finalizeParsing` commits what is left. The movie loader always commits its movie batch before its genre-link batch.

`DataLoader.main` orchestrates the run:
1. It checks the three `DB_*` variables.
2. It connects and drops three indexes.
3. It loads actors. This stage is skipped if the file is missing.
4. It loads movies. A missing file ends the run with exit code 1.
5. It loads the cast. This stage is skipped if the file is missing.
6. It recreates the indexes.
7. It prints a verification report. The report warns when fewer than 10 000 movies are stored.

Any exception ends the run with exit code 1.

## How the model is built

- `java_text.dfy` (`JavaText`) models the Java string operations the loaders use:
  - `split(d, -1)` (`Split`, with its inverse `Join`);
  - `split(",")`, which drops trailing empty fields (`SplitDroppingTrailing`);
  - `trim`;
  - `contains`;
  - `Integer.parseInt`, with a 32-bit range and an optional sign (`ParseInt`).
- `batching.dfy` (`Batching`) defines `Chunks`, the commit sequence of 1000-row batches a row stream produces.
- `tsv.dfy` (`Tsv`) holds what the three loaders share: the tab, the `\N` sentinel, the year and birth-year parse, and header skipping.
- `store.dfy` (`Store`) holds the PostgreSQL side:
  - The tables are a value `Db`: maps for movies, stars and genres, sets for the two link tables, and a set of present indexes.
  - Each SQL statement is a function on `Db`: the movie upsert keeps `director`, `ON CONFLICT DO NOTHING` inserts are set unions, the genre insert-if-absent assigns fresh ids, and the index drop and recreate.
  - A `Connection` class holds the store the connection sees and a ghost log of the committed batches.
  - Its commit methods require the foreign keys of the batch they send: a genre link names a stored movie and genre, and a cast link names a stored star and movie. The loaders meet these from their own invariants.
- `actor_parser.dfy`, `movie_parser.dfy` and `cast_parser.dfy` model the three parsers.
  - Each parser is a class with the Java fields. The statement batches are `seq` fields.
  - Each class has a ghost `State()` that reads the fields and the connection.
  - `ProcessLine`, `Parse` and `FinalizeParsing` are proved equal to pure step functions on that state (`ActorStep`, `MovieStep`, `CastStep`, …).
  - The properties are lemmas about those step functions. Examples: the effect of one line, the threshold flush, and the effect of a whole file (`…ParseEffect`).
- `data_loader.dfy` (`DataLoader`) models `main`.
  - `RunSpec` describes `main` as a fold of stages: `StageStep` over `Pipeline`.
  - The method `Run` mirrors `main`'s control flow on a `Connection`. It is proved equal to `RunSpec`.
  - Lemmas state what a run does in each case: missing credentials, success, a missing movies file, a throwing stage, and stage order.

Inputs that the Java reads from the outside world are parameters of the model:
- the environment is a `map<string, string>`;
- the data directory is a map from path to the file's decoded lines;
- the store's initial contents are a `Db`;
- the stage whose JDBC call throws is an `Option<Stage>`;
- the exit code is a returned value instead of a call to `System.exit`.

## Model

| member | source | states |
|---|---|---|
| JavaText.Split | backend/src/main/java/com/filmer/parser/MovieTSVParser.java:86 | `split("\t", -1)`: one more field than separators, and no field contains the separator |
| JavaText.JoinSplit | backend/src/main/java/com/filmer/parser/MovieTSVParser.java:86 | rejoining the fields with the separator gives back the line, so no character is lost |
| JavaText.SplitJoin | backend/src/main/java/com/filmer/parser/CastTSVParser.java:91 | splitting separator-free fields joined by the separator gives exactly those fields back, trailing empty ones included |
| JavaText.DropTrailingEmpty | backend/src/main/java/com/filmer/parser/MovieTSVParser.java:129 | `split(",")` with limit 0 keeps a prefix of the full split, drops only empty fields, and never ends in an empty field |
| JavaText.Trim | backend/src/main/java/com/filmer/parser/MovieTSVParser.java:131 | the result is a contiguous slice of the input, with only characters up to U+0020 removed around it and non-blank ends |
| JavaText.TrimEmpty | backend/src/main/java/com/filmer/parser/MovieTSVParser.java:131-132 | a trimmed entry is empty iff every character of it is at most U+0020 |
| JavaText.TrimUnpadded | backend/src/main/java/com/filmer/parser/MovieTSVParser.java:131 | a string with non-blank ends is its own trim |
| JavaText.Contains | backend/src/main/java/com/filmer/parser/ActorTSVParser.java:79 | `contains` holds iff the substring starts at some position of the string |
| JavaText.ParseInt | backend/src/main/java/com/filmer/parser/MovieTSVParser.java:107-115 | a parsed value lies in the 32-bit range, and only a string starting with a digit or a sign parses |
| JavaText.ParseIntToString | backend/src/main/java/com/filmer/parser/ActorTSVParser.java:85-92 | the decimal text of every 32-bit integer parses back to that integer |
| JavaText.ParseIntSentinel | backend/src/main/java/com/filmer/parser/ActorTSVParser.java:86 | `\N` does not parse, so it never yields a number |
| JavaText.ParseIntRejects | backend/src/main/java/com/filmer/parser/MovieTSVParser.java:107-115 | a letter among the digits, a lone sign and the empty string do not parse |
| JavaText.ParseIntRange | backend/src/main/java/com/filmer/parser/MovieTSVParser.java:107-115 | 2147483647 and -2147483648 parse to the 32-bit ends; 2147483648 and -2147483649 do not parse |
| JavaText.DigitsValueOfNatToString | backend/src/main/java/com/filmer/parser/ActorTSVParser.java:88 | the digits of a natural number's decimal text evaluate back to it |
| Tsv.OptionalInt | backend/src/main/java/com/filmer/parser/MovieTSVParser.java:107-115 | a year column is absent for `\N` and otherwise whatever `parseInt` yields: absent on failure, never 0 by default |
| Tsv.DataLines | backend/src/main/java/com/filmer/parser/MovieTSVParser.java:70-77 | the data lines are all lines but the first, in order |
| Tsv.DataLinesSnoc | backend/src/main/java/com/filmer/parser/ActorTSVParser.java:52-58 | each line read past the header is appended to the data lines, in file order |
| Batching.Chunks | backend/src/main/java/com/filmer/parser/ActorTSVParser.java:107-121 | the commit batches concatenate to the rows; each holds 1 to 1000 rows; all but the last hold exactly 1000 |
| Batching.ChunksCount | backend/src/main/java/com/filmer/parser/ActorTSVParser.java:107-121 | n rows give ⌈n/1000⌉ commits |
| Batching.ChunksOf2500 | backend/src/main/java/com/filmer/parser/ActorTSVParser.java:107-121 | 2 500 rows are committed as 1000, 1000 and 500 |
| Batching.ChunksCons | backend/src/main/java/com/filmer/parser/ActorTSVParser.java:107-110 | a full first batch is the first commit of a longer stream |
| Batching.ChunksOfCommitted | backend/src/main/java/com/filmer/parser/ActorTSVParser.java:115-121 | full batches committed at the threshold, then the pending batch if non-empty, are exactly the chunks of the stream |
| Batching.FlattenCons | backend/src/main/java/com/filmer/parser/ActorTSVParser.java:107-110 | concatenating a batch in front of the others puts its rows first |
| Store.UpsertMovie | backend/src/main/java/com/filmer/parser/MovieTSVParser.java:45-48 | the movie upsert sets title and year, keeps an existing director, gives a new movie none, and no other movie changes |
| Store.UpsertMoviesAt | backend/src/main/java/com/filmer/parser/MovieTSVParser.java:45-48 | after a batch, the last row for an id decides its title and year, and its director is the one from before the batch |
| Store.UpsertMoviesIdempotent | backend/src/main/java/com/filmer/parser/MovieTSVParser.java:45-48 | re-running a movie batch on its own result changes nothing |
| Store.UpsertMoviesKeepsDirector | backend/src/main/java/com/filmer/parser/MovieTSVParser.java:46-47 | the loader never sets a director: each stored director is the one from before the batch, or NULL for a new movie |
| Store.UpsertMoviesKeys | backend/src/main/java/com/filmer/parser/MovieTSVParser.java:45-48 | a movie batch removes no movie and stores every id it names |
| Store.UpsertMoviesAppend | backend/src/main/java/com/filmer/parser/MovieTSVParser.java:155-157 | two batches in turn act as their concatenation |
| Store.UpsertStar | backend/src/main/java/com/filmer/parser/ActorTSVParser.java:37-40 | the star upsert overwrites name and birth year, and no other star changes |
| Store.UpsertStarsKeys | backend/src/main/java/com/filmer/parser/ActorTSVParser.java:37-40 | a star batch removes no star and stores every id it names |
| Store.UpsertStarsAppend | backend/src/main/java/com/filmer/parser/ActorTSVParser.java:107-109 | two batches in turn act as their concatenation |
| Store.InsertGenre | backend/src/main/java/com/filmer/parser/MovieTSVParser.java:50-52 | insert-if-absent: the name is afterwards present; a known name is a no-op; no existing name changes id; only the genres table changes; distinct names keep distinct ids |
| Store.InsertLinks | backend/src/main/java/com/filmer/parser/CastTSVParser.java:43-45 | after `ON CONFLICT DO NOTHING` inserts, a link is stored iff it was stored before or was in the batch |
| Store.InsertPresentLinks | backend/src/main/java/com/filmer/parser/MovieTSVParser.java:58-60 | inserting links that are all present already leaves the table unchanged |
| Store.InsertLinksIdempotent | backend/src/main/java/com/filmer/parser/CastTSVParser.java:43-45 | re-inserting a batch of links changes nothing |
| Store.InsertLinksAppend | backend/src/main/java/com/filmer/parser/CastTSVParser.java:128-130 | two link batches in turn act as their concatenation |
| Store.DropIndexes | backend/src/main/java/com/filmer/parser/DataLoader.java:142-158 | none of the three bulk-load indexes is present afterwards, and nothing else changes |
| Store.RestoreIndexes | backend/src/main/java/com/filmer/parser/DataLoader.java:160-180 | all three bulk-load indexes are present afterwards, and nothing else changes |
| Store.RestoreAfterDrop | backend/src/main/java/com/filmer/parser/DataLoader.java:147-167 | the indexes recreated are exactly those dropped: title and year on movies, name on stars |
| Store.Connection.constructor | backend/src/main/java/com/filmer/parser/DataLoader.java:61-66 | a new connection sees the store as it is and has committed nothing |
| Store.Connection.InsertGenreName | backend/src/main/java/com/filmer/parser/MovieTSVParser.java:134-135 | `genreStmt.executeUpdate` applies the genre insert-if-absent at once and commits no batch |
| Store.Connection.SelectGenreId | backend/src/main/java/com/filmer/parser/MovieTSVParser.java:137-140 | the select finds a row iff the name is stored, and then returns its id |
| Store.Connection.CommitMovies | backend/src/main/java/com/filmer/parser/MovieTSVParser.java:155-157 | executing and committing the movie batch upserts its rows in order and logs one movie commit |
| Store.Connection.CommitGenreLinks | backend/src/main/java/com/filmer/parser/MovieTSVParser.java:161-163 | committing genre links requires every link's movie and genre to be stored; it inserts them and logs one link commit |
| Store.Connection.CommitStars | backend/src/main/java/com/filmer/parser/ActorTSVParser.java:107-109 | executing and committing the star batch upserts its rows in order and logs one star commit |
| Store.Connection.CommitCastLinks | backend/src/main/java/com/filmer/parser/CastTSVParser.java:128-130 | committing cast links requires every link's star and movie to be stored; it inserts them and logs one cast commit |
| Store.Connection.DropBulkLoadIndexes | backend/src/main/java/com/filmer/parser/DataLoader.java:142-158 | optimizeDatabaseForLoading drops the three indexes and nothing else |
| Store.Connection.RestoreBulkLoadIndexes | backend/src/main/java/com/filmer/parser/DataLoader.java:160-180 | restoreIndexes recreates the three indexes and nothing else |
| ActorLoader.ClassifyFields | backend/src/main/java/com/filmer/parser/ActorTSVParser.java:65-101 | a line of at least six fields is kept iff primaryProfession contains "actor" or "actress"; the row is (nconst, primaryName, parsed birthYear or absent) |
| ActorLoader.ClassifyShortLine | backend/src/main/java/com/filmer/parser/ActorTSVParser.java:66-71 | a line with fewer than six fields is skipped as malformed |
| ActorLoader.SubstringNotToken | backend/src/main/java/com/filmer/parser/ActorTSVParser.java:79 | the filter is a raw substring test: the profession "reactor" passes it |
| ActorLoader.ActorStepEffect | backend/src/main/java/com/filmer/parser/ActorTSVParser.java:65-113 | a line moves exactly one of actorsProcessed and linesSkipped up by one; a skipped line changes nothing else; a kept line appends one row; the 1000th row commits the batch and resets batchCount; the invariant `batchCount < 1000` holds |
| ActorLoader.FinalCommits | backend/src/main/java/com/filmer/parser/ActorTSVParser.java:115-121 | the threshold commits, then the pending batch if non-empty, are the commits of the chunks of all kept rows |
| ActorLoader.ActorParseEffect | backend/src/main/java/com/filmer/parser/ActorTSVParser.java:43-121 | a whole file: the log gains one star commit per 1000-row chunk of the kept rows; stars holds them upserted in file order and nothing else changes; actorsProcessed counts kept lines and linesSkipped the other data lines |
| ActorLoader.ActorTSVParser.constructor | backend/src/main/java/com/filmer/parser/ActorTSVParser.java:33-41 | a new parser has empty batches and zero counters on the connection's store |
| ActorLoader.ActorTSVParser.Parse | backend/src/main/java/com/filmer/parser/ActorTSVParser.java:43-63 | the read loop skips the first line, processes every other line in order, then finalizes |
| ActorLoader.ActorTSVParser.ProcessLine | backend/src/main/java/com/filmer/parser/ActorTSVParser.java:65-113 | processLine is ActorStep on the parser's fields and the connection, and keeps `batchCount < 1000` |
| ActorLoader.ActorTSVParser.FinalizeParsing | backend/src/main/java/com/filmer/parser/ActorTSVParser.java:115-121 | finalizeParsing commits the pending batch iff batchCount > 0, then closes the statement |
| MovieLoader.ClassifyMovieFields | backend/src/main/java/com/filmer/parser/MovieTSVParser.java:85-126 | a line of at least nine fields is kept iff titleType is exactly "movie" and isAdult is not exactly "1"; the row is (tconst, primaryTitle, parsed startYear or absent) with the genres column |
| MovieLoader.ClassifyMovieShortLine | backend/src/main/java/com/filmer/parser/MovieTSVParser.java:86-91 | a line with fewer than nine fields is skipped as malformed |
| MovieLoader.GenreNames | backend/src/main/java/com/filmer/parser/MovieTSVParser.java:130-133 | at most one genre name per entry, none of them empty |
| MovieLoader.GenreNamesDropTrailing | backend/src/main/java/com/filmer/parser/MovieTSVParser.java:129 | the trailing empty entries that `split(",")` drops yield no genre anyway |
| MovieLoader.GenreNamesOfColumn | backend/src/main/java/com/filmer/parser/MovieTSVParser.java:128-133 | for a column that is neither `\N` nor empty, the genre names are those of its full comma split, trimmed with the empty entries dropped |
| MovieLoader.SplitDramaAction | backend/src/main/java/com/filmer/parser/MovieTSVParser.java:129 | "Drama,Action" splits on the comma into "Drama" and "Action" |
| MovieLoader.TwoGenres | backend/src/main/java/com/filmer/parser/MovieTSVParser.java:128-150 | "Drama,Action" yields the genres Drama then Action, so two links |
| MovieLoader.GenreStepsNames | backend/src/main/java/com/filmer/parser/MovieTSVParser.java:130-136 | after the genre loop every genre name of the line is in the genres table |
| MovieLoader.GenreStepFrame | backend/src/main/java/com/filmer/parser/MovieTSVParser.java:130-148 | one entry: blank changes nothing; otherwise the trimmed name is stored, no other genre is added or renumbered, and the single link appended is (that name's id, the movie) |
| MovieLoader.GenreStepsFrame | backend/src/main/java/com/filmer/parser/MovieTSVParser.java:128-150 | the genre loop of a line appends exactly one link per genre name, in order, for the line's movie, and adds no genre other than those names |
| MovieLoader.ResolveLinks | backend/src/main/java/com/filmer/parser/MovieTSVParser.java:138-145 | a (movie, name) pair of stored names resolves to one link per pair, in order, carrying the name's id |
| MovieLoader.AddMovieEffect | backend/src/main/java/com/filmer/parser/MovieTSVParser.java:117-152 | a kept line buffers its upsert; the genre links it buffers are exactly one per genre name of the line, in order, each the line's movie under that name's stored id; the only new genres are the line's names, and stored genres keep their ids; every pending link still names a buffered movie and a stored genre; genreLinksCreated grows by the line's genre names; no commit happens |
| MovieLoader.MovieStepInv | backend/src/main/java/com/filmer/parser/MovieTSVParser.java:85-169 | processLine keeps `movieBatchCount < 1000`, the counters equal to the buffer lengths, and every pending link attached to a pending movie; a skipped line only bumps linesSkipped |
| MovieLoader.MovieIdsUpserted | backend/src/main/java/com/filmer/parser/MovieTSVParser.java:155-157 | every movie of a committed batch is stored afterwards |
| MovieLoader.CommitBothLog | backend/src/main/java/com/filmer/parser/MovieTSVParser.java:154-168 | the threshold flush logs the movie batch, then the pending links right after it |
| MovieLoader.CommitBothDb | backend/src/main/java/com/filmer/parser/MovieTSVParser.java:154-168 | the threshold flush keeps genres_in_movies referentially sound and resets both buffers and counts |
| MovieLoader.FinishIsFlush | backend/src/main/java/com/filmer/parser/MovieTSVParser.java:171-183 | between lines, finalizeParsing is the threshold flush whenever a movie is pending, and commits nothing otherwise |
| MovieLoader.FinishBuffered | backend/src/main/java/com/filmer/parser/MovieTSVParser.java:171-183 | finalizeParsing completes the movie commits to the chunks of all kept rows |
| MovieLoader.AcceptedGenrePairsNames | backend/src/main/java/com/filmer/parser/MovieTSVParser.java:128-150 | the (movie, genre name) pairs of a file carry, in order, exactly the genre names of its kept lines |
| MovieLoader.LinkedSteps | backend/src/main/java/com/filmer/parser/MovieTSVParser.java:63-169 | across the read loop, stored plus pending genre links are always the old links plus the pairs seen so far, resolved against the current genres |
| MovieLoader.MovieParseGenres | backend/src/main/java/com/filmer/parser/MovieTSVParser.java:63-189 | from any store, a whole file leaves exactly the old genres plus the names seen, renumbers none, and inserts into genres_in_movies exactly the file's (movie, genre) pairs under their ids |
| MovieLoader.MovieParseEffect | backend/src/main/java/com/filmer/parser/MovieTSVParser.java:63-183 | a whole file: the movie commits are the 1000-row chunks of the kept rows; each genre-link commit directly follows a movie commit; every stored link names a stored movie and genre; the genres table holds exactly the old genres and the names seen, none renumbered; genres_in_movies is the old table with one link per (kept movie, genre name) pair added, each under that name's id; stars, cast links and indexes are untouched; the three counters count kept lines, other data lines and genre names; both buffers end empty |
| MovieLoader.MovieTSVParser.constructor | backend/src/main/java/com/filmer/parser/MovieTSVParser.java:41-61 | a new parser has empty batches and zero counters on the connection's store |
| MovieLoader.MovieTSVParser.Parse | backend/src/main/java/com/filmer/parser/MovieTSVParser.java:63-83 | the read loop skips the first line, processes every other line in order, then finalizes |
| MovieLoader.MovieTSVParser.ProcessLine | backend/src/main/java/com/filmer/parser/MovieTSVParser.java:85-169 | processLine is MovieStep on the parser's fields and the connection, and keeps the parser invariant |
| MovieLoader.MovieTSVParser.KeepMovie | backend/src/main/java/com/filmer/parser/MovieTSVParser.java:117-168 | a kept line: buffer the upsert, run the genre loop, count the movie, flush both batches at the threshold |
| MovieLoader.MovieTSVParser.AddGenres | backend/src/main/java/com/filmer/parser/MovieTSVParser.java:128-150 | the `for` loop over the comma-split entries is GenreSteps over them, whose links and genres GenreStepsFrame states |
| MovieLoader.MovieTSVParser.AddGenre | backend/src/main/java/com/filmer/parser/MovieTSVParser.java:130-148 | one entry: trim; a blank entry changes nothing; otherwise the name is stored (an existing one keeps its id), exactly the link (its id, tconst) is appended to the batch, and genreMovieBatchCount and genreLinksCreated go up by one |
| MovieLoader.MovieTSVParser.FlushBoth | backend/src/main/java/com/filmer/parser/MovieTSVParser.java:154-168 | the movie batch is committed first, then the links if any, and both counts reset |
| MovieLoader.MovieTSVParser.FinalizeParsing | backend/src/main/java/com/filmer/parser/MovieTSVParser.java:171-189 | remaining movies first, then remaining links, each only if its count is positive; both counts end at 0 |
| CastLoader.ClassifyCastFields | backend/src/main/java/com/filmer/parser/CastTSVParser.java:90-125 | a line of at least four fields gives a link iff category is exactly "actor" or "actress", tconst is a known movie and nconst a known star; the link is (nconst, tconst); a kept category with an unknown id is a dangling reference and is skipped |
| CastLoader.ClassifyCastShortLine | backend/src/main/java/com/filmer/parser/CastTSVParser.java:91-96 | a line with fewer than four fields is skipped as malformed |
| CastLoader.ClassifiedLinkKnown | backend/src/main/java/com/filmer/parser/CastTSVParser.java:109-125 | every link a line yields has its movie and star in the preloaded sets |
| CastLoader.CategoryIsExact | backend/src/main/java/com/filmer/parser/CastTSVParser.java:103-106 | the category test is equality: "reactor" passes the actor loader's profession test but not this one |
| CastLoader.AcceptedLinksKnown | backend/src/main/java/com/filmer/parser/CastTSVParser.java:109-125 | every link of a whole stream names a preloaded star and movie |
| CastLoader.FinalCommits | backend/src/main/java/com/filmer/parser/CastTSVParser.java:136-142 | the threshold commits, then the pending batch if non-empty, are the commits of the chunks of all links |
| CastLoader.CastParseEffect | backend/src/main/java/com/filmer/parser/CastTSVParser.java:68-142 | a whole file: the id sets are the store's ids when the parser was built; the log gains one cast commit per 1000-link chunk; stars_in_movies gains exactly those links and nothing else changes; every link names a stored star and movie; linksCreated counts kept lines and linesSkipped the rest |
| CastLoader.DuplicateCredit | backend/src/main/java/com/filmer/parser/CastTSVParser.java:120-125 | linksCreated counts buffered rows: a credit repeated twice counts 2 while the table gains one link |
| CastLoader.LoadExistingIds | backend/src/main/java/com/filmer/parser/CastTSVParser.java:57-66 | the `while (rs.next())` loop collects exactly the table's ids |
| CastLoader.CastTSVParser.constructor | backend/src/main/java/com/filmer/parser/CastTSVParser.java:39-55 | the parser starts with empty batches and zero counters, and the id sets are exactly the movie and star ids stored at that moment |
| CastLoader.CastTSVParser.Parse | backend/src/main/java/com/filmer/parser/CastTSVParser.java:68-88 | the read loop skips the first line, processes every other line in order, then finalizes |
| CastLoader.CastTSVParser.ProcessLine | backend/src/main/java/com/filmer/parser/CastTSVParser.java:90-134 | processLine is CastStep on the parser's fields and the connection, and keeps the parser invariant: pending links are all known ids, and `batchCount < 1000` |
| CastLoader.CastTSVParser.FinalizeParsing | backend/src/main/java/com/filmer/parser/CastTSVParser.java:136-142 | finalizeParsing commits the pending batch iff batchCount > 0, then closes the statement |
| DataLoader.VerifyData | backend/src/main/java/com/filmer/parser/DataLoader.java:182-230 | the report counts movies and stars, the distinct genre ids used by links, the distinct movies that have a genre link and those that have a cast link, and warns iff fewer than 10 000 movies are stored |
| DataLoader.ReportBounds | backend/src/main/java/com/filmer/parser/DataLoader.java:206-226 | when both foreign keys hold, movies with genres or with cast are at most the movies counted, and genres used at most the stored genre ids |
| DataLoader.ExitedStays | backend/src/main/java/com/filmer/parser/DataLoader.java:134-139 | once the run has exited, no later stage changes anything |
| DataLoader.RunStagesAppend | backend/src/main/java/com/filmer/parser/DataLoader.java:61-133 | running two lists of stages one after the other is running their concatenation |
| DataLoader.ActorStage | backend/src/main/java/com/filmer/parser/DataLoader.java:73-81 | a new ActorTSVParser parses the actors file against the connection |
| DataLoader.MovieStage | backend/src/main/java/com/filmer/parser/DataLoader.java:89-98 | a new MovieTSVParser parses the movies file against the connection |
| DataLoader.CastStage | backend/src/main/java/com/filmer/parser/DataLoader.java:106-114 | a CastTSVParser built at this point preloads the ids then stored and parses the cast file |
| DataLoader.LoadFiles | backend/src/main/java/com/filmer/parser/DataLoader.java:71-118 | the three file stages as main runs them: optional actors, mandatory movies, optional cast |
| DataLoader.RestoreAndVerify | backend/src/main/java/com/filmer/parser/DataLoader.java:120-124 | restoreIndexes then verifyData |
| DataLoader.Connected | backend/src/main/java/com/filmer/parser/DataLoader.java:61-139 | the try block from getConnection to verifyData, an exception in any stage giving exit code 1 |
| DataLoader.Run | backend/src/main/java/com/filmer/parser/DataLoader.java:32-140 | main's outcome (exit code, completed stages, report, store) is the stage fold RunSpec |
| DataLoader.PipelineSplit | backend/src/main/java/com/filmer/parser/DataLoader.java:61-124 | with credentials, a run is the opening stages, then the file stages, then the closing stages |
| DataLoader.OpeningStages | backend/src/main/java/com/filmer/parser/DataLoader.java:61-69 | connecting and dropping the indexes leaves the store with the bulk-load indexes removed and nothing committed |
| DataLoader.OpeningFault | backend/src/main/java/com/filmer/parser/DataLoader.java:61-69 | a throw while connecting or dropping indexes exits with 1 before the store changes |
| DataLoader.MissingCredentials | backend/src/main/java/com/filmer/parser/DataLoader.java:40-57 | if DB_URL, DB_USER or DB_PASSWORD is missing, exit code 1, no stage run and the store untouched |
| DataLoader.ActorStageEffect | backend/src/main/java/com/filmer/parser/DataLoader.java:72-85 | the actors stage is skipped without its file; otherwise it upserts the kept stars and logs their chunks |
| DataLoader.MovieStageEffect | backend/src/main/java/com/filmer/parser/DataLoader.java:88-98 | the movies stage upserts the kept movies in 1000-row commits; the genres table gains exactly the genre names of the kept lines, renumbering none; genres_in_movies gains one link per (kept movie, genre name) pair under that name's id; stars, cast and indexes are left alone and both foreign keys kept |
| DataLoader.CastStageEffect | backend/src/main/java/com/filmer/parser/DataLoader.java:105-118 | the cast stage is skipped without its file; otherwise it inserts the links checked against the ids stored when it starts, all of which are stored |
| DataLoader.NoMovieCommits | backend/src/main/java/com/filmer/parser/DataLoader.java:71-118 | star and cast commits add no movie batch to the log |
| DataLoader.NoGenreLinkCommits | backend/src/main/java/com/filmer/parser/DataLoader.java:71-118 | star and cast commits keep every genre-link commit right after a movie commit |
| DataLoader.ActorStageSound | backend/src/main/java/com/filmer/parser/DataLoader.java:72-81 | loading actors leaves movies and movie commits alone, removes no star, and keeps both foreign keys |
| DataLoader.CastStageSound | backend/src/main/java/com/filmer/parser/DataLoader.java:105-114 | loading the cast keeps both foreign keys |
| DataLoader.FileStagesUnroll | backend/src/main/java/com/filmer/parser/DataLoader.java:71-118 | the file stages are actors, then movies, then cast |
| DataLoader.FileStagesEffect | backend/src/main/java/com/filmer/parser/DataLoader.java:71-118 | with the movies file and no fault, stars come from the actors file if present and movies from the movies file; the genres and genres_in_movies tables gain exactly the movies file's genre names and (movie, genre) pairs; cast links come from the cast file if present, checked against the ids left by both earlier stages |
| DataLoader.FileStagesSound | backend/src/main/java/com/filmer/parser/DataLoader.java:71-118 | the file stages commit the movies in 1000-row chunks, each genre-link batch right after a movie batch, and keep both foreign keys |
| DataLoader.ClosingStagesEffect | backend/src/main/java/com/filmer/parser/DataLoader.java:120-124 | the closing stages recreate the indexes, then report on the restored store |
| DataLoader.SuccessfulRun | backend/src/main/java/com/filmer/parser/DataLoader.java:61-133 | with credentials, the movies file and no exception: exit 0; the stages in main's order, each optional stage present iff its file exists; a report on the final store, whose warning is not fatal; the indexes recreated; movies, stars, genres, genre links and cast links as the files make them |
| DataLoader.SuccessfulRunSound | backend/src/main/java/com/filmer/parser/DataLoader.java:61-133 | a successful run from a store with sound foreign keys keeps them, and commits the movies in 1000-row chunks, each genre-link batch right after a movie batch |
| DataLoader.MissingMovies | backend/src/main/java/com/filmer/parser/DataLoader.java:88-102 | without the movies file: exit 1 right after the actors stage; no cast, restore or verify; the indexes stay dropped; committed stars stay |
| DataLoader.IndexesKeepSound | backend/src/main/java/com/filmer/parser/DataLoader.java:142-180 | dropping or creating indexes does not touch the foreign keys |
| DataLoader.PipelineIndexes | backend/src/main/java/com/filmer/parser/DataLoader.java:61-124 | the pipeline lists the seven stages in main's order |
| DataLoader.PipelinePrefix | backend/src/main/java/com/filmer/parser/DataLoader.java:61-124 | the stages before any stage are in order and do not include verifyData |
| DataLoader.RunStagesInOrder | backend/src/main/java/com/filmer/parser/DataLoader.java:61-124 | running ordered stages extends the trace with some of them, in order; the report is untouched unless Verify runs |
| DataLoader.TraceInOrder | backend/src/main/java/com/filmer/parser/DataLoader.java:69-124 | whatever happens, the stages a run completes follow main's order, each at most once |
| DataLoader.RunStagesAt | backend/src/main/java/com/filmer/parser/DataLoader.java:61-124 | a run splits at any stage into the stages before it, it, and the rest |
| DataLoader.ThrowingStage | backend/src/main/java/com/filmer/parser/DataLoader.java:134-139 | a throwing stage that is not skipped sets exit code 1 and completes nothing |
| DataLoader.ThrowStops | backend/src/main/java/com/filmer/parser/DataLoader.java:134-139 | after a throw, only stages before the thrower have completed, and the run has exited with 1 |
| DataLoader.ExitCodeIsOne | backend/src/main/java/com/filmer/parser/DataLoader.java:101-138 | from a running or failed state, later stages can only leave the run going or exit it with code 1 |
| DataLoader.RunSpecRuns | backend/src/main/java/com/filmer/parser/DataLoader.java:61-139 | with credentials, main is the pipeline followed by a normal return |
| DataLoader.FaultIsFatal | backend/src/main/java/com/filmer/parser/DataLoader.java:134-139 | an exception in any stage that runs gives exit 1 and no report, and every stage that completed comes strictly before the throwing one |
| DataLoader.StagesBefore | backend/src/main/java/com/filmer/parser/DataLoader.java:61-124 | stages among the first k of the pipeline have index below k |

## Left out

- Reading the files: GZIP decompression, `BufferedReader` and UTF-8 decoding. A file is given as its sequence of decoded lines, and "the file exists" means its path is a key of the file map.
- JDBC machinery: prepared statements, result sets and closing. Each `executeBatch` followed by `commit` is one atomic step that applies the batch to the store.
- Partial effects of a failing stage. A stage that throws (`fault`) is modelled as throwing before it changes the store. Rows committed by earlier batches of that stage, and the rollback JDBC performs on close, are not modelled.
- Which statement of a stage throws is not modelled. A fault names only the stage.
- Console output, the `Instant`/`Duration` timing and `printStackTrace`. `System.exit(n)` is a returned exit code.
- `ANALYZE` statements. They only refresh planner statistics, so the index restore models just the recreated index set.
- Actual serial values of `genres.id`. The store hands out fresh, distinct ids from a counter; the real sequence numbering is not modelled.
- `Integer.parseInt` accepts the non-ASCII Unicode digits that `Character.digit` recognises. The model accepts ASCII digits only.
- UTF-16 code units. A Dafny `char` is a Unicode scalar value, while a Java `String` is a sequence of UTF-16 code units, so a character outside the Basic Multilingual Plane is one `char` here and two code units in Java. The tab, comma and the blanks that `trim` strips are single code units, so splitting and trimming agree on every string.
- `moviesProcessed`, `linesSkipped` and the other counters are Java `int`s. The model uses unbounded integers, so overflow beyond 2^31 - 1 lines is not modelled.
- `genreSelectStmt` always finds the genre right after the insert-if-absent. The branch where `rs.next()` is false is modelled (GenreStep leaves the link out) but can never be taken.
- The database schema's foreign keys appear only as requirements of `Connection.CommitGenreLinks` and `Connection.CommitCastLinks` and as the `StoreSound` hypothesis of the whole-run lemmas. The store's own enforcement and the errors it would raise are not modelled.
- DataLoader.SuccessfulRun: requires the initial store to satisfy the foreign keys (`StoreSound`), which the schema guarantees. The movie loader's whole-file lemma depends on that fact.
- MovieLoader.MovieParseEffect: requires genres_in_movies to satisfy its foreign keys (`GenreLinksSound`) on entry, as the schema guarantees; `MovieLoader.MovieParseGenres` states the genre tables' contents without that hypothesis.
- DataLoader.MovieStageEffect: requires the `StoreSound` hypothesis, for the same reason as MovieParseEffect.
- DataLoader.FileStagesEffect: requires the `StoreSound` hypothesis, for the same reason as MovieParseEffect.
- DataLoader.FileStagesSound: requires the `StoreSound` hypothesis, since it states that the foreign keys are kept.
- DataLoader.SuccessfulRunSound: requires the same `StoreSound` hypothesis as SuccessfulRun.
- `CastOnlyLoader` is not part of this model. It is an environment check followed by one CastTSVParser run, and both are covered here.
- ActorLoader.ActorTSVParser.FinalizeParsing and CastLoader.CastTSVParser.FinalizeParsing leave `batchCount` as it was after the final commit, as the Java does. Only the movie loader resets its counts in `finalizeParsing`.
