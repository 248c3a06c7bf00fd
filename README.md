# Sparkify star-schema loaders in Dafny

Sparkify is a pretend music-streaming start-up. Its data is two kinds of JSON
files:

- song files: one record per song, carrying the song and its artist;
- log files: one record per page view of the app, carrying the user, the
  session, and the song being played.

Two Python programs reshape these files into a star schema:

- a fact table `songplays`;
- the dimension tables `songs`, `artists`, `users` and `time`.

This project models both programs over records that are already parsed, and
proves what they promise.

- `sparkify_app.py` is the dashboard. It builds the five tables in memory with
  pandas:
  - `process_song_file` and `process_log_file` reshape one file;
  - `load_data` accumulates the tables over every file;
  - the three charts count plays per listener, per subscription level and
    per gender.
- `etl.py` is the database loader. It replays the same files as insert
  statements on one cursor:
  - the song and artist ids of each songplay are looked up in the database;
  - `process_data` commits after every file.

## Layout

| file | module | contents |
|---|---|---|
| `frames.dfy` | `Frames` | The pandas operations the programs use, on sequences of rows. These are concatenation, boolean-mask selection, `drop_duplicates(keep='first')`, the left merge, `groupby().count()`, the descending sort by count, and `values[:n]`. `Frame` tells `pd.DataFrame()` (no columns yet) apart from a frame with columns. |
| `records.dfy` | `Records` | The parsed song and log records and the star-schema rows. It also holds the two steps both loaders share before building any row: keeping the `NextSong` page views, and `int()` on each `userId`. |
| `sparkify_app.dfy` | `SparkifyApp` | The dashboard pipeline. `BuildSongplays` (the `iterrows` loop), `LoadSongs` and `LoadLogs` (the two loops of `load_data`) are methods with loops, as in the source. `ProcessLogFile` and `LoadData` are methods that call them. The chart aggregations are functions with lemmas. |
| `etl.dfy` | `Etl` | The `Connection` class. The statement sequence each file executes is given as specification functions. `ProcessSongFile`, `ProcessLogFile` and `ProcessData` are the imperative loaders, proved against those functions. |

### How the model represents the source

- Times and floats are opaque:
  - a Python float is an opaque type `Float` that is only compared for
    equality;
  - the local clock is a `Clock` value passed in as a parameter. It maps
    `ts` to a naive local `DateTime`, and a `DateTime` to its hour, day,
    ISO week, month, year and weekday.
- A raised exception is an `Err` result (`Fail` for the database loader)
  carrying the error. The errors are:
  - `KeyError` on a missing column;
  - `ValueError` from `int()`;
  - the `AttributeError` raised by the `.dt` accessor.
- The cursor of `etl.py` is a `Connection` object that records three things:
  - every statement executed, in order;
  - how many of them the last commit made durable;
  - how many commits there have been.
- The database's answer to the song lookup is a `lookup` function. It maps
  the statements executed so far, with the select last, to the first row
  found.

### Behaviour of the code worth knowing

- An empty input raises; it does not give empty tables.
  - A file with no records gives pandas a frame without columns, so
    `df['page']` (or the song column selection) raises `KeyError`.
  - A log file whose events include no `NextSong` page view leaves the empty
    `ts_datetime` column at the integer type of `ts`, so `t.dt` raises.

  Both loaders therefore stop on such a file (`Records.Plays`,
  `SparkifyApp.ProcessSongFile`, `Etl.SongFileStatements`).
- The dashboard keeps a user's first record, within a file and across files:
  - `drop_duplicates(keep='first')` applies within a file;
  - applied again after each file, it keeps the earliest file's record.

  `SparkifyApp.LoadedUsersUnique` and
  `SparkifyApp.LaterFileNeverOverridesUser` state this. The database loader
  does not de-duplicate users at all; it inserts one user row per play.

## Model

| member | source | states |
|---|---|---|
| Frames.Concat | sparkify_app.py:181-182 | `pd.concat` appends the second frame's rows after the first's; the result has columns unless both inputs lack them |
| Frames.Filter | sparkify_app.py:80 | mask selection keeps exactly the rows satisfying the mask: every kept row is from the input and satisfies it, and every input row that satisfies it is kept |
| Frames.FilterAppend | sparkify_app.py:80 | mask selection distributes over concatenation, so the rows are kept in input order |
| Frames.FilterAll | sparkify_app.py:80 | selecting with a mask every row satisfies changes nothing: a file of `NextSong` events only is kept whole |
| Frames.FilterNone | etl.py:51 | selecting with a mask no row satisfies gives no rows: a file without `NextSong` events keeps nothing |
| Frames.Flatten | sparkify_app.py:179-188 | the concatenation of the per-file frames in file order, specified by `FlattenLength` and used by `LoadSongs` and `LoadLogs` |
| Frames.FlattenLength | sparkify_app.py:179-188 | concatenating the per-file frames gives as many rows as the files have together |
| Frames.DedupFrom | sparkify_app.py:187 | `drop_duplicates` against keys already taken, specified by `DedupFromSpec` and `DedupTwice` |
| Frames.DedupFirst | sparkify_app.py:100 | specified by `DedupFromSpec`, `DedupAppend` and `DedupAccumulate` below |
| Frames.DedupFromSpec | sparkify_app.py:100 | `drop_duplicates(subset, keep='first')` leaves no key twice, keeps every key of the input, and keeps for each key the first row carrying it |
| Frames.DedupAppend | sparkify_app.py:187 | de-duplicating a concatenation keeps the first part's survivors, followed by the second part's rows whose keys the first part lacks |
| Frames.DedupTwice | sparkify_app.py:187 | de-duplicating twice is de-duplicating once against both sets of keys already taken |
| Frames.DedupAccumulate | sparkify_app.py:187 | de-duplicating each file and then the concatenation equals de-duplicating all rows at once |
| Frames.EarlierRowsKept | sparkify_app.py:187 | adding rows never changes the rows already kept: the old table is a prefix of the new one, and the new one only adds keys the old input lacked |
| Frames.Matching | sparkify_app.py:103 | the right rows a left row joins to are exactly those with an equal key |
| Frames.MatchingAppend | sparkify_app.py:103 | the matches of a left row against a concatenated right side are its matches in each part, in order |
| Frames.JoinRow | sparkify_app.py:103 | the merge of one left row, specified by `JoinRowSpec` |
| Frames.JoinRowSpec | sparkify_app.py:103 | one left row gives exactly one unmatched row when nothing matches; otherwise one row per matching right row, in the right side's order and with its multiplicity |
| Frames.LeftJoin | sparkify_app.py:103 | specified by `LeftJoinSpec`, `LeftJoinAppend` and `LeftJoinByRow` |
| Frames.LeftJoinAppend | sparkify_app.py:103 | the merge of concatenated left sides is the concatenation of the merges, so left rows keep their order |
| Frames.LeftJoinByRow | sparkify_app.py:103 | the merge is each left row's joined rows, concatenated in left order |
| Frames.LeftJoinSpec | sparkify_app.py:103 | the left merge keeps every left row. It pairs it with every right row with the same key, or with nothing exactly when no right row has that key |
| Frames.NoMatching | sparkify_app.py:103 | a left row whose key no right row has matches nothing |
| Frames.MatchingAtMostOne | sparkify_app.py:215 | against a right side with unique keys, a left row matches at most one row |
| Frames.LeftJoinUniqueRight | sparkify_app.py:215 | a left merge against a right side with unique keys has one row per left row, in order |
| Frames.Count | sparkify_app.py:217 | the count of a key is at most the number of rows, and positive exactly when the key occurs |
| Frames.Without | sparkify_app.py:217 | removing one key keeps every other key with its count |
| Frames.GroupCount | sparkify_app.py:217 | specified by `GroupCountSpec` |
| Frames.GroupCountSpec | sparkify_app.py:217 | `groupby().count()` gives one pair per distinct key, each with its number of occurrences; the counts add up to the number of rows counted |
| Frames.SortByCount | sparkify_app.py:217 | specified by `SortByCountSpec` |
| Frames.SortByCountSpec | sparkify_app.py:217 | the descending sort by count is a permutation of its input, ordered by count descending, with the same total and still distinct keys |
| Frames.Top | sparkify_app.py:219 | `values[:n]` is the first `n` entries, or all of them when there are fewer |
| Records.SongRowOf | sparkify_app.py:52-54 | the song and artist projections pass every value through unchanged: together they give back the whole record, and both carry the record's artist id |
| Records.ArtistRowOf | sparkify_app.py:54 | its artist id is the record's; the rest is specified by `SongRowOf` |
| Records.ParseUserId | sparkify_app.py:82 | specified by `UserIdRoundTrip` and `ToPlays` |
| Records.DigitsRoundTrip | sparkify_app.py:82 | reading back the decimal text of a natural number gives that number |
| Records.UserIdRoundTrip | sparkify_app.py:82 | `int()` reads back the decimal text of every integer id, and refuses the empty id |
| Records.ToPlays | sparkify_app.py:82 | `userId` is converted event by event, in order. On success every event's id parsed and the play carries it; otherwise some event's id is not an integer and its text is the error |
| Records.NextSong | sparkify_app.py:80 | specified by `PlaysSpec` and `OtherPagesIgnored` |
| Records.Plays | sparkify_app.py:77-95 | specified by `PlaysSpec` |
| Records.PlaysSpec | sparkify_app.py:77-95 | a log file loads exactly when it has a `NextSong` event and every such event's id is an integer. Its plays are then its `NextSong` events, in order, with integer ids |
| Records.ToPlaysOk | etl.py:53 | when every retained id is an integer, the conversion succeeds |
| Records.OtherPagesIgnored | sparkify_app.py:80 | a page view of any other page, inserted anywhere in a non-empty file, changes nothing the file yields |
| Records.SongRows | sparkify_app.py:52 | one song row per record, in order, each the record's `SongRowOf` |
| Records.ArtistRows | sparkify_app.py:54 | one artist row per record, in order, each the record's `ArtistRowOf` |
| Records.UserRows | etl.py:74 | one user row per play, in order and duplicates included; the dashboard then de-duplicates them (`DedupFirst`, sparkify_app.py:100) |
| Records.SongplayOf | sparkify_app.py:113-122 | a songplay's fields: local time of `ts`, user id, level, the given song and artist ids, session, location and user agent; the database loader builds the same tuple (etl.py:93, `Etl.PlayStatementsShape`) |
| Records.TimeRows | sparkify_app.py:88-97 | one time row per play, in order, each built from that play's timestamp; `TimeRowsAppend` shows it distributes over concatenation |
| SparkifyApp.ProcessSongFile | sparkify_app.py:50-56 | a song file yields one song row and one artist row per record, with the record's values unchanged. A file without records raises |
| SparkifyApp.SongArtist | sparkify_app.py:103 | the left merge of songs with artists on `artist_id`, specified by `Frames.LeftJoinSpec` |
| SparkifyApp.Hits | sparkify_app.py:110 | the mask on (title, artist name, duration) selects exactly the joined rows that match the event |
| SparkifyApp.ResolveIds | sparkify_app.py:110-118 | both ids are 'None' exactly when no joined row matches the event's song, artist and length. Otherwise both lists have one entry per matching row; which pairs they hold is stated by `ResolveIdsPairs` |
| SparkifyApp.ResolveIdsPairs | sparkify_app.py:110-118 | when the event resolves, each entry pairs the song id and artist id of one matching joined row, and every matching row's pair is listed |
| SparkifyApp.RowMatches | sparkify_app.py:110 | the mask: title, artist name and duration all equal the event's; a song without an artist never matches. Used by `Hits` and `ResolveIds` |
| SparkifyApp.PlayRowOf | sparkify_app.py:113-122 | the songplay row of one event, built by `Records.SongplayOf` from the ids `ResolveIds` gives |
| SparkifyApp.PlayRows | sparkify_app.py:106-123 | one songplay row per play, in order, each `PlayRowOf` that play; computed by `BuildSongplays` and split by `PlayRowsAppend` |
| SparkifyApp.BuildSongplays | sparkify_app.py:106-123 | exactly one songplay row per retained event, in input order, each built from its event and resolved ids, whether or not the lookup matched |
| SparkifyApp.ProcessLogFile | sparkify_app.py:77-125 | conversion errors propagate, and a column-less song or artist table cannot be merged. On success: one time row per play in order; users de-duplicated on `userId`, first kept; one songplay per play resolved against the left merge of songs and artists |
| SparkifyApp.AllPlays | sparkify_app.py:184-185 | every log file loads exactly when each one's conversion succeeds, and the plays are each file's own, in file order |
| SparkifyApp.AllPlaysSnoc | sparkify_app.py:184-188 | loading one more file appends its plays |
| SparkifyApp.SongRowsAppend | sparkify_app.py:181-182 | projecting the concatenated records equals concatenating the projections |
| SparkifyApp.UserRowsAppend | sparkify_app.py:187 | the user rows of two runs of plays are the concatenation of each run's |
| SparkifyApp.TimeRowsAppend | sparkify_app.py:186 | the time rows of concatenated plays are the concatenation of each part's |
| SparkifyApp.PlayRowsAppend | sparkify_app.py:188 | the songplays of concatenated plays are the concatenation of each part's |
| SparkifyApp.LoadSongs | sparkify_app.py:179-182 | the songs and artists tables are every song file's rows, concatenated in file order. Loading fails exactly when some song file is empty |
| SparkifyApp.AddLogFile | sparkify_app.py:186-188 | specified by `AddLogFileSpec` |
| SparkifyApp.AddLogFileSpec | sparkify_app.py:185-188 | one pass of the log loop keeps the accumulators equal to the time rows, the first-kept users and the songplays of all plays so far |
| SparkifyApp.LoadLogs | sparkify_app.py:184-188 | the time and songplay tables are concatenations over the log files, and the users are de-duplicated across files, the earliest kept. It fails exactly when some file raises, or when songs or artists have no columns and a log file exists |
| SparkifyApp.LoadData | sparkify_app.py:168-190 | the whole load succeeds exactly when every song file has records and, if there are log files, there are song files and every log file loads. The five tables are then as described for `LoadSongs` and `LoadLogs` |
| SparkifyApp.LoadedSongsConcatenate | sparkify_app.py:179-182 | the songs table has as many rows as the song files have records together |
| SparkifyApp.LoadedUsersUnique | sparkify_app.py:187 | the loaded users table has no id twice and has every id of a retained event. Each row is the first row, over all files in order, that carries its id |
| SparkifyApp.LaterFileNeverOverridesUser | sparkify_app.py:187 | loading a further log file keeps the earlier users table as a prefix and only adds ids not seen before |
| SparkifyApp.Listeners | sparkify_app.py:215 | specified by `ListenersAllJoined` |
| SparkifyApp.Names | sparkify_app.py:216 | specified by `NamesWhenAllJoined` and `TopListenersSpec` |
| SparkifyApp.Genders | sparkify_app.py:239 | specified by `PlaysByGenderSpec` |
| SparkifyApp.TopListeners | sparkify_app.py:217 | specified by `TopListenersSpec` |
| SparkifyApp.TopListenersChart | sparkify_app.py:219 | specified by `TopListenersChartSpec` |
| SparkifyApp.PlaysByLevel | sparkify_app.py:228 | specified by `PlaysByLevelSpec` |
| SparkifyApp.PlaysByGender | sparkify_app.py:239-240 | specified by `PlaysByGenderSpec` |
| SparkifyApp.FullName | sparkify_app.py:216 | a listener's name is the first name, a space and the last name |
| SparkifyApp.GenderLabel | sparkify_app.py:240 | the label is 'Female' exactly when the code is 'F', and 'Male' otherwise |
| SparkifyApp.Levels | sparkify_app.py:228 | the level column has one entry per merged row, the level its songplay was recorded with |
| SparkifyApp.Labelled | sparkify_app.py:240 | labelling keeps every bar and its count and replaces only the gender code |
| SparkifyApp.RankingSpec | sparkify_app.py:217 | grouping, counting and sorting a column gives a ranking. It is descending by count, one entry per distinct value, each entry's count is its number of occurrences, and the counts sum to the rows counted |
| SparkifyApp.TopListenersSpec | sparkify_app.py:215-217 | the per-name counts are a ranking of the listener names, and they sum to the number of merged rows that carry a user; that is one per songplay once user ids are unique (`EveryPlayFindsItsUser`) |
| SparkifyApp.TopListenersChartSpec | sparkify_app.py:219 | the chart shows at most ten listeners, the leading ones of the ranking, and no listener left out has more plays than one shown |
| SparkifyApp.PlaysByLevelSpec | sparkify_app.py:228 | the per-level counts are a ranking of the songplays' levels and sum to the number of merged rows, one per songplay once user ids are unique |
| SparkifyApp.PlaysByGenderSpec | sparkify_app.py:239-240 | the per-gender counts are a ranking of the gender codes. Each bar keeps its count and is labelled 'Female' exactly when its code is 'F' |
| SparkifyApp.NamesWhenAllJoined | sparkify_app.py:216 | when every songplay found its user, there is one name per songplay |
| SparkifyApp.ListenersAllJoined | sparkify_app.py:215 | merging songplays with a users table that has each id once, and every id of the songplays, gives one row per songplay, in order, paired with the user of its id |
| SparkifyApp.EveryPlayFindsItsUser | sparkify_app.py:215-217 | after a load, merging songplays with users gives exactly one row per songplay, with the user of that id, so the per-name counts sum to the number of songplays |
| SparkifyApp.Dashboard | sparkify_app.py:215-240 | the charts can be drawn exactly when the songplays and users tables have columns; the top-listeners chart then has at most ten bars |
| Etl.Connection.constructor | etl.py:143 | a fresh cursor has executed and committed nothing |
| Etl.Connection.Execute | etl.py:27 | executing appends the statement to the open transaction and commits nothing |
| Etl.Connection.FetchOne | etl.py:85 | `fetchone` answers from the statements executed so far |
| Etl.Connection.Commit | etl.py:126 | a commit makes everything executed so far durable and counts one commit |
| Etl.SongFileStatements | etl.py:23-31 | a song file executes one song insert, then one artist insert, both projected from its first record, which they give back whole, the two agreeing on the artist id. A file without records raises |
| Etl.TimeInserts | etl.py:70-71 | one time insert per play, in order, each of that play's time row; specified further by `InsertFilters` and `ExecuteTimeInserts` |
| Etl.UserInserts | etl.py:74-78 | one user insert per play, in order, duplicates included; specified further by `InsertFilters` and `ExecuteUserInserts` |
| Etl.IdsOf | etl.py:87-90 | both ids are `None` exactly when `fetchone` found no row, and otherwise they are the returned pair |
| Etl.PlayStatements | etl.py:81-94 | the songplay loop executes two statements per play |
| Etl.RetainedStatements | etl.py:70-94 | a log file that loads executes four statements per retained play |
| Etl.LogFileStatements | etl.py:48-94 | a log file raises exactly when its conversion raises, with the same error, and then executes nothing |
| Etl.PlayStatementsShape | etl.py:81-94 | for play `i`, in order: the select for its (song, artist, length), then a songplay insert built from that play. Its ids are `None` exactly when the lookup after that select found nothing, and otherwise the looked-up pair |
| Etl.PlayStatementsCounts | etl.py:81-94 | the songplay loop issues exactly one select and one songplay insert per play, whether or not the lookup succeeds |
| Etl.InsertFilters | etl.py:70-78 | the time and user insert loops issue only time and user inserts |
| Etl.LogFileCounts | etl.py:70-94 | per retained play exactly one time insert and one user insert, in play order, with users not de-duplicated; also one select and one songplay insert per play |
| Etl.LogFileIgnoresOtherPages | etl.py:51 | a page view of any other page, anywhere in a non-empty log file, changes nothing that is executed |
| Etl.ProcessSongFile | etl.py:10-31 | executes exactly the song file's statements, or nothing when it raises; commits nothing |
| Etl.ProcessLogFile | etl.py:34-94 | executes exactly the log file's statements, or nothing when it raises; commits nothing |
| Etl.ExecuteRetained | etl.py:70-94 | the three loops execute the time inserts, then the user inserts, then the songplay loop |
| Etl.ExecuteTimeInserts | etl.py:70-71 | executes one time insert per play, in order |
| Etl.ExecuteUserInserts | etl.py:74-78 | executes one user insert per play, in order, duplicates included |
| Etl.ExecuteSongplays | etl.py:81-94 | per play, executes the select, fetches one row and executes the songplay insert with the ids found or `None` |
| Etl.FileStatements | etl.py:125 | a file loads exactly when its records or events load, whatever the database holds |
| Etl.ProcessFile | etl.py:125 | `func(cur, datafile)` executes exactly that file's statements, or nothing when it raises |
| Etl.Batch | etl.py:124-127 | a run never processes more files than it was given |
| Etl.FileLoader | etl.py:125 | the `func` handed to `process_data` loads a file exactly when the file's records or events load, whatever was executed before |
| Etl.BatchProcessedLoaded | etl.py:124-127 | for any loader whose success depends on the file alone, every file a run processed loads |
| Etl.BatchStopsShort | etl.py:124-127 | for any loader, a run stops short of the end exactly when it failed, and the file it stopped at raised the run's error |
| Etl.BatchStopsAtFirstFailure | etl.py:124-127 | files are processed in list order up to the first one that does not load. The run fails exactly then, with that file's error |
| Etl.BatchFailureSticks | etl.py:124-127 | after a failure the remaining files change nothing |
| Etl.BatchStep | etl.py:124-127 | one more file extends a run by that file's statements, or records its error, unless the run already failed |
| Etl.ProcessData | etl.py:97-127 | the cursor executes every processed file's statements in list order. There is one commit per processed file, the last leaving everything durable. The progress counter runs 1..n over the n files processed. The first file that raises ends the run with its error |

## Left out

- File discovery (`get_files`, and the `os.walk` and `glob` listing in
  `process_data`) is I/O. The loaders take the parsed files as a list, in
  discovery order.
- `pd.read_json` is a library call. Its output is taken as already parsed
  record datatypes.
- `datetime.fromtimestamp(ts / 1000.0)` and the calendar fields involve
  float division and the local time zone. They come from the `Clock`
  parameter. The model does not capture a timestamp too large to convert.
- Python float values are not modelled beyond equality, which is all the
  lookup uses.
- SparkifyApp.ResolveIds: the text `str(ids.song_id)` (the printed pandas
  Series, with its index and dtype line) is represented by the list of
  matching ids it is printed from, not by its characters.
- Frames.SortByCount: `sort_values` is not a stable sort, so the order among
  equal counts is one admissible choice. No lemma depends on it.
- Records.ParseUserId: Python's `int()` also accepts surrounding whitespace,
  underscores between digits and non-ASCII digits. The model accepts only
  an optional sign followed by ASCII digits.
- Column dtypes of pandas frames are not modelled. This includes the
  `NaN`s of unmatched merge rows: a songplay without a user contributes no
  name and no gender to the charts.
- The SQL text of the statements and their `ON CONFLICT` behaviour live in
  `sql_queries.py`, which is not part of this model. What the database
  answers to a select is the abstract `lookup` of the connection, and the
  model states nothing about the table contents the inserts produce.
- Etl.ProcessData: a database error raised by an insert or by the commit is
  not modelled. Only the errors the loaders raise on their input end a run.
- Of `main`, only the cursor it opens is modelled, as the `Connection`
  constructor. The credentials, the `psycopg2.connect` parameters and
  `conn.close` are left out. Its two `process_data` calls, over the song
  files and then the log files, are two `ProcessData` calls on the same
  `Connection`.
- The dashboard is modelled as it behaves under pandas 1.x.
  `DataFrame.append` (sparkify_app.py:123) was removed in pandas 2.0, where
  the songplay loop raises instead.
- `create_tables.py` is not part of this model: database and table
  creation and dropping, plus the credentials file.
- The progress messages of `process_data` are modelled only as the counter
  values they print (`reported`). The text of the messages, and the
  file-count line, are left out.
- Streamlit page layout, `@st.cache`, matplotlib drawing, `add_labels`, and
  the five tables the dashboard displays are presentation only.
