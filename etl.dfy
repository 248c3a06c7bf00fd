/** The database-loading variant: the same song and log files, replayed
    one file at a time as insert statements on a single database cursor,
    with the song and artist ids of each songplay looked up in the
    database, and a commit after every file. */
module Etl {
  import opened Frames
  import opened Records

  /** A songplay as passed to `songplay_table_insert`: an id the lookup did
      not find is Python `None`. */
  type DbPlay = Songplay<Option<string>>

  /** The statements the loader executes, with their parameters. */
  datatype Statement =
    | InsertSong(song: SongRow)
    | InsertArtist(artist: ArtistRow)
    | InsertTime(time: TimeRow)
    | InsertUser(user: UserRow)
    | SelectSong(key: SongKey)
    | InsertSongplay(play: DbPlay)

  /** What `fetchone` answers after a `song_select`: the first (song id,
      artist id) row found, if any. The database decides it from every
      statement executed on the connection so far, the select last. */
  type Lookup = seq<Statement> -> Option<(string, string)>

  /** The cursor and connection of one run: the statements executed so far,
      how many of them the last commit made durable, and how many commits
      there have been. */
  class Connection {
    var executed: seq<Statement>
    var committed: nat
    var commits: nat
    const lookup: Lookup

    constructor (lookup: Lookup)
      ensures executed == [] && committed == 0 && commits == 0 && this.lookup == lookup
    {
      executed := [];
      committed := 0;
      commits := 0;
      this.lookup := lookup;
    }

    /** `cur.execute`: the statement joins the open transaction. */
    method Execute(s: Statement)
      modifies this
      ensures executed == old(executed) + [s]
      ensures committed == old(committed) && commits == old(commits)
    {
      executed := executed + [s];
    }

    /** `cur.fetchone`, after a select. */
    method FetchOne() returns (row: Option<(string, string)>)
      ensures row == lookup(executed)
    {
      row := lookup(executed);
    }

    /** `conn.commit`: everything executed so far becomes durable. */
    method Commit()
      modifies this
      ensures executed == old(executed)
      ensures committed == |executed| && commits == old(commits) + 1
    {
      committed := |executed|;
      commits := commits + 1;
    }
  }

  // ---------------------------------------------------------------------
  // What each file executes

  /** The two inserts of a song file, both projected from its first record;
      a file without records has no columns to select. */
  function SongFileStatements(records: seq<SongRecord>): (r: Result<seq<Statement>>)
    ensures r.Err? <==> records == []
    ensures r.Ok? ==>
      && |r.value| == 2 && r.value[0].InsertSong? && r.value[1].InsertArtist?
      && Reassemble(r.value[0].song, r.value[1].artist, records[0].numSongs) == records[0]
      && r.value[1].artist.artistId == r.value[0].song.artistId
  {
    if records == [] then Err(MissingColumn("song_id"))
    else Ok([InsertSong(SongRowOf(records[0])), InsertArtist(ArtistRowOf(records[0]))])
  }

  function TimeInserts(ps: seq<Play>, clock: Clock): (r: seq<Statement>)
    ensures |r| == |ps| && forall i :: 0 <= i < |ps| ==> r[i] == InsertTime(TimeRowOf(ps[i], clock))
  {
    seq(|ps|, i requires 0 <= i < |ps| => InsertTime(TimeRowOf(ps[i], clock)))
  }

  function UserInserts(ps: seq<Play>): (r: seq<Statement>)
    ensures |r| == |ps| && forall i :: 0 <= i < |ps| ==> r[i] == InsertUser(UserRowOf(ps[i]))
  {
    seq(|ps|, i requires 0 <= i < |ps| => InsertUser(UserRowOf(ps[i])))
  }

  /** `songid, artistid = results` when a row came back, else both `None`. */
  function IdsOf(row: Option<(string, string)>): (ids: (Option<string>, Option<string>))
    ensures ids.0.None? <==> row.None?
    ensures ids.1.None? <==> row.None?
    ensures row.Some? ==> ids.0 == Some(row.value.0) && ids.1 == Some(row.value.1)
  {
    if row.Some? then (Some(row.value.0), Some(row.value.1)) else (None, None)
  }

  /** The songplay loop: per play, the lookup select and then the insert
      built from the play and whatever the lookup answered, given the
      statements `prior` executed before the loop. */
  function PlayStatements(lookup: Lookup, prior: seq<Statement>, ps: seq<Play>, clock: Clock): (r: seq<Statement>)
    ensures |r| == 2 * |ps|
  {
    if ps == [] then []
    else
      var done := PlayStatements(lookup, prior, ps[..|ps| - 1], clock);
      var p := ps[|ps| - 1];
      var select := SelectSong(KeyOf(p));
      var ids := IdsOf(lookup(prior + done + [select]));
      done + [select, InsertSongplay(SongplayOf(p, clock, ids.0, ids.1))]
  }

  /** What the retained plays of a log file execute: a time insert per
      play, then a user insert per play, then the songplay loop. */
  function RetainedStatements(lookup: Lookup, prior: seq<Statement>, ps: seq<Play>, clock: Clock): (r: seq<Statement>)
    ensures |r| == 4 * |ps|
  {
    var inserts := TimeInserts(ps, clock) + UserInserts(ps);
    inserts + PlayStatements(lookup, prior + inserts, ps, clock)
  }

  /** Everything a log file executes: nothing at all when the file raises,
      since it raises before the first insert. */
  function LogFileStatements(lookup: Lookup, prior: seq<Statement>, events: seq<LogEvent>, clock: Clock)
    : (r: Result<seq<Statement>>)
    ensures r.Err? <==> Plays(events).Err?
    ensures r.Err? ==> r.error == Plays(events).error
  {
    match Plays(events)
    case Err(e) => Err(e)
    case Ok(ps) => Ok(RetainedStatements(lookup, prior, ps, clock))
  }

  /** Play `i` of the loop executes the select for its song, then a
      songplay insert built from that play whose song id and artist id are
      both `None` exactly when the lookup answered nothing, and otherwise
      the looked-up pair. */
  lemma {:induction false} PlayStatementsShape(lookup: Lookup, prior: seq<Statement>, ps: seq<Play>, clock: Clock)
    ensures var r := PlayStatements(lookup, prior, ps, clock);
      forall i :: 0 <= i < |ps| ==>
        var row := lookup(prior + r[..2 * i + 1]);
        && r[2 * i] == SelectSong(KeyOf(ps[i]))
        && r[2 * i + 1].InsertSongplay?
        && r[2 * i + 1].play == SongplayOf(ps[i], clock, IdsOf(row).0, IdsOf(row).1)
        && (r[2 * i + 1].play.songId.None? <==> row.None?)
        && (r[2 * i + 1].play.artistId.None? <==> row.None?)
  {
    if ps != [] {
      var init := ps[..|ps| - 1];
      PlayStatementsShape(lookup, prior, init, clock);
      var done := PlayStatements(lookup, prior, init, clock);
      var r := PlayStatements(lookup, prior, ps, clock);
      forall i | 0 <= i < |ps|
        ensures r[2 * i] == SelectSong(KeyOf(ps[i]))
        ensures r[2 * i + 1] == InsertSongplay(SongplayOf(ps[i], clock,
          IdsOf(lookup(prior + r[..2 * i + 1])).0, IdsOf(lookup(prior + r[..2 * i + 1])).1))
      {
        if i < |init| {
          assert r[..2 * i + 1] == done[..2 * i + 1];
          assert r[2 * i] == done[2 * i] && r[2 * i + 1] == done[2 * i + 1];
          assert ps[i] == init[i];
        } else {
          var select := SelectSong(KeyOf(ps[i]));
          assert r[..2 * i + 1] == done + [select];
          assert prior + done + [select] == prior + (done + [select]);
        }
      }
    }
  }

  predicate IsTimeInsert(s: Statement) { s.InsertTime? }

  predicate IsUserInsert(s: Statement) { s.InsertUser? }

  predicate IsSelect(s: Statement) { s.SelectSong? }

  predicate IsSongplayInsert(s: Statement) { s.InsertSongplay? }

  lemma {:induction false} PlayStatementsCounts(lookup: Lookup, prior: seq<Statement>, ps: seq<Play>, clock: Clock)
    ensures var r := PlayStatements(lookup, prior, ps, clock);
      && |Filter(r, IsSelect)| == |ps|
      && |Filter(r, IsSongplayInsert)| == |ps|
      && Filter(r, IsTimeInsert) == []
      && Filter(r, IsUserInsert) == []
  {
    if ps != [] {
      var init := ps[..|ps| - 1];
      PlayStatementsCounts(lookup, prior, init, clock);
      var done := PlayStatements(lookup, prior, init, clock);
      var r := PlayStatements(lookup, prior, ps, clock);
      var p := ps[|ps| - 1];
      var select := SelectSong(KeyOf(p));
      var ids := IdsOf(lookup(prior + done + [select]));
      var insert := InsertSongplay(SongplayOf(p, clock, ids.0, ids.1));
      assert r == done + [select, insert];
      FilterPair(select, insert, IsSelect);
      FilterPair(select, insert, IsSongplayInsert);
      FilterPair(select, insert, IsTimeInsert);
      FilterPair(select, insert, IsUserInsert);
      FilterAppend(done, [select, insert], IsSelect);
      FilterAppend(done, [select, insert], IsSongplayInsert);
      FilterAppend(done, [select, insert], IsTimeInsert);
      FilterAppend(done, [select, insert], IsUserInsert);
    }
  }

  lemma InsertFilters(ps: seq<Play>, clock: Clock)
    ensures var times, users := TimeInserts(ps, clock), UserInserts(ps);
      && Filter(times + users, IsTimeInsert) == times
      && Filter(times + users, IsUserInsert) == users
      && Filter(times + users, IsSelect) == []
      && Filter(times + users, IsSongplayInsert) == []
  {
    var times, users := TimeInserts(ps, clock), UserInserts(ps);
    FilterAppend(times, users, IsTimeInsert);
    FilterAppend(times, users, IsUserInsert);
    FilterAppend(times, users, IsSelect);
    FilterAppend(times, users, IsSongplayInsert);
    FilterAll(times, IsTimeInsert);
    FilterNone(users, IsTimeInsert);
    FilterNone(times, IsUserInsert);
    FilterAll(users, IsUserInsert);
    FilterNone(times, IsSelect);
    FilterNone(users, IsSelect);
    FilterNone(times, IsSongplayInsert);
    FilterNone(users, IsSongplayInsert);
  }

  /** The statements of a log file that loads: as many time inserts, user
      inserts, lookups and songplay inserts as it has plays, the time and
      user inserts being exactly one per play in order — users are not
      de-duplicated before they reach the database. */
  lemma LogFileCounts(lookup: Lookup, prior: seq<Statement>, events: seq<LogEvent>, clock: Clock)
    requires Plays(events).Ok?
    ensures var ps, r := Plays(events).value, LogFileStatements(lookup, prior, events, clock).value;
      && |r| == 4 * |ps|
      && Filter(r, IsTimeInsert) == TimeInserts(ps, clock)
      && Filter(r, IsUserInsert) == UserInserts(ps)
      && |Filter(r, IsSelect)| == |ps|
      && |Filter(r, IsSongplayInsert)| == |ps|
  {
    var ps := Plays(events).value;
    var inserts := TimeInserts(ps, clock) + UserInserts(ps);
    var loop := PlayStatements(lookup, prior + inserts, ps, clock);
    PlayStatementsCounts(lookup, prior + inserts, ps, clock);
    InsertFilters(ps, clock);
    FilterAppend(inserts, loop, IsTimeInsert);
    FilterAppend(inserts, loop, IsUserInsert);
    FilterAppend(inserts, loop, IsSelect);
    FilterAppend(inserts, loop, IsSongplayInsert);
  }

  /** Only `NextSong` events cause statements: a visit to any other page,
      anywhere in a log file, changes nothing that is executed. */
  lemma LogFileIgnoresOtherPages(lookup: Lookup, prior: seq<Statement>, before: seq<LogEvent>, e: LogEvent,
                                 after: seq<LogEvent>, clock: Clock)
    requires !IsNextSong(e)
    requires before + after != []
    ensures LogFileStatements(lookup, prior, before + [e] + after, clock)
         == LogFileStatements(lookup, prior, before + after, clock)
  {
    OtherPagesIgnored(before, e, after);
  }

  // ---------------------------------------------------------------------
  // The loaders

  /** `process_song_file`. */
  method ProcessSongFile(conn: Connection, records: seq<SongRecord>) returns (outcome: Outcome)
    modifies conn
    ensures conn.committed == old(conn.committed) && conn.commits == old(conn.commits)
    ensures match SongFileStatements(records)
      case Err(e) => outcome == Fail(e) && conn.executed == old(conn.executed)
      case Ok(s) => outcome == Pass && conn.executed == old(conn.executed) + s
  {
    if records == [] {
      return Fail(MissingColumn("song_id"));
    }
    var rec := records[0];
    conn.Execute(InsertSong(SongRowOf(rec)));
    conn.Execute(InsertArtist(ArtistRowOf(rec)));
    outcome := Pass;
  }

  /** `process_log_file`: the time inserts, the user inserts, then per play
      the lookup, `fetchone`, and the songplay insert. */
  method ProcessLogFile(conn: Connection, events: seq<LogEvent>, clock: Clock) returns (outcome: Outcome)
    modifies conn
    ensures conn.committed == old(conn.committed) && conn.commits == old(conn.commits)
    ensures match LogFileStatements(conn.lookup, old(conn.executed), events, clock)
      case Err(e) => outcome == Fail(e) && conn.executed == old(conn.executed)
      case Ok(s) => outcome == Pass && conn.executed == old(conn.executed) + s
  {
    var converted := Plays(events);
    if converted.Err? {
      return Fail(converted.error);
    }
    ExecuteRetained(conn, converted.value, clock);
    outcome := Pass;
  }

  /** The three loops of `process_log_file` over the retained plays. */
  method ExecuteRetained(conn: Connection, ps: seq<Play>, clock: Clock)
    modifies conn
    ensures conn.committed == old(conn.committed) && conn.commits == old(conn.commits)
    ensures conn.executed == old(conn.executed) + RetainedStatements(conn.lookup, old(conn.executed), ps, clock)
  {
    ghost var start := conn.executed;
    ExecuteTimeInserts(conn, ps, clock);
    ExecuteUserInserts(conn, ps);
    ghost var inserts := TimeInserts(ps, clock) + UserInserts(ps);
    assert conn.executed == start + inserts;
    ExecuteSongplays(conn, ps, clock);
    AppendAssociative(start, inserts, PlayStatements(conn.lookup, start + inserts, ps, clock));
  }

  /** The time-insert loop of `process_log_file`: one insert per play, in order. */
  method ExecuteTimeInserts(conn: Connection, ps: seq<Play>, clock: Clock)
    modifies conn
    ensures conn.committed == old(conn.committed) && conn.commits == old(conn.commits)
    ensures conn.executed == old(conn.executed) + TimeInserts(ps, clock)
  {
    ghost var start := conn.executed;
    var i := 0;
    while i < |ps|
      invariant 0 <= i <= |ps|
      invariant conn.committed == old(conn.committed) && conn.commits == old(conn.commits)
      invariant conn.executed == start + TimeInserts(ps[..i], clock)
    {
      conn.Execute(InsertTime(TimeRowOf(ps[i], clock)));
      assert TimeInserts(ps[..i + 1], clock) == TimeInserts(ps[..i], clock) + [InsertTime(TimeRowOf(ps[i], clock))];
      i := i + 1;
    }
    assert ps[..i] == ps;
  }

  /** The user-insert loop of `process_log_file`: one insert per play, in
      order, duplicates included. */
  method ExecuteUserInserts(conn: Connection, ps: seq<Play>)
    modifies conn
    ensures conn.committed == old(conn.committed) && conn.commits == old(conn.commits)
    ensures conn.executed == old(conn.executed) + UserInserts(ps)
  {
    ghost var start := conn.executed;
    var j := 0;
    while j < |ps|
      invariant 0 <= j <= |ps|
      invariant conn.committed == old(conn.committed) && conn.commits == old(conn.commits)
      invariant conn.executed == start + UserInserts(ps[..j])
    {
      conn.Execute(InsertUser(UserRowOf(ps[j])));
      assert UserInserts(ps[..j + 1]) == UserInserts(ps[..j]) + [InsertUser(UserRowOf(ps[j]))];
      j := j + 1;
    }
    assert ps[..j] == ps;
  }

  /** The songplay loop of `process_log_file`: per play, execute the song
      select, fetch one row, and insert the songplay with the ids found or
      `None`. */
  method ExecuteSongplays(conn: Connection, ps: seq<Play>, clock: Clock)
    modifies conn
    ensures conn.committed == old(conn.committed) && conn.commits == old(conn.commits)
    ensures conn.executed == old(conn.executed) + PlayStatements(conn.lookup, old(conn.executed), ps, clock)
  {
    ghost var start := conn.executed;
    var k := 0;
    while k < |ps|
      invariant 0 <= k <= |ps|
      invariant conn.committed == old(conn.committed) && conn.commits == old(conn.commits)
      invariant conn.executed == start + PlayStatements(conn.lookup, start, ps[..k], clock)
    {
      var p := ps[k];
      conn.Execute(SelectSong(KeyOf(p)));
      var results := conn.FetchOne();
      var songId: Option<string>, artistId: Option<string> := None, None;
      if results.Some? {
        songId, artistId := Some(results.value.0), Some(results.value.1);
      }
      conn.Execute(InsertSongplay(SongplayOf(p, clock, songId, artistId)));
      assert ps[..k + 1][..k] == ps[..k];
      k := k + 1;
    }
    assert ps[..k] == ps;
  }

  /** A discovered data file, together with the loader `process_data` was
      given for its directory. */
  datatype DataFile = SongFile(records: seq<SongRecord>) | LogFile(events: seq<LogEvent>)

  /** Whether a file loads; this never depends on the database. */
  predicate FileLoads(f: DataFile)
  {
    match f
    case SongFile(records) => records != []
    case LogFile(events) => Plays(events).Ok?
  }

  function FileStatements(lookup: Lookup, prior: seq<Statement>, f: DataFile, clock: Clock): (r: Result<seq<Statement>>)
    ensures r.Ok? <==> FileLoads(f)
  {
    match f
    case SongFile(records) => SongFileStatements(records)
    case LogFile(events) => LogFileStatements(lookup, prior, events, clock)
  }

  /** `func(cur, datafile)`. */
  method ProcessFile(conn: Connection, f: DataFile, clock: Clock) returns (outcome: Outcome)
    modifies conn
    ensures conn.committed == old(conn.committed) && conn.commits == old(conn.commits)
    ensures match FileStatements(conn.lookup, old(conn.executed), f, clock)
      case Err(e) => outcome == Fail(e) && conn.executed == old(conn.executed)
      case Ok(s) => outcome == Pass && conn.executed == old(conn.executed) + s
  {
    match f
    case SongFile(records) =>
      outcome := ProcessSongFile(conn, records);
    case LogFile(events) =>
      outcome := ProcessLogFile(conn, events, clock);
  }

  /** The `func` handed to `process_data`: what loading a file executes,
      given the statements executed before it, or the error it raises. */
  type Loader = (seq<Statement>, DataFile) -> Result<seq<Statement>>

  /** The loader of this program, answering lookups with `lookup`. */
  function FileLoader(lookup: Lookup, clock: Clock): (load: Loader)
    ensures forall p, f :: load(p, f).Ok? <==> FileLoads(f)
  {
    (p: seq<Statement>, f: DataFile) => FileStatements(lookup, p, f, clock)
  }

  /** The statements of a run over `files`, how many files were processed
      (and committed), and the error of the file that stopped it, if any. */
  datatype BatchRun = BatchRun(statements: seq<Statement>, processed: nat, failure: Option<Error>)

  function Batch(load: Loader, prior: seq<Statement>, files: seq<DataFile>): (b: BatchRun)
    ensures b.processed <= |files|
  {
    if files == [] then BatchRun([], 0, None)
    else
      var b := Batch(load, prior, files[..|files| - 1]);
      if b.failure.Some? then b
      else
        match load(prior + b.statements, files[|files| - 1])
        case Err(e) => BatchRun(b.statements, b.processed, Some(e))
        case Ok(s) => BatchRun(b.statements + s, b.processed + 1, None)
  }

  /** Every file a run processed loads, when whether a file loads depends
      on the file alone. */
  lemma {:induction false} BatchProcessedLoaded(load: Loader, loads: DataFile -> bool, prior: seq<Statement>, files: seq<DataFile>)
    requires forall p, f :: load(p, f).Ok? <==> loads(f)
    ensures var b := Batch(load, prior, files);
      forall k :: 0 <= k < b.processed ==> loads(files[k])
  {
    if files != [] {
      var n := |files| - 1;
      var init := files[..n];
      BatchProcessedLoaded(load, loads, prior, init);
      BatchStopsShort(load, prior, init);
      var b := Batch(load, prior, init);
      forall k | 0 <= k < Batch(load, prior, files).processed
        ensures loads(files[k])
      {
        if k < b.processed {
          assert files[k] == init[k];
        }
      }
    }
  }

  /** A run stops short of the end exactly when it failed, and then the
      file it stopped at raised the run's error. */
  lemma {:induction false} BatchStopsShort(load: Loader, prior: seq<Statement>, files: seq<DataFile>)
    ensures var b := Batch(load, prior, files);
      && (b.failure.None? <==> b.processed == |files|)
      && (b.processed < |files| ==>
            var f := load(prior + b.statements, files[b.processed]);
            f.Err? && b.failure == Some(f.error))
  {
    if files != [] {
      var init := files[..|files| - 1];
      BatchStopsShort(load, prior, init);
      var b := Batch(load, prior, init);
      if b.processed < |init| {
        assert files[b.processed] == init[b.processed];
      }
    }
  }

  /** A run processes the files in order up to the first one that does not
      load, and stops there with that file's error; it fails exactly when
      some file does not load. */
  lemma BatchStopsAtFirstFailure(lookup: Lookup, prior: seq<Statement>, files: seq<DataFile>, clock: Clock)
    ensures var load := FileLoader(lookup, clock);
      var b := Batch(load, prior, files);
      && (forall k :: 0 <= k < b.processed ==> FileLoads(files[k]))
      && (b.failure.None? <==> b.processed == |files|)
      && (b.processed < |files| ==>
            && !FileLoads(files[b.processed])
            && b.failure == Some(FileStatements(lookup, prior + b.statements, files[b.processed], clock).error))
  {
    var load := FileLoader(lookup, clock);
    BatchProcessedLoaded(load, FileLoads, prior, files);
    BatchStopsShort(load, prior, files);
  }

  /** Once a prefix of the files has failed, the rest change nothing. */
  lemma {:induction false} BatchFailureSticks(load: Loader, prior: seq<Statement>, files: seq<DataFile>, i: nat)
    requires i <= |files|
    requires Batch(load, prior, files[..i]).failure.Some?
    ensures Batch(load, prior, files) == Batch(load, prior, files[..i])
    decreases |files| - i
  {
    if i < |files| {
      assert files[..i + 1][..i] == files[..i];
      BatchFailureSticks(load, prior, files, i + 1);
    } else {
      assert files[..i] == files;
    }
  }

  /** One more file extends a run by its statements, or records its error,
      unless the run has already failed. */
  lemma BatchStep(load: Loader, prior: seq<Statement>, files: seq<DataFile>, i: nat)
    requires i < |files|
    ensures var b := Batch(load, prior, files[..i]);
      var f := load(prior + b.statements, files[i]);
      Batch(load, prior, files[..i + 1]) ==
        if b.failure.Some? then b
        else if f.Err? then BatchRun(b.statements, b.processed, Some(f.error))
        else BatchRun(b.statements + f.value, b.processed + 1, None)
  {
    assert files[..i + 1][..i] == files[..i];
  }

  /** A run in which every file so far has loaded, file `k` having
      executed `runs[k]`. */
  ghost predicate LoadedRuns(load: Loader, prior: seq<Statement>, files: seq<DataFile>, runs: seq<seq<Statement>>)
    decreases |runs|
  {
    && |runs| <= |files|
    && (runs != [] ==>
          var n := |runs| - 1;
          && LoadedRuns(load, prior, files, runs[..n])
          && load(prior + Flatten(runs[..n]), files[n]) == Ok(runs[n]))
  }

  lemma {:induction false} BatchOfLoadedRuns(load: Loader, prior: seq<Statement>, files: seq<DataFile>, runs: seq<seq<Statement>>)
    requires LoadedRuns(load, prior, files, runs)
    ensures Batch(load, prior, files[..|runs|]) == BatchRun(Flatten(runs), |runs|, None)
  {
    if runs != [] {
      var n := |runs| - 1;
      BatchOfLoadedRuns(load, prior, files, runs[..n]);
      BatchStep(load, prior, files, n);
    }
  }

  lemma LoadedRunsSnoc(load: Loader, prior: seq<Statement>, files: seq<DataFile>, runs: seq<seq<Statement>>,
                       run: seq<Statement>)
    requires LoadedRuns(load, prior, files, runs) && |runs| < |files|
    requires load(prior + Flatten(runs), files[|runs|]) == Ok(run)
    ensures LoadedRuns(load, prior, files, runs + [run])
    ensures Flatten(runs + [run]) == Flatten(runs) + run
  {
    var longer := runs + [run];
    assert longer[..|runs|] == runs;
    assert longer[|runs|] == run;
    assert LoadedRuns(load, prior, files, longer[..|runs|]);
  }

  /** A run whose first failing file is file `|runs|`. */
  lemma BatchFailsAt(load: Loader, prior: seq<Statement>, files: seq<DataFile>, runs: seq<seq<Statement>>)
    requires LoadedRuns(load, prior, files, runs) && |runs| < |files|
    requires load(prior + Flatten(runs), files[|runs|]).Err?
    ensures Batch(load, prior, files)
         == BatchRun(Flatten(runs), |runs|, Some(load(prior + Flatten(runs), files[|runs|]).error))
  {
    BatchOfLoadedRuns(load, prior, files, runs);
    BatchStep(load, prior, files, |runs|);
    BatchFailureSticks(load, prior, files, |runs| + 1);
  }

  /** A run in which every file loaded. */
  lemma BatchAllLoaded(load: Loader, prior: seq<Statement>, files: seq<DataFile>, runs: seq<seq<Statement>>)
    requires LoadedRuns(load, prior, files, runs) && |runs| == |files|
    ensures Batch(load, prior, files) == BatchRun(Flatten(runs), |files|, None)
  {
    BatchOfLoadedRuns(load, prior, files, runs);
    assert files[..|runs|] == files;
  }

  /** `process_data`: every file in list order through its loader, with a
      commit after each; the progress counter reports 1, 2, ... for the
      files processed. A file that raises ends the run, leaving every
      earlier file committed and nothing of its own executed. */
  method ProcessData(conn: Connection, files: seq<DataFile>, clock: Clock) returns (outcome: Outcome, reported: seq<nat>)
    modifies conn
    ensures var b := Batch(FileLoader(conn.lookup, clock), old(conn.executed), files);
      && conn.executed == old(conn.executed) + b.statements
      && conn.commits == old(conn.commits) + b.processed
      && conn.committed == (if b.processed == 0 then old(conn.committed) else |conn.executed|)
      && (outcome.Pass? <==> b.failure.None?)
      && (b.failure.Some? ==> outcome == Fail(b.failure.value))
      && |reported| == b.processed
      && forall i :: 0 <= i < |reported| ==> reported[i] == i + 1
  {
    ghost var start := conn.executed;
    ghost var runs: seq<seq<Statement>> := [];
    reported := [];
    var i := 0;
    while i < |files|
      invariant 0 <= i <= |files|
      invariant |runs| == i && LoadedRuns(FileLoader(conn.lookup, clock), start, files, runs)
      invariant conn.executed == start + Flatten(runs)
      invariant conn.commits == old(conn.commits) + i
      invariant conn.committed == (if i == 0 then old(conn.committed) else |conn.executed|)
      invariant |reported| == i && forall k :: 0 <= k < i ==> reported[k] == k + 1
    {
      ghost var loaded := FileStatements(conn.lookup, conn.executed, files[i], clock);
      var fileOutcome := ProcessFile(conn, files[i], clock);
      if fileOutcome.Fail? {
        BatchFailsAt(FileLoader(conn.lookup, clock), start, files, runs);
        return fileOutcome, reported;
      }
      conn.Commit();
      LoadedRunsSnoc(FileLoader(conn.lookup, clock), start, files, runs, loaded.value);
      AppendAssociative(start, Flatten(runs), loaded.value);
      runs := runs + [loaded.value];
      reported := reported + [i + 1];
      i := i + 1;
    }
    BatchAllLoaded(FileLoader(conn.lookup, clock), start, files, runs);
    outcome := Pass;
  }
}
