/** The dashboard's in-memory pipeline: the song and log files are reshaped
    into the five star-schema tables without a database, accumulated over
    all files, and summarised as play counts per listener, per subscription
    level and per gender. */
module SparkifyApp {
  import opened Frames
  import opened Records

  /** A song or artist id as the dashboard writes it into a songplay: the
      text 'None' when no song matched, otherwise the text pandas prints for
      the Series of the matching ids, represented here by those ids. */
  datatype IdText = NoneText | SeriesText(ids: seq<string>)

  type PlayRow = Songplay<IdText>

  /** A row of the song table left-joined to the artist table. */
  type Joined = (SongRow, Option<ArtistRow>)

  datatype SongTables = SongTables(songs: seq<SongRow>, artists: seq<ArtistRow>)

  datatype LogTables = LogTables(time: seq<TimeRow>, users: seq<UserRow>, songplays: Frame<PlayRow>)

  datatype Tables = Tables(
    songs: Frame<SongRow>,
    artists: Frame<ArtistRow>,
    users: Frame<UserRow>,
    time: Frame<TimeRow>,
    songplays: Frame<PlayRow>)

  /** `process_song_file`: every record of the file gives one song row and
      one artist row, its values passed through unchanged. A file without
      records has no columns to select. */
  function ProcessSongFile(records: seq<SongRecord>): (r: Result<SongTables>)
    ensures r.Err? <==> records == []
    ensures r.Ok? ==> |r.value.songs| == |records| && |r.value.artists| == |records|
    ensures r.Ok? ==> forall i :: 0 <= i < |records| ==>
      var rec := records[i];
      && r.value.songs[i] == SongRow(rec.songId, rec.title, rec.artistId, rec.year, rec.duration)
      && r.value.artists[i] == ArtistRow(rec.artistId, rec.artistName, rec.artistLocation, rec.artistLatitude, rec.artistLongitude)
  {
    if records == [] then Err(MissingColumn("song_id"))
    else Ok(SongTables(SongRows(records), ArtistRows(records)))
  }

  function SongArtistKey(s: SongRow): string { s.artistId }

  function ArtistKey(a: ArtistRow): string { a.artistId }

  /** `song_data.merge(artist_data, how='left', on='artist_id')`. */
  function SongArtist(songs: seq<SongRow>, artists: seq<ArtistRow>): seq<Joined>
  {
    LeftJoin(songs, artists, SongArtistKey, ArtistKey)
  }

  /** The mask `title == song & artist_name == artist & duration == length`;
      a song without an artist has no artist name and never matches. */
  predicate RowMatches(j: Joined, key: SongKey)
  {
    j.0.title == key.title && j.1.Some? && j.1.value.name == key.artistName && j.0.duration == key.duration
  }

  /** The joined rows selected by that mask, in order. */
  function Hits(joined: seq<Joined>, key: SongKey): (h: seq<Joined>)
    ensures forall j :: j in h ==> j in joined && RowMatches(j, key)
    ensures forall j :: j in joined && RowMatches(j, key) ==> j in h
  {
    Filter(joined, (j: Joined) => RowMatches(j, key))
  }

  function SongIds(h: seq<Joined>): (r: seq<string>)
    ensures |r| == |h| && forall i :: 0 <= i < |h| ==> r[i] == h[i].0.songId
  {
    seq(|h|, i requires 0 <= i < |h| => h[i].0.songId)
  }

  function ArtistIds(h: seq<Joined>): (r: seq<string>)
    ensures |r| == |h| && forall i :: 0 <= i < |h| ==> r[i] == h[i].0.artistId
  {
    seq(|h|, i requires 0 <= i < |h| => h[i].0.artistId)
  }

  /** Some joined row matching the event carries this song id and this
      artist id. */
  predicate MatchedPair(joined: seq<Joined>, key: SongKey, songId: string, artistId: string)
  {
    exists j :: j in joined && RowMatches(j, key) && j.0.songId == songId && j.0.artistId == artistId
  }

  /** The id lists built from the matching rows pair up exactly the song
      and artist ids of those rows: each entry comes from a matching row and
      each matching row gives an entry. */
  lemma HitIdsCoverMatches(joined: seq<Joined>, key: SongKey, h: seq<Joined>)
    requires forall j :: j in h <==> j in joined && RowMatches(j, key)
    ensures forall i :: 0 <= i < |h| ==> MatchedPair(joined, key, SongIds(h)[i], ArtistIds(h)[i])
    ensures forall j :: j in joined && RowMatches(j, key) ==>
      exists i :: 0 <= i < |h| && SongIds(h)[i] == j.0.songId && ArtistIds(h)[i] == j.0.artistId
  {
    forall i | 0 <= i < |h|
      ensures MatchedPair(joined, key, SongIds(h)[i], ArtistIds(h)[i])
    {
      assert h[i] in h;
    }
    forall j | j in joined && RowMatches(j, key)
      ensures exists i :: 0 <= i < |h| && SongIds(h)[i] == j.0.songId && ArtistIds(h)[i] == j.0.artistId
    {
      assert j in h;
      var i :| 0 <= i < |h| && h[i] == j;
      assert SongIds(h)[i] == j.0.songId && ArtistIds(h)[i] == j.0.artistId;
    }
  }

  /** The song id and artist id written for one event: 'None' for both
      exactly when no joined row matches the event's title, artist name and
      length; otherwise both are built from the matching rows, pairwise,
      one entry per matching row (`ResolveIdsPairs` says which). */
  function ResolveIds(joined: seq<Joined>, key: SongKey): (ids: (IdText, IdText))
    ensures ids.0.NoneText? <==> forall j :: j in joined ==> !RowMatches(j, key)
    ensures ids.1.NoneText? <==> ids.0.NoneText?
    ensures ids.0.SeriesText? ==>
      && |ids.0.ids| == |ids.1.ids| == |Hits(joined, key)| > 0
  {
    var h := Hits(joined, key);
    if h == [] then (NoneText, NoneText)
    else
      assert h[0] in h;
      (SeriesText(SongIds(h)), SeriesText(ArtistIds(h)))
  }

  /** When the event resolves, the two id lists pair up exactly the song and
      artist ids of the matching rows: every entry comes from a matching
      row, and every matching row's pair is listed. */
  lemma ResolveIdsPairs(joined: seq<Joined>, key: SongKey)
    ensures var ids := ResolveIds(joined, key);
      ids.0.SeriesText? ==>
        && (forall i :: 0 <= i < |ids.0.ids| ==> MatchedPair(joined, key, ids.0.ids[i], ids.1.ids[i]))
        && (forall j :: j in joined && RowMatches(j, key) ==>
              exists i :: 0 <= i < |ids.0.ids| && ids.0.ids[i] == j.0.songId && ids.1.ids[i] == j.0.artistId)
  {
    var h := Hits(joined, key);
    if h != [] {
      HitIdsCoverMatches(joined, key, h);
    }
  }

  /** The songplay row the dashboard appends for one retained event. */
  function PlayRowOf(p: Play, joined: seq<Joined>, clock: Clock): PlayRow
  {
    var ids := ResolveIds(joined, KeyOf(p));
    SongplayOf(p, clock, ids.0, ids.1)
  }

  function PlayRows(ps: seq<Play>, joined: seq<Joined>, clock: Clock): (r: seq<PlayRow>)
    ensures |r| == |ps| && forall i :: 0 <= i < |ps| ==> r[i] == PlayRowOf(ps[i], joined, clock)
  {
    seq(|ps|, i requires 0 <= i < |ps| => PlayRowOf(ps[i], joined, clock))
  }

  /** The loop of `process_log_file` over the retained events: exactly one
      songplay row per event, in input order, whether or not it resolved. */
  method BuildSongplays(ps: seq<Play>, joined: seq<Joined>, clock: Clock) returns (rows: seq<PlayRow>)
    ensures |rows| == |ps|
    ensures forall i :: 0 <= i < |ps| ==> rows[i] == PlayRowOf(ps[i], joined, clock)
  {
    rows := [];
    var i := 0;
    while i < |ps|
      invariant 0 <= i <= |ps|
      invariant |rows| == i
      invariant forall k :: 0 <= k < i ==> rows[k] == PlayRowOf(ps[k], joined, clock)
    {
      var p := ps[i];
      var ids := ResolveIds(joined, KeyOf(p));
      rows := rows + [SongplayOf(p, clock, ids.0, ids.1)];
      i := i + 1;
    }
  }

  /** `process_log_file`: keep the `NextSong` events and convert their ids
      (or raise), then one time row per event, the users de-duplicated on
      `userId` keeping the first, and one songplay row per event resolved
      against the song/artist join. With no events `songplay_df` stays the
      column-less `pd.DataFrame()`; a column-less song or artist table
      cannot be merged. */
  method ProcessLogFile(events: seq<LogEvent>, songs: Frame<SongRow>, artists: Frame<ArtistRow>, clock: Clock)
    returns (r: Result<LogTables>)
    ensures Plays(events).Err? ==> r == Err(Plays(events).error)
    ensures Plays(events).Ok? && (songs.NoColumns? || artists.NoColumns?) ==> r == Err(MissingColumn("artist_id"))
    ensures r.Ok? <==> Plays(events).Ok? && songs.Rows? && artists.Rows?
    ensures r.Ok? ==>
      var ps := Plays(events).value;
      && r.value.time == TimeRows(ps, clock)
      && r.value.users == DedupFirst(UserRows(ps), UserKey)
      && (r.value.songplays.NoColumns? <==> ps == [])
      && r.value.songplays.Records() == PlayRows(ps, SongArtist(songs.rows, artists.rows), clock)
  {
    var converted := Plays(events);
    if converted.Err? {
      return Err(converted.error);
    }
    var ps := converted.value;
    var time := TimeRows(ps, clock);
    var users := DedupFirst(UserRows(ps), UserKey);
    if songs.NoColumns? || artists.NoColumns? {
      return Err(MissingColumn("artist_id"));
    }
    var joined := SongArtist(songs.rows, artists.rows);
    var rows := BuildSongplays(ps, joined, clock);
    var songplays: Frame<PlayRow> := if rows == [] then NoColumns else Rows(rows);
    r := Ok(LogTables(time, users, songplays));
  }

  /** The plays of every log file in order, or the error of the first file
      that raises. */
  function AllPlays(logFiles: seq<seq<LogEvent>>): (r: Result<seq<seq<Play>>>)
    ensures r.Ok? <==> forall k :: 0 <= k < |logFiles| ==> Plays(logFiles[k]).Ok?
    ensures r.Ok? ==> |r.value| == |logFiles| && forall k :: 0 <= k < |logFiles| ==> Plays(logFiles[k]) == Ok(r.value[k])
  {
    if logFiles == [] then Ok([])
    else
      var prefix := AllPlays(logFiles[..|logFiles| - 1]);
      var last := Plays(logFiles[|logFiles| - 1]);
      assert forall k :: 0 <= k < |logFiles| - 1 ==> logFiles[..|logFiles| - 1][k] == logFiles[k];
      if prefix.Err? then prefix
      else if last.Err? then Err(last.error)
      else Ok(prefix.value + [last.value])
  }

  lemma SongRowsAppend(a: seq<SongRecord>, b: seq<SongRecord>)
    ensures SongRows(a + b) == SongRows(a) + SongRows(b)
    ensures ArtistRows(a + b) == ArtistRows(a) + ArtistRows(b)
  {
  }

  lemma UserRowsAppend(a: seq<Play>, b: seq<Play>)
    ensures UserRows(a + b) == UserRows(a) + UserRows(b)
  {
  }

  lemma TimeRowsAppend(a: seq<Play>, b: seq<Play>, clock: Clock)
    ensures TimeRows(a + b, clock) == TimeRows(a, clock) + TimeRows(b, clock)
  {
  }

  lemma PlayRowsAppend(a: seq<Play>, b: seq<Play>, joined: seq<Joined>, clock: Clock)
    ensures PlayRows(a + b, joined, clock) == PlayRows(a, joined, clock) + PlayRows(b, joined, clock)
  {
    var whole, parts := PlayRows(a + b, joined, clock), PlayRows(a, joined, clock) + PlayRows(b, joined, clock);
    assert |whole| == |parts|;
    forall i | 0 <= i < |whole|
      ensures whole[i] == parts[i]
    {
      if i < |a| {
        assert (a + b)[i] == a[i];
      } else {
        assert (a + b)[i] == b[i - |a|];
      }
    }
  }

  lemma AllPlaysSnoc(logFiles: seq<seq<LogEvent>>, j: nat, pss: seq<seq<Play>>)
    requires j < |logFiles|
    requires AllPlays(logFiles[..j]) == Ok(pss)
    requires Plays(logFiles[j]).Ok?
    ensures AllPlays(logFiles[..j + 1]) == Ok(pss + [Plays(logFiles[j]).value])
    ensures Flatten(pss + [Plays(logFiles[j]).value]) == Flatten(pss) + Plays(logFiles[j]).value
  {
    assert logFiles[..j + 1][..j] == logFiles[..j];
    var ps := Plays(logFiles[j]).value;
    assert (pss + [ps])[..|pss|] == pss;
  }

  datatype SongTotals = SongTotals(songs: Frame<SongRow>, artists: Frame<ArtistRow>)

  /** The first loop of `load_data`: every song file in turn, its songs and
      artists appended to those loaded so far. */
  method LoadSongs(songFiles: seq<seq<SongRecord>>) returns (r: Result<SongTotals>)
    ensures r.Ok? <==> forall k :: 0 <= k < |songFiles| ==> songFiles[k] != []
    ensures r.Ok? ==>
      && r.value.songs.Records() == SongRows(Flatten(songFiles)) && (r.value.songs.NoColumns? <==> songFiles == [])
      && r.value.artists.Records() == ArtistRows(Flatten(songFiles)) && (r.value.artists.NoColumns? <==> songFiles == [])
  {
    var songs: Frame<SongRow> := NoColumns;
    var artists: Frame<ArtistRow> := NoColumns;
    var i := 0;
    while i < |songFiles|
      invariant 0 <= i <= |songFiles|
      invariant forall k :: 0 <= k < i ==> songFiles[k] != []
      invariant songs.Records() == SongRows(Flatten(songFiles[..i])) && (songs.NoColumns? <==> i == 0)
      invariant artists.Records() == ArtistRows(Flatten(songFiles[..i])) && (artists.NoColumns? <==> i == 0)
    {
      var file := ProcessSongFile(songFiles[i]);
      if file.Err? {
        return Err(file.error);
      }
      FlattenSnoc(songFiles, i);
      SongRowsAppend(Flatten(songFiles[..i]), songFiles[i]);
      songs := Concat(songs, Rows(file.value.songs));
      artists := Concat(artists, Rows(file.value.artists));
      i := i + 1;
    }
    assert songFiles[..i] == songFiles;
    r := Ok(SongTotals(songs, artists));
  }

  datatype LogTotals = LogTotals(time: Frame<TimeRow>, users: Frame<UserRow>, songplays: Frame<PlayRow>)

  /** What the three accumulators of `load_data` hold once `files` log files
      have been loaded, their retained plays being `ps` in file order. */
  ghost predicate Accumulated(t: LogTotals, files: nat, ps: seq<Play>, joined: seq<Joined>, clock: Clock)
  {
    && t.time.Records() == TimeRows(ps, clock) && (t.time.NoColumns? <==> files == 0)
    && t.users.Records() == DedupFirst(UserRows(ps), UserKey) && (t.users.NoColumns? <==> files == 0)
    && t.songplays.Records() == PlayRows(ps, joined, clock)
    && (t.songplays.NoColumns? <==> ps == [])
  }

  /** One pass of the log loop: append the file's time rows and songplays,
      concatenate its users and drop duplicate ids keeping the first. */
  function AddLogFile(t: LogTotals, f: LogTables): LogTotals
  {
    LogTotals(
      Concat(t.time, Rows(f.time)),
      Rows(DedupFirst(Concat(t.users, Rows(f.users)).Records(), UserKey)),
      Concat(t.songplays, f.songplays))
  }

  lemma AddLogFileSpec(t: LogTotals, files: nat, before: seq<Play>, f: LogTables, ps: seq<Play>, joined: seq<Joined>, clock: Clock)
    requires Accumulated(t, files, before, joined, clock)
    requires f.time == TimeRows(ps, clock) && f.users == DedupFirst(UserRows(ps), UserKey)
    requires f.songplays.Records() == PlayRows(ps, joined, clock) && (f.songplays.NoColumns? <==> ps == [])
    ensures Accumulated(AddLogFile(t, f), files + 1, before + ps, joined, clock)
  {
    TimeRowsAppend(before, ps, clock);
    PlayRowsAppend(before, ps, joined, clock);
    UserRowsAppend(before, ps);
    DedupAccumulate(UserRows(before), UserRows(ps), UserKey);
  }

  /** One pass of the log loop extends both the loaded plays and the
      accumulated tables by the next file. */
  lemma LogLoopStep(logFiles: seq<seq<LogEvent>>, j: nat, pss: seq<seq<Play>>, t: LogTotals, f: LogTables, joined: seq<Joined>, clock: Clock)
    requires j < |logFiles| && AllPlays(logFiles[..j]) == Ok(pss) && Plays(logFiles[j]).Ok?
    requires Accumulated(t, j, Flatten(pss), joined, clock)
    requires var ps := Plays(logFiles[j]).value;
      && f.time == TimeRows(ps, clock) && f.users == DedupFirst(UserRows(ps), UserKey)
      && f.songplays.Records() == PlayRows(ps, joined, clock) && (f.songplays.NoColumns? <==> ps == [])
    ensures AllPlays(logFiles[..j + 1]) == Ok(pss + [Plays(logFiles[j]).value])
    ensures Accumulated(AddLogFile(t, f), j + 1, Flatten(pss + [Plays(logFiles[j]).value]), joined, clock)
  {
    var ps := Plays(logFiles[j]).value;
    AllPlaysSnoc(logFiles, j, pss);
    AddLogFileSpec(t, j, Flatten(pss), f, ps, joined, clock);
  }

  /** A log file that cannot be processed fails the whole log loop. */
  lemma LogLoopFails(logFiles: seq<seq<LogEvent>>, j: nat, songs: Frame<SongRow>, artists: Frame<ArtistRow>)
    requires j < |logFiles| && !(Plays(logFiles[j]).Ok? && songs.Rows? && artists.Rows?)
    ensures !(songs.Rows? && artists.Rows? && AllPlays(logFiles).Ok?)
  {
  }

  /** The second loop of `load_data`: every log file in turn, processed
      against the loaded songs and artists; time rows and songplays are
      appended, and the users are de-duplicated again after each file so
      that the earliest file's row of a user wins. */
  method LoadLogs(logFiles: seq<seq<LogEvent>>, songs: Frame<SongRow>, artists: Frame<ArtistRow>, clock: Clock)
    returns (r: Result<LogTotals>)
    ensures r.Ok? <==> logFiles == [] || (songs.Rows? && artists.Rows? && AllPlays(logFiles).Ok?)
    ensures r.Ok? ==> Accumulated(r.value, |logFiles|, Flatten(AllPlays(logFiles).value),
                                  SongArtist(songs.Records(), artists.Records()), clock)
  {
    var totals := LogTotals(NoColumns, NoColumns, NoColumns);
    ghost var joined := SongArtist(songs.Records(), artists.Records());
    var j := 0;
    ghost var pss: seq<seq<Play>> := [];
    while j < |logFiles|
      invariant 0 <= j <= |logFiles|
      invariant AllPlays(logFiles[..j]) == Ok(pss)
      invariant j > 0 ==> songs.Rows? && artists.Rows?
      invariant Accumulated(totals, j, Flatten(pss), joined, clock)
    {
      var file := ProcessLogFile(logFiles[j], songs, artists, clock);
      if file.Err? {
        LogLoopFails(logFiles, j, songs, artists);
        return Err(file.error);
      }
      ghost var ps := Plays(logFiles[j]).value;
      LogLoopStep(logFiles, j, pss, totals, file.value, joined, clock);
      totals := AddLogFile(totals, file.value);
      pss := pss + [ps];
      j := j + 1;
    }
    assert logFiles[..j] == logFiles;
    r := Ok(totals);
  }

  /** `load_data`: all song files first, then all log files against every
      song and artist loaded; any file that raises aborts the load. */
  method LoadData(songFiles: seq<seq<SongRecord>>, logFiles: seq<seq<LogEvent>>, clock: Clock)
    returns (r: Result<Tables>)
    ensures r.Ok? <==>
      && (forall k :: 0 <= k < |songFiles| ==> songFiles[k] != [])
      && (logFiles != [] ==> songFiles != [] && AllPlays(logFiles).Ok?)
    ensures r.Ok? ==>
      var recs := Flatten(songFiles);
      var t := r.value;
      var ps := Flatten(AllPlays(logFiles).value);
      && t.songs.Records() == SongRows(recs) && (t.songs.NoColumns? <==> songFiles == [])
      && t.artists.Records() == ArtistRows(recs) && (t.artists.NoColumns? <==> songFiles == [])
      && Accumulated(LogTotals(t.time, t.users, t.songplays), |logFiles|, ps,
                     SongArtist(SongRows(recs), ArtistRows(recs)), clock)
  {
    var loaded := LoadSongs(songFiles);
    if loaded.Err? {
      return Err(loaded.error);
    }
    var logs := LoadLogs(logFiles, loaded.value.songs, loaded.value.artists, clock);
    if logs.Err? {
      return Err(logs.error);
    }
    r := Ok(Tables(loaded.value.songs, loaded.value.artists, logs.value.users, logs.value.time, logs.value.songplays));
  }

  /** The songs table is every song file's songs in file order, so its
      length is the sum of the files' lengths. */
  lemma LoadedSongsConcatenate(songFiles: seq<seq<SongRecord>>)
    ensures |SongRows(Flatten(songFiles))| == TotalLength(songFiles)
  {
    FlattenLength(songFiles);
  }

  /** The loaded user table: one row per user id of any retained event of
      any log file, no id twice, each the row of the earliest event, in
      file order, that carries the id. */
  lemma LoadedUsersUnique(ps: seq<Play>)
    ensures var users := DedupFirst(UserRows(ps), UserKey);
      && UniqueKeys(users, UserKey)
      && (forall p :: p in ps ==> exists u :: u in users && u.userId == p.userId)
      && (forall u :: u in users ==> FirstWithKey(UserRows(ps), UserKey, u.userId) == Some(u))
  {
    var rows := UserRows(ps);
    var users := DedupFirst(rows, UserKey);
    DedupFromSpec(rows, UserKey, {});
    forall p | p in ps
      ensures exists u :: u in users && u.userId == p.userId
    {
      var k :| 0 <= k < |ps| && ps[k] == p;
      assert rows[k] in rows && UserKey(rows[k]) == p.userId;
      assert p.userId in Keys(users, UserKey);
    }
    forall u | u in users
      ensures FirstWithKey(rows, UserKey, u.userId) == Some(u)
    {
      var k :| 0 <= k < |users| && users[k] == u;
    }
  }

  /** Loading one more log file never replaces a user already loaded: the
      earlier table is a prefix of the new one, which only adds ids the
      earlier files did not have. */
  lemma LaterFileNeverOverridesUser(before: seq<Play>, file: seq<Play>)
    ensures var kept, grown := DedupFirst(UserRows(before), UserKey), DedupFirst(UserRows(before + file), UserKey);
      && |kept| <= |grown|
      && grown[..|kept|] == kept
      && forall i :: |kept| <= i < |grown| ==> grown[i].userId !in Keys(UserRows(before), UserKey)
  {
    UserRowsAppend(before, file);
    EarlierRowsKept(UserRows(before), UserRows(file), UserKey);
  }

  // ---------------------------------------------------------------------
  // Dashboard aggregations

  type Listener = (PlayRow, Option<UserRow>)

  function PlayUserKey(p: PlayRow): int { p.userId }

  /** `songplays.merge(users, how='left', left_on='user_id', right_on='userId')`. */
  function Listeners(songplays: seq<PlayRow>, users: seq<UserRow>): seq<Listener>
  {
    LeftJoin(songplays, users, PlayUserKey, UserKey)
  }

  function FullName(u: UserRow): string
  {
    u.firstName + " " + u.lastName
  }

  /** The `Name` column; a songplay with no user has no name and is left
      out of the group-by. */
  function Names(ls: seq<Listener>): seq<string>
  {
    if ls == [] then []
    else
      var last := ls[|ls| - 1];
      Names(ls[..|ls| - 1]) + (if last.1.Some? then [FullName(last.1.value)] else [])
  }

  /** The `level_x` column: the level recorded with the songplay. */
  function Levels(ls: seq<Listener>): (r: seq<string>)
    ensures |r| == |ls| && forall i :: 0 <= i < |ls| ==> r[i] == ls[i].0.level
  {
    seq(|ls|, i requires 0 <= i < |ls| => ls[i].0.level)
  }

  /** The `gender` column; a songplay with no user has none. */
  function Genders(ls: seq<Listener>): seq<string>
  {
    if ls == [] then []
    else
      var last := ls[|ls| - 1];
      Genders(ls[..|ls| - 1]) + (if last.1.Some? then [last.1.value.gender] else [])
  }

  /** `groupby(['Name'])['user_id'].count().sort_values(['count'], ascending=False)`. */
  function TopListeners(ls: seq<Listener>): seq<(string, nat)>
  {
    SortByCount(GroupCount(Names(ls)))
  }

  /** The bars of the top-listeners chart: `values[:10]`. */
  function TopListenersChart(ls: seq<Listener>): seq<(string, nat)>
  {
    Top(TopListeners(ls), 10)
  }

  function PlaysByLevel(ls: seq<Listener>): seq<(string, nat)>
  {
    SortByCount(GroupCount(Levels(ls)))
  }

  /** The display label of a gender code. */
  function GenderLabel(code: string): (shown: string)
    ensures shown == "Female" <==> code == "F"
    ensures shown == "Female" || shown == "Male"
  {
    if code == "F" then "Female" else "Male"
  }

  function Labelled(groups: seq<(string, nat)>): (r: seq<(string, nat)>)
    ensures |r| == |groups|
    ensures forall i :: 0 <= i < |groups| ==> r[i] == (GenderLabel(groups[i].0), groups[i].1)
  {
    seq(|groups|, i requires 0 <= i < |groups| => (GenderLabel(groups[i].0), groups[i].1))
  }

  /** Counted per gender code, ordered by count, then labelled. */
  function PlaysByGender(ls: seq<Listener>): seq<(string, nat)>
  {
    Labelled(SortByCount(GroupCount(Genders(ls))))
  }

  /** A ranking of play counts: ordered by count, descending, one entry per
      distinct key, each holding the number of plays with that key, and
      together covering every play counted. */
  ghost predicate IsRanking(keys: seq<string>, r: seq<(string, nat)>)
  {
    && DescendingByCount(r)
    && DistinctKeys(r)
    && (forall p :: p in r ==> p.1 == Count(keys, p.0) && p.1 > 0)
    && (forall k :: k in keys ==> exists p :: p in r && p.0 == k)
    && SumCounts(r) == |keys|
  }

  lemma RankingSpec(keys: seq<string>)
    ensures IsRanking(keys, SortByCount(GroupCount(keys)))
  {
    var g := GroupCount(keys);
    GroupCountSpec(keys);
    SortByCountSpec(g);
    var r := SortByCount(g);
    forall k | k in keys
      ensures exists p :: p in r && p.0 == k
    {
      var p :| p in g && p.0 == k;
      assert p in r;
    }
  }

  /** The top-listeners table is a ranking of the listener names, and its
      counts add up to the number of merged rows that carry a user (one per
      songplay once user ids are unique, see `EveryPlayFindsItsUser`). */
  lemma TopListenersSpec(ls: seq<Listener>)
    ensures IsRanking(Names(ls), TopListeners(ls))
    ensures SumCounts(TopListeners(ls)) == |Names(ls)|
  {
    RankingSpec(Names(ls));
  }

  /** The chart shows at most ten listeners, and none left out has more
      plays than one shown. */
  lemma TopListenersChartSpec(ls: seq<Listener>)
    ensures var all, chart := TopListeners(ls), TopListenersChart(ls);
      && |chart| <= 10
      && chart == all[..|chart|]
      && forall i, j :: 0 <= i < |chart| <= j < |all| ==> chart[i].1 >= all[j].1
  {
    RankingSpec(Names(ls));
  }

  lemma PlaysByLevelSpec(ls: seq<Listener>)
    ensures IsRanking(Levels(ls), PlaysByLevel(ls))
    ensures SumCounts(PlaysByLevel(ls)) == |ls|
  {
    RankingSpec(Levels(ls));
  }

  /** The gender chart ranks the gender codes and labels each bar 'Female'
      exactly when its code is 'F', 'Male' otherwise. */
  lemma PlaysByGenderSpec(ls: seq<Listener>)
    ensures var ranked, chart := SortByCount(GroupCount(Genders(ls))), PlaysByGender(ls);
      && IsRanking(Genders(ls), ranked)
      && |chart| == |ranked|
      && forall i :: 0 <= i < |chart| ==>
           chart[i].1 == ranked[i].1 && (chart[i].0 == "Female" <==> ranked[i].0 == "F")
  {
    RankingSpec(Genders(ls));
  }

  lemma {:induction false} NamesWhenAllJoined(ls: seq<Listener>)
    requires forall i :: 0 <= i < |ls| ==> ls[i].1.Some?
    ensures |Names(ls)| == |ls|
  {
    if ls != [] {
      NamesWhenAllJoined(ls[..|ls| - 1]);
    }
  }

  /** Merging songplays with a users table that has each id at most once,
      and every id of the songplays, pairs each songplay with its user,
      one row per songplay, in order. */
  lemma ListenersAllJoined(sp: seq<PlayRow>, users: seq<UserRow>)
    requires UniqueKeys(users, UserKey)
    requires forall i :: 0 <= i < |sp| ==> exists u :: u in users && u.userId == sp[i].userId
    ensures var ls := Listeners(sp, users);
      && |ls| == |sp|
      && forall i :: 0 <= i < |ls| ==> ls[i].0 == sp[i] && ls[i].1.Some? && ls[i].1.value.userId == sp[i].userId
  {
    var ls := Listeners(sp, users);
    LeftJoinUniqueRight(sp, users, PlayUserKey, UserKey);
    LeftJoinSpec(sp, users, PlayUserKey, UserKey);
    forall i | 0 <= i < |ls|
      ensures ls[i].1.Some? && ls[i].1.value.userId == sp[i].userId
    {
      assert ls[i] in ls;
      var u :| u in users && u.userId == sp[i].userId;
      assert UserKey(u) == PlayUserKey(sp[i]);
    }
  }

  /** After a load every songplay finds exactly one user, since the user
      table holds every id of the retained events once: the listener table
      has one row per songplay and the per-name counts add up to the number
      of songplays. */
  lemma EveryPlayFindsItsUser(ps: seq<Play>, joined: seq<Joined>, clock: Clock)
    ensures var sp, users := PlayRows(ps, joined, clock), DedupFirst(UserRows(ps), UserKey);
      var ls := Listeners(sp, users);
      && |ls| == |sp|
      && (forall i :: 0 <= i < |ls| ==> ls[i].0 == sp[i] && ls[i].1.Some? && ls[i].1.value.userId == sp[i].userId)
      && SumCounts(TopListeners(ls)) == |sp|
  {
    var sp, users := PlayRows(ps, joined, clock), DedupFirst(UserRows(ps), UserKey);
    LoadedUsersUnique(ps);
    forall i | 0 <= i < |sp|
      ensures exists u :: u in users && u.userId == sp[i].userId
    {
      assert ps[i] in ps && sp[i].userId == ps[i].userId;
    }
    ListenersAllJoined(sp, users);
    var ls := Listeners(sp, users);
    NamesWhenAllJoined(ls);
    TopListenersSpec(ls);
  }

  datatype Charts = Charts(topListeners: seq<(string, nat)>, byLevel: seq<(string, nat)>, byGender: seq<(string, nat)>)

  /** The three charts of the dashboard over the loaded tables; the merge
      raises when either table is still the column-less `pd.DataFrame()`. */
  function Dashboard(t: Tables): (r: Result<Charts>)
    ensures r.Ok? <==> t.songplays.Rows? && t.users.Rows?
    ensures r.Ok? ==> |r.value.topListeners| <= 10
  {
    if t.songplays.NoColumns? then Err(MissingColumn("user_id"))
    else if t.users.NoColumns? then Err(MissingColumn("userId"))
    else
      var ls := Listeners(t.songplays.rows, t.users.rows);
      Ok(Charts(TopListenersChart(ls), PlaysByLevel(ls), PlaysByGender(ls)))
  }
}
