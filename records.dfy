/** The parsed input records of the pipeline, the rows of the star schema
    built from them, and the two steps both loaders share: keeping only the
    `NextSong` page views and converting their `userId` to an integer. */
module Records {
  import opened Frames

  /** A Python float read from JSON (duration, length, latitude,
      longitude); the pipeline only compares such values for equality. */
  type Float(==, !new)

  /** The naive local datetime `datetime.fromtimestamp(ts / 1000.0)`. */
  type DateTime(==, !new)

  /** The calendar fields pandas derives from a datetime. */
  datatype Calendar = Calendar(hour: int, day: int, week: int, month: int, year: int, weekday: int)

  /** The local clock: milliseconds since the epoch to a local datetime, and
      a datetime to its hour, day, ISO week, month, year and weekday. */
  datatype Clock = Clock(local: int -> DateTime, calendar: DateTime -> Calendar)

  /** The exceptions the loaders can raise on their input. */
  datatype Error =
    | MissingColumn(column: string)   // KeyError: a column the frame does not have
    | NotAnInteger(text: string)      // ValueError from int() on a userId
    | NotDatetimeLike(column: string) // AttributeError: `.dt` on a column without datetimes

  datatype Result<+T> = Ok(value: T) | Err(error: Error)

  datatype Outcome = Pass | Fail(error: Error)

  /** One JSON record of a song file. */
  datatype SongRecord = SongRecord(
    numSongs: int,
    artistId: string,
    artistLatitude: Float,
    artistLongitude: Float,
    artistLocation: string,
    artistName: string,
    songId: string,
    title: string,
    duration: Float,
    year: int)

  /** One JSON record of a log file: a page view of the streaming app. */
  datatype LogEvent = LogEvent(
    artist: string,
    firstName: string,
    gender: string,
    lastName: string,
    length: Float,
    level: string,
    location: string,
    page: string,
    sessionId: int,
    song: string,
    ts: int,
    userAgent: string,
    userId: string)

  datatype SongRow = SongRow(songId: string, title: string, artistId: string, year: int, duration: Float)

  datatype ArtistRow = ArtistRow(artistId: string, name: string, location: string, latitude: Float, longitude: Float)

  datatype UserRow = UserRow(userId: int, firstName: string, lastName: string, gender: string, level: string)

  datatype TimeRow = TimeRow(start: DateTime, fields: Calendar)

  /** A songplay fact row; the two loaders differ only in how they write a
      song or artist id that could not be resolved, hence the parameter. */
  datatype Songplay<Id> = Songplay(
    start: DateTime,
    userId: int,
    level: string,
    songId: Id,
    artistId: Id,
    sessionId: int,
    location: string,
    userAgent: string)

  /** A retained page view whose `userId` has been converted to an integer. */
  datatype Play = Play(
    ts: int,
    userId: int,
    firstName: string,
    lastName: string,
    gender: string,
    level: string,
    song: string,
    artist: string,
    length: Float,
    sessionId: int,
    location: string,
    userAgent: string)

  /** What a songplay is resolved by: song title, artist name and duration. */
  datatype SongKey = SongKey(title: string, artistName: string, duration: Float)

  /** The song file record put back together from its two projections. */
  function Reassemble(song: SongRow, artist: ArtistRow, numSongs: int): SongRecord
  {
    SongRecord(numSongs, song.artistId, artist.latitude, artist.longitude, artist.location,
               artist.name, song.songId, song.title, song.duration, song.year)
  }

  /** Column selection `[song_id, title, artist_id, year, duration]`: with
      the artist row of the same record it puts the record back together,
      and both rows carry the record's artist id, the key they are joined
      on. */
  function SongRowOf(rec: SongRecord): (row: SongRow)
    ensures Reassemble(row, ArtistRowOf(rec), rec.numSongs) == rec
    ensures ArtistRowOf(rec).artistId == row.artistId == rec.artistId
  {
    SongRow(rec.songId, rec.title, rec.artistId, rec.year, rec.duration)
  }

  /** Column selection `[artist_id, artist_name, artist_location,
      artist_latitude, artist_longitude]`. */
  function ArtistRowOf(rec: SongRecord): (artist: ArtistRow)
    ensures artist.artistId == rec.artistId
  {
    ArtistRow(rec.artistId, rec.artistName, rec.artistLocation, rec.artistLatitude, rec.artistLongitude)
  }

  const NextSongPage := "NextSong"

  predicate IsNextSong(e: LogEvent)
  {
    e.page == NextSongPage
  }

  /** `df[df['page'] == 'NextSong']`. */
  function NextSong(events: seq<LogEvent>): seq<LogEvent>
  {
    Filter(events, IsNextSong)
  }

  function DigitValue(c: char): Option<nat>
  {
    if '0' <= c <= '9' then Some((c - '0') as nat) else None
  }

  /** A non-empty run of decimal digits, read as a natural number. */
  function ParseDigits(s: string): Option<nat>
  {
    if s == [] then None
    else
      var d := DigitValue(s[|s| - 1]);
      if d.None? then None
      else if |s| == 1 then d
      else
        var prefix := ParseDigits(s[..|s| - 1]);
        if prefix.None? then None else Some(10 * prefix.value + d.value)
  }

  /** `int(userId)` on the text of a `userId`: an optional sign followed by
      decimal digits; anything else (the empty id of a logged-out visitor,
      for one) is refused. */
  function ParseUserId(s: string): Option<int>
  {
    var signed := |s| > 0 && (s[0] == '-' || s[0] == '+');
    var n := ParseDigits(if signed then s[1..] else s);
    if n.None? then None
    else
      var v: int := n.value;
      if signed && s[0] == '-' then Some(-v) else Some(v)
  }

  /** The decimal text of a natural number, as `str` writes it. */
  function DigitsText(n: nat): (s: string)
    ensures |s| > 0 && '0' <= s[0] <= '9'
  {
    if n < 10 then [('0' as int + n) as char]
    else DigitsText(n / 10) + [('0' as int + n % 10) as char]
  }

  /** The decimal text of an integer, as `str` writes it. */
  function IntText(n: int): string
  {
    if n < 0 then "-" + DigitsText(-n) else DigitsText(n)
  }

  lemma {:induction false} DigitsRoundTrip(n: nat)
    ensures ParseDigits(DigitsText(n)) == Some(n)
  {
    if n >= 10 {
      DigitsRoundTrip(n / 10);
      var s := DigitsText(n);
      assert s[..|s| - 1] == DigitsText(n / 10);
    }
  }

  /** `ParseUserId` agrees with `str`: reading back the decimal text of any
      integer gives that integer, and the empty id is refused. */
  lemma UserIdRoundTrip(n: int)
    ensures ParseUserId(IntText(n)) == Some(n)
    ensures ParseUserId("") == None
  {
    assert ParseDigits("") == None;
    var s := IntText(n);
    if n < 0 {
      var d := DigitsText(-n);
      DigitsRoundTrip(-n);
      assert s == "-" + d;
      assert s[0] == '-' && s[1..] == d;
    } else {
      var d := DigitsText(n);
      DigitsRoundTrip(n);
      assert s == d;
      assert s[0] != '-' && s[0] != '+';
    }
  }

  function PlayOf(e: LogEvent, userId: int): Play
  {
    Play(e.ts, userId, e.firstName, e.lastName, e.gender, e.level, e.song, e.artist, e.length,
         e.sessionId, e.location, e.userAgent)
  }

  /** `df['userId'].apply(lambda x: int(x))`: converts row by row, in order,
      and raises on the first id that is not an integer. */
  function ToPlays(kept: seq<LogEvent>): (r: Result<seq<Play>>)
    ensures r.Ok? ==> |r.value| == |kept|
    ensures r.Ok? ==> forall i :: 0 <= i < |kept| ==>
      ParseUserId(kept[i].userId).Some? && r.value[i] == PlayOf(kept[i], ParseUserId(kept[i].userId).value)
    ensures r.Err? ==>
      exists i :: 0 <= i < |kept| && ParseUserId(kept[i].userId).None? && r.error == NotAnInteger(kept[i].userId)
  {
    if kept == [] then Ok([])
    else
      var init, last := kept[..|kept| - 1], kept[|kept| - 1];
      var prefix := ToPlays(init);
      if prefix.Err? then prefix
      else
        var id := ParseUserId(last.userId);
        if id.None? then Err(NotAnInteger(last.userId))
        else Ok(prefix.value + [PlayOf(last, id.value)])
  }

  /** The steps both log loaders take before building any row: an empty
      file has no `page` column; otherwise keep the `NextSong` rows and
      convert their ids. When no row is kept, `apply` leaves the empty
      `ts_datetime` column at the integer type of `ts`, and the `.dt`
      accessor the time fields need refuses it. */
  function Plays(events: seq<LogEvent>): Result<seq<Play>>
  {
    if events == [] then Err(MissingColumn("page"))
    else
      var converted := ToPlays(NextSong(events));
      if converted.Ok? && converted.value == [] then Err(NotDatetimeLike("ts_datetime"))
      else converted
  }

  /** A file loads exactly when it holds at least one `NextSong` event and
      every such event's id is an integer; a visit to any other page never
      matters, and every play a file yields is one of its `NextSong`
      events, in order. */
  lemma PlaysSpec(events: seq<LogEvent>)
    ensures Plays(events).Ok? <==>
      && (exists e :: e in events && IsNextSong(e))
      && (forall e :: e in events && IsNextSong(e) ==> ParseUserId(e.userId).Some?)
    ensures Plays(events).Ok? ==>
      var kept, ps := NextSong(events), Plays(events).value;
      && |ps| == |kept| > 0
      && forall i :: 0 <= i < |kept| ==> ps[i] == PlayOf(kept[i], ParseUserId(kept[i].userId).value)
  {
    var kept := NextSong(events);
    if exists e :: e in events && IsNextSong(e) {
      var e :| e in events && IsNextSong(e);
      assert e in kept;
      if forall e :: e in events && IsNextSong(e) ==> ParseUserId(e.userId).Some? {
        ToPlaysOk(kept);
      }
    }
  }

  lemma {:induction false} ToPlaysOk(kept: seq<LogEvent>)
    requires forall i :: 0 <= i < |kept| ==> ParseUserId(kept[i].userId).Some?
    ensures ToPlays(kept).Ok?
  {
    if kept != [] {
      ToPlaysOk(kept[..|kept| - 1]);
    }
  }

  /** Only `NextSong` events reach the tables: inserting any other page view
      anywhere in a file leaves its retained plays unchanged. */
  lemma OtherPagesIgnored(before: seq<LogEvent>, e: LogEvent, after: seq<LogEvent>)
    requires !IsNextSong(e)
    requires before + after != []
    ensures Plays(before + [e] + after) == Plays(before + after)
  {
    FilterAppend(before + [e], after, IsNextSong);
    FilterAppend(before, [e], IsNextSong);
    FilterAppend(before, after, IsNextSong);
    assert Filter([e], IsNextSong) == [] by {
      assert [e][..0] == [];
    }
  }

  function UserKey(u: UserRow): int { u.userId }

  function UserRowOf(p: Play): UserRow
  {
    UserRow(p.userId, p.firstName, p.lastName, p.gender, p.level)
  }

  function TimeRowOf(p: Play, clock: Clock): TimeRow
  {
    var t := clock.local(p.ts);
    TimeRow(t, clock.calendar(t))
  }

  function KeyOf(p: Play): SongKey
  {
    SongKey(p.song, p.artist, p.length)
  }

  function SongplayOf<Id>(p: Play, clock: Clock, songId: Id, artistId: Id): Songplay<Id>
  {
    Songplay(clock.local(p.ts), p.userId, p.level, songId, artistId, p.sessionId, p.location, p.userAgent)
  }

  /** `df[['userId', 'firstName', 'lastName', 'gender', 'level']]`, one row per play. */
  function UserRows(ps: seq<Play>): (r: seq<UserRow>)
    ensures |r| == |ps| && forall i :: 0 <= i < |ps| ==> r[i] == UserRowOf(ps[i])
  {
    seq(|ps|, i requires 0 <= i < |ps| => UserRowOf(ps[i]))
  }

  /** The time frame: one row per play, timestamps not de-duplicated. */
  function TimeRows(ps: seq<Play>, clock: Clock): (r: seq<TimeRow>)
    ensures |r| == |ps| && forall i :: 0 <= i < |ps| ==> r[i] == TimeRowOf(ps[i], clock)
  {
    seq(|ps|, i requires 0 <= i < |ps| => TimeRowOf(ps[i], clock))
  }

  function SongRows(recs: seq<SongRecord>): (r: seq<SongRow>)
    ensures |r| == |recs| && forall i :: 0 <= i < |recs| ==> r[i] == SongRowOf(recs[i])
  {
    seq(|recs|, i requires 0 <= i < |recs| => SongRowOf(recs[i]))
  }

  function ArtistRows(recs: seq<SongRecord>): (r: seq<ArtistRow>)
    ensures |r| == |recs| && forall i :: 0 <= i < |recs| ==> r[i] == ArtistRowOf(recs[i])
  {
    seq(|recs|, i requires 0 <= i < |recs| => ArtistRowOf(recs[i]))
  }
}
