/** The pure helpers of the recorder controller: the recording file name, the storage
    root, the folder-access decision and the "mm:ss" rendering of the elapsed time. */
module RecordFormats {
  import opened Wrappers
  import opened Digits

  /** Name of the application folder under the storage root. */
  const DIRECTORY_NAME: string := "VoiceRecorder"
  /** Extension appended after the formatted date. */
  const FILE_EXTENSION: string := ".m4a"
  /** Build.VERSION_CODES.S, the first SDK level with a public recordings directory. */
  const SDK_S: int := 31
  /** Value the formatted timer shows before any elapsed time has been mapped. */
  const INITIAL_FORMATTED_TIMER: string := "00:00:00"
  /** Milliseconds in one day: LocalTime accepts nanos-of-day below this many milliseconds. */
  const DAY_MILLIS: int := 86_400_000

  /** A reading of the wall clock, in the calendar fields the file-name pattern uses. */
  datatype DateStamp = DateStamp(year: nat, month: nat, day: nat, hour: nat, minute: nat, second: nat)

  predicate ValidDate(d: DateStamp) {
    1 <= d.month <= 12 && 1 <= d.day <= 31 && d.hour < 24 && d.minute < 60 && d.second < 60
  }

  /** The two directories the platform offers as storage root. */
  datatype Environment = Environment(recordingsDirectory: string, externalStorageDirectory: string)

  /** The two facts of the filesystem that the folder set-up depends on. */
  datatype FileSystem = FileSystem(rootExists: bool, mkdirsSucceeds: bool)

  /** Outcome of the folder set-up: whether recording is allowed and whether mkdirs was called. */
  datatype FolderDecision = FolderDecision(canAccess: bool, mkdirsAttempted: bool)

  /** File names as the pattern yyMMdd_HHmmss followed by ".m4a" renders them. */
  predicate IsRecordingFileName(s: string) {
    |s| == 17
    && (forall i :: 0 <= i < 6 ==> IsDigit(s[i]))
    && s[6] == '_'
    && (forall i :: 7 <= i < 13 ==> IsDigit(s[i]))
    && s[13..] == FILE_EXTENSION
  }

  /** The six two-digit fields of a recording file name, in order yy MM dd HH mm ss. */
  function FileNameFields(s: string): seq<int>
    requires IsRecordingFileName(s)
  {
    [TwoDigitValue(s[0..2]), TwoDigitValue(s[2..4]), TwoDigitValue(s[4..6]),
     TwoDigitValue(s[7..9]), TwoDigitValue(s[9..11]), TwoDigitValue(s[11..13])]
  }

  /** generateFileName with its default pattern "yyMMdd_HHmmss" and extension ".m4a":
      the name has the recording-name shape and its fields read back as the two-digit
      year and the month, day, hour, minute and second of the clock reading. */
  function GenerateFileName(d: DateStamp): (r: string)
    requires ValidDate(d)
    ensures IsRecordingFileName(r)
    ensures FileNameFields(r) == [d.year % 100, d.month, d.day, d.hour, d.minute, d.second]
  {
    var date := Pad2(d.year % 100) + Pad2(d.month) + Pad2(d.day) + "_"
                + Pad2(d.hour) + Pad2(d.minute) + Pad2(d.second);
    assert date[0..2] == Pad2(d.year % 100) && date[2..4] == Pad2(d.month);
    assert date[4..6] == Pad2(d.day) && date[7..9] == Pad2(d.hour);
    assert date[9..11] == Pad2(d.minute) && date[11..13] == Pad2(d.second);
    date + FILE_EXTENSION
  }

  /** Two clock readings give the same file name exactly when they agree on the two-digit
      year and on month, day, hour, minute and second. */
  lemma {:induction false} FileNameDeterminesStamp(d1: DateStamp, d2: DateStamp)
    requires ValidDate(d1) && ValidDate(d2)
    ensures GenerateFileName(d1) == GenerateFileName(d2)
        <==> (d1.year % 100 == d2.year % 100 && d1.month == d2.month && d1.day == d2.day
              && d1.hour == d2.hour && d1.minute == d2.minute && d1.second == d2.second)
  {
    if GenerateFileName(d1) == GenerateFileName(d2) {
      assert FileNameFields(GenerateFileName(d1)) == FileNameFields(GenerateFileName(d2));
    }
  }

  /** storagePath: the public recordings directory from SDK level S on, the external
      storage root before it. */
  function StoragePath(sdk: int, env: Environment): (r: string)
    ensures sdk >= SDK_S ==> r == env.recordingsDirectory
    ensures sdk < SDK_S ==> r == env.externalStorageDirectory
  {
    if sdk >= SDK_S then env.recordingsDirectory else env.externalStorageDirectory
  }

  /** The application folder under a storage root, "root/VoiceRecorder". */
  function AppFolder(root: string): (r: string)
    ensures |r| == |root| + 1 + |DIRECTORY_NAME|
    ensures r[..|root|] == root && r[|root|] == '/' && r[|root| + 1..] == DIRECTORY_NAME
  {
    root + "/" + DIRECTORY_NAME
  }

  /** The `when` of createStorageFolder: access is granted when the storage root exists,
      and otherwise only if creating the application folder succeeds; the folder is
      created only when the root is missing. */
  function AccessDecision(fs: FileSystem): (d: FolderDecision)
    ensures d.canAccess <==> fs.rootExists || fs.mkdirsSucceeds
    ensures d.mkdirsAttempted <==> !fs.rootExists
  {
    if fs.rootExists then FolderDecision(true, false)
    else FolderDecision(fs.mkdirsSucceeds, true)
  }

  predicate IsClockText(s: string) {
    |s| == 5 && IsTwoDigits(s[0..2]) && s[2] == ':' && IsTwoDigits(s[3..5])
  }

  function ClockMinutes(s: string): int
    requires IsClockText(s)
  {
    TwoDigitValue(s[0..2])
  }

  function ClockSeconds(s: string): int
    requires IsClockText(s)
  {
    TwoDigitValue(s[3..5])
  }

  /** Splitting whole seconds into the minute-of-hour and second-of-minute fields. */
  lemma {:induction false} MinuteSecondSplit(ms: nat)
    ensures (ms / 60_000) % 60 == ((ms / 1000) % 3600) / 60
    ensures (ms / 1000) % 60 == ((ms / 1000) % 3600) % 60
  {
    var q, r := ms / 1000, ms % 1000;
    var p, s := q / 60, q % 60;
    var h, m := p / 60, p % 60;
    assert ms / 60_000 == p by {
      assert ms == 60_000 * p + (1000 * s + r) && 0 <= 1000 * s + r < 60_000;
    }
    assert q % 3600 == 60 * m + s by {
      assert q == 3600 * h + (60 * m + s) && 0 <= 60 * m + s < 3600;
    }
    assert (60 * m + s) / 60 == m && (60 * m + s) % 60 == s;
  }

  /** formattedTimer's mapping: LocalTime.ofNanoOfDay rejects values outside one day
      (None); otherwise the text is "mm:ss", minute-of-hour and second-of-minute, so it
      shows the whole elapsed seconds modulo one hour. */
  function FormatTimer(ms: int): (r: Option<string>)
    ensures r.Some? <==> 0 <= ms < DAY_MILLIS
    ensures r.Some? ==> IsClockText(r.value)
    ensures r.Some? ==> ClockMinutes(r.value) < 60 && ClockSeconds(r.value) < 60
    ensures r.Some? ==> 60 * ClockMinutes(r.value) + ClockSeconds(r.value) == (ms / 1000) % 3600
  {
    if 0 <= ms < DAY_MILLIS then
      MinuteSecondSplit(ms);
      var text := Pad2((ms / 60_000) % 60) + ":" + Pad2((ms / 1000) % 60);
      assert text[0..2] == Pad2((ms / 60_000) % 60) && text[3..5] == Pad2((ms / 1000) % 60);
      Some(text)
    else
      None
  }

  /** Two elapsed times within one day render the same "mm:ss" text exactly when they
      have the same whole seconds modulo one hour: the hour is dropped. */
  lemma {:induction false} FormatTimerEqualIff(a: int, b: int)
    requires 0 <= a < DAY_MILLIS && 0 <= b < DAY_MILLIS
    ensures FormatTimer(a) == FormatTimer(b) <==> (a / 1000) % 3600 == (b / 1000) % 3600
  {
    MinuteSecondSplit(a);
    MinuteSecondSplit(b);
  }

  /** Less than one whole second of elapsed time, and in particular the reset total 0,
      renders as "00:00". */
  lemma {:induction false} FormatTimerBelowOneSecond(ms: int)
    requires 0 <= ms < 1000
    ensures FormatTimer(ms) == Some("00:00")
  {
    assert ms / 60_000 == 0 && ms / 1000 == 0;
    assert Pad2(0) == "00";
    assert Pad2(0) + ":" + Pad2(0) == "00:00";
  }

  /** The initial value of the formatted timer is not a value the mapping produces. */
  lemma InitialTimerTextIsNotMapped(ms: int)
    requires 0 <= ms < DAY_MILLIS
    ensures FormatTimer(ms) != Some(INITIAL_FORMATTED_TIMER)
  {
  }
}
