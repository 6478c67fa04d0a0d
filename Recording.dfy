/** The recorder controller (RecordViewModel): a record/stop toggle that owns the capture
    handle, the recording flag, the elapsed-time total and the output file name.
    The platform recorder is an opaque value; the SDK level, the storage directories,
    the filesystem and the clock are inputs. */
module Recording {
  import opened Wrappers
  import opened RecordFormats
  import opened RecordTimer

  datatype AudioSource = DefaultSource | Mic
  datatype OutputFormat = DefaultFormat | ThreeGpp | Mpeg4
  datatype AudioEncoder = DefaultEncoder | AmrNb | Aac

  /** Where a capture handle is in its life: after start(), or after stop() and release(). */
  datatype Phase = Started | Released

  /** A MediaRecorder as the controller sees it: how it was built and configured, whether
      prepare() succeeded, and its phase. */
  datatype Recorder = Recorder(
    boundToContext: bool,
    source: AudioSource,
    format: OutputFormat,
    encoder: AudioEncoder,
    outputFile: string,
    prepared: bool,
    phase: Phase)

  /** The `apply` block: microphone, MPEG-4, AAC, the given output file, then prepare()
      (a failure is only logged) and start(). */
  function StartedRecorder(boundToContext: bool, outputFile: string, prepareSucceeds: bool): (r: Recorder)
    ensures r.source == Mic && r.format == Mpeg4 && r.encoder == Aac
    ensures r.outputFile == outputFile && r.boundToContext == boundToContext
    ensures r.prepared == prepareSucceeds && r.phase == Started
  {
    Recorder(boundToContext, Mic, Mpeg4, Aac, outputFile, prepareSucceeds, Started)
  }

  class RecordViewModel {
    /** Build.VERSION.SDK_INT and the platform's storage directories. */
    const sdk: int
    const env: Environment

    /** The lateinit mediaRecorder: None until the first recording starts. */
    var mediaRecorder: Option<Recorder>
    /** Recorders that were started and then lost their only reference without being
        stopped or released (the first of the two created from SDK level S on). */
    var orphaned: seq<Recorder>
    var fileName: string
    var canAccessAppFolder: bool
    var isRecording: bool
    var directoryName: string
    var timerMillis: int
    /** The value of the formattedTimer state flow: its initial value until the mapping of
        the total first runs, the "mm:ss" text of the total after that. */
    var formattedTimer: string
    /** startMillis of the timer flow currently collected. */
    var timerStart: int
    /** Paths mkdirs was called on, in order. */
    var mkdirsCalls: seq<string>

    ghost predicate Valid()
      reads this
    {
      directoryName == AppFolder(StoragePath(sdk, env))
      && timerMillis >= 0
      && (formattedTimer == INITIAL_FORMATTED_TIMER || IsClockText(formattedTimer))
      && (!isRecording ==> timerMillis == 0)
      && (!isRecording ==> mediaRecorder.None? || mediaRecorder.value.phase == Released)
      && (isRecording ==> canAccessAppFolder && mediaRecorder.Some?
                          && mediaRecorder.value.phase == Started
                          && mediaRecorder.value.outputFile == fileName)
      && (forall k :: 0 <= k < |orphaned| ==> orphaned[k].phase == Started)
    }

    /** The view model's construction: initializeAppSettings (createStorageFolder, then
        directoryName from the storage root) and the first timer flow, for `false`. */
    constructor (sdk: int, env: Environment, fs: FileSystem, now: int)
      ensures Valid()
      ensures this.sdk == sdk && this.env == env
      ensures canAccessAppFolder == AccessDecision(fs).canAccess
      ensures mkdirsCalls == if AccessDecision(fs).mkdirsAttempted then [AppFolder(StoragePath(sdk, env))] else []
      ensures directoryName == AppFolder(StoragePath(sdk, env))
      ensures !isRecording && timerMillis == 0 && fileName == ""
      ensures formattedTimer == INITIAL_FORMATTED_TIMER
      ensures mediaRecorder == None && orphaned == [] && timerStart == now
    {
      this.sdk := sdk;
      this.env := env;
      mediaRecorder := None;
      orphaned := [];
      fileName := "";
      isRecording := false;
      timerMillis := 0;
      formattedTimer := INITIAL_FORMATTED_TIMER;
      timerStart := now;
      // createStorageFolder: the existence test is on the root, mkdirs on the app folder.
      var path := StoragePath(sdk, env);
      var decision := AccessDecision(fs);
      mkdirsCalls := if fs.rootExists then [] else [AppFolder(path)];
      canAccessAppFolder := decision.canAccess;
      directoryName := AppFolder(path);
    }

    /** onRecord: stops the recording in progress, or else tries to start one. `date` is
        the clock reading generateFileName formats, `prepareSucceeds` and
        `prepareSucceedsS` the outcomes of the two prepare() calls, and `now` the clock
        reading of the timer flow restarted when the flag changes. */
    method OnRecord(date: DateStamp, prepareSucceeds: bool, prepareSucceedsS: bool, now: int)
      requires Valid() && ValidDate(date)
      modifies this`isRecording, this`timerMillis, this`timerStart, this`fileName, this`mediaRecorder, this`orphaned
      ensures Valid()
      ensures canAccessAppFolder == old(canAccessAppFolder) && directoryName == old(directoryName)
      ensures mkdirsCalls == old(mkdirsCalls) && formattedTimer == old(formattedTimer)
      // stop branch
      ensures old(isRecording) ==>
        !isRecording && timerMillis == 0 && timerStart == now
        && mediaRecorder == Some(old(mediaRecorder).value.(phase := Released))
        && fileName == old(fileName) && orphaned == old(orphaned)
      // start branch, folder accessible: prepare() failures do not stop it
      ensures !old(isRecording) && old(canAccessAppFolder) ==>
        var name := directoryName + "/" + GenerateFileName(date);
        isRecording && timerMillis == 0 && timerStart == now && fileName == name
        && mediaRecorder == Some(StartedRecorder(sdk >= SDK_S, name, if sdk >= SDK_S then prepareSucceedsS else prepareSucceeds))
        && orphaned == old(orphaned) + (if sdk >= SDK_S then [StartedRecorder(false, name, prepareSucceeds)] else [])
      // start branch, folder not accessible: nothing changes
      ensures !old(isRecording) && !old(canAccessAppFolder) ==>
        !isRecording && timerMillis == old(timerMillis) && timerStart == old(timerStart)
        && fileName == old(fileName) && mediaRecorder == old(mediaRecorder) && orphaned == old(orphaned)
    {
      if isRecording {
        StopRecordingAudio(now);
      } else {
        StartRecordingAudio(date, prepareSucceeds, prepareSucceedsS, now);
      }
    }

    /** startRecordingAudio: when the folder is accessible, sets the file name, starts a
        recorder (from SDK level S on a second one replaces it) and runs the onRecord
        callback, which raises the flag and so restarts the timer flow at `now`. */
    method StartRecordingAudio(date: DateStamp, prepareSucceeds: bool, prepareSucceedsS: bool, now: int)
      requires Valid() && !isRecording && ValidDate(date)
      modifies this`isRecording, this`timerStart, this`fileName, this`mediaRecorder, this`orphaned
      ensures Valid()
      ensures canAccessAppFolder ==>
        var name := directoryName + "/" + GenerateFileName(date);
        isRecording && timerStart == now && fileName == name
        && mediaRecorder == Some(StartedRecorder(sdk >= SDK_S, name, if sdk >= SDK_S then prepareSucceedsS else prepareSucceeds))
        && orphaned == old(orphaned) + (if sdk >= SDK_S then [StartedRecorder(false, name, prepareSucceeds)] else [])
      ensures !canAccessAppFolder ==>
        !isRecording && timerStart == old(timerStart)
        && fileName == old(fileName) && mediaRecorder == old(mediaRecorder) && orphaned == old(orphaned)
    {
      var name := GenerateFileName(date);
      if canAccessAppFolder {
        fileName := directoryName + "/" + name;
        StartRecorders(fileName, prepareSucceeds, prepareSucceedsS);
        // onRecord
        isRecording := true;
        timerStart := now;
      }
    }

    /** The recorders startRecordingAudio builds on `path`: one, and from SDK level S on a
        second, context-bound one that replaces it while the first stays started. */
    method StartRecorders(path: string, prepareSucceeds: bool, prepareSucceedsS: bool)
      requires forall k :: 0 <= k < |orphaned| ==> orphaned[k].phase == Started
      modifies this`mediaRecorder, this`orphaned
      ensures mediaRecorder == Some(StartedRecorder(sdk >= SDK_S, path, if sdk >= SDK_S then prepareSucceedsS else prepareSucceeds))
      ensures orphaned == old(orphaned) + (if sdk >= SDK_S then [StartedRecorder(false, path, prepareSucceeds)] else [])
      ensures forall k :: 0 <= k < |orphaned| ==> orphaned[k].phase == Started
    {
      mediaRecorder := Some(StartedRecorder(false, path, prepareSucceeds));
      if sdk >= SDK_S {
        // The first recorder is started and then dropped without stop() or release().
        orphaned := orphaned + [mediaRecorder.value];
        mediaRecorder := Some(StartedRecorder(true, path, prepareSucceedsS));
      }
    }

    /** stopRecordingAudio: stop() and release() on the current recorder, then the
        onStopRecording callback, which lowers the flag (restarting the timer flow at
        `now`) and resets the total to 0. */
    method StopRecordingAudio(now: int)
      requires Valid() && isRecording
      modifies this`isRecording, this`timerMillis, this`timerStart, this`mediaRecorder
      ensures Valid()
      ensures mediaRecorder == Some(old(mediaRecorder).value.(phase := Released))
      ensures !isRecording && timerMillis == 0 && timerStart == now
    {
      mediaRecorder := Some(mediaRecorder.value.(phase := Released));
      // onStopRecording
      isRecording := false;
      timerMillis := 0;
      timerStart := now;
    }

    /** The collector of the timer flow (`onEach`): runs the flow for the current flag from
        the current startMillis over the given iterations and adds every emission to the
        total. While recording the total grows by exactly the flow's elapsed total; when
        idle no emission happens and nothing changes. */
    method CollectTimer(ticks: seq<Tick>)
      requires Valid()
      modifies this`timerMillis, this`timerStart
      ensures Valid()
      ensures timerMillis >= old(timerMillis)
      ensures isRecording ==> timerMillis == old(timerMillis) + ElapsedTotal(old(timerStart), ticks)
                              && timerStart == StartOf(old(timerStart), ticks, |ticks|)
      ensures !isRecording ==> timerMillis == old(timerMillis) && timerStart == old(timerStart)
    {
      var emitted, startMillis := TimerFlow(isRecording, timerStart, ticks);
      var j := 0;
      while j < |emitted|
        invariant 0 <= j <= |emitted|
        invariant timerMillis == old(timerMillis) + Sum(emitted[..j])
      {
        assert emitted[..j + 1][..j] == emitted[..j];
        timerMillis := timerMillis + emitted[j];
        j := j + 1;
      }
      assert emitted[..|emitted|] == emitted;
      timerStart := startMillis;
    }

    /** One run of the formattedTimer mapping on the current total. Within a day the text
        becomes the "mm:ss" rendering, which is never the initial value, and "00:00"
        whenever idle; from one day on LocalTime throws and the text stays as it was. */
    method MapFormattedTimer()
      requires Valid()
      modifies this`formattedTimer
      ensures Valid()
      ensures timerMillis < DAY_MILLIS ==>
        FormatTimer(timerMillis) == Some(formattedTimer) && formattedTimer != INITIAL_FORMATTED_TIMER
      ensures timerMillis >= DAY_MILLIS ==> formattedTimer == old(formattedTimer)
      ensures !isRecording ==> formattedTimer == "00:00"
    {
      var text := FormatTimer(timerMillis);
      if text.Some? {
        InitialTimerTextIsNotMapped(timerMillis);
        if !isRecording {
          FormatTimerBelowOneSecond(timerMillis);
        }
        formattedTimer := text.value;
      }
    }
  }

  /** A recording session: start at t = 0 on 2024-01-01 12:00:00 with the storage root
      present, one timer iteration at t = 100, stop at t = 350. */
  method RecordingScenario(env: Environment)
  {
    var vm := new RecordViewModel(30, env, FileSystem(true, false), 0);
    assert vm.canAccessAppFolder && vm.mkdirsCalls == [];
    assert vm.formattedTimer == "00:00:00";
    vm.MapFormattedTimer();
    assert vm.formattedTimer == "00:00";
    var date := DateStamp(2024, 1, 1, 12, 0, 0);
    vm.OnRecord(date, true, true, 0);
    assert vm.isRecording && vm.fileName == AppFolder(env.externalStorageDirectory) + "/" + GenerateFileName(date);
    assert vm.orphaned == [];
    vm.CollectTimer([Tick(100, 100)]);
    assert vm.timerMillis == 100;
    vm.OnRecord(date, true, true, 350);
    assert !vm.isRecording && vm.timerMillis == 0;
    assert vm.mediaRecorder.value.phase == Released;
    vm.CollectTimer([Tick(450, 450), Tick(550, 550)]);
    assert vm.timerMillis == 0;
  }
}
