/** The playback mirror of the main activity: the three UI-bound values isVoicePlaying,
    progress and voiceDuration, kept in step with the media browser through a
    Player.Listener, a lifecycle observer and a once-per-second position poll, and the
    user actions (play, stop, seek) forwarded to the browser when it is connected.
    The browser is an opaque handle: what it reports is a PlayerSnapshot given as input,
    and what it is told is a log of commands. */
module Playback {

  /** What the browser reports when read: isPlaying, currentPosition and duration. */
  datatype PlayerSnapshot = PlayerSnapshot(isPlaying: bool, currentPosition: int, duration: int)

  /** Player.STATE_IDLE, STATE_BUFFERING, STATE_READY and STATE_ENDED. */
  datatype PlaybackState = StateIdle | StateBuffering | StateReady | StateEnded

  /** The three mirrored values, as the listener and the poll update them. */
  datatype Mirror = Mirror(isVoicePlaying: bool, progress: int, voiceDuration: int)

  /** A recorded voice as the catalogue hands it to the play action. */
  datatype Voice = Voice(title: string, path: string)

  /** The MediaItem the play action builds: media id, uri and the metadata fields set. */
  datatype MediaItem = MediaItem(mediaId: string, uri: string, title: string, isPlayable: bool)

  /** Commands the activity sends to the browser. */
  datatype Command = SetMediaItem(item: MediaItem) | Play | Stop | SeekTo(positionMs: int)

  /** A command together with the browser (numbered by the onStart that built it) it went to. */
  datatype Issued = Issued(browser: nat, command: Command)

  /** browserFuture: built and not yet done, done (the browser is connected), or handed to
      MediaBrowser.releaseFuture. */
  datatype Connection = Pending | Connected | Released

  /** Lifecycle.State and the lifecycle events the observer receives. */
  datatype LifecycleState = Destroyed | Initialized | Created | Started | Resumed
  datatype LifecycleEvent = OnCreate | OnStart | OnResume | OnPause | OnStop | OnDestroy

  /** Lifecycle.Event.targetState: the state the lifecycle is in right after the event. */
  function TargetState(e: LifecycleEvent): LifecycleState
  {
    match e
    case OnCreate => Created
    case OnStart => Started
    case OnResume => Resumed
    case OnPause => Started
    case OnStop => Created
    case OnDestroy => Destroyed
  }

  /** The observer's `targetState == STARTED` test fires on ON_START and also on ON_PAUSE. */
  lemma StartedSyncEvents(e: LifecycleEvent)
    ensures TargetState(e) == Started <==> e == OnStart || e == OnPause
  {
  }

  /** The `onPlay` builder: title and media id from the voice's title, uri from its path,
      marked playable. */
  function BuildMediaItem(voice: Voice): (item: MediaItem)
    ensures item.title == voice.title && item.mediaId == voice.title
    ensures item.uri == voice.path
    ensures item.isPlayable
  {
    MediaItem(voice.title, voice.path, voice.title, true)
  }

  /** The item carries the whole voice: two voices give the same item exactly when they
      are the same voice. */
  lemma BuildMediaItemInjective(v: Voice, w: Voice)
    ensures BuildMediaItem(v) == BuildMediaItem(w) <==> v == w
  {
  }

  /** onPlaybackStateChanged: IDLE takes the playing flag from the player and clears the
      duration, ENDED also clears the progress, BUFFERING changes nothing and READY takes
      duration and position from the player without touching the playing flag. */
  function AfterPlaybackState(m: Mirror, state: PlaybackState, p: PlayerSnapshot): (r: Mirror)
    ensures state == StateIdle ==> r == Mirror(p.isPlaying, m.progress, 0)
    ensures state == StateEnded ==> r == Mirror(p.isPlaying, 0, 0)
    ensures state == StateBuffering ==> r == m
    ensures state == StateReady ==> r == Mirror(m.isVoicePlaying, p.currentPosition, p.duration)
  {
    match state
    case StateIdle => m.(isVoicePlaying := p.isPlaying, voiceDuration := 0)
    case StateEnded => m.(isVoicePlaying := p.isPlaying, progress := 0, voiceDuration := 0)
    case StateBuffering => m
    case StateReady => m.(voiceDuration := p.duration, progress := p.currentPosition)
  }

  /** Every registered listener reads the same browser, so delivering one state change to
      several listeners leaves the mirror as delivering it to one does. */
  lemma AfterPlaybackStateIdempotent(m: Mirror, state: PlaybackState, p: PlayerSnapshot)
    ensures AfterPlaybackState(AfterPlaybackState(m, state, p), state, p) == AfterPlaybackState(m, state, p)
  {
  }

  /** After READY from a player whose position lies within its duration, the mirrored
      progress lies within the mirrored duration. */
  lemma ReadyProgressWithinDuration(m: Mirror, p: PlayerSnapshot)
    requires 0 <= p.currentPosition <= p.duration
    ensures 0 <= AfterPlaybackState(m, StateReady, p).progress <= AfterPlaybackState(m, StateReady, p).voiceDuration
  {
  }

  /** The STARTED sync: playing flag and progress are copied from the browser. */
  function Synced(m: Mirror, p: PlayerSnapshot): (r: Mirror)
    ensures r.isVoicePlaying == p.isPlaying && r.progress == p.currentPosition
    ensures r.voiceDuration == m.voiceDuration
  {
    m.(isVoicePlaying := p.isPlaying, progress := p.currentPosition)
  }

  /** One iteration of the polling effect: while the mirror says playing and a browser is
      there, the progress becomes the browser's position; otherwise no tick happens. */
  function PollTick(m: Mirror, browserPresent: bool, p: PlayerSnapshot): (r: Mirror)
    ensures r.isVoicePlaying == m.isVoicePlaying && r.voiceDuration == m.voiceDuration
    ensures r.progress == if m.isVoicePlaying && browserPresent then p.currentPosition else m.progress
  {
    if m.isVoicePlaying && browserPresent then m.(progress := p.currentPosition) else m
  }

  /** A run of polling iterations, each against the browser's state at that tick. */
  function PollTicks(m: Mirror, browserPresent: bool, ps: seq<PlayerSnapshot>): Mirror
    decreases |ps|
  {
    if ps == [] then m else PollTicks(PollTick(m, browserPresent, ps[0]), browserPresent, ps[1..])
  }

  /** Once the mirror says not playing, or while no browser is connected, no number of
      polling iterations changes anything. */
  lemma {:induction false} PollTicksInert(m: Mirror, browserPresent: bool, ps: seq<PlayerSnapshot>)
    requires !m.isVoicePlaying || !browserPresent
    ensures PollTicks(m, browserPresent, ps) == m
    decreases |ps|
  {
    if ps != [] {
      PollTicksInert(m, browserPresent, ps[1..]);
    }
  }

  /** While playing with a browser, a run of polling iterations leaves the progress at the
      position read by the last one, and nothing else changes. */
  lemma {:induction false} PollTicksFollowPosition(m: Mirror, ps: seq<PlayerSnapshot>)
    requires m.isVoicePlaying && ps != []
    ensures PollTicks(m, true, ps) == m.(progress := ps[|ps| - 1].currentPosition)
    decreases |ps|
  {
    if |ps| > 1 {
      PollTicksFollowPosition(PollTick(m, true, ps[0]), ps[1..]);
    }
  }

  /** `n` copies of one issued command. */
  function Repeat(c: Issued, n: nat): (r: seq<Issued>)
    ensures |r| == n
    ensures forall k :: 0 <= k < n ==> r[k] == c
  {
    if n == 0 then [] else Repeat(c, n - 1) + [c]
  }

  /** MainActivity's playback state: the mirrored values, the browser connection and the
      listeners registered on the current browser. */
  class PlaybackMirror {
    var isVoicePlaying: bool
    var progress: int
    var voiceDuration: int
    /** How many browserFutures onStart has built; the current one is number `generation`. */
    var generation: nat
    var connection: Connection
    /** STARTED syncs queued on the current future, to run when it completes. */
    var pendingSyncs: nat
    /** Player.Listener objects registered on the current browser. */
    var listeners: nat
    /** Commands sent to browsers, in order. */
    var issued: seq<Issued>

    ghost function State(): Mirror
      reads this
    {
      Mirror(isVoicePlaying, progress, voiceDuration)
    }

    /** The browser getter, as the actions and the poll use it: a browser only while the
        current future is done and connected. The transitions state when this holds. */
    function BrowserPresent(): bool
      reads this
    {
      connection == Connected
    }

    ghost predicate Valid()
      reads this
    {
      generation >= 1
      && (connection != Connected ==> listeners == 0)
      && (connection != Pending ==> pendingSyncs == 0)
      && (forall k :: 0 <= k < |issued| ==> 1 <= issued[k].browser <= generation)
    }

    /** onCreate (the mirrored values start false, 0 and 0) followed by the first onStart,
        which builds browser future number 1. */
    constructor ()
      ensures Valid()
      ensures State() == Mirror(false, 0, 0)
      ensures generation == 1 && connection == Pending && pendingSyncs == 0 && listeners == 0
      ensures issued == [] && !BrowserPresent()
    {
      isVoicePlaying := false;
      progress := 0;
      voiceDuration := 0;
      generation := 1;
      connection := Pending;
      pendingSyncs := 0;
      listeners := 0;
      issued := [];
    }

    /** onStart, which follows onStop: a new browser future replaces the released one; it
        has no listeners yet, and no browser is available until it completes. */
    method OnActivityStart()
      requires Valid() && connection == Released
      modifies this`generation, this`connection, this`pendingSyncs, this`listeners
      ensures Valid()
      ensures generation == old(generation) + 1 && connection == Pending
      ensures pendingSyncs == 0 && listeners == 0
      ensures !BrowserPresent()
    {
      generation := generation + 1;
      connection := Pending;
      pendingSyncs := 0;
      listeners := 0;
    }

    /** onStop: MediaBrowser.releaseFuture on the current future; from now on the getter
        yields no browser and the syncs still queued on it never run. */
    method OnActivityStop()
      requires Valid()
      modifies this`connection, this`pendingSyncs, this`listeners
      ensures Valid()
      ensures connection == Released && pendingSyncs == 0 && listeners == 0
      ensures !BrowserPresent()
    {
      connection := Released;
      pendingSyncs := 0;
      listeners := 0;
    }

    /** The lifecycle observer: on an event whose target state is STARTED it queues the
        sync on the current future, which runs at once when the future is already done. */
    method OnLifecycleEvent(e: LifecycleEvent, p: PlayerSnapshot)
      requires Valid()
      modifies this`isVoicePlaying, this`progress, this`pendingSyncs, this`listeners
      ensures Valid()
      ensures TargetState(e) == Started && connection == Connected ==>
        State() == Synced(old(State()), p) && listeners == old(listeners) + 1 && pendingSyncs == 0
      ensures TargetState(e) == Started && connection == Pending ==>
        State() == old(State()) && pendingSyncs == old(pendingSyncs) + 1 && listeners == 0
      ensures TargetState(e) != Started || connection == Released ==>
        State() == old(State()) && pendingSyncs == old(pendingSyncs) && listeners == old(listeners)
    {
      if TargetState(e) == Started {
        if connection == Connected {
          RunSync(p);
        } else if connection == Pending {
          pendingSyncs := pendingSyncs + 1;
        }
      }
    }

    /** The body of one sync: copy playing flag and position, register the listener. */
    method RunSync(p: PlayerSnapshot)
      requires Valid() && connection == Connected
      modifies this`isVoicePlaying, this`progress, this`listeners
      ensures Valid()
      ensures State() == Synced(old(State()), p) && listeners == old(listeners) + 1
    {
      isVoicePlaying := p.isPlaying;
      progress := p.currentPosition;
      listeners := listeners + 1;
    }

    /** The current future completes: every sync queued on it runs against the connected
        browser, each registering one listener. */
    method OnConnected(p: PlayerSnapshot)
      requires Valid() && connection == Pending
      modifies this`isVoicePlaying, this`progress, this`connection, this`pendingSyncs, this`listeners
      ensures Valid()
      ensures connection == Connected && pendingSyncs == 0 && listeners == old(pendingSyncs)
      ensures BrowserPresent()
      ensures State() == if old(pendingSyncs) == 0 then old(State()) else Synced(old(State()), p)
    {
      connection := Connected;
      if pendingSyncs > 0 {
        // Every queued sync copies the same two values from the same browser.
        isVoicePlaying := p.isPlaying;
        progress := p.currentPosition;
      }
      listeners := pendingSyncs;
      pendingSyncs := 0;
    }

    /** Player.Listener.onPlaybackStateChanged, delivered to each registered listener. */
    method OnPlaybackStateChanged(state: PlaybackState, p: PlayerSnapshot)
      requires Valid()
      modifies this`isVoicePlaying, this`progress, this`voiceDuration
      ensures Valid()
      ensures State() == if listeners > 0 then AfterPlaybackState(old(State()), state, p) else old(State())
    {
      if listeners > 0 {
        match state
        case StateIdle =>
          isVoicePlaying := p.isPlaying;
          voiceDuration := 0;
        case StateEnded =>
          isVoicePlaying := p.isPlaying;
          progress := 0;
          voiceDuration := 0;
        case StateBuffering => // no change
        case StateReady =>
          voiceDuration := p.duration;
          progress := p.currentPosition;
      }
    }

    /** Player.Listener.onIsPlayingChanged: the flag follows the reported value. */
    method OnIsPlayingChanged(playing: bool)
      requires Valid()
      modifies this`isVoicePlaying
      ensures Valid()
      ensures listeners > 0 ==> State() == old(State()).(isVoicePlaying := playing)
      ensures listeners == 0 ==> State() == old(State())
    {
      if listeners > 0 {
        isVoicePlaying := playing;
      }
    }

    /** Player.Listener.onPlayWhenReadyChanged: the flag follows the player's isPlaying,
        whatever playWhenReady says. */
    method OnPlayWhenReadyChanged(playWhenReady: bool, p: PlayerSnapshot)
      requires Valid()
      modifies this`isVoicePlaying
      ensures Valid()
      ensures listeners > 0 ==> State() == old(State()).(isVoicePlaying := p.isPlaying)
      ensures listeners == 0 ==> State() == old(State())
    {
      if listeners > 0 {
        isVoicePlaying := p.isPlaying;
      }
    }

    /** Player.Listener.onPlayerError: each registered listener tells the browser to stop;
        no mirrored value changes. */
    method OnPlayerError()
      requires Valid()
      modifies this`issued
      ensures Valid()
      ensures issued == old(issued) + Repeat(Issued(generation, Stop), listeners)
      ensures listeners > 0 ==> BrowserPresent()
    {
      // `browser?.stop()` in every listener; listeners exist only on a connected browser.
      issued := issued + Repeat(Issued(generation, Stop), listeners);
    }

    /** One iteration of the polling effect keyed on progress and isVoicePlaying. */
    method OnPollTick(p: PlayerSnapshot)
      requires Valid()
      modifies this`progress
      ensures Valid()
      ensures State() == PollTick(old(State()), BrowserPresent(), p)
    {
      if isVoicePlaying && BrowserPresent() {
        progress := p.currentPosition;
      }
    }

    /** The onPlay action: build the item, then setMediaItem and play on the browser. */
    method OnPlay(voice: Voice)
      requires Valid()
      modifies this`issued
      ensures Valid()
      ensures BrowserPresent() ==>
        issued == old(issued) + [Issued(generation, SetMediaItem(BuildMediaItem(voice))), Issued(generation, Play)]
      ensures !BrowserPresent() ==> issued == old(issued)
    {
      var item := BuildMediaItem(voice);
      if BrowserPresent() {
        issued := issued + [Issued(generation, SetMediaItem(item))];
        issued := issued + [Issued(generation, Play)];
      }
    }

    /** The onStop action: stop on the browser. */
    method OnStopAction()
      requires Valid()
      modifies this`issued
      ensures Valid()
      ensures issued == old(issued) + if BrowserPresent() then [Issued(generation, Stop)] else []
    {
      if BrowserPresent() {
        issued := issued + [Issued(generation, Stop)];
      }
    }

    /** The onProgressChange action: an absolute seek on the browser. */
    method OnProgressChange(positionMs: int)
      requires Valid()
      modifies this`issued
      ensures Valid()
      ensures issued == old(issued) + if BrowserPresent() then [Issued(generation, SeekTo(positionMs))] else []
    {
      if BrowserPresent() {
        issued := issued + [Issued(generation, SeekTo(positionMs))];
      }
    }
  }

  /** Play "A" from "/x/a.m4a", READY with duration 5000 at position 0, then two polling
      iterations; an error followed by the player stopping ends the polling. */
  method PlaybackScenario()
  {
    var mirror := new PlaybackMirror();
    mirror.OnLifecycleEvent(OnStart, PlayerSnapshot(false, 0, 0));
    mirror.OnPlay(Voice("A", "/x/a.m4a"));
    assert mirror.issued == [];
    mirror.OnConnected(PlayerSnapshot(false, 0, 0));
    assert mirror.listeners == 1;
    mirror.OnPlay(Voice("A", "/x/a.m4a"));
    assert mirror.issued[1] == Issued(1, Play);
    mirror.OnPlaybackStateChanged(StateReady, PlayerSnapshot(false, 0, 5000));
    mirror.OnIsPlayingChanged(true);
    assert mirror.State() == Mirror(true, 0, 5000);
    mirror.OnPollTick(PlayerSnapshot(true, 1000, 5000));
    mirror.OnPollTick(PlayerSnapshot(true, 2000, 5000));
    assert mirror.progress == 2000;
    mirror.OnPlayerError();
    assert mirror.issued[2] == Issued(1, Stop);
    mirror.OnIsPlayingChanged(false);
    mirror.OnPollTick(PlayerSnapshot(false, 2100, 5000));
    assert mirror.progress == 2000;
  }
}
