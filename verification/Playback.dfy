/**
  The audio thread of the player: the commands it receives over its channel,
  the shared `PlaybackState` it keeps, and the per-command updates that keep
  the reported position continuous across pause, resume and seek.

  Time is a clock of whole seconds passed in as `now`; it never runs backwards,
  which every operation demands as "no recorded instant lies after `now`".
  The decoder and output sink are reduced to the facts the thread acts on:
  whether a sink is present (`hasSink`), whether opening a file succeeds
  (`openedOk`), whether a fast seek on the sink succeeds (`fastSeekOk`) and
  whether the sink has run dry (`sinkEmpty`).
 */
module Playback {
  import opened Base
  import PathNames

  /** `AudioCommand`, as the control side sends it (volume left out). */
  datatype AudioCommand =
    | Play(path: string, skipSecs: U64)
    | Pause
    | Resume
    | Stop
    | Seek(position: U64)

  /** `later.duration_since(earlier).as_secs()`: saturates at zero. */
  function Since(later: nat, earlier: nat): (r: nat)
    ensures later >= earlier ==> later == earlier + r
    ensures later <= earlier ==> r == 0
  {
    if later >= earlier then later - earlier else 0
  }

  /** `play_file` yields a sink: the path has an extension and decoding and output start. */
  predicate PlayFileOpens(path: string, openedOk: bool): (r: bool)
    ensures r ==> openedOk && PathNames.Extension(path).Some?
    ensures openedOk && PathNames.IsAudioFile(path) ==> r
  {
    PathNames.Extension(path).Some? && openedOk
  }

  /** The lower-cased extension of a path, or "" when it has none. */
  function LowerExtension(path: string): (r: string)
    ensures PathNames.Extension(path).None? ==> r == ""
    ensures PathNames.IsAudioFile(path) <==> r in PathNames.AudioExtensions
  {
    PathNames.Lower(PathNames.Extension(path).GetOr(""))
  }

  /** A seek moves the current sink in place: it exists, the file is not FLAC, and the sink accepts. */
  predicate FastSeekWorks(path: string, hasSink: bool, fastSeekOk: bool): (r: bool)
    ensures r ==> hasSink && fastSeekOk
    ensures LowerExtension(path) == "flac" ==> !r
    ensures LowerExtension(path) != "flac" && hasSink && fastSeekOk ==> r
    ensures PathNames.IsAudioFile(path) && r ==> LowerExtension(path) in {"mp3", "wav"}
  {
    LowerExtension(path) != "flac" && hasSink && fastSeekOk
  }

  /**
    A file name that ends in '.' and a dot-free `ext`, in any letter case,
    reads as `ext` once its extension is lower-cased.
   */
  lemma LowerExtensionOfName(path: string, ext: string)
    requires PathNames.FileName(path).Some? && PathNames.EndsWithExtension(PathNames.FileName(path).value, ext)
    requires forall i | 0 <= i < |ext| :: ext[i] != '.'
    ensures LowerExtension(path) == ext
  {
    PathNames.ExtensionOfStem(PathNames.FileName(path).value, ext);
  }

  /** A ".flac" file, in any letter case, is never seeked in place. */
  lemma FlacNeverMovesInPlace(path: string, hasSink: bool, fastSeekOk: bool)
    requires PathNames.FileName(path).Some? && PathNames.EndsWithExtension(PathNames.FileName(path).value, "flac")
    ensures LowerExtension(path) == "flac" && !FastSeekWorks(path, hasSink, fastSeekOk)
  {
    LowerExtensionOfName(path, "flac");
  }

  /** What a `Seek` command comes to. */
  datatype SeekRouteKind =
    | NoTrack       // nothing loaded: the command is ignored
    | MovedInPlace  // the current sink seeked
    | Reopened      // the file was opened again at the new position
    | Lost          // reopening failed: the old sink is gone as well

  /** Which way a `Seek` goes, given the loaded path, the sink, and the decoder's answers. */
  function SeekRoute(currentPath: Option<string>, hasSink: bool, fastSeekOk: bool, openedOk: bool): (r: SeekRouteKind)
    ensures r == NoTrack <==> currentPath.None?
    ensures r == MovedInPlace ==> hasSink && fastSeekOk
    ensures currentPath.Some? && !hasSink ==> r != MovedInPlace
    ensures r == Reopened ==> openedOk
    ensures r == Lost ==> currentPath.Some? && !PlayFileOpens(currentPath.value, openedOk)
    ensures currentPath.Some? && LowerExtension(currentPath.value) != "flac" && hasSink && fastSeekOk ==>
      r == MovedInPlace
    ensures currentPath.Some? && LowerExtension(currentPath.value) == "flac" ==> r != MovedInPlace
    ensures currentPath.Some? && r != MovedInPlace ==>
      (r == Reopened <==> PlayFileOpens(currentPath.value, openedOk))
  {
    match currentPath
    case None => NoTrack
    case Some(path) =>
      if FastSeekWorks(path, hasSink, fastSeekOk) then MovedInPlace
      else if PlayFileOpens(path, openedOk) then Reopened
      else Lost
  }

  class PlaybackState {
    var startTime: Option<nat>
    var startPosition: nat
    var isPaused: bool
    var pauseTime: Option<nat>
    var currentPath: Option<string>
    var duration: Option<U64>
    var isFinished: bool

    /** A pause is recorded exactly while paused, and only for a started track. */
    ghost predicate Valid()
      reads this
    {
      && (isPaused <==> pauseTime.Some?)
      && (isPaused ==> startTime.Some?)
      && (startTime.Some? <==> currentPath.Some?)
    }

    /** No instant recorded in the state lies after `now`. */
    predicate NotAfter(now: nat)
      reads this
    {
      && (startTime.Some? ==> startTime.value <= now)
      && (pauseTime.Some? ==> pauseTime.value <= now)
    }

    /** `PlaybackState::new`. */
    constructor ()
      ensures Valid() && NotAfter(0)
      ensures startTime == None && startPosition == 0 && !isPaused && pauseTime == None
      ensures currentPath == None && duration == None && !isFinished
    {
      startTime, startPosition, isPaused, pauseTime := None, 0, false, None;
      currentPath, duration, isFinished := None, None, false;
    }

    /** `get_elapsed`: seconds into the track at time `now`. */
    function Elapsed(now: nat): (r: nat)
      reads this
      ensures startTime.None? ==> r == 0
      ensures startTime.Some? ==> r >= startPosition
    {
      match startTime
      case None => 0
      case Some(start) =>
        if isPaused && pauseTime.Some? then startPosition + Since(pauseTime.value, start)
        else startPosition + Since(now, start)
    }
  }

  /** While paused, the position does not move, whatever the clock says. */
  lemma ElapsedFrozenWhilePaused(s: PlaybackState, t1: nat, t2: nat)
    requires s.Valid() && s.isPaused
    ensures s.Elapsed(t1) == s.Elapsed(t2)
  {
  }

  /** The position never runs backwards as the clock advances. */
  lemma ElapsedMonotone(s: PlaybackState, t1: nat, t2: nat)
    requires t1 <= t2
    ensures s.Elapsed(t1) <= s.Elapsed(t2)
  {
  }

  /** While playing, the position advances second for second. */
  lemma ElapsedAdvances(s: PlaybackState, t1: nat, t2: nat)
    requires s.startTime.Some? && !s.isPaused && s.NotAfter(t1) && t1 <= t2
    ensures s.Elapsed(t2) == s.Elapsed(t1) + (t2 - t1)
  {
  }

  /** The audio thread: its current sink (present or not) and the state it shares. */
  class AudioLoop {
    var hasSink: bool
    const state: PlaybackState

    /** A sink only ever plays a started track. */
    ghost predicate Valid()
      reads this, state
    {
      state.Valid() && (hasSink ==> state.startTime.Some?)
    }

    /** `AudioPlayer::new`: no sink yet, a fresh state. */
    constructor ()
      ensures Valid() && fresh(state) && !hasSink
      ensures state.startTime == None && state.startPosition == 0 && !state.isPaused
      ensures state.pauseTime == None && state.currentPath == None && !state.isFinished
      ensures state.NotAfter(0)
    {
      hasSink := false;
      state := new PlaybackState();
    }

    /**
      The check at the top of each loop turn: a sink that ran dry marks the
      track finished, once, and only for a started track.
     */
    method CheckFinished(sinkEmpty: bool)
      requires Valid()
      modifies state`isFinished
      ensures Valid()
      ensures state.isFinished == (old(state.isFinished) || (hasSink && sinkEmpty && state.startTime.Some?))
    {
      if hasSink && sinkEmpty {
        if !state.isFinished && state.startTime.Some? {
          state.isFinished := true;
        }
      }
    }

    /** `Play(path, _, skip)`: the old sink stops; a new one starts `skip` seconds in. */
    method Play(path: string, skipSecs: U64, now: nat, openedOk: bool)
      requires Valid() && state.NotAfter(now)
      modifies this, state
      ensures Valid() && state.NotAfter(now)
      ensures hasSink == PlayFileOpens(path, openedOk)
      ensures hasSink ==>
        && state.startTime == Some(now) && state.startPosition == skipSecs
        && !state.isPaused && state.pauseTime == None
        && state.currentPath == Some(path) && !state.isFinished
        && state.Elapsed(now) == skipSecs
      ensures !hasSink ==> unchanged(state)
      ensures state.duration == old(state.duration)
    {
      hasSink := false;
      if PlayFileOpens(path, openedOk) {
        hasSink := true;
        state.startTime := Some(now);
        state.startPosition := skipSecs;
        state.isPaused := false;
        state.pauseTime := None;
        state.currentPath := Some(path);
        state.isFinished := false;
      }
    }

    /** `Pause`: with a sink, record the instant of pausing; the position freezes there. */
    method Pause(now: nat)
      requires Valid() && state.NotAfter(now)
      modifies state`isPaused, state`pauseTime
      ensures Valid() && state.NotAfter(now)
      ensures !hasSink ==> unchanged(state)
      ensures hasSink ==> state.isPaused && state.pauseTime == Some(now)
      ensures hasSink && !old(state.isPaused) ==>
        forall t :: state.Elapsed(t) == old(state.Elapsed(now))
    {
      if hasSink {
        state.isPaused := true;
        state.pauseTime := Some(now);
      }
    }

    /**
      `Resume`: the paused stretch is folded into the start position and the
      clock restarts, so the position picks up where the pause left it.
     */
    method Resume(now: nat)
      requires Valid() && state.NotAfter(now)
      modifies state`startTime, state`startPosition, state`isPaused, state`pauseTime
      ensures Valid() && state.NotAfter(now)
      ensures !hasSink ==> unchanged(state)
      ensures hasSink ==> !state.isPaused && state.pauseTime == None
      ensures state.Elapsed(now) == old(state.Elapsed(now))
      ensures old(state.isPaused) && hasSink ==> state.startTime == Some(now)
      ensures !old(state.isPaused) ==> state.startTime == old(state.startTime)
      ensures !old(state.isPaused) ==> state.startPosition == old(state.startPosition)
    {
      if hasSink {
        if state.isPaused {
          if state.startTime.Some? && state.pauseTime.Some? {
            state.startPosition := state.startPosition + Since(state.pauseTime.value, state.startTime.value);
            state.startTime := Some(now);
          }
        }
        state.isPaused := false;
        state.pauseTime := None;
      }
    }

    /** `Stop`: the sink goes and the position resets; the finished flag is left alone. */
    method Stop()
      requires Valid()
      modifies this, state
      ensures Valid() && !hasSink
      ensures state.startTime == None && state.startPosition == 0 && !state.isPaused
      ensures state.pauseTime == None && state.currentPath == None
      ensures state.isFinished == old(state.isFinished) && state.duration == old(state.duration)
      ensures forall t :: state.Elapsed(t) == 0
    {
      hasSink := false;
      state.startTime := None;
      state.startPosition := 0;
      state.isPaused := false;
      state.pauseTime := None;
      state.currentPath := None;
    }

    /**
      `Seek(position)`: for a loaded track, try a fast seek on the sink (never
      for FLAC); when that fails, reopen the file `position` seconds in. Either
      way that succeeds, the position is then `position`.
     */
    method Seek(position: U64, now: nat, fastSeekOk: bool, openedOk: bool)
      requires Valid() && state.NotAfter(now)
      modifies this, state
      ensures Valid() && state.NotAfter(now)
      ensures state.currentPath == old(state.currentPath) && state.duration == old(state.duration)
      ensures SeekRoute(old(state.currentPath), old(hasSink), fastSeekOk, openedOk) == NoTrack ==>
        hasSink == old(hasSink) && unchanged(state)
      ensures SeekRoute(old(state.currentPath), old(hasSink), fastSeekOk, openedOk) == MovedInPlace ==>
        && hasSink && state.startTime == Some(now) && state.startPosition == position
        && state.isPaused == old(state.isPaused) && state.pauseTime == old(state.pauseTime)
        && state.isFinished == old(state.isFinished) && state.Elapsed(now) == position
      ensures SeekRoute(old(state.currentPath), old(hasSink), fastSeekOk, openedOk) == Reopened ==>
        && hasSink && state.startTime == Some(now) && state.startPosition == position
        && !state.isPaused && state.pauseTime == None && !state.isFinished
        && state.Elapsed(now) == position
      ensures SeekRoute(old(state.currentPath), old(hasSink), fastSeekOk, openedOk) == Lost ==>
        !hasSink && unchanged(state)
    {
      match SeekRoute(state.currentPath, hasSink, fastSeekOk, openedOk)
      case NoTrack =>
      case MovedInPlace =>
        MoveStart(position, now);
      case Reopened =>
        Reopen(position, now, true);
      case Lost =>
        Reopen(position, now, false);
    }

    /** The sink moved in place: the position restarts from `position` now. */
    method MoveStart(position: U64, now: nat)
      requires Valid() && hasSink && state.NotAfter(now)
      modifies state`startTime, state`startPosition
      ensures Valid() && state.NotAfter(now)
      ensures state.startTime == Some(now) && state.startPosition == position
      ensures state.Elapsed(now) == position
    {
      state.startTime := Some(now);
      state.startPosition := position;
    }

    /** The old sink stops; when the file reopens, playback restarts from `position` now. */
    method Reopen(position: U64, now: nat, opens: bool)
      requires Valid() && state.currentPath.Some? && state.NotAfter(now)
      modifies this, state
      ensures Valid() && state.NotAfter(now)
      ensures hasSink == opens
      ensures state.currentPath == old(state.currentPath) && state.duration == old(state.duration)
      ensures opens ==>
        && state.startTime == Some(now) && state.startPosition == position
        && !state.isPaused && state.pauseTime == None && !state.isFinished
        && state.Elapsed(now) == position
      ensures !opens ==> unchanged(state)
    {
      hasSink := false;
      if opens {
        hasSink := true;
        state.startTime := Some(now);
        state.startPosition := position;
        state.isPaused := false;
        state.pauseTime := None;
        state.isFinished := false;
      }
    }
  }

  /**
    Pausing and later resuming, with no other command between, leaves the
    position where the pause froze it, however long the pause lasted.
   */
  method PauseThenResume(player: AudioLoop, paused: nat, resumed: nat)
    requires player.Valid() && player.state.NotAfter(paused) && paused <= resumed
    requires player.hasSink && !player.state.isPaused
    modifies player.state
    ensures player.Valid() && !player.state.isPaused
    ensures player.state.Elapsed(resumed) == old(player.state.Elapsed(paused))
  {
    player.Pause(paused);
    player.Resume(resumed);
  }
}
