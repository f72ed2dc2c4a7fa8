/**
  The control side of the player: the `AppState` that the user-facing
  commands read and update, and the commands themselves. Each command runs to
  completion on its own; the commands it hands to the audio thread are
  recorded, in order, in `sent` (the sending end of the thread's channel).

  The answers of collaborators the control side does not own are parameters:
  `durationOf` is the metadata reader's length of a file, and `elapsed` and
  `isFinished` are what the audio thread reports.
 */
module App {
  import opened Base
  import PathNames
  import PathOrder
  import Transport
  import Playback

  datatype TrackInfo = TrackInfo(path: string, name: string, index: nat, duration: Option<U64>)

  datatype PlayerStatus = PlayerStatus(
    isPlaying: bool,
    isPaused: bool,
    isFinished: bool,
    currentTrack: Option<string>,
    currentIndex: nat,
    playlistLength: nat,
    elapsed: nat,
    duration: Option<U64>)

  /** One entry met while walking a folder tree. */
  datatype DirEntry = DirEntry(path: string, isFile: bool)

  /** The name shown for a track: its file name, or "" when the path has none. */
  function TrackName(path: string): (r: string)
    ensures r == "" <==> PathNames.FileName(path).None?
    ensures r != "" ==> PathNames.FileName(path) == Some(r)
  {
    PathNames.FileName(path).GetOr("")
  }

  /** The paths of a walk that become tracks: the audio files, in walk order. */
  function AudioPaths(entries: seq<DirEntry>): (r: seq<string>)
    ensures forall p | p in r :: DirEntry(p, true) in entries && PathNames.IsAudioFile(p)
    ensures forall e | e in entries && e.isFile && PathNames.IsAudioFile(e.path) :: e.path in r
  {
    if entries == [] then []
    else
      var init, last := entries[..|entries| - 1], entries[|entries| - 1];
      assert entries == init + [last];
      AudioPaths(init) + (if last.isFile && PathNames.IsAudioFile(last.path) then [last.path] else [])
  }

  /** The walk of `load_folder`: every file entry that is an audio file, in the order met. */
  method CollectAudioPaths(entries: seq<DirEntry>) returns (tracks: seq<string>)
    ensures tracks == AudioPaths(entries)
  {
    tracks := [];
    var i := 0;
    while i < |entries|
      invariant 0 <= i <= |entries|
      invariant tracks == AudioPaths(entries[..i])
    {
      var entry := entries[i];
      if entry.isFile && PathNames.IsAudioFile(entry.path) {
        tracks := tracks + [entry.path];
      }
      assert entries[..i + 1][..i] == entries[..i];
      i := i + 1;
    }
    assert entries[..i] == entries;
  }

  /** The listing `load_folder` returns: entry `i` describes the `i`-th path. */
  function TrackInfos(paths: seq<string>, durationOf: string -> Option<U64>): (r: seq<TrackInfo>)
    ensures |r| == |paths|
    ensures forall i | 0 <= i < |r| :: r[i].index == i && r[i].path == paths[i]
    ensures forall i | 0 <= i < |r| :: r[i].name == TrackName(paths[i]) && r[i].duration == durationOf(paths[i])
  {
    seq(|paths|, i requires 0 <= i < |paths| => TrackInfo(paths[i], TrackName(paths[i]), i, durationOf(paths[i])))
  }

  class AppState {
    var playlist: seq<string>
    var currentIndex: nat
    var currentTrack: Option<string>
    var currentDuration: Option<U64>
    var isPlaying: bool
    var isPaused: bool
    var sent: seq<Playback.AudioCommand>

    /**
      Only a playing track can be paused; a track name is shown exactly while
      playing; the current index is 0 or points into the playlist.
     */
    ghost predicate Valid()
      reads this
    {
      && (isPaused ==> isPlaying)
      && (isPlaying <==> currentTrack.Some?)
      && (currentIndex == 0 || currentIndex < |playlist|)
    }

    /** After a successful start of entry `index`: what is playing, and what was sent. */
    ghost predicate Started(index: nat, info: TrackInfo, sentBefore: seq<Playback.AudioCommand>,
                            durationOf: string -> Option<U64>)
      reads this
    {
      && index < |playlist|
      && info == TrackInfo(playlist[index], TrackName(playlist[index]), index, durationOf(playlist[index]))
      && currentIndex == index && isPlaying && !isPaused
      && currentTrack == Some(info.name) && currentDuration == info.duration
      && sent == sentBefore + [Playback.Play(info.path, 0)]
    }

    /** `AppState::new`: an empty playlist, nothing playing. */
    constructor ()
      ensures Valid()
      ensures playlist == [] && currentIndex == 0 && currentTrack == None && currentDuration == None
      ensures !isPlaying && !isPaused && sent == []
    {
      playlist, currentIndex, currentTrack, currentDuration := [], 0, None, None;
      isPlaying, isPaused, sent := false, false, [];
    }

    /**
      `load_folder`, after the walk: the audio files found become the
      playlist in ascending order, numbered from 0, and the index resets.
     */
    method LoadFolder(entries: seq<DirEntry>, durationOf: string -> Option<U64>) returns (r: Result<seq<TrackInfo>>)
      requires Valid()
      modifies this
      ensures Valid() && r.Ok?
      ensures PathOrder.Sorted(playlist) && multiset(playlist) == multiset(AudioPaths(entries))
      ensures currentIndex == 0
      ensures r.value == TrackInfos(playlist, durationOf)
      ensures currentTrack == old(currentTrack) && currentDuration == old(currentDuration)
      ensures isPlaying == old(isPlaying) && isPaused == old(isPaused) && sent == old(sent)
    {
      var tracks := CollectAudioPaths(entries);
      tracks := PathOrder.SortPaths(tracks);
      var infos := TrackInfos(tracks, durationOf);
      playlist := tracks;
      currentIndex := 0;
      r := Ok(infos);
    }

    /** Starts entry `index`: the steps `play_track`, `next_track` and `prev_track` share. */
    method Start(index: nat, durationOf: string -> Option<U64>) returns (info: TrackInfo)
      requires Valid() && index < |playlist|
      modifies this
      ensures Valid() && playlist == old(playlist)
      ensures Started(index, info, old(sent), durationOf)
    {
      var path := playlist[index];
      var duration := durationOf(path);
      currentDuration := duration;
      sent := sent + [Playback.Play(path, 0)];
      currentIndex := index;
      isPlaying := true;
      isPaused := false;
      var name := TrackName(path);
      currentTrack := Some(name);
      info := TrackInfo(path, name, index, duration);
    }

    /** `play_track`: an index past the end is refused and changes nothing. */
    method PlayTrack(index: nat, durationOf: string -> Option<U64>) returns (r: Result<TrackInfo>)
      requires Valid()
      modifies this
      ensures Valid()
      ensures r.Ok? <==> index < |old(playlist)|
      ensures r.Err? ==> r.msg == "Invalid track index" && unchanged(this)
      ensures r.Ok? ==> playlist == old(playlist) && r.value.index == index
      ensures r.Ok? ==> Started(index, r.value, old(sent), durationOf)
    {
      if index >= |playlist| {
        return Err("Invalid track index");
      }
      var info := Start(index, durationOf);
      r := Ok(info);
    }

    /** `toggle_pause`: refused unless playing; otherwise flips the pause and reports it. */
    method TogglePause() returns (r: Result<bool>)
      requires Valid()
      modifies this
      ensures Valid()
      ensures r.Ok? <==> old(isPlaying)
      ensures r.Err? ==> r.msg == "No track is playing" && unchanged(this)
      ensures r.Ok? ==> isPaused == !old(isPaused) && r.value == isPaused
      ensures r.Ok? ==> sent == old(sent) + [if isPaused then Playback.Pause else Playback.Resume]
      ensures playlist == old(playlist) && currentIndex == old(currentIndex) && isPlaying == old(isPlaying)
      ensures currentTrack == old(currentTrack) && currentDuration == old(currentDuration)
    {
      if !isPlaying {
        return Err("No track is playing");
      }
      if isPaused {
        sent := sent + [Playback.Resume];
        isPaused := false;
        r := Ok(false);
      } else {
        sent := sent + [Playback.Pause];
        isPaused := true;
        r := Ok(true);
      }
    }

    /** `stop`: nothing plays any more; the playlist and the index stay. */
    method Stop() returns (r: Result<()>)
      requires Valid()
      modifies this
      ensures Valid() && r == Ok(())
      ensures !isPlaying && !isPaused && currentTrack == None
      ensures playlist == old(playlist) && currentIndex == old(currentIndex)
      ensures currentDuration == old(currentDuration)
      ensures sent == old(sent) + [Playback.Stop]
    {
      sent := sent + [Playback.Stop];
      isPlaying := false;
      isPaused := false;
      currentTrack := None;
      r := Ok(());
    }

    /** `next_track`: refused on an empty playlist; otherwise starts the following entry. */
    method NextTrack(durationOf: string -> Option<U64>) returns (r: Result<TrackInfo>)
      requires Valid()
      modifies this
      ensures Valid()
      ensures r.Ok? <==> |old(playlist)| > 0
      ensures r.Err? ==> r.msg == "Playlist is empty" && unchanged(this)
      ensures r.Ok? ==> playlist == old(playlist)
      ensures r.Ok? ==> Started(Transport.NextIndex(old(currentIndex), |playlist|), r.value, old(sent), durationOf)
    {
      if |playlist| == 0 {
        return Err("Playlist is empty");
      }
      var next := Transport.NextIndex(currentIndex, |playlist|);
      var info := Start(next, durationOf);
      r := Ok(info);
    }

    /** `prev_track`: refused on an empty playlist; otherwise starts the preceding entry. */
    method PrevTrack(durationOf: string -> Option<U64>) returns (r: Result<TrackInfo>)
      requires Valid()
      modifies this
      ensures Valid()
      ensures r.Ok? <==> |old(playlist)| > 0
      ensures r.Err? ==> r.msg == "Playlist is empty" && unchanged(this)
      ensures r.Ok? ==> playlist == old(playlist)
      ensures r.Ok? ==> Started(Transport.PrevIndex(old(currentIndex), |playlist|), r.value, old(sent), durationOf)
    {
      if |playlist| == 0 {
        return Err("Playlist is empty");
      }
      var prev := Transport.PrevIndex(currentIndex, |playlist|);
      var info := Start(prev, durationOf);
      r := Ok(info);
    }

    /** `get_status`: the control side's fields, with the audio thread's position and finished flag. */
    function GetStatus(elapsed: nat, isFinished: bool): (r: PlayerStatus)
      reads this
      requires Valid()
      ensures r.isPaused ==> r.isPlaying
      ensures r.isPlaying <==> r.currentTrack.Some?
      ensures r.playlistLength > 0 ==> r.currentIndex < r.playlistLength
      ensures r.playlistLength == |playlist| && r.elapsed == elapsed && r.isFinished == isFinished
      ensures r.isPlaying == isPlaying && r.isPaused == isPaused && r.currentTrack == currentTrack
      ensures r.currentIndex == currentIndex && r.duration == currentDuration
    {
      PlayerStatus(isPlaying, isPaused, isFinished, currentTrack, currentIndex, |playlist|, elapsed, currentDuration)
    }

    /** `seek`: refused unless playing; otherwise asks for the position, held to the track's end. */
    method Seek(position: U64) returns (r: Result<U64>)
      requires Valid()
      modifies this`sent
      ensures Valid()
      ensures r.Ok? <==> isPlaying
      ensures r.Err? ==> r.msg == "No track is playing" && sent == old(sent)
      ensures r.Ok? ==> r.value == Transport.SeekClamp(position, currentDuration)
      ensures r.Ok? ==> sent == old(sent) + [Playback.Seek(r.value)]
    {
      if !isPlaying {
        return Err("No track is playing");
      }
      var clamped := Transport.SeekClamp(position, currentDuration);
      sent := sent + [Playback.Seek(clamped)];
      r := Ok(clamped);
    }

    /**
      `seek_relative`: refused unless playing; otherwise moves `delta` seconds
      from the reported position, kept within the track.
     */
    method SeekRelative(delta: I64, elapsed: U64) returns (r: Result<U64>)
      requires Valid()
      modifies this`sent
      ensures Valid()
      ensures r.Ok? <==> isPlaying
      ensures r.Err? ==> r.msg == "No track is playing" && sent == old(sent)
      ensures r.Ok? ==> r.value == Transport.SeekRelativePos(elapsed, delta, currentDuration)
      ensures r.Ok? ==> sent == old(sent) + [Playback.Seek(r.value)]
    {
      if !isPlaying {
        return Err("No track is playing");
      }
      var newPos := Transport.SeekRelativePos(elapsed, delta, currentDuration);
      sent := sent + [Playback.Seek(newPos)];
      r := Ok(newPos);
    }
  }

  /**
    Two toggles in a row put the pause back as it was and report both flips,
    leaving the two matching commands behind; with nothing playing both are
    refused and nothing changes.
   */
  method TogglePauseTwice(app: AppState) returns (first: Result<bool>, second: Result<bool>)
    requires app.Valid()
    modifies app
    ensures app.Valid()
    ensures app.isPaused == old(app.isPaused) && app.isPlaying == old(app.isPlaying)
    ensures app.playlist == old(app.playlist) && app.currentIndex == old(app.currentIndex)
    ensures app.currentTrack == old(app.currentTrack) && app.currentDuration == old(app.currentDuration)
    ensures old(app.isPlaying) ==> first == Ok(!old(app.isPaused)) && second == Ok(old(app.isPaused))
    ensures old(app.isPlaying) ==>
      app.sent == old(app.sent) +
        (if old(app.isPaused) then [Playback.Resume, Playback.Pause] else [Playback.Pause, Playback.Resume])
    ensures !old(app.isPlaying) ==> first.Err? && second.Err? && app.sent == old(app.sent)
  {
    first := app.TogglePause();
    second := app.TogglePause();
  }
}
