# vi-music playback backend, in Dafny

vi-music is a desktop music player with a modal, VIM-style front end over a
Rust backend. This project models that backend (`src-tauri/src/main.rs`) and
proves properties of the model. The backend has two halves, which talk over a
channel:

- **The control side** (`App.AppState`). It holds the playlist, the current
  index, the play/pause flags, the current track's name and length. It also
  holds the commands sent to the audio thread (`sent`, oldest first). Each
  user command is a method:
  - `load_folder`, `play_track`, `toggle_pause`, `stop`,
  - `next_track`, `prev_track`,
  - `seek`, `seek_relative`, `get_status`.

  Each one either refuses with the source's own error message and changes
  nothing, or updates the fields in a fixed way. The invariant
  `is_paused ⇒ is_playing` (with "a track name is shown exactly while
  playing" and "the index is 0 or points into the playlist") holds from
  `AppState::new` on and every command keeps it.
- **The audio thread** (`Playback.AudioLoop` with its shared
  `Playback.PlaybackState`):
  - It reports the position with `get_elapsed`.
  - It handles the `Play`, `Pause`, `Resume`, `Stop` and `Seek` commands.
  - Before each command it runs the finished-track check.

  Time is a clock of whole seconds passed in as `now`, and it never runs
  backwards. The proofs show:
  - the position is frozen while paused;
  - the position continues unchanged across `Resume`;
  - after a successful `Play` the position is the requested skip;
  - after a successful `Seek` it is the requested position;
  - after `Stop` it is 0.

The pure rules sit in their own modules:
- `Transport`: the wrap-around of next/previous and the seek clamps.
- `PathNames`: file names, extensions and the audio-file test.
- `PathOrder`: the byte order of paths and the sort `load_folder` applies.

The answers of code outside the backend are parameters:
- `durationOf` is the metadata reader's length for a path (`get_audio_duration`).
- `openedOk` says whether the file opens, decodes and gets an output sink.
- `fastSeekOk` says whether the sink accepts a seek in place.
- `sinkEmpty` says whether the sink has run dry.
- `elapsed` and `isFinished` are what the audio thread reports to `get_status` and
  `seek_relative`.

Three behaviours of the backend worth noting:
- `play_track` does check the index itself.
- `stop` keeps `current_index`.
- `toggle_pause` with nothing playing is an error, not a fallback to playing
  the selection. That fallback belongs to the front end.

A behaviour worth knowing, which is not a finding: a `Seek` that has to reopen
the file unpauses the audio thread. The control side's `is_paused` is left as
it was. `AudioLoop.Seek` shows this for the `Reopened` route.

## Model

| member | source | states |
|---|---|---|
| `Playback.PlayFileOpens` | src-tauri/src/main.rs:117-120 | `play_file` yields a sink only for a path with an extension whose decoder and output start, and it does for every audio file that opens |
| `Playback.LowerExtension` | src-tauri/src/main.rs:209-213 | no extension reads as ""; the lower-cased extension is mp3, wav or flac exactly when the path is an audio file |
| `Playback.LowerExtensionOfName` | src-tauri/src/main.rs:209-213 | a file name ending in '.' and a dot-free `ext`, in any letter case, reads as exactly `ext` |
| `Playback.FlacNeverMovesInPlace` | src-tauri/src/main.rs:215-225 | a ".flac" file, in any letter case, reads as "flac" and is never seeked in place |
| `Playback.FastSeekWorks` | src-tauri/src/main.rs:215-225 | a seek in place happens exactly when the file is not FLAC, a sink exists and it accepts the seek; for an audio file that means mp3 or wav |
| `Playback.SeekRoute` | src-tauri/src/main.rs:206-256 | the command is ignored exactly when no path is loaded; a loaded non-FLAC track with a sink that accepts is moved in place, a FLAC track never is; otherwise it is reopened exactly when the file opens, and lost when it does not |
| `Playback.PlaybackState.constructor` | src-tauri/src/main.rs:66-77 | a new state has no start, position 0, not paused, no path, not finished |
| `Playback.PlaybackState.Elapsed` | src-tauri/src/main.rs:79-90 | with no start the position is 0; once started it is never below the start position |
| `Playback.Since` | src-tauri/src/main.rs:180-183 | `duration_since` in whole seconds: the gap when later ≥ earlier, zero otherwise |
| `Playback.ElapsedFrozenWhilePaused` | src-tauri/src/main.rs:80-84 | while paused the position is the same at every clock reading |
| `Playback.ElapsedMonotone` | src-tauri/src/main.rs:79-90 | the position never decreases as the clock advances |
| `Playback.ElapsedAdvances` | src-tauri/src/main.rs:86 | while playing, the position grows by exactly the seconds that pass |
| `Playback.AudioLoop.constructor` | src-tauri/src/main.rs:99-111 | the thread starts with no sink and a fresh `PlaybackState` |
| `Playback.AudioLoop.CheckFinished` | src-tauri/src/main.rs:139-146 | the finished flag becomes set when a sink exists, has run dry and a track was started; it is never cleared here |
| `Playback.AudioLoop.Play` | src-tauri/src/main.rs:151-166 | the old sink goes; if the file opens (it needs an extension) the position is `skip` now, with no pause, the new path, and the finished flag cleared; otherwise the state is untouched |
| `Playback.AudioLoop.Pause` | src-tauri/src/main.rs:167-174 | with a sink, records the pause instant; from a playing state the position at every later reading equals the position at the pause |
| `Playback.AudioLoop.Resume` | src-tauri/src/main.rs:175-189 | with a sink, clears the pause; the position at the resume instant equals the position just before it |
| `Playback.AudioLoop.Stop` | src-tauri/src/main.rs:190-200 | no sink, no start, no path, not paused; the position is 0 at every reading; the finished flag is kept |
| `Playback.AudioLoop.Seek` | src-tauri/src/main.rs:206-258 | ignored with no path; a fast seek (not FLAC, with a sink that accepts) keeps the pause and finished flags; otherwise the file is reopened, which unpauses and clears finished; when it fails the sink is gone and the state is untouched; whenever the seek succeeds the position is `position` |
| `Playback.AudioLoop.MoveStart` | src-tauri/src/main.rs:227-232 | after a seek in place the clock restarts now from `position`, so the position reads `position`; pause and finished flags are untouched |
| `Playback.AudioLoop.Reopen` | src-tauri/src/main.rs:233-256 | the old sink goes; if the file reopens, playback restarts now from `position`, unpaused and not finished; otherwise the state is untouched and no sink remains |
| `Playback.PauseThenResume` | src-tauri/src/main.rs:167-189 | pausing at one instant and resuming at a later one leaves the position where the pause froze it |
| `Transport.NextIndex` | src-tauri/src/main.rs:467-468 | the next entry is in range: the following one, or entry 0 after the last |
| `Transport.PrevIndex` | src-tauri/src/main.rs:506-507 | the previous entry is in range: the preceding one, or the last entry before entry 0 |
| `Transport.NextPrevInverse` | src-tauri/src/main.rs:460-536 | previous undoes next and next undoes previous |
| `Transport.NextTimesIsRotation` | src-tauri/src/main.rs:467-468 | up to a full round, `k` presses of next move `k` places, wrapping once |
| `Transport.NextVisitsAll` | src-tauri/src/main.rs:467-468 | from any entry, next reaches every entry within one round, and `len` presses return to the start |
| `Transport.SeekClamp` | src-tauri/src/main.rs:568-570 | the seek target is at most the request and at most the track length (`u64::MAX` if unknown), and is one of the two; with an unknown length it is the request |
| `Transport.SeekRelativePos` | src-tauri/src/main.rs:583-587 | the relative target is `elapsed + delta` when that lies within the track, 0 below the start, the bound above the end |
| `Transport.SeekRelativeAsWritten` | src-tauri/src/main.rs:583-587 | with the 64-bit conversions: a known length within `i64` bounds the result; a bound past `i64::MAX` (including the unknown length's `u64::MAX`) is always the result |
| `Transport.SeekRelativeAsWrittenUnknownDuration` | src-tauri/src/main.rs:583-587 | as written, with the length unknown, every relative seek yields `u64::MAX` |
| `Transport.SeekRelativeAsWrittenCounterexample` | src-tauri/src/main.rs:583-587 | 10 s in, +5 s, length unknown: as written gives `u64::MAX`, the intended rule gives 15 |
| `Transport.SeekRelativeAgreesWhenKnown` | src-tauri/src/main.rs:583-587 | with a known length and values within `i64`, the written code and the intended rule agree |
| `PathNames.TrimTrailingSeparatorsIsPrefix` | src-tauri/src/main.rs:417-420 | trimming yields a prefix that does not end in a separator and removes only separators |
| `PathNames.LastComponentIsSuffix` | src-tauri/src/main.rs:417-420 | the last component is a separator-free suffix, preceded by a separator unless it is the whole path |
| `PathNames.FileNameIsLastComponent` | src-tauri/src/main.rs:376-379 | a file name is non-empty, not "..", and has no separator |
| `PathNames.FileNameOfJoin` | src-tauri/src/main.rs:417-420 | the file name of a directory joined with a plain name is that name |
| `PathNames.LastDot` | src-tauri/src/main.rs:351 | finds the last '.' of a name, or reports that there is none |
| `PathNames.NameExtension` | src-tauri/src/main.rs:351 | an extension follows the last '.', has no '.', and leaves a non-empty stem; none when no '.' lies past the first character |
| `PathNames.Lower` | src-tauri/src/main.rs:352 | lower-casing keeps the length and lower-cases each letter in place |
| `PathNames.FileName` | src-tauri/src/main.rs:376-379 | a file name, when there is one, is never empty or "..", and is no longer than the path |
| `PathNames.Extension` | src-tauri/src/main.rs:351 | no file name means no extension; an extension is the tail of the file name after a '.', with at least one character before that '.' |
| `PathNames.IsAudioFile` | src-tauri/src/main.rs:350-357 | an audio file has a file name of at least five characters: a stem, a '.', and a three- or four-letter extension |
| `PathNames.IsAudioFileIff` | src-tauri/src/main.rs:350-357 | a path is an audio file exactly when its file name is a non-empty stem plus ".mp3", ".wav" or ".flac", in any letter case |
| `PathOrder.LexLeReflexive` | src-tauri/src/main.rs:370 | every path is ordered before or equal to itself |
| `PathOrder.LexLeTotal` | src-tauri/src/main.rs:370 | any two paths are comparable |
| `PathOrder.LexLeAntisymmetric` | src-tauri/src/main.rs:370 | paths ordered both ways are equal |
| `PathOrder.LexLeTransitive` | src-tauri/src/main.rs:370 | the path order is transitive |
| `PathOrder.Insert` | src-tauri/src/main.rs:370 | inserting into a sorted list keeps it sorted and adds exactly that path |
| `PathOrder.SortPaths` | src-tauri/src/main.rs:370 | the sorted playlist is in ascending order and a permutation of the paths found |
| `PathOrder.SortPathsOfSorted` | src-tauri/src/main.rs:370 | sorting an already sorted list changes nothing |
| `App.TrackName` | src-tauri/src/main.rs:376-379 | the shown name is empty exactly when the path has no file name, and otherwise is that file name |
| `App.AudioPaths` | src-tauri/src/main.rs:363-368 | every path kept is an audio file met as a file entry, and every such entry is kept |
| `App.CollectAudioPaths` | src-tauri/src/main.rs:361-368 | the walk loop collects exactly the audio-file entries, in walk order |
| `App.TrackInfos` | src-tauri/src/main.rs:372-388 | one entry per path: entry `i` has index `i`, that path, its file name and its length |
| `App.AppState.constructor` | src-tauri/src/main.rs:294-306 | empty playlist, index 0, nothing playing or paused, no track, no length |
| `App.AppState.LoadFolder` | src-tauri/src/main.rs:359-394 | always succeeds; the playlist becomes the audio files found, sorted ascending; entry `i` has index `i`; the index resets to 0; playback flags are kept |
| `App.AppState.Start` | src-tauri/src/main.rs:404-422 | entry `index` is current, playing and unpaused; its name and length are shown; one `Play` from position 0 is sent |
| `App.AppState.PlayTrack` | src-tauri/src/main.rs:396-430 | refused with "Invalid track index" and no change exactly when the index is past the end; otherwise starts that entry and returns it |
| `App.AppState.TogglePause` | src-tauri/src/main.rs:432-449 | refused with "No track is playing" when not playing; otherwise flips the pause, returns the new value and sends `Pause` or `Resume` to match |
| `App.AppState.Stop` | src-tauri/src/main.rs:451-458 | not playing, not paused, no track; the playlist, index and length are kept; `Stop` is sent |
| `App.AppState.NextTrack` | src-tauri/src/main.rs:460-497 | refused with "Playlist is empty" exactly on an empty playlist; otherwise starts the entry `NextIndex` picks |
| `App.AppState.PrevTrack` | src-tauri/src/main.rs:499-536 | refused with "Playlist is empty" exactly on an empty playlist; otherwise starts the entry `PrevIndex` picks |
| `App.AppState.GetStatus` | src-tauri/src/main.rs:546-559 | reports the control side's own playing, paused, track, index and length, the playlist's size, and the audio thread's position and finished flag; so a reported pause implies reported playing, a track is reported exactly while playing, and the index is 0 or within the playlist |
| `App.AppState.Seek` | src-tauri/src/main.rs:561-574 | refused when not playing; otherwise returns and sends the clamped position |
| `App.AppState.SeekRelative` | src-tauri/src/main.rs:576-591 | refused when not playing; otherwise returns and sends the intended relative target |
| `App.TogglePauseTwice` | src-tauri/src/main.rs:432-449 | while playing, two toggles restore the pause flag and every other field, report both flips, and send the matching `Pause`/`Resume` pair; with nothing playing both are refused and nothing is sent |

## Findings

| source | as written | input that shows it | evidently intended | confidence | as-written member | corrected member |
|---|---|---|---|---|---|---|
| src-tauri/src/main.rs:583-587 | `duration.unwrap_or(u64::MAX) as i64` is -1 when the length is unknown, so the clamp always gives -1, and the cast back to `u64` gives `u64::MAX`: the relative seek jumps past the end | length unknown, 10 s elapsed, `delta` = +5 | `clamp(elapsed + delta, 0, u64::MAX)` = 15 | high; not executed | `Transport.SeekRelativeAsWrittenUnknownDuration` | `Transport.SeekRelativePos` |

`App.AppState.SeekRelative` uses the corrected `Transport.SeekRelativePos`.
`Transport.SeekRelativeAsWritten` keeps the code's 64-bit conversions.

## Left out

- Concurrency: the audio thread, the `mpsc` channel, `recv_timeout` and the `Mutex` locks. Each command runs to completion on its own. Commands sent are recorded in `sent`, and the audio thread's commands are separate methods, so the delay between sending and handling is not modelled.
- rodio decoding, sinks, `try_seek`, `skip_duration`, and the FLAC special case inside `play_file` (src-tauri/src/main.rs:113-135). They are reduced to the boolean answers `openedOk`, `fastSeekOk` and `sinkEmpty`. Only the "needs an extension" test of `play_file` is kept.
- `get_audio_duration` (mp3_duration and rodio): an external decoder. It is the parameter `durationOf`.
- `set_volume`, the `SetVolume` command and every volume field, including the volume carried by `Play` and reported by `get_status`: `f32` clamping is floating point.
- `load_config`, `save_config`, `get_default_folder`, `set_default_folder`, `clear_default_folder`: file and JSON I/O.
- The `WalkDir` traversal and `is_file`: the walk's entries are the input `entries`.
- Tauri command registration and `main`: framework plumbing.
- `Instant`: replaced by a clock of whole seconds. Sub-second truncation by `as_secs` is therefore exact in the model.
- Playback.PlaybackState.Elapsed: positions are unbounded. The `u64` overflow of `start_position + secs` after a seek to a huge position is not modelled.
- App.AppState.SeekRelative: uses the corrected target, not the code's 64-bit conversions. `Transport.SeekRelativeAsWritten` models those.
- PathNames.FileName: a trailing "." component, Windows drive prefixes (`C:`) and UNC prefixes are not treated specially. Separators are Windows ones (`/` and `\`).
- PathNames.Lower: lower-cases ASCII letters only. No other character lower-cases to a letter of "mp3", "wav" or "flac", so the audio-file and FLAC tests are unaffected.
- `AudioPlayer::send`, `AudioPlayer::get_elapsed` and `AudioPlayer::is_finished`: sending is the append to `sent`, and the two readings are parameters of `GetStatus` and `SeekRelative`.
