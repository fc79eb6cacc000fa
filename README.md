# Playback controller of YCAudioPlayer's `PlayService`, in Dafny

This project models the playback controller of the music player's background
service, `PlayService`, and proves properties of it. The controller has three
parts:

- **A four-state machine.** The states are Idle, Preparing, Playing and
  Paused. It sits over an opaque media renderer (Android's `MediaPlayer`).
  `start`, `pause` and `stop` have guards, and `playPause` dispatches on the
  state. The renderer calls back when a track is prepared and when it
  completes.
- **Navigation over the shared music list.** `prev`, `next` and the
  index-normalising `play(int)` move the cursor `mPlayingPosition`. The move
  depends on the persisted play mode (Loop, Single or Shuffle), which is read
  again on every call.
- **Reconciliation after a rescan.** `updatePlayingPosition` finds the cursor
  again by a linear search for the persisted track id. The main-thread half
  of `updateMusicList` replaces the list and then reconciles.

Files:

- `playlist.dfy`, module `Playlist`: the track record and the pure index
  rules, with lemmas about them. The rules are normalisation, the Loop
  successor and predecessor, and the search for the first track with a given
  id.
- `service.dfy`, module `Service`: the class `PlayService`. Its fields are the
  ones the source updates:
  - `playlist`: the shared music list.
  - `position`: `mPlayingPosition`.
  - `playing`: `mPlayingMusic`.
  - `state`: `mPlayState`.
  - `hasPlayer`: `mPlayer != null`.
  - `renderer`: a log of the calls that change the `MediaPlayer`.
  - `hasListener`: `mListener != null`.
  - `events`: a log of `onPlayerStart`, `onPlayerPause` and `onChange` notifications.
  - `playMode` and `musicId`: the two settings keys, whose defaults are Loop and -1.

Each method's `ensures` states its whole new state. Where several methods
share an effect, it is written once as a two-state predicate: `Started`,
`PausedNow`, `Stopped`, `Played`, `Selected`, `PlayedAt`, `WentNext` and
`WentPrev`. The `modifies` clauses name single fields, so every field a method
does not list is unchanged.

The object invariant `Valid()` has two parts. First, only Idle can be held
without a renderer. Second, on a non-empty list the cursor is -1 or a valid
index.

Inputs that come from outside the controller are parameters:

- `loadOk` says whether `setDataSource` accepted the track's path.
- `rendererPosition` is the renderer's playback position.
- The Shuffle choice is a nondeterministic index in `[0, size)`.

Behaviours of the code worth noting:

- **Failed load.** When `setDataSource` throws, `play(LocalMusic)` swallows
  the exception and leaves the state as it was; it does not move to
  Preparing. By then the playing track has been updated and the renderer has
  been reset; when it is reached through `play(int)`, the cursor and the
  persisted id have been updated as well.
- **Cursor range.** `play(LocalMusic)` is public and can reach Preparing
  while the cursor is still -1, so `Valid()` allows -1 on a non-empty list.
  The paths through `play(int)` always leave the cursor inside the list.
- **Loop `prev` from track 0.** The code sets the cursor to `size`, and
  `play(int)` then wraps it to track 0. The model keeps this as written (see
  Findings).

## Model

| member | source | states |
|---|---|---|
| Playlist.Normalize | app/src/main/java/cn/ycbjie/ycaudioplayer/service/PlayService.java:287-292 | On a non-empty list, any index lands in `[0,size)`. An in-range index is kept, a negative one becomes the last track, and one at or past the end becomes the first. |
| Playlist.NormalizeFiveTracks | app/src/main/java/cn/ycbjie/ycaudioplayer/service/PlayService.java:287-292 | On a five-track list, index -1 selects track 4 and index 5 selects track 0. |
| Playlist.LoopNext | app/src/main/java/cn/ycbjie/ycaudioplayer/service/PlayService.java:219-225 | The Loop successor of an in-range cursor is itself in range, and from -1 it is the first track. |
| Playlist.LoopPrev | app/src/main/java/cn/ycbjie/ycaudioplayer/service/PlayService.java:181-187 | The as-written Loop predecessor of a cursor in `(0,size]` is in range, while from track 0 it is the out-of-range sentinel `size`. |
| Playlist.LoopPrevIntended | app/src/main/java/cn/ycbjie/ycaudioplayer/service/PlayService.java:181-187 | The corrected Loop predecessor of an in-range cursor is always in range. |
| Playlist.LoopNextStep | app/src/main/java/cn/ycbjie/ycaudioplayer/service/PlayService.java:217-226 | Loop `next` from any cursor in `[-1,size)` goes to cursor+1, or to 0 from the last track. |
| Playlist.LoopPrevStep | app/src/main/java/cn/ycbjie/ycaudioplayer/service/PlayService.java:179-188 | Loop `prev` as written: cursor-1 from any track after the first; from track 0 it stays on track 0 (the `size` sentinel wraps); from -1 it selects the last track. |
| Playlist.LoopPrevFromFirstMissesLast | app/src/main/java/cn/ycbjie/ycaudioplayer/service/PlayService.java:184-187 | With two or more tracks, `prev` from the first track does not reach the last one. So `prev` does not undo `next` from the last track. |
| Playlist.LoopPrevIntendedInvertsNext | app/src/main/java/cn/ycbjie/ycaudioplayer/service/PlayService.java:184-187 | The corrected predecessor goes from track 0 to the last track. It undoes Loop `next`, and Loop `next` undoes it, on every track. |
| Playlist.IndexOfId | app/src/main/java/cn/ycbjie/ycaudioplayer/service/PlayService.java:465-470 | The search returns the first index whose id matches, with no match before it. It returns nothing only when no track has the id. |
| Playlist.ReconciledPosition | app/src/main/java/cn/ycbjie/ycaudioplayer/service/PlayService.java:463-471 | The reconciled cursor is in range. It is the first track with the persisted id when one exists, and 0 otherwise. |
| Playlist.ReconcileSelected | app/src/main/java/cn/ycbjie/ycaudioplayer/service/PlayService.java:462-474 | Round trip: with distinct ids, reconciling with the id of track `i` gives back `i`. |
| Playlist.ReconcileIdempotent | app/src/main/java/cn/ycbjie/ycaudioplayer/service/PlayService.java:471-473 | Reconciling again with the id that reconciliation re-persisted leaves the cursor where it is. |
| Service.PlayService.constructor | app/src/main/java/cn/ycbjie/ycaudioplayer/service/PlayService.java:34-50 | Initially: cursor -1, no playing track, Idle, no renderer, no listener. The play mode and the persisted id are the stored settings, which survive from an earlier run. |
| Service.PlayService.IsPlaying | app/src/main/java/cn/ycbjie/ycaudioplayer/service/PlayService.java:306-308 | A pure read of `state`; while it holds under the invariant, the renderer exists. |
| Service.PlayService.IsPausing | app/src/main/java/cn/ycbjie/ycaudioplayer/service/PlayService.java:315-317 | A pure read of `state`; while it holds under the invariant, the renderer exists. |
| Service.PlayService.IsPreparing | app/src/main/java/cn/ycbjie/ycaudioplayer/service/PlayService.java:324-326 | A pure read of `state`; while it holds under the invariant, the renderer exists. |
| Service.PlayService.IsDefault | app/src/main/java/cn/ycbjie/ycaudioplayer/service/PlayService.java:333-335 | A pure read of `state`; whenever it fails under the invariant, the renderer exists. |
| Service.PlayService.CreateMediaPlayer | app/src/main/java/cn/ycbjie/ycaudioplayer/service/PlayService.java:82-86 | The renderer exists afterwards and is created at most once. |
| Service.PlayService.Start | app/src/main/java/cn/ycbjie/ycaudioplayer/service/PlayService.java:238-249 | From Preparing or Paused: Playing, one renderer `start`, and one `OnStart` to a registered listener. Any other state is left untouched. |
| Service.PlayService.Pause | app/src/main/java/cn/ycbjie/ycaudioplayer/service/PlayService.java:254-262 | With a renderer: Paused, one renderer `pause`, and one `OnPause`. Without one, nothing changes. |
| Service.PlayService.Stop | app/src/main/java/cn/ycbjie/ycaudioplayer/service/PlayService.java:267-276 | From Idle nothing changes. Otherwise: `pause` then `reset`, `OnPause`, and Idle. |
| Service.PlayService.PlayTrack | app/src/main/java/cn/ycbjie/ycaudioplayer/service/PlayService.java:338-360 | The track becomes the playing one, the renderer is created if absent, reset and given the path. On success: prepare, Preparing, one `OnChange(track)`. On failure the state and the listener are untouched. |
| Service.PlayService.PlayAt | app/src/main/java/cn/ycbjie/ycaudioplayer/service/PlayService.java:282-299 | On an empty list nothing changes. Otherwise the normalised index becomes the cursor, its id is persisted, and it is played as in `PlayTrack`. |
| Service.PlayService.Next | app/src/main/java/cn/ycbjie/ycaudioplayer/service/PlayService.java:198-229 | On an empty list nothing changes. Otherwise a track is selected: any index under Shuffle, the normalised cursor under Single, and the Loop successor under Loop or an unrecognised mode. |
| Service.PlayService.Prev | app/src/main/java/cn/ycbjie/ycaudioplayer/service/PlayService.java:160-191 | As `Next`, but Loop and unrecognised modes use the as-written Loop predecessor. |
| Service.PlayService.PlayPause | app/src/main/java/cn/ycbjie/ycaudioplayer/service/PlayService.java:143-153 | Preparing stops to Idle, Playing pauses, and Paused starts; in these three cases the cursor, id and playing track are kept. Idle plays the current cursor. |
| Service.PlayService.OnPrepared | app/src/main/java/cn/ycbjie/ycaudioplayer/service/PlayService.java:365-373 | In Preparing it starts playback: Playing, one renderer `start`, and one `OnStart` to a registered listener. In any other state nothing changes. |
| Service.PlayService.OnCompletion | app/src/main/java/cn/ycbjie/ycaudioplayer/service/PlayService.java:377-383 | Same effect as `Next` (the same `WentNext` predicate). |
| Service.PlayService.CurrentPosition | app/src/main/java/cn/ycbjie/ycaudioplayer/service/PlayService.java:416-422 | The renderer's position while Playing or Paused, and 0 while Idle or Preparing. In the first two states the renderer it asks exists. |
| Service.PlayService.UpdatePlayingPosition | app/src/main/java/cn/ycbjie/ycaudioplayer/service/PlayService.java:462-474 | On a non-empty list the cursor becomes the reconciled position for the persisted id, and that track's id is persisted again. |
| Service.PlayService.OnMusicListScanned | app/src/main/java/cn/ycbjie/ycaudioplayer/service/PlayService.java:438-455 | The list is replaced by the scan. If the scan is non-empty, the cursor is reconciled and the track under it becomes the playing one. Otherwise the cursor, id and playing track are kept. Playback state is never touched. |
| Service.SelectThenReconcile | app/src/main/java/cn/ycbjie/ycaudioplayer/service/PlayService.java:294-297 | With distinct ids, `play(i)` followed by `updatePlayingPosition()` ends on the normalised `i`, and that track's id is persisted. |

## Findings

| source | as written | input that shows it | evidently intended | confidence | as-written member | corrected member |
|---|---|---|---|---|---|---|
| app/src/main/java/cn/ycbjie/ycaudioplayer/service/PlayService.java:184-187 | Under Loop, `prev()` from track 0 sets the cursor to `size`, and `play(int)` wraps that to track 0. | A list of 3 tracks, Loop mode, cursor 0: `prev()` selects track 0. | Select the last track (`size-1`), as the comment on line 185 says. | high; not executed | Playlist.LoopPrevFromFirstMissesLast | Playlist.LoopPrevIntendedInvertsNext |

The controller model `Service.PlayService.Prev` keeps the as-written rule
`Playlist.LoopPrev`, because it models what the service does. The corrected
rule is `Playlist.LoopPrevIntended`.

## Left out

- Service lifecycle: `onBind`, `PlayBinder`, `onCreate`, `onDestroy` and the `onStartCommand` intent dispatch. They are platform glue. `onCreate` only calls `createMediaPlayer`, which is modelled.
- The `setOnPreparedListener`, `setOnBufferingUpdateListener` and `setOnCompletionListener` registrations (lines 350-352) and the `getCurrentPosition` read (line 418) are not entered in the renderer log: they change nothing the controller later reads.
- `MediaPlayer` internals: decoding, the timing of `prepareAsync`, and the position value. The renderer is a log of calls. The prepared and completion callbacks are methods that may be invoked in any state. Exceptions other than the `IOException` from `setDataSource` are not modelled.
- The buffering-update listener: its body is empty.
- Listener registration (`setOnPlayEventListener`/`getOnPlayEventListener`): a single slot, modelled as the public field `hasListener`.
- `SPUtils` persistence: modelled as the public fields `playMode` and `musicId`, whose stored values are constructor parameters. Writers elsewhere in the app assign them directly.
- The integer-to-mode mapping `PlayModeEnum.valueOf` and the `MusicPlayAction` state codes are not part of this model. Modes and states are datatypes, and `Unrecognized` stands for any code the mapping does not name.
- Service.PlayService.Next: the Shuffle choice is any index in `[0,size)`. `java.util.Random` and its uniform distribution are not modelled. The same holds for Prev.
- Service.PlayService.OnMusicListScanned: the background half of `updateMusicList` is not part of this model. That is the `AsyncTask`, `FileScanManager.scanMusic` and the filesystem. The scan result is a parameter. The caller-supplied completion callback is opaque and is left out.
- Service.PlayService.UpdatePlayingPosition: requires a non-empty list. On an empty list the source throws when it reads track 0 (line 472).
- Changes to the shared music list made elsewhere in the app (`BaseAppHelper`) are not part of this model. The list changes only through the scan.
- The accessors `getPlayingPosition` and `getPlayingMusic` are reads of `position` and `playing`.
- Integer widths: `mPlayingPosition` is a Java `int` and ids are Java `long`. They are unbounded here. Ids are only compared, and the cursor stays within `[-2, size]` (Loop `prev` from -1 holds -2 until `play(int)` normalises it), so no wrap-around can occur.
- Track metadata other than `id` and `path`: the controller never reads it.
