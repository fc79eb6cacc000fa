/**
 * The playback controller of the music player service: a four-state machine
 * over an opaque media renderer, navigation over the shared music list under
 * the persisted play mode, and re-finding the cursor after a rescan.
 *
 * The renderer is represented by the log of the calls that change it, the registered
 * listener by the log of notifications it received, and the key-value
 * settings store by two fields.
 */
module Service {
  import opened Playlist

  datatype PlayState = Idle | Preparing | Playing | Paused

  /** The play mode as decoded from settings; Unrecognized is any other stored code. */
  datatype PlayMode = Loop | Single | Shuffle | Unrecognized

  /** A notification delivered to the registered listener. */
  datatype Event = OnStart | OnPause | OnChange(track: Track)

  /**
   * A call made on the media renderer; SetDataSource is logged when it is
   * attempted, whether or not the source could be opened.
   */
  datatype MediaCall = Create | Reset | SetDataSource(path: string) | PrepareAsync | Start | Pause

  class PlayService {
    /** The shared music list the controller indexes into. */
    var playlist: seq<Track>
    /** The cursor; -1 until a track is selected. */
    var position: int
    /** The track most recently handed to the renderer. */
    var playing: Option<Track>
    var state: PlayState
    /** Whether the renderer object exists (it is created lazily, once). */
    var hasPlayer: bool
    var renderer: seq<MediaCall>
    /** Whether a listener is registered. */
    var hasListener: bool
    var events: seq<Event>
    /** Persisted setting: the play mode, re-read on every navigation. */
    var playMode: PlayMode
    /** Persisted setting: the id of the last selected track. */
    var musicId: int

    /**
     * The renderer exists whenever the state is not Idle, and on a non-empty
     * list the cursor is either -1 (nothing selected yet) or a valid index.
     */
    ghost predicate Valid()
      reads this
    {
      && RendererBacked()
      && (|playlist| > 0 ==> -1 <= position < |playlist|)
    }

    /** Only Idle can be held without a renderer. */
    ghost predicate RendererBacked()
      reads this
    {
      state != Idle ==> hasPlayer
    }

    /**
     * The fields' initial values. The two settings survive from an earlier
     * run: a first launch passes their defaults, Loop and -1.
     */
    constructor (musicList: seq<Track>, storedMode: PlayMode, storedMusicId: int)
      ensures Valid()
      ensures playlist == musicList && position == -1 && playing == None
      ensures state == Idle && !hasPlayer && renderer == []
      ensures !hasListener && events == []
      ensures playMode == storedMode && musicId == storedMusicId
    {
      playlist := musicList;
      position := -1;
      playing := None;
      state := Idle;
      hasPlayer := false;
      renderer := [];
      hasListener := false;
      events := [];
      playMode := storedMode;
      musicId := storedMusicId;
    }

    /** isPlaying(): a pure read of the state; while it holds, a renderer exists to ask. */
    predicate IsPlaying()
      reads this
      ensures IsPlaying() && RendererBacked() ==> hasPlayer
    {
      state == Playing
    }

    /** isPausing(): a pure read of the state; while it holds, a renderer exists to ask. */
    predicate IsPausing()
      reads this
      ensures IsPausing() && RendererBacked() ==> hasPlayer
    {
      state == Paused
    }

    /** isPreparing(): a pure read of the state; while it holds, a renderer exists to start. */
    predicate IsPreparing()
      reads this
      ensures IsPreparing() && RendererBacked() ==> hasPlayer
    {
      state == Preparing
    }

    /** isDefault(): a pure read of the state; only when it fails does stop() touch the renderer, which then exists. */
    predicate IsDefault()
      reads this
      ensures !IsDefault() && RendererBacked() ==> hasPlayer
    {
      state == Idle
    }

    /** What the listener receives for `e`: the notification if one is registered, nothing otherwise. */
    function Notify(e: Event): seq<Event>
      reads this
    {
      if hasListener then [e] else []
    }

    /** The effect of start(): from Preparing or Paused, the renderer starts and the listener hears OnStart. */
    twostate predicate Started()
      reads this
    {
      if old(state) == Preparing || old(state) == Paused then
        && state == Playing
        && renderer == old(renderer) + [MediaCall.Start]
        && events == old(events) + Notify(OnStart)
      else
        && state == old(state)
        && renderer == old(renderer)
        && events == old(events)
    }

    /** The effect of pause() on an existing renderer. */
    twostate predicate PausedNow()
      reads this
    {
      && state == Paused
      && renderer == old(renderer) + [MediaCall.Pause]
      && events == old(events) + Notify(OnPause)
    }

    /** The effect of stop(): outside Idle, pause, then reset to Idle. */
    twostate predicate Stopped()
      reads this
    {
      if old(state) == Idle then
        && state == old(state)
        && renderer == old(renderer)
        && events == old(events)
      else
        && state == Idle
        && renderer == old(renderer) + [MediaCall.Pause, MediaCall.Reset]
        && events == old(events) + Notify(OnPause)
    }

    /**
     * The effect of play(music): the track becomes the playing one, the
     * renderer (created if absent) is reset and given the track's path; when
     * the source opens, it is prepared, the state becomes Preparing and the
     * listener hears OnChange; when it does not, the state is left as it was.
     */
    twostate predicate Played(music: Track, loadOk: bool)
      reads this
    {
      && playing == Some(music)
      && hasPlayer
      && renderer == old(renderer) + (if old(hasPlayer) then [] else [MediaCall.Create])
                       + [MediaCall.Reset, MediaCall.SetDataSource(music.path)]
                       + (if loadOk then [MediaCall.PrepareAsync] else [])
      && state == (if loadOk then Preparing else old(state))
      && events == old(events) + (if loadOk then Notify(OnChange(music)) else [])
    }

    /** Track `p` was selected: it is the cursor, its id is persisted, and it was played. */
    twostate predicate Selected(p: int, loadOk: bool)
      reads this
    {
      && 0 <= p < |playlist|
      && position == p
      && musicId == playlist[p].id
      && Played(playlist[p], loadOk)
    }

    /** Cursor, persisted id, playing track and renderer existence are as before. */
    twostate predicate SelectionKept()
      reads this
    {
      && position == old(position)
      && musicId == old(musicId)
      && playing == old(playing)
      && hasPlayer == old(hasPlayer)
    }

    /** The effect of play(int): nothing on an empty list, else the normalised index is selected. */
    twostate predicate PlayedAt(index: int, loadOk: bool)
      reads this
    {
      if |playlist| == 0 then unchanged(this)
      else Selected(Normalize(index, |playlist|), loadOk)
    }

    /**
     * The effect of next(): nothing on an empty list; otherwise some track is
     * selected, namely any track under Shuffle, the normalised current cursor
     * under Single, and the Loop successor under Loop or an unrecognised mode.
     */
    twostate predicate WentNext(loadOk: bool)
      reads this
    {
      if |playlist| == 0 then unchanged(this)
      else
        && Selected(position, loadOk)
        && (playMode == Single ==> position == Normalize(old(position), |playlist|))
        && (playMode == Loop || playMode == Unrecognized ==>
              position == Normalize(LoopNext(old(position), |playlist|), |playlist|))
    }

    /** The effect of prev(): as WentNext, with the Loop predecessor as written. */
    twostate predicate WentPrev(loadOk: bool)
      reads this
    {
      if |playlist| == 0 then unchanged(this)
      else
        && Selected(position, loadOk)
        && (playMode == Single ==> position == Normalize(old(position), |playlist|))
        && (playMode == Loop || playMode == Unrecognized ==>
              position == Normalize(LoopPrev(old(position), |playlist|), |playlist|))
    }

    /** createMediaPlayer(): the renderer is created once. */
    method CreateMediaPlayer()
      modifies this`hasPlayer, this`renderer
      ensures hasPlayer
      ensures renderer == old(renderer) + (if old(hasPlayer) then [] else [MediaCall.Create])
    {
      if !hasPlayer {
        hasPlayer := true;
        renderer := renderer + [MediaCall.Create];
      }
    }

    /** start(): only from Preparing or Paused; any other state is ignored. */
    method Start()
      requires Valid()
      modifies this`state, this`renderer, this`events
      ensures Valid()
      ensures Started()
    {
      if !IsPreparing() && !IsPausing() {
        return;
      }
      if hasPlayer {
        renderer := renderer + [MediaCall.Start];
        state := Playing;
        if hasListener {
          events := events + [OnStart];
        }
      }
    }

    /** pause(): pauses an existing renderer in any state; without a renderer nothing happens. */
    method Pause()
      requires Valid()
      modifies this`state, this`renderer, this`events
      ensures Valid()
      ensures old(hasPlayer) ==> PausedNow()
      ensures !old(hasPlayer) ==> unchanged(this)
    {
      if hasPlayer {
        renderer := renderer + [MediaCall.Pause];
        state := Paused;
        if hasListener {
          events := events + [OnPause];
        }
      }
    }

    /** stop(): nothing from Idle; otherwise pause, reset the renderer and return to Idle. */
    method Stop()
      requires Valid()
      modifies this`state, this`renderer, this`events
      ensures Valid()
      ensures Stopped()
    {
      if IsDefault() {
        return;
      }
      Pause();
      if hasPlayer {
        renderer := renderer + [MediaCall.Reset];
        state := Idle;
      }
    }

    /**
     * play(music): hand a track to the renderer. `loadOk` says whether the
     * renderer accepted the track's path; when it did not, the failure is
     * swallowed after the playing track was already updated.
     */
    method PlayTrack(music: Track, loadOk: bool)
      requires RendererBacked()
      modifies this`playing, this`hasPlayer, this`renderer, this`state, this`events
      ensures RendererBacked()
      ensures Played(music, loadOk)
    {
      playing := Some(music);
      CreateMediaPlayer();
      renderer := renderer + [MediaCall.Reset, MediaCall.SetDataSource(music.path)];
      if loadOk {
        renderer := renderer + [MediaCall.PrepareAsync];
        state := Preparing;
        if hasListener {
          events := events + [OnChange(music)];
        }
      }
    }

    /** play(int): normalise the index, select that track, persist its id and play it. */
    method PlayAt(index: int, loadOk: bool)
      requires RendererBacked()
      modifies this`position, this`musicId, this`playing, this`hasPlayer, this`renderer, this`state, this`events
      ensures RendererBacked() && (|playlist| > 0 ==> Valid())
      ensures PlayedAt(index, loadOk)
    {
      if |playlist| == 0 {
        return;
      }
      position := Normalize(index, |playlist|);
      var music := playlist[position];
      musicId := music.id;
      PlayTrack(music, loadOk);
    }

    /** next(): move the cursor by the current play mode and play the track there. */
    method Next(loadOk: bool)
      requires Valid()
      modifies this`position, this`musicId, this`playing, this`hasPlayer, this`renderer, this`state, this`events
      ensures Valid()
      ensures WentNext(loadOk)
    {
      if |playlist| == 0 {
        return;
      }
      var size := |playlist|;
      match playMode
      case Shuffle =>
        var k :| 0 <= k < size;
        position := k;
        PlayAt(position, loadOk);
      case Single =>
        PlayAt(position, loadOk);
      case _ =>
        position := LoopNext(position, size);
        PlayAt(position, loadOk);
    }

    /** prev(): move the cursor back by the current play mode and play the track there. */
    method Prev(loadOk: bool)
      requires Valid()
      modifies this`position, this`musicId, this`playing, this`hasPlayer, this`renderer, this`state, this`events
      ensures Valid()
      ensures WentPrev(loadOk)
    {
      if |playlist| == 0 {
        return;
      }
      var size := |playlist|;
      match playMode
      case Shuffle =>
        var k :| 0 <= k < size;
        position := k;
        PlayAt(position, loadOk);
      case Single =>
        PlayAt(position, loadOk);
      case _ =>
        position := LoopPrev(position, size);
        PlayAt(position, loadOk);
    }

    /** playPause(): stop while preparing, pause while playing, resume while paused, else play the cursor. */
    method PlayPause(loadOk: bool)
      requires Valid()
      modifies this`position, this`musicId, this`playing, this`hasPlayer, this`renderer, this`state, this`events
      ensures Valid()
      ensures old(state) == Preparing ==> Stopped() && SelectionKept()
      ensures old(state) == Playing ==> PausedNow() && SelectionKept()
      ensures old(state) == Paused ==> Started() && SelectionKept()
      ensures old(state) == Idle ==> PlayedAt(old(position), loadOk)
    {
      if IsPreparing() {
        Stop();
      } else if IsPlaying() {
        Pause();
      } else if IsPausing() {
        Start();
      } else {
        PlayAt(position, loadOk);
      }
    }

    /** The renderer's "prepared" callback: start playing if still preparing, else ignore it. */
    method OnPrepared()
      requires Valid()
      modifies this`state, this`renderer, this`events
      ensures Valid()
      ensures old(state) == Preparing ==> Started()
      ensures old(state) != Preparing ==> unchanged(this)
    {
      if IsPreparing() {
        Start();
      }
    }

    /** The renderer's "completion" callback: exactly next(). */
    method OnCompletion(loadOk: bool)
      requires Valid()
      modifies this`position, this`musicId, this`playing, this`hasPlayer, this`renderer, this`state, this`events
      ensures Valid()
      ensures WentNext(loadOk)
    {
      Next(loadOk);
    }

    /** getCurrentPosition(): the renderer's position while playing or paused, 0 otherwise. */
    method CurrentPosition(rendererPosition: int) returns (ms: int)
      requires Valid()
      ensures state == Playing || state == Paused ==> hasPlayer
      ensures state == Playing || state == Paused ==> ms == rendererPosition
      ensures state == Idle || state == Preparing ==> ms == 0
    {
      if IsPlaying() || IsPausing() {
        ms := rendererPosition;
      } else {
        ms := 0;
      }
    }

    /**
     * updatePlayingPosition(): find the first track carrying the persisted id
     * (the first track when none does) and persist that track's id again.
     */
    method UpdatePlayingPosition()
      requires |playlist| > 0
      modifies this`position, this`musicId
      ensures position == ReconciledPosition(playlist, old(musicId))
      ensures 0 <= position < |playlist| && musicId == playlist[position].id
      ensures RendererBacked() ==> Valid()
    {
      var found := 0;
      var id := musicId;
      var i := 0;
      while i < |playlist|
        invariant 0 <= i <= |playlist|
        invariant found == 0
        invariant forall j :: 0 <= j < i ==> playlist[j].id != id
      {
        if playlist[i].id == id {
          found := i;
          break;
        }
        i := i + 1;
      }
      position := found;
      musicId := playlist[position].id;
    }

    /**
     * The main-thread half of updateMusicList(): replace the music list with
     * the scan result and, when it is not empty, reconcile the cursor and make
     * the track under it the playing one. Playback itself is not touched.
     */
    method OnMusicListScanned(musicList: seq<Track>)
      requires Valid()
      modifies this`playlist, this`position, this`musicId, this`playing
      ensures Valid()
      ensures playlist == musicList
      ensures |musicList| == 0 ==> position == old(position) && musicId == old(musicId) && playing == old(playing)
      ensures |musicList| > 0 ==>
                && position == ReconciledPosition(musicList, old(musicId))
                && musicId == musicList[position].id
                && playing == Some(musicList[position])
    {
      playlist := musicList;
      if |playlist| > 0 {
        UpdatePlayingPosition();
        playing := Some(playlist[position]);
      }
    }
  }

  /**
   * Selecting a track by index and then reconciling the cursor (as after a
   * rescan that kept the list) comes back to the same track when ids are distinct.
   */
  method SelectThenReconcile(c: PlayService, index: int, loadOk: bool)
    requires c.Valid() && |c.playlist| > 0 && DistinctIds(c.playlist)
    modifies c
    ensures c.playlist == old(c.playlist)
    ensures c.Valid()
    ensures c.position == Normalize(index, |c.playlist|)
    ensures c.musicId == c.playlist[c.position].id
  {
    c.PlayAt(index, loadOk);
    ghost var selected := c.position;
    c.UpdatePlayingPosition();
    ReconcileSelected(c.playlist, selected);
  }
}
