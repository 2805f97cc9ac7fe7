/**
 * The live playlist player (the script the site serves): one controller
 * object holding the fetched track list, the selected index, the single
 * current audio handle, the volume and mute memory and the seek-drag flag,
 * together with the part of the page it renders.
 *
 * Event handlers become methods. The promise returned by `audio.play()`
 * settles later, in a callback of its own: `SettleTrackPlay(ok)` for a
 * newly started track and `SettleResume(ok)` for a resumed one. A fetch of
 * the list is one `LoadTracks` step whose outcome is a parameter.
 */
module LivePlayer {
  import opened Wrappers
  import opened Tracks
  import opened TimeFormat
  import opened PlayerLogic
  import opened Media

  /** The part of the page the controller writes. */
  datatype View = View(
    trackShowsPause: seq<bool>,   // per listed track: pause icon instead of play
    titleActive: seq<bool>,       // per listed track: title highlighted
    playerShowsPause: bool,       // player bar: pause button shown instead of play
    topShowsPause: bool,          // top play button shows the pause icon
    progress: nat,                // progress slider, 0..100
    currentTimeText: string,
    totalTimeText: string,
    volumeSlider: nat,            // volume slider, 0..100
    speaker: Tier,
    nowPlaying: string)           // title shown in the player bar

  /** The controller's variables, for saying which of them an operation changes. */
  datatype Controller = Controller(
    tracks: seq<Track>, currentTrackIndex: Option<nat>, currentAudio: AudioElement?,
    mixer: Mixer, isDragging: bool, created: nat)

  /** The four listeners attached to every handle the live player creates. */
  const Listeners: set<AudioEvent> := {TimeUpdate, LoadedMetadata, Ended, Error}

  const NoTracksTitle := "No tracks available"

  class Player {
    var tracks: seq<Track>
    var currentTrackIndex: Option<nat>
    var currentAudio: AudioElement?
    var mixer: Mixer
    var isDragging: bool
    var created: nat       // audio handles created so far
    var alerts: nat        // alerts shown to the user so far
    var view: View

    /** The rendered list matches the track list and the index points into it. */
    ghost predicate Rendered()
      reads this
    {
      && (currentTrackIndex.Some? ==> currentTrackIndex.value < |tracks|)
      && |view.trackShowsPause| == |tracks|
      && |view.titleActive| == |tracks|
    }

    /**
     * Besides `Rendered`: the volumes are slider positions, and the current
     * handle plays at the current volume with all four listeners attached.
     */
    ghost predicate Valid()
      reads this, currentAudio
    {
      && Rendered()
      && InRange(mixer)
      && (currentAudio != null ==>
            && currentAudio.volume == mixer.currentVolume
            && currentAudio.listeners == Listeners
            && 0 < created)
    }

    ghost function Controls(): Controller
      reads this`tracks, this`currentTrackIndex, this`currentAudio, this`mixer,
            this`isDragging, this`created
    {
      Controller(tracks, currentTrackIndex, currentAudio, mixer, isDragging, created)
    }

    /** Nothing the controller owns has changed. */
    twostate predicate Unchanged()
      reads this`tracks, this`currentTrackIndex, this`currentAudio, this`mixer,
            this`isDragging, this`created, this`view, currentAudio
    {
      && Controls() == old(Controls())
      && view == old(view)
      && (currentAudio != null ==> currentAudio.State() == old(currentAudio.State()))
    }

    /**
     * The same track was picked again while its handle exists: only that
     * handle's paused flag flips. Pausing also shows the play buttons;
     * resuming waits for the play() promise (`SettleResume`).
     */
    twostate predicate Toggled()
      reads this`tracks, this`currentTrackIndex, this`currentAudio, this`mixer,
            this`isDragging, this`created, this`view, currentAudio
    {
      && currentAudio != null
      && Controls() == old(Controls())
      && currentAudio.State() == old(currentAudio.State()).(paused := !old(currentAudio.paused))
      && view == if old(currentAudio.paused) then old(view)
                 else old(view).(playerShowsPause := false, topShowsPause := false,
                                 trackShowsPause := ShowsPause(|tracks|, currentTrackIndex, false))
    }

    /**
     * A different track (or the first one) was started: the previous handle
     * is paused, rewound and unsubscribed; exactly one new handle exists,
     * at the current volume and mute flag, with its play() requested; the
     * progress display starts over and the list highlights the new index.
     */
    twostate predicate Started(index: nat, prev: AudioElement?)
      reads this`tracks, this`currentTrackIndex, this`currentAudio, this`mixer,
            this`isDragging, this`created, this`view, currentAudio, prev
    {
      && index < |tracks|
      && (prev != null ==>
            prev.State() == old(prev.State()).(paused := true, currentTime := 0, listeners := {}))
      && currentAudio != null
      && fresh(currentAudio)
      && currentAudio.src == tracks[index].file
      && currentAudio.State() == AudioState(false, mixer.currentVolume, mixer.isMuted, 0, 0, Listeners)
      && Controls() == old(Controls()).(currentTrackIndex := Some(index), currentAudio := currentAudio,
                                        created := old(created) + 1)
      && view == old(view).(progress := 0, currentTimeText := "0:00", totalTimeText := "0:00",
                            nowPlaying := tracks[index].title,
                            titleActive := Highlight(|tracks|, Some(index)),
                            trackShowsPause := Highlight(|tracks|, Some(index)))
    }

    /** The effect of `playTrackByIndex(index)`, where `prev` is the handle before the call. */
    twostate predicate Selected(index: nat, prev: AudioElement?)
      reads this`tracks, this`currentTrackIndex, this`currentAudio, this`mixer,
            this`isDragging, this`created, this`view, currentAudio, prev
    {
      && prev == old(currentAudio)
      && if old(currentTrackIndex) == Some(index) && prev != null then Toggled()
         else Started(index, prev)
    }

    /** The script's initial variables; the page starts with an empty list. */
    constructor ()
      ensures Valid()
      ensures Controls() == Controller([], None, null, InitialMixer, false, 0)
      ensures alerts == 0 && view.trackShowsPause == [] && view.titleActive == []
    {
      tracks, currentTrackIndex, currentAudio := [], None, null;
      mixer, isDragging, created, alerts := InitialMixer, false, 0, 0;
      view := View([], [], false, false, 0, "0:00", "0:00", 50, IconTier(50, false), "");
    }

    // -------------------------------------------------------------------
    // Rendering

    /** `updateVolumeIcon`. */
    method UpdateVolumeIcon()
      modifies this
      ensures Controls() == old(Controls()) && alerts == old(alerts)
      ensures view == old(view).(speaker := IconTier(mixer.currentVolume, mixer.isMuted))
    {
      view := view.(speaker := IconTier(mixer.currentVolume, mixer.isMuted));
    }

    /** `updatePlayPauseButtons(isPlaying)`: only the current index may show pause, and only while playing. */
    method UpdatePlayPauseButtons(isPlaying: bool)
      requires Rendered()
      modifies this
      ensures Rendered() && Controls() == old(Controls()) && alerts == old(alerts)
      ensures view == old(view).(playerShowsPause := isPlaying, topShowsPause := isPlaying,
                                 trackShowsPause := ShowsPause(|tracks|, currentTrackIndex, isPlaying))
    {
      var icons: seq<bool> := [];
      var k := 0;
      while k < |view.trackShowsPause|
        invariant k <= |view.trackShowsPause|
        invariant icons == ShowsPause(k, currentTrackIndex, isPlaying)
      {
        icons := icons + [currentTrackIndex == Some(k) && isPlaying];
        k := k + 1;
      }
      view := view.(playerShowsPause := isPlaying, trackShowsPause := icons, topShowsPause := isPlaying);
    }

    /** `updateActiveTrack`: clear every row, then mark the current one (title active, pause icon). */
    method UpdateActiveTrack()
      requires Rendered()
      modifies this
      ensures Rendered() && Controls() == old(Controls()) && alerts == old(alerts)
      ensures view == old(view).(titleActive := Highlight(|tracks|, currentTrackIndex),
                                 trackShowsPause := Highlight(|tracks|, currentTrackIndex))
    {
      var titles: seq<bool> := [];
      var k := 0;
      while k < |view.titleActive|
        invariant k <= |view.titleActive|
        invariant titles == Highlight(k, None)
      {
        titles := titles + [false];
        k := k + 1;
      }
      var icons := titles;
      if currentTrackIndex.Some? && currentTrackIndex.value < |titles| {
        titles := titles[currentTrackIndex.value := true];
        icons := icons[currentTrackIndex.value := true];
      }
      assert titles == Highlight(|tracks|, currentTrackIndex);
      view := view.(titleActive := titles, trackShowsPause := icons);
    }

    /** `updatePlayerUI(track)`: the player bar shows the track's title. */
    method UpdatePlayerUI(track: Track)
      requires Rendered()
      modifies this
      ensures Rendered() && Controls() == old(Controls()) && alerts == old(alerts)
      ensures view == old(view).(nowPlaying := track.title)
    {
      view := view.(nowPlaying := track.title);
    }

    /** `updateDuration` (the `loadedmetadata` listener): shown only once a duration is known. */
    method UpdateDuration()
      requires Valid()
      modifies this
      ensures Valid() && Controls() == old(Controls()) && alerts == old(alerts)
      ensures view == if currentAudio != null && 0 < currentAudio.duration
                      then old(view).(totalTimeText := FormatTime(currentAudio.duration))
                      else old(view)
    {
      if currentAudio != null && 0 < currentAudio.duration {
        view := view.(totalTimeText := FormatTime(currentAudio.duration));
      }
    }

    /** `updateProgressBar` (the `timeupdate` listener): suppressed while the user drags. */
    method UpdateProgressBar()
      requires Valid()
      modifies this
      ensures Valid() && Controls() == old(Controls()) && alerts == old(alerts)
      ensures view == if !isDragging && currentAudio != null && 0 < currentAudio.duration
                      then old(view).(progress := ProgressPercent(currentAudio.currentTime, currentAudio.duration),
                                      currentTimeText := FormatTime(currentAudio.currentTime))
                      else old(view)
    {
      if !isDragging && currentAudio != null && 0 < currentAudio.duration {
        var progress := ProgressPercent(currentAudio.currentTime, currentAudio.duration);
        view := view.(progress := progress, currentTimeText := FormatTime(currentAudio.currentTime));
      }
    }

    // -------------------------------------------------------------------
    // Playback

    /** `playTrackByIndex(index)`, up to the play() request. */
    method PlayTrackByIndex(index: nat)
      requires Valid() && index < |tracks|
      modifies this, currentAudio
      ensures Valid() && alerts == old(alerts)
      ensures Selected(index, old(currentAudio))
    {
      if currentTrackIndex == Some(index) && currentAudio != null {
        FlipPaused();
        return;
      }
      StartTrack(index);
    }

    /** The current handle's play or pause, as `togglePlayPause` and a repeated selection do it. */
    method FlipPaused()
      requires Valid() && currentAudio != null
      modifies this, currentAudio
      ensures Valid() && alerts == old(alerts)
      ensures Toggled()
    {
      if currentAudio.paused {
        currentAudio.paused := false;      // play(); the promise settles in SettleResume
      } else {
        currentAudio.paused := true;
        UpdatePlayPauseButtons(false);
      }
    }

    /** The rest of `playTrackByIndex(index)`: release the old handle, create and start a new one. */
    method StartTrack(index: nat)
      requires Valid() && index < |tracks|
      modifies this, currentAudio
      ensures Valid() && alerts == old(alerts)
      ensures Started(index, old(currentAudio))
    {
      var prev := currentAudio;
      if prev != null {
        Release(prev);
      }

      currentTrackIndex := Some(index);
      var track := tracks[index];
      var audio := new AudioElement(track.file);
      created := created + 1;
      audio.volume := mixer.currentVolume;
      audio.muted := mixer.isMuted;
      currentAudio := audio;

      ShowNewTrack(track);

      audio.listeners := audio.listeners + {LoadedMetadata, TimeUpdate, Ended, Error};
      audio.paused := false;                 // play(); the promise settles in SettleTrackPlay
    }

    /** The old handle is stopped: paused, rewound, and its four listeners removed. */
    static method Release(audio: AudioElement)
      requires audio.listeners == Listeners
      modifies audio
      ensures audio.State() == old(audio.State()).(paused := true, currentTime := 0, listeners := {})
    {
      audio.paused := true;
      audio.currentTime := 0;
      audio.listeners := audio.listeners - {TimeUpdate, LoadedMetadata, Ended, Error};
    }

    /** The display part of starting `track`, the current one: progress reset, title shown, row highlighted. */
    method ShowNewTrack(track: Track)
      requires Rendered()
      modifies this
      ensures Rendered() && Controls() == old(Controls()) && alerts == old(alerts)
      ensures view == old(view).(progress := 0, currentTimeText := "0:00", totalTimeText := "0:00",
                                 nowPlaying := track.title,
                                 titleActive := Highlight(|tracks|, currentTrackIndex),
                                 trackShowsPause := Highlight(|tracks|, currentTrackIndex))
    {
      view := view.(progress := 0, currentTimeText := "0:00", totalTimeText := "0:00");
      UpdatePlayerUI(track);
      UpdateActiveTrack();
    }

    /** The play() promise of a newly started track settles: buttons on success, alert and skip on failure. */
    method SettleTrackPlay(ok: bool)
      requires Valid()
      modifies this, currentAudio
      ensures Valid()
      ensures ok ==> && alerts == old(alerts) && Controls() == old(Controls())
                     && (currentAudio != null ==> currentAudio.State() == old(currentAudio.State()))
                     && view == old(view).(playerShowsPause := true, topShowsPause := true,
                                           trackShowsPause := ShowsPause(|tracks|, currentTrackIndex, true))
      ensures !ok ==> && alerts == old(alerts) + 1
                      && if |old(tracks)| == 0 then Unchanged()
                         else Selected(NextIndex(old(currentTrackIndex), |old(tracks)|), old(currentAudio))
    {
      if ok {
        UpdatePlayPauseButtons(true);
      } else {
        // the alert and the skip touch disjoint state; the alert is counted after the skip
        PlayNextTrack();
        alerts := alerts + 1;
      }
    }

    /** The play() promise of a resumed track settles: buttons on success, nothing but a log on failure. */
    method SettleResume(ok: bool)
      requires Valid()
      modifies this
      ensures Valid() && Controls() == old(Controls()) && alerts == old(alerts)
      ensures view == if ok then old(view).(playerShowsPause := true, topShowsPause := true,
                                            trackShowsPause := ShowsPause(|tracks|, currentTrackIndex, true))
                      else old(view)
    {
      if ok {
        UpdatePlayPauseButtons(true);
      }
    }

    /** `playNextTrack` (also reached from `handleTrackEnd`, see `OnEnded`): nothing on an empty list. */
    method PlayNextTrack()
      requires Valid()
      modifies this, currentAudio
      ensures Valid() && alerts == old(alerts)
      ensures if |old(tracks)| == 0 then Unchanged() else Selected(NextIndex(old(currentTrackIndex), |old(tracks)|), old(currentAudio))
    {
      if |tracks| == 0 {
        return;
      }
      var nextIndex := NextIndex(currentTrackIndex, |tracks|);
      PlayTrackByIndex(nextIndex);
    }

    /** `playPreviousTrack`: nothing on an empty list. */
    method PlayPreviousTrack()
      requires Valid()
      modifies this, currentAudio
      ensures Valid() && alerts == old(alerts)
      ensures if |old(tracks)| == 0 then Unchanged() else Selected(PrevIndex(old(currentTrackIndex), |old(tracks)|), old(currentAudio))
    {
      if |tracks| == 0 {
        return;
      }
      var prevIndex := PrevIndex(currentTrackIndex, |tracks|);
      PlayTrackByIndex(prevIndex);
    }

    /** `togglePlayPause`: flip the current handle, or start the first track when there is none. */
    method TogglePlayPause()
      requires Valid()
      modifies this, currentAudio
      ensures Valid() && alerts == old(alerts)
      ensures old(currentAudio) != null ==> Toggled()
      ensures old(currentAudio) == null ==> if 0 < |old(tracks)| then Selected(0, old(currentAudio)) else Unchanged()
    {
      if currentAudio != null {
        FlipPaused();
      } else if 0 < |tracks| {
        PlayTrackByIndex(0);
      }
    }

    /** The top play button: start the first track when nothing is selected, else toggle. */
    method OnTopPlayClick()
      requires Valid()
      modifies this, currentAudio
      ensures Valid() && alerts == old(alerts)
      ensures old(currentTrackIndex).None? ==> if 0 < |old(tracks)| then Selected(0, old(currentAudio)) else Unchanged()
      ensures old(currentTrackIndex).Some? && old(currentAudio) != null ==> Toggled()
      ensures old(currentTrackIndex).Some? && old(currentAudio) == null ==> Selected(0, old(currentAudio))
    {
      if currentTrackIndex.None? {
        if 0 < |tracks| {
          PlayTrackByIndex(0);
        }
      } else {
        TogglePlayPause();
      }
    }

    /** A click on a track's play icon: the track is looked up by its id. */
    method OnTrackIconClick(trackId: string)
      requires Valid()
      modifies this, currentAudio
      ensures Valid() && alerts == old(alerts)
      ensures var i := FindIndex(old(tracks), trackId);
              if i.None? then Unchanged() else Selected(i.value, old(currentAudio))
    {
      var index := FindIndex(tracks, trackId);
      if index.Some? {
        PlayTrackByIndex(index.value);
      }
    }

    /** `handleAudioError` (the `error` listener): alert and skip, when a track is selected. */
    method HandleAudioError()
      requires Valid()
      modifies this, currentAudio
      ensures Valid()
      ensures old(currentTrackIndex).None? ==> Unchanged() && alerts == old(alerts)
      ensures old(currentTrackIndex).Some? ==>
                && alerts == old(alerts) + 1
                && Selected(NextIndex(old(currentTrackIndex), |old(tracks)|), old(currentAudio))
    {
      if currentTrackIndex.Some? {
        // the alert and the skip touch disjoint state; the alert is counted after the skip
        PlayNextTrack();
        alerts := alerts + 1;
      }
    }

    /**
     * The handle reaches its end: the browser pauses it and fires `ended`,
     * whose listener is `handleTrackEnd`, that is `playNextTrack`. On a
     * one-track list the next index is the current one, so the same handle
     * is resumed and the track repeats.
     */
    method OnEnded()
      requires Valid() && currentAudio != null
      modifies this, currentAudio
      ensures Valid() && alerts == old(alerts)
      ensures |old(tracks)| == 0 ==>
                && Controls() == old(Controls()) && view == old(view)
                && currentAudio.State() == old(currentAudio.State()).(paused := true)
      ensures 0 < |old(tracks)| && old(currentTrackIndex) == Some(NextIndex(old(currentTrackIndex), |old(tracks)|)) ==>
                && Controls() == old(Controls()) && view == old(view)
                && currentAudio.State() == old(currentAudio.State()).(paused := false)
      ensures 0 < |old(tracks)| && old(currentTrackIndex) != Some(NextIndex(old(currentTrackIndex), |old(tracks)|)) ==>
                Started(NextIndex(old(currentTrackIndex), |old(tracks)|), old(currentAudio))
    {
      currentAudio.paused := true;
      PlayNextTrack();
    }

    /** The handle learns its duration (`d` whole seconds) and fires `loadedmetadata`: `updateDuration`. */
    method OnLoadedMetadata(d: nat)
      requires Valid() && currentAudio != null
      modifies this, currentAudio
      ensures Valid() && Controls() == old(Controls()) && alerts == old(alerts)
      ensures currentAudio.State() == old(currentAudio.State()).(duration := d)
      ensures view == if 0 < d then old(view).(totalTimeText := FormatTime(d)) else old(view)
    {
      currentAudio.duration := d;
      UpdateDuration();
    }

    /** Playback reaches second `t` and the handle fires `timeupdate`: `updateProgressBar`. */
    method OnTimeUpdate(t: nat)
      requires Valid() && currentAudio != null
      modifies this, currentAudio
      ensures Valid() && Controls() == old(Controls()) && alerts == old(alerts)
      ensures currentAudio.State() == old(currentAudio.State()).(currentTime := t)
      ensures view == if !isDragging && 0 < currentAudio.duration
                      then old(view).(progress := ProgressPercent(t, currentAudio.duration),
                                      currentTimeText := FormatTime(t))
                      else old(view)
    {
      currentAudio.currentTime := t;
      UpdateProgressBar();
    }

    // -------------------------------------------------------------------
    // Volume and seeking

    /** `toggleMute`: nothing without a handle; otherwise the mixer toggles and the handle follows. */
    method ToggleMute()
      requires Valid()
      modifies this, currentAudio
      ensures Valid() && alerts == old(alerts) && currentAudio == old(currentAudio)
      ensures old(currentAudio) == null ==> Unchanged()
      ensures old(currentAudio) != null ==>
                && Controls() == old(Controls()).(mixer := PlayerLogic.ToggleMute(old(mixer)))
                && currentAudio.State() == old(currentAudio.State()).(volume := mixer.currentVolume)
                && view == old(view).(volumeSlider := mixer.currentVolume,
                                      speaker := IconTier(mixer.currentVolume, mixer.isMuted))
    {
      if currentAudio != null {
        var muted := !mixer.isMuted;
        mixer := mixer.(isMuted := muted);
        if muted {
          mixer := mixer.(previousVolume := mixer.currentVolume, currentVolume := 0);
          view := view.(volumeSlider := 0);
          currentAudio.volume := 0;
          UpdateVolumeIcon();
        } else {
          mixer := mixer.(currentVolume := mixer.previousVolume);
          view := view.(volumeSlider := mixer.previousVolume);
          currentAudio.volume := mixer.currentVolume;
          UpdateVolumeIcon();
        }
      }
    }

    /** The volume slider's input: the mute flag is left as it is. */
    method OnVolumeInput(value: nat)
      requires Valid() && value <= 100
      modifies this, currentAudio
      ensures Valid() && alerts == old(alerts) && currentAudio == old(currentAudio)
      ensures Controls() == old(Controls()).(mixer := SetVolume(old(mixer), value))
      ensures currentAudio != null ==> currentAudio.State() == old(currentAudio.State()).(volume := value)
      ensures view == old(view).(volumeSlider := value, speaker := IconTier(value, mixer.isMuted))
    {
      mixer := mixer.(currentVolume := value);
      view := view.(volumeSlider := value);
      if currentAudio != null {
        currentAudio.volume := mixer.currentVolume;
      }
      UpdateVolumeIcon();
    }

    /** The seek slider's input: dragging starts, and with a known duration the handle jumps. */
    method OnSeekInput(value: nat)
      requires Valid() && value <= 100
      modifies this, currentAudio
      ensures Valid() && alerts == old(alerts) && currentAudio == old(currentAudio)
      ensures Controls() == old(Controls()).(isDragging := true)
      ensures old(currentAudio) != null && 0 < old(currentAudio.duration) ==>
                var t := SeekTarget(value, currentAudio.duration);
                && currentAudio.State() == old(currentAudio.State()).(currentTime := t)
                && view == old(view).(progress := value, currentTimeText := FormatTime(t))
      ensures !(old(currentAudio) != null && 0 < old(currentAudio.duration)) ==>
                && view == old(view).(progress := value)
                && (currentAudio != null ==> currentAudio.State() == old(currentAudio.State()))
    {
      view := view.(progress := value);       // the slider itself moved
      isDragging := true;
      if currentAudio != null && 0 < currentAudio.duration {
        var newTime := SeekTarget(value, currentAudio.duration);
        currentAudio.currentTime := newTime;
        view := view.(currentTimeText := FormatTime(newTime));
      }
    }

    /** The seek slider's change: dragging ends. */
    method OnSeekChange()
      requires Valid()
      modifies this
      ensures Valid() && alerts == old(alerts) && view == old(view)
      ensures Controls() == old(Controls()).(isDragging := false)
    {
      isDragging := false;
    }

    // -------------------------------------------------------------------
    // The track list

    /** `setDefaultTrack`: select the first track without creating a handle or playing. */
    method SetDefaultTrack()
      requires Valid()
      modifies this
      ensures Valid() && alerts == old(alerts)
      ensures old(currentTrackIndex).Some? ==> Controls() == old(Controls()) && view == old(view)
      ensures old(currentTrackIndex).None? && 0 < |tracks| ==>
                && Controls() == old(Controls()).(currentTrackIndex := Some(0))
                && view == old(view).(titleActive := Highlight(|tracks|, Some(0)),
                                      trackShowsPause := Highlight(|tracks|, Some(0)),
                                      nowPlaying := tracks[0].title)
      ensures old(currentTrackIndex).None? && |tracks| == 0 ==>
                Controls() == old(Controls()) && view == old(view).(nowPlaying := NoTracksTitle)
    {
      if currentTrackIndex.Some? {
        return;
      }
      if 0 < |tracks| {
        currentTrackIndex := Some(0);
        UpdateActiveTrack();
        UpdatePlayerUI(tracks[0]);
      } else {
        view := view.(nowPlaying := NoTracksTitle);
      }
    }

    /**
     * `loadTracks(setDefault)` once the fetch has settled: `None` is a failed
     * fetch (alert, nothing else changes). Otherwise the list is replaced and
     * re-rendered, the selection is re-resolved by id (or, on the first
     * load, defaulted to the first track), and the audio handle is left alone.
     */
    method LoadTracks(setDefault: bool, fetched: Option<seq<Track>>)
      requires Valid()
      requires setDefault ==> currentTrackIndex.None?
      modifies this
      ensures Valid()
      ensures fetched.None? ==> Controls() == old(Controls()) && view == old(view) && alerts == old(alerts) + 1
      ensures fetched.Some? ==>
                var index := ResolveAfterReload(old(tracks), old(currentTrackIndex), fetched.value, setDefault);
                && alerts == old(alerts)
                && Controls() == old(Controls()).(tracks := fetched.value, currentTrackIndex := index)
                && view == old(view).(titleActive := Highlight(|tracks|, index),
                                      trackShowsPause := Highlight(|tracks|, index),
                                      nowPlaying := if index.Some? then tracks[index.value].title
                                                    else old(view.nowPlaying))
    {
      var currentTrackId: Option<string> := None;
      if currentTrackIndex.Some? && currentTrackIndex.value < |tracks| {
        currentTrackId := Some(tracks[currentTrackIndex.value].id);
      }
      if fetched.None? {
        alerts := alerts + 1;
        return;
      }
      ReplaceTracks(fetched.value, if setDefault then None else currentTrackId);
      if setDefault && currentTrackIndex.None? && 0 < |tracks| {
        SetDefaultTrack();
      }
    }

    /**
     * The successful part of `loadTracks`: the list is replaced and every row
     * rendered unselected; a remembered id is looked up in the new list and
     * re-selected, or the selection is dropped.
     */
    method ReplaceTracks(newTracks: seq<Track>, savedId: Option<string>)
      requires Valid()
      requires savedId.None? ==> currentTrackIndex.None?
      modifies this
      ensures Valid() && alerts == old(alerts)
      ensures var index := if savedId.Some? then FindIndex(newTracks, savedId.value) else None;
              && Controls() == old(Controls()).(tracks := newTracks, currentTrackIndex := index)
              && view == old(view).(titleActive := Highlight(|tracks|, index),
                                    trackShowsPause := Highlight(|tracks|, index),
                                    nowPlaying := if index.Some? then tracks[index.value].title
                                                  else old(view.nowPlaying))
    {
      tracks := newTracks;
      // every rendered row starts with a play icon and an inactive title
      view := view.(titleActive := Highlight(|tracks|, None), trackShowsPause := Highlight(|tracks|, None));
      if savedId.Some? {
        var newIndex := FindIndex(tracks, savedId.value);
        if newIndex.Some? {
          currentTrackIndex := newIndex;
          UpdateActiveTrack();
          UpdatePlayerUI(tracks[newIndex.value]);
        } else {
          currentTrackIndex := None;
        }
      }
    }
  }
}
