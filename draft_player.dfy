/**
 * The earlier player draft: the track list is the fixed set of `.track`
 * elements already on the page, and the controller keeps its state in
 * module-level variables. Unlike the live player it has no empty-list
 * guard, resumes without waiting for play()'s promise, attaches three
 * listeners (no error listener) and picks the speaker icon from the volume
 * alone.
 *
 * JavaScript arithmetic on the index is kept exact: `null` counts as 0,
 * and `x % 0` is NaN, which equals nothing, not even itself. A
 * `trackList[index]` that is undefined throws a TypeError, which a method
 * reports as its `thrown` result.
 */
module DraftPlayer {
  import opened Wrappers
  import opened TimeFormat
  import opened PlayerLogic
  import opened Media

  /** The draft's index variable: `null`, a number, or NaN. */
  datatype JsIndex = Null | Num(n: nat) | NaN

  /** A `.track` element: the `data-src` of its play icon, its title and its image. */
  datatype TrackElement = TrackElement(src: string, title: string, image: string)

  /** `a === b` on indices: NaN is equal to nothing. */
  predicate StrictEquals(a: JsIndex, b: JsIndex)
  {
    a == b && !a.NaN?
  }

  /** The list position an index names, if any (the draft's `index === currentTrackIndex` test). */
  function AsPosition(i: JsIndex): Option<nat>
  {
    if i.Num? then Some(i.n) else None
  }

  /** The number `i + 1` and `i - 1` start from; `null` counts as 0. */
  function JsPosition(i: JsIndex): nat
    requires !i.NaN?
  {
    if i.Num? then i.n else 0
  }

  /** `(currentTrackIndex + 1) % trackList.length`, with no guard for an empty list. */
  function DraftNextIndex(current: JsIndex, n: nat): (r: JsIndex)
    ensures r.NaN? <==> n == 0 || current.NaN?
    ensures r.Null? == false
    ensures r.Num? ==> r.n < n
  {
    if n == 0 || current.NaN? then NaN else Num((JsPosition(current) + 1) % n)
  }

  /** `(currentTrackIndex - 1 + trackList.length) % trackList.length`. */
  function DraftPrevIndex(current: JsIndex, n: nat): (r: JsIndex)
    ensures r.NaN? <==> n == 0 || current.NaN?
    ensures r.Null? == false
    ensures r.Num? ==> r.n < n
  {
    if n == 0 || current.NaN? then NaN else Num((JsPosition(current) - 1 + n) % n)
  }

  /** On a non-empty list and a number or `null`, the draft steps exactly as the live player. */
  lemma DraftStepsAgree(current: JsIndex, n: nat)
    requires 0 < n && !current.NaN?
    ensures DraftNextIndex(current, n) == Num(NextIndex(AsPosition(current), n))
    ensures DraftPrevIndex(current, n) == Num(PrevIndex(AsPosition(current), n))
  {
  }

  /** Previous undoes next on every position of a non-empty list. */
  lemma DraftNextThenPrevious(i: nat, n: nat)
    requires i < n
    ensures DraftPrevIndex(DraftNextIndex(Num(i), n), n) == Num(i)
    ensures DraftNextIndex(DraftPrevIndex(Num(i), n), n) == Num(i)
  {
    DraftStepsAgree(Num(i), n);
    DraftStepsAgree(Num(NextIndex(Some(i), n)), n);
    DraftStepsAgree(Num(PrevIndex(Some(i), n)), n);
    NextThenPrevious(i, n);
    PreviousThenNext(i, n);
  }

  /** On an empty list every step is NaN, and once NaN the index stays NaN. */
  lemma DraftNaNAbsorbs(current: JsIndex, n: nat)
    ensures DraftNextIndex(current, 0) == NaN && DraftPrevIndex(current, 0) == NaN
    ensures DraftNextIndex(NaN, n) == NaN && DraftPrevIndex(NaN, n) == NaN
    ensures !StrictEquals(NaN, NaN)
  {
  }

  /** The draft's `updateVolumeIcon`: bands on the volume alone, the mute flag unread. */
  function DraftIconTier(volume: nat): (t: Tier)
    ensures t == IconTier(volume, false)
  {
    if volume == 0 then Mute
    else if volume as real / 100.0 <= 0.33 then Low
    else if volume as real / 100.0 <= 0.66 then Up
    else High
  }

  /** With the mute flag set and a non-zero volume, the draft shows a volume icon where the live player shows mute. */
  lemma DraftIconIgnoresMute(volume: nat)
    requires 0 < volume
    ensures DraftIconTier(volume) != Mute
    ensures IconTier(volume, true) == Mute
  {
  }

  /** The three listeners the draft attaches to a handle. */
  const DraftListeners: set<AudioEvent> := {TimeUpdate, LoadedMetadata, Ended}

  /** What the draft writes on the page. */
  datatype DraftView = DraftView(
    trackShowsPause: seq<bool>,
    titleActive: seq<bool>,
    playerShowsPause: bool,
    topShowsPause: bool,
    progress: nat,
    currentTimeText: string,
    totalTimeText: string,
    volumeSlider: nat,
    speaker: Tier,
    nowPlaying: string,
    image: string)

  /** The draft's variables, for saying which of them an operation changes. */
  datatype DraftController = DraftController(
    currentTrackIndex: JsIndex, currentAudio: AudioElement?, mixer: Mixer, isDragging: bool, created: nat)

  class Draft {
    const trackList: seq<TrackElement>
    var currentAudio: AudioElement?
    var currentTrackIndex: JsIndex
    var mixer: Mixer
    var isDragging: bool
    var created: nat
    var view: DraftView

    /**
     * One rendered row per track element; the volumes are slider positions;
     * the current handle plays at the current volume and keeps at most the
     * three listeners.
     */
    ghost predicate Valid()
      reads this, currentAudio
    {
      && |view.trackShowsPause| == |trackList|
      && |view.titleActive| == |trackList|
      && InRange(mixer)
      && (currentAudio != null ==>
            && currentAudio.volume == mixer.currentVolume
            && currentAudio.listeners <= DraftListeners
            && 0 < created)
    }

    ghost function Controls(): DraftController
      reads this`currentTrackIndex, this`currentAudio, this`mixer, this`isDragging, this`created
    {
      DraftController(currentTrackIndex, currentAudio, mixer, isDragging, created)
    }

    twostate predicate Unchanged()
      reads this`currentTrackIndex, this`currentAudio, this`mixer, this`isDragging,
            this`created, this`view, currentAudio
    {
      && Controls() == old(Controls())
      && view == old(view)
      && (currentAudio != null ==> currentAudio.State() == old(currentAudio.State()))
    }

    /** The same index was picked again with a handle: it flips, and the buttons follow at once. */
    twostate predicate Toggled()
      reads this`currentTrackIndex, this`currentAudio, this`mixer, this`isDragging,
            this`created, this`view, currentAudio
    {
      && currentAudio != null
      && Controls() == old(Controls())
      && currentAudio.State() == old(currentAudio.State()).(paused := !old(currentAudio.paused))
      && var playing := old(currentAudio.paused);
         view == old(view).(playerShowsPause := playing, topShowsPause := playing,
                            trackShowsPause := ShowsPause(|trackList|, AsPosition(currentTrackIndex), playing))
    }

    /**
     * A different, existing track was started: the previous handle is
     * paused, rewound and unsubscribed; one new handle inherits the volume
     * and mute flag and is playing; the display starts over on the new track.
     */
    twostate predicate Started(k: nat, prev: AudioElement?)
      reads this`currentTrackIndex, this`currentAudio, this`mixer, this`isDragging,
            this`created, this`view, currentAudio, prev
    {
      && k < |trackList|
      && (prev != null ==>
            prev.State() == old(prev.State()).(paused := true, currentTime := 0, listeners := {}))
      && currentAudio != null
      && fresh(currentAudio)
      && currentAudio.src == trackList[k].src
      && currentAudio.State() == AudioState(false, mixer.currentVolume, mixer.isMuted, 0, 0, DraftListeners)
      && Controls() == old(Controls()).(currentTrackIndex := Num(k), currentAudio := currentAudio,
                                        created := old(created) + 1)
      && view == old(view).(progress := 0, currentTimeText := "0:00", totalTimeText := "0:00",
                            nowPlaying := trackList[k].title, image := trackList[k].image,
                            titleActive := Highlight(|trackList|, Some(k)),
                            trackShowsPause := Highlight(|trackList|, Some(k)),
                            playerShowsPause := true, topShowsPause := true)
    }

    /**
     * The index names no track element: the previous handle has already
     * been released and the index assigned when `trackList[index]` throws;
     * the released handle stays current.
     */
    twostate predicate Aborted(index: JsIndex, prev: AudioElement?)
      reads this`currentTrackIndex, this`currentAudio, this`mixer, this`isDragging,
            this`created, this`view, prev
    {
      && currentAudio == prev
      && (prev != null ==>
            prev.State() == old(prev.State()).(paused := true, currentTime := 0, listeners := {}))
      && Controls() == old(Controls()).(currentTrackIndex := index)
      && view == old(view)
    }

    /** `index` names a track element. */
    predicate Names(index: JsIndex)
    {
      index.Num? && index.n < |trackList|
    }

    /** The effect of `playTrackByIndex(index)`, where `prev` is the handle before the call. */
    twostate predicate Selected(index: JsIndex, prev: AudioElement?)
      reads this`currentTrackIndex, this`currentAudio, this`mixer, this`isDragging,
            this`created, this`view, currentAudio, prev
    {
      && prev == old(currentAudio)
      && if StrictEquals(old(currentTrackIndex), index) && prev != null then Toggled()
         else if Names(index) then Started(index.n, prev)
         else Aborted(index, prev)
    }

    /** The script's initial variables over the page's track elements. */
    constructor (trackList: seq<TrackElement>)
      ensures Valid() && this.trackList == trackList
      ensures Controls() == DraftController(Null, null, InitialMixer, false, 0)
      ensures view.titleActive == Highlight(|trackList|, None)
      ensures view.trackShowsPause == Highlight(|trackList|, None)
    {
      this.trackList := trackList;
      currentAudio, currentTrackIndex := null, Null;
      mixer, isDragging, created := InitialMixer, false, 0;
      view := DraftView(Highlight(|trackList|, None), Highlight(|trackList|, None), false, false,
                        0, "0:00", "0:00", 50, IconTier(50, false), "", "");
    }

    // -------------------------------------------------------------------
    // Rendering

    /** `updateVolumeIcon`: the tier of the current volume, whatever the mute flag. */
    method UpdateVolumeIcon()
      modifies this
      ensures Controls() == old(Controls())
      ensures view == old(view).(speaker := DraftIconTier(mixer.currentVolume))
    {
      view := view.(speaker := DraftIconTier(mixer.currentVolume));
    }

    /** `updatePlayPauseButtons(isPlaying)`: only the current index may show pause, and only while playing. */
    method UpdatePlayPauseButtons(isPlaying: bool)
      requires |view.trackShowsPause| == |trackList|
      modifies this
      ensures Controls() == old(Controls())
      ensures view == old(view).(playerShowsPause := isPlaying, topShowsPause := isPlaying,
                                 trackShowsPause := ShowsPause(|trackList|, AsPosition(currentTrackIndex), isPlaying))
    {
      var icons: seq<bool> := [];
      var k := 0;
      while k < |trackList|
        invariant k <= |trackList|
        invariant icons == ShowsPause(k, AsPosition(currentTrackIndex), isPlaying)
      {
        icons := icons + [StrictEquals(Num(k), currentTrackIndex) && isPlaying];
        k := k + 1;
      }
      view := view.(playerShowsPause := isPlaying, trackShowsPause := icons, topShowsPause := isPlaying);
    }

    /**
     * `updateActiveTrack`: every title inactive and every icon reset to play,
     * then the current title marked (the icon is left to the buttons).
     */
    method UpdateActiveTrack()
      requires Names(currentTrackIndex)
      modifies this
      ensures Controls() == old(Controls())
      ensures view == old(view).(titleActive := Highlight(|trackList|, AsPosition(currentTrackIndex)),
                                 trackShowsPause := Highlight(|trackList|, None))
    {
      var titles: seq<bool> := [];
      var k := 0;
      while k < |trackList|
        invariant k <= |trackList|
        invariant titles == Highlight(k, None)
      {
        titles := titles + [false];
        k := k + 1;
      }
      var icons := titles;
      titles := titles[currentTrackIndex.n := true];
      assert titles == Highlight(|trackList|, AsPosition(currentTrackIndex));
      view := view.(titleActive := titles, trackShowsPause := icons);
    }

    /** `updateDuration` (the `loadedmetadata` listener). */
    method UpdateDuration()
      requires currentAudio != null
      modifies this
      ensures Controls() == old(Controls())
      ensures view == old(view).(totalTimeText := FormatTime(currentAudio.duration))
    {
      view := view.(totalTimeText := FormatTime(currentAudio.duration));
    }

    /** `updateProgressBar` (the `timeupdate` listener): suppressed while dragging or with no known duration. */
    method UpdateProgressBar()
      modifies this
      ensures Controls() == old(Controls())
      ensures view == if !isDragging && currentAudio != null && 0 < currentAudio.duration
                      then old(view).(progress := ProgressPercent(currentAudio.currentTime, currentAudio.duration),
                                      currentTimeText := FormatTime(currentAudio.currentTime))
                      else old(view)
    {
      if !isDragging && currentAudio != null && 0 < currentAudio.duration {
        var progress := ProgressPercent(currentAudio.currentTime, currentAudio.duration);
        view := view.(progress := progress, currentTimeText := FormatTime(currentAudio.currentTime));
      }
    }

    // -------------------------------------------------------------------
    // Playback

    /** `playTrackByIndex(index)`; `thrown` when `trackList[index]` is undefined. */
    method PlayTrackByIndex(index: JsIndex) returns (thrown: bool)
      requires Valid()
      modifies this, currentAudio
      ensures Valid()
      ensures Selected(index, old(currentAudio))
      ensures thrown <==> !(StrictEquals(old(currentTrackIndex), index) && old(currentAudio) != null)
                          && !Names(index)
    {
      if StrictEquals(currentTrackIndex, index) && currentAudio != null {
        FlipPaused();
        return false;
      }
      var prev := currentAudio;
      if prev != null {
        Release(prev);
      }
      currentTrackIndex := index;
      if !Names(index) {
        return true;     // `trackList[index].querySelector` on undefined
      }
      StartTrack(index.n);
      thrown := false;
    }

    /** The current handle's play or pause, with the buttons updated at once. */
    method FlipPaused()
      requires Valid() && currentAudio != null
      modifies this, currentAudio
      ensures Valid()
      ensures Toggled()
    {
      if currentAudio.paused {
        currentAudio.paused := false;
        UpdatePlayPauseButtons(true);
      } else {
        currentAudio.paused := true;
        UpdatePlayPauseButtons(false);
      }
    }

    /** The old handle is stopped: paused, rewound, and its three listeners removed. */
    static method Release(audio: AudioElement)
      requires audio.listeners <= DraftListeners
      modifies audio
      ensures audio.State() == old(audio.State()).(paused := true, currentTime := 0, listeners := {})
    {
      audio.paused := true;
      audio.currentTime := 0;
      audio.listeners := audio.listeners - {TimeUpdate, LoadedMetadata, Ended};
    }

    /** The rest of `playTrackByIndex` once the index names track element `k`. */
    method StartTrack(k: nat)
      requires Valid() && currentTrackIndex == Num(k) && k < |trackList|
      modifies this
      ensures Valid()
      ensures currentAudio != null && fresh(currentAudio)
      ensures currentAudio.src == trackList[k].src
      ensures currentAudio.State() == AudioState(false, mixer.currentVolume, mixer.isMuted, 0, 0, DraftListeners)
      ensures Controls() == old(Controls()).(currentAudio := currentAudio, created := old(created) + 1)
      ensures view == old(view).(progress := 0, currentTimeText := "0:00", totalTimeText := "0:00",
                                 nowPlaying := trackList[k].title, image := trackList[k].image,
                                 titleActive := Highlight(|trackList|, Some(k)),
                                 trackShowsPause := Highlight(|trackList|, Some(k)),
                                 playerShowsPause := true, topShowsPause := true)
    {
      var track := trackList[k];
      var audio := new AudioElement(track.src);
      created := created + 1;
      audio.volume := mixer.currentVolume;
      audio.muted := mixer.isMuted;
      currentAudio := audio;
      view := view.(progress := 0, currentTimeText := "0:00", totalTimeText := "0:00");
      audio.paused := false;                 // play(); its promise is not awaited
      view := view.(nowPlaying := track.title, image := track.image);
      UpdateActiveTrack();
      UpdatePlayPauseButtons(true);
      audio.listeners := audio.listeners + {LoadedMetadata, TimeUpdate, Ended};
    }

    /** A click on track element `k`: its position in the list is the index. */
    method OnTrackClick(k: nat) returns (thrown: bool)
      requires Valid() && k < |trackList|
      modifies this, currentAudio
      ensures Valid() && !thrown
      ensures Selected(Num(k), old(currentAudio))
    {
      thrown := PlayTrackByIndex(Num(k));
    }

    /** `playNextTrack` (also reached from `handleTrackEnd`, see `OnEnded`): no guard, so an empty list throws on NaN. */
    method PlayNextTrack() returns (thrown: bool)
      requires Valid()
      modifies this, currentAudio
      ensures Valid()
      ensures var i := DraftNextIndex(old(currentTrackIndex), |trackList|);
              && Selected(i, old(currentAudio))
              && (thrown <==> !(StrictEquals(old(currentTrackIndex), i) && old(currentAudio) != null) && !Names(i))
    {
      var nextIndex := DraftNextIndex(currentTrackIndex, |trackList|);
      thrown := PlayTrackByIndex(nextIndex);
    }

    /** `playPreviousTrack`: no guard either. */
    method PlayPreviousTrack() returns (thrown: bool)
      requires Valid()
      modifies this, currentAudio
      ensures Valid()
      ensures var i := DraftPrevIndex(old(currentTrackIndex), |trackList|);
              && Selected(i, old(currentAudio))
              && (thrown <==> !(StrictEquals(old(currentTrackIndex), i) && old(currentAudio) != null) && !Names(i))
    {
      var prevIndex := DraftPrevIndex(currentTrackIndex, |trackList|);
      thrown := PlayTrackByIndex(prevIndex);
    }

    /**
     * The handle reaches its end: the browser pauses it and fires `ended`,
     * whose listener is `handleTrackEnd`, that is `playNextTrack`. On a
     * one-track list the next index is the current one, so the same handle
     * is resumed and the track repeats.
     */
    method OnEnded() returns (thrown: bool)
      requires Valid() && currentAudio != null && Ended in currentAudio.listeners
      modifies this, currentAudio
      ensures Valid()
      ensures var i := DraftNextIndex(old(currentTrackIndex), |trackList|);
              && (StrictEquals(old(currentTrackIndex), i) ==>
                    && !thrown && Controls() == old(Controls())
                    && currentAudio.State() == old(currentAudio.State()).(paused := false)
                    && view == old(view).(playerShowsPause := true, topShowsPause := true,
                                          trackShowsPause := ShowsPause(|trackList|, AsPosition(currentTrackIndex), true)))
              && (!StrictEquals(old(currentTrackIndex), i) && Names(i) ==>
                    !thrown && Started(i.n, old(currentAudio)))
              && (!StrictEquals(old(currentTrackIndex), i) && !Names(i) ==>
                    thrown && Aborted(i, old(currentAudio)))
    {
      currentAudio.paused := true;
      thrown := PlayNextTrack();
    }

    /** The handle learns its duration (`d` whole seconds) and fires `loadedmetadata`: `updateDuration`. */
    method OnLoadedMetadata(d: nat)
      requires Valid() && currentAudio != null && LoadedMetadata in currentAudio.listeners
      modifies this, currentAudio
      ensures Valid() && Controls() == old(Controls())
      ensures currentAudio.State() == old(currentAudio.State()).(duration := d)
      ensures view == old(view).(totalTimeText := FormatTime(d))
    {
      currentAudio.duration := d;
      UpdateDuration();
    }

    /** Playback reaches second `t` and the handle fires `timeupdate`: `updateProgressBar`. */
    method OnTimeUpdate(t: nat)
      requires Valid() && currentAudio != null && TimeUpdate in currentAudio.listeners
      modifies this, currentAudio
      ensures Valid() && Controls() == old(Controls())
      ensures currentAudio.State() == old(currentAudio.State()).(currentTime := t)
      ensures view == if !isDragging && 0 < currentAudio.duration
                      then old(view).(progress := ProgressPercent(t, currentAudio.duration),
                                      currentTimeText := FormatTime(t))
                      else old(view)
    {
      currentAudio.currentTime := t;
      UpdateProgressBar();
    }

    /** `togglePlayPause`: nothing at all without a handle. */
    method TogglePlayPause()
      requires Valid()
      modifies this, currentAudio
      ensures Valid()
      ensures old(currentAudio) == null ==> Unchanged()
      ensures old(currentAudio) != null ==> Toggled()
    {
      if currentAudio != null {
        FlipPaused();
      }
    }

    /** The top play button: index 0 when the index is `null`, else a toggle. */
    method OnTopPlayClick() returns (thrown: bool)
      requires Valid()
      modifies this, currentAudio
      ensures Valid()
      ensures old(currentTrackIndex).Null? ==> Selected(Num(0), old(currentAudio)) && (thrown <==> |trackList| == 0)
      ensures !old(currentTrackIndex).Null? ==>
                !thrown && if old(currentAudio) == null then Unchanged() else Toggled()
    {
      if currentTrackIndex.Null? {
        thrown := PlayTrackByIndex(Num(0));
      } else {
        TogglePlayPause();
        thrown := false;
      }
    }

    // -------------------------------------------------------------------
    // Volume and seeking

    /** `toggleMute`: nothing without a handle; muting shows the mute icon directly. */
    method ToggleMute()
      requires Valid()
      modifies this, currentAudio
      ensures Valid() && currentAudio == old(currentAudio)
      ensures old(currentAudio) == null ==> Unchanged()
      ensures old(currentAudio) != null ==>
                && Controls() == old(Controls()).(mixer := PlayerLogic.ToggleMute(old(mixer)))
                && currentAudio.State() == old(currentAudio.State()).(volume := mixer.currentVolume)
                && view == old(view).(volumeSlider := mixer.currentVolume,
                                      speaker := if mixer.isMuted then Mute else DraftIconTier(mixer.currentVolume))
    {
      if currentAudio != null {
        var muted := !mixer.isMuted;
        mixer := mixer.(isMuted := muted);
        if muted {
          mixer := mixer.(previousVolume := mixer.currentVolume, currentVolume := 0);
          view := view.(volumeSlider := 0);
          currentAudio.volume := 0;
          view := view.(speaker := Mute);
        } else {
          mixer := mixer.(currentVolume := mixer.previousVolume);
          view := view.(volumeSlider := mixer.previousVolume);
          currentAudio.volume := mixer.currentVolume;
          UpdateVolumeIcon();
        }
      }
    }

    /** The volume slider's input: the mute flag is neither read nor cleared. */
    method OnVolumeInput(value: nat)
      requires Valid() && value <= 100
      modifies this, currentAudio
      ensures Valid() && currentAudio == old(currentAudio)
      ensures Controls() == old(Controls()).(mixer := SetVolume(old(mixer), value))
      ensures currentAudio != null ==> currentAudio.State() == old(currentAudio.State()).(volume := value)
      ensures view == old(view).(volumeSlider := value, speaker := DraftIconTier(value))
    {
      mixer := mixer.(currentVolume := value);
      view := view.(volumeSlider := value);
      if currentAudio != null {
        currentAudio.volume := mixer.currentVolume;
      }
      UpdateVolumeIcon();
    }

    /** The seek slider's input: dragging starts, and with a known duration the handle jumps. */
    method OnSeekInput(value: nat)
      requires Valid() && value <= 100
      modifies this, currentAudio
      ensures Valid() && currentAudio == old(currentAudio)
      ensures Controls() == old(Controls()).(isDragging := true)
      ensures old(currentAudio) != null && 0 < old(currentAudio.duration) ==>
                var t := SeekTarget(value, currentAudio.duration);
                && currentAudio.State() == old(currentAudio.State()).(currentTime := t)
                && view == old(view).(progress := value, currentTimeText := FormatTime(t))
      ensures !(old(currentAudio) != null && 0 < old(currentAudio.duration)) ==>
                && view == old(view).(progress := value)
                && (currentAudio != null ==> currentAudio.State() == old(currentAudio.State()))
    {
      view := view.(progress := value);       // the slider itself moved
      isDragging := true;
      if currentAudio != null && 0 < currentAudio.duration {
        var newTime := SeekTarget(value, currentAudio.duration);
        currentAudio.currentTime := newTime;
        view := view.(currentTimeText := FormatTime(newTime));
      }
    }

    /** The seek slider's change: dragging ends. */
    method OnSeekChange()
      requires Valid()
      modifies this
      ensures Valid() && view == old(view)
      ensures Controls() == old(Controls()).(isDragging := false)
    {
      isDragging := false;
    }
  }
}
