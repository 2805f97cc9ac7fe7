/**
 * The pure decisions both player scripts make around their mutable state:
 * the speaker-icon tier, the mute/volume bookkeeping, wrap-around next and
 * previous, the per-track highlight projections, the seek and progress
 * arithmetic, and the re-resolution of the selected track after a reload.
 *
 * Volumes are integer percents (the slider's value; the scripts divide it
 * by 100) and times are whole seconds.
 */
module PlayerLogic {
  import opened Wrappers
  import opened Tracks

  // ---------------------------------------------------------------------
  // Speaker icon

  /** The four speaker icons: fa-volume-mute, -low, -up and -high. */
  datatype Tier = Mute | Low | Up | High

  /**
   * The live player's choice: muted when the volume is 0 or the mute flag is
   * set, otherwise by the bands (0, 0.33], (0.33, 0.66] and above, compared
   * on the fraction volume / 100 as the script does.
   */
  function IconTier(volume: nat, isMuted: bool): (t: Tier)
    ensures t == Mute <==> volume == 0 || isMuted
    ensures t == Low <==> !isMuted && 0.0 < volume as real / 100.0 <= 0.33
    ensures t == Up <==> !isMuted && 0.33 < volume as real / 100.0 <= 0.66
    ensures t == High <==> !isMuted && 0.66 < volume as real / 100.0
  {
    if volume == 0 || isMuted then Mute
    else if volume <= 33 then Low
    else if volume <= 66 then Up
    else High
  }

  function Rank(t: Tier): nat
  {
    match t
    case Mute => 0
    case Low => 1
    case Up => 2
    case High => 3
  }

  /** Unmuted, a louder volume never shows a quieter icon. */
  lemma IconTierMonotone(v1: nat, v2: nat)
    requires v1 <= v2
    ensures Rank(IconTier(v1, false)) <= Rank(IconTier(v2, false))
  {
  }

  // ---------------------------------------------------------------------
  // Mute and volume bookkeeping

  /** `currentVolume`, `previousVolume` and `isMuted`, in percent. */
  datatype Mixer = Mixer(currentVolume: nat, previousVolume: nat, isMuted: bool)

  /** Both scripts start at 50% and unmuted. */
  const InitialMixer := Mixer(50, 50, false)

  /** Both volumes are slider positions. */
  predicate InRange(m: Mixer)
  {
    m.currentVolume <= 100 && m.previousVolume <= 100
  }

  /**
   * `toggleMute` with an audio present: flip the flag; muting remembers the
   * volume and drops it to 0, unmuting restores the remembered volume.
   */
  function ToggleMute(m: Mixer): (r: Mixer)
    ensures r.isMuted == !m.isMuted
    ensures r.isMuted ==> r.currentVolume == 0 && r.previousVolume == m.currentVolume
    ensures !r.isMuted ==> r.currentVolume == m.previousVolume && r.previousVolume == m.previousVolume
  {
    var muted := !m.isMuted;
    if muted then m.(isMuted := muted, previousVolume := m.currentVolume, currentVolume := 0)
    else m.(isMuted := muted, currentVolume := m.previousVolume)
  }

  /** The volume slider's input handler: it sets the volume and leaves the mute flag alone. */
  function SetVolume(m: Mixer, volume: nat): (r: Mixer)
    ensures r.currentVolume == volume && r.previousVolume == m.previousVolume && r.isMuted == m.isMuted
  {
    m.(currentVolume := volume)
  }

  /** The state muting produces: while muted, the volume is 0. */
  predicate SilentWhenMuted(m: Mixer)
  {
    m.isMuted ==> m.currentVolume == 0
  }

  lemma ToggleMuteKeepsRange(m: Mixer)
    requires InRange(m)
    ensures InRange(ToggleMute(m)) && SilentWhenMuted(ToggleMute(m))
  {
  }

  /** Muting then unmuting (or the reverse, from a silent muted state) restores the volume and the flag. */
  lemma ToggleMuteTwice(m: Mixer)
    requires SilentWhenMuted(m)
    ensures ToggleMute(ToggleMute(m)).currentVolume == m.currentVolume
    ensures ToggleMute(ToggleMute(m)).isMuted == m.isMuted
    ensures !m.isMuted ==> ToggleMute(ToggleMute(m)).previousVolume == m.currentVolume
  {
  }

  /**
   * Moving the slider while muted keeps the flag, so the next two toggles
   * unmute to the volume remembered before muting and then mute again: the
   * slider position is lost.
   */
  lemma SliderWhileMutedIsLost(m: Mixer, volume: nat)
    requires m.isMuted && 0 < volume
    ensures SetVolume(m, volume).isMuted
    ensures !SilentWhenMuted(SetVolume(m, volume))
    ensures ToggleMute(SetVolume(m, volume)).currentVolume == m.previousVolume
    ensures ToggleMute(ToggleMute(SetVolume(m, volume))).currentVolume == 0
  {
  }

  // ---------------------------------------------------------------------
  // Next and previous

  /** The number JavaScript uses for the index in `i + 1` and `i - 1`: `null` counts as 0. */
  function Position(current: Option<nat>): nat
  {
    match current
    case None => 0
    case Some(i) => i
  }

  /** `(currentTrackIndex + 1) % tracks.length`. */
  function NextIndex(current: Option<nat>, n: nat): (r: nat)
    requires 0 < n
    ensures r < n
  {
    (Position(current) + 1) % n
  }

  /** `(currentTrackIndex - 1 + tracks.length) % tracks.length`. */
  function PrevIndex(current: Option<nat>, n: nat): (r: nat)
    requires 0 < n
    ensures r < n
  {
    (Position(current) - 1 + n) % n
  }

  lemma NextThenPrevious(i: nat, n: nat)
    requires i < n
    ensures PrevIndex(Some(NextIndex(Some(i), n)), n) == i
  {
    if i + 1 < n {
      ModUnique(i + 1, n, 0, i + 1);
      ModUnique(i + n, n, 1, i);
    } else {
      ModUnique(i + 1, n, 1, 0);
      ModUnique(n - 1, n, 0, n - 1);
    }
  }

  lemma PreviousThenNext(i: nat, n: nat)
    requires i < n
    ensures NextIndex(Some(PrevIndex(Some(i), n)), n) == i
  {
    if 0 < i {
      ModUnique(i - 1 + n, n, 1, i - 1);
      ModUnique(i, n, 0, i);
    } else {
      ModUnique(n - 1, n, 0, n - 1);
      ModUnique(n, n, 1, 0);
    }
  }

  /** Starting from `None`, next selects the second track and previous the last one. */
  lemma NextPreviousFromNothing(n: nat)
    requires 0 < n
    ensures NextIndex(None, n) == if n == 1 then 0 else 1
    ensures PrevIndex(None, n) == n - 1
  {
  }

  /** The index after `k` presses of next, starting at `i`. */
  function Advance(i: nat, n: nat, k: nat): nat
    requires 0 < n
  {
    if k == 0 then i else NextIndex(Some(Advance(i, n, k - 1)), n)
  }

  lemma {:induction false} AdvanceIsAddition(i: nat, n: nat, k: nat)
    requires i < n
    ensures Advance(i, n, k) == (i + k) % n
  {
    if k == 0 {
      ModUnique(i, n, 0, i);
    } else {
      AdvanceIsAddition(i, n, k - 1);
      ModSucc(i + k - 1, n);
    }
  }

  /** One more step after a remainder is the remainder of one more. */
  lemma ModSucc(x: nat, n: nat)
    requires 0 < n
    ensures (x % n + 1) % n == (x + 1) % n
  {
    var a, q := x % n, x / n;
    if a + 1 < n {
      ModUnique(a + 1, n, 0, a + 1);
      ModUnique(x + 1, n, q, a + 1);
    } else {
      ModUnique(a + 1, n, 1, 0);
      ModUnique(x + 1, n, q + 1, 0);
    }
  }

  /** Pressing next once per track comes back to the starting track. */
  lemma NextCycles(i: nat, n: nat)
    requires i < n
    ensures Advance(i, n, n) == i
  {
    AdvanceIsAddition(i, n, n);
    ModUnique(i + n, n, 1, i);
  }

  lemma MulAtLeast(k: int, n: int)
    requires 1 <= k && 0 < n
    ensures n <= k * n
  {
  }

  /** Euclidean division has one quotient and one remainder. */
  lemma ModUnique(a: int, n: int, q: int, r: int)
    requires 0 <= r < n && a == q * n + r
    ensures a % n == r
  {
    var q', r' := a / n, a % n;
    assert (q - q') * n == r' - r;
    if q > q' {
      MulAtLeast(q - q', n);
    } else if q < q' {
      MulAtLeast(q' - q, n);
    }
  }

  // ---------------------------------------------------------------------
  // Highlighting in the track list

  /** One flag per rendered track: set exactly at `index`. */
  function Highlight(n: nat, index: Option<nat>): (r: seq<bool>)
    ensures |r| == n
    ensures forall k :: 0 <= k < n ==> (r[k] <==> index == Some(k))
  {
    if n == 0 then [] else Highlight(n - 1, index) + [index == Some(n - 1)]
  }

  /** Per-track pause icons after `updatePlayPauseButtons(isPlaying)`. */
  function ShowsPause(n: nat, index: Option<nat>, isPlaying: bool): (r: seq<bool>)
    ensures |r| == n
    ensures forall k :: 0 <= k < n ==> (r[k] <==> isPlaying && index == Some(k))
  {
    Highlight(n, if isPlaying then index else None)
  }

  function CountTrue(s: seq<bool>): nat
  {
    if s == [] then 0 else CountTrue(s[..|s| - 1]) + (if s[|s| - 1] then 1 else 0)
  }

  /** Exactly one track is highlighted when the index is in range, none otherwise. */
  lemma {:induction false} HighlightCount(n: nat, index: Option<nat>)
    ensures CountTrue(Highlight(n, index)) == if index.Some? && index.value < n then 1 else 0
  {
    var h := Highlight(n, index);
    if n == 0 {
      assert h == [];
    } else {
      HighlightCount(n - 1, index);
      assert h == Highlight(n - 1, index) + [index == Some(n - 1)];
      assert h[..n - 1] == Highlight(n - 1, index);
      var last := if index == Some(n - 1) then 1 else 0;
      assert CountTrue(h) == CountTrue(Highlight(n - 1, index)) + last;
      if index.Some? && index.value < n - 1 {
        assert CountTrue(h) == 1;
      } else if index == Some(n - 1) {
        assert CountTrue(h) == 1;
      } else {
        assert CountTrue(h) == 0;
      }
    }
  }

  /** At most one track shows a pause icon, and one does exactly when playing a listed track. */
  lemma PauseShownAtMostOnce(n: nat, index: Option<nat>, isPlaying: bool)
    ensures CountTrue(ShowsPause(n, index, isPlaying)) <= 1
    ensures CountTrue(ShowsPause(n, index, isPlaying)) == 1 <==> isPlaying && index.Some? && index.value < n
  {
    HighlightCount(n, if isPlaying then index else None);
  }

  // ---------------------------------------------------------------------
  // Seeking and progress

  /** The seek slider's `value / 100 * duration`, in whole seconds. */
  function SeekTarget(value: nat, duration: nat): (t: nat)
    requires value <= 100
    ensures t <= duration
    ensures 100 * t <= value * duration < 100 * (t + 1)
  {
    assert value * duration <= 100 * duration by {
      MulMonotone(value, 100, duration);
    }
    value * duration / 100
  }

  /** `currentTime / duration * 100`, the progress slider's value, in whole percent. */
  function ProgressPercent(time: nat, duration: nat): (p: nat)
    requires 0 < duration
    ensures time <= duration ==> p <= 100
    ensures p * duration <= time * 100 < (p + 1) * duration
  {
    assert time <= duration ==> time * 100 <= duration * 100 by {
      if time <= duration { MulMonotone(time, duration, 100); }
    }
    time * 100 / duration
  }

  lemma MulMonotone(a: nat, b: nat, c: nat)
    requires a <= b
    ensures a * c <= b * c
  {
  }

  /** A time update right after a seek shows the progress at or just below the dragged value. */
  lemma SeekThenProgress(value: nat, duration: nat)
    requires value <= 100 && 0 < duration
    ensures ProgressPercent(SeekTarget(value, duration), duration) <= value
  {
    var t := SeekTarget(value, duration);
    var p := ProgressPercent(t, duration);
    assert p * duration <= t * 100 <= value * duration;
    if p > value {
      MulMonotone(value + 1, p, duration);
      assert false;
    }
  }

  // ---------------------------------------------------------------------
  // Reloading the list

  /** The `_id` remembered before fetching: that of the selected track, if any. */
  function SavedId(tracks: seq<Track>, index: Option<nat>): (r: Option<string>)
    ensures r.Some? <==> index.Some? && index.value < |tracks|
    ensures r.Some? ==> r.value == tracks[index.value].id
  {
    if index.Some? && index.value < |tracks| then Some(tracks[index.value].id) else None
  }

  /**
   * The selected index after `loadTracks(setDefault)` receives `newTracks`:
   * without `setDefault` the remembered id is looked up again (and the
   * selection is dropped when it is gone); with it, an empty selection
   * becomes the first track when there is one.
   */
  function ResolveAfterReload(oldTracks: seq<Track>, oldIndex: Option<nat>, newTracks: seq<Track>, setDefault: bool): Option<nat>
  {
    var saved := SavedId(oldTracks, oldIndex);
    var matched := if !setDefault && saved.Some? then FindIndex(newTracks, saved.value) else oldIndex;
    if setDefault && matched.None? && 0 < |newTracks| then Some(0) else matched
  }

  /** The selection follows the track's identity, not its position. */
  lemma ReloadKeepsSelectedTrack(oldTracks: seq<Track>, i: nat, newTracks: seq<Track>)
    requires i < |oldTracks|
    requires exists j :: 0 <= j < |newTracks| && newTracks[j].id == oldTracks[i].id
    ensures var r := ResolveAfterReload(oldTracks, Some(i), newTracks, false);
            && r.Some? && r.value < |newTracks| && newTracks[r.value].id == oldTracks[i].id
            && forall j :: 0 <= j < r.value ==> newTracks[j].id != oldTracks[i].id
  {
  }

  /** A selected track missing from the new list leaves nothing selected. */
  lemma ReloadDropsMissingTrack(oldTracks: seq<Track>, i: nat, newTracks: seq<Track>)
    requires i < |oldTracks|
    requires forall j :: 0 <= j < |newTracks| ==> newTracks[j].id != oldTracks[i].id
    ensures ResolveAfterReload(oldTracks, Some(i), newTracks, false) == None
  {
  }

  /** The first load selects the first track exactly when the list is not empty. */
  lemma ReloadDefaultSelection(oldTracks: seq<Track>, newTracks: seq<Track>)
    ensures ResolveAfterReload(oldTracks, None, newTracks, true) == if 0 < |newTracks| then Some(0) else None
    ensures ResolveAfterReload(oldTracks, None, newTracks, false) == None
  {
  }

  /** A valid selection stays valid against the new list. */
  lemma ReloadInRange(oldTracks: seq<Track>, oldIndex: Option<nat>, newTracks: seq<Track>, setDefault: bool)
    requires oldIndex.Some? ==> oldIndex.value < |oldTracks|
    requires setDefault ==> oldIndex.None?
    ensures var r := ResolveAfterReload(oldTracks, oldIndex, newTracks, setDefault);
            r.Some? ==> r.value < |newTracks|
  {
  }
}
