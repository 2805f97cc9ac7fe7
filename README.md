# DaGankPlaylist player and upload core, in Dafny

This project models the playlist player of DaGankPlaylist and the upload route of its server, and proves properties of both.

**The live player** is `public/scripts/script.js`. It is one controller that holds:
- the fetched track list and the selected index;
- the single current audio handle;
- the volume, the volume saved before muting, and the mute flag;
- the seek-drag flag.

Its event handlers become the methods of the class `LivePlayer.Player`. Alongside its own state, the class keeps:
- an abstract view of what it writes on the page: which row shows pause, which title is active, the button icons, the progress slider, the time labels, the volume slider, the speaker tier and the title in the player bar;
- a counter of audio handles created;
- a counter of alerts shown.

The promise returned by `play()` settles in callback methods of its own (`SettleTrackPlay`, `SettleResume`). A fetch of the list is a single `LoadTracks` step whose outcome is a parameter.

**The earlier draft** is `scripts/script.js`, modelled as `DraftPlayer.Draft`. It works over the fixed `.track` elements already on the page. Its index is a JavaScript value, `null`, a number or NaN, because `x % 0` is NaN on an empty list. An undefined `trackList[index]` throws; a method reports that as its `thrown` result. Its `formatTime` is the same function as the live player's.

**Shared pieces:**
- The audio handle (`Media.AudioElement`) is a class, so releasing the old handle in place is visible to whoever still holds it.
- The pure decisions both players make live in `PlayerLogic`: the speaker tier, the mute bookkeeping, next and previous, the per-row highlight, the seek and progress arithmetic, and re-selection after a reload.
- The `M:SS` formatter, with a parser that reads it back, lives in `TimeFormat`.

**The server** is `backend/server.js`, modelled in module `Upload`. It covers:
- the upload middleware's MIME whitelist and size limit;
- the POST `/api/tracks` handler, as a function from the request and the outcomes of the duration probe and the database save to the response status, whether the stored file is deleted, and the record saved.

**Abstractions used throughout:**
- A volume is an integer percent, the slider's value.
- A time is whole seconds.
- A duration of 0 means "not known yet", since `duration` is falsy.
- Progress and seek positions are the floors of the script's real-valued results.

## Model

| member | source | states |
|---|---|---|
| TimeFormat.FormatTime | public/scripts/script.js:88-92 | the result is the minutes `s / 60` in decimal, a colon, then two digits whose value is `s % 60`; the first of the two digits is '0' exactly when the seconds are below 10 |
| TimeFormat.FormatTimeRoundTrip | public/scripts/script.js:88-92 | reading the `M:SS` text back gives the seconds that were formatted |
| TimeFormat.FormatTimeInjective | public/scripts/script.js:88-92 | different second counts never show the same text |
| TimeFormat.FormatTimeExamples | scripts/script.js:166-170 | 65 gives "1:05", 5 gives "0:05", 600 gives "10:00", 0 gives "0:00" |
| TimeFormat.DecimalRoundTrip | public/scripts/script.js:91 | the decimal digits of a number read back to that number |
| TimeFormat.NatToString | public/scripts/script.js:91 | the decimal text of `n` is non-empty and all digits, has one digit exactly when `n < 10`, and has no leading zero |
| Tracks.FindIndex | public/scripts/script.js:444 | `findIndex` by `_id` gives the first position holding that id; it gives none exactly when no track has the id |
| PlayerLogic.IconTier | public/scripts/script.js:95-112 | mute exactly when the volume is 0 or the mute flag is set; otherwise low, up or high by the bands (0, 0.33], (0.33, 0.66] and above, compared on volume/100 |
| PlayerLogic.IconTierMonotone | public/scripts/script.js:95-112 | unmuted, a louder volume never shows a lower tier |
| PlayerLogic.ToggleMute | public/scripts/script.js:115-132 | muting flips the flag, saves the current volume and sets it to 0; unmuting restores the saved volume and keeps it saved (the same updates as scripts/script.js:173-193) |
| PlayerLogic.SetVolume | public/scripts/script.js:497-503 | the slider sets the current volume and leaves the saved volume and the mute flag as they were |
| PlayerLogic.ToggleMuteKeepsRange | public/scripts/script.js:115-132 | toggling mute keeps both volumes within 0..100 and leaves the current volume at 0 whenever muted |
| PlayerLogic.ToggleMuteTwice | public/scripts/script.js:115-132 | muting then unmuting, or the reverse from a silent muted state, restores the current volume and the flag |
| PlayerLogic.SliderWhileMutedIsLost | public/scripts/script.js:497-503 | moving the slider while muted leaves the flag set with a non-zero volume; unmuting then returns to the volume saved before muting, and a second toggle gives volume 0 |
| PlayerLogic.NextIndex | public/scripts/script.js:162-166 | the next index is always a position of the list |
| PlayerLogic.PrevIndex | public/scripts/script.js:169-173 | the previous index is always a position of the list |
| PlayerLogic.NextThenPrevious | public/scripts/script.js:162-173 | previous after next gives back the starting position |
| PlayerLogic.PreviousThenNext | public/scripts/script.js:162-173 | next after previous gives back the starting position |
| PlayerLogic.NextPreviousFromNothing | public/scripts/script.js:164 | with no selection (`null` counts as 0), next picks position 1 (0 on a one-track list) and previous picks the last track |
| PlayerLogic.AdvanceIsAddition | public/scripts/script.js:162-166 | k nexts from position i land on `(i + k) mod n` |
| PlayerLogic.NextCycles | public/scripts/script.js:162-166 | n nexts return to the starting position |
| PlayerLogic.Highlight | public/scripts/script.js:236-256 | one flag per row, set exactly at the selected index |
| PlayerLogic.ShowsPause | public/scripts/script.js:198-233 | a row shows pause exactly when it is the current index and the player is playing |
| PlayerLogic.HighlightCount | public/scripts/script.js:236-256 | exactly one row is active when the index is in range, none otherwise |
| PlayerLogic.PauseShownAtMostOnce | public/scripts/script.js:198-233 | at most one row shows pause, and exactly one when playing with an index in range |
| PlayerLogic.SeekTarget | public/scripts/script.js:481 | the seek target never passes the duration and is the floor of value/100 × duration |
| PlayerLogic.ProgressPercent | public/scripts/script.js:150 | the progress is the floor of time/duration × 100, and at most 100 while the time is within the duration |
| PlayerLogic.SeekThenProgress | public/scripts/script.js:477-488 | the progress shown after seeking to a slider value never exceeds that value |
| PlayerLogic.SavedId | public/scripts/script.js:383-386 | an id is remembered exactly when the index names a track of the list, and it is that track's `_id` |
| PlayerLogic.ResolveAfterReload | public/scripts/script.js:442-459 | no ensures of its own; its properties are stated by ReloadKeepsSelectedTrack, ReloadDropsMissingTrack, ReloadDefaultSelection and ReloadInRange |
| PlayerLogic.ReloadKeepsSelectedTrack | public/scripts/script.js:442-448 | after a reload the selection is a track in the new list with the remembered id, and no earlier track has that id |
| PlayerLogic.ReloadDropsMissingTrack | public/scripts/script.js:449-452 | a remembered id missing from the new list clears the selection |
| PlayerLogic.ReloadDefaultSelection | public/scripts/script.js:455-459 | with nothing selected, the first load selects position 0 of a non-empty list; a later load selects nothing |
| PlayerLogic.ReloadInRange | public/scripts/script.js:380-464 | the re-resolved index is always a position of the new list |
| Media.AudioElement.constructor | public/scripts/script.js:309 | a new handle is paused at time 0, at full volume, unmuted, with no listeners |
| LivePlayer.Player.constructor | public/scripts/script.js:10-16 | nothing selected, no handle, volume 50 with 50 saved, not muted, not dragging, empty list |
| LivePlayer.Player.UpdateVolumeIcon | public/scripts/script.js:95-112 | the speaker shows the tier of the current volume and mute flag; nothing else changes |
| LivePlayer.Player.UpdatePlayPauseButtons | public/scripts/script.js:198-233 | both buttons follow `isPlaying`, and the rows show pause as `ShowsPause` says |
| LivePlayer.Player.UpdateActiveTrack | public/scripts/script.js:236-256 | every row is cleared, then the current row gets an active title and a pause icon |
| LivePlayer.Player.UpdatePlayerUI | public/scripts/script.js:259-273 | the player bar shows the track's title |
| LivePlayer.Player.UpdateDuration | public/scripts/script.js:135-142 | the total time is shown only once the handle knows its duration |
| LivePlayer.Player.UpdateProgressBar | public/scripts/script.js:145-154 | nothing changes while dragging or without a handle or duration; otherwise the progress and time label follow the handle |
| LivePlayer.Player.PlayTrackByIndex | public/scripts/script.js:275-345 | picking the current track while a handle exists only flips that handle's paused flag. Any other pick releases the old handle (paused, rewound, four listeners removed) and creates exactly one new playing handle at the current volume and mute flag. It also sets the index and resets the progress and both labels to "0:00" |
| LivePlayer.Player.FlipPaused | public/scripts/script.js:276-290 | only the handle's paused flag changes; pausing shows the play buttons, resuming waits for the promise |
| LivePlayer.Player.StartTrack | public/scripts/script.js:293-334 | the different-track branch, as in `PlayTrackByIndex` |
| LivePlayer.Player.Release | public/scripts/script.js:294-301 | the old handle is paused and rewound, and its four listeners are removed |
| LivePlayer.Player.ShowNewTrack | public/scripts/script.js:313-326 | progress 0, both labels "0:00", the title shown, the new row highlighted; the controller's variables are untouched |
| LivePlayer.Player.SettleTrackPlay | public/scripts/script.js:336-344 | on success only the buttons change to "playing"; on failure there is one alert and exactly one `playNextTrack` |
| LivePlayer.Player.SettleResume | public/scripts/script.js:279-285 | on success the buttons show "playing"; on failure nothing changes |
| LivePlayer.Player.PlayNextTrack | public/scripts/script.js:162-166 | nothing happens on an empty list; otherwise it is `playTrackByIndex((i + 1) mod n)` |
| LivePlayer.Player.PlayPreviousTrack | public/scripts/script.js:169-173 | nothing happens on an empty list; otherwise it is `playTrackByIndex((i - 1 + n) mod n)` |
| LivePlayer.Player.TogglePlayPause | public/scripts/script.js:176-195 | with a handle it flips it; without one it starts the first track of a non-empty list, and does nothing otherwise |
| LivePlayer.Player.OnTopPlayClick | public/scripts/script.js:522-531 | with nothing selected it starts position 0 of a non-empty list; otherwise it toggles |
| LivePlayer.Player.OnTrackIconClick | public/scripts/script.js:424-431 | the clicked id is looked up; an unknown id changes nothing, a known one is picked |
| LivePlayer.Player.OnEnded | public/scripts/script.js:157-166 | the handle is paused at its end, then `playNextTrack` runs. An empty list leaves the handle paused. A one-track list resumes the same handle, so the track repeats. Otherwise the next track is started |
| LivePlayer.Player.OnLoadedMetadata | public/scripts/script.js:135-142 | the handle's duration is set, and the total time is shown when it is not 0 |
| LivePlayer.Player.OnTimeUpdate | public/scripts/script.js:145-154 | the handle's time is set, and the progress and label follow it unless dragging or without a duration |
| LivePlayer.Player.HandleAudioError | public/scripts/script.js:348-355 | with a selection it raises one alert and plays the next track; without one nothing changes |
| LivePlayer.Player.ToggleMute | public/scripts/script.js:115-132 | nothing happens without a handle; otherwise the volumes and flag toggle as `PlayerLogic.ToggleMute` does, and the handle's volume, the slider and the icon follow |
| LivePlayer.Player.OnVolumeInput | public/scripts/script.js:497-503 | the current volume, the handle's volume and the icon follow the slider; the mute flag is left as it is |
| LivePlayer.Player.OnSeekInput | public/scripts/script.js:478-488 | dragging starts; with a handle of known duration the time jumps to the seek target and the label shows it; otherwise only the slider moves |
| LivePlayer.Player.OnSeekChange | public/scripts/script.js:490-492 | dragging ends and nothing else changes |
| LivePlayer.Player.SetDefaultTrack | public/scripts/script.js:358-377 | with nothing selected and a non-empty list, position 0 is selected without creating a handle; on an empty list the title reads "No tracks available"; with a selection nothing changes |
| LivePlayer.Player.LoadTracks | public/scripts/script.js:380-464 | a failed fetch raises one alert and changes nothing else. Otherwise the list is replaced and the selection re-resolved by `_id`, or defaulted on the first load. The rows are re-rendered around it and the audio handle is untouched |
| LivePlayer.Player.ReplaceTracks | public/scripts/script.js:392-453 | the rows are rendered unselected, then a remembered id is found again and re-highlighted, or the selection is cleared |
| DraftPlayer.DraftNextIndex | scripts/script.js:87-90 | NaN exactly on an empty list or from NaN; otherwise a position of the list |
| DraftPlayer.DraftPrevIndex | scripts/script.js:93-96 | NaN exactly on an empty list or from NaN; otherwise a position of the list |
| DraftPlayer.DraftStepsAgree | scripts/script.js:87-96 | on a non-empty list and a number or `null` index, the draft steps exactly as the live player |
| DraftPlayer.DraftNextThenPrevious | scripts/script.js:87-96 | next and previous undo each other on every position of a non-empty list |
| DraftPlayer.DraftNaNAbsorbs | scripts/script.js:87-96 | an empty list gives NaN, NaN stays NaN, and NaN is not `===` to itself |
| DraftPlayer.DraftIconTier | scripts/script.js:196-212 | the draft's tier is the live tier with the mute flag ignored |
| DraftPlayer.DraftIconIgnoresMute | scripts/script.js:196-212 | when muted at a non-zero volume, the draft shows a volume tier where the live player shows mute |
| DraftPlayer.Draft.constructor | scripts/script.js:1-7 | nothing selected, no handle, volume 50 with 50 saved, not muted, not dragging, all rows unselected |
| DraftPlayer.Draft.UpdateVolumeIcon | scripts/script.js:196-212 | the speaker shows the draft tier of the current volume |
| DraftPlayer.Draft.UpdatePlayPauseButtons | scripts/script.js:236-270 | both buttons follow `isPlaying`; only the current index can show pause, and only while playing |
| DraftPlayer.Draft.UpdateActiveTrack | scripts/script.js:218-233 | every row shows play and only the current title is active |
| DraftPlayer.Draft.UpdateDuration | scripts/script.js:77-79 | the total time shows the handle's duration |
| DraftPlayer.Draft.UpdateProgressBar | scripts/script.js:132-140 | nothing changes while dragging or without a handle or duration; otherwise the progress and time label follow the handle |
| DraftPlayer.Draft.PlayTrackByIndex | scripts/script.js:19-74 | the same index with a handle only flips it, and the buttons follow at once. An index naming a track releases the old handle (three listeners) and starts one new handle with the inherited volume and mute flag, progress 0 and labels "0:00". Any other index releases the old handle, stores the index and throws |
| DraftPlayer.Draft.FlipPaused | scripts/script.js:21-30 | only the handle's paused flag changes, and the buttons show the new state at once |
| DraftPlayer.Draft.Release | scripts/script.js:33-39 | the old handle is paused and rewound, and its three listeners are removed |
| DraftPlayer.Draft.StartTrack | scripts/script.js:41-73 | one new playing handle for the track; title, image, active row and buttons updated |
| DraftPlayer.Draft.OnTrackClick | scripts/script.js:103-107 | a click on row k is `playTrackByIndex(k)` and never throws |
| DraftPlayer.Draft.PlayNextTrack | scripts/script.js:87-90 | `playTrackByIndex` of the draft's next index, with no empty-list guard |
| DraftPlayer.Draft.PlayPreviousTrack | scripts/script.js:93-96 | `playTrackByIndex` of the draft's previous index, with no empty-list guard |
| DraftPlayer.Draft.OnEnded | scripts/script.js:82-90 | the handle is paused at its end, then `playNextTrack` runs. When the next index is the current one, the same handle resumes with the buttons showing "playing". An index naming a track starts it. Any other index releases the handle and throws |
| DraftPlayer.Draft.OnLoadedMetadata | scripts/script.js:77-79 | the handle's duration is set and the total time shows it |
| DraftPlayer.Draft.OnTimeUpdate | scripts/script.js:132-140 | the handle's time is set, and the progress and label follow it unless dragging or without a duration |
| DraftPlayer.Draft.TogglePlayPause | scripts/script.js:115-125 | without a handle nothing changes; with one it flips |
| DraftPlayer.Draft.OnTopPlayClick | scripts/script.js:273-281 | with a `null` index it picks position 0, which throws exactly on an empty list; otherwise it toggles |
| DraftPlayer.Draft.ToggleMute | scripts/script.js:173-193 | nothing happens without a handle; otherwise the volumes toggle as in the live player, the icon is mute when muting and the draft tier when unmuting |
| DraftPlayer.Draft.OnVolumeInput | scripts/script.js:157-163 | the volume, the handle and the draft icon follow the slider; the mute flag is untouched |
| DraftPlayer.Draft.OnSeekInput | scripts/script.js:143-150 | dragging starts; with a handle of known duration the time jumps to the seek target and the label shows it |
| DraftPlayer.Draft.OnSeekChange | scripts/script.js:152-154 | dragging ends and nothing else changes |
| Upload.FileFilter | backend/server.js:70-77 | accepted exactly for audio/mpeg, audio/wav, audio/mp3, audio/ogg and audio/flac; anything else is rejected with "Only audio files are allowed!" |
| Upload.FilterAcceptsOnlyAudio | backend/server.js:70-77 | every accepted type starts with "audio/"; the match is exact, so other audio types and other letter cases are rejected |
| Upload.DurationText | backend/server.js:184-187 | the duration text is the `M:SS` format of the floored probe duration, and it reads back to those whole seconds |
| Upload.DurationTextSeconds | backend/server.js:184-187 | the seconds field is below 60 |
| Upload.TrimStart | backend/server.js:194 | the leading characters dropped are all JavaScript white space, and what remains starts with a non-space |
| Upload.TrimEnd | backend/server.js:194 | the trailing characters dropped are all JavaScript white space, and what remains ends with a non-space |
| Upload.Trim | backend/server.js:194 | `trim` gives the part of the title between a prefix and a suffix that are all white space; what is left is empty or starts and ends with a non-space |
| Upload.TrimEmptyIffBlank | backend/server.js:194 | a title trims to empty exactly when it is all white space |
| Upload.TitleMissing | backend/server.js:194 | no ensures of its own (a predicate); TrimEmptyIffBlank, BlankTitleRefused and TitleCheckedBeforeSave state what it decides |
| Upload.FileUrl | backend/server.js:190 | the URL starts with the protocol and "://" and ends with the stored file name |
| Upload.AddTrack | backend/server.js:165-227 | no file gives 400 with nothing deleted or saved. A record is saved exactly when the status is 201, and 201 comes exactly with an accepted, stored file, a successful probe, a title that is not blank and a successful save. The stored file is deleted exactly when it was kept and the answer is not 201. A refused type or an over-size file gives 500 with the middleware's error and nothing deleted. With the file kept, a failed probe gives 500 "Failed to determine track duration." before the title is looked at, a missing or blank title gives 400, and a failed save gives 500 "Failed to add track.", each with the file deleted. A saved record has 0 plays, the untrimmed title, exactly the `DurationText` of the probe, the `/uploads/` URL and the uploader fields |
| Upload.NoFileIgnoresLaterSteps | backend/server.js:166-168 | without a file the answer does not depend on the probe or the save |
| Upload.ProbeCheckedBeforeTitle | backend/server.js:173-181 | when the probe fails the answer is 500 with the file deleted, whatever the form holds and whatever the save would do |
| Upload.TitleCheckedBeforeSave | backend/server.js:193-200 | a missing title is answered before saving: the save's outcome does not matter and nothing is saved |
| Upload.BlankTitleRefused | backend/server.js:194-199 | a title of white space alone gives 400 and deletes the file |

## Left out

- DOM access, CSS classes, `console` and `alert` text: only the abstract view above and an alert counter are modelled.
- The player image and its alt text, and the live player's default image, are not modelled; the live bar shows only the title.
- `fetch`, JSON parsing and the `await` ordering: a fetch outcome is the parameter of `LoadTracks`; a response without a track list element is not modelled.
- Promises: each `play()` outcome is a separate callback method. Whether a promise is still outstanding is not tracked, so a callback may be issued for a handle that has since been replaced.
- The unbounded chain of skips when every track fails to play: each callback is one step.
- Floating-point volumes and times: volumes are integer percents and times whole seconds. Progress and seek positions are floors, and the volume slider is not clamped beyond 0..100.
- LivePlayer.Player.LoadTracks: it requires that nothing is selected when `setDefault` is set, which holds for the page-load call, the only one that passes true.
- LivePlayer.Player.LoadTracks: track ids are taken to be non-empty, so the script's `if (currentTrackId)` test (public/scripts/script.js:443) is "a track was selected"; `PlayerLogic.ResolveAfterReload` relies on the same assumption.
- LivePlayer.Player.SettleResume: a rejected resume leaves the handle's paused flag cleared, because play() clears it before the promise settles.
- LivePlayer.Player.constructor: the page's initial speaker icon and slider are taken to match volume 50.
- DraftPlayer.Draft.UpdateDuration: it shows the handle's duration even when unknown (0), where the script would show "NaN:NaN".
- The login flow, OAuth redirects, `localStorage` and URL parsing (public/scripts/script.js:33-85, backend/server.js:91-151), and public/scripts/login.js.
- public/scripts/addSong.js: it only shows a dialog and posts the form.
- Mongoose, the database schema defaults and the `createdAt` field: the save is a boolean outcome and the new id a parameter.
- ffprobe: the probe is an optional duration.
- `fs.unlink` and its errors: deletion is a flag of the response.
- The multer storage and file naming: the stored file name is a parameter.
- The response bodies beyond the error text, and the express default error page for middleware errors (status 500).
- Upload.AddTrack: it requires a probed duration that is not negative, as ffprobe reports.
- Upload.AddTrack: a successful probe without a numeric `format.duration` is not modelled; the server would floor `undefined` and save "NaN:NaN" with status 201.
- DraftPlayer.Draft.OnEnded: the same rewind is not modelled for the draft; when the same index is played again (scripts/script.js:82-90) the resumed handle keeps the time it ended at.
- LivePlayer.Player.OnEnded: the browser's rewind to the start when an ended handle is played again is not modelled; the handle keeps the time it had.
- The handle's playback clock is not modelled on its own: time and duration change only through `OnTimeUpdate`, `OnLoadedMetadata` and seeking.
