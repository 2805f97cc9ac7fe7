/**
 * The server's upload path: the audio MIME whitelist the upload middleware
 * applies, the middleware's size limit, and the POST `/api/tracks` handler
 * as one decision from the request and the outcomes of the things it calls
 * (the duration probe and the database save) to the response it sends,
 * whether it deletes the stored file, and the record it saves.
 */
module Upload {
  import opened Wrappers
  import opened Tracks
  import opened TimeFormat

  // ---------------------------------------------------------------------
  // The upload middleware

  const AllowedTypes: seq<string> := ["audio/mpeg", "audio/wav", "audio/mp3", "audio/ogg", "audio/flac"]
  const FilterError := "Only audio files are allowed!"
  /** `limits.fileSize`: 100 MB. */
  const MaxFileSize: nat := 100 * 1024 * 1024
  const TooLargeError := "File too large"

  datatype Verdict = Accept | Reject(message: string)

  /** `fileFilter`: the five audio types pass, anything else is refused with an error. */
  function FileFilter(mimetype: string): (v: Verdict)
    ensures v.Accept? <==> mimetype == "audio/mpeg" || mimetype == "audio/wav" || mimetype == "audio/mp3"
                           || mimetype == "audio/ogg" || mimetype == "audio/flac"
    ensures v.Reject? ==> v.message == FilterError
  {
    if mimetype in AllowedTypes then Accept else Reject(FilterError)
  }

  /** Everything the filter lets through is an `audio/` type; the comparison is exact, not by prefix or case. */
  lemma FilterAcceptsOnlyAudio(mimetype: string)
    ensures FileFilter(mimetype).Accept? ==> "audio/" <= mimetype
    ensures FileFilter("audio/aac").Reject? && FileFilter("AUDIO/MPEG").Reject?
    ensures FileFilter("audio/x-wav").Reject? && FileFilter("video/mp4").Reject?
  {
  }

  // ---------------------------------------------------------------------
  // Duration text

  /**
   * The handler's duration text: the probed duration floored to whole
   * seconds, then minutes, a colon and the seconds zero-padded below 10.
   * It is the players' `M:SS` format of the same whole seconds, so it reads
   * back to them.
   */
  function DurationText(duration: real): (r: string)
    requires 0.0 <= duration
    ensures r == FormatTime(duration.Floor as nat)
    ensures ParseTime(r) == Some(duration.Floor as nat)
  {
    var durationInSeconds: nat := duration.Floor as nat;
    var minutes := durationInSeconds / 60;
    var seconds := durationInSeconds % 60;
    FormatTimeRoundTrip(durationInSeconds);
    NatToString(minutes) + ":" + (if seconds < 10 then "0" else "") + NatToString(seconds)
  }

  /** The seconds field is below 60. */
  lemma DurationTextSeconds(duration: real)
    requires 0.0 <= duration
    ensures var r := DurationText(duration);
            DigitValue(r[|r| - 2]) * 10 + DigitValue(r[|r| - 1]) < 60
  {
  }

  // ---------------------------------------------------------------------
  // Title validation: `!songTitle || songTitle.trim() === ''`

  /** The characters JavaScript's `trim` removes: white space and line terminators. */
  predicate IsJsSpace(c: char)
  {
    || c == '\t' || c == '\n' || c == '\U{000B}' || c == '\U{000C}' || c == '\r' || c == ' '
    || c == '\U{00A0}' || c == '\U{1680}' || ('\U{2000}' <= c <= '\U{200A}')
    || c == '\U{2028}' || c == '\U{2029}' || c == '\U{202F}' || c == '\U{205F}'
    || c == '\U{3000}' || c == '\U{FEFF}'
  }

  predicate Blank(s: string)
  {
    forall i :: 0 <= i < |s| ==> IsJsSpace(s[i])
  }

  /** Leading white space removed: what is left is a suffix that starts with a non-space. */
  function TrimStart(s: string): (r: string)
    ensures |r| <= |s| && r == s[|s| - |r|..]
    ensures Blank(s[..|s| - |r|])
    ensures r == [] || !IsJsSpace(r[0])
  {
    if s == [] || !IsJsSpace(s[0]) then s
    else
      var r := TrimStart(s[1..]);
      assert s[..|s| - |r|] == [s[0]] + s[1..][..|s| - 1 - |r|];
      r
  }

  /** Trailing white space removed: what is left is a prefix that ends with a non-space. */
  function TrimEnd(s: string): (r: string)
    ensures |r| <= |s| && r == s[..|r|]
    ensures Blank(s[|r|..])
    ensures r == [] || !IsJsSpace(r[|r| - 1])
  {
    if s == [] || !IsJsSpace(s[|s| - 1]) then s
    else
      var r := TrimEnd(s[..|s| - 1]);
      assert s[|r|..] == s[..|s| - 1][|r|..] + [s[|s| - 1]];
      r
  }

  /**
   * Both ends trimmed: what is left is the middle of `s` between a blank
   * prefix and a blank suffix, and neither starts nor ends with white space.
   */
  function Trim(s: string): (r: string)
    ensures |r| <= |s|
    ensures exists i :: 0 <= i && i + |r| <= |s| && r == s[i..i + |r|] && Blank(s[..i]) && Blank(s[i + |r|..])
    ensures r == [] || (!IsJsSpace(r[0]) && !IsJsSpace(r[|r| - 1]))
  {
    var t := TrimStart(s);
    var r := TrimEnd(t);
    MiddleOfSuffix(s, |s| - |t|, r);
    r
  }

  /** A blank-ended prefix of a suffix of `s` is a slice of `s` between blank parts. */
  lemma MiddleOfSuffix(s: string, i: nat, r: string)
    requires i <= |s| && Blank(s[..i])
    requires |r| <= |s| - i && r == s[i..][..|r|] && Blank(s[i..][|r|..])
    ensures i + |r| <= |s| && r == s[i..i + |r|] && Blank(s[..i]) && Blank(s[i + |r|..])
  {
    assert s[i..][|r|..] == s[i + |r|..];
  }

  /** `s.trim() === ''` exactly when every character of `s` is white space. */
  lemma TrimEmptyIffBlank(s: string)
    ensures Trim(s) == [] <==> Blank(s)
  {
    var t := TrimStart(s);
    if Trim(s) == [] {
      // a non-empty `t` would start with a non-space, yet be all white space
      assert Blank(t[0..]);
      assert t == [];
      assert s[..|s|] == s;
    }
  }

  /** The title check: absent, or nothing left after trimming. */
  predicate TitleMissing(songTitle: Option<string>)
  {
    songTitle.None? || songTitle.value == [] || Trim(songTitle.value) == []
  }

  // ---------------------------------------------------------------------
  // POST /api/tracks

  /** The stored upload as the middleware describes it. */
  datatype StoredFile = StoredFile(mimetype: string, size: nat, filename: string)

  /** The form fields the handler reads. */
  datatype Form = Form(songTitle: Option<string>, userId: string, username: string, avatar: string)

  datatype Request = Request(protocol: string, host: string, file: Option<StoredFile>, body: Form)

  /** The status and error text sent, whether the stored file is deleted, and the record saved. */
  datatype Response = Response(status: nat, error: string, fileDeleted: bool, saved: Option<Track>)

  const NoFileError := "No file uploaded."
  const ProbeError := "Failed to determine track duration."
  const TitleError := "Song title is required."
  const SaveError := "Failed to add track."

  /** `${req.protocol}://${req.get('host')}/uploads/${req.file.filename}`. */
  function FileUrl(protocol: string, host: string, filename: string): (u: string)
    ensures protocol + "://" <= u
    ensures |filename| <= |u| && u[|u| - |filename|..] == filename
  {
    protocol + "://" + host + "/uploads/" + filename
  }

  /** The middleware keeps the file: an accepted type within the size limit. */
  predicate Stored(file: StoredFile)
  {
    FileFilter(file.mimetype).Accept? && file.size <= MaxFileSize
  }

  /**
   * The request through the middleware and the handler. `probe` is the
   * probed duration in seconds (`None` when the probe fails), `newId` the
   * id the database gives the new record, and `saveOk` whether the save
   * succeeds. A middleware error reaches the framework's default error
   * response (500) and leaves no file behind.
   */
  function AddTrack(req: Request, probe: Option<real>, newId: string, saveOk: bool): (resp: Response)
    requires probe.Some? ==> 0.0 <= probe.value
    ensures req.file.None? ==> resp == Response(400, NoFileError, false, None)
    ensures resp.saved.Some? <==> resp.status == 201
    ensures resp.status == 201 <==>
              req.file.Some? && Stored(req.file.value) && probe.Some?
              && !TitleMissing(req.body.songTitle) && saveOk
    ensures resp.fileDeleted <==> req.file.Some? && Stored(req.file.value) && resp.status != 201
    ensures req.file.Some? && FileFilter(req.file.value.mimetype).Reject? ==>
              resp == Response(500, FilterError, false, None)
    ensures req.file.Some? && FileFilter(req.file.value.mimetype).Accept? && MaxFileSize < req.file.value.size ==>
              resp == Response(500, TooLargeError, false, None)
    ensures req.file.Some? && Stored(req.file.value) && probe.None? ==>
              resp == Response(500, ProbeError, true, None)
    ensures req.file.Some? && Stored(req.file.value) && probe.Some? && TitleMissing(req.body.songTitle) ==>
              resp == Response(400, TitleError, true, None)
    ensures req.file.Some? && Stored(req.file.value) && probe.Some? && !TitleMissing(req.body.songTitle) && !saveOk ==>
              resp == Response(500, SaveError, true, None)
    ensures resp.saved.Some? ==>
              var t := resp.saved.value;
              && t.plays == 0
              && t.title == req.body.songTitle.value
              && t.duration == DurationText(probe.value)
              && t.file == FileUrl(req.protocol, req.host, req.file.value.filename)
              && t.addedBy == Uploader(req.body.userId, req.body.username, req.body.avatar)
  {
    match req.file
    case None => Response(400, NoFileError, false, None)
    case Some(file) =>
      if FileFilter(file.mimetype).Reject? then Response(500, FilterError, false, None)
      else if MaxFileSize < file.size then Response(500, TooLargeError, false, None)
      else if probe.None? then Response(500, ProbeError, true, None)
      else
        var formattedDuration := DurationText(probe.value);
        var fileUrl := FileUrl(req.protocol, req.host, file.filename);
        if TitleMissing(req.body.songTitle) then Response(400, TitleError, true, None)
        else if !saveOk then Response(500, SaveError, true, None)
        else
          var addedBy := Uploader(req.body.userId, req.body.username, req.body.avatar);
          Response(201, "", false, Some(Track(newId, req.body.songTitle.value, fileUrl, 0, formattedDuration, addedBy)))
  }

  /** Without a file the answer is fixed before any probing or saving: their outcomes do not matter. */
  lemma NoFileIgnoresLaterSteps(req: Request, p1: Option<real>, p2: Option<real>, id1: string, id2: string, s1: bool, s2: bool)
    requires req.file.None?
    requires p1.Some? ==> 0.0 <= p1.value
    requires p2.Some? ==> 0.0 <= p2.value
    ensures AddTrack(req, p1, id1, s1) == AddTrack(req, p2, id2, s2)
  {
  }

  /** A failed probe is answered before the title is looked at: the form and the save do not matter. */
  lemma ProbeCheckedBeforeTitle(req: Request, form: Form, id1: string, id2: string, s1: bool, s2: bool)
    requires req.file.Some? && Stored(req.file.value)
    ensures AddTrack(req, None, id1, s1) == AddTrack(req.(body := form), None, id2, s2)
    ensures AddTrack(req, None, id1, s1).fileDeleted && AddTrack(req, None, id1, s1).status == 500
  {
  }

  /** A missing title is answered before the save: its outcome does not matter, and nothing is saved. */
  lemma TitleCheckedBeforeSave(req: Request, probe: Option<real>, id1: string, id2: string, s1: bool, s2: bool)
    requires probe.Some? ==> 0.0 <= probe.value
    requires TitleMissing(req.body.songTitle)
    ensures AddTrack(req, probe, id1, s1) == AddTrack(req, probe, id2, s2)
    ensures AddTrack(req, probe, id1, s1).saved.None?
  {
  }

  /** A title of white space alone is refused like an absent one. */
  lemma BlankTitleRefused(req: Request, probe: Option<real>, newId: string, saveOk: bool)
    requires probe.Some? && 0.0 <= probe.value
    requires req.file.Some? && Stored(req.file.value)
    requires req.body.songTitle.Some? && Blank(req.body.songTitle.value)
    ensures AddTrack(req, probe, newId, saveOk) == Response(400, TitleError, true, None)
  {
    TrimEmptyIffBlank(req.body.songTitle.value);
  }
}
