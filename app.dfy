/** The session controller (App.tsx): the component's state hooks as the
    fields of a class, one method per handler. Browser effects are inputs:
    the outcome of `getUserMedia` is an Option<Stream>, a frame grabbed from
    the video through the canvas is an Option<string>, and the file reader's
    result is a string. The asynchronous `handleAnalysis` is split into
    StartAnalysis, which returns a Ticket for the request it issues, and
    CompleteAnalysis, which applies the service's answer for one ticket;
    completions may come in any order. */
module App {

  import opened Wrappers
  import opened JsonValue
  import opened Types

  /** `'environment' | 'user'`. */
  datatype Facing = Environment | User

  function Flip(f: Facing): (g: Facing)
    ensures g != f
  {
    if f == User then Environment else User
  }

  type Track = nat

  /** A MediaStream, by its tracks. */
  datatype Stream = Stream(id: nat, tracks: seq<Track>)

  /** A call the session makes on the camera capability. */
  datatype CameraCall = Stop(track: Track) | Request(facing: Facing)

  /** The `stop()` calls on each track, in order. */
  function Stops(tracks: seq<Track>): (r: seq<CameraCall>)
    ensures |r| == |tracks|
    ensures forall i :: 0 <= i < |tracks| ==> r[i] == Stop(tracks[i])
  {
    seq(|tracks|, i requires 0 <= i < |tracks| => Stop(tracks[i]))
  }

  /** The `stop()` calls that release a held stream, if any. */
  function Release(s: Option<Stream>): seq<CameraCall>
  {
    if s.Some? then Stops(s.value.tracks) else []
  }

  /** One issued call of `analyzeImage`: the image and the mode it was
      called with. */
  datatype Ticket = Ticket(image: string, mode: Mode)

  const CameraErrorMessage: string := "Could not access the camera. Please grant permission and refresh."
  const CaptureErrorMessage: string := "Could not capture an image to analyze."
  const AnalysisErrorMessage: string := "Failed to analyze the image. Please try again."

  /** `imageSrc` in handleAnalysis: the image argument when it is a non-empty
      string, else a grabbed frame when there is a non-empty one, else
      nothing to analyze. */
  function ImageSource(image: Option<string>, frame: Option<string>): (r: Option<string>)
    ensures r.Some? ==> r.value != "" && (r == image || r == frame)
    ensures r.None? <==> !TruthyString(image) && !TruthyString(frame)
    ensures TruthyString(image) ==> r == image
  {
    if TruthyString(image) then image
    else if TruthyString(frame) then frame
    else None
  }

  /** What InfoModal renders for a selected answer: Normal content when the
      mode is Normal and the answer has a truthy `name`, Health content when
      the mode is Health and it has a truthy `issue`, else nothing. */
  datatype Detail = NormalDetail | HealthDetail | NoDetail

  function ModalContent(mode: Mode, j: Json): (d: Detail)
    ensures d == NormalDetail <==> mode == Normal && j.JObj? && "name" in j.obj && Truthy(j.obj["name"])
    ensures d == HealthDetail <==> mode == Health && j.JObj? && "issue" in j.obj && Truthy(j.obj["issue"])
  {
    if mode == Normal && j.JObj? && "name" in j.obj && Truthy(j.obj["name"]) then NormalDetail
    else if mode == Health && j.JObj? && "issue" in j.obj && Truthy(j.obj["issue"]) then HealthDetail
    else NoDetail
  }

  /** An answer that reads as an identification shows its own kind of detail
      in its own mode (when its title is non-empty) and nothing in the other
      mode. */
  lemma DetailFollowsKind(mode: Mode, j: Json, id: Identification)
    requires Decode(j) == Some(id)
    ensures id.ModeOf() != mode ==> ModalContent(mode, j) == NoDetail
    ensures id.NormalId? && mode == Normal && id.name != "" ==> ModalContent(mode, j) == NormalDetail
    ensures id.HealthId? && mode == Health && id.issue != "" ==> ModalContent(mode, j) == HealthDetail
  {
  }

  class Session {
    var mode: Mode
    var facing: Facing
    var identifications: seq<Json>
    var selected: Option<Json>
    var modalOpen: bool
    var processing: bool
    var error: Option<string>
    var stream: Option<Stream>
    var preview: Option<string>
    /** The stream the `<video>` element's `srcObject` holds, if the element
        is rendered and one was assigned to it. */
    var attached: Option<Stream>

    /** Every call made on the camera capability, in order. */
    ghost var cameraLog: seq<CameraCall>
    /** The analysis calls issued and not yet completed, oldest first. */
    ghost var inFlight: seq<Ticket>

    /** A stream and an uploaded preview are never held together, the
        modal is open exactly when something is selected, and a stream is
        attached only to a rendered video element. */
    ghost predicate Valid()
      reads this
    {
      && !(stream.Some? && preview.Some?)
      && (modalOpen <==> selected.Some?)
      && (attached.Some? ==> VideoShown())
    }

    /** The initial hook values. */
    constructor ()
      ensures Valid()
      ensures mode == Normal && facing == Environment
      ensures identifications == [] && selected.None? && !modalOpen
      ensures !processing && error.None? && stream.None? && preview.None? && attached.None?
      ensures cameraLog == [] && inFlight == []
    {
      mode := Normal;
      facing := Environment;
      identifications := [];
      selected := None;
      modalOpen := false;
      processing := false;
      error := None;
      stream := None;
      preview := None;
      attached := None;
      cameraLog := [];
      inFlight := [];
    }

    // -------------------------------------------------------------------
    // View

    /** "Camera Not Found" with its retry button. */
    predicate CameraNoticeShown()
      reads this
    {
      stream.None? && !TruthyString(preview)
    }

    /** The `<video>` element is rendered, as opposed to the uploaded image;
        only then does `videoRef.current` refer to an element. */
    predicate VideoShown()
      reads this
    {
      !TruthyString(preview)
    }

    /** The error toast. */
    predicate ErrorToastShown()
      reads this
    {
      TruthyString(error) && !processing
    }

    /** The detail modal. */
    predicate ModalShown()
      reads this
    {
      modalOpen && selected.Some? && Truthy(selected.value)
    }

    /** The header's scan button accepts clicks. */
    predicate ScanEnabled()
      reads this
    {
      !processing
    }

    /** The frame `handleAnalysis` grabs: `frame` is what the canvas's
        `toDataURL` gives for the current video. The canvas draws from
        `videoRef.current`, which is null while the preview image is
        rendered in place of the video, so there is a frame exactly when the
        video is rendered. */
    function Grab(frame: string): (g: Option<string>)
      reads this
      ensures g.Some? <==> VideoShown()
      ensures TruthyString(preview) ==> g.None?
      ensures g.Some? ==> g.value == frame
    {
      if VideoShown() then Some(frame) else None
    }

    // -------------------------------------------------------------------
    // Camera

    /** `cameraStream.getTracks().forEach(track => track.stop())`. */
    method StopTracks(s: Stream)
      modifies this`cameraLog
      ensures cameraLog == old(cameraLog) + Stops(s.tracks)
    {
      for i := 0 to |s.tracks|
        invariant cameraLog == old(cameraLog) + Stops(s.tracks[..i])
      {
        assert Stops(s.tracks[..i + 1]) == Stops(s.tracks[..i]) + [Stop(s.tracks[i])];
        cameraLog := cameraLog + [Stop(s.tracks[i])];
      }
      assert s.tracks[..|s.tracks|] == s.tracks;
    }

    /** The effect of `setupCamera(camMode)` when `getUserMedia` answers
        `outcome`: the stored stream's tracks are stopped first; a new
        stream replaces the stored one and clears the preview, the
        identifications and the error, and is attached to the video element
        only if that element was rendered (no preview shown): after a preview
        the video is mounted afresh with no source; a failure sets only the
        camera error and leaves the stored (now stopped) stream in place. */
    twostate predicate SetupDone(camMode: Facing, outcome: Option<Stream>)
      reads this
    {
      && cameraLog == old(cameraLog) + Release(old(stream)) + [Request(camMode)]
      && (outcome.Some? ==>
            && stream == outcome && preview.None? && identifications == [] && error.None?
            && attached == (if TruthyString(old(preview)) then None else outcome))
      && (outcome.None? ==>
            && stream == old(stream) && preview == old(preview) && attached == old(attached)
            && identifications == old(identifications)
            && error == Some(CameraErrorMessage))
    }

    method SetupCamera(camMode: Facing, outcome: Option<Stream>)
      requires Valid()
      modifies this`stream, this`preview, this`attached, this`identifications, this`error
      modifies this`cameraLog
      ensures Valid() && SetupDone(camMode, outcome)
    {
      if stream.Some? {
        StopTracks(stream.value);
      }
      cameraLog := cameraLog + [Request(camMode)];
      match outcome {
        case Some(s) =>
          stream := Some(s);
          attached := if VideoShown() then Some(s) else None;
          preview := None;
          identifications := [];
          error := None;
        case None =>
          error := Some(CameraErrorMessage);
      }
    }

    /** The mount effect: set up the camera with the initial facing. */
    method Mount(outcome: Option<Stream>)
      requires Valid()
      modifies this`stream, this`preview, this`attached, this`identifications, this`error
      modifies this`cameraLog
      ensures Valid() && SetupDone(facing, outcome)
    {
      SetupCamera(facing, outcome);
    }

    /** `handleCameraToggle`: flip the facing and set up the camera with the
        new value. */
    method ToggleCamera(outcome: Option<Stream>)
      requires Valid()
      modifies this`facing
      modifies this`stream, this`preview, this`attached, this`identifications, this`error
      modifies this`cameraLog
      ensures Valid()
      ensures facing == Flip(old(facing))
      ensures SetupDone(facing, outcome)
    {
      facing := Flip(facing);
      SetupCamera(facing, outcome);
    }

    /** `handleCameraReset`: set up the camera again with the same facing. */
    method ResetCamera(outcome: Option<Stream>)
      requires Valid()
      modifies this`stream, this`preview, this`attached, this`identifications, this`error
      modifies this`cameraLog
      ensures Valid() && SetupDone(facing, outcome)
    {
      SetupCamera(facing, outcome);
    }

    // -------------------------------------------------------------------
    // Analysis

    /** The synchronous part of `handleAnalysis(image)`: raise the processing
        flag, clear the identifications and the error, pick the image or else
        the frame `grabbed` from the rendered video (`Grab`); with nothing to analyze set
        the capture error and lower the flag again, showing the toast,
        otherwise issue a call with the image and the current mode while the
        loading overlay disables the scan button. */
    method StartAnalysis(image: Option<string>, grabbed: Option<string>) returns (ticket: Option<Ticket>)
      requires Valid()
      modifies this`processing, this`identifications, this`error, this`inFlight
      ensures Valid()
      ensures identifications == []
      ensures ImageSource(image, grabbed).None? ==>
                && ticket.None? && !processing && error == Some(CaptureErrorMessage)
                && inFlight == old(inFlight)
                && ErrorToastShown() && ScanEnabled()
      ensures ImageSource(image, grabbed).Some? ==>
                && ticket == Some(Ticket(ImageSource(image, grabbed).value, mode))
                && processing && error.None?
                && inFlight == old(inFlight) + [ticket.value]
                && !ErrorToastShown() && !ScanEnabled()
    {
      processing := true;
      identifications := [];
      error := None;
      var src := ImageSource(image, grabbed);
      if src.None? {
        error := Some(CaptureErrorMessage);
        processing := false;
        return None;
      }
      ticket := Some(Ticket(src.value, mode));
      inFlight := inFlight + [ticket.value];
    }

    /** The awaited part of `handleAnalysis` for the issued call at position
        `k` of the calls in flight, which may be any of them. `outcome` is
        what the service call for `ticket` settled to (GeminiService.AnalyzeImage
        on the ticket's image and mode): its list replaces the
        identifications, or its failure sets the analysis error and shows the
        toast; either way the processing flag goes down and the scan button
        is enabled again. A success keeps whatever error is stored, so the
        last success decides the list, and an error stays until the next
        analysis starts or a camera setup succeeds. */
    method CompleteAnalysis(k: nat, ticket: Ticket, outcome: Result<seq<Json>, string>)
      requires Valid()
      requires k < |inFlight| && inFlight[k] == ticket
      modifies this`processing, this`identifications, this`error, this`inFlight
      ensures Valid()
      ensures !processing
      ensures inFlight == old(inFlight)[..k] + old(inFlight)[k + 1..]
      ensures ScanEnabled()
      ensures outcome.Ok? ==> identifications == outcome.value && error == old(error)
      ensures outcome.Err? ==> identifications == old(identifications) && error == Some(AnalysisErrorMessage)
      ensures outcome.Err? ==> ErrorToastShown()
    {
      match outcome {
        case Ok(results) =>
          identifications := results;
        case Err(_) =>
          error := Some(AnalysisErrorMessage);
      }
      processing := false;
      inFlight := inFlight[..k] + inFlight[k + 1..];
    }

    /** The scan button's click handler, `handleAnalysis()` with no image.
        The button is disabled while an analysis is running, so a click is
        only possible when the scan is enabled. `frame` is the canvas's
        `toDataURL` result, which is never empty (`data:,` for a video with
        no picture). While the video is rendered that frame is sent in the
        current mode; while the preview is shown there is nothing to grab
        and the capture error is shown. */
    method Scan(frame: string) returns (ticket: Option<Ticket>)
      requires Valid() && ScanEnabled()
      requires frame != ""
      modifies this`processing, this`identifications, this`error, this`inFlight
      ensures Valid()
      ensures identifications == []
      ensures ticket.Some? <==> VideoShown()
      ensures ticket.Some? ==>
                && ticket.value == Ticket(frame, mode)
                && processing && error.None?
                && inFlight == old(inFlight) + [ticket.value]
      ensures ticket.None? ==>
                && !processing && error == Some(CaptureErrorMessage)
                && inFlight == old(inFlight)
    {
      ticket := StartAnalysis(None, Grab(frame));
    }

    /** `handleFileChange` once the reader has loaded `data`: show it as the
        preview (the image replaces the video element, and with it any
        attached stream), stop and drop any stream, clear the identifications
        and start an analysis of exactly that image. A data URL read from a
        file is never empty. The upload control stays enabled while an
        analysis runs, so this may issue a call while others are in flight. */
    method FileLoaded(data: string) returns (ticket: Option<Ticket>)
      requires Valid()
      requires data != ""
      modifies this`preview, this`stream, this`attached, this`cameraLog
      modifies this`processing, this`identifications, this`error, this`inFlight
      ensures Valid()
      ensures preview == Some(data) && stream.None? && attached.None? && identifications == []
      ensures cameraLog == old(cameraLog) + Release(old(stream))
      ensures ticket == Some(Ticket(data, mode)) && processing && error.None?
      ensures inFlight == old(inFlight) + [ticket.value]
    {
      preview := Some(data);
      attached := None;
      if stream.Some? {
        StopTracks(stream.value);
        stream := None;
      }
      identifications := [];
      ticket := StartAnalysis(Some(data), None);
    }

    // -------------------------------------------------------------------
    // Selection and mode

    /** `handleBoxClick` on the overlay button of the i-th identification. */
    method BoxClick(i: nat)
      requires Valid()
      requires i < |identifications|
      modifies this`selected, this`modalOpen
      ensures Valid()
      ensures selected == Some(identifications[i]) && modalOpen
    {
      selected := Some(identifications[i]);
      modalOpen := true;
    }

    /** `closeModal`. */
    method CloseModal()
      requires Valid()
      modifies this`selected, this`modalOpen
      ensures Valid()
      ensures selected.None? && !modalOpen && !ModalShown()
    {
      modalOpen := false;
      selected := None;
    }

    /** `handleModeChange`: switch the mode and drop the identifications of
        the previous mode; no new analysis starts. */
    method ChangeMode(m: Mode)
      requires Valid()
      modifies this`mode, this`identifications
      ensures Valid()
      ensures mode == m && identifications == []
    {
      mode := m;
      identifications := [];
    }
  }

  // ---------------------------------------------------------------------
  // What the invariant means for the view

  /** Under the invariant a held stream comes with the video element
      rendered and the "Camera Not Found" notice hidden, and an uploaded
      preview hides the notice too. Whether the stream is the video's
      source is the separate `attached` field. */
  lemma LiveStreamIsDisplayed(s: Session)
    requires s.Valid()
    ensures s.stream.Some? ==> s.VideoShown() && !s.CameraNoticeShown()
    ensures s.attached.Some? ==> s.VideoShown()
    ensures TruthyString(s.preview) ==> !s.CameraNoticeShown() && s.stream.None? && s.attached.None?
  {
  }
}
