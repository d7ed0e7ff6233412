/** Client code driving a Session through event sequences, in the manner of
    a test harness: each assertion is a consequence of the handlers'
    contracts alone. */
module Scenarios {

  import opened Wrappers
  import opened JsonValue
  import opened Types
  import DataUrl
  import GeminiService
  import opened App

  /** Uploading a well-formed data URL whose analysis yields a list: the
      session ends with exactly that list, no error, not processing, the
      preview shown and no stream. */
  method UploadThenAnswer(sub: string, payload: string, answer: seq<Json>, cam: Stream)
    requires DataUrl.WellFormed(sub, payload)
  {
    var s := new Session();
    s.Mount(Some(cam));
    assert s.stream == Some(cam);
    var data := DataUrl.Compose(sub, payload);
    var ticket := s.FileLoaded(data);
    assert s.cameraLog == [Request(Environment)] + Stops(cam.tracks);
    assert ticket == Some(Ticket(data, Normal));
    s.CompleteAnalysis(0, ticket.value, Ok(answer));
    assert s.identifications == answer;
    assert s.error.None? && !s.processing && s.stream.None? && s.preview == Some(data);
    assert s.inFlight == [];
  }

  /** A failed call leaves the list empty, sets the analysis error, lowers
      the flag and keeps the preview. */
  method FailedAnalysis(data: string)
    requires data != ""
  {
    var s := new Session();
    var ticket := s.FileLoaded(data);
    s.CompleteAnalysis(0, ticket.value, Err(GeminiService.AnalysisFailedMessage));
    assert s.identifications == [] && !s.processing;
    assert s.error == Some(AnalysisErrorMessage) && s.ErrorToastShown();
    assert s.preview == Some(data);
  }

  /** What the canvas's `toDataURL` gives for a video with no picture. */
  const BlankFrame := "data:,"

  /** A scan in the "Camera Not Found" state: the video element is rendered
      without a stream, so the grabbed frame is the blank `data:,`. A call is
      issued, the service rejects that data URL, and the analysis error is
      shown rather than the capture error. */
  method NoCameraScanFails(remote: GeminiService.GenerateRequest -> Option<string>,
                           parse: string -> Option<Json>)
  {
    var s := new Session();
    assert s.CameraNoticeShown() && s.VideoShown();
    var ticket := s.Scan(BlankFrame);
    assert ticket == Some(Ticket(BlankFrame, Normal));
    DataUrl.RejectsOtherTypes(BlankFrame);
    var outcome := GeminiService.AnalyzeImage(ticket.value.image, ticket.value.mode, remote, parse);
    assert outcome == Err(DataUrl.InvalidImageMessage);
    s.CompleteAnalysis(0, ticket.value, outcome);
    assert s.error == Some(AnalysisErrorMessage) && s.ErrorToastShown();
    assert s.CameraNoticeShown() && s.identifications == [];
  }

  /** A file uploaded while a scan is still running: the upload's
      completion lowers the processing flag while the scan's call is still
      in flight, and whichever completion is applied last decides the list.
      When that is the scan, the camera frame's boxes are drawn over the
      uploaded image. */
  method UploadDuringScanLastWins(frame: string, data: string,
                                  first: seq<Json>, second: seq<Json>)
    requires frame != "" && data != ""
  {
    var s := new Session();
    var t1 := s.Scan(frame);
    var t2 := s.FileLoaded(data);
    assert t1.value.image == frame && t2.value.image == data;
    s.CompleteAnalysis(1, t2.value, Ok(second));
    assert !s.processing && s.inFlight == [t1.value];
    s.CompleteAnalysis(0, t1.value, Ok(first));
    assert s.identifications == first && s.preview == Some(data);
  }

  /** A scan keeps the mode it started with: switching to Health before the
      answer arrives does not change the request, and the answer still
      lands in the list although it belongs to the previous mode. */
  method ModeSwitchDuringScan(frame: string, answer: seq<Json>)
    requires frame != ""
  {
    var s := new Session();
    var t := s.Scan(frame);
    s.ChangeMode(Health);
    assert t.value.mode == Normal && s.identifications == [];
    s.CompleteAnalysis(0, t.value, Ok(answer));
    assert s.mode == Health && s.identifications == answer;
  }

  /** A failed re-setup stops the held stream yet keeps it stored, so the
      "Camera Not Found" notice stays hidden; the next reset stops the same
      tracks a second time. */
  method SetupFailureKeepsStoppedStream(cam: Stream)
  {
    var s := new Session();
    s.Mount(Some(cam));
    s.ResetCamera(None);
    assert s.stream == Some(cam);
    assert s.cameraLog == [Request(Environment)] + Stops(cam.tracks) + [Request(Environment)];
    assert !s.CameraNoticeShown() && s.error == Some(CameraErrorMessage);
    s.ResetCamera(None);
    assert s.cameraLog == [Request(Environment)] + Stops(cam.tracks) + [Request(Environment)]
                          + Stops(cam.tracks) + [Request(Environment)];
  }

  /** Two successful setups in a row stop the first stream's tracks exactly
      once, and toggling twice returns to the first facing. */
  method ToggleTwice(a: Stream, b: Stream, c: Stream)
  {
    var s := new Session();
    s.Mount(Some(a));
    s.ToggleCamera(Some(b));
    assert s.facing == User;
    s.ToggleCamera(Some(c));
    assert s.facing == Environment && s.stream == Some(c);
    assert s.cameraLog == [Request(Environment)] + Stops(a.tracks) + [Request(User)]
                          + Stops(b.tracks) + [Request(Environment)];
  }

  /** Clicking a box opens its detail; closing hides it again. */
  method SelectAndClose(data: string, answer: seq<Json>)
    requires data != "" && |answer| > 0
  {
    var s := new Session();
    var t := s.FileLoaded(data);
    s.CompleteAnalysis(0, t.value, Ok(answer));
    s.BoxClick(0);
    assert s.modalOpen && s.selected == Some(answer[0]);
    s.CloseModal();
    assert !s.ModalShown();
  }

  /** After an upload, a successful camera reset stores the new stream and
      hides the "Camera Not Found" notice, but the video element is mounted
      afresh with no source: the stream is never attached and the view stays
      dark. */
  method UploadThenResetLeavesVideoDark(data: string, cam: Stream)
    requires data != ""
  {
    var s := new Session();
    var ticket := s.FileLoaded(data);
    s.CompleteAnalysis(0, ticket.value, Ok([]));
    s.ResetCamera(Some(cam));
    assert s.stream == Some(cam) && s.VideoShown() && !s.CameraNoticeShown();
    assert s.attached.None?;
  }

  /** While an uploaded preview is shown there is no video to grab a frame
      from, so a scan always ends with the capture error. */
  method ScanOverPreviewFails(data: string, frame: string)
    requires data != "" && frame != ""
  {
    var s := new Session();
    var ticket := s.FileLoaded(data);
    s.CompleteAnalysis(0, ticket.value, Ok([]));
    var again := s.Scan(frame);
    assert again.None? && s.error == Some(CaptureErrorMessage) && s.ErrorToastShown();
  }

  /** A file uploaded while a scan is still running, the upload's call
      failing first and the scan's then succeeding: the camera frame's list
      is shown over the uploaded image together with the upload's error
      toast. */
  method ErrorSurvivesLaterSuccess(frame: string, data: string, first: seq<Json>)
    requires frame != "" && data != ""
  {
    var s := new Session();
    var t1 := s.Scan(frame);
    var t2 := s.FileLoaded(data);
    s.CompleteAnalysis(1, t2.value, Err(GeminiService.AnalysisFailedMessage));
    s.CompleteAnalysis(0, t1.value, Ok(first));
    assert s.identifications == first && s.preview == Some(data);
    assert s.error == Some(AnalysisErrorMessage) && s.ErrorToastShown();
  }
}
