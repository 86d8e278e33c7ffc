/**
 * The capture screen: one camera stream drawn into a 16:9 landscape canvas
 * and a 9:16 portrait canvas, each with its own zoom, and either two PNG
 * stills or two parallel WebM recordings taken from those canvases.
 *
 * The screen's state (mode, camera status, zooms, recording flag, elapsed
 * seconds, the two chunk lists and the two recorder slots) is the class
 * CaptureScreen; the browser's media objects are reduced to the values the
 * handlers read from them and hand to them.
 */
module Capture {
  import opened Wrappers
  import opened Text
  import opened Crop
  import opened Zoom

  datatype Mode = Video | Photo

  datatype View = Landscape | Portrait

  function Other(v: View): View
  {
    if v == Landscape then Portrait else Landscape
  }

  /** One piece of encoded media handed over by a recorder's dataavailable event. */
  datatype Blob = Blob(bytes: seq<bv8>)

  /** A recorder as the screen set it up: which canvas it encodes, the MIME type it was given, and whether the microphone track was added. */
  datatype Recorder = Recorder(view: View, mimeType: Option<string>, withAudio: bool)

  /** A file handed to the browser for download. */
  datatype Download = Download(fileName: string, mimeType: string, parts: seq<Blob>)

  /** The encodings tried, most preferred first. */
  const MimeCandidates: seq<string> :=
    ["video/webm;codecs=vp9,opus", "video/webm;codecs=vp8,opus", "video/webm"]

  /** The type a recording is saved under when its recorder reports none. */
  const FallbackVideoType: string := "video/webm"

  const DefaultCameraError: string :=
    "Camera unavailable. Please allow camera/mic permissions and refresh."

  // ---------------------------------------------------------------------
  // Choosing the recording encoding
  // ---------------------------------------------------------------------

  /** Candidate i is supported and no earlier candidate is. */
  predicate IsFirstSupported(candidates: seq<string>, supported: set<string>, i: int)
  {
    && 0 <= i < |candidates|
    && candidates[i] in supported
    && forall j :: 0 <= j < i ==> candidates[j] !in supported
  }

  /** The first candidate the runtime supports, if any. */
  function FirstSupported(candidates: seq<string>, supported: set<string>): (r: Option<string>)
    ensures r.Some? ==> r.value in candidates && r.value in supported
  {
    if candidates == [] then None
    else if candidates[0] in supported then Some(candidates[0])
    else FirstSupported(candidates[1..], supported)
  }

  /**
   * The chosen type is a supported candidate before which every candidate is
   * unsupported; no type is chosen exactly when no candidate is supported.
   */
  lemma {:induction false} FirstSupportedIsFirst(candidates: seq<string>, supported: set<string>)
    ensures var m := FirstSupported(candidates, supported);
      && (m.None? <==> forall i :: 0 <= i < |candidates| ==> candidates[i] !in supported)
      && (m.Some? ==> exists i :: IsFirstSupported(candidates, supported, i) && candidates[i] == m.value)
  {
    if candidates != [] && candidates[0] !in supported {
      var rest := candidates[1..];
      FirstSupportedIsFirst(rest, supported);
      var m := FirstSupported(rest, supported);
      if m.Some? {
        var i :| IsFirstSupported(rest, supported, i) && rest[i] == m.value;
        assert IsFirstSupported(candidates, supported, i + 1);
      } else {
        forall i | 0 <= i < |candidates| ensures candidates[i] !in supported {
          if i > 0 { assert candidates[i] == rest[i - 1]; }
        }
      }
    } else if candidates != [] {
      assert IsFirstSupported(candidates, supported, 0);
    }
  }

  /**
   * The candidate loop of startRecording: walk the list in order and stop at
   * the first type the runtime reports as supported.
   */
  method PickMimeType(candidates: seq<string>, supported: set<string>) returns (mime: Option<string>)
    ensures mime == FirstSupported(candidates, supported)
  {
    mime := None;
    for i := 0 to |candidates|
      invariant mime.None?
      invariant FirstSupported(candidates[i..], supported) == FirstSupported(candidates, supported)
    {
      assert candidates[i..][1..] == candidates[i + 1..];
      if candidates[i] in supported {
        mime := Some(candidates[i]);
        break;
      }
    }
  }

  // ---------------------------------------------------------------------
  // Elapsed time and file names
  // ---------------------------------------------------------------------

  /** formatTime: whole minutes and remaining seconds, each padded to two digits, joined by ':'. */
  function FormatTime(s: nat): (r: string)
    ensures |r| >= 5 && r[|r| - 3] == ':'
  {
    NatToStringWidth(s % 60);
    PadStart(NatToString(s / 60), 2, '0') + ":" + PadStart(NatToString(s % 60), 2, '0')
  }

  /** A count padded to two digits reads back as itself; it takes exactly two digits below 100. */
  lemma PaddedReadsBack(n: nat)
    ensures var t := PadStart(NatToString(n), 2, '0');
      && |t| >= 2 && AllDigits(t) && ParseNat(t) == n
      && (n < 100 <==> |t| == 2)
  {
    NatToStringWidth(n);
    PadStartKeepsValue(NatToString(n), 2);
    ParseNatToString(n);
    if n >= 100 {
      NatToStringAtLeast3(n);
    }
  }

  /**
   * The text before the last three characters is the minutes and the last two
   * the seconds 00..59, so reading both back gives s again; below 100 minutes
   * the text is exactly "mm:ss".
   */
  lemma FormatTimeFields(s: nat)
    ensures var r := FormatTime(s);
      && |r| >= 5 && r[|r| - 3] == ':'
      && AllDigits(r[..|r| - 3]) && AllDigits(r[|r| - 2..])
      && ParseNat(r[..|r| - 3]) == s / 60
      && ParseNat(r[|r| - 2..]) == s % 60 < 60
      && (s < 6000 <==> |r| == 5)
  {
    PaddedReadsBack(s / 60);
    PaddedReadsBack(s % 60);
    SplitAtColon(PadStart(NatToString(s / 60), 2, '0'), PadStart(NatToString(s % 60), 2, '0'));
  }

  /** "mm:ss" splits back into mm and ss at its third-last character. */
  lemma SplitAtColon(mm: string, ss: string)
    requires |ss| == 2
    ensures var r := mm + ":" + ss;
      && |r| == |mm| + 3 && r[|r| - 3] == ':' && r[..|r| - 3] == mm && r[|r| - 2..] == ss
  {
    var r := mm + ":" + ss;
    assert r[..|r| - 3] == mm;
    assert r[|r| - 2..] == ss;
  }

  /** Numbers from 100 on take at least three digits. */
  lemma {:induction false} NatToStringAtLeast3(n: nat)
    requires n >= 100
    ensures |NatToString(n)| >= 3
  {
    NatToStringWidth(n / 10);
  }

  /** Reads a shown time back as seconds: minutes, ':', two-digit seconds; -1 for any other text. */
  function ReadTime(r: string): int
  {
    if |r| >= 5 && r[|r| - 3] == ':' && AllDigits(r[..|r| - 3]) && AllDigits(r[|r| - 2..])
    then ParseNat(r[..|r| - 3]) * 60 + ParseNat(r[|r| - 2..])
    else -1
  }

  /** Reading the shown time back gives the elapsed seconds. */
  lemma FormatTimeRoundTrip(s: nat)
    ensures ReadTime(FormatTime(s)) == s
  {
    FormatTimeFields(s);
  }

  /** Two different durations never show the same text. */
  lemma FormatTimeInjective(a: nat, b: nat)
    requires FormatTime(a) == FormatTime(b)
    ensures a == b
  {
    FormatTimeRoundTrip(a);
    FormatTimeRoundTrip(b);
  }

  function ViewName(v: View): string
  {
    match v
    case Landscape => "Landscape"
    case Portrait => "Portrait"
  }

  /** FlipCastDuo_<Landscape|Portrait>_<Date.now()>.<ext> */
  function FileName(v: View, now: nat, ext: string): string
  {
    "FlipCastDuo_" + ViewName(v) + "_" + NatToString(now) + "." + ext
  }

  /** Every download name starts with "FlipCastDuo_" and ends with "." and the extension. */
  lemma FileNameShape(v: View, now: nat, ext: string)
    ensures var r := FileName(v, now, ext);
      && |r| > 12 && r[..12] == "FlipCastDuo_"
      && |r| > |ext| && r[|r| - |ext| - 1..] == "." + ext
  {
  }

  /** A landscape file and a portrait file never share a name, whatever their timestamps. */
  lemma FileNamesDistinct(t1: nat, t2: nat, e1: string, e2: string)
    ensures FileName(Landscape, t1, e1) != FileName(Portrait, t2, e2)
  {
    assert FileName(Landscape, t1, e1)[12] == 'L';
    assert FileName(Portrait, t2, e2)[12] == 'P';
  }

  /** Files of one view and extension that are named alike were named at the same millisecond. */
  lemma FileNameInjective(v: View, t1: nat, t2: nat, ext: string)
    requires FileName(v, t1, ext) == FileName(v, t2, ext)
    ensures t1 == t2
  {
    var head := "FlipCastDuo_" + ViewName(v) + "_";
    var tail := "." + ext;
    var n1, n2 := FileName(v, t1, ext), FileName(v, t2, ext);
    assert n1 == head + NatToString(t1) + tail;
    assert n2 == head + NatToString(t2) + tail;
    assert |NatToString(t1)| == |NatToString(t2)|;
    assert NatToString(t1) == n1[|head|..|n1| - |tail|];
    assert NatToString(t2) == n2[|head|..|n2| - |tail|];
    ParseNatToString(t1);
    ParseNatToString(t2);
  }

  // ---------------------------------------------------------------------
  // What the render loop draws
  // ---------------------------------------------------------------------

  /**
   * The two crops one tick of the render loop would draw for a vw x vh camera
   * frame if it used the zooms the screen currently holds.
   */
  function FrameCrops(vw: nat, vh: nat, landscapeZoom: int, portraitZoom: int): (r: (Option<Rect>, Option<Rect>))
    ensures r.0.None? <==> vw == 0 || vh == 0
    ensures r.1.None? <==> vw == 0 || vh == 0
  {
    (CoverCrop(vw, vh, LandscapeW, LandscapeH, Zoom.ToReal(landscapeZoom)),
     CoverCrop(vw, vh, PortraitW, PortraitH, Zoom.ToReal(portraitZoom)))
  }

  /**
   * The two crops the render loop draws as the screen is written: its draw
   * callback is created once, when the camera starts, and keeps the zoom
   * values of the screen's first render, whatever the zooms are now.
   */
  function FrameCropsAsWritten(vw: nat, vh: nat, landscapeZoom: int, portraitZoom: int): (r: (Option<Rect>, Option<Rect>))
    ensures vw > 0 && vh > 0 ==>
      && r.0.Some? && r.1.Some?
      && r.0.value.w == BaseCrop(vw as real, vh as real, LandscapeW as real, LandscapeH as real).0
      && r.1.value.w * 1.4 == BaseCrop(vw as real, vh as real, PortraitW as real, PortraitH as real).0
  {
    if vw > 0 && vh > 0 then
      FrameCropsAsWrittenZooms(vw, vh);
      FrameCrops(vw, vh, InitialLandscape, InitialPortrait)
    else
      FrameCrops(vw, vh, InitialLandscape, InitialPortrait)
  }

  /** The stale zooms 1.0 and 1.4 leave the landscape crop whole and shrink the portrait one by 1.4. */
  lemma FrameCropsAsWrittenZooms(vw: nat, vh: nat)
    requires vw > 0 && vh > 0
    ensures FrameCrops(vw, vh, InitialLandscape, InitialPortrait).0.value.w
      == BaseCrop(vw as real, vh as real, LandscapeW as real, LandscapeH as real).0
    ensures FrameCrops(vw, vh, InitialLandscape, InitialPortrait).1.value.w * 1.4
      == BaseCrop(vw as real, vh as real, PortraitW as real, PortraitH as real).0
  {
    assert Zoom.ToReal(InitialLandscape) == 1.0;
    assert Zoom.ToReal(InitialPortrait) == 1.4;
    CoverCropInsideFrame(vw, vh, LandscapeW, LandscapeH, 1.0);
    CoverCropInsideFrame(vw, vh, PortraitW, PortraitH, 1.4);
  }

  /**
   * As written, one click on the landscape zoom button (label 1.1x) leaves a
   * 1920 x 1080 camera frame drawn uncropped, not at 1.1x.
   */
  lemma StaleZoomCounterexample()
    ensures var shown := ButtonStep(InitialLandscape);
      && shown == 11
      && FrameCropsAsWritten(1920, 1080, shown, InitialPortrait).0
         != FrameCrops(1920, 1080, shown, InitialPortrait).0
  {
    ButtonStepExact(InitialLandscape);
    var drawn := FrameCropsAsWritten(1920, 1080, 11, InitialPortrait).0.value;
    var wanted := FrameCrops(1920, 1080, 11, InitialPortrait).0.value;
    assert drawn.w == 1920.0;
    assert wanted.w == 1920.0 / 1.1;
  }

  /**
   * With the current zooms, each drawn crop is the unzoomed cover crop
   * divided by exactly the zoom the view shows, inside the frame, centred,
   * landscape 16:9 and portrait 9:16.
   */
  lemma FrameCropsFollowZoom(vw: nat, vh: nat, landscapeZoom: int, portraitZoom: int)
    requires vw > 0 && vh > 0 && Zoom.InRange(landscapeZoom) && Zoom.InRange(portraitZoom)
    ensures var (l, p) := FrameCrops(vw, vh, landscapeZoom, portraitZoom);
      && l.Some? && p.Some?
      && ZoomedCentredCrop(l.value, vw as real, vh as real, LandscapeW as real, LandscapeH as real,
           BaseCrop(vw as real, vh as real, LandscapeW as real, LandscapeH as real).0,
           BaseCrop(vw as real, vh as real, LandscapeW as real, LandscapeH as real).1,
           Zoom.ToReal(landscapeZoom))
      && ZoomedCentredCrop(p.value, vw as real, vh as real, PortraitW as real, PortraitH as real,
           BaseCrop(vw as real, vh as real, PortraitW as real, PortraitH as real).0,
           BaseCrop(vw as real, vh as real, PortraitW as real, PortraitH as real).1,
           Zoom.ToReal(portraitZoom))
  {
    assert Clamp(Zoom.ToReal(landscapeZoom), MinZoom, MaxZoom) == Zoom.ToReal(landscapeZoom);
    assert Clamp(Zoom.ToReal(portraitZoom), MinZoom, MaxZoom) == Zoom.ToReal(portraitZoom);
    CoverCropInsideFrame(vw, vh, LandscapeW, LandscapeH, Zoom.ToReal(landscapeZoom));
    CoverCropInsideFrame(vw, vh, PortraitW, PortraitH, Zoom.ToReal(portraitZoom));
  }

  // ---------------------------------------------------------------------
  // The screen's state and handlers
  // ---------------------------------------------------------------------

  /** The two recorders were opened together: one per view, same encoding, same audio. */
  predicate RecordersPaired(l: Recorder, p: Recorder)
  {
    l.view == Landscape && p.view == Portrait && l.mimeType == p.mimeType && l.withAudio == p.withAudio
  }

  class CaptureScreen {
    var mode: Mode
    var hasCamera: bool
    var cameraError: Option<string>
    /** The camera stream carries a microphone track. */
    var hasAudio: bool
    /** Both output canvases are attached to the page. */
    const canvasesMounted: bool
    /** Zooms in tenths: 10 is 1.0x, 30 is 3.0x. */
    var landscapeZoom: int
    var portraitZoom: int
    var isRecording: bool
    var recordSeconds: nat
    var chunksLandscape: seq<Blob>
    var chunksPortrait: seq<Blob>
    var recLandscape: Option<Recorder>
    var recPortrait: Option<Recorder>
    /** The one-second interval timer is scheduled. */
    var timerRunning: bool

    /**
     * Both zooms lie in [1.0, 3.0]; a recording is in progress exactly when
     * both recorder slots are filled and the timer runs, and then the two
     * recorders form a pair.
     */
    ghost predicate Valid()
      reads this
    {
      && Zoom.InRange(landscapeZoom) && Zoom.InRange(portraitZoom)
      && (isRecording <==> recLandscape.Some?)
      && (isRecording <==> recPortrait.Some?)
      && (isRecording <==> timerRunning)
      && (isRecording ==> RecordersPaired(recLandscape.value, recPortrait.value))
    }

    function ZoomOf(v: View): int
      reads this
    {
      if v == Landscape then landscapeZoom else portraitZoom
    }

    function ChunksOf(v: View): seq<Blob>
      reads this
    {
      if v == Landscape then chunksLandscape else chunksPortrait
    }

    twostate predicate SameModeAndCamera()
      reads this
    {
      mode == old(mode) && hasCamera == old(hasCamera) && cameraError == old(cameraError)
      && hasAudio == old(hasAudio)
    }

    twostate predicate SameZoom()
      reads this
    {
      landscapeZoom == old(landscapeZoom) && portraitZoom == old(portraitZoom)
    }

    twostate predicate SameRecording()
      reads this
    {
      && isRecording == old(isRecording) && recordSeconds == old(recordSeconds)
      && chunksLandscape == old(chunksLandscape) && chunksPortrait == old(chunksPortrait)
      && recLandscape == old(recLandscape) && recPortrait == old(recPortrait)
      && timerRunning == old(timerRunning)
    }

    /**
     * What startRecording leaves behind: both chunk lists emptied, two paired
     * recorders with the first supported encoding (and the microphone track
     * when the stream has one), recording on, timer at 0 and running.
     */
    twostate predicate StartedRecording(supported: set<string>)
      reads this
    {
      && chunksLandscape == [] && chunksPortrait == []
      && recLandscape == Some(Recorder(Landscape, FirstSupported(MimeCandidates, supported), old(hasAudio)))
      && recPortrait == Some(Recorder(Portrait, FirstSupported(MimeCandidates, supported), old(hasAudio)))
      && isRecording && recordSeconds == 0 && timerRunning
      && SameModeAndCamera() && SameZoom()
    }

    /**
     * What stopRecording leaves behind: both recorder slots empty, recording
     * off, timer cleared; the chunks and the elapsed seconds are kept.
     */
    twostate predicate StoppedRecording()
      reads this
    {
      && recLandscape.None? && recPortrait.None? && !isRecording && !timerRunning
      && chunksLandscape == old(chunksLandscape) && chunksPortrait == old(chunksPortrait)
      && recordSeconds == old(recordSeconds)
      && SameModeAndCamera() && SameZoom()
    }

    /** The screen as first rendered: video mode, no camera yet, zooms 1.0x and 1.4x, not recording. */
    constructor (canvasesMounted: bool)
      ensures Valid() && this.canvasesMounted == canvasesMounted
      ensures mode == Video && !hasCamera && cameraError.None? && !hasAudio
      ensures landscapeZoom == InitialLandscape && portraitZoom == InitialPortrait
      ensures !isRecording && recordSeconds == 0 && !timerRunning
      ensures chunksLandscape == [] && chunksPortrait == []
      ensures recLandscape.None? && recPortrait.None?
    {
      this.canvasesMounted := canvasesMounted;
      mode := Video;
      hasCamera, cameraError, hasAudio := false, None, false;
      landscapeZoom, portraitZoom := InitialLandscape, InitialPortrait;
      isRecording, recordSeconds, timerRunning := false, 0, false;
      chunksLandscape, chunksPortrait := [], [];
      recLandscape, recPortrait := None, None;
    }

    /** The camera request succeeded: the camera is available and any error is cleared. */
    method CameraStarted(withAudio: bool)
      requires Valid()
      modifies this
      ensures Valid()
      ensures hasCamera && cameraError.None? && hasAudio == withAudio
      ensures mode == old(mode) && SameZoom() && SameRecording()
    {
      hasCamera, cameraError, hasAudio := true, None, withAudio;
    }

    /** The camera request failed: no camera, and the error's message or a default notice. */
    method CameraFailed(message: string)
      requires Valid()
      modifies this
      ensures Valid()
      ensures !hasCamera
      ensures cameraError == Some(if message == "" then DefaultCameraError else message)
      ensures mode == old(mode) && hasAudio == old(hasAudio) && SameZoom() && SameRecording()
    {
      hasCamera := false;
      cameraError := Some(if message == "" then DefaultCameraError else message);
    }

    /** The VIDEO and PHOTO buttons switch mode at any time, recording or not. */
    method SetMode(m: Mode)
      requires Valid()
      modifies this
      ensures Valid()
      ensures mode == m
      ensures hasCamera == old(hasCamera) && cameraError == old(cameraError) && hasAudio == old(hasAudio)
      ensures SameZoom() && SameRecording()
    {
      mode := m;
    }

    /** A wheel event over one view's frame. */
    method Wheel(v: View, deltaY: real)
      requires Valid()
      modifies this
      ensures Valid()
      ensures ZoomOf(v) == WheelStep(old(ZoomOf(v)), deltaY)
      ensures ZoomOf(Other(v)) == old(ZoomOf(Other(v)))
      ensures SameModeAndCamera() && SameRecording()
    {
      WheelStepExact(ZoomOf(v), deltaY);
      if v == Landscape {
        landscapeZoom := WheelStep(landscapeZoom, deltaY);
      } else {
        portraitZoom := WheelStep(portraitZoom, deltaY);
      }
    }

    /** A click on one view's zoom label button. */
    method ZoomButton(v: View)
      requires Valid()
      modifies this
      ensures Valid()
      ensures ZoomOf(v) == ButtonStep(old(ZoomOf(v)))
      ensures ZoomOf(Other(v)) == old(ZoomOf(Other(v)))
      ensures SameModeAndCamera() && SameRecording()
    {
      ButtonStepExact(ZoomOf(v));
      if v == Landscape {
        landscapeZoom := ButtonStep(landscapeZoom);
      } else {
        portraitZoom := ButtonStep(portraitZoom);
      }
    }

    /** A double click on one view's frame. */
    method ZoomPreset(v: View)
      requires Valid()
      modifies this
      ensures Valid()
      ensures ZoomOf(v) == PresetNext(old(ZoomOf(v)))
      ensures ZoomOf(Other(v)) == old(ZoomOf(Other(v)))
      ensures SameModeAndCamera() && SameRecording()
    {
      PresetCycle(ZoomOf(v));
      if v == Landscape {
        landscapeZoom := PresetNext(landscapeZoom);
      } else {
        portraitZoom := PresetNext(portraitZoom);
      }
    }

    /**
     * One tick of the render loop as written: the crops drawn into the two
     * canvases for a vw x vh frame, at the first render's 1.0x and 1.4x
     * whatever zooms the screen now holds and shows.
     */
    method RenderTick(vw: nat, vh: nat) returns (l: Option<Rect>, p: Option<Rect>)
      ensures (l, p) == FrameCropsAsWritten(vw, vh, landscapeZoom, portraitZoom)
    {
      l := CoverCrop(vw, vh, LandscapeW, LandscapeH, Zoom.ToReal(InitialLandscape));
      p := CoverCrop(vw, vh, PortraitW, PortraitH, Zoom.ToReal(InitialPortrait));
    }

    /** The corrected tick: the crops drawn with the zooms the screen currently holds and shows. */
    method RenderTickFollowingZoom(vw: nat, vh: nat) returns (l: Option<Rect>, p: Option<Rect>)
      ensures (l, p) == FrameCrops(vw, vh, landscapeZoom, portraitZoom)
    {
      l := CoverCrop(vw, vh, LandscapeW, LandscapeH, Zoom.ToReal(landscapeZoom));
      p := CoverCrop(vw, vh, PortraitW, PortraitH, Zoom.ToReal(portraitZoom));
    }

    /** startRecording, given the set of types the runtime's recorder supports. */
    method StartRecording(supported: set<string>)
      requires Valid()
      modifies this
      ensures Valid()
      ensures !canvasesMounted ==> unchanged(this)
      ensures canvasesMounted ==> StartedRecording(supported)
    {
      if canvasesMounted {
        var mime := PickMimeType(MimeCandidates, supported);
        chunksLandscape, chunksPortrait := [], [];
        recLandscape, recPortrait := Some(Recorder(Landscape, mime, hasAudio)), Some(Recorder(Portrait, mime, hasAudio));
        isRecording, recordSeconds, timerRunning := true, 0, true;
      }
    }

    /** stopRecording: returns the recorders that were told to stop, landscape first. */
    method StopRecording() returns (stopping: seq<Recorder>)
      requires Valid()
      modifies this
      ensures Valid()
      ensures StoppedRecording()
      ensures stopping == (if old(recLandscape).Some? then [old(recLandscape).value] else [])
                        + (if old(recPortrait).Some? then [old(recPortrait).value] else [])
    {
      stopping := [];
      if recLandscape.Some? { stopping := stopping + [recLandscape.value]; }
      if recPortrait.Some? { stopping := stopping + [recPortrait.value]; }
      recLandscape, recPortrait := None, None;
      isRecording := false;
      timerRunning := false;
    }

    /**
     * The record button: ignored outside video mode or without a camera,
     * otherwise starts a recording when none runs and stops the running one.
     */
    method OnRecord(supported: set<string>) returns (stopping: seq<Recorder>)
      requires Valid()
      modifies this
      ensures Valid()
      ensures old(mode) != Video || !old(hasCamera) ==> unchanged(this) && stopping == []
      ensures old(mode) == Video && old(hasCamera) && !old(isRecording) ==>
        stopping == [] && (if canvasesMounted then StartedRecording(supported) else unchanged(this))
      ensures old(mode) == Video && old(hasCamera) && old(isRecording) ==>
        StoppedRecording() && stopping == [old(recLandscape).value, old(recPortrait).value]
    {
      stopping := [];
      if mode != Video { return; }
      if !hasCamera { return; }
      if !isRecording {
        StartRecording(supported);
      } else {
        stopping := StopRecording();
      }
    }

    /**
     * The CAPTURE button: ignored without a camera; in photo mode it asks
     * both canvases for a PNG (named with the time each one is produced) and
     * changes nothing; in video mode it acts as the record button.
     */
    method OnCapture(supported: set<string>, nowLandscape: nat, nowPortrait: nat)
      returns (stills: seq<string>, stopping: seq<Recorder>)
      requires Valid()
      modifies this
      ensures Valid()
      ensures !old(hasCamera) ==> unchanged(this) && stills == [] && stopping == []
      ensures old(hasCamera) && old(mode) == Photo ==>
        && unchanged(this) && stopping == []
        && stills == (if canvasesMounted
                      then [FileName(Landscape, nowLandscape, "png"), FileName(Portrait, nowPortrait, "png")]
                      else [])
      ensures old(hasCamera) && old(mode) == Video && !old(isRecording) ==>
        stills == [] && stopping == [] && (if canvasesMounted then StartedRecording(supported) else unchanged(this))
      ensures old(hasCamera) && old(mode) == Video && old(isRecording) ==>
        stills == [] && StoppedRecording() && stopping == [old(recLandscape).value, old(recPortrait).value]
    {
      stills, stopping := [], [];
      if !hasCamera { return; }
      if mode == Photo {
        if canvasesMounted {
          stills := [FileName(Landscape, nowLandscape, "png"), FileName(Portrait, nowPortrait, "png")];
        }
      } else {
        stopping := OnRecord(supported);
      }
    }

    /** A recorder's dataavailable event: a non-empty chunk joins that view's list, and only that list. */
    method OnData(v: View, data: Option<Blob>)
      requires Valid()
      modifies this
      ensures Valid()
      ensures ChunksOf(v) == if data.Some? && |data.value.bytes| > 0
                             then old(ChunksOf(v)) + [data.value] else old(ChunksOf(v))
      ensures ChunksOf(Other(v)) == old(ChunksOf(Other(v)))
      ensures SameModeAndCamera() && SameZoom()
      ensures isRecording == old(isRecording) && recordSeconds == old(recordSeconds)
      ensures recLandscape == old(recLandscape) && recPortrait == old(recPortrait)
      ensures timerRunning == old(timerRunning)
    {
      if data.Some? && |data.value.bytes| > 0 {
        if v == Landscape {
          chunksLandscape := chunksLandscape + [data.value];
        } else {
          chunksPortrait := chunksPortrait + [data.value];
        }
      }
    }

    /** One firing of the one-second timer: the elapsed seconds go up by one while it runs. */
    method Tick()
      requires Valid()
      modifies this
      ensures Valid()
      ensures recordSeconds == if old(timerRunning) then old(recordSeconds) + 1 else old(recordSeconds)
      ensures SameModeAndCamera() && SameZoom()
      ensures isRecording == old(isRecording) && timerRunning == old(timerRunning)
      ensures chunksLandscape == old(chunksLandscape) && chunksPortrait == old(chunksPortrait)
      ensures recLandscape == old(recLandscape) && recPortrait == old(recPortrait)
    {
      if timerRunning {
        recordSeconds := recordSeconds + 1;
      }
    }

    /**
     * A recorder's stop event: the file offered for download holds every
     * chunk gathered so far for that recorder's view, in order, under the
     * recorder's type (or video/webm when it has none), named after the view.
     */
    method OnRecorderStop(rec: Recorder, now: nat) returns (d: Download)
      ensures d.parts == ChunksOf(rec.view)
      ensures d.mimeType == if rec.mimeType.Some? && rec.mimeType.value != ""
                            then rec.mimeType.value else FallbackVideoType
      ensures d.fileName == FileName(rec.view, now, "webm")
    {
      var parts := if rec.view == Landscape then chunksLandscape else chunksPortrait;
      var t := if rec.mimeType.Some? && rec.mimeType.value != "" then rec.mimeType.value else FallbackVideoType;
      d := Download(FileName(rec.view, now, "webm"), t, parts);
    }
  }

  // ---------------------------------------------------------------------
  // Sequences of handler calls
  // ---------------------------------------------------------------------

  /** Two seconds are shown as 00:02. */
  lemma TwoSecondsShown()
    ensures FormatTime(2) == "00:02"
  {
    assert 2 / 60 == 0 && 2 % 60 == 2;
    PaddedDigit(0);
    PaddedDigit(2);
    assert FormatTime(2) == PadStart(NatToString(0), 2, '0') + ":" + PadStart(NatToString(2), 2, '0');
  }

  /** A single digit is padded with one zero. */
  lemma PaddedDigit(d: nat)
    requires d < 10
    ensures PadStart(NatToString(d), 2, '0') == ['0', DigitChar(d)]
  {
    assert NatToString(d) == [DigitChar(d)];
    assert seq(1, _ => '0') == ['0'];
  }

  /**
   * Camera on, record, one landscape chunk, one portrait chunk, two timer
   * ticks, record again: the recording stops, both recorders are handed back
   * paired, each list holds only its own chunk, and the elapsed time reads
   * 00:02.
   */
  method RecordThenStop(supported: set<string>, a: Blob, b: Blob)
    returns (recording: bool, shown: string, stopped: seq<Recorder>, landscape: seq<Blob>, portrait: seq<Blob>)
    requires |a.bytes| > 0 && |b.bytes| > 0
    ensures !recording && shown == "00:02"
    ensures |stopped| == 2 && RecordersPaired(stopped[0], stopped[1])
    ensures stopped[0].mimeType == FirstSupported(MimeCandidates, supported)
    ensures landscape == [a] && portrait == [b]
  {
    var screen := new CaptureScreen(true);
    screen.CameraStarted(true);
    stopped := screen.OnRecord(supported);
    ghost var mime := FirstSupported(MimeCandidates, supported);
    assert screen.recLandscape == Some(Recorder(Landscape, mime, true));
    assert screen.recPortrait == Some(Recorder(Portrait, mime, true));
    assert screen.isRecording && screen.recordSeconds == 0;
    assert screen.chunksLandscape == [] && screen.chunksPortrait == [];
    screen.OnData(Landscape, Some(a));
    screen.OnData(Portrait, Some(b));
    assert screen.chunksLandscape == [a] && screen.chunksPortrait == [b];
    screen.Tick();
    screen.Tick();
    assert screen.recordSeconds == 2;
    TwoSecondsShown();
    shown := FormatTime(screen.recordSeconds);
    stopped := screen.OnRecord(supported);
    recording := screen.isRecording;
    landscape, portrait := screen.chunksLandscape, screen.chunksPortrait;
  }

  /**
   * Switching to photo mode while recording does not stop the recording,
   * the record button is then ignored, and CAPTURE takes two stills while the
   * recording goes on.
   */
  method SwitchModeWhileRecording(supported: set<string>, t1: nat, t2: nat)
    returns (recording: bool, stills: seq<string>)
    ensures recording
    ensures stills == [FileName(Landscape, t1, "png"), FileName(Portrait, t2, "png")]
  {
    var screen := new CaptureScreen(true);
    screen.CameraStarted(true);
    var stopping := screen.OnRecord(supported);
    screen.SetMode(Photo);
    stopping := screen.OnRecord(supported);
    stills, stopping := screen.OnCapture(supported, t1, t2);
    recording := screen.isRecording;
  }

  /** Without a camera neither button does anything, in either mode. */
  method NoCameraIgnoresButtons(supported: set<string>, m: Mode, t: nat)
    returns (recording: bool, stills: seq<string>)
    ensures !recording && stills == []
  {
    var screen := new CaptureScreen(true);
    screen.CameraFailed("");
    screen.SetMode(m);
    var stopping := screen.OnRecord(supported);
    stills, stopping := screen.OnCapture(supported, t, t);
    recording := screen.isRecording;
  }
}
