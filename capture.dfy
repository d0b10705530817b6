/** The capture loop of the calibration program: opening the source, then one
    step per frame that gates acceptance of detected views, reacts to keys and
    triggers calibration attempts. */
module Capture {
  import opened Wrappers
  import opened Pattern
  import opened Args
  import opened Record

  /** The image points detected in one accepted frame. */
  type View = seq<Point2>

  datatype Mode = Detection | Capturing | Calibrated

  /** How the loop starts: its mode, the image list read, whether a capture
      is open (a camera or a video file: `capture.isOpened()`), and the number
      of views to collect. */
  datatype Startup = Startup(mode: Mode, imageList: seq<string>, captureOpen: bool, nframes: int)

  /** The image list named on the command line, when it is read as one. */
  function ListedImages(o: Options, storageOf: string -> Storage): Option<seq<string>> {
    if o.inputFilename.Some? && !o.videofile
       && storageOf(o.inputFilename.value).Document?
       && storageOf(o.inputFilename.value).firstTopLevel.SeqNode?
    then Some(storageOf(o.inputFilename.value).firstTopLevel.items)
    else None
  }

  /** Opens the input: an image list when the input file reads as one (and is
      not declared a video file), otherwise a capture on the file or the
      camera id. Fails with -2 when no capture opened and no image is listed. */
  method OpenSource(o: Options, storageOf: string -> Storage, openFile: string -> bool, openCamera: int -> bool)
    returns (r: Result<Startup, int>)
    ensures var listed := ListedImages(o, storageOf);
      var captureOpen := if listed.Some? then false
                  else if o.inputFilename.Some? then openFile(o.inputFilename.value)
                  else openCamera(o.cameraId);
      var images := if listed.Some? then listed.value else [];
      && (r.Failure? <==> !captureOpen && images == [])
      && (r.Failure? ==> r.error == -2)
      && (r.Success? ==>
            && r.value.mode == (if listed.Some? then Capturing else Detection)
            && r.value.imageList == images
            && r.value.captureOpen == captureOpen
            && r.value.nframes == (if images != [] then |images| else o.nframes))
  {
    var mode := Detection;
    var imageList: seq<string> := [];
    var isOpened := false;
    if o.inputFilename.Some? {
      var listed := false;
      if !o.videofile {
        listed, imageList := ReadStringList(storageOf(o.inputFilename.value));
      }
      if listed {
        mode := Capturing;
      } else {
        isOpened := openFile(o.inputFilename.value);
      }
    } else {
      isOpened := openCamera(o.cameraId);
    }
    if !isOpened && imageList == [] {
      return Failure(-2);
    }
    var nframes := o.nframes;
    if imageList != [] {
      nframes := |imageList|;
    }
    return Success(Startup(mode, imageList, isOpened, nframes));
  }

  /** What the loop fixes before it starts. `captureOpen` says whether the
      frames come from an open capture (a camera or a video file) rather than
      an image list; `nframes` is the target count of views; `delay` the
      minimum spacing of views accepted from an open capture, in the unit of
      the event clock. */
  datatype Config = Config(captureOpen: bool, delay: int, nframes: nat)

  datatype State = State(
    mode: Mode,
    imagePoints: seq<View>,
    prevTimestamp: int,
    undistortImage: bool,
    imageSize: Size,
    running: bool)

  /** One frame: none (source exhausted or read failed), or a frame of a
      size, with the outcome of pattern detection. */
  datatype Frame = NoFrame | Frame(size: Size, found: bool, points: View)

  /** One loop iteration's input: the frame, the clock value and the raw
      value `waitKey` returned. */
  datatype Event = Event(frame: Frame, now: int, pressed: int)

  /** A calibration attempt on the buffered views and the last image size,
      with the `ok` it returned. */
  datatype Attempt = NoAttempt | Attempt(views: seq<View>, imageSize: Size, ok: bool)

  /** The calibration run on a set of views: `true` when it succeeded. */
  type Calibrator = (seq<View>, Size) -> bool

  const ESC: int := 27

  /** `0xff & waitKey(...)`: the low byte in two's complement. */
  function KeyCode(pressed: int): (k: int)
    ensures 0 <= k < 256
    ensures (pressed - k) % 256 == 0
  {
    pressed % 256
  }

  /** The acceptance gate for a detected view. */
  predicate Admits(cfg: Config, s: State, found: bool, now: int) {
    s.mode == Capturing && found && (!cfg.captureOpen || now - s.prevTimestamp > cfg.delay)
  }

  /** One iteration of the loop. */
  function Next(cfg: Config, s: State, ev: Event, calibrate: Calibrator): (State, Attempt) {
    match ev.frame
    case NoFrame =>
      if |s.imagePoints| > 0 then
        (s.(running := false), Attempt(s.imagePoints, s.imageSize, calibrate(s.imagePoints, s.imageSize)))
      else (s.(running := false), NoAttempt)
    case Frame(size, found, points) =>
      var s1 := s.(imageSize := size);
      var s2 := if Admits(cfg, s1, found, ev.now)
                then s1.(imagePoints := s1.imagePoints + [points], prevTimestamp := ev.now)
                else s1;
      var key := KeyCode(ev.pressed);
      if key == ESC then (s2.(running := false), NoAttempt)
      else
        var s3 := if key == 'u' as int && s2.mode == Calibrated
                  then s2.(undistortImage := !s2.undistortImage) else s2;
        var s4 := if cfg.captureOpen && key == 'g' as int
                  then s3.(mode := Capturing, imagePoints := []) else s3;
        if s4.mode == Capturing && |s4.imagePoints| >= cfg.nframes then
          var ok := calibrate(s4.imagePoints, s4.imageSize);
          var s5 := s4.(mode := if ok then Calibrated else Detection);
          (if cfg.captureOpen then s5 else s5.(running := false), Attempt(s4.imagePoints, s4.imageSize, ok))
        else (s4, NoAttempt)
  }

  function AttemptsOf(a: Attempt): seq<Attempt> {
    if a.Attempt? then [a] else []
  }

  /** The loop over a sequence of events, until it stops; the final state and
      the attempts made, in order. */
  function Run(cfg: Config, s: State, evs: seq<Event>, calibrate: Calibrator): (State, seq<Attempt>)
    decreases |evs|
  {
    if evs == [] || !s.running then (s, [])
    else
      var (s', a) := Next(cfg, s, evs[0], calibrate);
      var (t, rest) := Run(cfg, s', evs[1..], calibrate);
      (t, AttemptsOf(a) + rest)
  }

  /** A view is appended, and the acceptance clock reset, exactly when the
      gate admits it; except under the restart key, a frame changes the buffer
      by that one view or not at all. */
  lemma AcceptanceGate(cfg: Config, s: State, ev: Event, calibrate: Calibrator)
    requires ev.frame.Frame?
    ensures var (s', _) := Next(cfg, s, ev, calibrate);
      var admitted := Admits(cfg, s, ev.frame.found, ev.now);
      && s'.prevTimestamp == (if admitted then ev.now else s.prevTimestamp)
      && s'.imageSize == ev.frame.size
      && (!(cfg.captureOpen && KeyCode(ev.pressed) == 'g' as int) ==>
            s'.imagePoints == if admitted then s.imagePoints + [ev.frame.points] else s.imagePoints)
  {
  }

  /** On an open capture, 'g' restarts capturing with an empty buffer. */
  lemma RestartKey(cfg: Config, s: State, ev: Event, calibrate: Calibrator)
    requires cfg.nframes >= 1 && cfg.captureOpen && ev.frame.Frame? && KeyCode(ev.pressed) == 'g' as int
    ensures var (s', a) := Next(cfg, s, ev, calibrate);
      s'.mode == Capturing && s'.imagePoints == [] && a == NoAttempt && s'.running == s.running
  {
  }

  /** An attempt during a frame happens only in capture mode with the target
      reached; it sets the mode by its outcome, keeps the buffer, and ends the loop
      over an image list. Conversely, in capture mode, without ESC or a
      restart, a buffer that reaches the target with this frame's view (if
      admitted) triggers an attempt on exactly that buffer. */
  lemma TargetReached(cfg: Config, s: State, ev: Event, calibrate: Calibrator)
    requires ev.frame.Frame?
    ensures var (s', a) := Next(cfg, s, ev, calibrate);
      a.Attempt? ==>
        && |a.views| >= cfg.nframes
        && a.ok == calibrate(a.views, a.imageSize)
        && s'.mode == (if a.ok then Calibrated else Detection)
        && s'.imagePoints == a.views
        && s'.running == (cfg.captureOpen && s.running)
    ensures var (s', a) := Next(cfg, s, ev, calibrate);
      var key := KeyCode(ev.pressed);
      var buffer := if Admits(cfg, s, ev.frame.found, ev.now)
                    then s.imagePoints + [ev.frame.points] else s.imagePoints;
      (s.mode == Capturing && key != ESC && !(cfg.captureOpen && key == 'g' as int)
       && |buffer| >= cfg.nframes) ==>
        a == Attempt(buffer, ev.frame.size, calibrate(buffer, ev.frame.size))
  {
  }

  /** The source running dry stops the loop, with one last attempt exactly
      when some view was accepted; the buffer and the mode stay as they are. */
  lemma SourceExhausted(cfg: Config, s: State, ev: Event, calibrate: Calibrator)
    requires ev.frame.NoFrame?
    ensures var (s', a) := Next(cfg, s, ev, calibrate);
      && !s'.running
      && (a.Attempt? <==> |s.imagePoints| > 0)
      && (a.Attempt? ==> a.views == s.imagePoints && a.imageSize == s.imageSize)
      && s'.imagePoints == s.imagePoints && s'.mode == s.mode
  {
  }

  /** ESC ends the loop without an attempt, after the frame's view, if the
      gate admits it, is buffered. */
  lemma EscapeStops(cfg: Config, s: State, ev: Event, calibrate: Calibrator)
    requires ev.frame.Frame? && KeyCode(ev.pressed) == ESC
    ensures var (s', a) := Next(cfg, s, ev, calibrate);
      && !s'.running && a == NoAttempt && s'.mode == s.mode && s'.undistortImage == s.undistortImage
      && s'.imagePoints == if Admits(cfg, s, ev.frame.found, ev.now)
                           then s.imagePoints + [ev.frame.points] else s.imagePoints
  {
  }

  /** 'u' toggles undistortion, and only when calibrated. */
  lemma UndistortToggle(cfg: Config, s: State, ev: Event, calibrate: Calibrator)
    ensures var (s', _) := Next(cfg, s, ev, calibrate);
      s'.undistortImage != s.undistortImage <==>
        ev.frame.Frame? && KeyCode(ev.pressed) == 'u' as int && s.mode == Calibrated
  {
  }

  /** Mode changes: to CALIBRATED only by a successful attempt, to DETECTION
      only by a failed one, to CAPTURING only by 'g' on an open capture. */
  lemma ModeChanges(cfg: Config, s: State, ev: Event, calibrate: Calibrator)
    ensures var (s', a) := Next(cfg, s, ev, calibrate);
      && (s'.mode == Calibrated && s.mode != Calibrated ==> a.Attempt? && a.ok)
      && (s'.mode == Detection && s.mode != Detection ==> a.Attempt? && !a.ok)
      && (s'.mode == Capturing && s.mode != Capturing ==>
            cfg.captureOpen && ev.frame.Frame? && KeyCode(ev.pressed) == 'g' as int)
  {
  }

  /** While running in capture mode the buffer is below the target. */
  predicate Inv(cfg: Config, s: State) {
    cfg.nframes >= 1 && (s.running && s.mode == Capturing ==> |s.imagePoints| < cfg.nframes)
  }

  lemma InvStep(cfg: Config, s: State, ev: Event, calibrate: Calibrator)
    requires Inv(cfg, s)
    ensures Inv(cfg, Next(cfg, s, ev, calibrate).0)
  {
  }

  /** The invariant holds through the whole loop, and every attempt is made
      on at least one view. */
  lemma {:induction false} InvRun(cfg: Config, s: State, evs: seq<Event>, calibrate: Calibrator)
    requires Inv(cfg, s)
    ensures Inv(cfg, Run(cfg, s, evs, calibrate).0)
    ensures forall a :: a in Run(cfg, s, evs, calibrate).1 ==> a.Attempt? && |a.views| >= 1
    decreases |evs|
  {
    if evs != [] && s.running {
      var (s', a) := Next(cfg, s, evs[0], calibrate);
      InvStep(cfg, s, evs[0], calibrate);
      if evs[0].frame.Frame? {
        TargetReached(cfg, s, evs[0], calibrate);
      }
      InvRun(cfg, s', evs[1..], calibrate);
    }
  }

  /** Outside capture mode, and without the restart key, the buffer is kept
      as it is: a failed attempt does not discard its views, and every later
      attempt is made on them again. */
  lemma {:induction false} Retention(cfg: Config, s: State, evs: seq<Event>, calibrate: Calibrator)
    requires s.mode != Capturing
    requires forall k :: 0 <= k < |evs| ==> KeyCode(evs[k].pressed) != 'g' as int
    ensures Run(cfg, s, evs, calibrate).0.imagePoints == s.imagePoints
    ensures Run(cfg, s, evs, calibrate).0.mode != Capturing
    ensures forall a :: a in Run(cfg, s, evs, calibrate).1 ==> a.Attempt? && a.views == s.imagePoints
    decreases |evs|
  {
    if evs != [] && s.running {
      var (s', a) := Next(cfg, s, evs[0], calibrate);
      assert s'.imagePoints == s.imagePoints && s'.mode != Capturing;
      assert a.Attempt? ==> a.views == s.imagePoints;
      Retention(cfg, s', evs[1..], calibrate);
    }
  }

  /** Every view holds `count` points. */
  predicate ViewsSized(views: seq<View>, count: nat) {
    forall k :: 0 <= k < |views| ==> |views[k]| == count
  }

  /** Detection reports a found pattern with one point per board corner. */
  predicate FoundSized(evs: seq<Event>, count: nat) {
    forall k :: 0 <= k < |evs| ==>
      (evs[k].frame.Frame? && evs[k].frame.found ==> |evs[k].frame.points| == count)
  }

  lemma NextSized(cfg: Config, s: State, ev: Event, calibrate: Calibrator, count: nat)
    requires ViewsSized(s.imagePoints, count)
    requires ev.frame.Frame? && ev.frame.found ==> |ev.frame.points| == count
    ensures var (s', a) := Next(cfg, s, ev, calibrate);
      ViewsSized(s'.imagePoints, count) && (a.Attempt? ==> ViewsSized(a.views, count))
  {
    if ev.frame.Frame? {
      AcceptanceGate(cfg, s, ev, calibrate);
      TargetReached(cfg, s, ev, calibrate);
    }
  }

  /** When every found pattern has the same number of points, every view the
      loop buffers, and so every attempt, has that number of points: the
      views of one attempt all have one length. */
  lemma {:induction false} UniformViews(cfg: Config, s: State, evs: seq<Event>, calibrate: Calibrator, count: nat)
    requires ViewsSized(s.imagePoints, count) && FoundSized(evs, count)
    ensures ViewsSized(Run(cfg, s, evs, calibrate).0.imagePoints, count)
    ensures forall a :: a in Run(cfg, s, evs, calibrate).1 ==> a.Attempt? && ViewsSized(a.views, count)
    decreases |evs|
  {
    if evs != [] && s.running {
      var (s', a) := Next(cfg, s, evs[0], calibrate);
      NextSized(cfg, s, evs[0], calibrate, count);
      assert FoundSized(evs[1..], count) by {
        forall k | 0 <= k < |evs[1..]|
          ensures evs[1..][k].frame.Frame? && evs[1..][k].frame.found ==> |evs[1..][k].frame.points| == count
        {
          assert evs[1..][k] == evs[k + 1];
        }
      }
      UniformViews(cfg, s', evs[1..], calibrate, count);
    }
  }

  /** The points of the frames of `evs`, in order. */
  function FramePoints(evs: seq<Event>): seq<View> {
    if evs == [] then []
    else (if evs[0].frame.Frame? then [evs[0].frame.points] else []) + FramePoints(evs[1..])
  }

  /** Every event is a frame with the pattern found, and no ESC. */
  predicate AllFound(evs: seq<Event>) {
    forall k :: 0 <= k < |evs| ==>
      evs[k].frame.Frame? && evs[k].frame.found && KeyCode(evs[k].pressed) != ESC
  }

  /** On an image list, capture mode collects one view per
      frame and makes exactly one attempt, on all of them, when the target is
      reached; the loop then ends. */
  lemma {:induction false} CapturingRun(cfg: Config, s: State, evs: seq<Event>, calibrate: Calibrator)
    requires !cfg.captureOpen && s.running && s.mode == Capturing
    requires |evs| >= 1 && |s.imagePoints| + |evs| == cfg.nframes
    requires AllFound(evs)
    ensures var views := s.imagePoints + FramePoints(evs);
      var size := evs[|evs| - 1].frame.size;
      var ok := calibrate(views, size);
      var (t, attempts) := Run(cfg, s, evs, calibrate);
      && attempts == [Attempt(views, size, ok)]
      && !t.running && t.imagePoints == views
      && t.mode == (if ok then Calibrated else Detection)
    decreases |evs|
  {
    var ev := evs[0];
    var (s', a) := Next(cfg, s, ev, calibrate);
    assert s'.imagePoints == s.imagePoints + [ev.frame.points];
    if |evs| == 1 {
      assert FramePoints(evs) == [ev.frame.points] by {
        assert FramePoints(evs[1..]) == [];
      }
    } else {
      assert s'.running && s'.mode == Capturing && a == NoAttempt;
      assert AllFound(evs[1..]) by {
        forall k | 0 <= k < |evs[1..]|
          ensures evs[1..][k].frame.Frame? && evs[1..][k].frame.found && KeyCode(evs[1..][k].pressed) != ESC
        {
          assert evs[1..][k] == evs[k + 1];
        }
      }
      CapturingRun(cfg, s', evs[1..], calibrate);
      assert s'.imagePoints + FramePoints(evs[1..]) == s.imagePoints + FramePoints(evs);
      assert evs[1..][|evs[1..]| - 1] == evs[|evs| - 1];
    }
  }

  /** An image list of `L` images, all with the pattern found: starting in
      capture mode with an empty buffer and target `L`, the loop makes one
      attempt on the `L` views and stops. */
  lemma ImageListRun(cfg: Config, s: State, evs: seq<Event>, calibrate: Calibrator)
    requires !cfg.captureOpen && s.running && s.mode == Capturing && s.imagePoints == []
    requires |evs| >= 1 && cfg.nframes == |evs| && AllFound(evs)
    ensures var attempts := Run(cfg, s, evs, calibrate).1;
      |attempts| == 1 && attempts[0].Attempt? && attempts[0].views == FramePoints(evs)
    ensures |FramePoints(evs)| == |evs|
  {
    CapturingRun(cfg, s, evs, calibrate);
    FramePointsLength(evs);
  }

  lemma {:induction false} FramePointsLength(evs: seq<Event>)
    requires forall k :: 0 <= k < |evs| ==> evs[k].frame.Frame?
    ensures |FramePoints(evs)| == |evs|
  {
    if evs != [] {
      assert forall k :: 0 <= k < |evs[1..]| ==> evs[1..][k] == evs[k + 1];
      FramePointsLength(evs[1..]);
    }
  }

  /** The points of the frames of `evs` in which the pattern was found, in order. */
  function FoundPoints(evs: seq<Event>): seq<View> {
    if evs == [] then []
    else
      var kept := if evs[0].frame.Frame? && evs[0].frame.found then [evs[0].frame.points] else [];
      kept + FoundPoints(evs[1..])
  }

  /** On an image list, a frame without ESC in capture mode keeps
      its view when the pattern was found and, short of the target, changes
      nothing else that matters to the loop. */
  lemma ShortSourceStep(cfg: Config, s: State, ev: Event, calibrate: Calibrator)
    requires !cfg.captureOpen && s.mode == Capturing
    requires ev.frame.Frame? && KeyCode(ev.pressed) != ESC
    requires |s.imagePoints| + (if ev.frame.found then 1 else 0) < cfg.nframes
    ensures var (s', a) := Next(cfg, s, ev, calibrate);
      && a == NoAttempt && s'.running == s.running && s'.mode == Capturing
      && s'.imagePoints == s.imagePoints + (if ev.frame.found then [ev.frame.points] else [])
  {
  }

  /** The loop's first iteration, while it runs. */
  lemma RunFirst(cfg: Config, s: State, evs: seq<Event>, calibrate: Calibrator)
    requires evs != [] && s.running
    ensures var next := Next(cfg, s, evs[0], calibrate);
      var rest := Run(cfg, next.0, evs[1..], calibrate);
      Run(cfg, s, evs, calibrate) == (rest.0, AttemptsOf(next.1) + rest.1)
  {
  }

  /** The end of the source makes one attempt on a non-empty buffer and ends
      the loop. */
  lemma ShortSourceEnd(cfg: Config, s: State, last: Event, calibrate: Calibrator)
    requires s.running && last.frame.NoFrame? && |s.imagePoints| > 0
    ensures var (t, attempts) := Run(cfg, s, [last], calibrate);
      && attempts == [Attempt(s.imagePoints, t.imageSize, calibrate(s.imagePoints, t.imageSize))]
      && !t.running && t.imagePoints == s.imagePoints && t.mode == s.mode
  {
    RunFirst(cfg, s, [last], calibrate);
    assert [last][1..] == [];
  }

  /** Running the loop over `a` and then `b` is running it over `a + b`. */
  lemma {:induction false} RunAppend(cfg: Config, s: State, a: seq<Event>, b: seq<Event>, calibrate: Calibrator)
    ensures var first := Run(cfg, s, a, calibrate);
      var second := Run(cfg, first.0, b, calibrate);
      Run(cfg, s, a + b, calibrate) == (second.0, first.1 + second.1)
    decreases |a|
  {
    var none: seq<Attempt> := [];
    if a == [] {
      assert a + b == b && Run(cfg, s, a, calibrate) == (s, none);
      assert none + Run(cfg, s, b, calibrate).1 == Run(cfg, s, b, calibrate).1;
    } else if !s.running {
      assert Run(cfg, s, a + b, calibrate) == Run(cfg, s, a, calibrate) == Run(cfg, s, b, calibrate) == (s, none);
      assert none + none == none;
    } else {
      var next := Next(cfg, s, a[0], calibrate);
      assert (a + b)[0] == a[0] && (a + b)[1..] == a[1..] + b;
      RunFirst(cfg, s, a, calibrate);
      RunFirst(cfg, s, a + b, calibrate);
      RunAppend(cfg, next.0, a[1..], b, calibrate);
      var r1 := Run(cfg, next.0, a[1..], calibrate);
      var r2 := Run(cfg, r1.0, b, calibrate);
      var here := AttemptsOf(next.1);
      assert Run(cfg, s, a, calibrate) == (r1.0, here + r1.1);
      assert Run(cfg, s, a + b, calibrate) == (r2.0, here + (r1.1 + r2.1));
      assert Run(cfg, Run(cfg, s, a, calibrate).0, b, calibrate) == r2;
      ConcatAssoc(here, r1.1, r2.1);
    }
  }

  lemma ConcatAssoc<T>(x: seq<T>, y: seq<T>, z: seq<T>)
    ensures x + (y + z) == (x + y) + z
  {
  }

  /** On an image list, frames without ESC that stay short of the
      target leave capture mode collecting every found view, with no attempt
      and the loop still running. */
  lemma {:induction false} ShortSourcePrefix(cfg: Config, s: State, evs: seq<Event>, calibrate: Calibrator)
    requires !cfg.captureOpen && s.running && s.mode == Capturing
    requires forall k :: 0 <= k < |evs| ==> evs[k].frame.Frame? && KeyCode(evs[k].pressed) != ESC
    requires |s.imagePoints| + |FoundPoints(evs)| < cfg.nframes
    ensures var (t, attempts) := Run(cfg, s, evs, calibrate);
      && attempts == [] && t.running && t.mode == Capturing
      && t.imagePoints == s.imagePoints + FoundPoints(evs)
    decreases |evs|
  {
    if evs == [] {
      assert s.imagePoints + FoundPoints(evs) == s.imagePoints;
    } else {
      var ev := evs[0];
      var kept := if ev.frame.found then [ev.frame.points] else [];
      assert FoundPoints(evs) == kept + FoundPoints(evs[1..]);
      ShortSourceStep(cfg, s, ev, calibrate);
      var next := Next(cfg, s, ev, calibrate);
      assert forall k :: 0 <= k < |evs[1..]| ==> evs[1..][k] == evs[k + 1];
      ShortSourcePrefix(cfg, next.0, evs[1..], calibrate);
      RunFirst(cfg, s, evs, calibrate);
      var rest := Run(cfg, next.0, evs[1..], calibrate);
      assert Run(cfg, s, evs, calibrate) == (rest.0, AttemptsOf(next.1) + rest.1);
      assert AttemptsOf(next.1) + rest.1 == [];
      ConcatAssoc(s.imagePoints, kept, FoundPoints(evs[1..]));
    }
  }

  /** An image list that runs out before the target is reached:
      capture mode keeps every found view, and the end of the source makes one
      attempt on all of them; the loop then ends, still in capture mode. */
  lemma ShortSourceRun(cfg: Config, s: State, evs: seq<Event>, last: Event, calibrate: Calibrator)
    requires !cfg.captureOpen && s.running && s.mode == Capturing
    requires forall k :: 0 <= k < |evs| ==> evs[k].frame.Frame? && KeyCode(evs[k].pressed) != ESC
    requires last.frame.NoFrame?
    requires 0 < |s.imagePoints| + |FoundPoints(evs)| < cfg.nframes
    ensures var views := s.imagePoints + FoundPoints(evs);
      var (t, attempts) := Run(cfg, s, evs + [last], calibrate);
      && attempts == [Attempt(views, t.imageSize, calibrate(views, t.imageSize))]
      && !t.running && t.imagePoints == views && t.mode == Capturing
  {
    ShortSourcePrefix(cfg, s, evs, calibrate);
    RunAppend(cfg, s, evs, [last], calibrate);
    ShortSourceEnd(cfg, Run(cfg, s, evs, calibrate).0, last, calibrate);
  }

  /** On an open capture, the frames of one interval of `delay` clock units
      starting at `lo` add at most one view between them, short of a restart:
      once a view taken at or after `lo` is in the buffer, the gate admits no
      other frame of the interval. */
  lemma {:induction false} AtMostOnePerWindow(cfg: Config, s: State, evs: seq<Event>, calibrate: Calibrator, lo: int, n: nat)
    requires cfg.captureOpen
    requires forall k :: 0 <= k < |evs| ==>
      lo <= evs[k].now <= lo + cfg.delay && KeyCode(evs[k].pressed) != 'g' as int
    requires |s.imagePoints| <= n || (|s.imagePoints| == n + 1 && s.prevTimestamp >= lo)
    ensures |Run(cfg, s, evs, calibrate).0.imagePoints| <= n + 1
    decreases |evs|
  {
    if evs != [] && s.running {
      var (s', a) := Next(cfg, s, evs[0], calibrate);
      assert |s'.imagePoints| <= n || (|s'.imagePoints| == n + 1 && s'.prevTimestamp >= lo);
      assert forall k :: 0 <= k < |evs[1..]| ==> evs[1..][k] == evs[k + 1];
      AtMostOnePerWindow(cfg, s', evs[1..], calibrate, lo, n);
    }
  }

  /** The loop honours ESC alone: a frame with 'q' pressed is handled exactly
      as one with no key pressed (`waitKey` returning -1). */
  lemma QuitKeyIgnored(cfg: Config, s: State, ev: Event, calibrate: Calibrator)
    requires KeyCode(ev.pressed) == 'q' as int
    ensures Next(cfg, s, ev, calibrate) == Next(cfg, s, ev.(pressed := -1), calibrate)
  {
    assert KeyCode(-1) == 255;
  }

  /** The loop's variables, updated in place one iteration at a time. */
  class CaptureSession {
    const config: Config
    var mode: Mode
    var imagePoints: seq<View>
    var prevTimestamp: int
    var undistortImage: bool
    var imageSize: Size
    var running: bool

    function Snapshot(): State
      reads this
    {
      State(mode, imagePoints, prevTimestamp, undistortImage, imageSize, running)
    }

    /** The state before the first frame: the mode the start-up chose, an
        empty buffer, the clock at zero. */
    constructor (config: Config, start: Mode)
      ensures this.config == config
      ensures Snapshot() == State(start, [], 0, false, Size(0, 0), true)
    {
      this.config := config;
      mode := start;
      imagePoints := [];
      prevTimestamp := 0;
      undistortImage := false;
      imageSize := Size(0, 0);
      running := true;
    }

    /** One iteration of the loop. */
    method Step(ev: Event, calibrate: Calibrator) returns (attempt: Attempt)
      modifies this
      ensures (Snapshot(), attempt) == Next(config, old(Snapshot()), ev, calibrate)
    {
      attempt := NoAttempt;
      if ev.frame.NoFrame? {
        if |imagePoints| > 0 {
          var ok := calibrate(imagePoints, imageSize);
          attempt := Attempt(imagePoints, imageSize, ok);
        }
        running := false;
        return;
      }
      imageSize := ev.frame.size;
      if mode == Capturing && ev.frame.found && (!config.captureOpen || ev.now - prevTimestamp > config.delay) {
        imagePoints := imagePoints + [ev.frame.points];
        prevTimestamp := ev.now;
      }
      var key := KeyCode(ev.pressed);
      if key == ESC {
        running := false;
        return;
      }
      if key == 'u' as int && mode == Calibrated {
        undistortImage := !undistortImage;
      }
      if config.captureOpen && key == 'g' as int {
        mode := Capturing;
        imagePoints := [];
      }
      if mode == Capturing && |imagePoints| >= config.nframes {
        var ok := calibrate(imagePoints, imageSize);
        attempt := Attempt(imagePoints, imageSize, ok);
        mode := if ok then Calibrated else Detection;
        if !config.captureOpen {
          running := false;
        }
      }
    }

    /** The loop: one step per event while it runs. */
    method RunLoop(events: seq<Event>, calibrate: Calibrator) returns (attempts: seq<Attempt>)
      modifies this
      ensures (Snapshot(), attempts) == Run(config, old(Snapshot()), events, calibrate)
    {
      attempts := [];
      var k := 0;
      assert events[k..] == events;
      while k < |events| && running
        invariant 0 <= k <= |events|
        invariant Run(config, old(Snapshot()), events, calibrate).0
                  == Run(config, Snapshot(), events[k..], calibrate).0
        invariant Run(config, old(Snapshot()), events, calibrate).1
                  == attempts + Run(config, Snapshot(), events[k..], calibrate).1
        decreases |events| - k
      {
        ghost var before := Snapshot();
        ghost var rest := events[k..];
        var a := Step(events[k], calibrate);
        assert rest[0] == events[k] && rest[1..] == events[k + 1..];
        assert Run(config, before, rest, calibrate).1
               == AttemptsOf(a) + Run(config, Snapshot(), events[k + 1..], calibrate).1;
        attempts := attempts + AttemptsOf(a);
        k := k + 1;
      }
      assert Run(config, Snapshot(), events[k..], calibrate).1 == [];
      assert attempts + [] == attempts;
    }
  }
}
