# Camera calibration sample, modelled in Dafny

This project models the exact, sequential logic of `Calibration.cpp`, the
OpenCV camera-calibration sample. Pattern detection, the numeric solver,
file storage and display are foreign calls. Around them the program:

- builds the row-major reference grid of a chessboard or circle pattern;
- packages a calibration attempt: a copy of the grid per view, fixed
  initial guesses, and flags with K4 and K5 forced on;
- pools the reprojection errors;
- writes a result record whose fields each appear under their own
  condition;
- parses its command line option by option;
- runs a capture loop that gates views by mode, detection and a delay,
  reacts to the keys ESC, 'u' and 'g', and triggers attempts.

The model follows the program's own structure, one module per concern:

- `CalibFlags` (`flags.dfy`): the CV_CALIB_* bit values.
- `Pattern` (`pattern.dfy`): `calcChessboardCorners`.
- `Reprojection` (`reprojection.dfy`): `computeReprojectionErrors`.
- `Calibration` (`calibration.dfy`): `runCalibration`.
- `Record` (`record.dfy`): `saveCameraParams`, `runAndSave` and
  `readStringList`.
- `Args` (`args.dfy`): the argument loop of `main`.
- `Capture` (`capture.dfy`): the start-up and the frame loop of `main`. The
  loop is a class, `CaptureSession`, whose `Step` method consumes one event.

Each loop of the source is a Dafny method with a `while` loop. It is proved
equal to a specification function, and the properties are lemmas about that
function.

OpenCV's numerics are parameters of the model. Floats are modelled as
`real` and the flags as `bv32`, with OpenCV's bit values. The parameters
stand for:

- the solver;
- `checkRange`;
- the residual norm of `projectPoints`;
- `sqrt`;
- the `sscanf` conversions;
- the opening of a capture;
- reading a structured document.

`Capture.Calibrator` stands for the `ok` that `runAndSave` returns. The frame
loop sees only the events:

- a frame, or no frame;
- whether the pattern was found, and its points;
- the clock value;
- the raw key code.

A failed calibration attempt keeps its views; only a later 'g' empties the
buffer (Calibration.cpp:529-544).

`Capture.Config.captureOpen` is the source's `capture.isOpened()`
(Calibration.cpp:412-423, 444). It holds for a camera and also for a video
file opened by name. Both get the delay gate and the 'g' key and do not stop
at the target (Calibration.cpp:484, 529, 544-545). Only an image list
(`captureOpen` false) ends the loop after its attempt.

## Model

| member | source | states |
|---|---|---|
| Pattern.CalcChessboardCorners | Calibration.cpp:105-129 | The nested loops of the pattern's own case emit exactly the reference grid, starting from an empty list. |
| Pattern.GridLayout | Calibration.cpp:107-124 | The grid has height*width points in row-major order. Point i*width+j is (j*s, i*s, 0) for chessboard and circles, and ((2j + i%2)*s, i*s, 0) for asymmetric circles. |
| Pattern.GridRowsLayout | Calibration.cpp:113-123 | The first n rows hold n*width points, each at its row-major index. |
| Pattern.AsymmetricStagger | Calibration.cpp:119-123 | In the asymmetric grid, an odd row's point lies one square further along x than the even row's point in the same column. |
| Reprojection.ComputeReprojectionErrors | Calibration.cpp:79-103 | It gives one RMS error per view over that view's own point count. The total is the square root of all squared residual norms over the sum of all point counts. |
| Reprojection.PerViewErrors | Calibration.cpp:89-97 | One per-view error per view. |
| Reprojection.SumCopies | Calibration.cpp:96-99 | k views that share one grid pool k times the grid's point count. |
| Reprojection.PooledIsPointWeighted | Calibration.cpp:95-102 | The pooled sum of squares equals the sum over views of point count times per-view mean square, so the total is the point-weighted mean. |
| Reprojection.PooledIsNotMeanOfViews | Calibration.cpp:79-102 | The reported total is not the mean of the reported per-view errors. Take a view of one point and a view of four, both with residual norm 2, and any square root that is exact at 4, 1 and 8/5. The per-view RMS errors are 2 and 1, with mean 3/2. The pooled RMS error is the root of 8/5, which differs from 3/2. |
| Reprojection.SumPositive | Calibration.cpp:99-102 | Positive point counts give a positive total, so the final division is defined. |
| Calibration.InitialCameraMatrix | Calibration.cpp:139-141 | The initial camera matrix is the 3x3 identity, except that entry (0,0) is aspectRatio exactly under FIX_ASPECT_RATIO. |
| Calibration.SolverFlags | Calibration.cpp:150-151 | The solver flags have FIX_K4 and FIX_K5 set, and every other bit as given. |
| Calibration.SolverRequestFor | Calibration.cpp:139-151 | The solver request holds one identical copy of the reference grid per view, the views and image size as given, the initial camera matrix, 8 zero distortion coefficients and the forced flags. |
| Calibration.RequestPointTotal | Calibration.cpp:145-148 | The point total that divides the pooled error of an attempt is the number of views times height times width of the board. |
| Calibration.RunCalibration | Calibration.cpp:131-161 | The solver gets that request. The outputs are the solver's. ok holds exactly when both checkRange calls pass. The errors are those of ComputeReprojectionErrors on the solver's poses. |
| Record.KeyNamesDistinct | Calibration.cpp:180-242 | Two fields are stored under the same name exactly when they are the same field, so a field looked up by its key is the one written under its name. |
| Record.RecordFields | Calibration.cpp:180-243 | Every key holds exactly the prescribed value, or is absent. nframes appears only when extrinsics or per-view errors are given, with the larger count. aspectRatio appears only under FIX_ASPECT_RATIO. The optional matrices appear only when they have data. |
| Record.FieldWritten | Calibration.cpp:180-243 | Every field the table prescribes is written. |
| Record.FieldPrescribed | Calibration.cpp:180-243 | Every field written holds the value the table prescribes for its key. |
| Record.RecordComments | Calibration.cpp:193-201 | The flags comment, with its tokens in fixed order, is written exactly when flags != 0. The extrinsics comment is written exactly when extrinsics are written. No other comment is written. |
| Record.ExtrinsicLayout | Calibration.cpp:215-225 | Row i of the extrinsics matrix has six values: rvec_i in columns 0-2, then tvec_i in columns 3-5. |
| Record.ExtrinsicsMatrix | Calibration.cpp:212-226 | Filling the matrix row by row yields the extrinsics matrix. |
| Record.ImagePointsMatrix | Calibration.cpp:233-241 | Copying row by row yields one row per view, holding that view's points. |
| Record.SaveCameraParams | Calibration.cpp:163-244 | The streamed entries are exactly CameraRecord. |
| Record.Masked | Calibration.cpp:282-285 | The caller's masking keeps the record well formed. |
| Record.MaskedRecord | Calibration.cpp:182-183 | Without writeExtrinsics, the record has no nframes, no per-view errors and no extrinsics. Without writePoints, it has no image points. With them, nframes and the extrinsics matrix are present. |
| Record.RunAndSave | Calibration.cpp:261-288 | It saves only when ok, and then exactly the record of the attempt's results, with extrinsics and errors kept only under writeExtrinsics and points only under writePoints. ok and the intrinsics are RunCalibration's. |
| Record.ReadStringList | Calibration.cpp:246-259 | ok holds exactly when the document opens and its first top-level node is a sequence. The list is then that sequence; otherwise it is empty. |
| Args.Classify | Calibration.cpp:322-406 | An option name is classified as the option it spells. An argument is bare exactly when it is empty or does not start with '-'. |
| Args.ClassifySpelling | Calibration.cpp:323-397 | Each option spelling is recognised as its option. |
| Args.UnrecognizedIff | Calibration.cpp:398-406 | An argument is unknown exactly when it starts with '-' and spells no option. |
| Args.UnsignedAbove | Calibration.cpp:325 | A %u value is accepted exactly when it converts and exceeds the bound. |
| Args.PositiveFloat | Calibration.cpp:347 | A %f value is accepted exactly when it converts and is positive. |
| Args.ParseOption | Calibration.cpp:322-406 | An accepted argument moves the loop forward, never past the end of the argument vector. |
| Args.ValueStored | Calibration.cpp:322-393 | An accepted value is stored in the setting its option names, and the loop goes on after the value. -w sets the board width and -h its height (each above 0). -n sets nframes (above 3) and -d the delay (above 0). -s sets the square size (above 0). -a sets the aspect ratio (above 0) and the FIX_ASPECT_RATIO bit. -pt sets the pattern named by circles, acircles or chessboard, and -o the output file name. Nothing else changes. |
| Args.SwitchStored | Calibration.cpp:366-397 | Each switch sets exactly its own setting and moves to the next argument. -op sets writePoints and -oe writeExtrinsics. -zt sets the ZERO_TANGENT_DIST bit and -p the FIX_PRINCIPAL_POINT bit. -v sets the vertical flip, -V the video-file marker and -su showUndistorted. |
| Args.ParseArgs | Calibration.cpp:314-407 | The imperative argument loop yields exactly Parse. |
| Args.ExitCode | Calibration.cpp:314-406 | The exit code is 0 for the usage text (line 317) and -1 for any refusal: an invalid value (lines 326-364) or an unknown option (line 406). |
| Args.HelpIffNoArguments | Calibration.cpp:314-318 | The usage text (exit 0) is shown exactly when there are fewer than two arguments. |
| Args.ParsedValid | Calibration.cpp:320-407 | A parsed command line has width and height >= 0, square size, aspect ratio and delay > 0, nframes > 3, and no flag bit other than the three option bits. |
| Args.FlagStep | Calibration.cpp:355-381 | One accepted argument ORs into flags the bit of -a, -zt or -p, or nothing for any other argument. |
| Args.OtherBitsKept | Calibration.cpp:359-380 | ORing an option's bit sets that bit and leaves every other bit unchanged. |
| Args.InvalidValueRejected | Calibration.cpp:323-365 | Each of these ends the parse with its own message: an unconvertible or too-small width, height or delay (<= 0), frame count (<= 3), square size or aspect ratio (<= 0), or a pattern name other than circles, acircles or chessboard. |
| Args.UnknownOptionRejected | Calibration.cpp:405-406 | An unknown '-' argument ends the parse with an unknown-option refusal. |
| Args.PositionalClassified | Calibration.cpp:398-404 | A bare argument starting with a digit sets the camera id (when %d converts it). Any other bare argument sets the input file name. Nothing else changes. |
| Args.MissingValueUndefined | Calibration.cpp:325 | An option that needs a value, given last, reads past the argument vector. |
| Capture.OpenSource | Calibration.cpp:409-423 | An image list that reads as one starts CAPTURING with nframes equal to its length and no capture open. Otherwise a capture is opened on the file or the camera. Start-up fails with -2 exactly when no capture opened and no image is listed. |
| Capture.KeyCode | Calibration.cpp:521 | The key code is the low byte of waitKey's value. |
| Capture.AcceptanceGate | Calibration.cpp:483-489 | A view is appended, and prevTimestamp reset, exactly when the mode is CAPTURING, the pattern was found, and no capture is open (an image list) or more than delay has elapsed. Apart from a restart, a frame appends that view or nothing. |
| Capture.RestartKey | Calibration.cpp:529-533 | 'g' on an open capture sets CAPTURING and empties the buffer. |
| Capture.TargetReached | Calibration.cpp:535-546 | An attempt during a frame needs the buffer at nframes or more. It moves the mode to CALIBRATED on success and to DETECTION on failure, keeps the buffer, and ends the loop over an image list. Conversely, in CAPTURING, without ESC or a restart, a buffer at nframes or more after this frame's view triggers an attempt on exactly that buffer. |
| Capture.SourceExhausted | Calibration.cpp:444-452 | With no frame, there is one final attempt on the buffer exactly when it is non-empty, and the loop ends. |
| Capture.EscapeStops | Calibration.cpp:483-524 | ESC ends the loop without an attempt, a mode change or an undistortion toggle. The frame's view is buffered first if the gate admits it. |
| Capture.UndistortToggle | Calibration.cpp:526-527 | undistortImage flips exactly on 'u' in CALIBRATED. |
| Capture.ModeChanges | Calibration.cpp:529-544 | The mode moves to CALIBRATED only by a successful attempt, to DETECTION only by a failed one, and to CAPTURING only by 'g' on an open capture. |
| Capture.InvStep | Calibration.cpp:483-546 | One step keeps the buffer below nframes while running in CAPTURING. |
| Capture.InvRun | Calibration.cpp:430-547 | The invariant holds through the loop, and every attempt is made on at least one view. |
| Capture.Retention | Calibration.cpp:529-546 | Outside CAPTURING and without 'g', the buffer never changes, and every attempt is made on the retained views. |
| Capture.CapturingRun | Calibration.cpp:483-546 | On an image list, capture mode collects one view per found frame and makes exactly one attempt, on all of them, when the target is reached. The loop then stops. |
| Capture.ImageListRun | Calibration.cpp:411-546 | An image list of L images, all found, gives exactly one attempt, on the L views. |
| Capture.UniformViews | Calibration.cpp:483-546 | When every found pattern has the same number of points, every buffered view and every attempt's views have that number, so all views of an attempt share one length. |
| Capture.FramePointsLength | Calibration.cpp:483-487 | When every event is a frame, FramePoints lists one view per event. ImageListRun uses this to count the views of an image list. |
| Capture.ShortSourceStep | Calibration.cpp:483-546 | On an image list, in CAPTURING, a frame without ESC that leaves the buffer short of nframes appends its view exactly when the pattern was found. It makes no attempt and changes neither the mode nor whether the loop runs. |
| Capture.ShortSourceEnd | Calibration.cpp:444-452 | When the source ends with a non-empty buffer, the loop makes one attempt on exactly that buffer and stops, with the mode unchanged. |
| Capture.ShortSourcePrefix | Calibration.cpp:483-546 | On an image list, frames without ESC that stay short of nframes keep every found view in order. They make no attempt and leave the loop running in CAPTURING. |
| Capture.ShortSourceRun | Calibration.cpp:444-546 | An image list that ends before nframes views are found gives exactly one attempt, at the end, on all the found views in order. The loop then stops, still in CAPTURING. |
| Capture.RunAppend | Calibration.cpp:430-547 | Running the loop over one event sequence and then another is running it over the two joined: the final state is the second run's, and the attempts are the first run's followed by the second's. |
| Capture.AtMostOnePerWindow | Calibration.cpp:483-489 | On an open capture, without 'g', the frames of one interval of delay clock units add at most one view to the buffer between them. |
| Capture.QuitKeyIgnored | Calibration.cpp:519-524 | Inside the loop only ESC quits: a frame with 'q' pressed is handled exactly as one with no key pressed. The 'q' that the help text lists as a quit key is honoured only by the preview after the loop. |
| Capture.CaptureSession.constructor | Calibration.cpp:307-311 | The initial state has the start-up mode, an empty buffer and the clock at zero. |
| Capture.CaptureSession.Step | Calibration.cpp:430-546 | One iteration updates the fields in place exactly as Next prescribes. |
| Capture.CaptureSession.RunLoop | Calibration.cpp:430-547 | The loop, one step per event while running, ends in the state and with the attempts of Run. |

## Left out

- Pattern detection and refinement, the solver, projection, `norm`, `sqrt` and `checkRange` are parameters, not models. Floating point is modelled as exact `real` arithmetic, with no float/double rounding.
- `FileStorage` output is modelled as the ordered list of entries written. YAML encoding, file names and `time`/`localtime`/`strftime` are left out: the time stamp is an input text.
- `readStringList` works on an abstract document: it fails to open, or its first top-level node is a sequence of strings or something else.
- The CV_Assert checks in the extrinsics loop (Calibration.cpp:214, 221-222) test matrix types and 3x1 shapes, which the 3-component `Vec3` type stands for. The precondition that there are at least as many tvecs as rvecs replaces the unchecked `tvecs[i]` reads (Calibration.cpp:222-225).
- Display and UI are left out: `imshow`, `putText`, the status text, the blink, `cvtColor`, `undistort`, the `namedWindow` call, and the undistorted preview after the loop (Calibration.cpp:549-568). The `help()` text and the live-capture help are also left out.
- The `-v` option is parsed, and the vertical `flip` it causes (Calibration.cpp:456-457) comes before detection, so it changes the points found. The model folds it into detection: a frame's points are those found in the flipped image. The `-su` option is parsed but affects only the preview after the loop.
- Console output is left out: the RMS error printed after the solver (Calibration.cpp:153) and the success line with the average error (Calibration.cpp:274-276). `SolverResult.rms` stands for the printed RMS value; as in the source, nothing else reads it.
- The camera matrix and distortion coefficients that runAndSave hands back to the loop are left out; they feed only the undistorted display.
- `clock()` is modelled as one clock value per event, in the unit of the delay. The two clock reads of one iteration are the same value. The `delay*1e-3*CLOCKS_PER_SEC` scaling is left out.
- The frame source is the event sequence. Reading a frame from an open capture or the next listed image, and a failed `imread`, appear as a frame or `NoFrame`.
- The `default:` branches of the pattern switches (Calibration.cpp:126-127 and 476-477) are unreachable, because the pattern kind is a closed type.
- `%u` into an `int` field: the scanner parameter returns the value as stored. The wrap of large or negative values onto `int` is left to the parameter.
- An option that needs a value but is given last reads `argv[argc]`. The model reports this as `Undefined` rather than modelling the undefined behaviour. For `-o` the source stores a null name whose later use is undefined; this is modelled the same way.
- Reprojection.ComputeReprojectionErrors: requires at least one view and positive point counts (and Calibration.RunCalibration a board at least 1x1). With none, the source divides by zero and returns NaN or infinity, which exact arithmetic does not model.
- Calibration.RunCalibration: requires the solver to return one pose per view, as `calibrateCamera` promises.
- Capture.Retention: a failed attempt keeps its views; only a later 'g' clears the buffer (Calibration.cpp:529-544).
- Record.RunAndSave: requires all views to have one length (as do Record.SaveCameraParams and Record.ImagePointsMatrix). In the source this holds because a found view has one point per board corner and `calibrateCamera` asserts matching counts. In the model, `Frame.points` may have any length, so this is a precondition. Capture.UniformViews shows that the loop meets it when every found pattern has the same number of points.
- Capture.Calibrator: the loop's attempts are not composed with Record.RunAndSave; the Calibrator parameter stands for its `ok`. Capture.Config is given directly, not built from Capture.Startup and the parsed options.
- Capture.CaptureSession.Step: the unsigned cast on nframes (Calibration.cpp:535) is not modelled. nframes is a natural number here, because parsing guarantees more than 3 and an image list gives its own length.
