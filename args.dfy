/** The command line of the calibration program: every option checked in
    turn, flags accumulated by bitwise OR, bare arguments classified as a
    camera id or an input file name. */
module Args {
  import opened Wrappers
  import opened CalibFlags
  import opened Pattern

  /** Everything the command line sets, with the program's defaults below. */
  datatype Options = Options(
    boardSize: Size,
    squareSize: real,
    aspectRatio: real,
    outputFilename: string,
    inputFilename: Option<string>,
    nframes: int,
    writeExtrinsics: bool,
    writePoints: bool,
    flags: Flags,
    flipVertical: bool,
    showUndistorted: bool,
    videofile: bool,
    delay: int,
    cameraId: int,
    pattern: PatternKind)

  const DEFAULTS: Options := Options(
    Size(0, 0), 1.0, 1.0, "out_camera_data.yml", None, 10,
    false, false, 0, false, false, false, 1000, 0, Chessboard)

  /** The three `sscanf` conversions used: `%u`, `%f` and `%d`; `None` when
      the conversion does not match. */
  datatype Scanners = Scanners(
    unsigned: string -> Option<int>,
    float: string -> Option<real>,
    decimal: string -> Option<int>)

  /** Why the command line was refused (exit code -1). */
  datatype ArgError =
    | InvalidBoardWidth
    | InvalidBoardHeight
    | InvalidPatternType
    | InvalidSquareWidth
    | InvalidFrameCount
    | InvalidAspectRatio
    | InvalidDelay
    | UnknownOption(arg: string)

  /** How parsing ends: usage text (exit 0), a refusal (exit -1), a read past
      the last argument (undefined behaviour), or a complete set of options. */
  datatype Outcome = Help | Rejected(error: ArgError) | Undefined | Parsed(opts: Options)

  function ExitCode(r: Outcome): (c: int)
    requires r.Help? || r.Rejected?
    ensures c == 0 <==> r.Help?
    ensures r.Rejected? ==> c == -1
  {
    if r.Help? then 0 else -1
  }

  /** One step of the loop: go on at `next` with updated options, or stop. */
  datatype Step = Continue(next: int, opts: Options) | Stop(outcome: Outcome)

  /** A `%u` operand accepted only when it is above `min`. */
  function UnsignedAbove(arg: string, sc: Scanners, min: int): (r: Option<int>)
    ensures r.Some? ==> r.value > min && sc.unsigned(arg) == r
    ensures r.None? ==> sc.unsigned(arg).None? || sc.unsigned(arg).value <= min
  {
    match sc.unsigned(arg)
    case Some(v) => if v > min then Some(v) else None
    case None => None
  }

  /** A `%f` operand accepted only when it is positive. */
  function PositiveFloat(arg: string, sc: Scanners): (r: Option<real>)
    ensures r.Some? ==> r.value > 0.0 && sc.float(arg) == r
    ensures r.None? ==> sc.float(arg).None? || sc.float(arg).value <= 0.0
  {
    match sc.float(arg)
    case Some(v) => if v > 0.0 then Some(v) else None
    case None => None
  }

  predicate IsDigit(c: char) {
    '0' <= c <= '9'
  }

  /** An argument no option name matches: empty, or not starting with '-'. */
  predicate IsPositional(s: string) {
    s == [] || s[0] != '-'
  }

  /** The options, in the order the loop compares against them. */
  datatype OptionName =
    | BoardWidthOpt | BoardHeightOpt | PatternOpt | SquareSizeOpt | FrameCountOpt
    | AspectRatioOpt | DelayOpt | WritePointsOpt | WriteExtrinsicsOpt | ZeroTangentOpt
    | PrincipalPointOpt | FlipVerticalOpt | VideoFileOpt | OutputOpt | ShowUndistortedOpt

  function Spelling(n: OptionName): string {
    match n
    case BoardWidthOpt => "-w"
    case BoardHeightOpt => "-h"
    case PatternOpt => "-pt"
    case SquareSizeOpt => "-s"
    case FrameCountOpt => "-n"
    case AspectRatioOpt => "-a"
    case DelayOpt => "-d"
    case WritePointsOpt => "-op"
    case WriteExtrinsicsOpt => "-oe"
    case ZeroTangentOpt => "-zt"
    case PrincipalPointOpt => "-p"
    case FlipVerticalOpt => "-v"
    case VideoFileOpt => "-V"
    case OutputOpt => "-o"
    case ShowUndistortedOpt => "-su"
  }

  /** What an argument is: an option name, a bare argument, or neither. */
  datatype ArgKind = Named(name: OptionName) | Bare | Unrecognized

  /** The chain of string comparisons, then the test on the first character. */
  function Classify(s: string): (k: ArgKind)
    ensures k.Named? ==> Spelling(k.name) == s
    ensures k.Bare? <==> IsPositional(s)
  {
    if s == "-w" then Named(BoardWidthOpt)
    else if s == "-h" then Named(BoardHeightOpt)
    else if s == "-pt" then Named(PatternOpt)
    else if s == "-s" then Named(SquareSizeOpt)
    else if s == "-n" then Named(FrameCountOpt)
    else if s == "-a" then Named(AspectRatioOpt)
    else if s == "-d" then Named(DelayOpt)
    else if s == "-op" then Named(WritePointsOpt)
    else if s == "-oe" then Named(WriteExtrinsicsOpt)
    else if s == "-zt" then Named(ZeroTangentOpt)
    else if s == "-p" then Named(PrincipalPointOpt)
    else if s == "-v" then Named(FlipVerticalOpt)
    else if s == "-V" then Named(VideoFileOpt)
    else if s == "-o" then Named(OutputOpt)
    else if s == "-su" then Named(ShowUndistortedOpt)
    else if IsPositional(s) then Bare
    else Unrecognized
  }

  /** The options that consume the following argument. */
  predicate TakesValue(n: OptionName) {
    n.BoardWidthOpt? || n.BoardHeightOpt? || n.PatternOpt? || n.SquareSizeOpt?
    || n.FrameCountOpt? || n.AspectRatioOpt? || n.DelayOpt? || n.OutputOpt?
  }

  /** The flag bit an option ORs into `flags`; zero for the others. */
  function FlagBit(n: OptionName): Flags {
    match n
    case AspectRatioOpt => FIX_ASPECT_RATIO
    case ZeroTangentOpt => ZERO_TANGENT_DIST
    case PrincipalPointOpt => FIX_PRINCIPAL_POINT
    case _ => 0
  }

  /** The flag bit an argument of kind `k` ORs into `flags`. */
  function KindFlagBit(k: ArgKind): Flags {
    match k
    case Named(n) => FlagBit(n)
    case _ => 0
  }

  /** The flag bit an argument ORs into `flags`. */
  function ArgFlagBit(s: string): Flags {
    KindFlagBit(Classify(s))
  }

  /** The pattern kind a `-pt` value names. */
  function PatternNamed(v: string): Option<PatternKind> {
    if v == "circles" then Some(CirclesGrid)
    else if v == "acircles" then Some(AsymmetricCirclesGrid)
    else if v == "chessboard" then Some(Chessboard)
    else None
  }

  /** An option `n` with its value `v`, checked. */
  function WithValue(n: OptionName, v: string, o: Options, sc: Scanners): Result<Options, ArgError>
    requires TakesValue(n)
  {
    match n
    case BoardWidthOpt =>
      (match UnsignedAbove(v, sc, 0)
       case Some(w) => Success(o.(boardSize := o.boardSize.(width := w)))
       case None => Failure(InvalidBoardWidth))
    case BoardHeightOpt =>
      (match UnsignedAbove(v, sc, 0)
       case Some(h) => Success(o.(boardSize := o.boardSize.(height := h)))
       case None => Failure(InvalidBoardHeight))
    case PatternOpt =>
      (match PatternNamed(v)
       case Some(k) => Success(o.(pattern := k))
       case None => Failure(InvalidPatternType))
    case SquareSizeOpt =>
      (match PositiveFloat(v, sc)
       case Some(x) => Success(o.(squareSize := x))
       case None => Failure(InvalidSquareWidth))
    case FrameCountOpt =>
      (match UnsignedAbove(v, sc, 3)
       case Some(k) => Success(o.(nframes := k))
       case None => Failure(InvalidFrameCount))
    case AspectRatioOpt =>
      (match PositiveFloat(v, sc)
       case Some(x) => Success(o.(aspectRatio := x, flags := SetBit(o.flags, FIX_ASPECT_RATIO)))
       case None => Failure(InvalidAspectRatio))
    case DelayOpt =>
      (match UnsignedAbove(v, sc, 0)
       case Some(d) => Success(o.(delay := d))
       case None => Failure(InvalidDelay))
    case OutputOpt => Success(o.(outputFilename := v))
  }

  /** An option without a value. */
  function WithSwitch(n: OptionName, o: Options): Options
    requires !TakesValue(n)
  {
    match n
    case WritePointsOpt => o.(writePoints := true)
    case WriteExtrinsicsOpt => o.(writeExtrinsics := true)
    case ZeroTangentOpt => o.(flags := SetBit(o.flags, ZERO_TANGENT_DIST))
    case PrincipalPointOpt => o.(flags := SetBit(o.flags, FIX_PRINCIPAL_POINT))
    case FlipVerticalOpt => o.(flipVertical := true)
    case VideoFileOpt => o.(videofile := true)
    case ShowUndistortedOpt => o.(showUndistorted := true)
  }

  /** A bare argument: a camera id when it starts with a digit (left unchanged
      when `%d` does not convert it), the input file name otherwise. */
  function WithPositional(s: string, o: Options, sc: Scanners): Options {
    if s != [] && IsDigit(s[0]) then
      match sc.decimal(s) case Some(id) => o.(cameraId := id) case None => o
    else o.(inputFilename := Some(s))
  }

  /** Interprets `argv[i]` (and its value, if it takes one). */
  function ParseOption(argv: seq<string>, i: int, o: Options, sc: Scanners): (r: Step)
    requires 1 <= i < |argv|
    ensures r.Continue? ==> i < r.next <= |argv|
  {
    StepOf(Classify(argv[i]), argv, i, o, sc)
  }

  /** The step for `argv[i]` once it is known to be of kind `k`. */
  function StepOf(k: ArgKind, argv: seq<string>, i: int, o: Options, sc: Scanners): (r: Step)
    requires 1 <= i < |argv|
    ensures r.Continue? ==> i < r.next <= |argv|
  {
    match k
    case Named(n) =>
      if !TakesValue(n) then Continue(i + 1, WithSwitch(n, o))
      else if i + 1 == |argv| then Stop(Undefined)
      else
        (match WithValue(n, argv[i + 1], o, sc)
         case Success(o') => Continue(i + 2, o')
         case Failure(e) => Stop(Rejected(e)))
    case Bare => Continue(i + 1, WithPositional(argv[i], o, sc))
    case Unrecognized => Stop(Rejected(UnknownOption(argv[i])))
  }

  /** The rest of the loop from argument `i` on. */
  function ParseFrom(argv: seq<string>, i: int, o: Options, sc: Scanners): Outcome
    requires 1 <= i <= |argv|
    decreases |argv| - i
  {
    if i == |argv| then Parsed(o)
    else match ParseOption(argv, i, o, sc)
      case Stop(r) => r
      case Continue(j, o') => ParseFrom(argv, j, o', sc)
  }

  /** The whole command line; `argv[0]` is the program name. */
  function Parse(argv: seq<string>, sc: Scanners): Outcome {
    if |argv| < 2 then Help else ParseFrom(argv, 1, DEFAULTS, sc)
  }

  /** The argument loop, updating the options in place. */
  method ParseArgs(argv: seq<string>, sc: Scanners) returns (r: Outcome)
    ensures r == Parse(argv, sc)
  {
    if |argv| < 2 {
      return Help;
    }
    var o := DEFAULTS;
    var i := 1;
    while i < |argv|
      invariant 1 <= i <= |argv|
      invariant ParseFrom(argv, i, o, sc) == Parse(argv, sc)
      decreases |argv| - i
    {
      ghost var step := ParseOption(argv, i, o, sc);
      var s := argv[i];
      match Classify(s) {
      case Named(n) =>
        if TakesValue(n) {
          if i + 1 == |argv| {
            return Undefined;
          }
          i := i + 1;
          var v := argv[i];
          match n
          case BoardWidthOpt =>
            var w := sc.unsigned(v);
            if w.None? || w.value <= 0 {
              return Rejected(InvalidBoardWidth);
            }
            o := o.(boardSize := o.boardSize.(width := w.value));
          case BoardHeightOpt =>
            var h := sc.unsigned(v);
            if h.None? || h.value <= 0 {
              return Rejected(InvalidBoardHeight);
            }
            o := o.(boardSize := o.boardSize.(height := h.value));
          case PatternOpt =>
            if v == "circles" {
              o := o.(pattern := CirclesGrid);
            } else if v == "acircles" {
              o := o.(pattern := AsymmetricCirclesGrid);
            } else if v == "chessboard" {
              o := o.(pattern := Chessboard);
            } else {
              return Rejected(InvalidPatternType);
            }
          case SquareSizeOpt =>
            var x := sc.float(v);
            if x.None? || x.value <= 0.0 {
              return Rejected(InvalidSquareWidth);
            }
            o := o.(squareSize := x.value);
          case FrameCountOpt =>
            var k := sc.unsigned(v);
            if k.None? || k.value <= 3 {
              return Rejected(InvalidFrameCount);
            }
            o := o.(nframes := k.value);
          case AspectRatioOpt =>
            var x := sc.float(v);
            if x.None? || x.value <= 0.0 {
              return Rejected(InvalidAspectRatio);
            }
            o := o.(aspectRatio := x.value, flags := SetBit(o.flags, FIX_ASPECT_RATIO));
          case DelayOpt =>
            var d := sc.unsigned(v);
            if d.None? || d.value <= 0 {
              return Rejected(InvalidDelay);
            }
            o := o.(delay := d.value);
          case OutputOpt =>
            o := o.(outputFilename := v);
        } else {
          match n
          case WritePointsOpt => o := o.(writePoints := true);
          case WriteExtrinsicsOpt => o := o.(writeExtrinsics := true);
          case ZeroTangentOpt => o := o.(flags := SetBit(o.flags, ZERO_TANGENT_DIST));
          case PrincipalPointOpt => o := o.(flags := SetBit(o.flags, FIX_PRINCIPAL_POINT));
          case FlipVerticalOpt => o := o.(flipVertical := true);
          case VideoFileOpt => o := o.(videofile := true);
          case ShowUndistortedOpt => o := o.(showUndistorted := true);
        }
      case Bare =>
        if s != [] && IsDigit(s[0]) {
          var id := sc.decimal(s);
          if id.Some? {
            o := o.(cameraId := id.value);
          }
        } else {
          o := o.(inputFilename := Some(s));
        }
      case Unrecognized =>
        return Rejected(UnknownOption(s));
      }
      i := i + 1;
      assert step == Continue(i, o);
    }
    return Parsed(o);
  }

  /** Each option name is recognised as that option. */
  lemma ClassifySpelling(n: OptionName)
    ensures Classify(Spelling(n)) == Named(n)
  {
  }

  /** An argument is refused as unknown exactly when it starts with '-' and
      is not the spelling of any option. */
  lemma UnrecognizedIff(s: string)
    ensures Classify(s).Unrecognized? <==> !IsPositional(s) && forall n :: Spelling(n) != s
  {
    forall n ensures Classify(s).Unrecognized? ==> Spelling(n) != s {
      ClassifySpelling(n);
    }
  }

  /** The bounds a complete set of options satisfies. */
  predicate Valid(o: Options) {
    Bounded(o) && OnlyOptionBits(o.flags)
  }

  /** The numeric checks of the loop. */
  predicate Bounded(o: Options) {
    && o.boardSize.width >= 0 && o.boardSize.height >= 0
    && o.squareSize > 0.0 && o.aspectRatio > 0.0
    && o.nframes > 3 && o.delay > 0
  }

  /** No bit outside the three the command line can set. */
  predicate OnlyOptionBits(f: Flags) {
    f & !OPTION_BITS == 0
  }

  lemma OrOptionBit(f: Flags, n: OptionName)
    requires OnlyOptionBits(f)
    ensures OnlyOptionBits(SetBit(f, FlagBit(n)))
  {
    var b := FlagBit(n);
    assert b & !OPTION_BITS == 0;
    assert (f | b) & !OPTION_BITS == (f & !OPTION_BITS) | (b & !OPTION_BITS);
  }

  lemma OrZero(f: Flags)
    ensures SetBit(f, 0) == f
  {
  }

  /** One accepted argument ORs at most its own bit into `flags`: `-a`,
      `-zt` and `-p` one bit each, every other argument none. */
  lemma FlagStep(argv: seq<string>, i: int, o: Options, sc: Scanners)
    requires 1 <= i < |argv|
    requires ParseOption(argv, i, o, sc).Continue?
    ensures ParseOption(argv, i, o, sc).opts.flags == SetBit(o.flags, ArgFlagBit(argv[i]))
  {
    KindFlagStep(Classify(argv[i]), argv, i, o, sc);
  }

  lemma KindFlagStep(k: ArgKind, argv: seq<string>, i: int, o: Options, sc: Scanners)
    requires 1 <= i < |argv|
    requires StepOf(k, argv, i, o, sc).Continue?
    ensures StepOf(k, argv, i, o, sc).opts.flags == SetBit(o.flags, KindFlagBit(k))
  {
    match k
    case Named(n) =>
      if TakesValue(n) {
        ValueFlags(n, argv[i + 1], o, sc);
      } else {
        SwitchFlags(n, o);
      }
    case Bare =>
      OrZero(o.flags);
  }

  lemma ValueFlags(n: OptionName, v: string, o: Options, sc: Scanners)
    requires TakesValue(n) && WithValue(n, v, o, sc).Success?
    ensures WithValue(n, v, o, sc).value.flags == SetBit(o.flags, FlagBit(n))
  {
    if n.AspectRatioOpt? {
      assert WithValue(n, v, o, sc).value.flags == SetBit(o.flags, FIX_ASPECT_RATIO);
    } else {
      ValueKeepsFlags(n, v, o, sc);
      assert FlagBit(n) == 0;
      OrZero(o.flags);
    }
  }

  /** Only `-a` among the options with a value touches `flags`. */
  lemma ValueKeepsFlags(n: OptionName, v: string, o: Options, sc: Scanners)
    requires TakesValue(n) && !n.AspectRatioOpt? && WithValue(n, v, o, sc).Success?
    ensures WithValue(n, v, o, sc).value.flags == o.flags
  {
  }

  lemma SwitchFlags(n: OptionName, o: Options)
    requires !TakesValue(n)
    ensures WithSwitch(n, o).flags == SetBit(o.flags, FlagBit(n))
  {
    if FlagBit(n) == 0 {
      OrZero(o.flags);
    }
  }

  /** The bit an option ORs in leaves every other bit of `flags` as it was. */
  lemma OtherBitsKept(f: Flags, n: OptionName)
    ensures SetBit(f, FlagBit(n)) & !FlagBit(n) == f & !FlagBit(n)
    ensures SetBit(f, FlagBit(n)) & FlagBit(n) == FlagBit(n)
  {
  }

  /** Every accepted argument keeps the options valid. */
  lemma ValidStep(argv: seq<string>, i: int, o: Options, sc: Scanners)
    requires 1 <= i < |argv| && Valid(o)
    requires ParseOption(argv, i, o, sc).Continue?
    ensures Valid(ParseOption(argv, i, o, sc).opts)
  {
    KindValid(Classify(argv[i]), argv, i, o, sc);
  }

  lemma KindValid(k: ArgKind, argv: seq<string>, i: int, o: Options, sc: Scanners)
    requires 1 <= i < |argv| && Valid(o)
    requires StepOf(k, argv, i, o, sc).Continue?
    ensures Valid(StepOf(k, argv, i, o, sc).opts)
  {
    var opts := StepOf(k, argv, i, o, sc).opts;
    match k
    case Named(n) =>
      if TakesValue(n) {
        assert opts == WithValue(n, argv[i + 1], o, sc).value;
        ValueValid(n, argv[i + 1], o, sc);
      } else {
        assert opts == WithSwitch(n, o);
        SwitchValid(n, o);
      }
    case Bare =>
      assert opts == WithPositional(argv[i], o, sc);
      PositionalValid(argv[i], o, sc);
  }

  lemma PositionalValid(s: string, o: Options, sc: Scanners)
    requires Valid(o)
    ensures Valid(WithPositional(s, o, sc))
  {
    PositionalBounded(s, o, sc);
    PositionalBits(s, o, sc);
  }

  lemma PositionalBounded(s: string, o: Options, sc: Scanners)
    requires Bounded(o)
    ensures Bounded(WithPositional(s, o, sc))
  {
  }

  lemma PositionalBits(s: string, o: Options, sc: Scanners)
    requires OnlyOptionBits(o.flags)
    ensures OnlyOptionBits(WithPositional(s, o, sc).flags)
  {
  }

  lemma ValueValid(n: OptionName, v: string, o: Options, sc: Scanners)
    requires TakesValue(n) && WithValue(n, v, o, sc).Success? && Valid(o)
    ensures Valid(WithValue(n, v, o, sc).value)
  {
    ValueBounds(n, v, o, sc);
    ValueFlags(n, v, o, sc);
    OrOptionBit(o.flags, n);
  }

  lemma ValueBounds(n: OptionName, v: string, o: Options, sc: Scanners)
    requires TakesValue(n) && WithValue(n, v, o, sc).Success? && Bounded(o)
    ensures Bounded(WithValue(n, v, o, sc).value)
  {
  }

  lemma SwitchValid(n: OptionName, o: Options)
    requires !TakesValue(n) && Valid(o)
    ensures Valid(WithSwitch(n, o))
  {
    SwitchFlags(n, o);
    OrOptionBit(o.flags, n);
    match n
    case ZeroTangentOpt =>
    case PrincipalPointOpt =>
    case _ =>
  }

  lemma {:induction false} ParseFromValid(argv: seq<string>, i: int, o: Options, sc: Scanners)
    requires 1 <= i <= |argv| && Valid(o)
    requires ParseFrom(argv, i, o, sc).Parsed?
    ensures Valid(ParseFrom(argv, i, o, sc).opts)
    decreases |argv| - i
  {
    if i < |argv| {
      var st := ParseOption(argv, i, o, sc);
      assert st.Continue?;
      ValidStep(argv, i, o, sc);
      ParseFromValid(argv, st.next, st.opts, sc);
    }
  }

  /** A parsed command line meets every check of the loop: positive square
      size, aspect ratio and delay, more than three frames, no negative board
      dimension, and only the three option bits in `flags`. */
  lemma ParsedValid(argv: seq<string>, sc: Scanners)
    requires Parse(argv, sc).Parsed?
    ensures Valid(Parse(argv, sc).opts)
  {
    assert OnlyOptionBits(DEFAULTS.flags);
    ParseFromValid(argv, 1, DEFAULTS, sc);
  }

  lemma {:induction false} ParseFromNotHelp(argv: seq<string>, i: int, o: Options, sc: Scanners)
    requires 1 <= i <= |argv|
    ensures !ParseFrom(argv, i, o, sc).Help?
    decreases |argv| - i
  {
    if i < |argv| {
      match ParseOption(argv, i, o, sc)
      case Stop(r) =>
      case Continue(j, o') => ParseFromNotHelp(argv, j, o', sc);
    }
  }

  /** Usage text (exit code 0) exactly when no argument is given. */
  lemma HelpIffNoArguments(argv: seq<string>, sc: Scanners)
    ensures Parse(argv, sc).Help? <==> |argv| < 2
  {
    if |argv| >= 2 {
      ParseFromNotHelp(argv, 1, DEFAULTS, sc);
    }
  }

  /** A refused value ends the parse at once with that option's message. */
  lemma InvalidValueRejected(argv: seq<string>, i: int, o: Options, sc: Scanners)
    requires 1 <= i && i + 1 < |argv|
    ensures var v := argv[i + 1];
      var r := ParseFrom(argv, i, o, sc);
      && (argv[i] == "-w" && (sc.unsigned(v).None? || sc.unsigned(v).value <= 0) ==> r == Rejected(InvalidBoardWidth))
      && (argv[i] == "-h" && (sc.unsigned(v).None? || sc.unsigned(v).value <= 0) ==> r == Rejected(InvalidBoardHeight))
      && (argv[i] == "-n" && (sc.unsigned(v).None? || sc.unsigned(v).value <= 3) ==> r == Rejected(InvalidFrameCount))
      && (argv[i] == "-d" && (sc.unsigned(v).None? || sc.unsigned(v).value <= 0) ==> r == Rejected(InvalidDelay))
      && (argv[i] == "-s" && (sc.float(v).None? || sc.float(v).value <= 0.0) ==> r == Rejected(InvalidSquareWidth))
      && (argv[i] == "-a" && (sc.float(v).None? || sc.float(v).value <= 0.0) ==> r == Rejected(InvalidAspectRatio))
      && (argv[i] == "-pt" && v != "circles" && v != "acircles" && v != "chessboard" ==> r == Rejected(InvalidPatternType))
  {
    ClassifySpelling(BoardWidthOpt);
    ClassifySpelling(BoardHeightOpt);
    ClassifySpelling(FrameCountOpt);
    ClassifySpelling(DelayOpt);
    ClassifySpelling(SquareSizeOpt);
    ClassifySpelling(AspectRatioOpt);
    ClassifySpelling(PatternOpt);
  }

  /** An accepted value is stored in the option it names, and nothing else
      changes except the aspect-ratio flag under `-a`; parsing goes on after
      the value. */
  lemma ValueStored(argv: seq<string>, i: int, o: Options, sc: Scanners)
    requires 1 <= i && i + 1 < |argv|
    ensures var v := argv[i + 1];
      var r := ParseOption(argv, i, o, sc);
      && (argv[i] == "-w" && sc.unsigned(v).Some? && sc.unsigned(v).value > 0
          ==> r == Continue(i + 2, o.(boardSize := o.boardSize.(width := sc.unsigned(v).value))))
      && (argv[i] == "-h" && sc.unsigned(v).Some? && sc.unsigned(v).value > 0
          ==> r == Continue(i + 2, o.(boardSize := o.boardSize.(height := sc.unsigned(v).value))))
      && (argv[i] == "-n" && sc.unsigned(v).Some? && sc.unsigned(v).value > 3
          ==> r == Continue(i + 2, o.(nframes := sc.unsigned(v).value)))
      && (argv[i] == "-d" && sc.unsigned(v).Some? && sc.unsigned(v).value > 0
          ==> r == Continue(i + 2, o.(delay := sc.unsigned(v).value)))
      && (argv[i] == "-s" && sc.float(v).Some? && sc.float(v).value > 0.0
          ==> r == Continue(i + 2, o.(squareSize := sc.float(v).value)))
      && (argv[i] == "-a" && sc.float(v).Some? && sc.float(v).value > 0.0
          ==> r == Continue(i + 2, o.(aspectRatio := sc.float(v).value, flags := SetBit(o.flags, FIX_ASPECT_RATIO))))
      && (argv[i] == "-pt" && v == "circles" ==> r == Continue(i + 2, o.(pattern := CirclesGrid)))
      && (argv[i] == "-pt" && v == "acircles" ==> r == Continue(i + 2, o.(pattern := AsymmetricCirclesGrid)))
      && (argv[i] == "-pt" && v == "chessboard" ==> r == Continue(i + 2, o.(pattern := Chessboard)))
      && (argv[i] == "-o" ==> r == Continue(i + 2, o.(outputFilename := v)))
  {
    var s := argv[i];
    if s == "-w" { ClassifySpelling(BoardWidthOpt); }
    else if s == "-h" { ClassifySpelling(BoardHeightOpt); }
    else if s == "-n" { ClassifySpelling(FrameCountOpt); }
    else if s == "-d" { ClassifySpelling(DelayOpt); }
    else if s == "-s" { ClassifySpelling(SquareSizeOpt); }
    else if s == "-a" { ClassifySpelling(AspectRatioOpt); }
    else if s == "-pt" { ClassifySpelling(PatternOpt); }
    else if s == "-o" { ClassifySpelling(OutputOpt); }
  }

  /** The spelling of a switch moves on by one argument with that switch applied. */
  lemma SwitchStep(argv: seq<string>, i: int, o: Options, sc: Scanners, n: OptionName)
    requires 1 <= i < |argv| && argv[i] == Spelling(n) && !TakesValue(n)
    ensures ParseOption(argv, i, o, sc) == Continue(i + 1, WithSwitch(n, o))
  {
    ClassifySpelling(n);
  }

  /** Each switch sets exactly its own setting and moves to the next
      argument. */
  lemma SwitchStored(argv: seq<string>, i: int, o: Options, sc: Scanners)
    requires 1 <= i < |argv|
    ensures var r := ParseOption(argv, i, o, sc);
      && (argv[i] == "-op" ==> r == Continue(i + 1, o.(writePoints := true)))
      && (argv[i] == "-oe" ==> r == Continue(i + 1, o.(writeExtrinsics := true)))
      && (argv[i] == "-zt" ==> r == Continue(i + 1, o.(flags := SetBit(o.flags, ZERO_TANGENT_DIST))))
      && (argv[i] == "-p" ==> r == Continue(i + 1, o.(flags := SetBit(o.flags, FIX_PRINCIPAL_POINT))))
      && (argv[i] == "-v" ==> r == Continue(i + 1, o.(flipVertical := true)))
      && (argv[i] == "-V" ==> r == Continue(i + 1, o.(videofile := true)))
      && (argv[i] == "-su" ==> r == Continue(i + 1, o.(showUndistorted := true)))
  {
    var s := argv[i];
    if s == "-op" { SwitchStep(argv, i, o, sc, WritePointsOpt); }
    else if s == "-oe" { SwitchStep(argv, i, o, sc, WriteExtrinsicsOpt); }
    else if s == "-zt" { SwitchStep(argv, i, o, sc, ZeroTangentOpt); }
    else if s == "-p" { SwitchStep(argv, i, o, sc, PrincipalPointOpt); }
    else if s == "-v" { SwitchStep(argv, i, o, sc, FlipVerticalOpt); }
    else if s == "-V" { SwitchStep(argv, i, o, sc, VideoFileOpt); }
    else if s == "-su" { SwitchStep(argv, i, o, sc, ShowUndistortedOpt); }
  }

  /** An argument starting with '-' that spells no option ends the parse
      with an unknown-option refusal. */
  lemma UnknownOptionRejected(argv: seq<string>, i: int, o: Options, sc: Scanners)
    requires 1 <= i < |argv|
    requires !IsPositional(argv[i]) && forall n :: Spelling(n) != argv[i]
    ensures ParseFrom(argv, i, o, sc) == Rejected(UnknownOption(argv[i]))
  {
    UnrecognizedIff(argv[i]);
  }

  /** A bare argument starting with a digit selects the camera (when `%d`
      converts it), any other bare argument becomes the input file name;
      nothing else changes. */
  lemma PositionalClassified(argv: seq<string>, i: int, o: Options, sc: Scanners)
    requires 1 <= i < |argv| && IsPositional(argv[i])
    ensures var s := argv[i];
      ParseOption(argv, i, o, sc) ==
        if s != [] && IsDigit(s[0]) then
          Continue(i + 1, if sc.decimal(s).Some? then o.(cameraId := sc.decimal(s).value) else o)
        else
          Continue(i + 1, o.(inputFilename := Some(s)))
  {
  }

  /** An option that needs a value, given last, reads past the argument
      vector. */
  lemma MissingValueUndefined(argv: seq<string>, n: OptionName, o: Options, sc: Scanners)
    requires |argv| >= 2 && argv[|argv| - 1] == Spelling(n) && TakesValue(n)
    ensures ParseFrom(argv, |argv| - 1, o, sc) == Undefined
  {
    ClassifySpelling(n);
  }
}
