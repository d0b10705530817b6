/** The calibration flag bits that the sample sets, tests or forces.
    The values are those of OpenCV's CV_CALIB_* constants. */
module CalibFlags {

  /** The solver flags; the sample keeps them in a C `int` and only ORs bits into it. */
  type Flags = bv32

  const USE_INTRINSIC_GUESS: Flags := 1
  const FIX_ASPECT_RATIO: Flags := 2
  const FIX_PRINCIPAL_POINT: Flags := 4
  const ZERO_TANGENT_DIST: Flags := 8
  const FIX_K4: Flags := 2048
  const FIX_K5: Flags := 4096

  /** The bits the command line can set. */
  const OPTION_BITS: Flags := FIX_ASPECT_RATIO | ZERO_TANGENT_DIST | FIX_PRINCIPAL_POINT

  /** `flags |= bit`. */
  function SetBit(flags: Flags, bit: Flags): Flags {
    flags | bit
  }

  /** `flags & bit` used as a C condition. */
  predicate Has(flags: Flags, bit: Flags) {
    flags & bit != 0
  }
}
