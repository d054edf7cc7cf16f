/**
 * Compile-time constants and the warning enumeration of the plant-care
 * controller (lib/Care/PlantCare.h).
 *
 * The reservoir has two tiers, each given by its height and the volume one
 * centimetre of that height holds. The header's comments derive the tier
 * volumes as 30 * (30*30 - 20*20) for the top and 10 * (30*30) for the bottom.
 */
module PlantCare {
  import opened Integers

  const RESERVOIR_TOP_HEIGHT: nat := 30
  const RESERVOIR_TOP_1CM3: nat := 500
  const RESERVOIR_TOP_SIZE: nat := 15000

  const RESERVOIR_BOTTOM_HEIGHT: nat := 10
  const RESERVOIR_BOTTOM_1CM3: nat := 900
  const RESERVOIR_BOTTOM_SIZE: nat := 9000

  const RESERVOIR_SIZE: nat := 24000

  /** Volume of a tier of constant cross-section. */
  function TierVolume(height: nat, perCm: nat): nat {
    height * perCm
  }

  /** The top size is its height times its volume per centimetre. */
  lemma ReservoirTopSize()
    ensures RESERVOIR_TOP_SIZE == TierVolume(RESERVOIR_TOP_HEIGHT, RESERVOIR_TOP_1CM3)
  {
  }

  /** The bottom size is its height times its volume per centimetre. */
  lemma ReservoirBottomSize()
    ensures RESERVOIR_BOTTOM_SIZE == TierVolume(RESERVOIR_BOTTOM_HEIGHT, RESERVOIR_BOTTOM_1CM3)
  {
  }

  /** The total is the sum of the two tiers. */
  lemma ReservoirSize()
    ensures RESERVOIR_SIZE == RESERVOIR_TOP_SIZE + RESERVOIR_BOTTOM_SIZE
  {
  }

  /** The constants agree with the header's comment formulas. */
  lemma ReservoirGeometry()
    ensures RESERVOIR_TOP_1CM3 == 30 * 30 - 20 * 20
    ensures RESERVOIR_BOTTOM_1CM3 == 30 * 30
    ensures RESERVOIR_TOP_SIZE == 30 * (30 * 30 - 20 * 20)
    ensures RESERVOIR_BOTTOM_SIZE == 10 * (30 * 30)
  {
  }

  datatype Option<T> = None | Some(value: T)

  /**
   * `WarningType`: LOW_RESORVOIR, EMPTY_RESORVOIR, LOW_MOISTURE_LEVEL,
   * HIGH_MOISTURE_LEVEL and UNKNOWN_ERROR in the source.
   */
  datatype WarningType = LowReservoir | EmptyReservoir | LowMoistureLevel | HighMoistureLevel | UnknownError

  /** The explicit enumerator values, as passed on to `publishWarning(uint8_t)`. */
  function WarningCode(w: WarningType): (c: Uint8)
    ensures 1 <= c <= 5
  {
    match w
    case LowReservoir => 1
    case EmptyReservoir => 2
    case LowMoistureLevel => 3
    case HighMoistureLevel => 4
    case UnknownError => 5
  }

  /** The warning a received code stands for, if any. */
  function WarningOfCode(c: int): (r: Option<WarningType>)
    ensures r.Some? <==> 1 <= c <= 5
    ensures r.Some? ==> WarningCode(r.value) == c
  {
    if c == 1 then Some(LowReservoir)
    else if c == 2 then Some(EmptyReservoir)
    else if c == 3 then Some(LowMoistureLevel)
    else if c == 4 then Some(HighMoistureLevel)
    else if c == 5 then Some(UnknownError)
    else None
  }

  /** Decoding the code of a warning gives that warning back. */
  lemma WarningCodeRoundTrip(w: WarningType)
    ensures WarningOfCode(WarningCode(w)) == Some(w)
  {
  }

  /** Distinct warnings have distinct codes. */
  lemma WarningCodesDistinct(a: WarningType, b: WarningType)
    ensures WarningCode(a) == WarningCode(b) <==> a == b
  {
    WarningCodeRoundTrip(a);
    WarningCodeRoundTrip(b);
  }

  /** Every code 1..5 is some warning's code. */
  lemma WarningCodesOnto(c: int)
    requires 1 <= c <= 5
    ensures exists w :: WarningCode(w) == c
  {
    assert WarningCode(WarningOfCode(c).value) == c;
  }
}
