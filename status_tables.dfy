/**
 * The two name tables of the driver: calibration status (register 0x81) and
 * measurement mode (register 0x95). A code outside a table raises `KeyError`
 * in the driver; here that is a `Failure`, kept apart from the `None` of a
 * failed read.
 */
module StatusTables {
  import opened Wrappers

  /** Python's `KeyError` for a dictionary lookup of `key`. */
  datatype KeyError = KeyError(key: nat)

  const CalibrationNames: map<nat, string> := map[
    0 := "unknown",
    1 := "unknown",
    2 := "factory",
    3 := "abc",
    4 := "target",
    5 := "background",
    6 := "zero",
    7 := "unknown"
  ]

  /** `opt[data]` in `get_calibration_status`. */
  function CalibrationStatus(code: nat): (r: Result<string, KeyError>)
    ensures r.Failure? <==> code >= 8
    ensures r.Failure? ==> r.error == KeyError(code)
    ensures r.Success? ==> (r.value == "unknown" <==> code == 0 || code == 1 || code == 7)
  {
    if code in CalibrationNames then Success(CalibrationNames[code]) else Failure(KeyError(code))
  }

  /** Two codes give the same outcome only if they are equal or both named "unknown". */
  lemma CalibrationStatusDistinct(a: nat, b: nat)
    requires CalibrationStatus(a) == CalibrationStatus(b)
    requires CalibrationStatus(a) != Success("unknown")
    ensures a == b
  {
  }

  /** The whole table, and the first codes past its end. */
  lemma CalibrationStatusExamples()
    ensures CalibrationStatus(0) == Success("unknown")
    ensures CalibrationStatus(1) == Success("unknown")
    ensures CalibrationStatus(2) == Success("factory")
    ensures CalibrationStatus(3) == Success("abc")
    ensures CalibrationStatus(4) == Success("target")
    ensures CalibrationStatus(5) == Success("background")
    ensures CalibrationStatus(6) == Success("zero")
    ensures CalibrationStatus(7) == Success("unknown")
    ensures CalibrationStatus(8) == Failure(KeyError(8))
    ensures CalibrationStatus(255) == Failure(KeyError(255))
  {
  }

  const MeasurementModeNames: map<nat, string> := map[
    0 := "continuous",
    1 := "single"
  ]

  /** `opt[data]` in `get_measurement_mode`. */
  function MeasurementMode(code: nat): (r: Result<string, KeyError>)
    ensures r.Failure? <==> code >= 2
    ensures r.Failure? ==> r.error == KeyError(code)
    ensures r == Success("continuous") <==> code == 0
    ensures r == Success("single") <==> code == 1
  {
    if code in MeasurementModeNames then Success(MeasurementModeNames[code]) else Failure(KeyError(code))
  }

  /** The measurement-mode lookup tells every code apart. */
  lemma MeasurementModeDistinct(a: nat, b: nat)
    requires MeasurementMode(a) == MeasurementMode(b)
    ensures a == b
  {
  }
}
