# Senseair Sunrise register decoder, modelled in Dafny

This project models the register-decoding layer of a Python driver for the
Senseair Sunrise CO2 sensor (`sunrise/__init__.py`). The driver reads blocks
of registers over I2C and turns them into readings: big-endian integers
(CO2 in ppm, sensor ID, cycle count), scaled values (temperature, pressure,
cycle time), text (product code), a list of error-flag names, two table
lookups (calibration status, measurement mode) and a `"major.minor"`
firmware revision.

Modules:

- `Wrappers`: `Option` for the driver's `None`, `Result` for a raised exception.
- `Registers`: the `Byte` type, `BigEndian` (the sum of `b[i] * 256^(n-1-i)`),
  and `AssembleData`, the shift-and-add loop of `_get_data`, proved equal to it.
- `Text`: Python's `str.isspace`, `chr` per register, `str.strip()`, and `str()`
  of a non-negative integer with its inverse.
- `ErrorStatus`: the 16-entry bit table and `DecodeErrorFlags`, the loop of
  `get_error_status`, proved equal to "the names of the set bits, lowest first".
- `StatusTables`: the calibration-status and measurement-mode dictionaries.
  A code outside a table is `Failure(KeyError(code))`, the driver's `KeyError`.
- `Firmware`: the revision string and the parser that recovers both bytes from it.
- `I2cBus`: the bus handle as a class. Its `respond` oracle gives the answer to
  the n-th request, and its `log` records every request it receives.
- `Sunrise`: one method per getter. Each states which requests it sends, in
  order, and what it returns for the bus's answers.

The calibration status and measurement mode getters return
`Result<Option<string>, KeyError>`. `Success(None)` means the read failed,
which is the driver's `None`. `Failure` means the driver raised `KeyError`.

Four behaviours of the code that the model keeps as written:

- `get_firmware_revision` sends both reads (0x38, then 0x39) before it checks
  either answer. It does not stop after a failed first read.
- No getter checks the length of the block it gets back. A reply longer than
  requested just gives a larger number.
- A calibration code of 8 or more raises `KeyError`, whether it comes from a
  correct one-register reply holding 8..255 or from an over-long reply.
- The error status is a list in bit order. Each set reserved bit
  (3 to 6) adds its own `"unknown"` entry.

## Model

| member | source | states |
|---|---|---|
| `Registers.AssembleData` | sunrise/__init__.py:24-28 | the accumulator loop returns the big-endian value of the registers (sum of `b[i]*256^(n-1-i)`), which is below `256^n` |
| `Registers.BigEndianAppend` | sunrise/__init__.py:25-26 | one more register shifts the value left by 8 bits and adds the register |
| `Registers.BigEndianBound` | sunrise/__init__.py:24-28 | n registers decode to less than `256^n`; no registers decode to 0 |
| `Registers.BigEndianSingle` | sunrise/__init__.py:24-26 | a one-register read decodes to that register |
| `Registers.BigEndianInjective` | sunrise/__init__.py:24-28 | two reads of equal length decode to the same number only if they hold the same bytes |
| `Text.IsSpaceByte` | sunrise/__init__.py:15 | Python's `str.isspace` (`Text.IsSpace`: TAB–CR, 0x1C–0x20, NEL, NBSP and the Unicode space separators) holds on a register value exactly for TAB–CR, 0x1C–0x20, NEL and NBSP |
| `Text.Chars` | sunrise/__init__.py:15 | one character per register, with code point equal to the register value |
| `Text.LeadingSpaces` | sunrise/__init__.py:15 | counts exactly the whitespace run that opens the string |
| `Text.TrailingSpaces` | sunrise/__init__.py:15 | counts exactly the whitespace run that closes the string |
| `Text.Strip` | sunrise/__init__.py:15 | `strip()` is the slice from the first to the last non-whitespace character; everything cut off is whitespace |
| `Text.StripUnchanged` | sunrise/__init__.py:15 | a string without outer whitespace is left unchanged |
| `Text.StripIdempotent` | sunrise/__init__.py:15 | stripping twice is stripping once |
| `Text.AsciiText` | sunrise/__init__.py:15 | the text is no longer than the registers, has no outer whitespace, and keeps the inner registers unchanged as characters |
| `Text.AsciiTextHello` | sunrise/__init__.py:15 | registers 72,101,108,108,111 give "Hello" |
| `Text.AsciiTextPadded` | sunrise/__init__.py:15 | registers 32,65,32,32 give "A" |
| `Text.DecimalString` | sunrise/__init__.py:112 | `str(n)` is a non-empty string of digits with no leading zero, and is "0" only for 0 |
| `Text.DecimalRoundTrip` | sunrise/__init__.py:112 | the digits of `str(n)` read back as n |
| `ErrorStatus.SetBits` | sunrise/__init__.py:54-56 | the bit positions visited are exactly the set bits, in strictly ascending order |
| `ErrorStatus.NamesOf` | sunrise/__init__.py:54-56 | one name per bit position |
| `ErrorStatus.NamesOfAt` | sunrise/__init__.py:54-56 | the i-th name is the table name of the i-th position |
| `ErrorStatus.DecodeErrorFlags` | sunrise/__init__.py:37-56 | the loop returns the names of the set bits of the word, lowest bit first |
| `ErrorStatus.ErrorFlagsAt` | sunrise/__init__.py:54-56 | the i-th flag reported is the table name of the i-th set bit, lowest bit first |
| `ErrorStatus.SetBitsStep` | sunrise/__init__.py:54-56 | each bit of the table adds its name exactly when it is set |
| `ErrorStatus.ErrorFlagsZero` | sunrise/__init__.py:37-58 | the word 0 gives the empty list |
| `ErrorStatus.ErrorFlagsLength` | sunrise/__init__.py:54-56 | for a 16-bit word the list is as long as the word's population count |
| `ErrorStatus.FlagNamesDistinct` | sunrise/__init__.py:38-53 | the table names are distinct except the "unknown" of bits 3 to 6 |
| `ErrorStatus.ErrorFlagsUnknown` | sunrise/__init__.py:41-56 | "unknown" occurs once per set bit among bits 3 to 6 |
| `ErrorStatus.ErrorFlagsNamed` | sunrise/__init__.py:38-56 | a named flag occurs exactly once when its bit is set and not at all otherwise |
| `ErrorStatus.ErrorFlagsLowVoltageAbnormalSignal` | sunrise/__init__.py:37-56 | the word 5 gives low_voltage, abnormal_signal_level |
| `ErrorStatus.ErrorFlagsReservedBit` | sunrise/__init__.py:37-56 | the word 8 gives one "unknown" |
| `StatusTables.CalibrationStatus` | sunrise/__init__.py:67-75 | `KeyError(code)` exactly for codes of 8 or more; "unknown" exactly for 0, 1 and 7 |
| `StatusTables.CalibrationStatusDistinct` | sunrise/__init__.py:67-75 | different codes give different outcomes unless both are named "unknown" |
| `StatusTables.CalibrationStatusExamples` | sunrise/__init__.py:67-75 | each code 0..7 gives its table name; 8 and 255 give `KeyError` |
| `StatusTables.MeasurementMode` | sunrise/__init__.py:86-88 | 0 gives "continuous", 1 gives "single", every other code gives `KeyError(code)` |
| `StatusTables.MeasurementModeDistinct` | sunrise/__init__.py:86-88 | different codes give different outcomes |
| `Firmware.FirmwareRevision` | sunrise/__init__.py:112 | decimal major, '.', decimal minor: the only '.' sits right after the major digits and every other character is a digit; `RevisionRoundTrip` recovers both bytes |
| `Firmware.RevisionRoundTrip` | sunrise/__init__.py:112 | splitting the revision at its '.' gives back major and minor |
| `Firmware.FirmwareRevisionExample` | sunrise/__init__.py:112 | major 3, minor 14 give "3.14" |
| `I2cBus.Bus.ReadBlockData` | sunrise/__init__.py:6 | the request is appended to the log and the oracle's answer to it is returned |
| `Sunrise.DataOf` | sunrise/__init__.py:19-28 | `None` exactly when the read failed, otherwise a value below `256^n` |
| `Sunrise.GetRegs` | sunrise/__init__.py:3-8 | one request, answer passed through unchanged |
| `Sunrise.GetAscii` | sunrise/__init__.py:10-17 | one request; `None` exactly when the read failed, otherwise the stripped text |
| `Sunrise.GetData` | sunrise/__init__.py:19-28 | one request; `None` exactly when the read failed, otherwise the big-endian value |
| `Sunrise.GetErrorStatus` | sunrise/__init__.py:30-58 | requests (0x00, 2); `None` on a failed read, otherwise the flag names of the word |
| `Sunrise.GetCalibrationStatus` | sunrise/__init__.py:60-77 | requests (0x81, 1); a failed read gives `None`, an unknown code gives `KeyError` |
| `Sunrise.GetMeasurementMode` | sunrise/__init__.py:79-90 | requests (0x95, 1); a failed read gives `None`, an unknown code gives `KeyError` |
| `Sunrise.GetFirmwareType` | sunrise/__init__.py:92-100 | requests (0x2f, 1); raw value or `None` |
| `Sunrise.GetFirmwareRevision` | sunrise/__init__.py:102-114 | requests (0x38, 1) then (0x39, 1) every time; `None` if either failed, otherwise "major.minor" |
| `Sunrise.GetSensorId` | sunrise/__init__.py:116-124 | requests (0x3a, 4); the 4-register big-endian value or `None` |
| `Sunrise.GetProductCode` | sunrise/__init__.py:126-132 | requests (0x70, 16); the stripped text or `None` |
| `Sunrise.GetCo2FilteredCompensated` | sunrise/__init__.py:134-143 | requests (0x06, 2); raw ppm or `None` |
| `Sunrise.GetCo2` | sunrise/__init__.py:145-150 | the same request and result as the filtered, compensated reading |
| `Sunrise.GetCo2UnfilteredCompensated` | sunrise/__init__.py:152-161 | requests (0x10, 2); raw ppm or `None` |
| `Sunrise.GetCo2FilteredUncompensated` | sunrise/__init__.py:163-172 | requests (0x12, 2); raw ppm or `None` |
| `Sunrise.GetCo2UnfilteredUncompensated` | sunrise/__init__.py:174-183 | requests (0x14, 2); raw ppm or `None` |
| `Sunrise.GetTemp` | sunrise/__init__.py:185-194 | requests (0x08, 2); result times 100 is the raw value, or `None` |
| `Sunrise.GetPress` | sunrise/__init__.py:196-205 | requests (0xdc, 2); result times 10 is the raw value, or `None` |
| `Sunrise.GetCycleCount` | sunrise/__init__.py:207-216 | requests (0x0d, 1); raw value or `None`; a one-register reply gives that register, at most 255 |
| `Sunrise.GetCycleTime` | sunrise/__init__.py:218-227 | requests (0x0e, 2); twice the raw value, or `None` |

## Left out

- `nuage_controller.py`: opening the bus, the logging setup and the timed polling loop are I/O and timing, with no decoding in them.
- The `logging.debug` calls: they only trace values.
- The internals of `read_i2c_block_data`: it is a foreign library call. Its answers are the bus's `respond` oracle, which may differ from one request to the next. Register values are taken to be in 0..255, and the reply length is not checked, as in the code. The only failed read modelled is a `None` answer, which the getters test for; a read that raises instead of returning `None` is not modelled, and its exception would reach the caller unchanged.
- Sunrise.GetTemp, Sunrise.GetPress: the results are exact rational quotients (`raw / 100`, `raw / 10`), not IEEE doubles, so rounding in the last bit is not modelled.
- Concurrent use of one bus handle: the driver is single-threaded, and the model gives the bus one request log.
- Getters called twice with the same answers give the same result because every decoder is a function. No separate lemma states this.
