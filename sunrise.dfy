/**
 * The register getters of the Senseair Sunrise driver. Each getter issues a
 * fixed block read and decodes the answer; a failed read (`None`) comes back
 * as `None`, never as a zero or empty reading.
 */
module Sunrise {
  import opened Wrappers
  import opened Registers
  import opened Text
  import opened ErrorStatus
  import opened StatusTables
  import opened Firmware
  import opened I2cBus

  /** The value `_get_data` returns for an answer of the bus. */
  function DataOf(reply: Option<seq<Byte>>): (data: Option<nat>)
    ensures data.None? <==> reply.None?
    ensures data.Some? ==> data.value < Pow256(|reply.value|)
  {
    match reply
    case None => None
    case Some(regs) =>
      BigEndianBound(regs);
      Some(BigEndian(regs))
  }

  /** `_get_regs`: one block read, passed through unchanged. */
  method GetRegs(bus: Bus, address: int, startReg: int, length: int) returns (regs: Option<seq<Byte>>)
    modifies bus
    ensures bus.log == old(bus.log) + [Request(address, startReg, length)]
    ensures regs == bus.respond(|old(bus.log)|, Request(address, startReg, length))
  {
    regs := bus.ReadBlockData(address, startReg, length);
  }

  /** `_get_ascii`: one block read, each register taken as a character, outer whitespace removed. */
  method GetAscii(bus: Bus, address: int, startReg: int, length: int) returns (text: Option<string>)
    modifies bus
    ensures bus.log == old(bus.log) + [Request(address, startReg, length)]
    ensures var reply := bus.respond(|old(bus.log)|, Request(address, startReg, length));
      && (text.None? <==> reply.None?)
      && (text.Some? ==> text.value == AsciiText(reply.value))
  {
    var regs := GetRegs(bus, address, startReg, length);
    if regs.None? {
      return None;
    }
    text := Some(AsciiText(regs.value));
  }

  /** `_get_data`: one block read, assembled most significant byte first. */
  method GetData(bus: Bus, address: int, startReg: int, length: int) returns (data: Option<nat>)
    modifies bus
    ensures bus.log == old(bus.log) + [Request(address, startReg, length)]
    ensures data == DataOf(bus.respond(|old(bus.log)|, Request(address, startReg, length)))
  {
    var regs := GetRegs(bus, address, startReg, length);
    if regs.None? {
      return None;
    }
    var value := AssembleData(regs.value);
    data := Some(value);
  }

  /** Error flags from registers 0x00-0x01. */
  method GetErrorStatus(bus: Bus, address: int) returns (errors: Option<seq<string>>)
    modifies bus
    ensures bus.log == old(bus.log) + [Request(address, 0x00, 2)]
    ensures var data := DataOf(bus.respond(|old(bus.log)|, Request(address, 0x00, 2)));
      && (errors.None? <==> data.None?)
      && (errors.Some? ==> errors.value == ErrorFlags(data.value))
  {
    var data := GetData(bus, address, 0x00, 2);
    if data.None? {
      return None;
    }
    var flags := DecodeErrorFlags(data.value);
    errors := Some(flags);
  }

  /**
   * Calibration status from register 0x81. `Success(None)` is the driver's
   * `None` for a failed read; `Failure` is the `KeyError` it raises for a
   * code outside its table.
   */
  method GetCalibrationStatus(bus: Bus, address: int) returns (status: Result<Option<string>, KeyError>)
    modifies bus
    ensures bus.log == old(bus.log) + [Request(address, 0x81, 1)]
    ensures var data := DataOf(bus.respond(|old(bus.log)|, Request(address, 0x81, 1)));
      && (data.None? ==> status == Success(None))
      && (data.Some? ==> match CalibrationStatus(data.value)
                         case Success(name) => status == Success(Some(name))
                         case Failure(e) => status == Failure(e))
  {
    var data := GetData(bus, address, 0x81, 1);
    if data.None? {
      return Success(None);
    }
    match CalibrationStatus(data.value)
    case Success(name) => status := Success(Some(name));
    case Failure(e) => status := Failure(e);
  }

  /** Measurement mode from register 0x95, with the same two failure kinds as the calibration status. */
  method GetMeasurementMode(bus: Bus, address: int) returns (mode: Result<Option<string>, KeyError>)
    modifies bus
    ensures bus.log == old(bus.log) + [Request(address, 0x95, 1)]
    ensures var data := DataOf(bus.respond(|old(bus.log)|, Request(address, 0x95, 1)));
      && (data.None? ==> mode == Success(None))
      && (data.Some? ==> match MeasurementMode(data.value)
                         case Success(name) => mode == Success(Some(name))
                         case Failure(e) => mode == Failure(e))
  {
    var data := GetData(bus, address, 0x95, 1);
    if data.None? {
      return Success(None);
    }
    match MeasurementMode(data.value)
    case Success(name) => mode := Success(Some(name));
    case Failure(e) => mode := Failure(e);
  }

  /** Firmware type: register 0x2f, unchanged. */
  method GetFirmwareType(bus: Bus, address: int) returns (firmwareType: Option<nat>)
    modifies bus
    ensures bus.log == old(bus.log) + [Request(address, 0x2f, 1)]
    ensures firmwareType == DataOf(bus.respond(|old(bus.log)|, Request(address, 0x2f, 1)))
  {
    firmwareType := GetData(bus, address, 0x2f, 1);
  }

  /**
   * Firmware revision: the major byte (0x38) and the minor byte (0x39) are
   * both read, in that order, before either answer is looked at.
   */
  method GetFirmwareRevision(bus: Bus, address: int) returns (revision: Option<string>)
    modifies bus
    ensures bus.log == old(bus.log) + [Request(address, 0x38, 1), Request(address, 0x39, 1)]
    ensures var n := |old(bus.log)|;
      var major := DataOf(bus.respond(n, Request(address, 0x38, 1)));
      var minor := DataOf(bus.respond(n + 1, Request(address, 0x39, 1)));
      && (revision.None? <==> major.None? || minor.None?)
      && (revision.Some? ==> revision.value == FirmwareRevision(major.value, minor.value))
  {
    var major := GetData(bus, address, 0x38, 1);
    var minor := GetData(bus, address, 0x39, 1);
    if major.None? || minor.None? {
      return None;
    }
    revision := Some(FirmwareRevision(major.value, minor.value));
  }

  /** Sensor ID: registers 0x3a-0x3d as one big-endian number. */
  method GetSensorId(bus: Bus, address: int) returns (id: Option<nat>)
    modifies bus
    ensures bus.log == old(bus.log) + [Request(address, 0x3a, 4)]
    ensures id == DataOf(bus.respond(|old(bus.log)|, Request(address, 0x3a, 4)))
  {
    id := GetData(bus, address, 0x3a, 4);
  }

  /** Product code: the 16 registers from 0x70 as text. */
  method GetProductCode(bus: Bus, address: int) returns (code: Option<string>)
    modifies bus
    ensures bus.log == old(bus.log) + [Request(address, 0x70, 16)]
    ensures var reply := bus.respond(|old(bus.log)|, Request(address, 0x70, 16));
      && (code.None? <==> reply.None?)
      && (code.Some? ==> code.value == AsciiText(reply.value))
  {
    code := GetAscii(bus, address, 0x70, 16);
  }

  /** Filtered and pressure-compensated CO2 in ppm: registers 0x06-0x07, unscaled. */
  method GetCo2FilteredCompensated(bus: Bus, address: int) returns (ppm: Option<nat>)
    modifies bus
    ensures bus.log == old(bus.log) + [Request(address, 0x06, 2)]
    ensures ppm == DataOf(bus.respond(|old(bus.log)|, Request(address, 0x06, 2)))
  {
    ppm := GetData(bus, address, 0x06, 2);
  }

  /** `get_co2`: the filtered and compensated reading under another name. */
  method GetCo2(bus: Bus, address: int) returns (ppm: Option<nat>)
    modifies bus
    ensures bus.log == old(bus.log) + [Request(address, 0x06, 2)]
    ensures ppm == DataOf(bus.respond(|old(bus.log)|, Request(address, 0x06, 2)))
  {
    ppm := GetCo2FilteredCompensated(bus, address);
  }

  /** Unfiltered, pressure-compensated CO2 in ppm: registers 0x10-0x11. */
  method GetCo2UnfilteredCompensated(bus: Bus, address: int) returns (ppm: Option<nat>)
    modifies bus
    ensures bus.log == old(bus.log) + [Request(address, 0x10, 2)]
    ensures ppm == DataOf(bus.respond(|old(bus.log)|, Request(address, 0x10, 2)))
  {
    ppm := GetData(bus, address, 0x10, 2);
  }

  /** Filtered, uncompensated CO2 in ppm: registers 0x12-0x13. */
  method GetCo2FilteredUncompensated(bus: Bus, address: int) returns (ppm: Option<nat>)
    modifies bus
    ensures bus.log == old(bus.log) + [Request(address, 0x12, 2)]
    ensures ppm == DataOf(bus.respond(|old(bus.log)|, Request(address, 0x12, 2)))
  {
    ppm := GetData(bus, address, 0x12, 2);
  }

  /** Unfiltered, uncompensated CO2 in ppm: registers 0x14-0x15. */
  method GetCo2UnfilteredUncompensated(bus: Bus, address: int) returns (ppm: Option<nat>)
    modifies bus
    ensures bus.log == old(bus.log) + [Request(address, 0x14, 2)]
    ensures ppm == DataOf(bus.respond(|old(bus.log)|, Request(address, 0x14, 2)))
  {
    ppm := GetData(bus, address, 0x14, 2);
  }

  /** Temperature in degrees Celsius: registers 0x08-0x09 in hundredths of a degree. */
  method GetTemp(bus: Bus, address: int) returns (celsius: Option<real>)
    modifies bus
    ensures bus.log == old(bus.log) + [Request(address, 0x08, 2)]
    ensures var data := DataOf(bus.respond(|old(bus.log)|, Request(address, 0x08, 2)));
      && (celsius.None? <==> data.None?)
      && (celsius.Some? ==> celsius.value * 100.0 == data.value as real)
  {
    var data := GetData(bus, address, 0x08, 2);
    if data.None? {
      return None;
    }
    celsius := Some(data.value as real / 100.0);
  }

  /** Pressure setting in hPa: registers 0xdc-0xdd in tenths of a hectopascal. */
  method GetPress(bus: Bus, address: int) returns (hectopascal: Option<real>)
    modifies bus
    ensures bus.log == old(bus.log) + [Request(address, 0xdc, 2)]
    ensures var data := DataOf(bus.respond(|old(bus.log)|, Request(address, 0xdc, 2)));
      && (hectopascal.None? <==> data.None?)
      && (hectopascal.Some? ==> hectopascal.value * 10.0 == data.value as real)
  {
    var data := GetData(bus, address, 0xdc, 2);
    if data.None? {
      return None;
    }
    hectopascal := Some(data.value as real / 10.0);
  }

  /** Measurement cycle count: register 0x0d, at most 255 when the read returns the one register asked for. */
  method GetCycleCount(bus: Bus, address: int) returns (count: Option<nat>)
    modifies bus
    ensures bus.log == old(bus.log) + [Request(address, 0x0d, 1)]
    ensures var reply := bus.respond(|old(bus.log)|, Request(address, 0x0d, 1));
      && count == DataOf(reply)
      && (reply.Some? && |reply.value| == 1 ==> count.value == reply.value[0] <= 255)
  {
    ghost var reply := bus.respond(|bus.log|, Request(address, 0x0d, 1));
    count := GetData(bus, address, 0x0d, 1);
    if reply.Some? && |reply.value| == 1 {
      assert reply.value == [reply.value[0]];
      BigEndianSingle(reply.value[0]);
    }
  }

  /** Time since the last measurement in seconds: registers 0x0e-0x0f count two-second steps. */
  method GetCycleTime(bus: Bus, address: int) returns (seconds: Option<nat>)
    modifies bus
    ensures bus.log == old(bus.log) + [Request(address, 0x0e, 2)]
    ensures var data := DataOf(bus.respond(|old(bus.log)|, Request(address, 0x0e, 2)));
      && (seconds.None? <==> data.None?)
      && (seconds.Some? ==> seconds.value == 2 * data.value)
  {
    var data := GetData(bus, address, 0x0e, 2);
    if data.None? {
      return None;
    }
    seconds := Some(data.value * 2);
  }
}
