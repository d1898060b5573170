/**
 * The vocabulary shared by all device drivers: the measurement catalog,
 * register addresses, Modbus function codes, decode transforms and the
 * read operation a driver hands to the transport.
 */
module Meters {
  import opened Wrappers

  /** Unsigned machine integers as used by the Go structs. */
  newtype uint8 = x: int | 0 <= x < 0x100
  newtype uint16 = x: int | 0 <= x < 0x1_0000

  /**
   * Vendor-neutral measurement identifiers. These are the entries the
   * PQ Plus driver refers to, plus Sum, one of the catalog's further
   * quantities that the PQ Plus table does not map.
   */
  datatype Measurement =
    | VoltageL1 | VoltageL2 | VoltageL3
    | CurrentL1 | CurrentL2 | CurrentL3
    | Power | PowerL1 | PowerL2 | PowerL3
    | ReactivePower | ReactivePowerL1 | ReactivePowerL2 | ReactivePowerL3
    | ApparentPower | ApparentPowerL1 | ApparentPowerL2 | ApparentPowerL3
    | Import | ImportL1 | ImportL2 | ImportL3
    | Export | ExportL1 | ExportL2 | ExportL3
    | CosphiL1 | CosphiL2 | CosphiL3
    | Frequency
    | Sum

  /**
   * Modbus function code 0x03, Read Holding Registers (section 6.3 of the
   * Modbus Application Protocol Specification V1.1b3).
   */
  const ReadHoldingReg: uint8 := 3

  /**
   * A decode transform, kept symbolic: the base decoder turns the two
   * register words into an IEEE-754 value, and Scaled wraps an inner
   * transform with a constant scale factor.
   */
  datatype Transform =
    | RTUIeee754ToFloat64
    | Scaled(inner: Transform, factor: real)

  /** A driver's table from measurement to register start address. */
  type Opcodes = map<Measurement, uint16>

  /**
   * One register read: function code, start address, number of 16-bit
   * registers, the measurement it yields and (once set) its transform.
   */
  datatype Operation = Operation(
    funcCode: uint8,
    opCode: uint16,
    readLen: uint16,
    iec61850: Measurement,
    transform: Option<Transform>)

  /** Looks a measurement up in a driver's table; a miss is explicit. */
  function Opcode(ops: Opcodes, iec: Measurement): (r: Option<uint16>)
    ensures r.Some? <==> iec in ops
    ensures r.Some? ==> r.value == ops[iec]
  {
    if iec in ops then Some(ops[iec]) else None
  }
}
