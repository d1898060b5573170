/**
 * The PQ Plus device driver: a fixed register table, the builders that
 * turn a measurement into a read operation, and the producer's Probe and
 * Produce capabilities.
 */
module PQPlus {
  import opened Wrappers
  import opened Meters

  /** The register table of PQ Plus meters and power quality analyzers. */
  function PQPlusOpcodes(): Opcodes
  {
    map[
      VoltageL1 := 0x1100, VoltageL2 := 0x1102, VoltageL3 := 0x1104,
      CurrentL1 := 0x1200, CurrentL2 := 0x1202, CurrentL3 := 0x1204,
      Power := 0x1314, PowerL1 := 0x1320, PowerL2 := 0x1322, PowerL3 := 0x1324,
      ReactivePower := 0x1316,
      ReactivePowerL1 := 0x1328, ReactivePowerL2 := 0x132A, ReactivePowerL3 := 0x132C,
      ApparentPower := 0x1318,
      ApparentPowerL1 := 0x1330, ApparentPowerL2 := 0x1332, ApparentPowerL3 := 0x1334,
      Import := 0x2000, ImportL1 := 0x2010, ImportL2 := 0x2014, ImportL3 := 0x2018,
      Export := 0x2004, ExportL1 := 0x2020, ExportL2 := 0x2024, ExportL3 := 0x2028,
      CosphiL1 := 0x130C, CosphiL2 := 0x130E, CosphiL3 := 0x1310,
      Frequency := 0x1004
    ]
  }

  /** The measurements of one poll cycle, in the order they are read. */
  const PollMeasurements: seq<Measurement> := [
    VoltageL1, VoltageL2, VoltageL3,
    CurrentL1, CurrentL2, CurrentL3,
    Power, PowerL1, PowerL2, PowerL3,
    ReactivePower, ReactivePowerL1, ReactivePowerL2, ReactivePowerL3,
    ApparentPower, ApparentPowerL1, ApparentPowerL2, ApparentPowerL3
  ]

  /** The table entries that no poll cycle reads. */
  const Unpolled: set<Measurement> := {
    Import, ImportL1, ImportL2, ImportL3,
    Export, ExportL1, ExportL2, ExportL3,
    CosphiL1, CosphiL2, CosphiL3,
    Frequency
  }

  /** A producer owns one register table and never changes it. */
  datatype PQPlusProducer = PQPlusProducer(opcodes: Opcodes)
  {
    /** A fixed, human-readable identification of the device family. */
    function Description(): (s: string)
      ensures |s| > 0
    {
      "PQ Plus meters and power quality analyzers"
    }

    /** Every measurement of the poll cycle has an entry in the table. */
    predicate CoversPoll()
    {
      forall m :: m in PollMeasurements ==> m in opcodes
    }

    /**
     * A holding-register read of `readlen` registers at the address the
     * table gives for `iec`, tagged with `iec` and without a transform.
     */
    function Snip16(iec: Measurement, readlen: uint16): (op: Operation)
      requires iec in opcodes
      ensures op.funcCode == ReadHoldingReg
      ensures op.opCode == opcodes[iec] && op.readLen == readlen
      ensures op.iec61850 == iec && op.transform == None
    {
      Operation(ReadHoldingReg, Opcode(opcodes, iec).value, readlen, iec, None)
    }

    /**
     * The operation snip32 builds: a two-register read whose transform is
     * the IEEE-754 decoder, scaled by the first scaler when one is given.
     */
    function Float32Operation(iec: Measurement, scaler: seq<real>): (op: Operation)
      requires iec in opcodes
      ensures op.funcCode == ReadHoldingReg
      ensures op.opCode == opcodes[iec] && op.readLen == 2 && op.iec61850 == iec
      ensures op.transform.Some?
      ensures |scaler| == 0 <==> op.transform == Some(RTUIeee754ToFloat64)
      ensures |scaler| > 0 ==> op.transform == Some(Scaled(RTUIeee754ToFloat64, scaler[0]))
    {
      var t := if |scaler| == 0 then RTUIeee754ToFloat64
               else Scaled(RTUIeee754ToFloat64, scaler[0]);
      Snip16(iec, 2).(transform := Some(t))
    }

    /** Builds a two-register read, first with the default transform, then scaled if asked. */
    method Snip32(iec: Measurement, scaler: seq<real>) returns (snip: Operation)
      requires iec in opcodes
      ensures snip == Float32Operation(iec, scaler)
    {
      snip := Snip16(iec, 2);
      snip := snip.(transform := Some(RTUIeee754ToFloat64));
      if |scaler| > 0 {
        snip := snip.(transform := Some(Scaled(snip.transform.value, scaler[0])));
      }
    }

    /** The operations of a poll cycle over `ms`, one unscaled read per measurement. */
    function PollCycle(ms: seq<Measurement>): (ops: seq<Operation>)
      requires forall m :: m in ms ==> m in opcodes
      ensures |ops| == |ms|
      ensures forall i :: 0 <= i < |ms| ==> ops[i] == Float32Operation(ms[i], [])
    {
      if ms == [] then []
      else PollCycle(ms[..|ms| - 1]) + [Float32Operation(ms[|ms| - 1], [])]
    }

    /** The cheap existence check: one read of voltage L1. */
    method Probe() returns (op: Operation)
      requires VoltageL1 in opcodes
      ensures op == Float32Operation(VoltageL1, [])
      ensures op.funcCode == ReadHoldingReg && op.opCode == opcodes[VoltageL1]
      ensures op.readLen == 2 && op.iec61850 == VoltageL1
      ensures op.transform == Some(RTUIeee754ToFloat64)
    {
      op := Snip32(VoltageL1, []);
    }

    /** The operations of one full poll cycle, grown one read at a time. */
    method Produce() returns (res: seq<Operation>)
      requires CoversPoll()
      ensures res == PollCycle(PollMeasurements)
      ensures |res| == |PollMeasurements|
      ensures forall i :: 0 <= i < |res| ==>
                res[i].funcCode == ReadHoldingReg &&
                res[i].opCode == opcodes[PollMeasurements[i]] &&
                res[i].readLen == 2 &&
                res[i].iec61850 == PollMeasurements[i] &&
                res[i].transform == Some(RTUIeee754ToFloat64)
    {
      res := [];
      for i := 0 to |PollMeasurements|
        invariant res == PollCycle(PollMeasurements[..i])
      {
        var op := Snip32(PollMeasurements[i], []);
        assert PollMeasurements[..i + 1][..i] == PollMeasurements[..i];
        res := res + [op];
      }
      assert PollMeasurements[..|PollMeasurements|] == PollMeasurements;
    }
  }

  /** The PQ Plus producer, built over its fixed table. */
  function NewPQPlusProducer(): (p: PQPlusProducer)
    ensures p.CoversPoll() && VoltageL1 in p.opcodes
  {
    PQPlusProducer(PQPlusOpcodes())
  }
}
