/** What the PQ Plus driver's fixed table, Probe and poll cycle guarantee. */
module PQPlusProperties {
  import opened Wrappers
  import opened Meters
  import opened PQPlus

  /** A block of consecutive 16-bit registers on the device. */
  datatype Register = Register(address: uint16, width: nat)

  /**
   * A second transcription of the driver's table, as a match, that adds
   * each entry's register width: 32-bit values occupy two registers, the
   * 64-bit energy counters four. None for a quantity without a table entry.
   */
  function Documented(m: Measurement): Option<Register>
  {
    match m
    case VoltageL1 => Some(Register(0x1100, 2))
    case VoltageL2 => Some(Register(0x1102, 2))
    case VoltageL3 => Some(Register(0x1104, 2))
    case CurrentL1 => Some(Register(0x1200, 2))
    case CurrentL2 => Some(Register(0x1202, 2))
    case CurrentL3 => Some(Register(0x1204, 2))
    case Power => Some(Register(0x1314, 2))
    case PowerL1 => Some(Register(0x1320, 2))
    case PowerL2 => Some(Register(0x1322, 2))
    case PowerL3 => Some(Register(0x1324, 2))
    case ReactivePower => Some(Register(0x1316, 2))
    case ReactivePowerL1 => Some(Register(0x1328, 2))
    case ReactivePowerL2 => Some(Register(0x132A, 2))
    case ReactivePowerL3 => Some(Register(0x132C, 2))
    case ApparentPower => Some(Register(0x1318, 2))
    case ApparentPowerL1 => Some(Register(0x1330, 2))
    case ApparentPowerL2 => Some(Register(0x1332, 2))
    case ApparentPowerL3 => Some(Register(0x1334, 2))
    case Import => Some(Register(0x2000, 4))
    case ImportL1 => Some(Register(0x2010, 4))
    case ImportL2 => Some(Register(0x2014, 4))
    case ImportL3 => Some(Register(0x2018, 4))
    case Export => Some(Register(0x2004, 4))
    case ExportL1 => Some(Register(0x2020, 4))
    case ExportL2 => Some(Register(0x2024, 4))
    case ExportL3 => Some(Register(0x2028, 4))
    case CosphiL1 => Some(Register(0x130C, 2))
    case CosphiL2 => Some(Register(0x130E, 2))
    case CosphiL3 => Some(Register(0x1310, 2))
    case Frequency => Some(Register(0x1004, 2))
    case Sum => None
  }

  /** Two register blocks share no register. */
  predicate Apart(r1: Register, r2: Register)
  {
    r1.address as int + r1.width <= r2.address as int ||
    r2.address as int + r2.width <= r1.address as int
  }

  /** `ops` holds exactly the documented entries, at the documented addresses. */
  predicate IsDocumentedTable(ops: Opcodes)
  {
    forall m :: (m in ops <==> Documented(m).Some?) &&
                (m in ops ==> ops[m] == Documented(m).value.address)
  }

  /** The driver's table and its width-annotated transcription agree. */
  lemma TableIsDocumented()
    ensures IsDocumentedTable(PQPlusOpcodes())
  {
    forall m ensures (m in PQPlusOpcodes() <==> Documented(m).Some?) &&
                     (m in PQPlusOpcodes() ==> PQPlusOpcodes()[m] == Documented(m).value.address) {
      TableKeyDocumented(m);
      if Documented(m).Some? {
        TableAddressDocumented(m);
      }
    }
  }

  lemma TableKeyDocumented(m: Measurement)
    ensures m in PQPlusOpcodes() ==> Documented(m).Some?
  {
  }

  lemma TableAddressDocumented(m: Measurement)
    requires Documented(m).Some?
    ensures m in PQPlusOpcodes() && PQPlusOpcodes()[m] == Documented(m).value.address
  {
    if m in {VoltageL1, VoltageL2, VoltageL3, CurrentL1, CurrentL2, CurrentL3} {
      TableVoltageAndCurrentEntries(m);
    } else if m in {Power, PowerL1, PowerL2, PowerL3,
                    ReactivePower, ReactivePowerL1, ReactivePowerL2, ReactivePowerL3} {
      TableActiveAndReactiveEntries(m);
    } else if m in {ApparentPower, ApparentPowerL1, ApparentPowerL2, ApparentPowerL3,
                    CosphiL1, CosphiL2, CosphiL3, Frequency} {
      TableApparentCosphiFrequencyEntries(m);
    } else {
      TableEnergyEntries(m);
    }
  }

  lemma TableVoltageAndCurrentEntries(m: Measurement)
    requires m in {VoltageL1, VoltageL2, VoltageL3, CurrentL1, CurrentL2, CurrentL3}
    ensures m in PQPlusOpcodes() && PQPlusOpcodes()[m] == Documented(m).value.address
  {
  }

  lemma TableActiveAndReactiveEntries(m: Measurement)
    requires m in {Power, PowerL1, PowerL2, PowerL3,
                   ReactivePower, ReactivePowerL1, ReactivePowerL2, ReactivePowerL3}
    ensures m in PQPlusOpcodes() && PQPlusOpcodes()[m] == Documented(m).value.address
  {
  }

  lemma TableApparentCosphiFrequencyEntries(m: Measurement)
    requires m in {ApparentPower, ApparentPowerL1, ApparentPowerL2, ApparentPowerL3,
                   CosphiL1, CosphiL2, CosphiL3, Frequency}
    ensures m in PQPlusOpcodes() && PQPlusOpcodes()[m] == Documented(m).value.address
  {
  }

  lemma TableEnergyEntries(m: Measurement)
    requires m in {Import, ImportL1, ImportL2, ImportL3, Export, ExportL1, ExportL2, ExportL3}
    ensures m in PQPlusOpcodes() && PQPlusOpcodes()[m] == Documented(m).value.address
  {
  }

  /** No two documented quantities overlap on the device, and none sits at address 0. */
  lemma DocumentedLayoutIsSound()
    ensures forall m1, m2 :: Documented(m1).Some? && Documented(m2).Some? && m1 != m2 ==>
      Apart(Documented(m1).value, Documented(m2).value)
    ensures forall m :: Documented(m).Some? ==> Documented(m).value.address != 0
  {
  }

  /**
   * Stated over any `ops` with IsDocumentedTable(ops) only to keep the
   * table's map literal out of the solver's way; PQPlusOpcodes() is the
   * one table that satisfies it.
   *
   * In a documented table, reading each entry at its documented width
   * touches no register of another entry, and no entry is the sentinel
   * address 0.
   */
  lemma DocumentedEntriesDisjoint(ops: Opcodes, m1: Measurement, m2: Measurement)
    requires IsDocumentedTable(ops)
    requires m1 in ops && m2 in ops && m1 != m2
    ensures Apart(Register(ops[m1], Documented(m1).value.width),
                  Register(ops[m2], Documented(m2).value.width))
    ensures ops[m1] != 0
  {
    DocumentedLayoutIsSound();
    assert Documented(m1).value == Register(ops[m1], Documented(m1).value.width);
    assert Documented(m2).value == Register(ops[m2], Documented(m2).value.width);
  }

  /** The PQ Plus table: no two entries overlap and none is at address 0. */
  lemma TableRangesDisjoint()
    ensures IsDocumentedTable(PQPlusOpcodes())
    ensures forall m1, m2 :: m1 in PQPlusOpcodes() && m2 in PQPlusOpcodes() && m1 != m2 ==>
      Apart(Register(PQPlusOpcodes()[m1], Documented(m1).value.width),
            Register(PQPlusOpcodes()[m2], Documented(m2).value.width))
    ensures forall m :: m in PQPlusOpcodes() ==> PQPlusOpcodes()[m] != 0
  {
    TableIsDocumented();
    forall m1, m2 | m1 in PQPlusOpcodes() && m2 in PQPlusOpcodes() && m1 != m2
      ensures Apart(Register(PQPlusOpcodes()[m1], Documented(m1).value.width),
                    Register(PQPlusOpcodes()[m2], Documented(m2).value.width))
    {
      DocumentedEntriesDisjoint(PQPlusOpcodes(), m1, m2);
    }
    DocumentedLayoutIsSound();
  }

  /** The addresses the driver's table gives for a few representative quantities. */
  lemma RepresentativeAddresses()
    ensures VoltageL1 in PQPlusOpcodes() && PQPlusOpcodes()[VoltageL1] == 0x1100
    ensures CurrentL1 in PQPlusOpcodes() && PQPlusOpcodes()[CurrentL1] == 0x1200
    ensures Power in PQPlusOpcodes() && PQPlusOpcodes()[Power] == 0x1314
    ensures Import in PQPlusOpcodes() && PQPlusOpcodes()[Import] == 0x2000
    ensures Export in PQPlusOpcodes() && PQPlusOpcodes()[Export] == 0x2004
    ensures Frequency in PQPlusOpcodes() && PQPlusOpcodes()[Frequency] == 0x1004
    ensures Sum !in PQPlusOpcodes()
  {
  }

  /** The poll list names 18 distinct quantities, none of them an energy, power-factor or frequency entry. */
  lemma PollListShape()
    ensures |PollMeasurements| == 18
    ensures forall i, j :: 0 <= i < j < |PollMeasurements| ==> PollMeasurements[i] != PollMeasurements[j]
    ensures forall i :: 0 <= i < |PollMeasurements| ==> PollMeasurements[i] !in Unpolled
    ensures forall i :: 0 <= i < |PollMeasurements| ==>
      Documented(PollMeasurements[i]).Some? && Documented(PollMeasurements[i]).value.width == 2
  {
  }

  /** Every table entry is either polled or in Unpolled, and every polled quantity has an entry. */
  lemma TableSplitsIntoPolledAndUnpolled()
    ensures PQPlusOpcodes().Keys == (set m | m in PollMeasurements) + Unpolled
  {
    TableIsDocumented();
  }

  /**
   * The poll cycle over a documented table: 18 unscaled 32-bit holding
   * register reads, tagged in the listed order, at the table's addresses,
   * none of them of an unpolled entry. Stated over any table satisfying
   * IsDocumentedTable, which only PQPlusOpcodes() does, to keep the map
   * literal out of the solver's way.
   */
  lemma DocumentedPollCycleReads(p: PQPlusProducer)
    requires IsDocumentedTable(p.opcodes)
    ensures p.CoversPoll()
    ensures var cycle := p.PollCycle(PollMeasurements);
      |cycle| == 18 &&
      forall i :: 0 <= i < 18 ==>
        cycle[i].iec61850 == PollMeasurements[i] &&
        cycle[i].funcCode == ReadHoldingReg && cycle[i].readLen == 2 &&
        cycle[i].opCode == p.opcodes[PollMeasurements[i]] &&
        cycle[i].iec61850 !in Unpolled &&
        cycle[i].transform == Some(RTUIeee754ToFloat64)
  {
    PollListShape();
  }

  /**
   * Over a documented table, the reads of a poll cycle have pairwise
   * distinct tags and pairwise disjoint two-register ranges. As above,
   * the generic form only keeps the map literal out of the solver's way.
   */
  lemma DocumentedPollCycleDisjoint(p: PQPlusProducer, i: nat, j: nat)
    requires IsDocumentedTable(p.opcodes)
    requires i < j < |PollMeasurements|
    ensures p.CoversPoll()
    ensures p.PollCycle(PollMeasurements)[i].iec61850 != p.PollCycle(PollMeasurements)[j].iec61850
    ensures Apart(Register(p.PollCycle(PollMeasurements)[i].opCode, 2),
                  Register(p.PollCycle(PollMeasurements)[j].opCode, 2))
  {
    PollListShape();
    DocumentedEntriesDisjoint(p.opcodes, PollMeasurements[i], PollMeasurements[j]);
  }

  /** The poll cycle of the PQ Plus producer. */
  lemma PQPlusPollCycle()
    ensures IsDocumentedTable(NewPQPlusProducer().opcodes)
    ensures NewPQPlusProducer().CoversPoll()
    ensures var cycle := NewPQPlusProducer().PollCycle(PollMeasurements);
      |cycle| == 18 &&
      (forall i :: 0 <= i < 18 ==>
        cycle[i].iec61850 == PollMeasurements[i] &&
        cycle[i].opCode == PQPlusOpcodes()[PollMeasurements[i]] &&
        cycle[i].funcCode == ReadHoldingReg && cycle[i].readLen == 2 &&
        cycle[i].iec61850 !in Unpolled &&
        cycle[i].transform == Some(RTUIeee754ToFloat64)) &&
      (forall i, j :: 0 <= i < j < 18 ==>
        cycle[i].iec61850 != cycle[j].iec61850 &&
        Apart(Register(cycle[i].opCode, 2), Register(cycle[j].opCode, 2)))
  {
    TableIsDocumented();
    var p := NewPQPlusProducer();
    DocumentedPollCycleReads(p);
    forall i, j | 0 <= i < j < 18
      ensures p.PollCycle(PollMeasurements)[i].iec61850 != p.PollCycle(PollMeasurements)[j].iec61850
      ensures Apart(Register(p.PollCycle(PollMeasurements)[i].opCode, 2),
                    Register(p.PollCycle(PollMeasurements)[j].opCode, 2))
    {
      DocumentedPollCycleDisjoint(p, i, j);
    }
  }

  /** The Probe operation is the first read of the poll cycle, voltage L1 at 0x1100. */
  lemma ProbeIsFirstPollRead()
    ensures NewPQPlusProducer().Float32Operation(VoltageL1, []) ==
            NewPQPlusProducer().PollCycle(PollMeasurements)[0]
    ensures NewPQPlusProducer().Float32Operation(VoltageL1, []).opCode == 0x1100
  {
    TableIsDocumented();
  }

  /** snip32 uses the first scaler only; any further scalers change nothing. */
  lemma ExtraScalersIgnored(p: PQPlusProducer, iec: Measurement, factor: real, rest: seq<real>)
    requires iec in p.opcodes
    ensures p.Float32Operation(iec, [factor] + rest) == p.Float32Operation(iec, [factor])
    ensures p.Float32Operation(iec, [factor]).transform == Some(Scaled(RTUIeee754ToFloat64, factor))
  {
  }

  /** Probing the PQ Plus producer reads voltage L1 at 0x1100, two registers, unscaled. */
  method ProbePQPlus() returns (op: Operation)
    ensures op.funcCode == ReadHoldingReg && op.opCode == 0x1100 && op.readLen == 2
    ensures op.iec61850 == VoltageL1 && op.transform == Some(RTUIeee754ToFloat64)
  {
    var p := NewPQPlusProducer();
    op := p.Probe();
    ProbeIsFirstPollRead();
  }

  /** Two poll cycles of one producer are identical. */
  method ProduceTwice(p: PQPlusProducer) returns (first: seq<Operation>, second: seq<Operation>)
    requires p.CoversPoll()
    ensures first == second && |first| == 18
  {
    first := p.Produce();
    second := p.Produce();
    PollListShape();
  }
}
