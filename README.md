# PQ Plus Modbus driver, modelled in Dafny

This project models the PQ Plus device driver of mbmd. The driver serves PQ Plus
meters and power quality analyzers. It is pure description: it opens no connection.
It holds a fixed table from vendor-neutral measurement identifiers to device
register addresses. From that table it builds read operations: Modbus function code,
start address, register count, measurement tag and a decode transform. A poller runs
these operations elsewhere.

Files:

- `wrappers.dfy`: module `Wrappers`, an `Option` type.
- `meters.dfy`: module `Meters`, i.e. what the driver uses from the `meters` package.
  - the `Measurement` catalog;
  - `uint8` and `uint16`;
  - the function code `ReadHoldingReg` (Modbus function code 0x03, section 6.3 of the
    Modbus Application Protocol Specification V1.1b3);
  - a symbolic `Transform` (`RTUIeee754ToFloat64` or `Scaled(inner, factor)`);
  - `Operation`, `Opcodes` (a `map<Measurement, uint16>`) and the `Opcode` lookup,
    which reports a miss explicitly.
- `pqplus.dfy`: module `PQPlus`, the driver.
  - the table `PQPlusOpcodes` and the list `PollMeasurements` read by one poll cycle;
  - the producer `PQPlusProducer`, an immutable value holding its table;
  - its members `Description`, `Snip16`, `Snip32`, `Probe` and `Produce`;
  - `Float32Operation` and `PollCycle`, the functions that specify `Snip32` and `Produce`.
  - `Snip32` assigns the transform in two steps, so it is a method.
  - `Produce` appends in a loop, so it is a method with a loop invariant over the
    prefix built so far.
- `pqplus_properties.dfy`: module `PQPlusProperties`, what the table and the poll
  cycle guarantee.
  - `Documented` is a second transcription of the table, as a `match`, that adds each
    entry's register width: 2 registers for a 32-bit float and 4 for a 64-bit
    double, as the table's comments say.
  - The lemmas prove that the table and this transcription agree in both directions.
  - They prove that no two entries overlap and that no entry is address 0.
  - They prove the exact shape of the poll cycle: its order, tags, addresses,
    function code, width and transform. Its tags are distinct and its register
    ranges are pairwise disjoint.
  - They prove that Probe is the cycle's first read.

Transforms are symbolic: the model records which transform an operation carries
(the default IEEE-754 decoder, or that decoder wrapped with a scale factor), not the
value it computes.

## Model

| member | source | states |
|---|---|---|
| Meters.Opcode | meters/rs485/pqplus.go:62 | a table lookup yields a value exactly when the measurement has an entry, and then that entry's address; a miss is visible, never address 0 |
| PQPlus.NewPQPlusProducer | meters/rs485/pqplus.go:13-51 | the constructed producer's table has an entry for every polled measurement and for the probed VoltageL1, so Probe and Produce never look up a missing address |
| PQPlus.PQPlusProducer.Description | meters/rs485/pqplus.go:54-56 | the description is a fixed, non-empty identification string |
| PQPlus.PQPlusProducer.Snip16 | meters/rs485/pqplus.go:59-66 | the operation reads holding registers, starts at the table's address for the measurement, has the requested length, is tagged with that measurement and has no transform yet |
| PQPlus.PQPlusProducer.Float32Operation | meters/rs485/pqplus.go:69-78 | a two-register holding-register read at the table's address, tagged with the measurement; its transform is the plain IEEE-754 decoder exactly when no scaler is given, and otherwise that decoder wrapped by `Scaled` with the first scaler |
| PQPlus.PQPlusProducer.Snip32 | meters/rs485/pqplus.go:69-78 | setting the default transform and then wrapping it in the first scaler, step by step, builds exactly the operation Float32Operation describes |
| PQPlus.PQPlusProducer.PollCycle | meters/rs485/pqplus.go:86-95 | the poll cycle over a list has one operation per measurement, and the i-th is the unscaled 32-bit read of the i-th measurement |
| PQPlus.PQPlusProducer.Probe | meters/rs485/pqplus.go:81-83 | Probe returns one unscaled two-register holding-register read of VoltageL1 at the table's VoltageL1 address |
| PQPlus.PQPlusProducer.Produce | meters/rs485/pqplus.go:86-103 | the loop's result is the poll cycle over the 18 listed measurements: same length and order, each read tagged with its measurement, at its table address, two registers, holding-register function code, unscaled IEEE-754 transform |
| PQPlusProperties.TableIsDocumented | meters/rs485/pqplus.go:18-49 | the table has an entry for exactly the quantities the width-annotated transcription lists, each at the address the transcription gives |
| PQPlusProperties.TableKeyDocumented | meters/rs485/pqplus.go:18-49 | every table entry is a documented quantity |
| PQPlusProperties.TableAddressDocumented | meters/rs485/pqplus.go:18-49 | every documented quantity has a table entry holding its documented address |
| PQPlusProperties.DocumentedLayoutIsSound | meters/rs485/pqplus.go:19-48 | in the transcription, with the 32-bit and 64-bit widths from the table's comments, no two quantities share a register and none starts at address 0 |
| PQPlusProperties.DocumentedEntriesDisjoint | meters/rs485/pqplus.go:19-48 | in a table that agrees with the transcription (only the PQ Plus table does; the generic form keeps the map literal out of the solver's way), two distinct entries read at their widths are register-disjoint, and no entry is address 0 |
| PQPlusProperties.TableRangesDisjoint | meters/rs485/pqplus.go:19-48 | the PQ Plus table agrees with the transcription; its entries read at their widths never overlap, and no entry is the sentinel address 0 |
| PQPlusProperties.RepresentativeAddresses | meters/rs485/pqplus.go:19-48 | looking up VoltageL1, CurrentL1, Power, Import, Export and Frequency yields 0x1100, 0x1200, 0x1314, 0x2000, 0x2004 and 0x1004, and a catalog entry without a row (Sum) is a miss |
| PQPlusProperties.PollListShape | meters/rs485/pqplus.go:87-93 | the poll list has 18 pairwise distinct measurements, none of them an energy, power-factor or frequency entry, and each documented as a two-register value |
| PQPlusProperties.TableSplitsIntoPolledAndUnpolled | meters/rs485/pqplus.go:18-49 | the table's entries are exactly the polled measurements plus the energy, power-factor and frequency entries that no poll cycle reads |
| PQPlusProperties.DocumentedPollCycleReads | meters/rs485/pqplus.go:86-95 | for a producer whose table agrees with the transcription (only the PQ Plus table does), the poll cycle has 18 reads in the listed order, each a two-register unscaled holding-register read at the table's address, none of an unpolled entry |
| PQPlusProperties.DocumentedPollCycleDisjoint | meters/rs485/pqplus.go:86-95 | for such a producer, any two reads of the poll cycle have distinct tags and register ranges that share no register |
| PQPlusProperties.PQPlusPollCycle | meters/rs485/pqplus.go:86-95 | the same facts for the PQ Plus producer itself, whose table agrees with the transcription: 18 reads in the listed order at the table's addresses, two registers, holding-register function code, unscaled, none of an unpolled entry, with pairwise distinct tags and disjoint register ranges |
| PQPlusProperties.ProbeIsFirstPollRead | meters/rs485/pqplus.go:81-94 | the Probe operation equals the first read of the poll cycle and starts at 0x1100 |
| PQPlusProperties.ExtraScalersIgnored | meters/rs485/pqplus.go:73-74 | snip32 uses only the first scaler: further scalers change nothing, and one scaler gives Scaled(RTUIeee754ToFloat64, factor) |
| PQPlusProperties.ProbePQPlus | meters/rs485/pqplus.go:81-83 | probing the PQ Plus producer reads VoltageL1 at 0x1100, two holding registers, unscaled |
| PQPlusProperties.ProduceTwice | meters/rs485/pqplus.go:86-103 | two Produce calls on one producer return equal sequences of 18 operations; the producer is an immutable value, so its table cannot change |

## Left out

- Driver registration (`init` and `Register("PQPLUS", …)`, meters/rs485/pqplus.go:5-7) is left out. It is a process-wide side effect of the `meters` package, which is not part of this model. The same goes for its duplicate-name detection.
- The floating-point decoders `RTUIeee754ToFloat64` and `MakeScaledTransform` are defined outside this file. They are symbolic constructors here, so neither the decoded value nor float64 rounding is modelled.
- PQPlus.PQPlusProducer.Float32Operation: records only that a scaler wraps the default transform as `Scaled(RTUIeee754ToFloat64, scaler[0])`. The direction of scaling (multiply or divide by the factor) is not given by the shown code, so the model does not say what value a scaled transform yields.
- The `Opcode` method of the `meters` package is not shown, so its behaviour on a miss is unknown. `Meters.Opcode` returns `None` on a miss. `Snip16`, `Snip32`, `Probe` and `Produce` require the entries they look up to be present. The lemmas prove that the PQ Plus table meets these requirements.
- The measurement catalog is larger than the constructors modelled here. Only the entries the driver uses are modelled, plus `Sum`, which stands for a catalog entry the PQ Plus table lacks.
- The commented-out scaled-current block (meters/rs485/pqplus.go:97-101) is dead code and is not modelled.
- Modbus transport, framing, polling and output are not done by this driver and are not modelled. Neither is the runtime byte-length check on decoded responses.
- PQPlus.PQPlusProducer.Produce: Go's `append` to a growing slice is modelled as sequence concatenation. Slice capacity and aliasing are not modelled.
