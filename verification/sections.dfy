/**
 * The collaborators the lowering driver mutates or reads: the data section
 * (constant pool), the globals section (one byte length) and the register
 * sequencer (the source of fresh labels). Their own source files are not part of
 * this model; only the behaviour the driver relies on is given here.
 */
module Sections {
  import opened Common
  import opened AsmLang

  /** A value stored in the data section: a machine word or a byte blob. */
  datatype DataEntry = Word(value: nat) | Bytes(bytes: seq<u8>)

  /** The data section: an ordered, append-only list of values. */
  class DataSection {
    var valuePairs: seq<DataEntry>

    constructor (values: seq<DataEntry>)
      ensures valuePairs == values
    {
      valuePairs := values;
    }

    /** Appends `entry` and returns the id under which it can be loaded. */
    method InsertDataValue(entry: DataEntry) returns (id: DataId)
      modifies this
      ensures valuePairs == old(valuePairs) + [entry]
      ensures id == DataId(|old(valuePairs)|)
      ensures id.index < |valuePairs| && valuePairs[id.index] == entry
    {
      id := DataId(|valuePairs|);
      valuePairs := valuePairs + [entry];
    }
  }

  /** The globals section: the total byte length all globals need on the stack. */
  datatype GlobalsSection = GlobalsSection(lenInBytes: nat)

  /** The register sequencer, reduced to its label counter. */
  class RegisterSequencer {
    var nextLabel: nat

    constructor (next: nat)
      ensures nextLabel == next
    {
      nextLabel := next;
    }

    /** Issues a label that differs from every label issued before. */
    method GetLabel() returns (l: Label)
      modifies this
      ensures l == old(nextLabel) && nextLabel == old(nextLabel) + 1
    {
      l := nextLabel;
      nextLabel := nextLabel + 1;
    }
  }
}
