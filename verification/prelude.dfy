/**
 * The fixed program preamble `build_prologue` emits and its binary layout: the
 * metadata block starts at byte 16 and is 32 bytes long, and the whole preamble
 * is 56 bytes, numbers agreed with the virtual machine.
 */
module Prelude {
  import opened Common
  import opened AsmLang

  const PreludeMetadataOffsetInBytes: nat := 16
  const PreludeMetadataSizeInBytes: nat := 32
  const PreludeSizeInBytes: nat := 56

  /** Word offset of the data-section offset placeholder, as `LW $ds $scratch 1` addresses it. */
  const DataOffsetWord: nat := 1

  /** The preamble, jumping over the metadata to the fresh label `l`. */
  function PrologueOps(l: Label): (ops: AllocatedOps)
    ensures |ops| == 7
  {
    [ AllocatedAbstractOp(Machine(MOVE(Constant(Scratch), Constant(ProgramCounter))), Text("")),
      AllocatedAbstractOp(Control(Jump(l)), Text("")),
      AllocatedAbstractOp(Control(DataSectionOffsetPlaceholder), DataSectionOffset),
      AllocatedAbstractOp(Control(Metadata), MetadataBlock),
      AllocatedAbstractOp(Control(Label(l)), EndOfMetadata),
      AllocatedAbstractOp(Machine(LW(Constant(DataSectionStart), Constant(Scratch), DataOffsetWord)), Text("")),
      AllocatedAbstractOp(Machine(ADD(Constant(DataSectionStart), Constant(DataSectionStart), Constant(Scratch))), Text(""))
    ]
  }

  /** The label an op defines, if it is a `Label` op. */
  function Defines(op: AllocatedAbstractOp): Option<Label>
  {
    match op.opcode
    case Control(Label(l)) => Some(l)
    case _ => None
  }

  /** The label an op refers to, if it is a jump or a call. */
  function Targets(op: AllocatedAbstractOp): Option<Label>
  {
    match op.opcode
    case Control(Jump(l)) => Some(l)
    case Control(JumpIfNotZero(_, l)) => Some(l)
    case Control(Call(l)) => Some(l)
    case _ => None
  }

  /** How many ops of `ops` define the label `l`. */
  function DefinitionCount(ops: AllocatedOps, l: Label): nat
  {
    if ops == [] then 0
    else (if Defines(ops[0]) == Some(l) then 1 else 0) + DefinitionCount(ops[1..], l)
  }

  /** The preamble's only jump goes to a label the preamble itself defines exactly
      once, and it defines no other label. */
  lemma PrologueLabelsResolve(l: Label)
    ensures forall i :: 0 <= i < 7 && Targets(PrologueOps(l)[i]).Some? ==> i == 1 && Targets(PrologueOps(l)[i]) == Some(l)
    ensures DefinitionCount(PrologueOps(l), l) == 1
    ensures forall m :: m != l ==> DefinitionCount(PrologueOps(l), m) == 0
  {
    var ops := PrologueOps(l);
    forall m
      ensures DefinitionCount(ops, m) == if m == l then 1 else 0
    {
      assert ops[6..][1..] == ops[7..] == [];
      assert DefinitionCount(ops[6..], m) == 0;
      assert ops[5..][1..] == ops[6..];
      assert DefinitionCount(ops[5..], m) == 0;
      assert ops[4..][1..] == ops[5..];
      assert DefinitionCount(ops[4..], m) == if m == l then 1 else 0;
      assert ops[3..][1..] == ops[4..];
      assert DefinitionCount(ops[3..], m) == DefinitionCount(ops[4..], m);
      assert ops[2..][1..] == ops[3..];
      assert DefinitionCount(ops[2..], m) == DefinitionCount(ops[4..], m);
      assert ops[1..][1..] == ops[2..];
      assert DefinitionCount(ops[1..], m) == DefinitionCount(ops[4..], m);
    }
  }

  /** No op of `ops` defines `l`, jumps to it or calls it. */
  ghost predicate LeavesLabelAlone(ops: AllocatedOps, l: Label)
  {
    forall i :: 0 <= i < |ops| ==> Defines(ops[i]) != Some(l) && Targets(ops[i]) != Some(l)
  }

  /** Label definitions add up over a concatenation. */
  lemma {:induction false} DefinitionCountAppend(a: AllocatedOps, b: AllocatedOps, l: Label)
    ensures DefinitionCount(a + b, l) == DefinitionCount(a, l) + DefinitionCount(b, l)
  {
    if a == [] {
      assert a + b == b;
    } else {
      assert (a + b)[1..] == a[1..] + b;
      DefinitionCountAppend(a[1..], b, l);
    }
  }

  /** Code that leaves `l` alone does not define it. */
  lemma {:induction false} LeftAloneIsUndefined(ops: AllocatedOps, l: Label)
    requires LeavesLabelAlone(ops, l)
    ensures DefinitionCount(ops, l) == 0
  {
    if ops != [] {
      assert forall i :: 0 <= i < |ops[1..]| ==> ops[1..][i] == ops[i + 1];
      LeftAloneIsUndefined(ops[1..], l);
    }
  }

  /** Code placed after the preamble that leaves its label alone keeps that label
      resolved: the whole still defines it exactly once, and op 1 is still the
      only jump to it. */
  lemma PreambleLabelStaysResolved(l: Label, after: AllocatedOps)
    requires LeavesLabelAlone(after, l)
    ensures DefinitionCount(PrologueOps(l) + after, l) == 1
    ensures forall i :: 0 <= i < |PrologueOps(l) + after| && Targets((PrologueOps(l) + after)[i]) == Some(l) ==> i == 1
  {
    PrologueLabelsResolve(l);
    DefinitionCountAppend(PrologueOps(l), after, l);
    LeftAloneIsUndefined(after, l);
    var ops := PrologueOps(l) + after;
    forall i | 0 <= i < |ops| && Targets(ops[i]) == Some(l)
      ensures i == 1
    {
      assert i < 7;
      assert ops[i] == PrologueOps(l)[i];
    }
  }

  /** The byte length of a concatenation is the sum of the parts' lengths. */
  lemma {:induction false} TotalSizeAppend(a: AllocatedOps, b: AllocatedOps)
    ensures TotalSize(a + b) == match (TotalSize(a), TotalSize(b))
                                case (Some(n), Some(m)) => Some(n + m)
                                case _ => None
  {
    if a == [] {
      assert a + b == b;
    } else {
      assert (a + b)[1..] == a[1..] + b;
      TotalSizeAppend(a[1..], b);
    }
  }

  /** The byte layout of the preamble: the jump target `l` marks the end of the
      metadata, the metadata sits at bytes [16, 48), the offset placeholder is the
      word `LW $ds $scratch 1` loads relative to the program start held in scratch,
      and the preamble ends at byte 56. */
  lemma PrologueLayout(l: Label)
    ensures PrologueOps(l)[3].opcode == Control(Metadata)
    ensures TotalSize(PrologueOps(l)[..3]) == Some(PreludeMetadataOffsetInBytes)
    ensures SizeInBytes(PrologueOps(l)[3]) == Some(PreludeMetadataSizeInBytes)
    ensures TotalSize(PrologueOps(l)[..5]) == Some(PreludeMetadataOffsetInBytes + PreludeMetadataSizeInBytes)
    ensures PrologueOps(l)[2].opcode == Control(DataSectionOffsetPlaceholder)
    ensures TotalSize(PrologueOps(l)[..2]) == Some(8 * DataOffsetWord)
    ensures TotalSize(PrologueOps(l)) == Some(PreludeSizeInBytes)
  {
    var ops := PrologueOps(l);
    assert ops[6..][1..] == ops[7..] == [];
    assert TotalSize(ops[6..]) == Some(4);
    assert ops[5..][1..] == ops[6..];
    assert TotalSize(ops[5..]) == Some(8);
    assert ops[4..][1..] == ops[5..];
    assert TotalSize(ops[4..]) == Some(8);
    assert ops[3..][1..] == ops[4..];
    assert TotalSize(ops[3..]) == Some(40);
    assert ops[2..][1..] == ops[3..];
    assert TotalSize(ops[2..]) == Some(48);
    assert ops[1..][1..] == ops[2..];
    assert TotalSize(ops[1..]) == Some(52);
    assert TotalSize(ops) == Some(56);
    TotalSizeAppend(ops[..2], ops[2..]);
    assert ops[..2] + ops[2..] == ops;
    TotalSizeAppend(ops[..3], ops[3..]);
    assert ops[..3] + ops[3..] == ops;
    TotalSizeAppend(ops[..5], ops[5..]);
    assert ops[..5] + ops[5..] == ops;
  }
}
