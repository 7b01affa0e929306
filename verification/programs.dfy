/**
 * The abstract program and the driver that lowers it to an allocated program:
 * prologue, globals reservation, before-entries code, contract dispatch, then
 * every function optimized, verified and register-allocated.
 */
module Programs {
  import opened Common
  import opened AsmLang
  import opened Sections
  import opened Entries
  import opened Prelude
  import opened Dispatch
  import opened Lowering

  datatype ProgramKind = Script | Predicate | Contract | Library

  /** An instruction set with allocated registers, which the driver grows in place. */
  class AllocatedAbstractInstructionSet {
    var ops: AllocatedOps

    constructor (initial: AllocatedOps)
      ensures ops == initial
    {
      ops := initial;
    }
  }

  /** The lowering output. */
  datatype AllocatedProgram = AllocatedProgram(
    kind: ProgramKind,
    dataSection: seq<DataEntry>,
    prologue: AllocatedOps,
    functions: seq<AllocatedOps>,
    entries: seq<EntryInfo>)

  /** `CFEI` reserving the globals' bytes on the stack; the length is cast to `u32`. */
  function GlobalsAllocationOp(globals: GlobalsSection): (op: AllocatedAbstractOp)
    ensures op.opcode.Machine? && op.opcode.op.CFEI? && op.opcode.op.imm24 < TwoTo32
    ensures op.opcode.op.imm24 == globals.lenInBytes % TwoTo32
    ensures globals.lenInBytes < TwoTo32 ==> op.opcode.op.imm24 == globals.lenInBytes
  {
    AllocatedAbstractOp(Machine(CFEI(globals.lenInBytes % TwoTo32)), GlobalsAllocation)
  }

  function JumpToEntryOp(target: Label): AllocatedAbstractOp
  {
    AllocatedAbstractOp(Control(Jump(target)), JumpToAbiSelector)
  }

  /** The dispatch code a program of this kind gets. */
  function DispatchOps(kind: ProgramKind, newEncoding: bool, entries: seq<AbstractEntry>,
                       fallback: Option<Label>, base: nat): AllocatedOps
    requires kind == Contract && newEncoding ==> FindEntry(entries, EntryFunctionName).Some?
  {
    if kind == Contract && newEncoding then [JumpToEntryOp(entries[FindEntry(entries, EntryFunctionName).value].jumpLabel)]
    else if kind == Contract then SwitchOps(entries, fallback, base)
    else []
  }

  /** The data-section values the dispatch code adds. */
  function DispatchWords(kind: ProgramKind, newEncoding: bool, entries: seq<AbstractEntry>): seq<DataEntry>
  {
    if kind == Contract && !newEncoding then SwitchWords(entries) else []
  }

  /** What the dispatch code does with a call carrying input selector `input`: a
      new-encoding contract jumps to the first entry named `__entry` whatever the
      input, an old-encoding contract dispatches on the selector, and any other
      kind of program falls through to the code that follows. */
  lemma DispatchBehaviour(kind: ProgramKind, newEncoding: bool, entries: seq<AbstractEntry>,
                          fallback: Option<Label>, data: seq<DataEntry>, input: int)
    requires kind == Contract && newEncoding ==> FindEntry(entries, EntryFunctionName).Some?
    ensures Exec(DispatchOps(kind, newEncoding, entries, fallback, |data|),
                 data + DispatchWords(kind, newEncoding, entries), map[], input)
            == if kind == Contract && newEncoding then JumpTo(entries[FindEntry(entries, EntryFunctionName).value].jumpLabel)
               else if kind == Contract then ExpectedDispatch(entries, fallback, input)
               else FellThrough
  {
    if kind == Contract && !newEncoding {
      SwitchDispatches(entries, fallback, data, input);
    }
  }

  /** The dispatch code jumps to or calls only entry labels and the fallback, and
      defines no label, so a label that is neither is left alone. */
  lemma DispatchLeavesLabelAlone(kind: ProgramKind, newEncoding: bool, entries: seq<AbstractEntry>,
                                 fallback: Option<Label>, base: nat, l: Label)
    requires kind == Contract && newEncoding ==> FindEntry(entries, EntryFunctionName).Some?
    requires forall e :: e in entries ==> e.jumpLabel != l
    requires fallback != Some(l)
    ensures LeavesLabelAlone(DispatchOps(kind, newEncoding, entries, fallback, base), l)
  {
    if kind == Contract && newEncoding {
      assert entries[FindEntry(entries, EntryFunctionName).value] in entries;
    } else if kind == Contract {
      SwitchLeavesLabelAlone(entries, fallback, base, l);
    }
  }

  /** The prologue the driver builds around label `l` (preamble, globals
      reservation, lowered before-entries code, dispatch) defines `l` exactly once
      and jumps to it only from op 1, provided no entry label and no fallback is
      `l` and the before-entries code leaves it alone. */
  lemma PrologueLabelResolves(kind: ProgramKind, newEncoding: bool, entries: seq<AbstractEntry>,
                              fallback: Option<Label>, globals: GlobalsSection, before: AllocatedOps,
                              base: nat, l: Label)
    requires kind == Contract && newEncoding ==> FindEntry(entries, EntryFunctionName).Some?
    requires forall e :: e in entries ==> e.jumpLabel != l
    requires fallback != Some(l)
    requires LeavesLabelAlone(before, l)
    ensures var ops := PrologueOps(l) + [GlobalsAllocationOp(globals)] + before
                       + DispatchOps(kind, newEncoding, entries, fallback, base);
            && DefinitionCount(ops, l) == 1
            && forall i :: 0 <= i < |ops| && Targets(ops[i]) == Some(l) ==> i == 1
  {
    var dispatch := DispatchOps(kind, newEncoding, entries, fallback, base);
    DispatchLeavesLabelAlone(kind, newEncoding, entries, fallback, base, l);
    var after := [GlobalsAllocationOp(globals)] + before + dispatch;
    forall i | 0 <= i < |after|
      ensures Defines(after[i]) != Some(l) && Targets(after[i]) != Some(l)
    {
      if i == 0 {
      } else if i < 1 + |before| {
        assert after[i] == before[i - 1];
      } else {
        assert after[i] == dispatch[i - 1 - |before|];
      }
    }
    PreambleLabelStaysResolved(l, after);
    assert PrologueOps(l) + [GlobalsAllocationOp(globals)] + before + dispatch == PrologueOps(l) + after;
  }

  class AbstractProgram {
    const kind: ProgramKind
    const dataSection: DataSection
    const globalsSection: GlobalsSection
    const beforeEntries: AbstractInstructionSet
    const entries: seq<AbstractEntry>
    const nonEntries: seq<AbstractInstructionSet>
    const regSeqr: RegisterSequencer
    /** `experimental.new_encoding`. */
    const newEncoding: bool

    constructor (kind: ProgramKind, dataSection: DataSection, globalsSection: GlobalsSection,
                 beforeEntries: AbstractInstructionSet, entries: seq<AbstractEntry>,
                 nonEntries: seq<AbstractInstructionSet>, regSeqr: RegisterSequencer, newEncoding: bool)
      ensures this.kind == kind && this.dataSection == dataSection && this.globalsSection == globalsSection
      ensures this.beforeEntries == beforeEntries && this.entries == entries && this.nonEntries == nonEntries
      ensures this.regSeqr == regSeqr && this.newEncoding == newEncoding
    {
      this.kind := kind;
      this.dataSection := dataSection;
      this.globalsSection := globalsSection;
      this.beforeEntries := beforeEntries;
      this.entries := entries;
      this.nonEntries := nonEntries;
      this.regSeqr := regSeqr;
      this.newEncoding := newEncoding;
    }

    /** No entries, no other functions and no data. */
    function IsEmpty(): (r: bool)
      reads dataSection
      ensures r <==> |nonEntries| == 0 && |entries| == 0 && |dataSection.valuePairs| == 0
    {
      nonEntries == [] && entries == [] && dataSection.valuePairs == []
    }

    /** Every entry's label has already been issued by the program's sequencer. */
    ghost predicate LabelsIssued()
      reads regSeqr
    {
      forall e :: e in entries ==> e.jumpLabel < regSeqr.nextLabel
    }

    /** Lowers the program. A new-encoding contract must have an entry named
        `__entry`. The entries' labels and the fallback come from the program's
        own sequencer, so the preamble's fresh label differs from all of them and
        the dispatch code leaves it alone. */
    method IntoAllocatedProgram(fallback: Option<Label>, backend: Backend) returns (r: Result<AllocatedProgram, CompileError>)
      requires kind == Contract && newEncoding ==> FindEntry(entries, EntryFunctionName).Some?
      requires LabelsIssued()
      requires fallback.Some? ==> fallback.value < regSeqr.nextLabel
      modifies dataSection, regSeqr
      ensures regSeqr.nextLabel == old(regSeqr.nextLabel) + 1
      ensures LabelsIssued()
      ensures (forall e :: e in entries ==> e.jumpLabel != old(regSeqr.nextLabel))
              && fallback != Some(old(regSeqr.nextLabel))
      ensures LeavesLabelAlone(DispatchOps(kind, newEncoding, entries, fallback, |old(dataSection.valuePairs)|),
                               old(regSeqr.nextLabel))
      ensures var before := LowerBeforeEntries(beforeEntries, old(dataSection.valuePairs), backend);
              var data := old(dataSection.valuePairs) + DispatchWords(kind, newEncoding, entries);
              var functions := LowerFunctions(AllFunctions(entries, nonEntries), data, backend);
              && (before.Err? ==> r == Err(before.error) && dataSection.valuePairs == old(dataSection.valuePairs))
              && (before.Ok? ==> dataSection.valuePairs == data)
              && (before.Ok? && functions.Err? ==> r == Err(functions.error))
              && (before.Ok? && functions.Ok? ==>
                    r == Ok(AllocatedProgram(
                           kind,
                           data,
                           PrologueOps(old(regSeqr.nextLabel)) + [GlobalsAllocationOp(globalsSection)] + before.value
                             + DispatchOps(kind, newEncoding, entries, fallback, |old(dataSection.valuePairs)|),
                           functions.value,
                           EntryInfos(entries))))
      ensures old(IsEmpty()) && r.Ok? ==> r.value.functions == [] && r.value.entries == [] && r.value.dataSection == []
    {
      DispatchLeavesLabelAlone(kind, newEncoding, entries, fallback, |dataSection.valuePairs|, regSeqr.nextLabel);
      var prologue := BuildPrologue();
      AppendGlobalsAllocation(prologue);
      var appended := AppendBeforeEntries(prologue, backend);
      if appended.Fail? {
        return Err(appended.error);
      }
      ghost var preamble := prologue.ops;
      if kind == Contract && newEncoding {
        AppendJumpToEntry(prologue);
      } else if kind == Contract {
        AppendEncodingV0ContractAbiSwitch(prologue, fallback);
      }
      assert prologue.ops == preamble + DispatchOps(kind, newEncoding, entries, fallback, |old(dataSection.valuePairs)|);
      assert dataSection.valuePairs == old(dataSection.valuePairs) + DispatchWords(kind, newEncoding, entries);
      var entryInfos := EntryInfos(entries);
      var allFunctions := AllFunctions(entries, nonEntries);
      var functions :- LowerFunctions(allFunctions, dataSection.valuePairs, backend);
      r := Ok(AllocatedProgram(kind, dataSection.valuePairs, prologue.ops, functions, entryInfos));
    }

    /** Lowers the before-entries code against the current data section and splices it in. */
    method AppendBeforeEntries(prologue: AllocatedAbstractInstructionSet, backend: Backend) returns (o: Outcome<CompileError>)
      modifies prologue
      ensures var lowered := LowerBeforeEntries(beforeEntries, dataSection.valuePairs, backend);
              && (lowered.Ok? ==> o == Pass && prologue.ops == old(prologue.ops) + lowered.value)
              && (lowered.Err? ==> o == Fail(lowered.error) && prologue.ops == old(prologue.ops))
    {
      var lowered := LowerBeforeEntries(beforeEntries, dataSection.valuePairs, backend);
      if lowered.Err? {
        return Fail(lowered.error);
      }
      prologue.ops := prologue.ops + lowered.value;
      o := Pass;
    }

    /** A fresh instruction set holding the preamble, around a newly issued label. */
    method BuildPrologue() returns (prologue: AllocatedAbstractInstructionSet)
      modifies regSeqr
      ensures fresh(prologue)
      ensures prologue.ops == PrologueOps(old(regSeqr.nextLabel))
      ensures regSeqr.nextLabel == old(regSeqr.nextLabel) + 1
    {
      var endOfMetadata := regSeqr.GetLabel();
      prologue := new AllocatedAbstractInstructionSet(PrologueOps(endOfMetadata));
    }

    /** New encoding: one jump to the first entry named `__entry`. */
    method AppendJumpToEntry(asm: AllocatedAbstractInstructionSet)
      requires FindEntry(entries, EntryFunctionName).Some?
      modifies asm
      ensures asm.ops == old(asm.ops) + [JumpToEntryOp(entries[FindEntry(entries, EntryFunctionName).value].jumpLabel)]
    {
      var entry := entries[FindEntry(entries, EntryFunctionName).value];
      asm.ops := asm.ops + [JumpToEntryOp(entry.jumpLabel)];
    }

    /** Old encoding: compare the input selector with each entry's selector, in
        entry order, storing each selector word in the data section; then call the
        fallback if there is one, then revert. */
    method AppendEncodingV0ContractAbiSwitch(asm: AllocatedAbstractInstructionSet, fallback: Option<Label>)
      modifies asm, dataSection
      ensures asm.ops == old(asm.ops) + SwitchOps(entries, fallback, |old(dataSection.valuePairs)|)
      ensures dataSection.valuePairs == old(dataSection.valuePairs) + SwitchWords(entries)
    {
      asm.ops := asm.ops + [SwitchBeginOp(), LoadInputSelectorOp()];
      AppendSelectorCases(asm);
      asm.ops := asm.ops + (FallbackOps(fallback) + RevertOps());
    }

    /** The loop over the entries inside the switch: one case per entry with a
        selector, whose word goes to the end of the data section. */
    method AppendSelectorCases(asm: AllocatedAbstractInstructionSet)
      modifies asm, dataSection
      ensures asm.ops == old(asm.ops) + CaseOps(Cases(entries), |old(dataSection.valuePairs)|)
      ensures dataSection.valuePairs == old(dataSection.valuePairs) + SwitchWords(entries)
    {
      ghost var start := asm.ops;
      ghost var base := |dataSection.valuePairs|;
      for i := 0 to |entries|
        invariant asm.ops == start + CaseOps(Cases(entries[..i]), base)
        invariant dataSection.valuePairs == old(dataSection.valuePairs) + SwitchWords(entries[..i])
      {
        var entry := entries[i];
        SwitchPrefixStep(entries, i);
        ghost var earlier := Cases(entries[..i]);
        match entry.selector {
          case None =>
            assert Cases(entries[..i + 1]) == earlier;
          case Some(selector) =>
            var dataLabel := dataSection.InsertDataValue(Word(SelectorWord(selector)));
            assert dataLabel == DataId(base + |earlier|);
            CaseOpsAppend(earlier, entry, base);
            asm.ops := asm.ops + CaseBlock(entry, dataLabel);
            assert asm.ops == start + CaseOps(earlier + [entry], base);
            assert Cases(entries[..i + 1]) == earlier + [entry];
        }
      }
      assert entries[..|entries|] == entries;
    }

    /** Reserves the globals' bytes right after what is already there. */
    method AppendGlobalsAllocation(asm: AllocatedAbstractInstructionSet)
      modifies asm
      ensures asm.ops == old(asm.ops) + [GlobalsAllocationOp(globalsSection)]
    {
      asm.ops := asm.ops + [GlobalsAllocationOp(globalsSection)];
    }
  }
}
