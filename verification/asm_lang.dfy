/**
 * The assembly-language vocabulary the lowering driver works with: jump labels,
 * data-section ids, registers, the allocated opcodes the driver emits itself and
 * the control-flow pseudo-ops shared by abstract and allocated code.
 */
module AsmLang {
  import opened Common

  /** An opaque jump target, issued by the register sequencer. */
  type Label = nat

  /** The id `insert_data_value` returns: the index of a value in the data section. */
  datatype DataId = DataId(index: nat)

  /** Registers with a fixed hardware purpose; only those the driver names. */
  datatype ConstantRegister = ProgramCounter | FramePointer | DataSectionStart | Scratch

  datatype AllocatedRegister = Allocated(number: nat) | Constant(reg: ConstantRegister)

  /** The machine instructions the driver emits, plus every other instruction
      (what register allocation produces) as an uninterpreted `Other`. */
  datatype AllocatedOpcode =
    | MOVE(dst: AllocatedRegister, src: AllocatedRegister)
    | LW(dst: AllocatedRegister, base: AllocatedRegister, imm12: nat)
    | ADD(dst: AllocatedRegister, lhs: AllocatedRegister, rhs: AllocatedRegister)
    | EQ(dst: AllocatedRegister, lhs: AllocatedRegister, rhs: AllocatedRegister)
    | MOVI(dst: AllocatedRegister, imm18: nat)
    | RVRT(code: AllocatedRegister)
    | CFEI(imm24: nat)
    | LoadDataId(dst: AllocatedRegister, id: DataId)
    | Other(mnemonic: string, args: seq<AllocatedRegister>)

  /** Control-flow pseudo-ops, generic over the register kind. */
  datatype ControlFlowOp<Reg> =
    | Label(defines: Label)
    | Comment
    | Jump(target: Label)
    | JumpIfNotZero(cond: Reg, target: Label)
    | Call(callee: Label)
    | DataSectionOffsetPlaceholder
    | Metadata

  /** `Either<AllocatedOpcode, ControlFlowOp<AllocatedRegister>>`. */
  datatype AllocatedOp = Machine(op: AllocatedOpcode) | Control(cf: ControlFlowOp<AllocatedRegister>)

  /** The comment an op carries. The lowering driver writes a fixed set of
      messages, two of which name an entry; ops that come out of the back-end
      passes carry whatever text those give them. */
  datatype OpComment =
    | Text(text: string)
    | DataSectionOffset
    | MetadataBlock
    | EndOfMetadata
    | GlobalsAllocation
    | JumpToAbiSelector
    | SwitchBegin
    | LoadInputSelector
    | LoadSelectorOf(functionName: string)
    | CompareSelectorOf(functionName: string)
    | JumpToSelected
    | CallFallback
    | LoadRevertCode
    | RevertNoMatch

  /** The text a comment is printed as. */
  function CommentText(c: OpComment): string
  {
    match c
    case Text(t) => t
    case DataSectionOffset => "data section offset"
    case MetadataBlock => "metadata"
    case EndOfMetadata => "end of metadata"
    case GlobalsAllocation => "allocate stack space for globals"
    case JumpToAbiSelector => "jump to ABI function selector"
    case SwitchBegin => "[function selection]: begin contract function selector switch"
    case LoadInputSelector => "[function selection]: load input function selector"
    case LoadSelectorOf(name) => "[function selection]: load function " + name + " selector for comparison"
    case CompareSelectorOf(name) => "[function selection]: compare function " + name + " selector with input selector"
    case JumpToSelected => "[function selection]: jump to selected contract function"
    case CallFallback => "[function selection]: call contract fallback function"
    case LoadRevertCode => "[function selection]: load revert code for mismatched function selector"
    case RevertNoMatch => "[function selection]: revert if no selectors have matched"
  }

  datatype AllocatedAbstractOp = AllocatedAbstractOp(opcode: AllocatedOp, comment: OpComment)

  /** The ops of an allocated instruction set, as they are stored in the output program. */
  type AllocatedOps = seq<AllocatedAbstractOp>

  /** Virtual registers and abstract ops are only handed to the opaque back-end
      passes, so their inside is left uninterpreted. */
  datatype VirtualRegister = Virtual(name: string) | VirtualConstant(reg: ConstantRegister)

  datatype VirtualOp = VirtualOp(mnemonic: string, args: seq<VirtualRegister>)

  datatype AbstractOpcode = VirtualMachine(op: VirtualOp) | VirtualControl(cf: ControlFlowOp<VirtualRegister>)

  datatype AbstractOp = AbstractOp(opcode: AbstractOpcode, comment: string)

  datatype AbstractInstructionSet = AbstractInstructionSet(ops: seq<AbstractOp>)

  /**
   * The size in bytes each prologue op occupies in the binary, from the word
   * table above `build_prologue`: an instruction is 4 bytes, the data-section
   * offset placeholder a full 8-byte word, the metadata block 32 bytes, a label
   * or comment nothing. Ops whose encoding is decided downstream have no size here.
   */
  function SizeInBytes(op: AllocatedAbstractOp): Option<nat>
  {
    match op.opcode
    case Machine(MOVE(_, _)) => Some(4)
    case Machine(LW(_, _, _)) => Some(4)
    case Machine(ADD(_, _, _)) => Some(4)
    case Control(Jump(_)) => Some(4)
    case Control(DataSectionOffsetPlaceholder) => Some(8)
    case Control(Metadata) => Some(32)
    case Control(Label(_)) => Some(0)
    case Control(Comment) => Some(0)
    case _ => None
  }

  /** The byte length of a sequence of ops, when every op in it has a size. */
  function TotalSize(ops: AllocatedOps): Option<nat>
  {
    if ops == [] then Some(0)
    else match (SizeInBytes(ops[0]), TotalSize(ops[1..]))
      case (Some(n), Some(m)) => Some(n + m)
      case _ => None
  }
}
