/**
 * The old-encoding contract dispatch switch: the ops it emits, the selector
 * words it adds to the data section, and a reference reading of those ops that
 * shows which label a call with a given input selector reaches.
 */
module Dispatch {
  import opened Common
  import opened AsmLang
  import opened Sections
  import opened Entries
  import opened Prelude

  /** The first argument of a contract call sits 73 words into the call frame. */
  const SelectorWordOffset: nat := 73
  const InputSelectorReg: AllocatedRegister := Allocated(0)
  const ProgSelectorReg: AllocatedRegister := Allocated(1)
  const CmpResultReg: AllocatedRegister := Allocated(2)

  /** From compiler_constants.rs, which is not part of this model; no proof depends on the value. */
  const MismatchedSelectorRevertCode: nat := 123

  /** The entries the switch has a case for, in entry order: those with a selector. */
  function Cases(entries: seq<AbstractEntry>): (cs: seq<AbstractEntry>)
    ensures |cs| <= |entries|
    ensures forall j :: 0 <= j < |cs| ==> cs[j].selector.Some?
  {
    if entries == [] then []
    else (if entries[0].selector.Some? then [entries[0]] else []) + Cases(entries[1..])
  }

  /** An entry gets a case exactly when it carries a selector. */
  lemma {:induction false} CasesAreSelectorEntries(entries: seq<AbstractEntry>, e: AbstractEntry)
    ensures e in Cases(entries) <==> e in entries && e.selector.Some?
  {
    if entries != [] {
      CasesAreSelectorEntries(entries[1..], e);
      assert entries == [entries[0]] + entries[1..];
    }
  }

  /** Going through the entries one at a time, an entry adds a case only if it has a selector. */
  lemma {:induction false} CasesAppend(entries: seq<AbstractEntry>, e: AbstractEntry)
    ensures Cases(entries + [e]) == Cases(entries) + (if e.selector.Some? then [e] else [])
  {
    if entries == [] {
      assert entries + [e] == [e];
    } else {
      assert (entries + [e])[1..] == entries[1..] + [e];
      CasesAppend(entries[1..], e);
    }
  }

  /** The words the switch appends to the data section, one per case. */
  function SwitchWords(entries: seq<AbstractEntry>): (words: seq<DataEntry>)
    ensures |words| == |Cases(entries)|
    ensures forall j :: 0 <= j < |words| ==> words[j].Word? && words[j].value < TwoTo32
  {
    var cs := Cases(entries);
    seq(|cs|, j requires 0 <= j < |cs| => Word(SelectorWord(cs[j].selector.value)))
  }

  /** An entry with a selector adds its word to the data section; one without adds nothing. */
  lemma SwitchWordsAppend(entries: seq<AbstractEntry>, e: AbstractEntry)
    ensures SwitchWords(entries + [e]) == SwitchWords(entries) + match e.selector
                                                                 case Some(s) => [Word(SelectorWord(s))]
                                                                 case None => []
  {
    CasesAppend(entries, e);
  }

  /** Going through the entries in order, entry `i` extends the cases and the data words of the ones before it. */
  lemma SwitchPrefixStep(entries: seq<AbstractEntry>, i: nat)
    requires i < |entries|
    ensures Cases(entries[..i + 1]) == Cases(entries[..i]) + (if entries[i].selector.Some? then [entries[i]] else [])
    ensures SwitchWords(entries[..i + 1]) == SwitchWords(entries[..i]) + match entries[i].selector
                                                                         case Some(s) => [Word(SelectorWord(s))]
                                                                         case None => []
  {
    assert entries[..i + 1] == entries[..i] + [entries[i]];
    CasesAppend(entries[..i], entries[i]);
    SwitchWordsAppend(entries[..i], entries[i]);
  }

  function SwitchBeginOp(): AllocatedAbstractOp
  {
    AllocatedAbstractOp(Control(Comment), SwitchBegin)
  }

  function LoadInputSelectorOp(): AllocatedAbstractOp
  {
    AllocatedAbstractOp(Machine(LW(InputSelectorReg, Constant(FramePointer), SelectorWordOffset)),
                        LoadInputSelector)
  }

  /** The three ops of one case: load the entry's selector, compare it with the input, jump if equal. */
  function CaseBlock(e: AbstractEntry, id: DataId): (ops: AllocatedOps)
    ensures |ops| == 3
  {
    [ AllocatedAbstractOp(Machine(LoadDataId(ProgSelectorReg, id)),
                          LoadSelectorOf(e.name)),
      AllocatedAbstractOp(Machine(EQ(CmpResultReg, InputSelectorReg, ProgSelectorReg)),
                          CompareSelectorOf(e.name)),
      AllocatedAbstractOp(Control(JumpIfNotZero(CmpResultReg, e.jumpLabel)),
                          JumpToSelected) ]
  }

  /** The cases for `cs`, whose selector words sit in the data section from index `base` on. */
  function CaseOps(cs: seq<AbstractEntry>, base: nat): (ops: AllocatedOps)
    ensures |ops| == 3 * |cs|
  {
    if cs == [] then [] else CaseBlock(cs[0], DataId(base)) + CaseOps(cs[1..], base + 1)
  }

  /** Case `j` occupies ops [3j, 3j + 3) and loads data id `base + j`. */
  lemma {:induction false} CaseOpsAt(cs: seq<AbstractEntry>, base: nat, j: nat)
    requires j < |cs|
    ensures CaseOps(cs, base)[3 * j .. 3 * j + 3] == CaseBlock(cs[j], DataId(base + j))
  {
    if j > 0 {
      CaseOpsAt(cs[1..], base + 1, j - 1);
      var head := CaseBlock(cs[0], DataId(base));
      var tail := CaseOps(cs[1..], base + 1);
      assert CaseOps(cs, base) == head + tail;
      assert (head + tail)[3..] == tail;
      assert (head + tail)[3 * j .. 3 * j + 3] == (head + tail)[3..][3 * (j - 1) .. 3 * (j - 1) + 3];
    }
  }

  /** Adding one more case appends its block, with the next data id. */
  lemma {:induction false} CaseOpsAppend(cs: seq<AbstractEntry>, c: AbstractEntry, base: nat)
    ensures CaseOps(cs + [c], base) == CaseOps(cs, base) + CaseBlock(c, DataId(base + |cs|))
  {
    if cs == [] {
      assert cs + [c] == [c];
      assert [c][1..] == [];
    } else {
      assert (cs + [c])[1..] == cs[1..] + [c];
      CaseOpsAppend(cs[1..], c, base + 1);
    }
  }

  function FallbackOps(fallback: Option<Label>): AllocatedOps
  {
    match fallback
    case Some(f) => [AllocatedAbstractOp(Control(Call(f)), CallFallback)]
    case None => []
  }

  function RevertOps(): AllocatedOps
  {
    [ AllocatedAbstractOp(Machine(MOVI(Constant(Scratch), MismatchedSelectorRevertCode)),
                          LoadRevertCode),
      AllocatedAbstractOp(Machine(RVRT(Constant(Scratch))),
                          RevertNoMatch) ]
  }

  /** Everything the switch appends, when the data section held `base` values before it. */
  function SwitchOps(entries: seq<AbstractEntry>, fallback: Option<Label>, base: nat): AllocatedOps
  {
    [SwitchBeginOp(), LoadInputSelectorOp()] + CaseOps(Cases(entries), base) + FallbackOps(fallback) + RevertOps()
  }

  /** Case `j` of the switch sits right after the two opening ops. */
  lemma SwitchCaseAt(entries: seq<AbstractEntry>, fallback: Option<Label>, base: nat, j: nat)
    requires j < |Cases(entries)|
    ensures SwitchOps(entries, fallback, base)[2 + 3 * j .. 5 + 3 * j] == CaseBlock(Cases(entries)[j], DataId(base + j))
  {
    var cases := CaseOps(Cases(entries), base);
    var ops := SwitchOps(entries, fallback, base);
    CaseOpsAt(Cases(entries), base, j);
    assert ops == [SwitchBeginOp(), LoadInputSelectorOp()] + cases + (FallbackOps(fallback) + RevertOps());
    assert ops[2 + 3 * j .. 5 + 3 * j] == cases[3 * j .. 3 * j + 3];
  }

  /** The switch is 2 + 3k + (1 with a fallback) + 2 ops for k selector-bearing
      entries: it opens with the comment and the input load, case j is
      `LoadDataId`, `EQ`, `JumpIfNotZero` to the j-th selector entry's label, the
      fallback call comes only when a fallback is given, and it ends with the
      mismatch revert. */
  lemma SwitchOpsShape(entries: seq<AbstractEntry>, fallback: Option<Label>, base: nat)
    ensures var ops := SwitchOps(entries, fallback, base);
            var k := |Cases(entries)|;
            var f := if fallback.Some? then 1 else 0;
            && |ops| == 2 + 3 * k + f + 2
            && ops[..2] == [SwitchBeginOp(), LoadInputSelectorOp()]
            && (forall j :: 0 <= j < k ==> ops[2 + 3 * j .. 5 + 3 * j] == CaseBlock(Cases(entries)[j], DataId(base + j)))
            && ops[2 + 3 * k .. 2 + 3 * k + f] == FallbackOps(fallback)
            && ops[|ops| - 2..] == RevertOps()
  {
    var ops := SwitchOps(entries, fallback, base);
    var cases := CaseOps(Cases(entries), base);
    var rest := FallbackOps(fallback) + RevertOps();
    assert ops == [SwitchBeginOp(), LoadInputSelectorOp()] + cases + rest;
    assert ops[2 + |cases|..] == rest;
    forall j | 0 <= j < |Cases(entries)|
      ensures ops[2 + 3 * j .. 5 + 3 * j] == CaseBlock(Cases(entries)[j], DataId(base + j))
    {
      SwitchCaseAt(entries, fallback, base, j);
    }
  }

  /** The cases jump only to their entries' labels and define no label. */
  lemma {:induction false} CaseOpsLeaveLabelAlone(cs: seq<AbstractEntry>, base: nat, l: Label)
    requires forall j :: 0 <= j < |cs| ==> cs[j].jumpLabel != l
    ensures LeavesLabelAlone(CaseOps(cs, base), l)
  {
    if cs != [] {
      CaseOpsLeaveLabelAlone(cs[1..], base + 1, l);
      var head := CaseBlock(cs[0], DataId(base));
      var tail := CaseOps(cs[1..], base + 1);
      assert CaseOps(cs, base) == head + tail;
      forall i | 0 <= i < |head + tail|
        ensures Defines((head + tail)[i]) != Some(l) && Targets((head + tail)[i]) != Some(l)
      {
        if i >= 3 {
          assert (head + tail)[i] == tail[i - 3];
        }
      }
    }
  }

  /** The switch jumps to or calls only entry labels and the fallback, and defines
      no label, so a label that is neither is left alone. */
  lemma SwitchLeavesLabelAlone(entries: seq<AbstractEntry>, fallback: Option<Label>, base: nat, l: Label)
    requires forall e :: e in entries ==> e.jumpLabel != l
    requires fallback != Some(l)
    ensures LeavesLabelAlone(SwitchOps(entries, fallback, base), l)
  {
    var cs := Cases(entries);
    forall j | 0 <= j < |cs|
      ensures cs[j].jumpLabel != l
    {
      CasesAreSelectorEntries(entries, cs[j]);
    }
    CaseOpsLeaveLabelAlone(cs, base, l);
    var opening := [SwitchBeginOp(), LoadInputSelectorOp()];
    var cases := CaseOps(cs, base);
    var rest := FallbackOps(fallback) + RevertOps();
    var ops := SwitchOps(entries, fallback, base);
    assert ops == opening + cases + rest;
    forall i | 0 <= i < |ops|
      ensures Defines(ops[i]) != Some(l) && Targets(ops[i]) != Some(l)
    {
      if i < 2 {
        assert ops[i] == opening[i];
      } else if i < 2 + |cases| {
        assert ops[i] == cases[i - 2];
      } else {
        assert ops[i] == rest[i - 2 - |cases|];
      }
    }
  }

  // A reference reading of the dispatch code, enough to follow a call through
  // the switch: registers hold integers, the frame word at the selector offset is
  // the caller's input selector, and execution stops at the first transfer of control.

  datatype Transfer = JumpTo(target: Label) | Called(callee: Label) | Reverted(code: int) | FellThrough | Stuck

  function Exec(ops: AllocatedOps, data: seq<DataEntry>, regs: map<AllocatedRegister, int>, input: int): Transfer
    decreases |ops|
  {
    if ops == [] then FellThrough
    else
      var rest := ops[1..];
      match ops[0].opcode
      case Control(Comment) => Exec(rest, data, regs, input)
      case Control(Label(_)) => Exec(rest, data, regs, input)
      case Control(Jump(l)) => JumpTo(l)
      case Control(JumpIfNotZero(r, l)) =>
        if r !in regs then Stuck
        else if regs[r] != 0 then JumpTo(l)
        else Exec(rest, data, regs, input)
      case Control(Call(l)) => Called(l)
      case Machine(LW(d, Constant(FramePointer), off)) =>
        if off == SelectorWordOffset then Exec(rest, data, regs[d := input], input) else Stuck
      case Machine(LoadDataId(d, id)) =>
        if id.index < |data| && data[id.index].Word? then Exec(rest, data, regs[d := data[id.index].value], input)
        else Stuck
      case Machine(EQ(d, a, b)) =>
        if a in regs && b in regs then Exec(rest, data, regs[d := if regs[a] == regs[b] then 1 else 0], input)
        else Stuck
      case Machine(MOVI(d, v)) => Exec(rest, data, regs[d := v], input)
      case Machine(RVRT(r)) => if r in regs then Reverted(regs[r]) else Stuck
      case _ => Stuck
  }

  /** The first entry, in entry order, whose selector word equals `input`; entries without a selector never match. */
  function FirstMatch(entries: seq<AbstractEntry>, input: int): (r: Option<Label>)
    ensures r.Some? ==> exists i :: && 0 <= i < |entries| && entries[i].selector.Some?
                                    && SelectorWord(entries[i].selector.value) == input
                                    && entries[i].jumpLabel == r.value
                                    && forall j :: 0 <= j < i && entries[j].selector.Some?
                                                   ==> SelectorWord(entries[j].selector.value) != input
    ensures r.None? <==> forall i :: 0 <= i < |entries| && entries[i].selector.Some?
                                     ==> SelectorWord(entries[i].selector.value) != input
  {
    if entries == [] then None
    else match entries[0].selector
      case Some(s) =>
        if SelectorWord(s) == input then Some(entries[0].jumpLabel)
        else FirstMatch(entries[1..], input)
      case None => FirstMatch(entries[1..], input)
  }

  /** What a call with input selector `input` should do: jump to the first
      matching entry, otherwise call the fallback if there is one, otherwise revert
      with the mismatch code. */
  function ExpectedDispatch(entries: seq<AbstractEntry>, fallback: Option<Label>, input: int): Transfer
  {
    match FirstMatch(entries, input)
    case Some(l) => JumpTo(l)
    case None => NoMatch(fallback)
  }

  function NoMatch(fallback: Option<Label>): Transfer
  {
    match fallback
    case Some(f) => Called(f)
    case None => Reverted(MismatchedSelectorRevertCode)
  }

  /** Matching over the cases is matching over the entries. */
  lemma {:induction false} FirstMatchCases(entries: seq<AbstractEntry>, input: int)
    ensures FirstMatch(Cases(entries), input) == FirstMatch(entries, input)
  {
    if entries != [] {
      FirstMatchCases(entries[1..], input);
      var cs := Cases(entries);
      if entries[0].selector.Some? {
        assert cs[0] == entries[0] && cs[1..] == Cases(entries[1..]);
      } else {
        assert cs == Cases(entries[1..]);
      }
    }
  }

  /** After the cases, the fallback call or the revert ends the switch, whatever the registers hold. */
  lemma NoMatchTail(fallback: Option<Label>, data: seq<DataEntry>, regs: map<AllocatedRegister, int>, input: int)
    ensures Exec(FallbackOps(fallback) + RevertOps(), data, regs, input) == NoMatch(fallback)
  {
    var tail := RevertOps();
    assert tail[1..][0] == tail[1];
    assert tail[1..][1..] == [];
    if fallback.None? {
      assert FallbackOps(fallback) + tail == tail;
    }
  }

  /** Case `j` of `cs` carries a selector whose word the data section holds at index `base + j`. */
  ghost predicate WordsAt(data: seq<DataEntry>, base: nat, cs: seq<AbstractEntry>)
    decreases |cs|
  {
    cs == [] || (&& cs[0].selector.Some?
                 && base < |data|
                 && data[base] == Word(SelectorWord(cs[0].selector.value))
                 && WordsAt(data, base + 1, cs[1..]))
  }

  /** `WordsAt` from its index-wise reading. */
  lemma {:induction false} WordsAtFromIndex(data: seq<DataEntry>, base: nat, cs: seq<AbstractEntry>)
    requires base + |cs| <= |data|
    requires forall j :: 0 <= j < |cs| ==> cs[j].selector.Some? && data[base + j] == Word(SelectorWord(cs[j].selector.value))
    ensures WordsAt(data, base, cs)
    decreases |cs|
  {
    if cs != [] {
      forall j | 0 <= j < |cs[1..]|
        ensures cs[1..][j].selector.Some? && data[base + 1 + j] == Word(SelectorWord(cs[1..][j].selector.value))
      {
        assert cs[1..][j] == cs[j + 1];
      }
      WordsAtFromIndex(data, base + 1, cs[1..]);
    }
  }

  /** Running the cases finds the first matching entry, or falls through to the tail. */
  lemma {:induction false} ExecCases(cs: seq<AbstractEntry>, base: nat, fallback: Option<Label>,
                                     data: seq<DataEntry>, regs: map<AllocatedRegister, int>, input: int)
    requires WordsAt(data, base, cs)
    requires InputSelectorReg in regs && regs[InputSelectorReg] == input
    ensures Exec(CaseOps(cs, base) + (FallbackOps(fallback) + RevertOps()), data, regs, input)
            == ExpectedDispatch(cs, fallback, input)
  {
    var tail := FallbackOps(fallback) + RevertOps();
    if cs == [] {
      assert CaseOps(cs, base) + tail == tail;
      NoMatchTail(fallback, data, regs, input);
    } else {
      var w := SelectorWord(cs[0].selector.value);
      ExecCasesHead(cs, base, tail, data, regs, input);
      if input != w {
        ExecCases(cs[1..], base + 1, fallback, data, regs[ProgSelectorReg := w][CmpResultReg := 0], input);
      }
    }
  }

  /** The first case jumps to its entry's label when its word is the input, and
      otherwise hands over to the remaining cases. */
  lemma ExecCasesHead(cs: seq<AbstractEntry>, base: nat, tail: AllocatedOps,
                      data: seq<DataEntry>, regs: map<AllocatedRegister, int>, input: int)
    requires cs != [] && cs[0].selector.Some?
    requires base < |data| && data[base] == Word(SelectorWord(cs[0].selector.value))
    requires InputSelectorReg in regs && regs[InputSelectorReg] == input
    ensures var w := SelectorWord(cs[0].selector.value);
            && Exec(CaseOps(cs, base) + tail, data, regs, input)
               == (if input == w then JumpTo(cs[0].jumpLabel)
                   else Exec(CaseOps(cs[1..], base + 1) + tail, data, regs[ProgSelectorReg := w][CmpResultReg := 0], input))
            && FirstMatch(cs, input) == (if input == w then Some(cs[0].jumpLabel) else FirstMatch(cs[1..], input))
  {
    var next := CaseOps(cs[1..], base + 1) + tail;
    assert CaseOps(cs, base) + tail == CaseBlock(cs[0], DataId(base)) + next;
    ExecCaseBlock(cs[0], DataId(base), next, data, regs, input);
  }

  /** One case: load the case's word, compare it with the input selector, and
      jump to the case's label on a match or go on with the next op otherwise. */
  lemma ExecCaseBlock(c: AbstractEntry, id: DataId, next: AllocatedOps,
                      data: seq<DataEntry>, regs: map<AllocatedRegister, int>, input: int)
    requires id.index < |data| && data[id.index].Word?
    requires InputSelectorReg in regs && regs[InputSelectorReg] == input
    ensures var w := data[id.index].value;
            Exec(CaseBlock(c, id) + next, data, regs, input)
            == if input == w then JumpTo(c.jumpLabel)
               else Exec(next, data, regs[ProgSelectorReg := w][CmpResultReg := 0], input)
  {
    var w := data[id.index].value;
    var ops := CaseBlock(c, id) + next;
    var regs1 := regs[ProgSelectorReg := w];
    var regs2 := regs1[CmpResultReg := if input == w then 1 else 0];
    assert ops[1..][1..][1..] == next;
    assert Exec(ops, data, regs, input) == Exec(ops[1..], data, regs1, input);
    assert Exec(ops[1..], data, regs1, input) == Exec(ops[1..][1..], data, regs2, input);
  }

  /** The switch's opening ops load the input selector and hand over to the cases. */
  lemma ExecSwitchOpening(entries: seq<AbstractEntry>, fallback: Option<Label>, base: nat,
                          data: seq<DataEntry>, input: int)
    ensures Exec(SwitchOps(entries, fallback, base), data, map[], input)
            == Exec(CaseOps(Cases(entries), base) + (FallbackOps(fallback) + RevertOps()),
                    data, map[][InputSelectorReg := input], input)
  {
    var ops := SwitchOps(entries, fallback, base);
    var body := CaseOps(Cases(entries), base) + (FallbackOps(fallback) + RevertOps());
    assert ops == [SwitchBeginOp(), LoadInputSelectorOp()] + body;
    assert ops[1..][1..] == body;
    assert Exec(ops, data, map[], input) == Exec(ops[1..], data, map[], input);
  }

  /** The words the switch appends sit right after the data that was there, one per case. */
  lemma SwitchWordsAt(entries: seq<AbstractEntry>, data: seq<DataEntry>)
    ensures WordsAt(data + SwitchWords(entries), |data|, Cases(entries))
  {
    var cs := Cases(entries);
    var words := SwitchWords(entries);
    forall j | 0 <= j < |cs|
      ensures cs[j].selector.Some? && (data + words)[|data| + j] == Word(SelectorWord(cs[j].selector.value))
    {
      assert words[j] == Word(SelectorWord(cs[j].selector.value));
      assert (data + words)[|data| + j] == words[j];
    }
    WordsAtFromIndex(data + words, |data|, cs);
  }

  /** The emitted switch, run against the data section it extended, does what
      `ExpectedDispatch` says for every input selector. */
  lemma SwitchDispatches(entries: seq<AbstractEntry>, fallback: Option<Label>, data: seq<DataEntry>, input: int)
    ensures Exec(SwitchOps(entries, fallback, |data|), data + SwitchWords(entries), map[], input)
            == ExpectedDispatch(entries, fallback, input)
  {
    ExecSwitchOpening(entries, fallback, |data|, data + SwitchWords(entries), input);
    SwitchWordsAt(entries, data);
    ExecCases(Cases(entries), |data|, fallback, data + SwitchWords(entries), map[][InputSelectorReg := input], input);
    FirstMatchCases(entries, input);
  }

  /** Selectors are unique among the entries that carry one. */
  ghost predicate DistinctSelectors(entries: seq<AbstractEntry>)
  {
    forall i, j :: 0 <= i < j < |entries| && entries[i].selector.Some? && entries[j].selector.Some?
                   ==> entries[i].selector != entries[j].selector
  }

  /** With unique selectors, a call with entry i's selector reaches entry i's label. */
  lemma {:induction false} FirstMatchFindsEntry(entries: seq<AbstractEntry>, i: nat)
    requires DistinctSelectors(entries)
    requires i < |entries| && entries[i].selector.Some?
    ensures FirstMatch(entries, SelectorWord(entries[i].selector.value)) == Some(entries[i].jumpLabel)
  {
    var s := entries[i].selector.value;
    if i == 0 {
    } else {
      if entries[0].selector.Some? {
        SelectorWordInjective(entries[0].selector.value, s);
      }
      assert entries[1..][i - 1] == entries[i];
      FirstMatchFindsEntry(entries[1..], i - 1);
    }
  }

  /** Dispatch correctness of the emitted code: with unique selectors, calling with
      entry i's selector jumps to entry i's label and to no other. */
  lemma SwitchSelectsEntry(entries: seq<AbstractEntry>, fallback: Option<Label>, data: seq<DataEntry>, i: nat)
    requires DistinctSelectors(entries)
    requires i < |entries| && entries[i].selector.Some?
    ensures Exec(SwitchOps(entries, fallback, |data|), data + SwitchWords(entries), map[],
                 SelectorWord(entries[i].selector.value)) == JumpTo(entries[i].jumpLabel)
  {
    SwitchDispatches(entries, fallback, data, SelectorWord(entries[i].selector.value));
    FirstMatchFindsEntry(entries, i);
  }
}
