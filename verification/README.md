# Lowering abstract Sway programs, and the namespace's module path

This project models two parts of the Sway compiler (`sway-core`) in Dafny and
proves properties of them.

**The lowering driver** of the Fuel back end (`AbstractProgram` in
`asm_generation/fuel/programs/abstract.rs`). It turns an abstract program into
an allocated program:

- It builds the fixed seven-op preamble around a fresh label.
- It reserves stack space for the globals with one `CFEI`.
- It splices in the lowered "before entries" code.
- It adds the contract dispatch:
  - with the new encoding, one jump to the entry named `__entry`;
  - with the old encoding, a selector switch that also stores one big-endian
    selector word per entry that has a selector in the data section.
- It optimizes, verifies and register-allocates every function. The first
  error aborts the lowering.

`AbstractProgram`, the instruction set being grown, the data section and the
register sequencer are classes whose fields the methods update. The switch is a
loop proved against `Dispatch.SwitchOps` and `Dispatch.SwitchWords`.

Op comments are the `AsmLang.OpComment` datatype, one constructor per comment
the driver writes. `AsmLang.CommentText` gives each its text as the code spells
it, including the entry name in the two per-case comments.

A small reference interpreter, `Dispatch.Exec`, reads registers as integers and
the frame word at offset 73 as the caller's selector. It stops at the first
transfer of control. With it, the emitted switch is proved to do what the
dispatch should do for every input selector: jump to the first entry whose
selector matches, else call the fallback, else revert with the mismatch code.

**The module-path logic** of the type checker's `Namespace`
(`semantic_analysis/namespace/namespace.rs`). This covers:

- setting up a package with `new` and `next_package`;
- reading and extending the current module path;
- testing whether the current module lies inside a given absolute module path;
- testing whether a path is external to the current package;
- leaving a submodule.

The doc comment of `module_is_submodule_of` says the module path does not
contain the root name. The code of `new` and `next_package` puts the package
name in it. The model follows the code, and
`Namespaces.RootPathIsCountedTwice` states the consequence.

Modules: `Common` (Option, Result, Outcome), `AsmLang` (ops and their byte
sizes), `Sections` (data section, globals section, register sequencer),
`Prelude`, `Entries`, `Dispatch`, `Lowering`, `Programs`, `Namespaces`.

## Model

| member | source | states |
|---|---|---|
| Programs.AbstractProgram.IsEmpty | sway-core/src/asm_generation/fuel/programs/abstract.rs:75-79 | true exactly when there are no non-entry functions, no entries and no data-section values |
| Programs.AbstractProgram.IntoAllocatedProgram | sway-core/src/asm_generation/fuel/programs/abstract.rs:82-145 | the whole result. A before-entries failure is returned with the data section untouched. Otherwise the data section gains the dispatch words; a function failure is returned; on success the program keeps its kind and gets the final data, prologue = preamble + globals `CFEI` + lowered before-entries + dispatch, the lowered functions and the entry snapshot. One label is issued. An empty program lowers to no functions, entries or data. Given that the entry labels and the fallback were issued by the program's sequencer, the preamble's fresh label differs from all of them, the dispatch code leaves it alone, and the entry labels stay issued |
| Programs.DispatchBehaviour | sway-core/src/asm_generation/fuel/programs/abstract.rs:90-98 | a new-encoding contract jumps to the first `__entry` entry's label whatever the input; an old-encoding contract dispatches by selector; any other kind falls through |
| Programs.AbstractProgram.AppendBeforeEntries | sway-core/src/asm_generation/fuel/programs/abstract.rs:147-156 | on success the lowered before-entries ops are appended to the prologue; on failure the error is returned and the prologue is unchanged |
| Lowering.LowerBeforeEntries | sway-core/src/asm_generation/fuel/programs/abstract.rs:151-154 | fails exactly when verification fails or allocation of the verified code fails |
| Programs.AbstractProgram.BuildPrologue | sway-core/src/asm_generation/fuel/programs/abstract.rs:177-247 | a fresh instruction set holding the seven preamble ops around the label just issued; the label counter moves on by one |
| Prelude.PrologueOps | sway-core/src/asm_generation/fuel/programs/abstract.rs:190-246 | the preamble has exactly seven ops |
| Prelude.PrologueLabelsResolve | sway-core/src/asm_generation/fuel/programs/abstract.rs:190-220 | the preamble's only jump is op 1, to label L; L is defined exactly once in it and no other label is defined |
| Prelude.TotalSizeAppend | sway-core/src/asm_generation/fuel/programs/abstract.rs:161-176 | the byte size of a concatenation is the sum of the parts' sizes (unknown if either is unknown) |
| Prelude.PrologueLayout | sway-core/src/asm_generation/fuel/programs/abstract.rs:161-189 | metadata starts at byte 16 and is 32 bytes; the label after it is at byte 48; the offset placeholder is the word `LW $ds $scratch 1` addresses; the preamble is 56 bytes |
| Prelude.DefinitionCountAppend | sway-core/src/asm_generation/fuel/programs/abstract.rs:190-246 | label definitions add up over a concatenation of op sequences |
| Prelude.LeftAloneIsUndefined | sway-core/src/asm_generation/fuel/programs/abstract.rs:190-246 | code that neither defines, jumps to nor calls a label does not define it |
| Prelude.PreambleLabelStaysResolved | sway-core/src/asm_generation/fuel/programs/abstract.rs:190-246 | after appending code that leaves the preamble's label alone, the label is still defined exactly once and op 1 is still the only jump to it |
| Programs.DispatchLeavesLabelAlone | sway-core/src/asm_generation/fuel/programs/abstract.rs:89-97 | the dispatch code of every kind and encoding defines no label and jumps to or calls only entry labels and the fallback |
| Programs.PrologueLabelResolves | sway-core/src/asm_generation/fuel/programs/abstract.rs:85-97 | the prologue the driver assembles (preamble, globals reservation, before-entries code, dispatch) defines the preamble's label exactly once and jumps to it only from op 1, when no entry label or fallback equals it and the before-entries code leaves it alone |
| Dispatch.CaseOpsLeaveLabelAlone | sway-core/src/asm_generation/fuel/programs/abstract.rs:309-339 | the case blocks define no label and jump only to their entries' labels |
| Dispatch.SwitchLeavesLabelAlone | sway-core/src/asm_generation/fuel/programs/abstract.rs:263-368 | the switch defines no label and jumps to or calls only entry labels and the fallback |
| Sections.RegisterSequencer.GetLabel | sway-core/src/asm_generation/fuel/programs/abstract.rs:190 | returns the counter's value and advances it, so no label is issued twice |
| Programs.AbstractProgram.AppendJumpToEntry | sway-core/src/asm_generation/fuel/programs/abstract.rs:250-257 | appends exactly one jump, to the label of the first entry named `__entry` |
| Entries.FindEntry | sway-core/src/asm_generation/fuel/programs/abstract.rs:251 | the index of the first entry with the name, or none exactly when no entry has it |
| Programs.AbstractProgram.AppendEncodingV0ContractAbiSwitch | sway-core/src/asm_generation/fuel/programs/abstract.rs:263-368 | appends exactly `SwitchOps` to the ops and exactly `SwitchWords` to the data section |
| Programs.AbstractProgram.AppendSelectorCases | sway-core/src/asm_generation/fuel/programs/abstract.rs:295-340 | the loop over the entries appends exactly the case blocks of the selector-bearing entries, in entry order, and exactly their selector words to the data section |
| Sections.DataSection.InsertDataValue | sway-core/src/asm_generation/fuel/programs/abstract.rs:303-307 | appends the value and returns the id under which it is stored |
| Entries.SelectorWord | sway-core/src/asm_generation/fuel/programs/abstract.rs:304 | the big-endian word of a selector is below 2^32 |
| Entries.SelectorWordRoundTrip | sway-core/src/asm_generation/fuel/programs/abstract.rs:304 | splitting the word back into bytes gives the selector back |
| Entries.SelectorWordInjective | sway-core/src/asm_generation/fuel/programs/abstract.rs:304 | different selectors give different words |
| Dispatch.Cases | sway-core/src/asm_generation/fuel/programs/abstract.rs:295-300 | the entries that get a case all carry a selector, and there are no more of them than entries |
| Dispatch.CasesAreSelectorEntries | sway-core/src/asm_generation/fuel/programs/abstract.rs:295-300 | an entry gets a case exactly when it carries a selector |
| Dispatch.CasesAppend | sway-core/src/asm_generation/fuel/programs/abstract.rs:295-340 | one more entry adds a case only when it carries a selector |
| Dispatch.SwitchWords | sway-core/src/asm_generation/fuel/programs/abstract.rs:303-307 | one data word per case, each below 2^32 |
| Dispatch.SwitchWordsAppend | sway-core/src/asm_generation/fuel/programs/abstract.rs:303-307 | one more entry adds its selector's word if it has one, and nothing otherwise |
| Dispatch.SwitchPrefixStep | sway-core/src/asm_generation/fuel/programs/abstract.rs:295-307 | visiting entry i extends the cases, and the data words, of the entries before it by that entry (and its word) exactly when it carries a selector |
| Dispatch.CaseOps | sway-core/src/asm_generation/fuel/programs/abstract.rs:309-339 | three ops per case |
| Dispatch.CaseOpsAt | sway-core/src/asm_generation/fuel/programs/abstract.rs:309-339 | case j sits at ops [3j, 3j+3): load of data id base+j, compare, jump to case j's label |
| Dispatch.CaseOpsAppend | sway-core/src/asm_generation/fuel/programs/abstract.rs:309-339 | one more case appends its three-op block after the earlier ones |
| Dispatch.SwitchCaseAt | sway-core/src/asm_generation/fuel/programs/abstract.rs:274-340 | case j of the switch sits right after the two opening ops, at ops [2+3j, 5+3j) |
| Dispatch.SwitchOpsShape | sway-core/src/asm_generation/fuel/programs/abstract.rs:274-367 | 2 + 3k + (1 with a fallback) + 2 ops for k selector-bearing entries; the opening comment and input load, case j's block, the fallback call only when a fallback is given, the mismatch revert last |
| Dispatch.FirstMatch | sway-core/src/asm_generation/fuel/programs/abstract.rs:295-340 | a match names the label of an entry whose selector word equals the input and no selector-bearing entry before it has that word, so it is the first match in entry order; there is no match exactly when no selector-bearing entry has that word |
| Dispatch.FirstMatchCases | sway-core/src/asm_generation/fuel/programs/abstract.rs:295-300 | skipping selector-less entries does not change the first match |
| Dispatch.NoMatchTail | sway-core/src/asm_generation/fuel/programs/abstract.rs:342-367 | after the cases, the fallback is called if given, otherwise the program reverts with the mismatch code |
| Dispatch.ExecCaseBlock | sway-core/src/asm_generation/fuel/programs/abstract.rs:309-339 | one case block, with the input selector loaded, jumps to the entry's label when the data word equals the input and otherwise goes on to what follows |
| Dispatch.ExecCasesHead | sway-core/src/asm_generation/fuel/programs/abstract.rs:295-340 | the first case jumps to its entry when its word equals the input and otherwise hands over to the remaining cases, just as the first match does |
| Dispatch.WordsAtFromIndex | sway-core/src/asm_generation/fuel/programs/abstract.rs:303-307 | case j's selector word at data index base + j, for every j, places the cases' words one after another from base |
| Dispatch.SwitchWordsAt | sway-core/src/asm_generation/fuel/programs/abstract.rs:295-307 | after the switch, the data section holds case j's selector word at the old length plus j |
| Dispatch.ExecSwitchOpening | sway-core/src/asm_generation/fuel/programs/abstract.rs:274-292 | the opening comment and the input load hand over to the cases with the caller's selector in the input register |
| Dispatch.ExecCases | sway-core/src/asm_generation/fuel/programs/abstract.rs:295-340 | running the cases followed by the fallback and revert does exactly what the dispatch should: jump to the first matching case's label, else call the fallback, else revert |
| Dispatch.SwitchDispatches | sway-core/src/asm_generation/fuel/programs/abstract.rs:263-368 | the switch, run against the data section it extended, jumps to the first matching entry, else calls the fallback, else reverts with the mismatch code, for every input selector |
| Dispatch.FirstMatchFindsEntry | sway-core/src/asm_generation/fuel/programs/abstract.rs:295-340 | with unique selectors, entry i's selector word matches entry i first |
| Dispatch.SwitchSelectsEntry | sway-core/src/asm_generation/fuel/programs/abstract.rs:263-368 | with unique selectors, a call carrying entry i's selector reaches entry i's label |
| Programs.GlobalsAllocationOp | sway-core/src/asm_generation/fuel/programs/abstract.rs:370-379 | one `CFEI` whose immediate is the globals' byte length truncated to 32 bits, equal to the length when it fits |
| Programs.AbstractProgram.AppendGlobalsAllocation | sway-core/src/asm_generation/fuel/programs/abstract.rs:370-379 | appends exactly that one op and leaves the earlier ops as they were |
| Lowering.AllFunctions | sway-core/src/asm_generation/fuel/programs/abstract.rs:114-119 | the entry bodies in entry order, then the non-entry functions; as many as both together |
| Lowering.EntryInfos | sway-core/src/asm_generation/fuel/programs/abstract.rs:100-112 | one snapshot per entry, in order, with its selector, label, name and test declaration |
| Lowering.Collect | sway-core/src/asm_generation/fuel/programs/abstract.rs:121-134 | success exactly when every element succeeds, with the values in order; otherwise the error of the first failing element |
| Lowering.LowerFunctionsMeaning | sway-core/src/asm_generation/fuel/programs/abstract.rs:121-134 | function i of the result is function i optimized, verified, allocated and wrapped; lowering fails exactly when some function fails verification or allocation, and the first verification error is the one reported |
| Namespaces.Namespace.New | sway-core/src/semantic_analysis/namespace/namespace.rs:47-58 | fails exactly when a contract id is given and binding it fails; otherwise the package is the root and the current package, the path is `[package]`, and the contract flag is set exactly when an id is given |
| Namespaces.RootFor | sway-core/src/semantic_analysis/namespace/namespace.rs:48 | the package names both the root module and the current package |
| Namespaces.Namespace.NextPackage | sway-core/src/semantic_analysis/namespace/namespace.rs:60-69 | the root moves to the next package, the path becomes `[current package]` and the contract flag is set exactly when an id is given, even when binding then fails; fails exactly when binding fails |
| Namespaces.Namespace.ModPath | sway-core/src/semantic_analysis/namespace/namespace.rs:132-134 | the stored path itself; the namespace is not changed |
| Namespaces.Namespace.PrependModulePath | sway-core/src/semantic_analysis/namespace/namespace.rs:137-142 | the current path followed by the prefixes: the lengths add up, and the result starts with the path and ends with the prefixes |
| Namespaces.ZipAll | sway-core/src/semantic_analysis/namespace/namespace.rs:191-194 | true exactly when the two paths agree on their common length |
| Namespaces.Namespace.ModuleIsSubmoduleOf | sway-core/src/semantic_analysis/namespace/namespace.rs:172-205 | true exactly when the first name is the root module's, the rest is a prefix of the current path, and it is shorter than the path or `true_if_same` holds |
| Namespaces.Namespace.ModuleIsExternal | sway-core/src/semantic_analysis/namespace/namespace.rs:209-213 | true exactly when the first name differs from the current package's name |
| Namespaces.Popped | sway-core/src/semantic_analysis/namespace/namespace.rs:359-361 | drops the last name of a non-empty path and keeps the rest; an empty path stays empty |
| Namespaces.Namespace.PopSubmodule | sway-core/src/semantic_analysis/namespace/namespace.rs:359-361 | the path loses exactly its last name, if it has one; root and contract flag are unchanged |
| Namespaces.AncestorsContainCurrentModule | sway-core/src/semantic_analysis/namespace/namespace.rs:172-205 | every proper ancestor on the current path contains the current module; the module itself does only when `true_if_same` |
| Namespaces.PopReturnsToParent | sway-core/src/semantic_analysis/namespace/namespace.rs:359-361 | popping returns to a module that strictly contains the one left |
| Namespaces.ContainingModuleIsNotExternal | sway-core/src/semantic_analysis/namespace/namespace.rs:172-213 | while the root module is named after the current package, a module containing the current one is not external |
| Namespaces.RootPathIsCountedTwice | sway-core/src/semantic_analysis/namespace/namespace.rs:162-205 | at the root of package P, `[P]` counts as a strict container of the current module and `[P, P]` as the current module itself |

## Left out

- The bodies of `optimize`, `verify`, `allocate_registers` and `emit_pusha_popa` live in files that are not part of this model. They are the fields of `Lowering.Backend`, so every property holds whatever the passes do. Verification and allocation may fail.
- Sections.DataSection.InsertDataValue: always appends, and does not model any reuse of an equal value already stored, because the data section's code is not part of this model.
- Sections.RegisterSequencer.GetLabel: reduced to a label counter, because the register sequencer's code is not part of this model.
- Real opcode encoding and the virtual machine's semantics are not modelled. Only the per-op byte sizes of the preamble table are used, and `Dispatch.Exec` reads only the ops the switch emits.
- `MISMATCHED_SELECTOR_REVERT_CODE` lives in `compiler_constants.rs`, which is not part of this model. It is taken to be 123; no proof depends on the value.
- Programs.AbstractProgram.IntoAllocatedProgram and Programs.AbstractProgram.AppendJumpToEntry: require an entry named `__entry` for a new-encoding contract, because the code unwraps the lookup and panics otherwise.
- Programs.AbstractProgram.IntoAllocatedProgram: also requires that every entry label and the fallback are below the sequencer's counter. The code that builds entries and draws their labels from the same sequencer is not part of this model, so this is taken as the program's construction invariant (`LabelsIssued`).
- Programs.PrologueLabelResolves: requires that the lowered before-entries code leaves the preamble's label alone, because the passes that lower it are parameters whose label use is not modelled.
- Namespaces.Namespace.ModuleIsSubmoduleOf and Namespaces.Namespace.ModuleIsExternal: require a non-empty path, because the code panics on an empty one (the `expect` at namespace.rs:181 and the `assert!` at namespace.rs:210).
- Dispatch.Exec stops at the first `Call`, so it does not show that a fallback which returns falls through into the revert; only the op order (`Dispatch.SwitchOpsShape`) places the revert after the call.
- The `Display` implementation of `AbstractProgram` is text formatting only and is left out.
- The instruction sets' owning spans are left out, and so are the experimental flags other than `new_encoding`.
- The constructor `AbstractProgram::new` only stores its arguments; the class constructor does the same.
- The `Root` type is not part of this model. `Namespaces.RootFor` takes `Root::new` and `Root::next_package` to make the package both the root module's name and the current package.
- The contract-id binding is not part of this model. It is a parameter returning success or failure, and its effect on the root module is not modelled.
- Namespaces.Namespace.NextPackage: the call to `import_implicits` is left out, because its body is empty.
- The name-resolution methods of `Namespace` only forward to `Root` and are left out: `resolve_symbol*`, `resolve_call_path*`, `get_root_trait_item_for_type` and `lookup_module_from_absolute_path`.
- `current_module`, `current_module_mut` and `current_module_has_submodule` look modules up in `Root` and are left out.
- `enter_submodule` and `push_new_submodule` are incomplete in the source (one branch yields no module) and are left out.
- The commented-out code of `namespace.rs` is left out.
- The wallet and command-line plumbing in `forc-plugins/forc-client/src/util/tx.rs` is left out: prompts, network calls, signing, contract calls and floating-point balance formatting.
