/**
 * The per-function part of lowering: optimize, verify and register-allocate every
 * function, aborting at the first failure. The passes themselves live in files
 * that are not part of this model and are taken as parameters.
 */
module Lowering {
  import opened Common
  import opened AsmLang
  import opened Sections
  import opened Entries

  datatype CompileError = CompileError(message: string)

  /** The back-end passes the driver calls: `AbstractInstructionSet::optimize`,
      `verify`, `allocate_registers` and `emit_pusha_popa`. Verification and
      allocation may fail. */
  datatype Backend = Backend(
    optimize: (AbstractInstructionSet, seq<DataEntry>) -> AbstractInstructionSet,
    verify: AbstractInstructionSet -> Result<AbstractInstructionSet, CompileError>,
    allocateRegisters: AbstractInstructionSet -> Result<AllocatedOps, CompileError>,
    emitPushaPopa: AllocatedOps -> AllocatedOps)

  /** `collect::<Result<Vec<T>, E>>()`: all values if every element is `Ok`, else the first error. */
  function Collect<T>(rs: seq<Result<T, CompileError>>): (r: Result<seq<T>, CompileError>)
    ensures r.Ok? <==> forall i :: 0 <= i < |rs| ==> rs[i].Ok?
    ensures r.Ok? ==> |r.value| == |rs| && forall i :: 0 <= i < |rs| ==> rs[i] == Ok(r.value[i])
    ensures r.Err? ==> exists i :: 0 <= i < |rs| && rs[i] == Err(r.error)
                                   && forall j :: 0 <= j < i ==> rs[j].Ok?
  {
    if rs == [] then Ok([])
    else match rs[0]
      case Err(e) => Err(e)
      case Ok(v) =>
        match Collect(rs[1..])
        case Ok(vs) => Ok([v] + vs)
        case Err(e) =>
          assert exists i :: 0 <= i < |rs[1..]| && rs[1..][i] == Err(e) && forall j :: 0 <= j < i ==> rs[1..][j].Ok?;
          var i :| 0 <= i < |rs[1..]| && rs[1..][i] == Err(e) && forall j :: 0 <= j < i ==> rs[1..][j].Ok?;
          assert rs[i + 1] == Err(e) && forall j :: 0 <= j < i + 1 ==> rs[j].Ok?;
          Err(e)
  }

  /** `append_before_entries`: optimize, verify and allocate the code that runs
      before any entry; no register save and restore is wrapped around it. */
  function LowerBeforeEntries(before: AbstractInstructionSet, data: seq<DataEntry>, backend: Backend): (r: Result<AllocatedOps, CompileError>)
    ensures r.Err? <==> backend.verify(backend.optimize(before, data)).Err?
                        || backend.allocateRegisters(backend.verify(backend.optimize(before, data)).value).Err?
  {
    var verified :- backend.verify(backend.optimize(before, data));
    backend.allocateRegisters(verified)
  }

  /** `entries.into_iter().map(|entry| entry.ops).chain(non_entries)`. */
  function AllFunctions(entries: seq<AbstractEntry>, nonEntries: seq<AbstractInstructionSet>): (fs: seq<AbstractInstructionSet>)
    ensures |fs| == |entries| + |nonEntries|
    ensures forall i :: 0 <= i < |entries| ==> fs[i] == entries[i].ops
    ensures fs[|entries|..] == nonEntries
  {
    seq(|entries|, i requires 0 <= i < |entries| => entries[i].ops) + nonEntries
  }

  /** The entry snapshot the allocated program keeps. */
  function EntryInfos(entries: seq<AbstractEntry>): (infos: seq<EntryInfo>)
    ensures |infos| == |entries|
    ensures forall i :: 0 <= i < |entries| ==>
              infos[i] == EntryInfo(entries[i].selector, entries[i].jumpLabel, entries[i].name, entries[i].testDeclRef)
  {
    seq(|entries|, i requires 0 <= i < |entries| =>
      EntryInfo(entries[i].selector, entries[i].jumpLabel, entries[i].name, entries[i].testDeclRef))
  }

  /** The closure that allocates one verified function and wraps it in register save and restore. */
  function AllocateFunction(f: AbstractInstructionSet, backend: Backend): Result<AllocatedOps, CompileError>
  {
    var ops :- backend.allocateRegisters(f);
    Ok(backend.emitPushaPopa(ops))
  }

  /** One function optimized against the data section, then verified. */
  function VerifyStep(f: AbstractInstructionSet, data: seq<DataEntry>, backend: Backend): Result<AbstractInstructionSet, CompileError>
  {
    backend.verify(backend.optimize(f, data))
  }

  /** Every function optimized against `data` and verified, then every one allocated. */
  function LowerFunctions(fs: seq<AbstractInstructionSet>, data: seq<DataEntry>, backend: Backend): (r: Result<seq<AllocatedOps>, CompileError>)
  {
    var verified :- Collect(seq(|fs|, i requires 0 <= i < |fs| => VerifyStep(fs[i], data, backend)));
    Collect(seq(|verified|, i requires 0 <= i < |verified| => AllocateFunction(verified[i], backend)))
  }

  /** Lowering the functions keeps their number and order: function i of the
      result is function i optimized, verified, allocated and wrapped. It fails
      exactly when some function fails verification (the first such error is
      reported) or, all verifying, some function fails allocation. */
  lemma LowerFunctionsMeaning(fs: seq<AbstractInstructionSet>, data: seq<DataEntry>, backend: Backend)
    ensures var r := LowerFunctions(fs, data, backend);
            r.Ok? ==> |r.value| == |fs|
                      && forall i :: 0 <= i < |fs| ==>
                           && VerifyStep(fs[i], data, backend).Ok?
                           && AllocateFunction(VerifyStep(fs[i], data, backend).value, backend) == Ok(r.value[i])
    ensures var r := LowerFunctions(fs, data, backend);
            r.Err? <==> (exists i :: 0 <= i < |fs| && VerifyStep(fs[i], data, backend).Err?)
                        || (exists i :: 0 <= i < |fs| && VerifyStep(fs[i], data, backend).Ok?
                                        && AllocateFunction(VerifyStep(fs[i], data, backend).value, backend).Err?)
    ensures forall i :: 0 <= i < |fs| && VerifyStep(fs[i], data, backend).Err?
                        && (forall j :: 0 <= j < i ==> VerifyStep(fs[j], data, backend).Ok?)
                        ==> LowerFunctions(fs, data, backend) == Err(VerifyStep(fs[i], data, backend).error)
  {
    var vs := seq(|fs|, i requires 0 <= i < |fs| => VerifyStep(fs[i], data, backend));
    var cv := Collect(vs);
    if cv.Ok? {
      var verified := cv.value;
      var rs := seq(|verified|, i requires 0 <= i < |verified| => AllocateFunction(verified[i], backend));
      var ca := Collect(rs);
      assert forall i :: 0 <= i < |fs| ==> VerifyStep(fs[i], data, backend) == vs[i] == Ok(verified[i]);
      if ca.Ok? {
        assert forall i :: 0 <= i < |fs| ==> rs[i] == Ok(ca.value[i]);
      } else {
        var i :| 0 <= i < |rs| && rs[i] == Err(ca.error) && forall j :: 0 <= j < i ==> rs[j].Ok?;
        assert VerifyStep(fs[i], data, backend).Ok? && AllocateFunction(verified[i], backend).Err?;
      }
    } else {
      var i :| 0 <= i < |vs| && vs[i] == Err(cv.error) && forall j :: 0 <= j < i ==> vs[j].Ok?;
      assert VerifyStep(fs[i], data, backend).Err?;
      forall k | 0 <= k < |fs| && VerifyStep(fs[k], data, backend).Err? && (forall j :: 0 <= j < k ==> VerifyStep(fs[j], data, backend).Ok?)
        ensures k == i
      {
        assert vs[k].Err? && vs[i].Err?;
      }
    }
  }
}
