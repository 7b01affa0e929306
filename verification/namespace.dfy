/**
 * The module-path bookkeeping of the type checker's namespace: where in the
 * module tree checking currently is, whether a module path names an ancestor of
 * it, and whether a path leads outside the current package.
 */
module Namespaces {
  import opened Common

  type Ident = string

  /** The part of the namespace root this file reads: the root module's name and
      the current package's name. The root's own code is not part of this model. */
  datatype Root = Root(moduleName: Ident, currentPackageName: Ident)

  /** `Root::new` and `Root::next_package`, as far as this file relies on them:
      the given package becomes the current package and names the root module. */
  function RootFor(packageName: Ident): (root: Root)
    ensures root.moduleName == packageName && root.currentPackageName == packageName
  {
    Root(packageName, packageName)
  }

  datatype ErrorEmitted = ErrorEmitted

  /** The outcome of `bind_contract_id_in_root_module` for a contract id; its
      effect on the root module's items is not part of this model. */
  type ContractIdBinder = string -> Outcome<ErrorEmitted>

  /** `xs.iter().zip(ys.iter()).all(|(l, r)| l == r)`: the two paths agree on their common length. */
  function ZipAll(xs: seq<Ident>, ys: seq<Ident>): (r: bool)
    ensures r <==> forall i :: 0 <= i < |xs| && i < |ys| ==> xs[i] == ys[i]
  {
    if xs == [] || ys == [] then true
    else xs[0] == ys[0] && ZipAll(xs[1..], ys[1..])
  }

  /** `Vec::pop` on a path, discarding the popped name. */
  function Popped(path: seq<Ident>): (r: seq<Ident>)
    ensures path == [] ==> r == []
    ensures path != [] ==> r + [path[|path| - 1]] == path
  {
    if path == [] then [] else path[..|path| - 1]
  }

  class Namespace {
    var root: Root
    /** The path of the module being checked; it starts with the package name. */
    var currentModPath: seq<Ident>
    var isContractPackage: bool

    constructor Init(root: Root, currentModPath: seq<Ident>, isContractPackage: bool)
      ensures this.root == root && this.currentModPath == currentModPath
      ensures this.isContractPackage == isContractPackage
    {
      this.root := root;
      this.currentModPath := currentModPath;
      this.isContractPackage := isContractPackage;
    }

    /** A namespace at the root module of package `packageName`; binding the
        contract id, when there is one, may fail. */
    static method New(packageName: Ident, contractId: Option<string>, bindContractId: ContractIdBinder)
      returns (r: Result<Namespace, ErrorEmitted>)
      ensures r.Err? <==> contractId.Some? && bindContractId(contractId.value).Fail?
      ensures r.Ok? ==> && fresh(r.value)
                        && r.value.root == RootFor(packageName)
                        && r.value.currentModPath == [packageName]
                        && r.value.isContractPackage == contractId.Some?
    {
      var res := new Namespace.Init(RootFor(packageName), [packageName], contractId.Some?);
      if contractId.Some? {
        var bound := bindContractId(contractId.value);
        if bound.Fail? {
          return Err(bound.error);
        }
      }
      return Ok(res);
    }

    /** Moves on to the root module of the next package. The path and the
        contract flag are reset before the contract id is bound, so they are
        reset even when binding fails. */
    method NextPackage(nextPackageName: Ident, contractId: Option<string>, bindContractId: ContractIdBinder)
      returns (o: Outcome<ErrorEmitted>)
      modifies this
      ensures root == RootFor(nextPackageName)
      ensures currentModPath == [root.currentPackageName]
      ensures isContractPackage == contractId.Some?
      ensures o.Fail? <==> contractId.Some? && bindContractId(contractId.value).Fail?
    {
      root := RootFor(nextPackageName);
      currentModPath := [root.currentPackageName];
      isContractPackage := contractId.Some?;
      if contractId.Some? {
        var bound := bindContractId(contractId.value);
        if bound.Fail? {
          return bound;
        }
      }
      return Pass;
    }

    /** The path of the module currently being checked, as stored. */
    function ModPath(): (path: seq<Ident>)
      reads this
      ensures path == currentModPath
    {
      currentModPath
    }

    /** The current path followed by `prefixes`; the namespace is left as it is. */
    function PrependModulePath(prefixes: seq<Ident>): (path: seq<Ident>)
      reads this
      ensures |path| == |currentModPath| + |prefixes|
      ensures path[..|currentModPath|] == currentModPath && path[|currentModPath|..] == prefixes
    {
      currentModPath + prefixes
    }

    /** Whether the current module lies inside the module at `absoluteModulePath`:
        the path's first name must be the root module's, the rest a prefix of the
        current path; an equal length answers `trueIfSame`, a shorter one `true`. */
    function ModuleIsSubmoduleOf(absoluteModulePath: seq<Ident>, trueIfSame: bool): (r: bool)
      reads this
      requires |absoluteModulePath| > 0
      ensures r <==> && absoluteModulePath[0] == root.moduleName
                     && absoluteModulePath[1..] <= currentModPath
                     && (|absoluteModulePath| - 1 < |currentModPath| || trueIfSame)
    {
      var packageName := absoluteModulePath[0];
      var modules := absoluteModulePath[1..];
      if root.moduleName != packageName then false
      else if |currentModPath| < |modules| then false
      else if ZipAll(modules, currentModPath) then
        (if |currentModPath| == |modules| then trueIfSame else true)
      else false
    }

    /** A path is external when it starts outside the current package. */
    function ModuleIsExternal(absoluteModulePath: seq<Ident>): (r: bool)
      reads this
      requires |absoluteModulePath| > 0
      ensures r <==> absoluteModulePath[0] != root.currentPackageName
    {
      root.currentPackageName != absoluteModulePath[0]
    }

    /** Leaves the current submodule: drops the last name of the path, if any. */
    method PopSubmodule()
      modifies this
      ensures currentModPath == Popped(old(currentModPath))
      ensures root == old(root) && isContractPackage == old(isContractPackage)
    {
      if currentModPath != [] {
        currentModPath := currentModPath[..|currentModPath| - 1];
      }
    }
  }

  /** Every module on the way down to the current one contains it; the current
      module itself does so only when `trueIfSame` says so. */
  lemma AncestorsContainCurrentModule(ns: Namespace, k: nat, trueIfSame: bool)
    requires k <= |ns.currentModPath|
    ensures ns.ModuleIsSubmoduleOf([ns.root.moduleName] + ns.currentModPath[..k], trueIfSame)
            == (k < |ns.currentModPath| || trueIfSame)
  {
    assert ([ns.root.moduleName] + ns.currentModPath[..k])[1..] == ns.currentModPath[..k];
  }

  /** Popping a submodule returns to a module that strictly contains the one left. */
  lemma PopReturnsToParent(ns: Namespace)
    requires |ns.currentModPath| > 0
    ensures ns.ModuleIsSubmoduleOf([ns.root.moduleName] + Popped(ns.currentModPath), false)
  {
    AncestorsContainCurrentModule(ns, |ns.currentModPath| - 1, false);
  }

  /** While the root module is named after the current package, a module that
      contains the current one is never external. */
  lemma ContainingModuleIsNotExternal(ns: Namespace, absoluteModulePath: seq<Ident>, trueIfSame: bool)
    requires |absoluteModulePath| > 0
    requires ns.root.moduleName == ns.root.currentPackageName
    ensures ns.ModuleIsSubmoduleOf(absoluteModulePath, trueIfSame) ==> !ns.ModuleIsExternal(absoluteModulePath)
  {
  }

  /** Because the current path starts with the package name while the absolute
      path's first name is compared separately, at the root of package P the
      module `[P]` counts as a strict container of the current module and
      `[P, P]` as the current module itself. */
  lemma RootPathIsCountedTwice(ns: Namespace)
    requires ns.currentModPath == [ns.root.moduleName]
    ensures ns.ModuleIsSubmoduleOf([ns.root.moduleName], false)
    ensures ns.ModuleIsSubmoduleOf([ns.root.moduleName, ns.root.moduleName], true)
    ensures !ns.ModuleIsSubmoduleOf([ns.root.moduleName, ns.root.moduleName], false)
  {
    assert [ns.root.moduleName, ns.root.moduleName][1..] == ns.currentModPath;
  }
}
