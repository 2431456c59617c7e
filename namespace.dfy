/** The namespace kinds and the `Namespace` trait (src/namespace.rs, src/namespace/mod.rs and
    the per-kind files under src/namespace/).

    The repository carries two versions of the trait. The older one (src/namespace.rs, used by
    src/context.rs) requires a `c_int` clone flag and has `prepare`, `internal_config` and
    `external_config` hooks that default to `Ok(())`. The newer one (src/namespace/mod.rs)
    returns an optional flag that defaults to `None` and has only `prepare`. Both are read here
    as one table, kind to optional flag (`CloneFlag`); the older trait's integer is that flag,
    or 0 when there is none (`FlagBits`), which is what an OR-fold of the flags sees.

    Every built-in kind is constructed by a `new()` without arguments, so all values of a kind
    but `User` are one and the same constructor here. `Foreign` stands for any other implementor
    of the trait (a `Context` takes boxed trait objects): its flag and the results of its hooks
    are data. */
module Namespace {
  import opened Errors
  import opened Sys
  import opened CloneFlags
  import UserNamespace

  datatype Namespace =
    | ControlGroup
    | Ipc
    | Mount
    | Network
    | Pid
    | Uts
    | User(user: UserNamespace.User)
    | Foreign(flag: Option<bv32>, prepare: Run, internal: Run, external: Run)

  predicate IsBuiltin(ns: Namespace) {
    !ns.Foreign?
  }

  /** `clone_flag`: the CLONE_NEW* flag that creates a fresh namespace of this kind. */
  function CloneFlag(ns: Namespace): Option<bv32> {
    match ns
    case ControlGroup => Some(CLONE_NEWCGROUP)
    case Ipc => Some(CLONE_NEWIPC)
    case Mount => Some(CLONE_NEWNS)
    case Network => Some(CLONE_NEWNET)
    case Pid => Some(CLONE_NEWPID)
    case Uts => Some(CLONE_NEWUTS)
    case User(_) => Some(CLONE_NEWUSER)
    case Foreign(flag, _, _, _) => flag
  }

  /** The older trait's `c_int` flag. */
  function FlagBits(ns: Namespace): bv32 {
    CloneFlag(ns).GetOr(0)
  }

  /** The table of the seven kinds, and the trait default of `None` (no flag, so 0 in the older
      trait) for an implementor that does not override `clone_flag`. */
  lemma FlagTable(ns: Namespace)
    ensures ns.ControlGroup? ==> CloneFlag(ns) == Some(0x200_0000)
    ensures ns.Ipc? ==> CloneFlag(ns) == Some(0x800_0000)
    ensures ns.Mount? ==> CloneFlag(ns) == Some(0x2_0000)
    ensures ns.Network? ==> CloneFlag(ns) == Some(0x4000_0000)
    ensures ns.Pid? ==> CloneFlag(ns) == Some(0x2000_0000)
    ensures ns.Uts? ==> CloneFlag(ns) == Some(0x400_0000)
    ensures ns.User? ==> CloneFlag(ns) == Some(0x1000_0000)
    ensures ns.Foreign? && ns.flag.None? ==> CloneFlag(ns) == None && FlagBits(ns) == 0
  {
  }

  /** A built-in kind always has a flag, `Some` even in the newer trait; it is a single bit,
      and it is neither CLONE_VM nor part of the termination-signal byte. */
  lemma BuiltinFlagShape(ns: Namespace)
    requires IsBuiltin(ns)
    ensures CloneFlag(ns).Some? && FlagBits(ns) == CloneFlag(ns).value
    ensures IsSingleBit(FlagBits(ns))
    ensures FlagBits(ns) & (CLONE_VM | SIGNAL_MASK) == 0
  {
  }

  /** Two built-in namespaces are of the same kind. */
  predicate SameKind(a: Namespace, b: Namespace)
    requires IsBuiltin(a) && IsBuiltin(b)
  {
    match a
    case User(_) => b.User?
    case _ => a == b
  }

  /** Distinct kinds have disjoint flags, and a kind always has the same flag. */
  lemma BuiltinFlagsDistinct(a: Namespace, b: Namespace)
    requires IsBuiltin(a) && IsBuiltin(b)
    ensures SameKind(a, b) <==> FlagBits(a) == FlagBits(b)
    ensures !SameKind(a, b) <==> FlagBits(a) & FlagBits(b) == 0
  {
  }

  /** The hooks of the trait, in the order a launch may call them. */
  datatype Phase = Prepare | InternalConfig | ExternalConfig(pid: int)

  /** The result of calling one hook of `ns`. Every built-in kind keeps the trait's defaults
      (`Ok(())`, no request), except `User`, whose `external_config` maps root. */
  function Hook(ns: Namespace, phase: Phase, os: Os): Run {
    match ns
    case Foreign(_, prepare, internal, external) =>
      (match phase
       case Prepare => prepare
       case InternalConfig => internal
       case ExternalConfig(_) => external)
    case User(u) =>
      if phase.ExternalConfig? then UserNamespace.ExternalConfigRun(u, phase.pid, os) else Done
    case _ => Done
  }

  /** The defaults: a built-in kind's hooks succeed and issue no request, apart from the
      user namespace's `external_config`, which issues exactly its mapping plan. */
  lemma {:induction false} BuiltinHooks(ns: Namespace, phase: Phase, os: Os)
    requires IsBuiltin(ns)
    ensures !(ns.User? && phase.ExternalConfig?) ==> Hook(ns, phase, os) == Done
    ensures ns.User? && phase.ExternalConfig? ==>
      Hook(ns, phase, os) == ApplyWrites(UserNamespace.MappingPlan(ns.user, phase.pid, os.uid, os.gid), os)
  {
    if ns.User? && phase.ExternalConfig? {
      UserNamespace.ExternalConfigFollowsPlan(ns.user, phase.pid, os);
    }
  }
}
