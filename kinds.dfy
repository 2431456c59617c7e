/** The seven built-in namespace kinds, one per file under src/namespace/: each one's flag, its
    hooks, whether it can be split, and the fact that its argument-less `new()` makes all of
    its values equal. */
module Kinds {
  import opened Errors
  import opened Sys
  import opened CloneFlags
  import opened Namespace
  import SplitBoxes
  import UserNamespace

  /** `Mount`: flag CLONE_NEWNS, no hook overridden, no `Split`. */
  lemma MountKind(ns: Namespace, phase: Phase, os: Os)
    requires ns.Mount?
    ensures ns == Mount && CloneFlag(ns) == Some(CLONE_NEWNS)
    ensures Hook(ns, phase, os) == Done
    ensures !SplitBoxes.HasSplit(ns)
  {
  }

  /** `Pid`: flag `Some(CLONE_NEWPID)`, `prepare` not overridden, no `Split`. */
  lemma PidKind(ns: Namespace, phase: Phase, os: Os)
    requires ns.Pid?
    ensures ns == Pid && CloneFlag(ns) == Some(CLONE_NEWPID)
    ensures Hook(ns, phase, os) == Done
    ensures !SplitBoxes.HasSplit(ns)
  {
  }

  /** `Network`: flag `Some(CLONE_NEWNET)`, `prepare` not overridden, no `Split`. */
  lemma NetworkKind(ns: Namespace, phase: Phase, os: Os)
    requires ns.Network?
    ensures ns == Network && CloneFlag(ns) == Some(CLONE_NEWNET)
    ensures Hook(ns, phase, os) == Done
    ensures !SplitBoxes.HasSplit(ns)
  {
  }

  /** `Ipc`: flag `Some(CLONE_NEWIPC)`, `prepare` not overridden, a discarding split. */
  lemma IpcKind(ns: Namespace, phase: Phase, os: Os)
    requires ns.Ipc?
    ensures ns == Ipc && CloneFlag(ns) == Some(CLONE_NEWIPC)
    ensures Hook(ns, phase, os) == Done
    ensures SplitBoxes.HasSplit(ns) && SplitBoxes.DiscardingSplit(ns) == (SplitBoxes.Discarded, SplitBoxes.Discarded)
  {
  }

  /** `Uts`: flag `Some(CLONE_NEWUTS)`, `prepare` not overridden, a discarding split. */
  lemma UtsKind(ns: Namespace, phase: Phase, os: Os)
    requires ns.Uts?
    ensures ns == Uts && CloneFlag(ns) == Some(CLONE_NEWUTS)
    ensures Hook(ns, phase, os) == Done
    ensures SplitBoxes.HasSplit(ns) && SplitBoxes.DiscardingSplit(ns) == (SplitBoxes.Discarded, SplitBoxes.Discarded)
  {
  }

  /** `ControlGroup`: flag `Some(CLONE_NEWCGROUP)`, `prepare` not overridden, a discarding
      split. */
  lemma ControlGroupKind(ns: Namespace, phase: Phase, os: Os)
    requires ns.ControlGroup?
    ensures ns == ControlGroup && CloneFlag(ns) == Some(CLONE_NEWCGROUP)
    ensures Hook(ns, phase, os) == Done
    ensures SplitBoxes.HasSplit(ns) && SplitBoxes.DiscardingSplit(ns) == (SplitBoxes.Discarded, SplitBoxes.Discarded)
  {
  }

  /** `User`: flag CLONE_NEWUSER; of the hooks only `external_config` is overridden, and it
      performs the mapping plan of the two builder flags. */
  lemma UserKind(ns: Namespace, phase: Phase, os: Os)
    requires ns.User?
    ensures CloneFlag(ns) == Some(CLONE_NEWUSER)
    ensures !phase.ExternalConfig? ==> Hook(ns, phase, os) == Done
    ensures phase.ExternalConfig? ==>
      Hook(ns, phase, os) == ApplyWrites(UserNamespace.MappingPlan(ns.user, phase.pid, os.uid, os.gid), os)
    ensures !SplitBoxes.HasSplit(ns)
  {
    BuiltinHooks(ns, phase, os);
  }
}
