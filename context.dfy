/** A process execution context built from namespaces, and the launch of a child process in
    it (src/context.rs). */
module Contexts {
  import opened Errors
  import opened Sys
  import opened CloneFlags
  import NS = Namespace

  /** Whether the child shares the parent's address space. */
  datatype Share = Shared | Private

  /** `Share::map`: the sharing mode of the child's stack mapping. */
  function MapFlag(share: Share): bv32 {
    match share
    case Shared => MAP_SHARED
    case Private => MAP_PRIVATE
  }

  /** `Share::addrspace`, as the code has it: `Private` asks clone(2) for CLONE_VM, so the
      child runs in the parent's memory, and `Shared` asks for nothing. */
  function Addrspace(share: Share): bv32 {
    match share
    case Private => CLONE_VM
    case Shared => 0
  }

  /** The pages of a child's stack, and how they are mapped (`create_stack`). */
  const STACK_PAGES: nat := 2 * 1024
  const STACK_PROT: bv32 := PROT_WRITE | PROT_READ

  function StackMapFlags(share: Share): bv32 {
    MapFlag(share) | MAP_ANONYMOUS | MAP_STACK
  }

  /** The mapping mode is shared exactly for `Shared` and private exactly for `Private`;
      CLONE_VM is asked for exactly for `Private`, and no other clone flag ever. */
  lemma ShareFlags(share: Share)
    ensures Includes(MapFlag(share), MAP_SHARED) <==> share == Shared
    ensures Includes(MapFlag(share), MAP_PRIVATE) <==> share == Private
    ensures Includes(Addrspace(share), CLONE_VM) <==> share == Private
    ensures Addrspace(share) & !CLONE_VM == 0
  {
  }

  /** `create_stack`: the stack is readable and writable, anonymous, marked as a stack, and
      shared with the parent exactly for `Shared`. Its length, `STACK_PAGES` pages, is the size
      of the mapping request in `ExecProtocol`. */
  lemma StackMapping(share: Share)
    ensures Includes(STACK_PROT, PROT_READ) && Includes(STACK_PROT, PROT_WRITE)
    ensures Includes(StackMapFlags(share), MAP_ANONYMOUS | MAP_STACK)
    ensures Includes(StackMapFlags(share), MAP_SHARED) <==> share == Shared
    ensures Includes(StackMapFlags(share), MAP_PRIVATE) <==> share == Private
  {
  }

  /** `Stack::from_ptr`: mmap's answer -1 (MAP_FAILED) or 0 is an allocation failure; any
      other address is the base of the mapping, and the stack starts `size` bytes above it,
      since it grows downwards. */
  function StackFromPtr(ptr: int, size: nat): (r: Result<int>)
    ensures r.Err? <==> ptr == -1 || ptr == 0
    ensures r.Err? ==> r.error == StackAllocation
    ensures r.Ok? ==> r.value - size == ptr
  {
    if ptr == -1 || ptr == 0 then Err(StackAllocation) else Ok(ptr + size)
  }

  /** The child process. */
  datatype Child = Child(pid: int)

  /** `Child::from_tid`: clone's answer -1 is a failure, anything else the child's id. */
  function ChildFromTid(tid: int): (r: Result<Child>)
    ensures r.Err? <==> tid == -1
    ensures r.Err? ==> r.error == Clone
    ensures r.Ok? ==> r.value.pid == tid
  {
    if tid == -1 then Err(Clone) else Ok(Child(tid))
  }

  /** `Child::wait`: one waitpid request; its answer -1 is a `ChildWait` error. */
  function Wait(child: Child, os: Os): (r: Run)
    ensures r.log == [WaitChild(child.pid)]
    ensures r.outcome.Fail? <==> os.waitResult == -1
    ensures r.outcome.Fail? ==> r.outcome.error == ChildWait
  {
    Run(if os.waitResult == -1 then Fail(ChildWait) else Pass, [WaitChild(child.pid)])
  }

  /** `Child::cont`: one SIGCONT to the child; kill's answer -1 is a `ChildContinue` error. */
  function Cont(child: Child, os: Os): (r: Run)
    ensures r.log == [SendSignal(child.pid, SIGCONT)]
    ensures r.outcome.Fail? <==> os.killResult == -1
    ensures r.outcome.Fail? ==> r.outcome.error == ChildContinue
  {
    Run(if os.killResult == -1 then Fail(ChildContinue) else Pass, [SendSignal(child.pid, SIGCONT)])
  }

  /** `iter().fold(acc, |f, n| f | n.clone_flag())`: the flags of every namespace ORed into
      `acc` from first to last, written as the fold of all but the last, ORed with the last. */
  function FoldFlags(acc: bv32, nss: seq<NS.Namespace>): bv32
  {
    if nss == [] then acc else FoldFlags(acc, nss[..|nss| - 1]) | NS.FlagBits(nss[|nss| - 1])
  }

  /** The fold keeps the starting value and every member's bits. */
  lemma {:induction false} FoldIncludesAll(acc: bv32, nss: seq<NS.Namespace>)
    ensures Includes(FoldFlags(acc, nss), acc)
    ensures forall i :: 0 <= i < |nss| ==> Includes(FoldFlags(acc, nss), NS.FlagBits(nss[i]))
  {
    if nss != [] {
      var init := nss[..|nss| - 1];
      var last := NS.FlagBits(nss[|nss| - 1]);
      var before := FoldFlags(acc, init);
      assert FoldFlags(acc, nss) == before | last;
      FoldIncludesAll(acc, init);
      IncludesWiden(before, last, acc);
      forall i | 0 <= i < |nss|
        ensures Includes(before | last, NS.FlagBits(nss[i]))
      {
        if i < |nss| - 1 {
          assert nss[i] == init[i];
          IncludesWiden(before, last, NS.FlagBits(nss[i]));
        } else {
          IncludesParts(before, last);
        }
      }
    }
  }

  /** The fold sets no bit that neither the starting value nor any member sets. */
  lemma {:induction false} FoldIncludesNothingElse(acc: bv32, nss: seq<NS.Namespace>, m: bv32)
    requires Includes(m, acc)
    requires forall i :: 0 <= i < |nss| ==> Includes(m, NS.FlagBits(nss[i]))
    ensures Includes(m, FoldFlags(acc, nss))
  {
    if nss != [] {
      var init := nss[..|nss| - 1];
      forall i | 0 <= i < |init| ensures Includes(m, NS.FlagBits(init[i])) {
        assert init[i] == nss[i];
      }
      FoldIncludesNothingElse(acc, init, m);
      IncludesOr(m, FoldFlags(acc, init), NS.FlagBits(nss[|nss| - 1]));
    }
  }

  /** The context's flags do not depend on the order in which namespaces were added, nor on
      repetitions: two lists with the same members give the same flags. */
  lemma FoldOrderIndependent(a: seq<NS.Namespace>, b: seq<NS.Namespace>)
    requires forall x :: x in a <==> x in b
    ensures FoldFlags(0, a) == FoldFlags(0, b)
  {
    FoldIncludesAll(0, a);
    FoldIncludesAll(0, b);
    forall i | 0 <= i < |a| ensures Includes(FoldFlags(0, b), NS.FlagBits(a[i])) {
      assert a[i] in a;
      var j :| 0 <= j < |b| && b[j] == a[i];
    }
    forall i | 0 <= i < |b| ensures Includes(FoldFlags(0, a), NS.FlagBits(b[i])) {
      assert b[i] in b;
      var j :| 0 <= j < |a| && a[j] == b[i];
    }
    FoldIncludesNothingElse(0, a, FoldFlags(0, b));
    FoldIncludesNothingElse(0, b, FoldFlags(0, a));
  }

  /** Adding a namespace ORs its flag into the context's flags. */
  lemma FoldAppend(acc: bv32, nss: seq<NS.Namespace>, ns: NS.Namespace)
    ensures FoldFlags(acc, nss + [ns]) == FoldFlags(acc, nss) | NS.FlagBits(ns)
  {
    assert (nss + [ns])[..|nss|] == nss;
  }

  predicate AllBuiltin(nss: seq<NS.Namespace>) {
    forall i :: 0 <= i < |nss| ==> NS.IsBuiltin(nss[i])
  }

  /** A context of built-in namespaces sets neither CLONE_VM nor any bit of the signal byte. */
  lemma BuiltinFoldAvoidsVmAndSignal(nss: seq<NS.Namespace>)
    requires AllBuiltin(nss)
    ensures FoldFlags(0, nss) & (CLONE_VM | SIGNAL_MASK) == 0
  {
    var reserved := CLONE_VM | SIGNAL_MASK;
    forall i | 0 <= i < |nss| ensures Includes(!reserved, NS.FlagBits(nss[i])) {
      NS.BuiltinFlagShape(nss[i]);
      DisjointInComplement(NS.FlagBits(nss[i]), reserved);
    }
    DisjointInComplement(0, reserved);
    FoldIncludesNothingElse(0, nss, !reserved);
    InComplementDisjoint(FoldFlags(0, nss), reserved);
  }

  /** For a context of built-in namespaces, a kind's flag is set exactly when a namespace of
      that kind is in the context. */
  lemma BuiltinFoldFlags(nss: seq<NS.Namespace>, k: NS.Namespace)
    requires AllBuiltin(nss) && NS.IsBuiltin(k)
    ensures Includes(FoldFlags(0, nss), NS.FlagBits(k)) <==> exists i :: 0 <= i < |nss| && NS.SameKind(nss[i], k)
  {
    if exists i :: 0 <= i < |nss| && NS.SameKind(nss[i], k) {
      var i :| 0 <= i < |nss| && NS.SameKind(nss[i], k);
      FoldHasKind(nss, i, k);
    } else {
      FoldLacksKind(nss, k);
    }
  }

  lemma FoldHasKind(nss: seq<NS.Namespace>, i: int, k: NS.Namespace)
    requires 0 <= i < |nss| && NS.IsBuiltin(nss[i]) && NS.IsBuiltin(k) && NS.SameKind(nss[i], k)
    ensures Includes(FoldFlags(0, nss), NS.FlagBits(k))
  {
    NS.BuiltinFlagsDistinct(nss[i], k);
    FoldIncludesAll(0, nss);
  }

  lemma FoldLacksKind(nss: seq<NS.Namespace>, k: NS.Namespace)
    requires AllBuiltin(nss) && NS.IsBuiltin(k)
    requires forall i :: 0 <= i < |nss| ==> !NS.SameKind(nss[i], k)
    ensures !Includes(FoldFlags(0, nss), NS.FlagBits(k))
  {
    var kb := NS.FlagBits(k);
    forall i | 0 <= i < |nss| ensures Includes(!kb, NS.FlagBits(nss[i])) {
      NS.BuiltinFlagsDistinct(nss[i], k);
      DisjointInComplement(NS.FlagBits(nss[i]), kb);
    }
    DisjointInComplement(0, kb);
    FoldIncludesNothingElse(0, nss, !kb);
    NS.BuiltinFlagShape(k);
    ComplementExcludes(FoldFlags(0, nss), kb);
  }

  /** The flags word handed to clone(2): the namespaces' flags, the address-space choice and
      SIGCHLD as the termination signal. */
  function CloneWord(namespaceFlags: bv32, share: Share): bv32 {
    namespaceFlags | Addrspace(share) | SIGCHLD
  }

  function ExecFlags(nss: seq<NS.Namespace>, share: Share): bv32 {
    CloneWord(FoldFlags(0, nss), share)
  }

  /** For built-in namespaces, the termination signal in the clone flags is SIGCHLD ... */
  lemma ExecSignalIsSigchld(nss: seq<NS.Namespace>, share: Share)
    requires AllBuiltin(nss)
    ensures ExecFlags(nss, share) & SIGNAL_MASK == SIGCHLD
  {
    BuiltinFoldAvoidsVmAndSignal(nss);
    SignalByteIsSigchld(FoldFlags(0, nss), Addrspace(share));
  }

  /** ... CLONE_VM is in them exactly for `Private` ... */
  lemma ExecVmIffPrivate(nss: seq<NS.Namespace>, share: Share)
    requires AllBuiltin(nss)
    ensures Includes(ExecFlags(nss, share), CLONE_VM) <==> share == Private
  {
    BuiltinFoldAvoidsVmAndSignal(nss);
    VmBitOfShare(FoldFlags(0, nss), share);
  }

  lemma VmBitOfShare(f: bv32, share: Share)
    requires f & (CLONE_VM | SIGNAL_MASK) == 0
    ensures Includes(CloneWord(f, share), CLONE_VM) <==> share == Private
  {
    VmBitIsAddrspace(f, Addrspace(share));
  }

  /** ... and a kind's flag is in them exactly when a namespace of that kind is in the context. */
  lemma ExecNamespaceFlags(nss: seq<NS.Namespace>, share: Share, k: NS.Namespace)
    requires AllBuiltin(nss) && NS.IsBuiltin(k)
    ensures Includes(ExecFlags(nss, share), NS.FlagBits(k)) <==> exists i :: 0 <= i < |nss| && NS.SameKind(nss[i], k)
  {
    NS.BuiltinFlagShape(k);
    NamespaceBitsUnchanged(FoldFlags(0, nss), Addrspace(share), NS.FlagBits(k));
    BuiltinFoldFlags(nss, k);
  }

  /** One pass of a hook over the namespaces, in insertion order, with `?` after each. */
  function RunPass(nss: seq<NS.Namespace>, phase: NS.Phase, os: Os): Run {
    if nss == [] then Done else Then(NS.Hook(nss[0], phase, os), RunPass(nss[1..], phase, os))
  }

  /** The hook results of the namespaces, in insertion order. */
  function Hooks(nss: seq<NS.Namespace>, phase: NS.Phase, os: Os): (steps: seq<Run>)
    ensures |steps| == |nss|
    ensures forall i :: 0 <= i < |nss| ==> steps[i] == NS.Hook(nss[i], phase, os)
  {
    seq(|nss|, i requires 0 <= i < |nss| => NS.Hook(nss[i], phase, os))
  }

  lemma {:induction false} RunPassIsSequence(nss: seq<NS.Namespace>, phase: NS.Phase, os: Os)
    ensures RunPass(nss, phase, os) == Sequence(Hooks(nss, phase, os))
  {
    if nss != [] {
      assert Hooks(nss, phase, os)[1..] == Hooks(nss[1..], phase, os);
      RunPassIsSequence(nss[1..], phase, os);
    }
  }

  /** A pass succeeds exactly when every namespace's hook does; it then issues every hook's
      requests in order. When it fails, it fails with the error of the first failing
      namespace, and no namespace after that one is called. */
  lemma RunPassStopsAtFirstFailure(nss: seq<NS.Namespace>, phase: NS.Phase, os: Os)
    ensures RunPass(nss, phase, os).outcome.Pass? <==>
      forall i :: 0 <= i < |nss| ==> NS.Hook(nss[i], phase, os).outcome.Pass?
    ensures RunPass(nss, phase, os).outcome.Pass? ==>
      RunPass(nss, phase, os).log == Logs(Hooks(nss, phase, os))
    ensures RunPass(nss, phase, os).outcome.Fail? ==>
      exists k :: 0 <= k < |nss|
        && (forall i :: 0 <= i < k ==> NS.Hook(nss[i], phase, os).outcome.Pass?)
        && RunPass(nss, phase, os) == Run(NS.Hook(nss[k], phase, os).outcome, Logs(Hooks(nss[..k + 1], phase, os)))
  {
    var steps := Hooks(nss, phase, os);
    RunPassIsSequence(nss, phase, os);
    SequenceStopsAtFirstFailure(steps);
    SequencePassIff(steps);
    var k := FirstFailure(steps);
    if k < |nss| {
      assert steps[..k + 1] == Hooks(nss[..k + 1], phase, os);
    }
  }

  /** A namespace added to a context runs after those already there and does not change
      what they do. */
  lemma {:induction false} RunPassAppend(nss: seq<NS.Namespace>, ns: NS.Namespace, phase: NS.Phase, os: Os)
    ensures RunPass(nss + [ns], phase, os) == Then(RunPass(nss, phase, os), NS.Hook(ns, phase, os))
  {
    if nss == [] {
      assert [ns][1..] == [];
      assert NS.Hook(ns, phase, os).log + [] == NS.Hook(ns, phase, os).log;
      assert [] + NS.Hook(ns, phase, os).log == NS.Hook(ns, phase, os).log;
    } else {
      assert (nss + [ns])[1..] == nss[1..] + [ns];
      RunPassAppend(nss[1..], ns, phase, os);
      ThenAssociative(NS.Hook(nss[0], phase, os), RunPass(nss[1..], phase, os), NS.Hook(ns, phase, os));
    }
  }

  /** A context of built-in namespaces always prepares and configures internally without any
      request; externally it issues only the mapping plans of its user namespaces. */
  lemma {:induction false} BuiltinPrepareIsNoOp(nss: seq<NS.Namespace>, phase: NS.Phase, os: Os)
    requires AllBuiltin(nss) && !phase.ExternalConfig?
    ensures RunPass(nss, phase, os) == Done
  {
    if nss != [] {
      NS.BuiltinHooks(nss[0], phase, os);
      BuiltinPrepareIsNoOp(nss[1..], phase, os);
    }
  }

  /** What a launch returns, with the requests it issued. */
  datatype Launch = Launch(result: Result<Child>, log: seq<Effect>)

  /** `exec`: allocate the stack, clone with the context's flags, configure the child from
      outside, then let it continue; each step runs only if the previous one succeeded. */
  function ExecRun(nss: seq<NS.Namespace>, share: Share, os: Os): Launch {
    var size := STACK_PAGES * os.pageSize;
    var mapped := [MapStack(size, STACK_PROT, StackMapFlags(share))];
    match StackFromPtr(os.mmapResult, size)
    case Err(e) => Launch(Err(e), mapped)
    case Ok(top) =>
      var cloned := mapped + [CloneProcess(top, ExecFlags(nss, share))];
      match ChildFromTid(os.cloneResult)
      case Err(e) => Launch(Err(e), cloned)
      case Ok(child) => AfterClone(nss, child, os, cloned)
  }

  /** The part of `exec` after a successful clone, with the requests issued so far in `log`. */
  function AfterClone(nss: seq<NS.Namespace>, child: Child, os: Os, log: seq<Effect>): Launch {
    var configured := RunPass(nss, NS.ExternalConfig(child.pid), os);
    if configured.outcome.Fail? then
      Launch(Err(configured.outcome.error), log + configured.log)
    else
      var cont := Cont(child, os);
      Launch(if cont.outcome.Fail? then Err(cont.outcome.error) else Ok(child),
             log + configured.log + cont.log)
  }

  predicate MmapFailed(os: Os) {
    os.mmapResult == -1 || os.mmapResult == 0
  }

  /** The launch protocol: the stack is mapped first; clone is asked for only with a stack,
      and with the context's flags, the address-space flag and SIGCHLD; the child is continued
      only after every namespace configured it, so a configuration error is returned without
      a SIGCONT; the child is returned only when every step succeeded. */
  lemma ExecProtocol(nss: seq<NS.Namespace>, share: Share, os: Os)
    ensures var l := ExecRun(nss, share, os);
      var size := STACK_PAGES * os.pageSize;
      && |l.log| >= 1
      && l.log[0] == MapStack(size, STACK_PROT, StackMapFlags(share))
      && (MmapFailed(os) ==> l == Launch(Err(StackAllocation), [l.log[0]]))
      && (!MmapFailed(os) ==> |l.log| >= 2 && l.log[1] == CloneProcess(os.mmapResult + size, ExecFlags(nss, share)))
      && (!MmapFailed(os) && os.cloneResult == -1 ==> l.result == Err(Clone) && |l.log| == 2)
      && (!MmapFailed(os) && os.cloneResult != -1 ==>
            var configured := RunPass(nss, NS.ExternalConfig(os.cloneResult), os);
            && l.log[2..] == configured.log + (if configured.outcome.Pass? then [SendSignal(os.cloneResult, SIGCONT)] else [])
            && (configured.outcome.Fail? ==> l.result == Err(configured.outcome.error))
            && (configured.outcome.Pass? && os.killResult == -1 ==> l.result == Err(ChildContinue)))
      && (l.result.Ok? <==>
            !MmapFailed(os) && os.cloneResult != -1 && os.killResult != -1
            && forall i :: 0 <= i < |nss| ==> NS.Hook(nss[i], NS.ExternalConfig(os.cloneResult), os).outcome.Pass?)
      && (l.result.Ok? ==> l.result.value == Child(os.cloneResult))
  {
    if !MmapFailed(os) && os.cloneResult != -1 {
      RunPassStopsAtFirstFailure(nss, NS.ExternalConfig(os.cloneResult), os);
    }
  }

  /** A process execution context: the namespaces it creates, in the order they were added. */
  class Context {
    var namespaces: seq<NS.Namespace>

    /** `Context::new`: no namespace, so the child gets the parent's privileges. */
    constructor ()
      ensures namespaces == []
    {
      namespaces := [];
    }

    /** `Context::with`: appends `ns` after the namespaces already there. */
    method With(ns: NS.Namespace)
      modifies this
      ensures namespaces == old(namespaces) + [ns]
      ensures CloneFlag() == old(CloneFlag()) | NS.FlagBits(ns)
    {
      FoldAppend(0, namespaces, ns);
      namespaces := namespaces + [ns];
    }

    /** `clone_flag`: the OR of every namespace's flag. */
    function CloneFlag(): (f: bv32)
      reads this
      ensures namespaces == [] ==> f == 0
      ensures forall i :: 0 <= i < |namespaces| ==> Includes(f, NS.FlagBits(namespaces[i]))
    {
      FoldIncludesAll(0, namespaces);
      FoldFlags(0, namespaces)
    }

    /** The loop shared by `prepare`, `internal_config`, `external_config` and `configure`. */
    method RunPhase(phase: NS.Phase, os: Os) returns (run: Run)
      ensures run == RunPass(namespaces, phase, os)
    {
      var log: seq<Effect> := [];
      var i := 0;
      while i < |namespaces|
        invariant 0 <= i <= |namespaces|
        invariant RunPass(namespaces, phase, os) == Then(Run(Pass, log), RunPass(namespaces[i..], phase, os))
      {
        assert namespaces[i..][1..] == namespaces[i + 1..];
        var r := NS.Hook(namespaces[i], phase, os);
        ThenAssociative(Run(Pass, log), r, RunPass(namespaces[i + 1..], phase, os));
        if r.outcome.Fail? {
          return Run(r.outcome, log + r.log);
        }
        log := log + r.log;
        i := i + 1;
      }
      assert log + [] == log;
      run := Run(Pass, log);
    }

    /** `prepare`. */
    method Prepare(os: Os) returns (run: Run)
      ensures run == RunPass(namespaces, NS.Prepare, os)
    {
      run := RunPhase(NS.Prepare, os);
    }

    /** `internal_config`. */
    method InternalConfig(os: Os) returns (run: Run)
      ensures run == RunPass(namespaces, NS.InternalConfig, os)
    {
      run := RunPhase(NS.InternalConfig, os);
    }

    /** `external_config`. */
    method ExternalConfig(child: Child, os: Os) returns (run: Run)
      ensures run == RunPass(namespaces, NS.ExternalConfig(child.pid), os)
    {
      run := RunPhase(NS.ExternalConfig(child.pid), os);
    }

    /** `configure`: the external configuration of every namespace, as `exec` runs it. */
    method Configure(child: Child, os: Os) returns (run: Run)
      ensures run == RunPass(namespaces, NS.ExternalConfig(child.pid), os)
    {
      run := RunPhase(NS.ExternalConfig(child.pid), os);
    }

    /** `exec`. */
    method Exec(share: Share, os: Os) returns (launch: Launch)
      ensures launch == ExecRun(namespaces, share, os)
    {
      var size := STACK_PAGES * os.pageSize;
      var log := [MapStack(size, STACK_PROT, StackMapFlags(share))];
      var stack := StackFromPtr(os.mmapResult, size);
      if stack.Err? {
        return Launch(Err(stack.error), log);
      }
      var flags := CloneFlag() | Addrspace(share) | SIGCHLD;
      assert flags == ExecFlags(namespaces, share);
      log := log + [CloneProcess(stack.value, flags)];
      var child := ChildFromTid(os.cloneResult);
      if child.Err? {
        return Launch(Err(child.error), log);
      }
      launch := Finish(child.value, os, log);
      assert ExecRun(namespaces, share, os) == AfterClone(namespaces, child.value, os, log);
    }

    /** Configures the cloned child from outside, then lets it continue. */
    method Finish(child: Child, os: Os, sent: seq<Effect>) returns (launch: Launch)
      ensures launch == AfterClone(namespaces, child, os, sent)
    {
      var log := sent;
      var configured := Configure(child, os);
      log := log + configured.log;
      if configured.outcome.Fail? {
        return Launch(Err(configured.outcome.error), log);
      }
      var cont := Cont(child, os);
      log := log + cont.log;
      if cont.outcome.Fail? {
        return Launch(Err(cont.outcome.error), log);
      }
      launch := Launch(Ok(child), log);
    }

    /** `exec_private`. */
    method ExecPrivate(os: Os) returns (launch: Launch)
      ensures launch == ExecRun(namespaces, Private, os)
    {
      launch := Exec(Private, os);
    }

    /** `exec_shared`. */
    method ExecShared(os: Os) returns (launch: Launch)
      ensures launch == ExecRun(namespaces, Shared, os)
    {
      launch := Exec(Shared, os);
    }
  }
}
