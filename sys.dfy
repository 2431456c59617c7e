/** The operating-system boundary: what the launcher asks of the kernel, what the kernel
    answers, and the ordered log of requests issued during one operation.

    The system calls (`mmap`, `clone`, `kill`, `waitpid`, `getuid`, `getgid`, `sysconf`) and
    the appends under `/proc` are not executed: an `Os` value fixes what each would return,
    and every operation returns the requests it issued, in order, as a `Run`. */
module Sys {
  import opened Errors

  /** Linux x86-64 values of the `mmap` and signal constants used by src/context.rs. */
  const PROT_READ: bv32 := 0x1
  const PROT_WRITE: bv32 := 0x2
  const MAP_SHARED: bv32 := 0x01
  const MAP_PRIVATE: bv32 := 0x02
  const MAP_ANONYMOUS: bv32 := 0x20
  const MAP_STACK: bv32 := 0x2_0000
  const SIGCONT: int := 18

  /** One request to the kernel. */
  datatype Effect =
    | MapStack(length: nat, prot: bv32, flags: bv32)  // mmap(NULL, length, prot, flags, -1, 0)
    | CloneProcess(stack: int, flags: bv32)           // clone(exec_closure, stack, flags, closure)
    | AppendFile(path: string, data: string)          // open in append mode, then write_all
    | SendSignal(pid: int, signal: int)               // kill(pid, signal)
    | WaitChild(pid: int)                             // waitpid(pid, &status, 0)
    | ForeignEffect(tag: nat)                         // a request made by a namespace defined elsewhere

  /** What the kernel answers. A path in `unwritable` cannot be opened for appending or written. */
  datatype Os = Os(
    pageSize: nat,
    mmapResult: int,
    cloneResult: int,
    killResult: int,
    waitResult: int,
    uid: nat,
    gid: nat,
    unwritable: set<string>)

  /** The outcome of an operation together with the requests it issued, in order. */
  datatype Run = Run(outcome: Outcome, log: seq<Effect>)

  /** Success without any request: every default hook of the namespace traits. */
  const Done: Run := Run(Pass, [])

  /** `first?; next`: `next` happens only when `first` succeeded. */
  function Then(first: Run, next: Run): Run {
    if first.outcome.Fail? then first else Run(next.outcome, first.log + next.log)
  }

  lemma ThenAssociative(a: Run, b: Run, c: Run)
    ensures Then(Then(a, b), c) == Then(a, Then(b, c))
  {
    if a.outcome.Pass? && b.outcome.Pass? {
      assert (a.log + b.log) + c.log == a.log + (b.log + c.log);
    }
  }

  /** Runs `steps` in order with `?` after each: stops at the first that fails. */
  function Sequence(steps: seq<Run>): Run {
    if steps == [] then Done else Then(steps[0], Sequence(steps[1..]))
  }

  /** The requests of every step, in order. */
  function Logs(steps: seq<Run>): seq<Effect> {
    if steps == [] then [] else steps[0].log + Logs(steps[1..])
  }

  /** The index of the first failing step, or |steps| when none fails. */
  function FirstFailure(steps: seq<Run>): (k: nat)
    ensures k <= |steps|
    ensures forall i :: 0 <= i < k ==> steps[i].outcome.Pass?
    ensures k < |steps| ==> steps[k].outcome.Fail?
  {
    if steps == [] || steps[0].outcome.Fail? then 0 else 1 + FirstFailure(steps[1..])
  }

  /** A sequence issues the requests of its steps up to and including the first failing one,
      and fails with that step's error; steps after it are never run. */
  lemma {:induction false} SequenceStopsAtFirstFailure(steps: seq<Run>)
    ensures var k := FirstFailure(steps);
      Sequence(steps) == if k == |steps| then Run(Pass, Logs(steps)) else Run(steps[k].outcome, Logs(steps[..k + 1]))
  {
    if steps != [] {
      SequenceStopsAtFirstFailure(steps[1..]);
      var k := FirstFailure(steps[1..]);
      if steps[0].outcome.Pass? {
        if k < |steps[1..]| {
          assert steps[..k + 2] == [steps[0]] + steps[1..][..k + 1];
          assert Logs(steps[..k + 2]) == steps[0].log + Logs(steps[1..][..k + 1]);
        }
      } else {
        assert steps[..1] == [steps[0]];
        assert Logs(steps[..1]) == steps[0].log + Logs([]);
      }
    }
  }

  /** A sequence succeeds exactly when every step does. */
  lemma SequencePassIff(steps: seq<Run>)
    ensures Sequence(steps).outcome.Pass? <==> forall i :: 0 <= i < |steps| ==> steps[i].outcome.Pass?
  {
    SequenceStopsAtFirstFailure(steps);
  }

  lemma {:induction false} SequenceConcat(a: seq<Run>, b: seq<Run>)
    ensures Sequence(a + b) == Then(Sequence(a), Sequence(b))
  {
    if a == [] {
      assert a + b == b;
    } else {
      assert (a + b)[1..] == a[1..] + b;
      SequenceConcat(a[1..], b);
      ThenAssociative(a[0], Sequence(a[1..]), Sequence(b));
    }
  }

  /** A file append: the path and the text written to it. */
  datatype Write = Write(path: string, data: string)

  /** `OpenOptions::new().append(true).open(path)?.write_all(data)?`. */
  function Append(w: Write, os: Os): Run {
    Run(if w.path in os.unwritable then Fail(Io(w.path)) else Pass, [AppendFile(w.path, w.data)])
  }

  /** The append requests for `ws`, in order. */
  function AppendsOf(ws: seq<Write>): (log: seq<Effect>)
    ensures |log| == |ws|
    ensures forall i :: 0 <= i < |ws| ==> log[i] == AppendFile(ws[i].path, ws[i].data)
  {
    if ws == [] then [] else [AppendFile(ws[0].path, ws[0].data)] + AppendsOf(ws[1..])
  }

  function Appends(ws: seq<Write>, os: Os): (steps: seq<Run>)
    ensures |steps| == |ws|
  {
    seq(|ws|, i requires 0 <= i < |ws| => Append(ws[i], os))
  }

  /** Performs the appends `ws` in order, stopping at the first that fails. */
  function ApplyWrites(ws: seq<Write>, os: Os): Run {
    Sequence(Appends(ws, os))
  }

  lemma {:induction false} LogsOfAppends(ws: seq<Write>, os: Os)
    ensures Logs(Appends(ws, os)) == AppendsOf(ws)
  {
    if ws != [] {
      assert Appends(ws, os)[1..] == Appends(ws[1..], os);
      LogsOfAppends(ws[1..], os);
    }
  }

  /** Applying writes issues the appends of a prefix of `ws`: all of them when every path is
      writable, otherwise those up to the first unwritable path, whose error is returned. */
  lemma ApplyWritesStopsAtFirstFailure(ws: seq<Write>, os: Os)
    ensures var run := ApplyWrites(ws, os);
      && |run.log| <= |ws|
      && run.log == AppendsOf(ws[..|run.log|])
      && (run.outcome.Pass? <==> forall i :: 0 <= i < |ws| ==> ws[i].path !in os.unwritable)
      && (run.outcome.Pass? ==> |run.log| == |ws|)
      && (run.outcome.Fail? ==>
            && |run.log| > 0
            && (forall i :: 0 <= i < |run.log| - 1 ==> ws[i].path !in os.unwritable)
            && ws[|run.log| - 1].path in os.unwritable
            && run.outcome == Fail(Io(ws[|run.log| - 1].path)))
  {
    var steps := Appends(ws, os);
    SequenceStopsAtFirstFailure(steps);
    var k := FirstFailure(steps);
    var n := if k == |ws| then k else k + 1;
    AppendsPrefix(ws, n, os);
    LogsOfAppends(ws[..n], os);
    assert ws[..|ws|] == ws;
    AppendOutcomes(ws, os);
  }

  /** The steps of a prefix of the writes are the prefix of the steps. */
  lemma AppendsPrefix(ws: seq<Write>, n: nat, os: Os)
    requires n <= |ws|
    ensures Appends(ws, os)[..n] == Appends(ws[..n], os)
  {
  }

  /** Each append passes exactly when its path is writable, and fails with that path's error. */
  lemma AppendOutcomes(ws: seq<Write>, os: Os)
    ensures forall i :: 0 <= i < |ws| ==> (Appends(ws, os)[i].outcome.Pass? <==> ws[i].path !in os.unwritable)
    ensures forall i :: 0 <= i < |ws| && Appends(ws, os)[i].outcome.Fail? ==>
      Appends(ws, os)[i].outcome == Fail(Io(ws[i].path))
  {
  }

  lemma ApplyWritesSingle(w: Write, os: Os)
    ensures ApplyWrites([w], os) == Append(w, os)
  {
    var steps := Appends([w], os);
    assert steps[0] == Append(w, os) && steps[1..] == [];
    assert Sequence(steps) == Then(Append(w, os), Done);
    assert Append(w, os).log + [] == Append(w, os).log;
  }

  lemma ApplyWritesConcat(a: seq<Write>, b: seq<Write>, os: Os)
    ensures ApplyWrites(a + b, os) == Then(ApplyWrites(a, os), ApplyWrites(b, os))
  {
    assert Appends(a + b, os) == Appends(a, os) + Appends(b, os);
    SequenceConcat(Appends(a, os), Appends(b, os));
  }
}
