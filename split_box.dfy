/** The one-shot split of a namespace into its external and internal configuration
    (`Split`, `SplitBox` and `discarding_split!` in src/namespace/mod.rs). */
module SplitBoxes {
  import opened Errors
  import opened Sys
  import Namespace

  /** The kinds that implement `Split`: those that invoke `discarding_split!`. Pid, Network,
      Mount and User do not, so a `SplitBox` cannot hold them. */
  predicate HasSplit(ns: Namespace.Namespace) {
    ns.Ipc? || ns.Uts? || ns.ControlGroup?
  }

  /** The `()` configuration object that `discarding_split!` hands out for either half. */
  datatype Discarded = Discarded

  /** `split` as `discarding_split!` writes it: the namespace is dropped, `((), ())` returned. */
  function DiscardingSplit(ns: Namespace.Namespace): (Discarded, Discarded)
    requires HasSplit(ns)
  {
    (Discarded, Discarded)
  }

  datatype Step = Configure | Cleanup

  /** `InternalConfig for ()`: the trait defaults. */
  function InternalHook(half: Discarded, step: Step): Run {
    Done
  }

  /** `ExternalConfig for ()`: the trait defaults. */
  function ExternalHook(half: Discarded, step: Step, pid: int): Run {
    Done
  }

  /** Both halves of a discarding split configure and clean up without any request. */
  lemma DiscardedHalvesDoNothing(ns: Namespace.Namespace, step: Step, pid: int)
    requires HasSplit(ns)
    ensures ExternalHook(DiscardingSplit(ns).0, step, pid) == Done
    ensures InternalHook(DiscardingSplit(ns).1, step) == Done
  {
  }

  datatype State = Together(ns: Namespace.Namespace) | Split

  /** A namespace that is split into its two halves at most once. */
  class SplitBox {
    var state: State

    ghost predicate Valid()
      reads this
    {
      state.Together? ==> HasSplit(state.ns)
    }

    /** `SplitBox::new`: only a namespace that implements `Split` can be boxed. */
    constructor (ns: Namespace.Namespace)
      requires HasSplit(ns)
      ensures Valid() && state == Together(ns)
    {
      state := Together(ns);
    }

    /** `clone_flag` delegates to the namespace until the box is split, and is `None` after. */
    function CloneFlag(): (f: Option<bv32>)
      reads this
      requires Valid()
      ensures f.None? <==> state.Split?
      ensures state.Together? ==> f == Namespace.CloneFlag(state.ns)
    {
      match state
      case Together(ns) => Namespace.CloneFlag(ns)
      case Split => None
    }

    /** `prepare` delegates to the namespace until the box is split, and is `Ok` after; either
        way it issues no request, since no splittable kind overrides `prepare`. */
    function Prepare(os: Os): (r: Run)
      reads this
      requires Valid()
      ensures r == Done
    {
      match state
      case Together(ns) => Namespace.Hook(ns, Namespace.Prepare, os)
      case Split => Done
    }

    /** `boxed_split`: swaps `Split` in, then splits what was there. A second call finds
        `Split` and panics (`None` here); the box is `Split` afterwards in both cases. */
    method BoxedSplit() returns (halves: Option<(Discarded, Discarded)>)
      requires Valid()
      modifies this
      ensures Valid() && state == Split
      ensures halves.Some? <==> old(state).Together?
      ensures old(state).Together? ==> halves == Some(DiscardingSplit(old(state).ns))
    {
      var swapped := state;
      state := Split;
      if swapped.Together? {
        halves := Some(DiscardingSplit(swapped.ns));
      } else {
        halves := None;
      }
    }
  }

  /** Splitting is one-shot: of two successive splits of a fresh box, the first hands out the
      halves and the second panics; afterwards the box contributes no flag. */
  method SplitTwice(ns: Namespace.Namespace) returns (first: Option<(Discarded, Discarded)>, second: Option<(Discarded, Discarded)>, flag: Option<bv32>)
    requires HasSplit(ns)
    ensures first.Some? && second.None? && flag.None?
  {
    var b := new SplitBox(ns);
    first := b.BoxedSplit();
    second := b.BoxedSplit();
    flag := b.CloneFlag();
  }
}
