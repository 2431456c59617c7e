/** The flags word passed to clone(2), with the values of the clone(2) manual page.
    The low byte of the word is the signal sent to the parent when the child ends. */
module CloneFlags {

  const CLONE_VM: bv32 := 0x100
  const CLONE_NEWNS: bv32 := 0x2_0000
  const CLONE_NEWCGROUP: bv32 := 0x200_0000
  const CLONE_NEWUTS: bv32 := 0x400_0000
  const CLONE_NEWIPC: bv32 := 0x800_0000
  const CLONE_NEWUSER: bv32 := 0x1000_0000
  const CLONE_NEWPID: bv32 := 0x2000_0000
  const CLONE_NEWNET: bv32 := 0x4000_0000
  const SIGCHLD: bv32 := 17

  /** The termination-signal byte of a flags word. */
  const SIGNAL_MASK: bv32 := 0xFF

  /** Every bit of `bits` is set in `flags`. */
  predicate Includes(flags: bv32, bits: bv32) {
    flags & bits == bits
  }

  /** `f` has exactly one bit set. */
  predicate IsSingleBit(f: bv32) {
    f != 0 && f & (f - 1) == 0
  }

  /** A mask that covers two words covers their union. */
  lemma IncludesOr(m: bv32, a: bv32, b: bv32)
    requires Includes(m, a) && Includes(m, b)
    ensures Includes(m, a | b)
  {
  }

  /** Setting more bits keeps every bit already set. */
  lemma IncludesWiden(a: bv32, b: bv32, bits: bv32)
    requires Includes(a, bits)
    ensures Includes(a | b, bits)
  {
  }

  /** A union covers both of its parts. */
  lemma IncludesParts(a: bv32, b: bv32)
    ensures Includes(a | b, a) && Includes(a | b, b)
  {
  }

  /** A word that shares no bit with `b` lies inside the complement of `b`... */
  lemma DisjointInComplement(x: bv32, b: bv32)
    requires x & b == 0
    ensures Includes(!b, x)
  {
  }

  /** ... and a word inside the complement of `b` shares no bit with it. */
  lemma InComplementDisjoint(x: bv32, b: bv32)
    requires Includes(!b, x)
    ensures x & b == 0
  {
  }

  /** A word inside the complement of a non-zero `b` does not cover `b`. */
  lemma ComplementExcludes(x: bv32, b: bv32)
    requires b != 0 && Includes(!b, x)
    ensures !Includes(x, b)
  {
  }

  /** Namespace bits, an address-space choice and SIGCHLD do not interfere: the signal byte
      of the combined word is SIGCHLD ... */
  lemma SignalByteIsSigchld(f: bv32, a: bv32)
    requires f & (CLONE_VM | SIGNAL_MASK) == 0 && (a == CLONE_VM || a == 0)
    ensures (f | a | SIGCHLD) & SIGNAL_MASK == SIGCHLD
  {
  }

  /** ... CLONE_VM is set exactly when the address-space choice sets it ... */
  lemma VmBitIsAddrspace(f: bv32, a: bv32)
    requires f & (CLONE_VM | SIGNAL_MASK) == 0 && (a == CLONE_VM || a == 0)
    ensures Includes(f | a | SIGCHLD, CLONE_VM) <==> a == CLONE_VM
  {
  }

  /** ... and a namespace bit is set exactly when the namespace bits set it. */
  lemma NamespaceBitsUnchanged(f: bv32, a: bv32, kb: bv32)
    requires kb & (CLONE_VM | SIGNAL_MASK) == 0 && (a == CLONE_VM || a == 0)
    ensures Includes(f | a | SIGCHLD, kb) <==> Includes(f, kb)
  {
  }
}
