/**
 * Handle rights: a 32-bit mask of primitive permission bits, the composite
 * masks built from them, and the default mask of each kernel object kind.
 */
module ObjectRights {

  type Rights = bv32

  /** The single-bit mask with bit `n` set. */
  function Bit(n: nat): Rights
    requires n < 32
  {
    1 << n
  }

  /** `Rights::empty()`, which is also the derived `Default` value. */
  const EMPTY: Rights := 0

  const DUPLICATE: Rights := 1 << 0
  const TRANSFER: Rights := 1 << 1
  const READ: Rights := 1 << 2
  const WRITE: Rights := 1 << 3
  const EXECUTE: Rights := 1 << 4
  const MAP: Rights := 1 << 5
  const GET_PROPERTY: Rights := 1 << 6
  const SET_PROPERTY: Rights := 1 << 7
  const ENUMERATE: Rights := 1 << 8
  const DESTROY: Rights := 1 << 9
  const SET_POLICY: Rights := 1 << 10
  const GET_POLICY: Rights := 1 << 11
  const SIGNAL: Rights := 1 << 12
  const SIGNAL_PEER: Rights := 1 << 13
  const WAIT: Rights := 1 << 14
  const INSPECT: Rights := 1 << 15
  const MANAGE_JOB: Rights := 1 << 16
  const MANAGE_PROCESS: Rights := 1 << 17
  const MANAGE_THREAD: Rights := 1 << 18
  const APPLY_PROFILE: Rights := 1 << 19
  const SAME_RIGHTS: Rights := 1 << 31

  const BASIC: Rights := TRANSFER | DUPLICATE | WAIT | INSPECT
  const IO: Rights := READ | WRITE
  const PROPERTY: Rights := GET_PROPERTY | SET_PROPERTY
  const POLICY: Rights := GET_POLICY | SET_POLICY

  const DEFAULT_CHANNEL: Rights := (BASIC & !DUPLICATE) | IO | SIGNAL | SIGNAL_PEER
  const DEFAULT_PROCESS: Rights :=
    BASIC | IO | PROPERTY | ENUMERATE | DESTROY | SIGNAL | MANAGE_PROCESS | MANAGE_THREAD
  const DEFAULT_THREAD: Rights := BASIC | IO | PROPERTY | DESTROY | SIGNAL | MANAGE_THREAD
  /** The expression, not the doc comment "BASIC | WAIT" beside it in the source. */
  const DEFAULT_VMAR: Rights := BASIC & !WAIT
  const DEFAULT_JOB: Rights :=
    BASIC | IO | PROPERTY | POLICY | ENUMERATE | DESTROY | SIGNAL | MANAGE_JOB | MANAGE_PROCESS | MANAGE_THREAD
  const DEFAULT_VMO: Rights := BASIC | IO | PROPERTY | MAP | SIGNAL
  const DEFAULT_RESOURCE: Rights := TRANSFER | DUPLICATE | WRITE | INSPECT

  /** `r.contains(s)`: every bit of `s` is set in `r`. */
  predicate Contains(r: Rights, s: Rights)
  {
    r & s == s
  }

  /** Primitive rights DUPLICATE..APPLY_PROFILE are bits 0..19; SAME_RIGHTS is bit 31. */
  lemma PrimitiveBits()
    ensures DUPLICATE == Bit(0) && TRANSFER == Bit(1) && READ == Bit(2) && WRITE == Bit(3)
    ensures EXECUTE == Bit(4) && MAP == Bit(5) && GET_PROPERTY == Bit(6) && SET_PROPERTY == Bit(7)
    ensures ENUMERATE == Bit(8) && DESTROY == Bit(9) && SET_POLICY == Bit(10) && GET_POLICY == Bit(11)
    ensures SIGNAL == Bit(12) && SIGNAL_PEER == Bit(13) && WAIT == Bit(14) && INSPECT == Bit(15)
    ensures MANAGE_JOB == Bit(16) && MANAGE_PROCESS == Bit(17) && MANAGE_THREAD == Bit(18)
    ensures APPLY_PROFILE == Bit(19) && SAME_RIGHTS == Bit(31)
  {
  }

  /** Distinct bit positions give distinct, non-empty, disjoint masks. */
  lemma BitsDistinct(m: nat, n: nat)
    requires m < 32 && n < 32 && m != n
    ensures Bit(m) != EMPTY && Bit(m) & Bit(n) == EMPTY
  {
  }

  /** The composites reproduce the target system's bit patterns. */
  lemma CompositeValues()
    ensures BASIC == 0xC003 && IO == 0xC && PROPERTY == 0xC0 && POLICY == 0xC00
    ensures DEFAULT_CHANNEL == 0xF00E
    ensures DEFAULT_PROCESS == 0x6_D3CF
    ensures DEFAULT_THREAD == 0x4_D2CF
    ensures DEFAULT_VMAR == 0x8003
    ensures DEFAULT_JOB == 0x7_DFCF
    ensures DEFAULT_VMO == 0xD0EF
    ensures DEFAULT_RESOURCE == 0x800B
  {
  }

  /** A channel handle may be transferred but not duplicated. */
  lemma ChannelDefault()
    ensures Contains(DEFAULT_CHANNEL, TRANSFER) && !Contains(DEFAULT_CHANNEL, DUPLICATE)
    ensures Contains(DEFAULT_CHANNEL, IO | SIGNAL | SIGNAL_PEER | WAIT | INSPECT)
  {
  }

  /** The VMAR default is BASIC without WAIT. */
  lemma VmarDefault()
    ensures Contains(BASIC, DEFAULT_VMAR) && !Contains(DEFAULT_VMAR, WAIT)
    ensures Contains(DEFAULT_VMAR, TRANSFER | DUPLICATE | INSPECT)
  {
  }

  /** Thread rights are within process rights, which are within job rights; only jobs get POLICY and MANAGE_JOB. */
  lemma TaskDefaultsNested()
    ensures Contains(DEFAULT_PROCESS, DEFAULT_THREAD) && Contains(DEFAULT_JOB, DEFAULT_PROCESS)
    ensures DEFAULT_THREAD != DEFAULT_PROCESS && DEFAULT_PROCESS != DEFAULT_JOB
    ensures Contains(DEFAULT_JOB, POLICY | MANAGE_JOB)
    ensures !Contains(DEFAULT_PROCESS, GET_POLICY) && !Contains(DEFAULT_PROCESS, SET_POLICY)
    ensures !Contains(DEFAULT_PROCESS, MANAGE_JOB) && !Contains(DEFAULT_THREAD, MANAGE_JOB)
    ensures (DEFAULT_CHANNEL | DEFAULT_THREAD | DEFAULT_VMAR | DEFAULT_VMO | DEFAULT_RESOURCE) & (POLICY | MANAGE_JOB) == EMPTY
  {
  }

  /** A VMO handle may read, write, get and set properties and map, but not execute. */
  lemma VmoDefault()
    ensures Contains(DEFAULT_VMO, IO) && Contains(DEFAULT_VMO, PROPERTY) && Contains(DEFAULT_VMO, MAP)
    ensures !Contains(DEFAULT_VMO, EXECUTE)
  {
  }

  /** A resource handle may write but not read. */
  lemma ResourceDefault()
    ensures Contains(DEFAULT_RESOURCE, WRITE) && !Contains(DEFAULT_RESOURCE, READ)
  {
  }

  predicate NoSentinel(r: Rights)
  {
    r & (SAME_RIGHTS | APPLY_PROFILE) == EMPTY
  }

  /** No composite or default mask holds the SAME_RIGHTS sentinel or APPLY_PROFILE. */
  lemma NoMaskHasSentinels()
    ensures NoSentinel(BASIC) && NoSentinel(IO) && NoSentinel(PROPERTY) && NoSentinel(POLICY)
    ensures NoSentinel(DEFAULT_CHANNEL) && NoSentinel(DEFAULT_PROCESS) && NoSentinel(DEFAULT_THREAD)
    ensures NoSentinel(DEFAULT_VMAR) && NoSentinel(DEFAULT_JOB) && NoSentinel(DEFAULT_VMO)
    ensures NoSentinel(DEFAULT_RESOURCE)
  {
  }
}
