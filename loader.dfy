/**
 * The deterministic part of `run_userboot`: which objects the first process
 * is handed and with which rights, the bootstrap message, the initial stack
 * pointer, VMO sizing and the patching of the vDSO image. Kernel objects are
 * opaque identifiers tagged with their kind; ELF parsing, VMAR placement and
 * thread start-up are collaborators whose results are parameters.
 */
module ZirconLoader {
  import opened Wrappers
  import opened ByteSeq
  import opened ObjectRights
  import HalUnix

  // Fixed indices of the initial handle table.
  const K_PROC_SELF: nat := 0
  const K_VMARROOT_SELF: nat := 1
  const K_ROOTJOB: nat := 2
  const K_ROOTRESOURCE: nat := 3
  const K_ZBI: nat := 4
  const K_FIRSTVDSO: nat := 5
  const K_CRASHLOG: nat := 8
  const K_COUNTERNAMES: nat := 9
  const K_COUNTERS: nat := 10
  const K_FISTINSTRUMENTATIONDATA: nat := 11
  const K_HANDLECOUNT: nat := 15

  const PAGE_SIZE: nat := HalUnix.PAGE_SIZE
  const STACK_PAGES: nat := 8
  /** Offset and size of the kernel constants block inside the vDSO image. */
  const VDSO_DATA_CONSTANTS: nat := 0x4a50
  const VDSO_DATA_CONSTANTS_SIZE: nat := 0x78
  /** Size of one syscall-entry slot: a 64-bit address. */
  const ENTRY_SLOT_SIZE: nat := 8

  const COLON: bv8 := 0x3A
  const NUL: bv8 := 0

  // ---------------------------------------------------------------------------
  // Kernel objects and handles

  datatype ObjectKind = Job | Process | Thread | Resource | Vmar | Vmo | Channel

  /** An opaque kernel object: its kind and an identity. */
  datatype KernelObject = KernelObject(kind: ObjectKind, id: nat)

  datatype Handle = Handle(obj: KernelObject, rights: Rights)

  datatype MessagePacket = MessagePacket(data: seq<bv8>, handles: seq<Handle>)

  /** The rights a handle to a freshly created object of each kind gets. */
  function DefaultRights(kind: ObjectKind): Rights
  {
    match kind
    case Job => DEFAULT_JOB
    case Process => DEFAULT_PROCESS
    case Thread => DEFAULT_THREAD
    case Resource => DEFAULT_RESOURCE
    case Vmar => DEFAULT_VMAR
    case Vmo => DEFAULT_VMO
    case Channel => DEFAULT_CHANNEL
  }

  /** Every object `run_userboot` creates, in creation order. */
  datatype BootObjects = BootObjects(
    job: KernelObject, process: KernelObject, rootVmar: KernelObject, thread: KernelObject,
    resource: KernelObject, userbootVmar: KernelObject, vdsoVmo: KernelObject, vdsoVmar: KernelObject,
    zbiVmo: KernelObject, stackVmo: KernelObject, userChannel: KernelObject, kernelChannel: KernelObject,
    vdsoTest1: KernelObject, vdsoTest2: KernelObject, crashLogVmo: KernelObject,
    counterNamesVmo: KernelObject, countersVmo: KernelObject, instrumentationVmo: KernelObject)
  {
    /** Each object has the kind its role demands. */
    predicate WellKinded()
    {
      && job.kind == Job && process.kind == Process && rootVmar.kind == Vmar && thread.kind == Thread
      && resource.kind == Resource && userbootVmar.kind == Vmar && vdsoVmo.kind == Vmo && vdsoVmar.kind == Vmar
      && zbiVmo.kind == Vmo && stackVmo.kind == Vmo && userChannel.kind == Channel && kernelChannel.kind == Channel
      && vdsoTest1.kind == Vmo && vdsoTest2.kind == Vmo && crashLogVmo.kind == Vmo
      && counterNamesVmo.kind == Vmo && countersVmo.kind == Vmo && instrumentationVmo.kind == Vmo
    }
  }

  /**
   * The objects of one boot, each creation drawing the next identity from `next`
   * (the process's root VMAR is created together with the process).
   */
  function CreateBootObjects(next: nat): (o: BootObjects)
    ensures o.WellKinded()
    ensures o.vdsoVmo != o.vdsoTest1 && o.vdsoVmo != o.vdsoTest2 && o.vdsoTest1 != o.vdsoTest2
    ensures o.userChannel != o.kernelChannel
    ensures o.instrumentationVmo !in {o.zbiVmo, o.vdsoVmo, o.crashLogVmo, o.counterNamesVmo, o.countersVmo}
  {
    BootObjects(
      KernelObject(Job, next), KernelObject(Process, next + 1), KernelObject(Vmar, next + 2),
      KernelObject(Thread, next + 3), KernelObject(Resource, next + 4), KernelObject(Vmar, next + 5),
      KernelObject(Vmo, next + 6), KernelObject(Vmar, next + 7), KernelObject(Vmo, next + 8),
      KernelObject(Vmo, next + 9), KernelObject(Channel, next + 10), KernelObject(Channel, next + 11),
      KernelObject(Vmo, next + 12), KernelObject(Vmo, next + 13), KernelObject(Vmo, next + 14),
      KernelObject(Vmo, next + 15), KernelObject(Vmo, next + 16), KernelObject(Vmo, next + 17))
  }

  // ---------------------------------------------------------------------------
  // The initial handle table

  /** The object assigned to slot `i`; slots 11 to 14 all name the one instrumentation VMO. */
  function SlotObject(o: BootObjects, i: nat): KernelObject
    requires i < K_HANDLECOUNT
  {
    if i == K_PROC_SELF then o.process
    else if i == K_VMARROOT_SELF then o.rootVmar
    else if i == K_ROOTJOB then o.job
    else if i == K_ROOTRESOURCE then o.resource
    else if i == K_ZBI then o.zbiVmo
    else if i == K_FIRSTVDSO then o.vdsoVmo
    else if i == K_FIRSTVDSO + 1 then o.vdsoTest1
    else if i == K_FIRSTVDSO + 2 then o.vdsoTest2
    else if i == K_CRASHLOG then o.crashLogVmo
    else if i == K_COUNTERNAMES then o.counterNamesVmo
    else if i == K_COUNTERS then o.countersVmo
    else o.instrumentationVmo
  }

  /** The rights assigned to slot `i`. */
  function SlotRights(i: nat): Rights
    requires i < K_HANDLECOUNT
  {
    if i == K_PROC_SELF then DEFAULT_PROCESS
    else if i == K_VMARROOT_SELF then DEFAULT_VMAR | IO
    else if i == K_ROOTJOB then DEFAULT_JOB
    else if i == K_ROOTRESOURCE then DEFAULT_RESOURCE
    else if K_FIRSTVDSO <= i < K_FIRSTVDSO + 3 then DEFAULT_VMO | EXECUTE
    else DEFAULT_VMO
  }

  /** The handle table by index. */
  function InitialHandleTable(o: BootObjects): seq<Handle>
  {
    seq(K_HANDLECOUNT, i requires 0 <= i < K_HANDLECOUNT => Handle(SlotObject(o, i), SlotRights(i)))
  }

  /**
   * Fills a table of K_HANDLECOUNT copies of a no-rights handle to the process,
   * then overwrites the slots one by one.
   */
  method BuildHandleTable(o: BootObjects) returns (handles: seq<Handle>)
    ensures |handles| == K_HANDLECOUNT
    ensures handles == InitialHandleTable(o)
  {
    var t := seq(K_HANDLECOUNT, _ => Handle(o.process, EMPTY));
    t := t[K_PROC_SELF := Handle(o.process, DEFAULT_PROCESS)];
    t := t[K_VMARROOT_SELF := Handle(o.rootVmar, DEFAULT_VMAR | IO)];
    t := t[K_ROOTJOB := Handle(o.job, DEFAULT_JOB)];
    t := t[K_ROOTRESOURCE := Handle(o.resource, DEFAULT_RESOURCE)];
    t := t[K_ZBI := Handle(o.zbiVmo, DEFAULT_VMO)];
    t := t[K_FIRSTVDSO := Handle(o.vdsoVmo, DEFAULT_VMO | EXECUTE)];
    t := t[K_FIRSTVDSO + 1 := Handle(o.vdsoTest1, DEFAULT_VMO | EXECUTE)];
    t := t[K_FIRSTVDSO + 2 := Handle(o.vdsoTest2, DEFAULT_VMO | EXECUTE)];
    t := t[K_CRASHLOG := Handle(o.crashLogVmo, DEFAULT_VMO)];
    t := t[K_COUNTERNAMES := Handle(o.counterNamesVmo, DEFAULT_VMO)];
    t := t[K_COUNTERS := Handle(o.countersVmo, DEFAULT_VMO)];
    t := t[K_FISTINSTRUMENTATIONDATA := Handle(o.instrumentationVmo, DEFAULT_VMO)];
    t := t[K_FISTINSTRUMENTATIONDATA + 1 := Handle(o.instrumentationVmo, DEFAULT_VMO)];
    t := t[K_FISTINSTRUMENTATIONDATA + 2 := Handle(o.instrumentationVmo, DEFAULT_VMO)];
    t := t[K_FISTINSTRUMENTATIONDATA + 3 := Handle(o.instrumentationVmo, DEFAULT_VMO)];
    handles := t;
  }

  /**
   * Every slot is overwritten: none keeps the empty default rights, none holds
   * SAME_RIGHTS, and each carries at least its object kind's default rights.
   */
  lemma HandleTableRights(o: BootObjects)
    requires o.WellKinded()
    ensures |InitialHandleTable(o)| == K_HANDLECOUNT
    ensures forall i :: 0 <= i < K_HANDLECOUNT ==>
      var h := InitialHandleTable(o)[i];
      && h != Handle(o.process, EMPTY)
      && h.rights != EMPTY
      && !Contains(h.rights, SAME_RIGHTS)
      && Contains(h.rights, DefaultRights(h.obj.kind))
  {
    forall i | 0 <= i < K_HANDLECOUNT
      ensures InitialHandleTable(o)[i].rights != EMPTY
      ensures !Contains(InitialHandleTable(o)[i].rights, SAME_RIGHTS)
      ensures Contains(InitialHandleTable(o)[i].rights, DefaultRights(InitialHandleTable(o)[i].obj.kind))
    {
      var h := InitialHandleTable(o)[i];
      if i < K_ZBI {
        assert h.rights in {DEFAULT_PROCESS, DEFAULT_VMAR | IO, DEFAULT_JOB, DEFAULT_RESOURCE};
      } else {
        assert h.obj.kind == Vmo;
      }
    }
  }

  /** Only the three vDSO slots may execute. */
  lemma HandleTableExecute(o: BootObjects)
    ensures forall i :: 0 <= i < K_HANDLECOUNT ==>
      (Contains(InitialHandleTable(o)[i].rights, EXECUTE) <==> K_FIRSTVDSO <= i < K_FIRSTVDSO + 3)
  {
    forall i | 0 <= i < K_HANDLECOUNT
      ensures Contains(InitialHandleTable(o)[i].rights, EXECUTE) <==> K_FIRSTVDSO <= i < K_FIRSTVDSO + 3
    {
      if i < K_ZBI {
        assert InitialHandleTable(o)[i].rights in {DEFAULT_PROCESS, DEFAULT_VMAR | IO, DEFAULT_JOB, DEFAULT_RESOURCE};
      }
    }
  }

  /**
   * The table names the process itself, its root VMAR, the root job and resource
   * first; slots 5 to 7 are three distinct VMOs, and slots 11 to 14 one shared VMO.
   */
  lemma HandleTableObjects(next: nat)
    ensures var o := CreateBootObjects(next);
      var t := InitialHandleTable(o);
      && t[K_PROC_SELF].obj == o.process && t[K_VMARROOT_SELF].obj == o.rootVmar
      && t[K_ROOTJOB].obj == o.job && t[K_ROOTRESOURCE].obj == o.resource
      && (forall i :: K_ZBI <= i < K_HANDLECOUNT ==> t[i].obj.kind == Vmo)
      && t[K_FIRSTVDSO].obj != t[K_FIRSTVDSO + 1].obj
      && t[K_FIRSTVDSO].obj != t[K_FIRSTVDSO + 2].obj
      && t[K_FIRSTVDSO + 1].obj != t[K_FIRSTVDSO + 2].obj
      && (forall i :: K_FISTINSTRUMENTATIONDATA <= i < K_HANDLECOUNT ==> t[i] == t[K_FISTINSTRUMENTATIONDATA])
      && t[K_FISTINSTRUMENTATIONDATA].obj != t[K_CRASHLOG].obj
  {
  }

  // ---------------------------------------------------------------------------
  // The bootstrap message payload

  /** `replace(':', "\0")` on the command line's bytes. */
  function ReplaceColons(s: seq<bv8>): (r: seq<bv8>)
    ensures |r| == |s|
    ensures forall i :: 0 <= i < |s| ==> r[i] == (if s[i] == COLON then NUL else s[i])
  {
    if s == [] then [] else [if s[0] == COLON then NUL else s[0]] + ReplaceColons(s[1..])
  }

  /** The message body: the command line with each ':' turned into NUL, then a NUL terminator. */
  function BootPayload(cmdline: seq<bv8>): (data: seq<bv8>)
    ensures |data| == |cmdline| + 1
    ensures data[|cmdline|] == NUL
    ensures COLON !in data
    ensures forall i :: 0 <= i < |cmdline| ==> data[i] == (if cmdline[i] == COLON then NUL else cmdline[i])
  {
    ReplaceColons(cmdline) + [NUL]
  }

  /** Turns every NUL back into ':'. */
  function RestoreColons(s: seq<bv8>): (r: seq<bv8>)
  {
    if s == [] then [] else [if s[0] == NUL then COLON else s[0]] + RestoreColons(s[1..])
  }

  lemma {:induction false} RestoreReplace(s: seq<bv8>)
    requires NUL !in s
    ensures RestoreColons(ReplaceColons(s)) == s
  {
    if s != [] {
      var r := ReplaceColons(s);
      assert r[1..] == ReplaceColons(s[1..]);
      RestoreReplace(s[1..]);
    }
  }

  /** A command line without NUL bytes is recovered from the payload: the encoding loses nothing. */
  lemma PayloadRoundTrip(cmdline: seq<bv8>)
    requires NUL !in cmdline
    ensures var data := BootPayload(cmdline); RestoreColons(data[..|data| - 1]) == cmdline
  {
    var data := BootPayload(cmdline);
    assert data[..|data| - 1] == ReplaceColons(cmdline);
    RestoreReplace(cmdline);
  }

  /** "a:b:c" becomes "a\0b\0c\0". */
  lemma PayloadExample()
    ensures BootPayload([0x61, 0x3A, 0x62, 0x3A, 0x63]) == [0x61, 0, 0x62, 0, 0x63, 0]
  {
  }

  // ---------------------------------------------------------------------------
  // Stack, VMO sizing and the native encoding of an address

  /** `stack_bottom + stack_vmo.len() - 8`: one slot below the top of the 8-page stack. */
  function InitialStackPointer(stackBottom: nat): (sp: nat)
    ensures stackBottom <= sp && sp + ENTRY_SLOT_SIZE == stackBottom + STACK_PAGES * PAGE_SIZE
    ensures stackBottom % 16 == 0 ==> sp % 16 == 8
  {
    stackBottom + STACK_PAGES * PAGE_SIZE - 8
  }

  /**
   * `len / PAGE_SIZE + 1` pages: always room for `len` bytes, with at most one
   * page to spare, and exactly one when `len` is a multiple of PAGE_SIZE.
   */
  function VmoPageCount(len: nat): (pages: nat)
    ensures 0 < pages
    ensures len < pages * PAGE_SIZE
    ensures (pages - 1) * PAGE_SIZE <= len
  {
    len / PAGE_SIZE + 1
  }

  /** A new paged VMO of `pages` pages reads as zeros. */
  function NewPagedVmo(pages: nat): seq<bv8>
  {
    Zeros(pages * PAGE_SIZE)
  }

  /**
   * `Vmo::write`: fails when the range runs past the VMO's end; otherwise the
   * VMO keeps its size, holds `buf` at `offset` and is unchanged elsewhere.
   */
  function VmoWrite(vmo: seq<bv8>, offset: nat, buf: seq<bv8>): (r: Option<seq<bv8>>)
    ensures r.Some? <==> offset + |buf| <= |vmo|
    ensures r.Some? ==> |r.value| == |vmo| && r.value[offset..offset + |buf|] == buf
    ensures r.Some? ==> forall i :: 0 <= i < |vmo| && !(offset <= i < offset + |buf|) ==> r.value[i] == vmo[i]
  {
    if offset + |buf| <= |vmo| then Some(Overwrite(vmo, offset, buf)) else None
  }

  /** A VMO sized by VmoPageCount holding `image` at offset 0: the write always fits. */
  function LoadImage(image: seq<bv8>): (vmo: seq<bv8>)
    ensures |image| < |vmo|
    ensures vmo[..|image|] == image
    ensures forall i :: |image| <= i < |vmo| ==> vmo[i] == 0
    ensures VmoWrite(NewPagedVmo(VmoPageCount(|image|)), 0, image) == Some(vmo)
  {
    Overwrite(NewPagedVmo(VmoPageCount(|image|)), 0, image)
  }

  /** `to_ne_bytes` of a 64-bit address on a little-endian host. */
  function NativeBytes(x: bv64): (b: seq<bv8>)
    ensures |b| == ENTRY_SLOT_SIZE
  {
    [(x & 0xFF) as bv8, ((x >> 8) & 0xFF) as bv8, ((x >> 16) & 0xFF) as bv8, ((x >> 24) & 0xFF) as bv8,
     ((x >> 32) & 0xFF) as bv8, ((x >> 40) & 0xFF) as bv8, ((x >> 48) & 0xFF) as bv8, ((x >> 56) & 0xFF) as bv8]
  }

  /** `from_ne_bytes` on a little-endian host. */
  function FromNativeBytes(b: seq<bv8>): bv64
    requires |b| == ENTRY_SLOT_SIZE
  {
    (b[0] as bv64) | ((b[1] as bv64) << 8) | ((b[2] as bv64) << 16) | ((b[3] as bv64) << 24)
    | ((b[4] as bv64) << 32) | ((b[5] as bv64) << 40) | ((b[6] as bv64) << 48) | ((b[7] as bv64) << 56)
  }

  /** The eight bytes written into a slot decode back to the address. */
  lemma NativeBytesRoundTrip(x: bv64)
    ensures FromNativeBytes(NativeBytes(x)) == x
  {
  }

  // ---------------------------------------------------------------------------
  // vDSO patching

  /** The vDSO VMO after the syscall-entry address is written into three consecutive slots at `offset`. */
  function WithSyscallEntry(vmo: seq<bv8>, offset: nat, entry: bv64): seq<bv8>
    requires offset + 3 * ENTRY_SLOT_SIZE <= |vmo|
  {
    var e := NativeBytes(entry);
    Overwrite(Overwrite(Overwrite(vmo, offset, e), offset + ENTRY_SLOT_SIZE, e), offset + 2 * ENTRY_SLOT_SIZE, e)
  }

  /** Each of the three slots holds the address; every other byte is unchanged. */
  lemma SyscallEntrySlots(vmo: seq<bv8>, offset: nat, entry: bv64)
    requires offset + 3 * ENTRY_SLOT_SIZE <= |vmo|
    ensures var r := WithSyscallEntry(vmo, offset, entry);
      && |r| == |vmo|
      && r[offset..offset + ENTRY_SLOT_SIZE] == NativeBytes(entry)
      && r[offset + ENTRY_SLOT_SIZE..offset + 2 * ENTRY_SLOT_SIZE] == NativeBytes(entry)
      && r[offset + 2 * ENTRY_SLOT_SIZE..offset + 3 * ENTRY_SLOT_SIZE] == NativeBytes(entry)
      && (forall i :: 0 <= i < |vmo| && !(offset <= i < offset + 3 * ENTRY_SLOT_SIZE) ==> r[i] == vmo[i])
  {
    var e := NativeBytes(entry);
    var r1 := Overwrite(vmo, offset, e);
    var r2 := Overwrite(r1, offset + ENTRY_SLOT_SIZE, e);
    var r := Overwrite(r2, offset + 2 * ENTRY_SLOT_SIZE, e);
    assert r[offset..offset + ENTRY_SLOT_SIZE] == r2[offset..offset + ENTRY_SLOT_SIZE] == r1[offset..offset + ENTRY_SLOT_SIZE];
    assert r[offset + ENTRY_SLOT_SIZE..offset + 2 * ENTRY_SLOT_SIZE] == r2[offset + ENTRY_SLOT_SIZE..offset + 2 * ENTRY_SLOT_SIZE];
  }

  /** Three writes of the syscall-entry address at `offset`, `offset + 8` and `offset + 16`; None when a write runs off the VMO. */
  method PatchSyscallEntry(vmo: seq<bv8>, offset: nat, entry: bv64) returns (r: Option<seq<bv8>>)
    ensures r.Some? <==> offset + 3 * ENTRY_SLOT_SIZE <= |vmo|
    ensures r.Some? ==> r.value == WithSyscallEntry(vmo, offset, entry)
  {
    var e := NativeBytes(entry);
    var w := VmoWrite(vmo, offset, e);
    if w.None? { return None; }
    w := VmoWrite(w.value, offset + ENTRY_SLOT_SIZE, e);
    if w.None? { return None; }
    w := VmoWrite(w.value, offset + 2 * ENTRY_SLOT_SIZE, e);
    if w.None? { return None; }
    r := w;
  }

  /** Whether vDSO byte `i` lies in the kernel constants block. */
  predicate InConstants(i: nat)
  {
    VDSO_DATA_CONSTANTS <= i < VDSO_DATA_CONSTANTS + VDSO_DATA_CONSTANTS_SIZE
  }

  /**
   * The final vDSO contents: the constants block holds `constants`, the syscall
   * slots outside it hold the address, every other byte of the image is the
   * image's and every byte past it is the zero padding of the new VMO.
   */
  lemma PatchedVdsoContents(image: seq<bv8>, offset: nat, entry: bv64, constants: seq<bv8>)
    requires |constants| == VDSO_DATA_CONSTANTS_SIZE
    requires offset + 3 * ENTRY_SLOT_SIZE <= |LoadImage(image)|
    requires VDSO_DATA_CONSTANTS + VDSO_DATA_CONSTANTS_SIZE <= |LoadImage(image)|
    ensures var v := Overwrite(WithSyscallEntry(LoadImage(image), offset, entry), VDSO_DATA_CONSTANTS, constants);
      && |v| == |LoadImage(image)|
      && v[VDSO_DATA_CONSTANTS..VDSO_DATA_CONSTANTS + VDSO_DATA_CONSTANTS_SIZE] == constants
      && (forall i :: offset <= i < offset + 3 * ENTRY_SLOT_SIZE && !InConstants(i) ==> v[i] == NativeBytes(entry)[(i - offset) % ENTRY_SLOT_SIZE])
      && (forall i :: 0 <= i < |image| && !(offset <= i < offset + 3 * ENTRY_SLOT_SIZE) && !InConstants(i) ==> v[i] == image[i])
      && (forall i :: |image| <= i < |v| && !(offset <= i < offset + 3 * ENTRY_SLOT_SIZE) && !InConstants(i) ==> v[i] == 0)
  {
    var loaded := LoadImage(image);
    var p := WithSyscallEntry(loaded, offset, entry);
    SyscallEntrySlots(loaded, offset, entry);
    forall i | offset <= i < offset + 3 * ENTRY_SLOT_SIZE ensures p[i] == NativeBytes(entry)[(i - offset) % ENTRY_SLOT_SIZE] {
      SlotByte(p, offset, NativeBytes(entry), i);
    }
    forall i | 0 <= i < |image| ensures loaded[i] == image[i] {
      assert loaded[..|image|][i] == image[i];
    }
  }

  /** A byte of one of three consecutive slots that each hold `e` is `e` at the byte's offset within its slot. */
  lemma SlotByte(p: seq<bv8>, offset: nat, e: seq<bv8>, i: nat)
    requires |e| == ENTRY_SLOT_SIZE && offset + 3 * ENTRY_SLOT_SIZE <= |p|
    requires p[offset..offset + ENTRY_SLOT_SIZE] == e
    requires p[offset + ENTRY_SLOT_SIZE..offset + 2 * ENTRY_SLOT_SIZE] == e
    requires p[offset + 2 * ENTRY_SLOT_SIZE..offset + 3 * ENTRY_SLOT_SIZE] == e
    requires offset <= i < offset + 3 * ENTRY_SLOT_SIZE
    ensures p[i] == e[(i - offset) % ENTRY_SLOT_SIZE]
  {
    var j := i - offset;
    if j < ENTRY_SLOT_SIZE {
      assert j % ENTRY_SLOT_SIZE == j;
      assert p[i] == p[offset..offset + ENTRY_SLOT_SIZE][j];
    } else if j < 2 * ENTRY_SLOT_SIZE {
      assert j % ENTRY_SLOT_SIZE == j - ENTRY_SLOT_SIZE;
      assert p[i] == p[offset + ENTRY_SLOT_SIZE..offset + 2 * ENTRY_SLOT_SIZE][j - ENTRY_SLOT_SIZE];
    } else {
      assert j % ENTRY_SLOT_SIZE == j - 2 * ENTRY_SLOT_SIZE;
      assert p[i] == p[offset + 2 * ENTRY_SLOT_SIZE..offset + 3 * ENTRY_SLOT_SIZE][j - 2 * ENTRY_SLOT_SIZE];
    }
  }

  // ---------------------------------------------------------------------------
  // run_userboot

  /** What the ELF library reports about an image. */
  datatype ElfInfo = ElfInfo(loadSegmentSize: nat, entryPoint: nat, syscallEntrySymbol: Option<nat>)

  datatype VmarFlag = CanMapRxw | Specific

  /** A child-VMAR request: at a fixed offset or anywhere, of a size, with flags and alignment. */
  datatype VmarRequest = VmarRequest(offset: Option<nat>, size: nat, flags: set<VmarFlag>, align: nat)

  /** The failures of `run_userboot` the model tracks, one per step that can fail. */
  datatype BootError =
    | BadUserbootElf
    | BadVdsoElf
    | MissingSyscallEntry
    | SyscallSlotWriteOutOfRange
    | ConstantsWriteOutOfRange

  /** The first process as started: where it runs, what it sees and the message waiting for it. */
  datatype Userboot = Userboot(
    objects: BootObjects,
    userbootRegion: VmarRequest,
    vdsoRegion: VmarRequest,
    entry: nat,
    stackPointer: nat,
    vdso: seq<bv8>,
    zbi: seq<bv8>,
    message: MessagePacket,
    startArg: Handle)

  datatype BootResult = Booted(boot: Userboot) | Aborted(error: BootError)

  /** Where booting aborts, in the order the steps run; None when it completes. */
  function BootFailure(userbootElf: Option<ElfInfo>, vdsoElf: Option<ElfInfo>, vdsoImage: seq<bv8>): Option<BootError>
  {
    if userbootElf.None? then Some(BadUserbootElf)
    else if vdsoElf.None? then Some(BadVdsoElf)
    else if vdsoElf.value.syscallEntrySymbol.None? then Some(MissingSyscallEntry)
    else if vdsoElf.value.syscallEntrySymbol.value + 3 * ENTRY_SLOT_SIZE > |LoadImage(vdsoImage)|
    then Some(SyscallSlotWriteOutOfRange)
    else if VDSO_DATA_CONSTANTS + VDSO_DATA_CONSTANTS_SIZE > |LoadImage(vdsoImage)|
    then Some(ConstantsWriteOutOfRange)
    else None
  }

  /**
   * `run_userboot`. `userbootBase` is the address the root VMAR picks for the
   * userboot region, `stackBottom` where it maps the stack, `syscallEntry` the
   * kernel's entry address and `constants` the kernel constants block.
   */
  method RunUserboot(
    userbootElf: Option<ElfInfo>, vdsoElf: Option<ElfInfo>, vdsoImage: seq<bv8>, zbiImage: seq<bv8>,
    cmdline: seq<bv8>, userbootBase: nat, stackBottom: nat, syscallEntry: bv64, constants: seq<bv8>,
    firstId: nat)
    returns (r: BootResult)
    requires |constants| == VDSO_DATA_CONSTANTS_SIZE
    ensures r.Aborted? <==> BootFailure(userbootElf, vdsoElf, vdsoImage).Some?
    ensures r.Aborted? ==> r.error == BootFailure(userbootElf, vdsoElf, vdsoImage).value
    ensures r.Booted? ==>
      var b := r.boot;
      var ub := userbootElf.value;
      var vd := vdsoElf.value;
      && b.objects == CreateBootObjects(firstId)
      && b.userbootRegion == VmarRequest(None, ub.loadSegmentSize, {CanMapRxw}, PAGE_SIZE)
      && b.vdsoRegion == VmarRequest(Some(ub.loadSegmentSize), vd.loadSegmentSize, {CanMapRxw, Specific}, PAGE_SIZE)
      && b.entry == userbootBase + ub.entryPoint
      && b.stackPointer == InitialStackPointer(stackBottom)
      && b.vdso == Overwrite(WithSyscallEntry(LoadImage(vdsoImage), vd.syscallEntrySymbol.value, syscallEntry),
                             VDSO_DATA_CONSTANTS, constants)
      && b.zbi == LoadImage(zbiImage)
      && b.message == MessagePacket(BootPayload(cmdline), InitialHandleTable(b.objects))
      && b.startArg == Handle(b.objects.userChannel, DEFAULT_CHANNEL)
  {
    var o := CreateBootObjects(firstId);
    if userbootElf.None? { return Aborted(BadUserbootElf); }
    var ub := userbootElf.value;
    var userbootRegion := VmarRequest(None, ub.loadSegmentSize, {CanMapRxw}, PAGE_SIZE);
    var entry := userbootBase + ub.entryPoint;

    if vdsoElf.None? { return Aborted(BadVdsoElf); }
    var vd := vdsoElf.value;
    var vdso := LoadImage(vdsoImage);
    var vdsoRegion := VmarRequest(Some(ub.loadSegmentSize), vd.loadSegmentSize, {CanMapRxw, Specific}, PAGE_SIZE);
    if vd.syscallEntrySymbol.None? { return Aborted(MissingSyscallEntry); }
    var patched := PatchSyscallEntry(vdso, vd.syscallEntrySymbol.value, syscallEntry);
    if patched.None? { return Aborted(SyscallSlotWriteOutOfRange); }
    vdso := patched.value;

    var zbi := LoadImage(zbiImage);
    var sp := InitialStackPointer(stackBottom);
    var startArg := Handle(o.userChannel, DEFAULT_CHANNEL);

    var handles := BuildHandleTable(o);
    var withConstants := VmoWrite(vdso, VDSO_DATA_CONSTANTS, constants);
    if withConstants.None? { return Aborted(ConstantsWriteOutOfRange); }
    vdso := withConstants.value;

    var msg := MessagePacket(BootPayload(cmdline), handles);
    r := Booted(Userboot(o, userbootRegion, vdsoRegion, entry, sp, vdso, zbi, msg, startArg));
  }
}
