# zCore tutorial kernel core: physical memory, rights, userboot layout

This project is a Dafny model of three parts of a Zircon-style microkernel that runs in a host process.

- **Emulated physical memory** (`HalUnix`, from the Unix hardware-abstraction layer).
  - A flat memory of `PMEM_SIZE = 0x4000_0000` bytes, modelled as an `array<bv8>`.
  - Bounds-checked `pmem_read`, `pmem_write`, `pmem_zero` and `frame_copy` over that memory.
  - `phys_to_virt`, which adds the fixed base `0x8_0000_0000`.
  - The global FIFO free list of page frames (`AVAILABLE_FRAMES`).
    - `PhysFrame::alloc` pops from the front.
    - Dropping a `PhysFrame` pushes its address on the back.
    - The class `FrameAllocator` holds the queue as a `seq<nat>` and the addresses of live frames as a ghost set.
    - Its invariant says that the queue and the live frames together are exactly the allocatable pages, with no duplicates.
    - `Dealloc` requires its address to be live. This stands in for Rust's move-only `PhysFrame` ownership.
- **Handle rights** (`ObjectRights`). The 21 primitive rights, the composite masks and the per-kind default masks are `bv32` constants. Lemmas give their exact bit patterns and their subset and disjointness relations.
- **Userboot bootstrap layout** (`ZirconLoader`, from `run_userboot`).
  - The 15-slot initial handle table: its default fill and the rights written at each fixed index.
  - The command line turned into the bootstrap message payload.
  - The initial stack pointer.
  - VMO sizing in pages.
  - In-place patching of the vDSO image: three 8-byte syscall-entry slots, then the kernel constants block.
  - `RunUserboot` strings these together in the source's order, including the points where booting aborts.
  - Kernel objects are opaque `(kind, id)` values. Identities are drawn in creation order from a counter.

`ByteSeq.Overwrite` is the one write-at-offset update. Physical memory and VMO contents both use it.

Modelling choices:

- `PAGE_SIZE` is 4096. It comes from `kernel_hal::defs`, which is not part of this model; 4096 is the x86-64 value, and it divides `PMEM_SIZE`.
- The `assert!` bounds checks in `pmem_read`, `pmem_write`, `pmem_zero` and `frame_copy` abort the kernel. They are therefore preconditions, not error results.
- `frame_copy` copies with `copy_to_nonoverlapping`, so its precondition also requires the two pages not to overlap. Two distinct live frames always meet this (`FrameAllocator.LiveFramesDisjoint`).
- The command line is modelled as its UTF-8 bytes. `':'` is ASCII, so `str::replace(':', "\0")` equals replacing byte `0x3A` by `0x00`.
- `usize::to_ne_bytes` is modelled as little-endian, the byte order of the x86-64 host.
- Five steps of `run_userboot` can abort in the model, and each has its own `BootError`: parsing the userboot ELF (`BadUserbootElf`), parsing the vDSO ELF (`BadVdsoElf`), looking up `zcore_syscall_entry` (`MissingSyscallEntry`), the three syscall-slot writes (`SyscallSlotWriteOutOfRange`) and the constants-block write (`ConstantsWriteOutOfRange`). The writes of the two images at offset 0 cannot fail (`LoadImage`). The other `.unwrap()` and `.expect()` calls are listed under "## Left out".

In three places the model follows the code rather than a comment or a common expectation:

- The handle table has `K_HANDLECOUNT = 15` slots, indices 0..14.
- `DEFAULT_VMAR` is `BASIC & !WAIT` (0x8003), as the expression says. The doc comment "BASIC | WAIT" beside it is wrong.
- The initial stack pointer is `stack_bottom + 8 * PAGE_SIZE - 8`. It is 16-byte aligned only before the 8 is taken off; from a 16-aligned bottom, `sp % 16 == 8`.

## Model

| member | source | states |
|---|---|---|
| `ByteSeq.Overwrite` | code/ch03-02/kernel-hal-unix/src/lib.rs:176-186 | a write at offset p keeps the length, puts `b` at `[p, p+|b|)` byte for byte, and leaves every other byte as it was |
| `HalUnix.CollectPageAddrs` | code/ch03-02/kernel-hal-unix/src/lib.rs:123-126 | stepping from PAGE_SIZE to PMEM_SIZE by PAGE_SIZE collects exactly the initial free list |
| `HalUnix.InitialFreeListIsPageSet` | code/ch03-02/kernel-hal-unix/src/lib.rs:123-126 | the initial free list is strictly ascending, has no duplicates, lacks address 0, and holds exactly the page-aligned nonzero addresses below PMEM_SIZE |
| `HalUnix.PageCount` | code/ch03-02/kernel-hal-unix/src/lib.rs:123-126 | there are exactly PMEM_SIZE / PAGE_SIZE - 1 allocatable pages |
| `HalUnix.DistinctPagesDisjoint` | code/ch03-02/kernel-hal-unix/src/lib.rs:199-209 | two distinct allocatable pages do not overlap and both fit below PMEM_SIZE, which is what `frame_copy` needs |
| `HalUnix.ZeroFrameAddr` | code/ch03-02/kernel-hal-unix/src/lib.rs:139-142 | the zero page's address is page-aligned and in range, and it is never an allocatable frame |
| `HalUnix.PhysToVirt` | code/ch03-02/kernel-hal-unix/src/lib.rs:153-158 | every physical address maps at or above PMEM_BASE, and memory maps into `[PMEM_BASE, PMEM_BASE + PMEM_SIZE)` |
| `HalUnix.PhysToVirtOrder` | code/ch03-02/kernel-hal-unix/src/lib.rs:153-158 | phys_to_virt is injective and order-preserving, and shifts every address by the same constant offset |
| `HalUnix.FrameAllocator.constructor` | code/ch03-02/kernel-hal-unix/src/lib.rs:123-126 | the allocator starts with the initial free list, no live frames, and its invariant |
| `HalUnix.FrameAllocator.Alloc` | code/ch03-02/kernel-hal-unix/src/lib.rs:128-138 | returns None exactly when the free list is empty, otherwise pops and returns its front (FIFO), which becomes live; the result is an allocatable page not already live; the invariant is kept |
| `HalUnix.FrameAllocator.Dealloc` | code/ch03-02/kernel-hal-unix/src/lib.rs:145-151 | a live frame's address is appended to the back of the free list and is no longer live; the invariant is kept |
| `HalUnix.FrameAllocator.FrameCount` | code/ch03-02/kernel-hal-unix/src/lib.rs:123-151 | free plus live frames always number PMEM_SIZE / PAGE_SIZE - 1, so the free list is empty exactly when that many frames are live |
| `HalUnix.FrameAllocator.LiveFramesDisjoint` | code/ch03-02/kernel-hal-unix/src/lib.rs:145-150 | two distinct live frames are allocatable pages that do not overlap |
| `HalUnix.PhysMemory.constructor` | code/ch03-02/kernel-hal-unix/src/lib.rs:75-96 | the freshly sized memory file is PMEM_SIZE zero bytes |
| `HalUnix.PhysMemory.Read` | code/ch03-02/kernel-hal-unix/src/lib.rs:165-174 | with `paddr + len <= PMEM_SIZE`, the buffer receives the bytes at `[paddr, paddr+len)` and memory is unchanged |
| `HalUnix.PhysMemory.Write` | code/ch03-02/kernel-hal-unix/src/lib.rs:176-186 | with `paddr + len <= PMEM_SIZE`, memory becomes the old memory overwritten by the buffer at `paddr` |
| `HalUnix.PhysMemory.Zero` | code/ch03-02/kernel-hal-unix/src/lib.rs:188-197 | with `paddr + len <= PMEM_SIZE`, exactly `[paddr, paddr+len)` becomes zero |
| `HalUnix.PhysMemory.FrameCopy` | code/ch03-02/kernel-hal-unix/src/lib.rs:199-209 | with both pages in range and not overlapping, the target page becomes the old source page, the source page is unchanged, and so is every other byte |
| `HalUnix.WriteThenRead` | code/ch03-02/kernel-hal-unix/src/lib.rs:165-186 | reading back the written range yields the written bytes; a read of a disjoint range sees the old bytes |
| `ObjectRights.PrimitiveBits` | code/ch04-01/zircon-object/src/object/rights.rs:8-28 | DUPLICATE..APPLY_PROFILE are the single bits 0..19 and SAME_RIGHTS is bit 31 |
| `ObjectRights.BitsDistinct` | code/ch04-01/zircon-object/src/object/rights.rs:8-28 | masks at distinct bit positions are nonzero and disjoint, so the primitives are distinct single bits |
| `ObjectRights.CompositeValues` | code/ch04-01/zircon-object/src/object/rights.rs:30-60 | the bit patterns: BASIC 0xC003, IO 0xC, PROPERTY 0xC0, POLICY 0xC00, CHANNEL 0xF00E, PROCESS 0x6D3CF, THREAD 0x4D2CF, VMAR 0x8003, JOB 0x7DFCF, VMO 0xD0EF, RESOURCE 0x800B |
| `ObjectRights.ChannelDefault` | code/ch04-01/zircon-object/src/object/rights.rs:39-40 | the channel default contains TRANSFER, IO, SIGNAL, SIGNAL_PEER, WAIT and INSPECT but not DUPLICATE |
| `ObjectRights.VmarDefault` | code/ch04-01/zircon-object/src/object/rights.rs:49-50 | the VMAR default is within BASIC, lacks WAIT, and keeps TRANSFER, DUPLICATE and INSPECT |
| `ObjectRights.TaskDefaultsNested` | code/ch04-01/zircon-object/src/object/rights.rs:42-54 | thread ⊂ process ⊂ job, strictly; among the defaults only the job's holds POLICY and MANAGE_JOB |
| `ObjectRights.VmoDefault` | code/ch04-01/zircon-object/src/object/rights.rs:56-57 | the VMO default contains IO, PROPERTY and MAP, and not EXECUTE |
| `ObjectRights.ResourceDefault` | code/ch04-01/zircon-object/src/object/rights.rs:59-60 | the resource default contains WRITE and not READ |
| `ObjectRights.NoMaskHasSentinels` | code/ch04-01/zircon-object/src/object/rights.rs:27-60 | no composite or default mask contains SAME_RIGHTS or APPLY_PROFILE |
| `ZirconLoader.CreateBootObjects` | code/ch04-01/zircon-loader/src/lib.rs:43-142 | each created object has the kind of its role; the vDSO VMO and its two children are three distinct objects; the two channel ends differ; the instrumentation VMO is none of the other VMOs |
| `ZirconLoader.BuildHandleTable` | code/ch04-01/zircon-loader/src/lib.rs:114-151 | filling 15 no-rights process handles and overwriting slot by slot yields exactly the table given by index |
| `ZirconLoader.HandleTableRights` | code/ch04-01/zircon-loader/src/lib.rs:114-151 | the table has 15 slots; none keeps the default fill or empty rights; none holds SAME_RIGHTS; each holds at least its object kind's default rights |
| `ZirconLoader.HandleTableExecute` | code/ch04-01/zircon-loader/src/lib.rs:131-133 | a slot's rights include EXECUTE exactly for slots 5, 6 and 7 |
| `ZirconLoader.HandleTableObjects` | code/ch04-01/zircon-loader/src/lib.rs:115-151 | slots 0..3 name the process, its root VMAR, the root job and the root resource; slots 4..14 are VMOs; slots 5..7 are three distinct objects; slots 11..14 are one and the same handle, on a VMO other than the crash log |
| `ZirconLoader.ReplaceColons` | code/ch04-01/zircon-loader/src/lib.rs:154 | keeps the length; each byte is NUL where the command line has ':' and is unchanged otherwise |
| `ZirconLoader.BootPayload` | code/ch04-01/zircon-loader/src/lib.rs:154 | the payload is one byte longer than the command line, ends in NUL, contains no ':', and replaces each ':' by NUL |
| `ZirconLoader.PayloadRoundTrip` | code/ch04-01/zircon-loader/src/lib.rs:154 | a command line without NUL bytes is recovered from the payload by dropping the terminator and turning NUL back into ':' |
| `ZirconLoader.PayloadExample` | code/ch04-01/zircon-loader/src/lib.rs:154 | "a:b:c" becomes "a\0b\0c\0" |
| `ZirconLoader.InitialStackPointer` | code/ch04-01/zircon-loader/src/lib.rs:100-108 | sp lies in the stack, one 8-byte slot below its top; from a 16-aligned bottom, sp % 16 == 8, as after a pushed return address |
| `ZirconLoader.VmoPageCount` | code/ch04-01/zircon-loader/src/lib.rs:69-70 | `len / PAGE_SIZE + 1` pages hold strictly more than `len` bytes, with at most one page to spare, and exactly one page to spare when `len` is a multiple of PAGE_SIZE |
| `ZirconLoader.LoadImage` | code/ch04-01/zircon-loader/src/lib.rs:93-98 | writing an image at offset 0 of a VMO sized by that page count never fails; the VMO starts with the image and is zero after it |
| `ZirconLoader.VmoWrite` | code/ch04-01/zircon-loader/src/lib.rs:86-88 | a VMO write succeeds exactly when `offset + len` fits in the VMO; the result keeps the VMO's size, holds the buffer at `[offset, offset+len)` and every other byte unchanged |
| `ZirconLoader.NativeBytes` | code/ch04-01/zircon-loader/src/lib.rs:84 | the native encoding of an address is 8 bytes |
| `ZirconLoader.NativeBytesRoundTrip` | code/ch04-01/zircon-loader/src/lib.rs:84 | decoding the 8 bytes gives the address back |
| `ZirconLoader.SyscallEntrySlots` | code/ch04-01/zircon-loader/src/lib.rs:84-88 | after the three writes, `[off, off+8)`, `[off+8, off+16)` and `[off+16, off+24)` each hold the encoded address; every other byte is unchanged |
| `ZirconLoader.PatchSyscallEntry` | code/ch04-01/zircon-loader/src/lib.rs:81-88 | the three successive writes succeed exactly when `off + 24` fits in the VMO, and then give the three-slot patch |
| `ZirconLoader.PatchedVdsoContents` | code/ch04-01/zircon-loader/src/lib.rs:121-125 | in the final vDSO, `[0x4a50, 0x4a50+0x78)` holds the constants; syscall-slot bytes outside it hold the address; every other image byte is the original, and every byte past the image is zero |
| `ZirconLoader.RunUserboot` | code/ch04-01/zircon-loader/src/lib.rs:42-161 | aborts exactly when one of the five modelled steps fails, with the error of the first one that fails, in source order. Otherwise: the entry point is the userboot base plus the ELF entry; the userboot region is CAN_MAP_RXW anywhere; the vDSO region is CAN_MAP_RXW\|SPECIFIC at offset userboot_size. It also gives the stack pointer, the patched vDSO, the ZBI VMO, the message (payload and the 15-slot table) and the channel handle with DEFAULT_CHANNEL passed to the thread |

## Left out

- Creating, sizing and mapping the host file that backs physical memory (`create_pmem_file`, `mmap`, `ensure_mmap_pmem`, the macOS PROT_EXEC workaround) is host I/O. Memory is modelled as one byte array.
- The `lazy_static` initialisation and the `Mutex` around the free list concern concurrency. The allocator is one sequential object.
- `Thread::spawn`, `timer_now` and `init` are an async task, the system clock and a platform check.
- `frame_flush` does nothing.
- `Debug` formatting, `trace!`/`debug!` logging and every `set_name` are diagnostics.
- ELF parsing (`ElfFile::new`, `load_segment_size`, the entry point, `get_symbol_address`) is an external library. Its results are the `ElfInfo` parameters; a failed parse is `None`.
- VMAR operations belong to kernel objects that are not part of this model.
  - The address `allocate` picks and the stack address `map` returns are parameters (`userbootBase`, `stackBottom`).
  - `RunUserboot` records the two region requests but does not check that they do not overlap. That check belongs to `allocate_at`.
  - Failures of `allocate`, `allocate_at`, `load_from_elf`, `map_from_elf` and `map` are not modelled.
  - The stack mapping's flags (READ, WRITE, USER) are not recorded.
- The `.unwrap()`s of `Process::create`, `Thread::create`, both `create_child` calls and `kernel_channel.write`, and the `.expect()` of `proc.start`, are not modelled as failures. Those operations belong to kernel objects that are not part of this model, and the model treats them as succeeding.
- VMO internals (copy-on-write `create_child`, paging) are not modelled. A VMO's contents are a byte sequence. `Vmo::write` is assumed to fail when the range runs past the VMO's size.
- Job, Process, Thread, Resource and Channel are opaque identifiers.
  - The root resource's name, kind and range are not modelled.
  - `Channel::write` delivery is not modelled; the message is produced as a value.
  - `Process::start` is not modelled; its entry, stack pointer and argument are the result's fields.
- The `kcounter` module is not part of this model. Its two VMOs are identifiers.
- `kernel_hal::vdso_constants` and the `transmute` are not part of this model. The constants block is an arbitrary 0x78-byte input.
- `new_thread`, `thread_fn` and `context_run` are an async task and a CPU context switch.
- Addresses are unbounded naturals. `usize` overflow is not modelled in `paddr + len`, in `phys_to_virt`, in the slot offsets `offset + 8` and `offset + 16`, in `vmar.addr() + entry_point`, or in `stack_bottom + stack_vmo.len() - 8`.
