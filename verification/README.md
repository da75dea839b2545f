# Verified models of vLLM components

This project models the parts of vLLM in which many small steps have to add up to one simple promise, and proves the promise
for every input, every run and every interleaving. `dafny verify dfyconfig.toml` checks all of it.

| files | component | what is promised |
|---|---|---|
| `ScanGrid`, `ScanKernel`, `ChunkMetadata`, `PrefillRun` | selective-scan kernel of the Mamba layers, with the builder of its chunk metadata | a grid of programs that overwrite their own inputs gives, in any interleaving of memory accesses, what one uninterrupted fold over untouched inputs gives; checkpoints saved in cache blocks let a request be cut into scheduler steps anywhere |
| `VirtualMemory`, `MemChunks`, `SleepMode`, `CumemAllocator` | sleep-mode device allocator (ROCm path) | address ranges, physical chunks and mappings belong together through failing driver calls, sleeping, waking and other users of the address space, and exactly when they no longer do |
| `BlockStore`, `BlockSafety`, `FsIo` | on-disk block store | readers never see a torn block, under every interleaving of storers and loaders |
| `BuildReport`, `NinjaLog` | build-time report | a sweep with one running total agrees with the per-task integral and conserves time; log lines are partitioned into targets |
| `WorkerPool` | queue of prompts with sentinels | every prompt once, no deadlock, in every interleaving |
| `SpinLoop` | monitor/wait loop | no lost wake-up |
| `PagedGather`, `Quantizer`, `Downloads`, `SequenceParallel` | paged gather, int8 quantiser, retried downloads, padded token counts | exact contents, error bounds, clean-up on failure |

How it is modelled:

- The arithmetic of one scan token is an arbitrary function of the token, the state and the `delta` read from memory. Tensors are
  flat memories with strides; a program's step is one load or store, and a schedule picks a program for each step.
- The device driver is a value: reserved ranges, live physical handles, mappings. Driver calls are methods that may fail at any
  time without effect. A live handle can be released while it is mapped, as the driver documents: the memory then stays
  until it is unmapped, and its number is not given out before. Ranges of other users are a separate map; they may change
  whenever the allocator has freed a range and not yet reserved it again. A ghost log counts the calls that the driver has
  refused for reasons of its own and the ranges it has reserved elsewhere than asked, and records which chunks are accessible
  and zeroed and where memory is still resident (until the address range is freed); with it a contract can say when a call
  succeeds, and that no step was left out.
- The file system maps names to inodes and inodes to contents. Each system call is a step, a `write` one step per piece that
  reaches the file, and the operating system decides each outcome. `FsIo` holds the calls as the source writes them; each
  of its steps is a step of the state machine in `BlockStore`, with any steps of other threads in between, and lists
  the errors that the operating system has answered with.
- Times and the quantiser's values are exact reals.
- Every lemma carries `{:induction false}`: no proof rests on automatic induction.

## Model

| member | source | states |
|---|---|---|
| ScanGrid.StepProgress | vllm/_xpu_ops.py:827-907 | one memory access of a program stays inside its own rows and cells and leaves them exactly where the fold over untouched inputs says they must be at that point |
| ScanGrid.AdvanceInv | vllm/_xpu_ops.py:698-918 | a step of any program keeps every program on course and changes nothing outside the rows and cells of the grid |
| ScanGrid.AnyInterleaving | vllm/_xpu_ops.py:698-918 | however the accesses of the programs interleave, a finished grid leaves the reference memory: `delta` and `z` overwritten by outputs computed from their old contents, each cell holding the fold at the last chunk saved there, all else unchanged |
| ScanGrid.StepsLeftAfter | vllm/_xpu_ops.py:817-907 | after any schedule, the steps a program has left depend only on how often it was scheduled |
| ScanGrid.HaltsWhenDone | vllm/_xpu_ops.py:817-907 | a program has finished if and only if it was scheduled as often as it has steps: every fair schedule ends |
| ScanGrid.RunToken | vllm/_xpu_ops.py:827-879 | one token on the tensors themselves: state, output over `delta`, gated output over `z`, as the reference has them, nothing else touched |
| ScanGrid.RunChunk | vllm/_xpu_ops.py:827-881 | the token loop of a chunk continues the fold from any position |
| ScanGrid.RunAndSave | vllm/_xpu_ops.py:817-907 | one pass of the outer loop: tokens, then the state into the chosen cell |
| ScanGrid.SoloRun | vllm/_xpu_ops.py:698-918 | the in-place loops of one program leave the reference memory of a grid that holds only it |
| ScanGrid.Checkpoint | vllm/_xpu_ops.py:884-907 | a cell no later chunk saves into ends with the fold of exactly the tokens up to the end of its chunk, whatever the other programs do |
| ScanGrid.Resume | vllm/_xpu_ops.py:746-761 | starting from the state after `n` tokens gives the states and outputs of the fold that never stopped |
| ScanKernel.RowsDisjoint | vllm/_xpu_ops.py:763-791 | rows of two different (batch, dim) programs never share an address, for fixed-length and variable-length layouts |
| ScanKernel.FullChunks | vllm/_xpu_ops.py:803-810 | where chunk `c` ends, counted from `current_position` |
| ScanKernel.CheckpointBlock | vllm/_xpu_ops.py:794-897 | non-final chunk `c` is saved under block `block_idx_first + c`, also when the sequence resumes in the middle of a block |
| ScanKernel.ProgramsApart | vllm/_xpu_ops.py:698-918 | nothing one program of a launch writes is read or written by another |
| ScanKernel.GridScans | vllm/_xpu_ops.py:698-918 | in the reference memory of any grid that holds it, program (b, d) has read and written exactly the addresses of its row and slots, as written out for the launch |
| ScanKernel.LaunchDeterministic | vllm/_xpu_ops.py:698-918 | a finished launch leaves the reference memory, in whatever order and however finely its programs were interleaved; and address by address, with strides, slots and table entries written out: token `t` of sequence `b` in dimension `d` has its output at its address of `delta`, computed from the old row and the state in the cell of its slot (or zero), the gated output at its address of `z`, and the state after the last token is in the cell of the slot it is to be saved in; a null slot is skipped |
| ScanKernel.NullSequenceUntouched | vllm/_xpu_ops.py:711-725 | a sequence whose slot (of the sequence, or of the block table) is the null block keeps its rows, at the addresses written out |
| ScanKernel.UnsavedCellKept | vllm/_xpu_ops.py:884-918 | a state cell that no active sequence saves into keeps its content |
| ScanKernel.UnscannedKept | vllm/_xpu_ops.py:763-791 | an address of `delta` or `z` that lies in no row of an active sequence, rows written out, keeps its content |
| ScanKernel.EmptySequenceWritesNothing | vllm/_xpu_ops.py:802-818 | a sequence with no chunks has no tokens, and its programs write no row and no cell |
| ScanKernel.ChunkSetup | vllm/_xpu_ops.py:794-813 | number of chunks, zero included, and first position; without chunks the entry loaded behind the first boundary may lie outside the array and does not matter |
| ScanKernel.LoadInitial | vllm/_xpu_ops.py:746-761 | the initial state is zero or the content of the load cell |
| ScanKernel.ReadChunk | vllm/_xpu_ops.py:817-897 | chunk size and store cell found from the running position are those of the specification |
| ScanKernel.RunActive | vllm/_xpu_ops.py:746-918 | the chunk loop of an active program, in place, for any number of chunks, ends in the reference memory: row and final state at the addresses written out |
| ScanKernel.RunProgram | vllm/_xpu_ops.py:698-918 | the kernel body for one (batch, dim) index, the early returns included, leaves the reference memory of that program: row and final state at the addresses written out |
| ChunkMetadata.RequestChunks | vllm/v1/attention/backends/mamba_attn.py:313-343 | the chunks of one request start at the specified boundaries, and all its tokens are used up |
| ChunkMetadata.ComputeChunkMetadata | vllm/v1/attention/backends/mamba_attn.py:288-347 | starts, owners and last chunk of every request, concatenated over the batch; a chunk belongs to a request if and only if it lies behind the last chunk of the request before and not behind its own |
| ChunkMetadata.OwnerOf | vllm/v1/attention/backends/mamba_attn.py:322-343 | the same for the first `n` requests: the owner of each chunk, both ways |
| ChunkMetadata.BoundaryEnds | vllm/v1/attention/backends/mamba_attn.py:320-340 | every chunk but the last ends at a multiple of the chunk size counted from the beginning of the request; the last ends with the new tokens |
| ChunkMetadata.BoundariesRecorded | vllm/v1/attention/backends/mamba_attn.py:313-347 | each boundary of each request can be read off `cu_chunk_seqlen`, the last one from the entry of the next request or the closing entry |
| ChunkMetadata.EmptyRequest | vllm/v1/attention/backends/mamba_attn.py:313-343 | a request has no chunk if and only if it has no new token and stands at a block end; without new tokens it has at most one |
| ChunkMetadata.ChunksFollow | vllm/v1/attention/backends/mamba_attn.py:313-347 | chunks follow those of the first requests if and only if a later request has one |
| ChunkMetadata.BlockIndices | vllm/v1/attention/backends/mamba_attn.py:410-452 | the three block indices, and that the scheduled tokens run through exactly as many blocks as there are chunks |
| PrefillRun.BuiltCacheWf | vllm/_xpu_ops.py:794-825 | the builder's metadata meets all that the kernel takes for granted about its chunks, with requests of zero new tokens anywhere in the batch |
| PrefillRun.FirstLoadInBounds | vllm/_xpu_ops.py:803-805 | the load of the first chunk's end stays inside `cu_chunk_seqlen` if and only if this or a later request has new tokens or stands inside a block |
| PrefillRun.BuiltBlock | vllm/_xpu_ops.py:884-897 | with the builder's metadata chunk `c` goes to block `computed / block_size + c`, the last chunk included |
| PrefillRun.KernelPrefills | vllm/_xpu_ops.py:698-918 | every active program of a launch built this way continues its request: it loads the last block computed, and cuts the new tokens, if any, at block ends |
| PrefillRun.EmptyRequestChangesNothing | vllm/_xpu_ops.py:817-907 | a request without new tokens saves nothing, or saves the state it has loaded into the block it came from |
| PrefillRun.PrefillBlocks | vllm/_xpu_ops.py:884-907 | if the blocks that a request has hold the fold at their ends before a launch, they do after it, the new ones included |
| PrefillRun.PrefillOutput | vllm/_xpu_ops.py:827-879 | each output of the launch is that of the uninterrupted fold, and with a gate `z` holds its gated form |
| PrefillRun.ChunkedPrefill | vllm/v1/attention/backends/mamba_attn.py:295-306 | for every way to cut a request into scheduler steps, at each step every block computed so far and kept holds the state of the uninterrupted fold at its end |
| PrefillRun.ChunkedPrefillOutputs | vllm/_xpu_ops.py:827-879 | ... and each output of each step, gated or not, is that of the uninterrupted fold |
| PrefillRun.BuiltStepOk | vllm/_xpu_ops.py:698-918 | a launch with the builder's metadata is a scheduler step of every request it serves, if the blocks of the request are its own: nothing more is assumed of the programs |
| PrefillRun.LaunchedPrefill | vllm/_xpu_ops.py:698-918 | for every sequence of launches with the builder's metadata and every interleaving inside each, at the addresses written out: before a launch each block that the request has holds, in the cell of its table entry, the state of one uninterrupted fold at its end; after it so do the blocks the launch has reached, and every output in the request's row of `delta`, and gated in that of `z`, is that of the fold |
| PrefillRun.PrefixHit | vllm/v1/core/single_type_kv_cache_manager.py:1538-1562 | full blocks that two requests have in common serve the second as they served the first, also when it takes over only some of them and has null blocks for the rest |
| MemChunks.FillChunkSizes | csrc/cumem_allocator.cpp:391-416 | the loop fills in the specified chunk sizes |
| MemChunks.ChunksTile | csrc/cumem_allocator.cpp:391-416 | chunk sizes are positive multiples of the granularity that add up to the aligned size; only the last may be short |
| MemChunks.ChunkOffset | csrc/cumem_allocator.cpp:184-203 | the running sum of sizes used as map address is `i` full chunks, or the end |
| VirtualMemory.OffsetsTile | csrc/cumem_allocator.cpp:184-203 | addresses of chunks tile the range: each begins where the one before ends |
| SleepMode.UnbackedBacked | csrc/cumem_allocator.cpp:263-280 | releasing what was created and mapped restores the driver exactly |
| SleepMode.BackedUnbacked | csrc/cumem_allocator.cpp:174-203 | ... and mapping the same chunks again restores it the other way round |
| SleepMode.WakeKeeps | csrc/cumem_allocator.cpp:743-812 | backing a placeholder with new chunks keeps the invariant: every range belongs to a record, awake ones are backed chunk by chunk, nothing else is mapped or live |
| SleepMode.SleepKeeps | csrc/cumem_allocator.cpp:704-705 | taking the chunks of an awake allocation away keeps the invariant |
| SleepMode.PlaceholderAdded | csrc/cumem_allocator.cpp:368-379 | a freshly reserved range is a sleeping allocation |
| SleepMode.PlaceholderDropped | csrc/cumem_allocator.cpp:581-583 | giving up a placeholder keeps the invariant, with or without its record |
| SleepMode.FreeUndoesMalloc | csrc/cumem_allocator.cpp:477-594 | freeing undoes allocating: ranges, handles and mappings are as they were |
| SleepMode.WakeUndoesSleep | csrc/cumem_allocator.cpp:794-796 | sleep then wake brings back every range and every mapped address with its size, leaves other allocations alone, and with the same handles is the identity |
| SleepMode.ByteBacked | csrc/cumem_allocator.cpp:119-240 | every byte of an awake allocation is backed by exactly one live chunk, one of its own; a sleeping allocation has none |
| SleepMode.NothingShared | csrc/cumem_allocator.cpp:346-474 | two allocations share no address and no physical chunk |
| SleepMode.AllAsleepNothingLive | vllm/device_allocator/cumem.py:227-275 | when everything sleeps no physical memory is held |
| SleepMode.LostPlaceholderMapped | csrc/cumem_allocator.cpp:743-812 | a concrete state that satisfies the invariant, in which waking an allocation that lost its placeholder maps its chunks into a later range of ours and breaks it |
| SleepMode.StrayMade | csrc/cumem_allocator.cpp:743-812 | for every such state: what is mapped for a record that does not hold its range belongs to no allocation |
| SleepMode.StrayStays | csrc/cumem_allocator.cpp:743-812 | ... and no later wake-up repairs it |
| SleepMode.BothBacked | csrc/cumem_allocator.cpp:263-285 | unmapping and releasing a backed allocation takes exactly its chunks, without an error |
| SleepMode.BothHarmless | csrc/cumem_allocator.cpp:263-285 | for any record: the two loops leave the driver alone if and only if nothing is mapped the way the record says and none of its handles is live, and then an error is reported |
| SleepMode.ClearHarmless | csrc/cumem_allocator.cpp:263-285 | that is so where no range of ours lies, if none of the handles is live |
| SleepMode.DanglingHandleReleased | csrc/cumem_allocator.cpp:275-280 | a concrete state in which the condition on the handles is needed: the handles of a failed allocation are read from freed storage, one of them is that of another allocation, and releasing it breaks the invariant although no range lies where the record says |
| SleepMode.BothStale | csrc/cumem_allocator.cpp:263-285 | for a record without its range that is not harmless they take a mapping or a handle from an allocation that is awake, and break the invariant |
| SleepMode.LeakInvalid | csrc/cumem_allocator.cpp:174-183 | a handle created and then forgotten because of a stale error breaks the invariant |
| CumemAllocator.Allocator.constructor | csrc/cumem_allocator.cpp:84-104 | an allocator without allocations satisfies the invariant, whatever ranges others hold |
| CumemAllocator.Allocator.ReserveRocm | csrc/cumem_allocator.cpp:50-71 | a free range with the wanted alignment, or nothing reserved; it fails if and only if the driver has refused both with and without an alignment, and the range is the one asked for if and only if none was reserved elsewhere |
| CumemAllocator.Allocator.CreateHandles | csrc/cumem_allocator.cpp:174-183 | one new handle per chunk, or none, and it succeeds if and only if there was no earlier error and the driver refused nothing; an error left by an earlier call makes it fail, and at most the first handle is leaked |
| CumemAllocator.Allocator.MapChunks | csrc/cumem_allocator.cpp:184-203 | all chunks mapped one behind the other, or everything unmapped and released; it succeeds if and only if the driver refused nothing and there was room for all |
| CumemAllocator.Allocator.UndoMapping | csrc/cumem_allocator.cpp:189-200 | the rollback loops restore the driver state from before the call, whatever number of chunks was mapped |
| CumemAllocator.Allocator.CreateAndMap | csrc/cumem_allocator.cpp:119-240 | it succeeds if and only if there was no earlier error, the driver refused nothing and there was room, and then every chunk is mapped, accessible and zeroed; otherwise a failure that changes nothing, or a late failure (access rights, zeroing) that leaves everything mapped; after an earlier error at most one handle is leaked |
| CumemAllocator.Allocator.UnmapChunks | csrc/cumem_allocator.cpp:189-195 | the unmap loop of the rollback, from its running offset, removes exactly the mappings of the first chunks |
| CumemAllocator.Allocator.ReleaseAll | csrc/cumem_allocator.cpp:197-199 | the release loop of the rollback removes exactly the handles of the call |
| CumemAllocator.Allocator.UnmapAndRelease | csrc/cumem_allocator.cpp:242-286 | for any addresses and handles: every call that is legal takes effect, all chunks are tried, and the error reported is that of the first call that was illegal |
| CumemAllocator.Allocator.MapNew | csrc/cumem_allocator.cpp:418-473 | record, map, and on failure free the range; it succeeds if and only if the driver refused nothing; a range in use cannot be freed; the record stays in every case |
| CumemAllocator.Allocator.GiveUp | csrc/cumem_allocator.cpp:458-460 | the range of a failed allocation is freed, or, being in use, is not and that error replaces the first |
| CumemAllocator.Allocator.Malloc | csrc/cumem_allocator.cpp:346-474 | null if and only if an error code is set; without an earlier error it succeeds whenever the driver refuses nothing (and 0 bytes are not asked for), and only if it refuses at most one call; a failed call restores the driver exactly unless it failed late; it leaves the records as they were, or exactly one more, whose range is gone unless it failed late, and so a stale record appears exactly when it failed after recording and not late; success gives an aligned new range, fully backed, accessible and zeroed, and keeps the invariant |
| CumemAllocator.Allocator.Replace | csrc/cumem_allocator.cpp:712-728 | free and reserve again: the same range as before, or none, even when someone else takes it in between; it succeeds if and only if the driver refused nothing and reserved where asked, and in any case the memory of chunks unmapped there is no longer resident |
| CumemAllocator.Allocator.Sleep | csrc/cumem_allocator.cpp:622-741 | for every awake record, with or without an earlier error: one that holds its range ends with its chunks gone, none of its memory resident and the placeholder kept, which happens if and only if there was no earlier error, the driver refused nothing and reserved where asked; or else with an error and no range held; and the invariant is kept; for a stale one an error is raised in any case, and the invariant is kept if and only if the record is harmless: nothing mapped the way it says, none of its handles live |
| CumemAllocator.Allocator.PutToSleep | csrc/cumem_allocator.cpp:704-732 | the driver calls of `sleep` on any arguments: an error in the first part keeps the range as it is; without one, success if and only if the driver refused nothing and reserved where asked |
| CumemAllocator.Allocator.Wake | csrc/cumem_allocator.cpp:743-812 | for every sleeping record, with or without its range or an earlier error: it succeeds if and only if there was no earlier error, the driver refused nothing and there is room for its chunks, which a record that holds its range always has; then it is awake with new chunks, accessible and zeroed; otherwise still asleep with the driver unchanged, or a late failure, or a leaked handle; where no range of ours lies it fails; the invariant is kept if and only if nothing was mapped or leaked, or it succeeded on its own range |
| CumemAllocator.Allocator.Free | csrc/cumem_allocator.cpp:477-594 | for every record: one that holds its range is gone with all that belongs to it, memory included, and the invariant kept, if and only if the size passed is the aligned one; a range lost by a failed sleep may be freed under someone else; freeing a stale record keeps the invariant if and only if the record is asleep or harmless |
| CumemAllocator.Allocator.SleepAll | vllm/device_allocator/cumem.py:227-275 | without an earlier error it succeeds if and only if no record is stale, the driver refused nothing and reserved where asked; then nothing is mapped, no handle is live and no memory resident while every range is still reserved; a failure keeps the invariant if and only if the record it stopped at holds its range or is harmless by then |
| CumemAllocator.Allocator.WakeAll | vllm/device_allocator/cumem.py:325-345 | it succeeds if there was no earlier error, every sleeping allocation holds its range and the driver refuses nothing; then every allocation is awake, with its size and cut as before; the invariant is kept if and only if no call failed late or leaked and every allocation woken holds its range |
| BlockSafety.StoreRely | csrc/fs_io.cpp:40-78 | a step of a store changes no temporary path but its own and no file but the one it created |
| BlockSafety.AdvanceInv | csrc/fs_io.cpp:40-113 | every step of every thread keeps the invariant, whatever the operating system decides |
| BlockSafety.RunInv | csrc/fs_io.cpp:203-338 | the invariant holds after every interleaving |
| BlockSafety.BlocksComplete | csrc/fs_io.cpp:40-78 | a destination that exists holds the complete buffer of some store call for it, or what it held in the beginning |
| BlockSafety.LoadsComplete | csrc/fs_io.cpp:87-113 | a completed load holds the beginning of a complete block, all of it if sizes match; buffers of later loads are untouched |
| BlockSafety.BlockStays | csrc/fs_io.cpp:80-86 | if no load asks for more bytes than the blocks have, a block once there is never deleted |
| BlockSafety.ShortBlockDeleted | csrc/fs_io.cpp:102-107 | a load that asks for more bytes than the block has deletes it and reports EIO |
| BlockSafety.StoresDone | csrc/fs_io.cpp:227-241 | a batch that has got past a store has made its destination exist, for good if no load asks for more bytes |
| BlockSafety.NoTempLeft | csrc/fs_io.cpp:51-77 | when a batch has ended, in success or failure, none of its temporary files is left except those that were there before |
| BlockSafety.NotYetStored | csrc/fs_io.cpp:40-78 | a destination that no other call names keeps its file, or stays missing, until its own store has succeeded, in every interleaving |
| BlockSafety.StepsRunOut | csrc/fs_io.cpp:203-338 | each step brings its batch closer to the end and leaves other threads alone |
| BlockSafety.StoreSucceeds | csrc/fs_io.cpp:40-78 | when the operating system answers every call of a store with success, however many pieces the write arrives in: the destination names a file that holds exactly the block, the temporary name is gone, all other names and files are as before, and the batch goes on |
| BlockSafety.CreateFails | csrc/fs_io.cpp:46-55 | an error in creating the temporary file ends the batch with that error and leaves every name as it was |
| BlockSafety.WriteFails | csrc/fs_io.cpp:57-63 | so does an error in writing, after any number of pieces, and a write that ends early is an EIO |
| BlockSafety.PublishFails | csrc/fs_io.cpp:65-75 | and an error in closing or renaming |
| BlockSafety.StoreSkips | csrc/fs_io.cpp:41-44 | a destination that is there is left alone, and the batch goes on |
| BlockSafety.LoadSucceeds | csrc/fs_io.cpp:87-113 | a load of a file that is long enough, with no error, fills the buffer with its first bytes and changes nothing else |
| BlockSafety.LoadFails | csrc/fs_io.cpp:89-101 | an error in opening or reading ends the batch with that error and deletes nothing |
| BlockSafety.RunsEnd | csrc/fs_io.cpp:203-338 | no run has more steps than the batches have work |
| FsIo.Device.StoreBlock | csrc/fs_io.cpp:40-78 | the call as written takes its thread through one store of the state machine: it returns the one error the operating system has answered with, 0 if and only if there was none, and then the destination was there already or holds exactly the block |
| FsIo.Device.Publish | csrc/fs_io.cpp:65-77 | close, then rename, or remove the temporary file and return the error answered |
| FsIo.Device.WriteFd | csrc/fs_io.cpp:57-64 | a write that arrives in pieces, and returns the whole count, a short one or the error answered |
| FsIo.Device.LoadBlock | csrc/fs_io.cpp:87-113 | the call as written takes its thread through one load: without an error of the operating system it succeeds if and only if the file read is long enough, the buffer then holding its first bytes in place, and returns EIO otherwise; with one it returns that error |
| FsIo.Device.ReadFd | csrc/fs_io.cpp:95-107 | bytes read, as many as the file and the buffer have, overwrite the front of the buffer; a short read leads to deletion, an error does not |
| FsIo.Device.ExtractBuffers | csrc/fs_io.cpp:139-150 | a view on every buffer, or, exactly when one is denied, every view already taken given back |
| FsIo.Device.ReleaseBuffers | csrc/fs_io.cpp:152-156 | each view released once |
| FsIo.Device.BatchStore | csrc/fs_io.cpp:203-262 | it fails at `k` if and only if the operating system answers a call with an error, which is the one reported: destinations 0 to `k - 1` exist, those from `k` on that no other call names are untouched, no temporary file is left, all views are given back on every exit |
| FsIo.Device.LoadLoop | csrc/fs_io.cpp:298-310 | the loop stops at the first failure, with the error answered or the EIO of a short file, and leaves later buffers alone |
| FsIo.Device.BatchLoad | csrc/fs_io.cpp:272-338 | up to the first failure `k`, an error answered or the EIO of a short file: `num_succeeded` is `k`, loads 0 to `k - 1` are complete, later buffers unchanged, all views given back on every exit |
| BuildReport.SharedGap | tools/report_build_time_ninja.py:239-243 | in every gap, dividing by the number of running tasks gives the share of the direct account, which counts the tasks whose interval spans the gap |
| BuildReport.GapStep | tools/report_build_time_ninja.py:239-243 | the running total minus its value at a task's start is the task's direct account so far |
| BuildReport.StopFinds | tools/report_build_time_ninja.py:247-253 | a stop event finds its task running if and only if the task does not end before it starts |
| BuildReport.AllEnded | tools/report_build_time_ninja.py:255 | no task is left running at the end |
| BuildReport.ChargesConserve | tools/report_build_time_ninja.py:206-255 | all charges together are the time during which at least one task ran |
| BuildReport.WeightedAtMostDuration | tools/report_build_time_ninja.py:73-88 | a weighted duration lies between 0 and the duration |
| BuildReport.Sort | tools/report_build_time_ninja.py:222-223 | events sorted by time, starts before stops, none lost and none twice |
| BuildReport.ListEvents | tools/report_build_time_ninja.py:211-218 | the start and the stop of every task, once |
| BuildReport.Sweep | tools/report_build_time_ninja.py:229-255 | weighted durations are the direct account; it fails exactly when some task ends before it starts |
| BuildReport.SummarizeEntries | tools/report_build_time_ninja.py:198-255 | for all task lists: direct account, bounds and conservation together, and the exact error cases |
| NinjaLog.ClashFound | tools/report_build_time_ninja.py:131-142 | the dictionary tells exactly whether the command was seen in this build with other times |
| NinjaLog.EachNameOnce | tools/report_build_time_ninja.py:143-148 | the names in the targets are the names on the lines, each as often as it occurs |
| NinjaLog.ReadTargets | tools/report_build_time_ninja.py:104-148 | well-formed lines since the last reset are partitioned by command; targets stand in the order of their first lines and have the times of those, which are the times of all their lines unless everything is shown; end times then never decrease |
| WorkerPool.StepInv | benchmarks/benchmark_hidden_state_extraction.py:141-175 | each step keeps: every prompt taken is in the results once or held by one client, and sentinels taken and clients stopped are as many |
| WorkerPool.NoDeadlock | benchmarks/benchmark_hidden_state_extraction.py:142 | a waiting client always finds an item |
| WorkerPool.NoneStopsEarly | benchmarks/benchmark_hidden_state_extraction.py:143-145 | no client stops while a prompt is queued |
| WorkerPool.EveryPromptOnce | benchmarks/benchmark_hidden_state_extraction.py:237-255 | when all clients have stopped, the queue is empty and every prompt is in the results exactly once |
| WorkerPool.AllDone | benchmarks/benchmark_hidden_state_extraction.py:237-255 | if no work fails, a run that has ended has emptied the queue, and every prompt is in the results exactly once |
| WorkerPool.NobodyDies | benchmarks/benchmark_hidden_state_extraction.py:147-175 | a client dies only of a failure |
| WorkerPool.LostToCrashes | benchmarks/benchmark_hidden_state_extraction.py:141-175 | when all clients have ended, a prompt is missing if and only if a client died on it or it is still queued, none is there twice, and none is queued if a client ended properly |
| WorkerPool.StepsRunOut | benchmarks/benchmark_hidden_state_extraction.py:141-175 | in every reachable state a step that a client can take brings the run closer to its end |
| WorkerPool.RunsEnd | benchmarks/benchmark_hidden_state_extraction.py:141-175 | no run has more than two steps for each prompt and each client |
| WorkerPool.Extraction.constructor | benchmarks/benchmark_hidden_state_extraction.py:236-243 | the queue holds all prompts in order, then one sentinel per client |
| WorkerPool.Extraction.ClientLoop | benchmarks/benchmark_hidden_state_extraction.py:131-175 | a client's loop, with other clients running in every wait, ends: by its sentinel if and only if its work has never failed |
| SpinLoop.LowBits | csrc/spinloop.cpp:107-109 | the 32-bit counter wraps at a multiple of 16, so its low bits are those of the true count |
| SpinLoop.StepInv | csrc/spinloop.cpp:93-168 | every step of the loop, the writer and the clock keeps the invariant |
| SpinLoop.NoLostWakeup | csrc/spinloop.cpp:127-153 | against any writer the loop never sleeps on an untriggered monitor while the condition holds |
| SpinLoop.ReturnsForAReason | csrc/spinloop.cpp:94-124 | true only right after a true answer of the callback, false only when a measurement has reached a timeout above a nanosecond |
| SpinLoop.ClockEverySixteenth | csrc/spinloop.cpp:107-124 | with a timeout above a nanosecond the clock is read exactly in iterations 0, 16, 32, ..., also beyond the wrap; without, never |
| SpinLoop.EndsSoon | csrc/spinloop.cpp:93-168 | once the condition holds and stays, every run with three steps of the loop ends it, however clock and writer steps come in between |
| SpinLoop.TimesOut | csrc/spinloop.cpp:93-168 | once the clock has reached a timeout above a nanosecond, every run with 80 steps of the loop, sixteen passes of at most five, ends it, whatever the writer does |
| SpinLoop.QuietPass | csrc/spinloop.cpp:93-168 | a pass with a false answer and time left: with a monitor it is armed, the callback asked again, and then waited on; without one the loop pauses; either way the next pass begins |
| SpinLoop.FailureEnds | csrc/spinloop.cpp:94-125 | an error ends the loop if and only if it comes from the callback, in either place, or from the clock when it is due |
| SpinLoop.Spinner.Callback | csrc/spinloop.cpp:94-105 | what the callback answers decides where the loop goes; an error if and only if it fails |
| SpinLoop.Spinner.CheckTime | csrc/spinloop.cpp:107-125 | the timeout check as written: it expires if and only if the timeout is above a nanosecond, the count is a multiple of 16 and the time passed has reached it |
| SpinLoop.Spinner.MonitorWait | csrc/spinloop.cpp:127-153 | arm, ask again, wait: with the writer acting in between, it ends in a true answer, an error, or a wake-up |
| SpinLoop.Spinner.Turn | csrc/spinloop.cpp:93-168 | one pass of the loop as written is a run of the state machine from poll to poll, or to the result returned, or to an error if and only if callback or clock fail |
| PagedGather.WindowsJoin | vllm/_custom_ops.py:160-182 | two consecutive windows joined are the combined window |
| PagedGather.WindowPlace | vllm/_custom_ops.py:172-182 | each request's tokens lie where the running offset says |
| PagedGather.GatheredAt | vllm/_custom_ops.py:172-182 | the same of the windows joined one behind the other |
| PagedGather.OffsetsAgree | vllm/_custom_ops.py:170-182 | with nondecreasing offsets, that is where `cu_seq_lens` says |
| PagedGather.CopyWindow | vllm/_custom_ops.py:176-181 | one request's tokens through its block table, in order, nothing else touched |
| PagedGather.Gather | vllm/_custom_ops.py:160-182 | token `k` of request `i` comes from row `table[i][p / page] * page + p % page` of the cache, `p` being its position, and stands behind the tokens of the requests before; unchanged behind them all |
| Quantizer.ScaledInRange | vllm/_xpu_ops.py:935-949 | scaled values lie at most half a step outside the codes, in both modes |
| Quantizer.ScaleTight | vllm/_xpu_ops.py:936-947 | there are 2^bits codes; the scale times `qmax` covers the largest magnitude of the row (or the width of its range), and equals it unless the scale is the floor of 0.00001: it is never larger than that takes |
| Quantizer.CodesReach | vllm/_xpu_ops.py:928-953 | the codes are used from end to end: above the floor a symmetric row has an element with code `qmax` or `-qmax`; an affine row has its smallest element at 0 and its largest at one of the last two codes |
| Quantizer.RoundNear | vllm/_xpu_ops.py:949 | rounding goes to the nearest integer, and to an even one from halfway |
| Quantizer.ErrorBound | vllm/_xpu_ops.py:928-953 | rounding and clamping cost at most half a step, for every element, both modes, every bit width with positive `qmax` |
| Quantizer.QuantizeMonotone | vllm/_xpu_ops.py:949-953 | order is kept |
| Quantizer.CodeRoundTrip | vllm/_xpu_ops.py:949-953 | each code comes back from its own value |
| Quantizer.CodesFitBytes | vllm/_xpu_ops.py:949-953 | up to 8 bits every code fits its byte |
| Quantizer.Codes | vllm/_xpu_ops.py:928-958 | error bound and order for a whole row |
| Downloads.Connection.WriteChunks | vllm/connections.py:486-488 | the file holds the chunks joined |
| Downloads.Connection.DownloadOnce | vllm/connections.py:473-495 | the file is the body, or nothing |
| Downloads.Connection.Download | vllm/connections.py:243-273 | number of attempts, exactly the limit when all fail for passing reasons; the first timeout is the base and each the fourfold of the one before, total pause (4^f - 1)/3, result and file of the last attempt; the line behind the loop is never reached |
| Downloads.SizeLimit | vllm/connections.py:70-76 | the limit in force allows exactly what both limits allow, and is flagged if and only if it is the configured one |
| Downloads.ReadResponse | vllm/connections.py:102-135 | the whole body if and only if it, and the announced length, are within both limits; otherwise the error of the tighter one, of the media kind if and only if that is the configured one, with a size that exceeds it; never more kept than allowed |
| SequenceParallel.LocalSizeAt | vllm/forward_context.py:60-68 | the local sizes hold the rounded share of each rank, once for each member of its group |
| SequenceParallel.DPMetadata.SpLocalSizes | vllm/forward_context.py:99-114 | the body finds the local sizes published, and whether or not it raises they are cleared when it is left |
| SequenceParallel.DPMetadata.CuTokensAcrossSp | vllm/forward_context.py:121-126 | the cumulative counts, rounded by a formula of their own, repeated and summed up by a running total, are entry by entry the prefix sums of the published local sizes; the last one is the group size times the sum of the shares, covers all tokens, and exceeds them by at most `sp - 1` for each rank |
| SequenceParallel.TotalIs | vllm/forward_context.py:121-126 | repeating every share for its group multiplies the sum by the group size |
| SequenceParallel.PaddingBound | vllm/forward_context.py:60-68 | rounding every rank up covers all tokens and adds at most `sp - 1` for each rank |

## Left out

- The arithmetic of one scan token (softplus, exponentials, dtype casts, masked padding lanes of the state vector): an arbitrary function here.
- Two-dimensional strides of the state cache: a (slot, dim) pair is one cell.
- The CUDA branch of the allocator, host allocations and their failure, Python reference counting, callbacks that are unset or raise, integer overflow of sizes.
- Driver calls that undo something (unmap, release, free) succeed whenever they are legal: unmapping what is mapped with that size, releasing a live handle, freeing a range in which nothing is mapped.
- CPU backups of sleeping memory, tags, memory pools, `discard`.
- O_DIRECT alignment, directory creation, durability after a crash, reads shortened by signals, argument parsing and `batch_lookup` of the block store.
- BlockSafety.BlockStays: one way only; a load that asks for more bytes deletes a block when it meets it, which `ShortBlockDeleted` shows for every such state.
- Log headers and number parsing of the build log, and everything that is printed; the report's sort is an insertion sort with the same order.
- The engine and the hidden-state files behind the worker pool: a step that succeeds or fails.
- The spin loop around its passes: without a timeout it need not end, so `SpinLoop.Spinner.Turn` is one pass and runs are sequences of steps. The buffer is read only through the callback.
- Quantizer: rounding of the scale to the input's type, and overflow of 32-bit zero points.
- Downloads: the asynchronous variants, which differ only in `await`, and which exceptions count as transient.
- Kernels that are only called from the repository's Python code, the scheduler, block pool, samplers, and all of setup, tooling and benchmarks not named above.
