# Verified models of a guardian-kernel repository

This project models, in Dafny 4.11, the algorithmic cores of a repository that accompanies a paper on
guardian processors: the boundary-tag allocator (dlmalloc 2.7.2) its sanitizer kernel is built on, the
parallel shadow-stack kernels, the rowhammer sampler, four of the simulator utilities it ships, and a
family of bit counters. `dafny verify dfyconfig.toml` checks everything.

**The allocator** (`Sizes`, `Layout`, `Shelves`, `Binmap`, `BinSearch`, `HeapView`, `Contents`,
`Transitions`, `Outcomes`, `Allocator`, `Tiling`, `Memory`, `Client`). `Allocator.Heap` is `malloc_state` with the
memory it manages: the maps `sz`, `psz`, `fd` and `bk` hold the four fields of chunk headers by chunk address, and
the code reads sizes, in-use bits, footers and links only through them. Ghost fields hold the abstract
heap: a map from chunk addresses to size and use, the lists, and every word a user has stored. `HeapView.Core`
ties the two together: chunks tile the heap from `base` to the end of top; every chunk is a user's block, in
exactly one fastbin, in exactly one bin, or top; sizes, in-use bits and footers agree with that; no free
chunk borders a free chunk or top; bins are circular lists in both directions, the large ones in size order;
and every word a user has stored is still in memory. A word of a block is one word of memory that may have
been, or may become, a `prev_size`, `size`, `fd` or `bk` field, so writing it writes all four maps, and the
invariant says that all four still hold it: neither can a user's write disturb the allocator, nor an
allocator's write a user. Each public method keeps this invariant and states what it does to the blocks. `Outcomes`
says exactly what each of them leaves behind: which chunks there are, in which lists and in which order, the last
remainder, and what the system was asked. On top of them `Client.Session` proves that every program that stays within
its own blocks sees a run of a simple abstract store, over every sequence of requests from the zeroed state, and
`Client.AlwaysMet` that a request in range fails only if the system refused memory.

Integers are unbounded in Dafny. The model fixes 8-byte words, 16-byte alignment and 32-byte minimum
chunks, and writes 32-bit truncation and wrap-around out where the code depends on them (`largebin_index`,
the bitmap words, the generator, the tags of messages). The system is the pair of methods `Morecore` and
`Release`, which may refuse at any time; every request to it is recorded with its answer in a ghost field that only
these two change (calls that only read the break are not recorded). The program break is a whole number of words,
and it cannot move 4 GiB away from where it started.

**The shadow stack** (`ShadowStack`, `AsSent`, `Stopping`) models filter and aggregator as classes, the aggregator's
loop and recursion against one draining function, and proves confluence and equivalence with one sequential shadow
stack, what the words as written do, and which interleavings the aggregator's assertion stops.
**The sampler** (`Rowhammer`) proves the generator's full period by number theory and counts refreshes.
**The utilities**: `Pipeview` (reorder window of the pipeline viewer), `Upgrades` (dependency-ordered checkpoint
upgrades), `Traces` (printer and parser of dependency traces), `Ports` (greedy port binding).
**The counters** (`BitCount`) all equal one digit sum.

Where code and documentation disagree, the model follows the code:

- `largebin_index` takes 32 bits of a 64-bit size, so the promise that any chunk of a higher bin is large
  enough fails for huge requests; `Sizes.HigherBinsFitExactly` gives the exact condition.
- The documentation of the bins promises that a freed chunk is put in front of those of its size, so that ties go
  to the one freed longest ago. In a large bin a chunk as small as the smallest goes behind it, to the end, from
  where chunks are taken first (`Transitions.TieAtBack`); `Transitions.TieRule` says exactly when the promise holds.
- The filter combines its tags with a bitwise and, which always gives 0. `ShadowStack.Filter` sends the words as
  they are written and keeps the words meant as a ghost. The protocol is proved for the words meant.
  `ShadowStack.AsWritten` says exactly which messages the words written get through. For a part of the trace they
  never do, since the comparisons differ (`ShadowStack.AsWrittenPart`). In a whole run the token never moves;
  `AsSent.AsWrittenRun` says exactly when stack and comparisons are right all the same, and
  `AsSent.MissedReturn` shows a wrong return that is missed.
- `bind_ports` claims that sorting makes one direction of every connection bindable. `Ports.OnePassMisses`
  and `Ports.ChainCanBeBound` show a family of connection lists that can be bound in order but for which it
  fails; `Ports.OnePassEnough` gives the exact condition on the list.
- Legacy upgrades are chained so that they apply in version order; a checkpoint that already has a version in
  between breaks the chain (`Upgrades.GapBreaksOrder`). `Upgrades.LegacyRunsExactly` gives the exact condition for
  all runs of the loop, and `Upgrades.RunsOrder` that for any two upgrades.
- The pipeline viewer says that instructions further out of place than the lower threshold will appear out of
  order. Whether they do depends on how full the window is: `Pipeview.ProcessTrace` gives the exact condition.

## Model

| member | source | states |
|---|---|---|
| `Sizes.Request2SizeLeast` | guardian_kernels/sanitizer/malloc.c:2075-2093 | the padded size is a legal chunk size with room for the request and its overhead, and the least such size |
| `Sizes.RetryAsksForSame` | guardian_kernels/sanitizer/malloc.c:3001-3005 | the request made again after consolidation is padded to exactly the same size |
| `Sizes.StepCompares` | guardian_kernels/sanitizer/malloc.c:2292-2300 | each subtract-shift-mask step of the branch-free code is a comparison with a power of two, by 32-bit wrap-around |
| `Sizes.HighestBitIsLog2` | guardian_kernels/sanitizer/malloc.c:2292-2300 | the branch-free code computes the position of the highest one bit for every 16-bit argument |
| `Sizes.LargeBinShape` | guardian_kernels/sanitizer/malloc.c:2272-2306 | a large bin holds one quarter of a power-of-two range of sizes, given by exponent and quarter |
| `Sizes.BinIndexMonotone` | guardian_kernels/sanitizer/malloc.c:2258-2309 | the bin index grows with the size over all 32-bit sizes, and separates small from large ones |
| `Sizes.BinIndexRange` | guardian_kernels/sanitizer/malloc.c:2258-2309 | small sizes have indices below 32, large ones from 32 to 95, and the last bin takes everything from 16 MiB on |
| `Sizes.BinsOrderSizes` | guardian_kernels/sanitizer/malloc.c:2258-2309 | every chunk in a higher bin is strictly larger than any chunk in a lower one, and a small bin holds a single legal size |
| `Sizes.HigherBinsFitExactly` | guardian_kernels/sanitizer/malloc.c:3736-3740 | "the first chunk in this bin is big enough" holds of chunks of all legal sizes in higher bins if and only if the padded request is below 2^32 or its bin is the last one |
| `Sizes.HugeRequestMisfiled` | guardian_kernels/sanitizer/malloc.c:2272-2306 | for a padded request of 2^32 + 32 bytes the index is computed from 32 truncated bits, and chunks of higher bins do not fit |
| `Layout.TagsFrame` | guardian_kernels/sanitizer/malloc.c:2100-2166 | only the size words of chunks, and `prev_size` words behind free chunks, carry meaning: everything else may be overwritten |
| `Layout.Recolour` | guardian_kernels/sanitizer/malloc.c:2652-2775 | a chunk may change its use without the tags noticing, if it stays on the same side of the in-use bit |
| `Layout.Wake` | guardian_kernels/sanitizer/malloc.c:3608-3612 | setting the in-use bit in the next header turns a free chunk into a used one and keeps tiling, tags and coalescing |
| `Layout.Sleep` | guardian_kernels/sanitizer/malloc.c:3880-3905 | clearing the bit and writing the footer turns a used chunk between used ones into a free one |
| `Layout.Merge` | guardian_kernels/sanitizer/malloc.c:3872-3889 | joining two neighbours and rewriting one header keeps tiling, tags and coalescing |
| `Layout.Split` | guardian_kernels/sanitizer/malloc.c:3677-3686 | cutting a chunk and writing two headers and a footer keeps tiling, tags and coalescing |
| `Layout.ResizeTop` | guardian_kernels/sanitizer/malloc.c:3178-3184 | the end of the heap moves and top with it |
| `Layout.BorrowTop` | guardian_kernels/sanitizer/malloc.c:4145-4153 | a used chunk takes bytes from the top chunk behind it |
| `Shelves.UnlinkRing` | guardian_kernels/sanitizer/malloc.c:2233-2238 | unlinking an element of a circular list leaves the circular list of the others, in both directions |
| `Shelves.InsertRing` | guardian_kernels/sanitizer/malloc.c:3644-3648 | linking an element between two neighbours gives the circular list with it, in both directions |
| `Shelves.SortedInsert` | guardian_kernels/sanitizer/malloc.c:3614-3648 | a chunk placed behind all larger ones and before all smaller ones keeps its bin in size order |
| `Shelves.FastPush` | guardian_kernels/sanitizer/malloc.c:3856-3859 | a chunk becomes the head of the fastbin of its size; every fastbin chunk is still in exactly one list |
| `Shelves.FastPop` | guardian_kernels/sanitizer/malloc.c:3513-3519 | the head of a fastbin leaves it, has the right size, and the rest is still linked |
| `Binmap.MarkOne` | guardian_kernels/sanitizer/malloc.c:2384-2389 | marking or clearing a bin changes its bit and no other |
| `Binmap.NoneAbove` | guardian_kernels/sanitizer/malloc.c:3708-3709 | if the bit exceeds the word, no bin of this block at or above it is marked |
| `Binmap.SomeAbove` | guardian_kernels/sanitizer/malloc.c:3719-3724 | otherwise shifting the bit left meets a marked bin before it runs out of the word |
| `BinSearch.UnmarkEmpty` | guardian_kernels/sanitizer/malloc.c:3729-3734 | clearing the bit of an empty bin keeps "non-empty implies marked" |
| `BinSearch.NextBlock` | guardian_kernels/sanitizer/malloc.c:3709-3717 | the block loop skips only unmarked bins |
| `BinSearch.NextMarked` | guardian_kernels/sanitizer/malloc.c:3719-3724 | the bit loop ends at a marked bin and skips only unmarked ones |
| `BinSearch.FindBin` | guardian_kernels/sanitizer/malloc.c:3700-3736 | the search through the bitmap ends at exactly the bin a linear scan would find, or at none if all are empty; it clears the marks of all bins before that one and no others, and non-empty bins stay marked |
| `HeapView.HeaderFacts` | guardian_kernels/sanitizer/malloc.c:2104-2124 | what the code reads from a header, size and in-use bit of the chunk in front, is true of the heap |
| `HeapView.FrontFacts` | guardian_kernels/sanitizer/malloc.c:3873-3876 | if the bit is clear, `prev_size` leads to the free chunk in front |
| `HeapView.NextFacts` | guardian_kernels/sanitizer/malloc.c:2136-2151 | the next header tells whether a chunk is in use, and a free chunk borders neither a free one nor top |
| `HeapView.UnlinkedCore` | guardian_kernels/sanitizer/malloc.c:2233-2238 | a chunk leaves its bin: the whole heap invariant is kept and no block changes |
| `HeapView.InsertedCore` | guardian_kernels/sanitizer/malloc.c:3614-3648 | a chunk enters a bin where its size belongs: the whole invariant is kept |
| `HeapView.WokenCore` | guardian_kernels/sanitizer/malloc.c:3608-3612 | a chunk in no list is taken into use: the whole invariant is kept |
| `HeapView.SleptCore` | guardian_kernels/sanitizer/malloc.c:3880-3905 | a used chunk is tagged free: the whole invariant is kept |
| `HeapView.MergedCore` | guardian_kernels/sanitizer/malloc.c:3872-3920 | two chunks in no list become one: the whole invariant is kept, provided no user has stored anything in what is absorbed |
| `HeapView.CarvedCore` | guardian_kernels/sanitizer/malloc.c:3676-3686 | a chunk in no list is split: the whole invariant is kept, provided what users stored lies in the part that stays in use |
| `HeapView.FastPushedCore` | guardian_kernels/sanitizer/malloc.c:3856-3859 | a chunk enters its fastbin, still tagged in use: the whole invariant is kept |
| `HeapView.FastPoppedCore` | guardian_kernels/sanitizer/malloc.c:3513-3519 | the first chunk of a fastbin leaves it: the whole invariant is kept |
| `HeapView.TopResizedCore` | guardian_kernels/sanitizer/malloc.c:3178-3184 | top grows or shrinks with the heap: the whole invariant is kept |
| `HeapView.BorrowedCore` | guardian_kernels/sanitizer/malloc.c:4145-4153 | a block grows into top: the whole invariant is kept |
| `HeapView.RetaggedCore` | guardian_kernels/sanitizer/malloc.c:2100-2166 | header words that carry no meaning and are no user's may be written freely |
| `HeapView.StoredPlace` | guardian_kernels/sanitizer/malloc.c:1948-2054 | a word a user stored is no size word of any chunk, a `prev_size` word only of the chunk behind the block, and a link word only of the block itself |
| `Contents.PokedCore` | guardian_kernels/sanitizer/malloc.c:2100-2166 | whatever a user writes into a block, as whichever header field, neither the allocator nor any other user's word is disturbed |
| `Contents.NewBlockBare` | guardian_kernels/sanitizer/malloc.c:3463-3809 | a block that is new overlaps no word anyone has stored |
| `Contents.KeptCopy` | guardian_kernels/sanitizer/malloc.c:4187-4214 | after copying the odd number of words and forgetting the old block, every stored word of it is at the same place in the new block, and all others are unchanged |
| `Tiling.WalkAll` | guardian_kernels/sanitizer/malloc.c:2840-2952 | walking the heap by sizes from any chunk meets every chunk behind it once, in address order, ends at top, and the sizes add up to the bytes passed |
| `Tiling.OneOwner` | guardian_kernels/sanitizer/malloc.c:2652-2694 | every byte of the heap belongs to exactly one chunk |
| `Allocator.Heap.constructor` | guardian_kernels/sanitizer/malloc.c:2495-2549 | the zeroed state satisfies the invariant and has no blocks |
| `Allocator.Heap.InitState` | guardian_kernels/sanitizer/malloc.c:2572-2602 | initialisation makes every bin an empty ring, sets the largest fastbin size to 80 and establishes the full invariant |
| `Allocator.Heap.Unlink` | guardian_kernels/sanitizer/malloc.c:2233-2238 | the two link writes of `unlink` are the specified ones, read from the chunk itself |
| `Allocator.Heap.Enqueue` | guardian_kernels/sanitizer/malloc.c:3897-3902 | the four link writes put the chunk in front of the unsorted queue |
| `Allocator.Heap.JoinFront` | guardian_kernels/sanitizer/malloc.c:3872-3878 | a held chunk is joined with a free chunk in front of it, found through `prev_size`, which leaves its bin; everything else is as before |
| `Allocator.Heap.JoinBack` | guardian_kernels/sanitizer/malloc.c:3880-3905 | a held chunk is joined with a free chunk behind it, tagged free and put in front of the unsorted queue; everything else is as before |
| `Allocator.Heap.Coalesce` | guardian_kernels/sanitizer/malloc.c:3869-3920 | the consolidation shared by `free` and `malloc_consolidate`, exactly: the chunk, the free chunk in front of it and the free chunk or top behind it become one, which is the first of the unsorted queue, or top; the absorbed chunks leave their bins; blocks are unchanged |
| `Outcomes.JoinedAround` | guardian_kernels/sanitizer/malloc.c:3869-3920 | the bytes of the chunk are then within top or within the first chunk of the unsorted queue, and every chunk that is not part of the joined one is as before |
| `Allocator.Heap.DrainFastbin` | guardian_kernels/sanitizer/malloc.c:4025-4072 | the chunks of one fastbin are joined one after the other, from the first on; the saved next pointer stays a chunk of the list throughout |
| `Allocator.Heap.Consolidate` | guardian_kernels/sanitizer/malloc.c:4010-4073 | all fastbins are emptied, from the smallest to the largest, each chunk being joined in turn; blocks and the bounds of the heap are unchanged, and no byte of any chunk is lost |
| `Allocator.Heap.SysTrim` | guardian_kernels/sanitizer/malloc.c:3401-3455 | the system is offered the whole pages at the end of top; what it takes leaves top and nothing else changes; without a whole page it is not asked |
| `Outcomes.SpareIs` | guardian_kernels/sanitizer/malloc.c:3415-3416 | what is offered is the most whole pages that leave top more than a minimum chunk |
| `Allocator.Heap.Slim` | guardian_kernels/sanitizer/malloc.c:3928-3941 | the fastbins are emptied, and a top of 256 KiB or more is offered to the system but for its last page |
| `Allocator.Heap.FreeFast` | guardian_kernels/sanitizer/malloc.c:3845-3860 | a chunk of up to 80 bytes goes to the front of the fastbin with index size / 8 - 2; no other chunk, no bin and no other fastbin changes |
| `Allocator.Heap.FreeJoin` | guardian_kernels/sanitizer/malloc.c:3866-3920 | a larger chunk is joined with its neighbours at once, exactly; no fastbin changes |
| `Allocator.Heap.FreeChunk` | guardian_kernels/sanitizer/malloc.c:3835-3946 | exactly one block disappears: up to 80 bytes into its fastbin and with no other effect; a larger one by joining; if 131072 bytes or more result, all fastbins are emptied and a top of 262144 bytes or more is offered to the system |
| `Outcomes.FreedLarge` | guardian_kernels/sanitizer/malloc.c:3866-3941 | a chunk of more than 80 bytes enters no fastbin; it is then part of top or of the first chunk of the unsorted queue, or all fastbins are empty |
| `Allocator.Heap.FindPlace` | guardian_kernels/sanitizer/malloc.c:3616-3642 | a chunk goes to the front of a small bin; in a large bin it goes behind everything if it is no larger than the last chunk, and else right behind all larger ones; so sizes stay in order |
| `Transitions.TieRule` | guardian_kernels/sanitizer/malloc.c:2198-2212 | the promise that a chunk is put in front of those of its size, so that the one freed longest ago is taken first, holds if and only if the bin is small or the chunk is larger than the smallest one of the bin; otherwise the chunk goes behind all chunks of its size |
| `Transitions.TieAtBack` | guardian_kernels/sanitizer/malloc.c:3628-3633 | a bin with one chunk of 1024 bytes: a second one of that size goes behind it |
| `Allocator.Heap.Rebin` | guardian_kernels/sanitizer/malloc.c:3602-3648 | the last chunk of the unsorted queue moves to its own bin, at the place of its size there, and the bin is marked; nothing else changes |
| `Allocator.Heap.TakeWhole` | guardian_kernels/sanitizer/malloc.c:3666-3675 | an exactly or nearly fitting chunk becomes the block, whole, and leaves its bin; nothing else changes |
| `Allocator.Heap.TakeFront` | guardian_kernels/sanitizer/malloc.c:3676-3686 | the front of a chunk becomes the block and the rest is the only chunk of the unsorted queue; overwriting the head of the queue loses nothing because it is empty; nothing else changes |
| `Allocator.Heap.TakeRemainder` | guardian_kernels/sanitizer/malloc.c:3582-3600 | the last remainder, alone in the queue, is split again; what is left is alone in the queue and is the new last remainder |
| `Allocator.Heap.TakeFast` | guardian_kernels/sanitizer/malloc.c:3513-3519 | the chunk that went to the exact fastbin last becomes the block and leaves the list; nothing else changes |
| `Allocator.Heap.TakeTop` | guardian_kernels/sanitizer/malloc.c:3791-3803 | the block is cut from the front of top, and what is left is the new top; nothing else changes |
| `Allocator.Heap.Inspect` | guardian_kernels/sanitizer/malloc.c:3570-3648 | the last chunk of the unsorted queue is taken if it is the last remainder, alone and large enough, or if it fits exactly; otherwise it moves to its bin, and neither was the case |
| `Allocator.Heap.SortQueue` | guardian_kernels/sanitizer/malloc.c:3570-3649 | the unsorted queue is emptied into the bins from its end, up to the first chunk that serves the request: an exact fit or the last remainder; the last remainder serves it if and only if it is the last chunk of the queue looked at, nothing fits a small request exactly and it leaves a chunk behind; the lists that result are exactly determined |
| `Allocator.Heap.TakeFit` | guardian_kernels/sanitizer/malloc.c:3736-3772 | a best-fitting chunk serves the request, whole or split, exactly |
| `Allocator.Heap.ScanBin` | guardian_kernels/sanitizer/malloc.c:3660-3689 | scanning the request's own large bin from its small end finds the smallest chunk that fits anywhere, the last of its size in the bin, or shows that none in the bin does |
| `Allocator.Heap.SearchBins` | guardian_kernels/sanitizer/malloc.c:3700-3773 | the search of the higher bins serves the best fit among all free chunks, the last one of its bin, or shows that no free chunk fits; the rest of a chunk that is split for a small request is the new last remainder, which no other request changes; the marks of the empty bins on the way are cleared, and no others |
| `Allocator.Heap.SearchPool` | guardian_kernels/sanitizer/malloc.c:3562-3773 | queue, own bin and higher bins together: the last remainder if it is due, else the best fit, or no free chunk fits; chunks, lists and last remainder are exactly determined, and a search in vain leaves the queue empty |
| `Allocator.Heap.FromFixed` | guardian_kernels/sanitizer/malloc.c:3509-3535 | the first chunk of the exact fastbin, else the last chunk of the exact small bin; without either nothing changes and the fastbin holds no chunk of that size |
| `Allocator.Heap.FromBins` | guardian_kernels/sanitizer/malloc.c:3537-3773 | without a chunk of just the right size, the bins are searched, for a large request after all fastbins have been emptied; a small request gets the last remainder if and only if that is due; chunks, lists and last remainder are exactly determined |
| `Allocator.Heap.Morecore` | guardian_kernels/sanitizer/malloc.c:3130-3131 | the system extends the heap contiguously or refuses, and every request to it is recorded with its answer |
| `Allocator.Heap.AlignFirst` | guardian_kernels/sanitizer/malloc.c:3205-3310 | the first top starts at the first 16-byte boundary; the second request is for what is missing to the end of a page, and top ends there if it is granted |
| `Allocator.Heap.ExtendTop` | guardian_kernels/sanitizer/malloc.c:3100-3352 | the system is asked once, for the bytes that top lacks rounded up to pages; if it grants them, top grows by just these or becomes the first top; it fails if and only if the system refused, and then nothing has changed |
| `Outcomes.ObtainedEnough` | guardian_kernels/sanitizer/malloc.c:3100-3131 | what is asked for is enough: if the system grants it, top can be cut; for the first memory, if it grants the end of the page, too |
| `Allocator.Heap.StartTop` | guardian_kernels/sanitizer/malloc.c:3205-3310 | the first memory of the system becomes an aligned top reaching to the end of the data segment: the empty heap turns into a sound one and no block appears |
| `Allocator.Heap.CutTop` | guardian_kernels/sanitizer/malloc.c:3791-3803 | the block is cut from the front of top if top is large enough; otherwise nothing changes |
| `Allocator.Heap.SysMalloc` | guardian_kernels/sanitizer/malloc.c:2993-3385 | consolidate and ask again, at most once, or extend top; the pool searched is the consolidated heap; the system is asked only if nothing in it fits and top is too small, for just what is missing, and failure means that it refused |
| `Transitions.PoolUnique` | guardian_kernels/sanitizer/malloc.c:3509-3560 | the chunks a request is chosen from are determined, up to bin numbers: the heap as it is for a small request it can serve, else the heap with fastbins emptied and all free neighbours joined |
| `Allocator.Heap.UseTop` | guardian_kernels/sanitizer/malloc.c:3775-3809 | when nothing free fits, the block is cut from top, and only if top is too small is memory asked for; a small request that the heap can serve as it is gets it from top; any other with chunks in fastbins is made again on the consolidated heap |
| `Allocator.Heap.Malloc` | guardian_kernels/sanitizer/malloc.c:3463-3809 | every call keeps the invariant; a block is the chunk that went last to the fastbin of its size, if there is one; else the last remainder, for a small request that the heap can serve as it is if and only if that is due; else the smallest chunk of the determined pool that fits; else cut from top; a chunk is split if and only if the rest can be a chunk, and then the rest is alone in the unsorted queue, and the last remainder if the request is small; what is served from fastbins and bins as they are is the first chunk of the fastbin, the last one of the small bin, or what the search finds, and determines all lists; every other chunk of the pool stays as it is; the fastbins stay but for the chunk taken, or are emptied for a large request or one the heap cannot serve as it is; the system is asked only if nothing fits and top is too small, and a request in range fails only if it refused |
| `Outcomes.FailsRefused` | guardian_kernels/sanitizer/malloc.c:3463-3809 | if a request in range fails, the last call of the system was for memory and was refused |
| `Allocator.Heap.Free` | guardian_kernels/sanitizer/malloc.c:3816-3967 | `free` removes exactly the given block, with the words stored in it, and keeps the invariant; where the chunk goes and what happens to every list is as for the chunk; 0 is ignored |
| `Allocator.Heap.Poke` | guardian_kernels/sanitizer/malloc.c:1948-2054 | writing a word of a block writes all four header fields it may be mistaken for, and keeps the invariant |
| `Allocator.Heap.FinishResize` | guardian_kernels/sanitizer/malloc.c:4221-4241 | the header of a resized block is written and the rest, if a chunk can be made of it, is freed, with just the effect of `free`; stored words that still fit are kept |
| `Allocator.Heap.CutBack` | guardian_kernels/sanitizer/malloc.c:4231-4238 | the rest of a block is freed; the block has exactly the padded size |
| `Allocator.Heap.ResizeHere` | guardian_kernels/sanitizer/malloc.c:4136-4140 | a block that is large enough stays where it is, and a rest of 32 bytes or more is freed |
| `Allocator.Heap.ResizeTop` | guardian_kernels/sanitizer/malloc.c:4145-4153 | a block grows into top, to exactly the padded size, and what is left is top; nothing else changes |
| `Allocator.Heap.ResizeNext` | guardian_kernels/sanitizer/malloc.c:4155-4162 | a block grows into the free chunk behind it, which leaves its bin, and a rest of 32 bytes or more is freed |
| `Allocator.Heap.ResizeNeighbour` | guardian_kernels/sanitizer/malloc.c:4173-4179 | a newly allocated neighbour is joined without copying |
| `Allocator.Heap.CopyWord` | guardian_kernels/sanitizer/malloc.c:4197-4208 | one assignment of the copy |
| `Allocator.Heap.CopyWords` | guardian_kernels/sanitizer/malloc.c:4187-4212 | the loop or the unrolled copy writes exactly the words of the old block into the new one |
| `Allocator.Heap.CopyUnrolled` | guardian_kernels/sanitizer/malloc.c:4196-4212 | the unrolled assignments copy all of 3, 5, 7 or 9 words |
| `Allocator.Heap.CopyOver` | guardian_kernels/sanitizer/malloc.c:4187-4214 | the contents of the old block are those of the new one, at the same places |
| `Allocator.Heap.ResizeMove` | guardian_kernels/sanitizer/malloc.c:4164-4217 | allocate as `malloc` does, then join or copy and free; failure changes no block and happens only if the system refused memory |
| `Allocator.Heap.MoveInto` | guardian_kernels/sanitizer/malloc.c:4173-4217 | the two blocks are joined if and only if the new one is right behind the old one; otherwise the contents are copied and the old block is freed |
| `Allocator.Heap.Realloc` | guardian_kernels/sanitizer/malloc.c:4087-4242 | the block keeps its words up to the smaller size, wherever it moves; no other block or word changes. It stays where it is if it is large enough, if top behind it leaves a chunk, or if the free chunk behind it is large enough, and the first two and the last of these determine all chunks and lists; only otherwise a new block is allocated. A request in range fails only if none of the three holds and the system refused memory |
| `Allocator.Heap.DropLead` | guardian_kernels/sanitizer/malloc.c:4386-4391 | the leading piece, a legal chunk, is freed, with just the effect of `free`, and the rest is the block |
| `Allocator.Heap.DropTail` | guardian_kernels/sanitizer/malloc.c:4397-4407 | what exceeds the padded size by more than 32 bytes is freed, with just the effect of `free` |
| `Allocator.RoundAlignment` | guardian_kernels/sanitizer/malloc.c:4333-4342 | the alignment is raised to the least power of two that is large enough |
| `Transitions.LeadFacts` | guardian_kernels/sanitizer/malloc.c:4360-4377 | the aligned spot leaves in front of it nothing or at least a minimum chunk, and lies within the padding |
| `Outcomes.LeadIs` | guardian_kernels/sanitizer/malloc.c:4360-4377 | the block starts at the first aligned spot with nothing or at least a minimum chunk in front of it |
| `Transitions.PowersDivide` | guardian_kernels/sanitizer/malloc.c:4333-4342 | an address aligned to a power of two is aligned to every smaller one |
| `Transitions.LeastAligned` | guardian_kernels/sanitizer/malloc.c:4333-4342 | an address aligned to some power of two that is large enough is aligned to the least one |
| `Transitions.OddWords` | guardian_kernels/sanitizer/malloc.c:4181-4191 | the contents of a chunk are an odd number of words, at least 3 |
| `Allocator.Heap.AlignedBlock` | guardian_kernels/sanitizer/malloc.c:4352-4411 | a block for the request, the alignment and a minimum chunk is allocated as `malloc` does; the result starts at the first aligned spot that leaves nothing or a chunk in front, what is in front and behind is freed, and no other block changes; failure means that the system refused memory |
| `Allocator.Heap.Memalign` | guardian_kernels/sanitizer/malloc.c:4313-4411 | the result is aligned to the least power of two not below the alignment asked for and has room for the request; no other block changes; up to 16 it is just `malloc`; a request in range fails only if the system refused memory |
| `Client.ValidSpaced` | guardian_kernels/sanitizer/malloc.c:2783-2826 | blocks are 16-byte aligned, have room for the bytes asked for and do not overlap |
| `Client.BytesApart` | guardian_kernels/sanitizer/malloc.c:2783-2826 | no byte two owners asked for is the same byte |
| `Client.Write` | guardian_kernels/sanitizer/malloc.c:1948-2054 | a program may write any word of its own block without disturbing the allocator |
| `Client.Load` | guardian_kernels/sanitizer/malloc.c:1948-2054 | a program reads back the word it stored last, through whichever header field |
| `Client.Perform` | guardian_kernels/sanitizer/malloc.c:3463-4411 | every request refines a step of the abstract store: allocate, aligned to the least power of two that will do if asked for, resize with contents, free, write; it is met, unless the request is out of range or the system refused memory during it, and then nothing changes |
| `Client.Session` | guardian_kernels/sanitizer/malloc.c:3463-4411 | over every sequence of requests from the initial state, the program sees a run of the abstract store; the blocks in use are exactly its own, do not overlap and hold what it stored |
| `Client.AlwaysMet` | guardian_kernels/sanitizer/malloc.c:3463-4411 | as long as the system grants what it is asked for, every request in range is met, at every step of every run |
| `Memory.NoOverlap` | guardian_kernels/sanitizer/malloc.c:1948-2048 | in every state of the heap no two meaningful header fields, and no field and word of a user, lie at the same address of memory, though `prev_size` fields and user words share places over time |
| `Memory.OneMemory` | guardian_kernels/sanitizer/malloc.c:1948-2048 | the maps of header fields and the words of the users are all views of one memory of words, each at the offset of its field |
| `Memory.OneWordWritten` | guardian_kernels/sanitizer/malloc.c:1948-2048 | in that memory a write of a user changes exactly one word |
| `Memory.WriteThrough` | guardian_kernels/sanitizer/malloc.c:1948-2048 | a step that changes only certain fields of the four maps may write them, each at its address, to any memory that holds the heap before, and this then holds the heap after |
| `Memory.FlatShows` | guardian_kernels/sanitizer/malloc.c:1948-2048 | such a memory exists in every state of the heap |
| `Memory.MarkedThrough` | guardian_kernels/sanitizer/malloc.c:2652-2775 | a change of use that the tags do not show writes nothing |
| `Memory.UnlinkedThrough` | guardian_kernels/sanitizer/malloc.c:2233-2238 | unlinking writes at most two words of that memory, the links of the neighbours |
| `Memory.InsertedThrough` | guardian_kernels/sanitizer/malloc.c:3644-3648 | an insertion writes the two links of the chunk and those of its neighbours |
| `Memory.WokenThrough` | guardian_kernels/sanitizer/malloc.c:3608-3612 | taking a chunk into use writes the size word behind it |
| `Memory.SleptThrough` | guardian_kernels/sanitizer/malloc.c:3880-3905 | tagging a chunk free writes the size word behind it and its footer |
| `Memory.MergedThrough` | guardian_kernels/sanitizer/malloc.c:3872-3920 | joining two chunks writes one size word, and the footer of a free one |
| `Memory.CarvedThrough` | guardian_kernels/sanitizer/malloc.c:3676-3686 | splitting a chunk writes two size words, and the footer of a free rest |
| `Memory.FastPushedThrough` | guardian_kernels/sanitizer/malloc.c:3856-3859 | entering a fastbin writes one link |
| `Memory.FastPoppedThrough` | guardian_kernels/sanitizer/malloc.c:3513-3519 | leaving it writes nothing |
| `Memory.TopResizedThrough` | guardian_kernels/sanitizer/malloc.c:3178-3184 | moving the end of the heap writes the size word of top |
| `Memory.BorrowedThrough` | guardian_kernels/sanitizer/malloc.c:4145-4153 | growing into top writes the size words of the block and of top |
| `ShadowStack.DecodeEncode` | guardian_kernels/shadowstackpar.cpp:21-31 | the aggregator reads back every message in the encoding it expects |
| `ShadowStack.Tags` | guardian_kernels/shadowstackpar.cpp:21-31 | a return to a is the word 4a, a call 4a + 1 and a switch 4a + 2; 4a + 3 is read as a return, too |
| `ShadowStack.EncodeDecode` | guardian_kernels/shadowstackpar.cpp:21-31 | no other word stands for the same message, except returns tagged 3 |
| `ShadowStack.AsWritten` | guardian_kernels/shadowstackparfilter.cpp:26-45 | as the filter is written, a message arrives as sent if and only if it is a return to an address below 2^62 |
| `ShadowStack.AsWrittenPart` | guardian_kernels/shadowstackparfilter.cpp:38-45 | with the words as written, the switch at the end included, a part leaves the sequential stack behind if and only if that is empty, and never makes the sequential comparisons |
| `ShadowStack.Filter.Send` | guardian_kernels/shadowstackparfilter.cpp:26-45 | the word that goes out is the written one: the address times 4, in 64 bits, for a return, and 0 for anything else; the word meant is recorded beside it |
| `ShadowStack.Filter.Receive` | guardian_kernels/shadowstackparfilter.cpp:21-47 | one queue entry: a call is pushed; a return is compared with the newest call and pops it, or, if there is none, goes out; the end of a part empties the stack and sends as many words as it held calls, and one for the switch; the words meant are the calls, oldest first, and the core with the next part |
| `ShadowStack.FilterAgrees` | guardian_kernels/shadowstackparfilter.cpp:21-36 | the sequential stack is the filter's stack on top of the aggregator's, and both together make the sequential comparisons |
| `ShadowStack.LeftoverReplay` | guardian_kernels/shadowstackparfilter.cpp:38-44 | replaying the flushed calls puts them back in their order |
| `ShadowStack.PartAgrees` | guardian_kernels/shadowstackparfilter.cpp:21-47 | replaying what a filter sent for one part gives the sequential stack, and with its own comparisons the sequential ones |
| `ShadowStack.FilterStreams` | guardian_kernels/shadowstackparfilter.cpp:12-48 | a filter's output over all its parts is the stream of its core |
| `ShadowStack.Aggregator.Check` | guardian_kernels/shadowstackpar.cpp:30-39 | a return compares the top of the stack, or 0 if it is empty, with its address and pops it |
| `ShadowStack.Consumed` | guardian_kernels/shadowstackpar.cpp:18-31 | one word leaves the current core's queue, so fewer are queued |
| `ShadowStack.Greedy` | guardian_kernels/shadowstackpar.cpp:15-42 | draining ends with the current core's queue empty |
| `ShadowStack.Aggregator.ClearQueue` | guardian_kernels/shadowstackpar.cpp:15-42 | the loop with its recursive call drains exactly as specified and terminates |
| `ShadowStack.Aggregator.Arrive` | guardian_kernels/shadowstackpar.cpp:57-80 | a word of the current core acts at once: tag 1 pushes its address, tag 2 passes the token and drains, the others compare, and stop the program if and only if the addresses differ; a word of another core is queued and changes nothing else; all this is the effect of queueing the word and draining, and the current core's queue is empty again |
| `ShadowStack.Aggregator.Run` | guardian_kernels/shadowstackpar.cpp:45-82 | any finite sequence of arrivals is gone through up to its end, or up to the first return of the current core that does not match, and stops only there; the state left is the one that queueing these arrivals and draining once would leave |
| `ShadowStack.GreedyFirst` | guardian_kernels/shadowstackpar.cpp:45-82 | it makes no difference whether a word arrives before or after the queues were drained |
| `ShadowStack.Confluence` | guardian_kernels/shadowstackpar.cpp:45-82 | two interleavings of the same per-core streams, as far as they are not stopped, leave the same stack, comparisons, core and queues |
| `ShadowStack.GreedyReplay` | guardian_kernels/shadowstackpar.cpp:18-40 | words up to a switch are replayed one after the other |
| `ShadowStack.Assembled` | guardian_kernels/shadowstackpar.cpp:15-42 | draining the streams of a trace cut into parts rebuilds the sequential run and leaves nothing queued |
| `ShadowStack.ParallelIsSequential` | guardian_kernels/shadowstackpar.cpp:45-82 | for every trace cut into parts over the cores and every interleaving of the messages of the filters, in the encoding the aggregator decodes, the final stack is the sequential one and filters and aggregator together make the sequential comparisons |
| `ShadowStack.StopsOnlyIfWrong` | guardian_kernels/shadowstackpar.cpp:67-77 | every comparison the aggregator has made at any point of any interleaving is one of the sequential run, so it stops only if some return of the program does not match |
| `ShadowStack.ReturnMeetsCall` | guardian_kernels/shadowstackpar.cpp:30-39 | a return is compared with the most recent call that has not returned yet: if what is between the two is nested, the comparison is the call with the return |
| `ShadowStack.NestedKeeps` | guardian_kernels/shadowstackpar.cpp:18-40 | a nested stretch of calls and returns leaves the stack as it was |
| `Stopping.SomeStop` | guardian_kernels/shadowstackpar.cpp:57-80 | some interleaving is stopped by the assertion if and only if some return that the filters forward does not match; so none is if and only if all match |
| `Stopping.AllStop` | guardian_kernels/shadowstackpar.cpp:57-80 | every interleaving is stopped if and only if such a return is among those core 0 forwards before it first passes the token on; all others can be kept out of the main loop |
| `Stopping.InTurnStops` | guardian_kernels/shadowstackpar.cpp:57-80 | words that arrive in program order are all looked at in the main loop |
| `Stopping.AheadRuns` | guardian_kernels/shadowstackpar.cpp:15-42 | words that are queued ahead of the token are all looked at in `clearQueue` and never stop the program |
| `ShadowStack.TokenStays` | guardian_kernels/shadowstackpar.cpp:15-42 | as long as no switch arrives, one core's words are replayed and those of all others pile up |
| `AsSent.StreamWritten` | guardian_kernels/shadowstackparfilter.cpp:26-45 | as written, the aggregator compares the returns of core 0, and 0 with 0 for every call left over and every switch |
| `AsSent.WrittenComparisons` | guardian_kernels/shadowstackparfilter.cpp:26-45 | the comparisons made as written, with those of the filters, are the sequential ones if and only if every forwarded return meets an empty stack or a 0, those of core 0 go below 2^62, and the other cores forward exactly as many returns, all to 0, as core 0 leaves calls over and sends switches |
| `AsSent.NeverCoincide` | guardian_kernels/shadowstackparfilter.cpp:26-45 | if no return goes to 0 and core 0 has a part of the trace, they are not |
| `AsSent.MayCoincide` | guardian_kernels/shadowstackparfilter.cpp:26-45 | if core 1 forwards a return to 0, the word of a switch is taken for it and the comparisons agree |
| `AsSent.MissedReturn` | guardian_kernels/shadowstackparfilter.cpp:26-45 | a call on core 0 that returns on core 1: the sequential run compares it, the aggregator compares 0 with 0 twice, whatever the return address |
| `AsSent.AsWrittenRun` | guardian_kernels/shadowstackparfilter.cpp:26-45 | with the words as written, the aggregator never leaves core 0 and its stack stays empty; it ends with the sequential stack if and only if that is empty, and has made the sequential comparisons if and only if the two coincide |
| `Rowhammer.DivGeometric` | guardian_kernels/rowhammer.c:9-13 | exactly the same powers of two divide n and the sum of the first n powers of the multiplier |
| `Rowhammer.IterClosed` | guardian_kernels/rowhammer.c:9-13 | the n-th value of the generator in closed form, in 32-bit arithmetic |
| `Rowhammer.FullPeriod` | guardian_kernels/rowhammer.c:9-13 | a value comes back after n steps if and only if n is a multiple of 2^32 |
| `Rowhammer.OnePeriod` | guardian_kernels/rowhammer.c:9-32 | from any value, 2^32 steps visit every 32-bit value once, 42949672 of them below the threshold |
| `Rowhammer.AnyWindow` | guardian_kernels/rowhammer.c:27-38 | any 2^32 consecutive sampled accesses refresh exactly 42949672 times |
| `Rowhammer.HashIs` | guardian_kernels/rowhammer.c:9-13 | one step is 1664525 x + 1013904223 modulo 2^32; from 1 it gives 1015568748 |
| `Rowhammer.PrefetchCount` | guardian_kernels/rowhammer.c:32-38 | as many prefetches as twice the refreshes, whatever the addresses |
| `Rowhammer.HitsCount` | guardian_kernels/rowhammer.c:27-32 | there are as many refreshed accesses as steps of the generator below the threshold |
| `Rowhammer.Sample` | guardian_kernels/rowhammer.c:15-42 | the generator takes one step for each access that is late enough, in order; those accesses whose step falls below 42949672 have the rows 65536 bytes above and below prefetched, in this order, and no others; the number of steps is the number of accesses at time 40000 or later |
| `Pipeview.SortFacts` | gem5-guardian/util/o3-pipeview.py:153-155 | sorting by sequence number is a stable rearrangement into order |
| `Pipeview.NotTooLate` | gem5-guardian/util/o3-pipeview.py:47-57 | an instruction belongs behind everything already printed if and only if no more larger ones have been seen than the window holds |
| `Pipeview.FaithfulMore` | gem5-guardian/util/o3-pipeview.py:159-164 | queueing such an instruction keeps "printed so far, then the window in order, is the trace so far in order" |
| `Pipeview.BrokenPrint` | gem5-guardian/util/o3-pipeview.py:167-171 | once an instruction is printed in front of a smaller one, the order stays broken |
| `Pipeview.HeldNext` | gem5-guardian/util/o3-pipeview.py:159-171 | how many instructions the window holds, from the number queued and the two thresholds |
| `Pipeview.NearInTime` | gem5-guardian/util/o3-pipeview.py:47-52 | at most the lower threshold out of place is enough to come in time |
| `Pipeview.FaithfulPrint` | gem5-guardian/util/o3-pipeview.py:167-171 | printing from the sorted window keeps it as well |
| `Pipeview.FilterBag` | gem5-guardian/util/o3-pipeview.py:177-187 | filtering keeps each wanted instruction as often as it occurs and no other |
| `Pipeview.Window.constructor` | gem5-guardian/util/o3-pipeview.py:53-57 | the empty window |
| `Pipeview.Window.PrintInsts` | gem5-guardian/util/o3-pipeview.py:167-188 | the window is sorted and all but its largest `lower` instructions leave it in order; those that pass the filter are printed |
| `Pipeview.Window.QueueInst` | gem5-guardian/util/o3-pipeview.py:159-164 | one retired instruction enters the window, which is printed down when it exceeds the upper threshold |
| `Pipeview.Window.Flush` | gem5-guardian/util/o3-pipeview.py:145-149 | at the end of the trace the rest of the window is printed |
| `Pipeview.ProcessTrace` | gem5-guardian/util/o3-pipeview.py:126-150 | a run to the end of the trace prints every wanted instruction as often as it retired, the wanted ones being those within the bounds on sequence numbers and ticks, and retired ones only if asked for; without bounds it prints in stable sequence order if and only if each instruction comes after no more larger ones than the window then holds; this is so if none is more than the lower threshold out of place |
| `Upgrades.ApplyRound` | gem5-guardian/util/cpt_upgrader.py:190-193 | a round applies each of its upgrades once, in any arrangement, and the result is still a respectful order |
| `Upgrades.SomeReady` | gem5-guardian/util/cpt_upgrader.py:181-188 | while upgrades are left over, every complete order has a ready one among them |
| `Upgrades.NoneReady` | gem5-guardian/util/cpt_upgrader.py:185-188 | if none is ready, no complete order exists |
| `Upgrades.Upgrade` | gem5-guardian/util/cpt_upgrader.py:181-195 | the loop terminates; it applies every missing upgrade exactly once and after its dependencies, round by round exactly the ready ones, or aborts if and only if no such order exists; the tags are then those present and all upgrades |
| `Upgrades.CompleteMeans` | gem5-guardian/util/cpt_upgrader.py:181-195 | a complete order is one in which each missing upgrade occurs once, and each dependency of an upgrade is present or comes before it |
| `Upgrades.RunComplete` | gem5-guardian/util/cpt_upgrader.py:181-195 | every run of the loop applies everything that is missing, after its dependencies |
| `Upgrades.RunsOrder` | gem5-guardian/util/cpt_upgrader.py:181-193 | of two missing upgrades, all runs of the loop apply the first before the second if and only if it is ready in an earlier round |
| `Upgrades.ListAll` | gem5-guardian/util/cpt_upgrader.py:98-102 | the directories by tag and by version name the last file with each tag and each version number |
| `Upgrades.LoadAll` | gem5-guardian/util/cpt_upgrader.py:118-128 | every version from 3 up to the first missing one is made to depend on the version before it and on nothing else, also if files share tags or versions; fails if and only if there is a version 3 but no version 2 |
| `Upgrades.LoadedLinked` | gem5-guardian/util/cpt_upgrader.py:118-128 | if no two files share a tag, the upgrades the loop sees form a chain of versions |
| `Upgrades.FromVersion` | gem5-guardian/util/cpt_upgrader.py:157-161 | an old version number stands for the tags of all versions up to it, and is an error if one of them is missing |
| `Upgrades.LegacyOrder` | gem5-guardian/util/cpt_upgrader.py:124-128 | in every respectful order legacy versions come in their order, as long as none between them is already present |
| `Upgrades.LegacyRound` | gem5-guardian/util/cpt_upgrader.py:124-128 | behind a present version, the missing ones are applied one in each round |
| `Upgrades.LegacyRunsExactly` | gem5-guardian/util/cpt_upgrader.py:124-193 | all runs of the loop apply the missing legacy versions in their order if and only if no present version lies between two missing ones |
| `Upgrades.GapBreaksOrder` | gem5-guardian/util/cpt_upgrader.py:124-128 | with version 3 present and 2 missing, a run applies 4 before 2 |
| `Upgrades.GapKeepsLater` | gem5-guardian/util/cpt_upgrader.py:124-193 | yet every run applies 2 before 5, which is ready a round later |
| `Traces.SplitJoin` | gem5-guardian/util/encode_inst_dep_trace.py:152-152 | splitting at commas undoes joining with commas |
| `Traces.NumberDecimal` | gem5-guardian/util/decode_inst_dep_trace.py:160-161 | every printed number reads back as itself and contains no separator |
| `Traces.DecimalMore` | gem5-guardian/util/decode_inst_dep_trace.py:160-161 | the decimal of 10 n + d is that of n followed by the digit d |
| `Traces.KindsAre` | gem5-guardian/util/decode_inst_dep_trace.py:160-206 | the four types and their names, both ways |
| `Traces.FieldBack` | gem5-guardian/util/encode_inst_dep_trace.py:155-190 | a printed number is read back by `int` and `long` exactly if the field of the message can hold it |
| `Traces.SignedBack` | gem5-guardian/util/encode_inst_dep_trace.py:155-190 | a sign, and blanks around the number and behind its sign, are taken as they are meant |
| `Traces.SuffixBack` | gem5-guardian/util/encode_inst_dep_trace.py:155-190 | a final L is taken by `long` and not by `int` |
| `Traces.DepsBack` | gem5-guardian/util/encode_inst_dep_trace.py:182-195 | every printed dependency list reads back as itself, the empty one included, if and only if its numbers fit 64 bits |
| `Traces.LineParts` | gem5-guardian/util/encode_inst_dep_trace.py:151-151 | a printed line comes apart into its three parts |
| `Traces.InfoBack` | gem5-guardian/util/encode_inst_dep_trace.py:155-180 | the fields in front of the dependencies read back if and only if the record carries those its type calls for and they fit their 32 or 64 bits |
| `Traces.RoundTrip` | gem5-guardian/util/decode_inst_dep_trace.py:160-206 | printing and reading gives the record with its defaults filled in if and only if loads and stores carry address, size and flags, other types none, the fields that are never printed are absent, and all numbers fit the fields of the message |
| `Traces.TraceRoundTrip` | gem5-guardian/util/encode_inst_dep_trace.py:150-198 | converting a whole trace to text and back gives the trace if and only if that holds of every record |
| `Traces.WriteDeps` | gem5-guardian/util/decode_inst_dep_trace.py:193-204 | the loop writes the printed form of a dependency list |
| `Traces.WriteRecord` | gem5-guardian/util/decode_inst_dep_trace.py:160-206 | the pieces written for a record are its line; an unknown type is an error |
| `Traces.AccessLine` | gem5-guardian/util/decode_inst_dep_trace.py:160-206 | the line of a load or store: the eight fields in their order, between commas |
| `Traces.CompLine` | gem5-guardian/util/decode_inst_dep_trace.py:160-206 | the line of a computation |
| `Traces.DepsLine` | gem5-guardian/util/decode_inst_dep_trace.py:193-204 | every dependency is written behind a comma, in order |
| `Traces.DefaultsPrinted` | gem5-guardian/util/decode_inst_dep_trace.py:160-206 | the fields that may be absent print as their defaults |
| `Traces.DecodeTrace` | gem5-guardian/util/decode_inst_dep_trace.py:156-210 | the decoder writes the lines of all records and counts records and those with dependencies, or stops at the first unknown type |
| `Traces.CountMeans` | gem5-guardian/util/decode_inst_dep_trace.py:156-210 | what is counted are the records with dependencies |
| `Traces.CollectDeps` | gem5-guardian/util/encode_inst_dep_trace.py:184-195 | the loop over the pieces of a list skips empty ones and fails on one that `long` does not read or 64 bits do not hold |
| `Traces.ConvertLine` | gem5-guardian/util/encode_inst_dep_trace.py:151-195 | one line is converted, or rejected if and only if it is not of the accepted form |
| `Traces.ReadExactly` | gem5-guardian/util/encode_inst_dep_trace.py:151-195 | a line is converted if and only if it has three parts between colons, the first with sequence number, program counter, weight, one of the types LOAD, STORE and COMP, for the first two address, size and flags, and the delay, each fitting its field, and the others with nothing but numbers that fit; every number goes to its field |
| `Traces.EncodeTrace` | gem5-guardian/util/encode_inst_dep_trace.py:150-198 | the encoder converts line by line and stops at the first one it cannot read |
| `Ports.AtMostTotal` | gem5-guardian/configs/example/read_config.py:142-144 | connections are totally ordered by names and indices of their ends |
| `Ports.BeforeMeans` | gem5-guardian/configs/example/read_config.py:142-144 | names are compared by the first character in which they differ, a prefix coming first |
| `Ports.EndsDecide` | gem5-guardian/configs/example/read_config.py:142-144 | connections are compared by their first ends, and by the second ones only if those are equal |
| `Ports.SortOrder` | gem5-guardian/configs/example/read_config.py:312-312 | the sorted connections are in order |
| `Ports.SortBag` | gem5-guardian/configs/example/read_config.py:312-312 | and a rearrangement of the given ones |
| `Ports.BindOne` | gem5-guardian/configs/example/read_config.py:315-321 | binding a connection whose ends are next keeps every port's attachments at 0, 1, 2, ... and no connection bound twice or in both directions |
| `Ports.HalfIsAll` | gem5-guardian/configs/example/read_config.py:323-326 | if half of the connections are bound, one direction of each is |
| `Ports.EndOnce` | gem5-guardian/configs/example/read_config.py:285-321 | if the indices of each port are used one after the other, an end occurs in one connection only |
| `Ports.OnePassEnough` | gem5-guardian/configs/example/read_config.py:301-326 | the claim that sorting makes one direction of each connection bindable holds if and only if directions can be chosen, none joining a port to itself, so that the chosen connections in sorted order use the indices of every port one after the other |
| `Ports.ZeroIndices` | gem5-guardian/configs/example/read_config.py:285-291 | every port starts at index 0 |
| `Ports.BindPorts` | gem5-guardian/configs/example/read_config.py:280-326 | succeeds if and only if directions can be chosen so that the sorted order uses the indices of every port one after the other; then exactly one direction of each connection is bound and every port is attached at 0, 1, 2, ... and at each of its ends' indices |
| `Ports.ChainSorted` | gem5-guardian/configs/example/read_config.py:301-312 | the connections of a chain of five ports in alphabetical order are sorted as listed |
| `Ports.OnePassMisses` | gem5-guardian/configs/example/read_config.py:301-326 | of that chain the pass binds only two of the four connections, so it fails |
| `Ports.ChainCanBeBound` | gem5-guardian/configs/example/read_config.py:301-321 | although an order exists in which all four can be bound |
| `BitCount.ClearLowest` | bitcount/bitcnt_1.c:16-18 | x & (x - 1) is smaller than x and has one bit less |
| `BitCount.BitCountLoop` | bitcount/bitcnt_1.c:9-20 | the clear-lowest-bit loop counts the ones of every 64-bit number in two's complement, with x - 1 wrapping around |
| `BitCount.AddedSum` | bitcount/bitcnt_2.c:11-15 | a line of masks, shift and addition doubles the width of the digits and keeps their sum |
| `BitCount.Masks` | bitcount/bitcnt_2.c:11-15 | the five masks are alternating blocks of 1, 2, 4, 8 and 16 ones |
| `BitCount.ParallelSums` | bitcount/bitcnt_2.c:9-17 | the five lines count the ones of every 32-bit number |
| `BitCount.Table` | bitcount/bitcnt_3.c:15-33 | every entry of the table is the number of ones of its index |
| `BitCount.NibbleTableCounts` | bitcount/bitcnt_3.c:42-53 | eight nibble lookups count the ones of every 32-bit number |
| `BitCount.ByteTableCounts` | bitcount/bitcnt_3.c:61-73 | four byte lookups count the ones of every 32-bit number |
| `BitCount.BytePointer` | bitcount/bitcnt_3.c:81-91 | so does the moving pointer |
| `BitCount.NibbleRecursive` | bitcount/bitcnt_4.c:38-46 | the recursion by nibbles counts the ones of every non-negative number |
| `BitCount.ByteRecursive` | bitcount/bitcnt_4.c:52-59 | so does the recursion by bytes |
| `BitCount.BitShifter` | bitcount/bitcnts.c:80-87 | the shifting loop counts the ones of every 64-bit number in two's complement within its 64 turns, negative ones included |

## Left out

- Allocator.Heap.Malloc: padded requests of 2^32 bytes and more are excluded, because `largebin_index` truncates them (see `Sizes.HigherBinsFitExactly`), and heaps span less than 4 GiB for the same reason. When the last remainder is due is stated for requests the heap can serve as it is; after a consolidation, only of the request made again. The order within the bins is stated after a request that is served from them as they are; after one served from top or made again, only what is in the unsorted queue.
- Allocator.Heap.Realloc: the same bound on the padded request.
- Allocator.Heap.Memalign: the padded request with its alignment stays below 2^32; beyond 2^63 the doubling loop of the original does not terminate.
- Allocator.Heap.SysMalloc: only contiguous memory from the system; mapped chunks, non-contiguous extension and fenceposts are not modelled.
- Allocator.Heap.SysTrim: how much of what is offered the system takes back is its choice.
- Allocator.Heap.AlignFirst: the first memory is taken whether or not the second request succeeds, so top may be smaller than asked for; the caller looks at its size again, as the code does.
- Client.Perform: whether the system refuses memory is its choice, so an allocation may fail in the abstract store whenever it does; that a block stays where it is when it is resized is stated of `Allocator.Heap.Realloc`, since the store does not see the free chunks.
- BitCount.NibbleRecursive: negative numbers are excluded, because the recursion of the original does not end on them; the same holds of `BitCount.ByteRecursive`.
- BitCount.BitCountLoop: x - 1 wraps around at the smallest number, where C leaves it undefined.
- Memory.WriteThrough: is stated for the elementary steps of the allocator; a method that writes a word which means nothing before and after the step, as some do, is not followed write by write.
- The public wrappers of the allocator, its shadow memory and poisoning, locks, statistics, `mallopt`, `calloc` and the independent-array calls: inline assembly, or easy members over the operations modelled.
- Protocol-buffer framing, file reading and writing around the converters, the upgrade functions themselves.
- The text and colours of a printed instruction, the search for the first line, and the early stop of the pipeline viewer.
- The control-flow and performance-counter kernels, the rest of the configuration scripts and the simulator.
