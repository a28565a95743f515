# Deep Storage: store-cell search patch

LWM's Deep Storage mod lets one cell of a storage unit hold several stacks.
RimWorld's `StoreUtility.TryFindBestBetterStoreCellFor` stops searching for a
better cell as soon as no candidate has a strictly higher priority than the
thing's current one. The patch `Patch_TryFindBestBetterStoreCellFor` changes
that.

1. `Transpiler` rewrites the routine's IL instruction list. It calls
   `OverCapacity` right after `storagePriority = currentPriority` and keeps
   the answer in a new bool local. It then adds `if (overCapacity) goto L` in
   front of the `priority <= currentPriority` test (`ldloc.s 7; ldarg.3;
   bgt L`). The effect is that an over-full cell does not stop the search.
2. `OverCapacity` decides whether the cell the thing is in is over capacity.
   When it is, the by-reference priority becomes `Unstored`.

The project has two modules, one per routine. Each routine is a method whose
loops follow the source; its `ensures` ties the result to a specification
function, and lemmas prove the routine's properties about that function.

- `capacity.dfy`, module `CapacityPolicy`:
  - the method `OverCapacity`, specified by `Evaluate`;
  - `Evaluate` is defined through the first positions where the scans stop (`ScanStop`, `FirstStorable`, `IndexOf`).
- `transpiler.dfy`, module `StorePatch`:
  - the method `Transpiler`, made of four phase methods over one cursor, specified by `Rewrite`;
  - `Rewrite` is defined through the three landmark positions (`NextStloc1`, `NextPriorityStore`, `ScanTriple`).

Where the code differs from what its comments or a quick reading suggest, the model follows the code:
- The new branch goes in front of the comparison triple, not after it. Phase 3 breaks before emitting the `ldloc.s 7`, and phase 4 emits the triple.
- The candidate being in its cell does not by itself mean it fits. A limit can be reached by storable things listed before it (`StoredAheadFillsOneStackCell`, `CandidatePresentYetOver`).
- With no storage unit at the cell, only the first storable thing decides. If there is no storable thing at all, the code goes on to read a field of the missing descriptor.
- If `stloc.1` is the last instruction, the call is injected but failure 0 is still logged, because the cursor has moved past the end (`NoPriorityStore`).
- An `ldloc.s 7` in one of the last two places can make the comparison test read past the end of the list (`ComparisonOverrun`).

## Model

| member | source | states |
|---|---|---|
| CapacityPolicy.Evaluate | DeepStorage/Deep_Storage_ShouldRemoveFrom.cs:101-160 | A null dereference happens exactly when the thing is spawned, its priority is not `Unstored`, there is no descriptor and nothing at the cell is storable. A thing that is not spawned, or whose priority is already `Unstored`, gets "not over capacity" with the priority unchanged. "Over capacity" holds exactly when the priority becomes `Unstored`. Otherwise the priority is unchanged and nothing is logged. Every "over capacity" answer logs a warning. |
| CapacityPolicy.OverCapacity | DeepStorage/Deep_Storage_ShouldRemoveFrom.cs:101-160 | The method has the early exits, the no-descriptor walk, the per-item limit and the one-pass scan with the two accumulators. It returns exactly the result and new priority that `Evaluate` gives. |
| CapacityPolicy.ScanStop | DeepStorage/Deep_Storage_ShouldRemoveFrom.cs:135-158 | Returns the first position where the scan stops, or the end of the list. A position stops the scan when it holds the candidate, or a storable thing whose running totals reach a limit. No earlier position stops it. |
| CapacityPolicy.FirstStorable | DeepStorage/Deep_Storage_ShouldRemoveFrom.cs:110-120 | Returns the first storable position at or after the start point, or the end of the list. Nothing before it is storable. |
| CapacityPolicy.IndexOf | DeepStorage/Deep_Storage_ShouldRemoveFrom.cs:138 | Returns the first position holding the candidate, or the end of the list. No earlier position holds it. |
| CapacityPolicy.FirstStopIsScanStop | DeepStorage/Deep_Storage_ShouldRemoveFrom.cs:135-158 | A stopping position with no stopping position before it is the one `ScanStop` returns. |
| CapacityPolicy.NoDescriptorFirstStorableDecides | DeepStorage/Deep_Storage_ShouldRemoveFrom.cs:108-121 | With no descriptor, the first storable thing decides. If it is the candidate, the answer is "fits" with the priority unchanged. If it is anything else, the answer is "over capacity" with `Unstored` and the not-in-a-storage-unit warning. Non-storable things before it are skipped. |
| CapacityPolicy.PerItemLimit | DeepStorage/Deep_Storage_ShouldRemoveFrom.cs:123-130 | When the per-item limit is positive and the candidate's stat value exceeds it, the answer is "over capacity" with the too-heavy warning. This holds whatever the cell holds and whatever the stack count is. |
| CapacityPolicy.ScanVerdict | DeepStorage/Deep_Storage_ShouldRemoveFrom.cs:131-159 | Once past the per-item limit, the admission check returns normally. It says "over capacity" exactly when some storable thing strictly before the candidate's first position fires a rule. The weight rule needs a positive cell limit, a running weight above it, and at least the minimum number of stacks. The stack rule needs a running stack count of at least the maximum. If the list runs out with nothing firing, the answer is "fits". When the answer is "over capacity", the scan stopped at a firing storable thing before the candidate. The warning is the weight warning exactly when the weight rule holds there, and the stack-count warning exactly when only the stack rule does, because the weight rule is tested first. |
| CapacityPolicy.FiresSomewhereIff | DeepStorage/Deep_Storage_ShouldRemoveFrom.cs:139-156 | Assume no storable weight is negative. Then a rule fires at some position of a list exactly when the totals of the whole list reach a limit. |
| CapacityPolicy.ScanDecidedByTotals | DeepStorage/Deep_Storage_ShouldRemoveFrom.cs:131-159 | Assume the weights before the candidate are non-negative. Then the answer is "over capacity" exactly when the stack count and weight totals of the storable things before the candidate reach a limit. |
| CapacityPolicy.StoredAheadFillsOneStackCell | DeepStorage/Deep_Storage_ShouldRemoveFrom.cs:123-156 | Suppose the per-item limit is not exceeded, there is no positive cell weight limit and the stack limit is at most one. Then any storable thing listed before the candidate's first position makes the answer "over capacity", with `Unstored` and the stack-count warning, whether or not the candidate is at the cell. |
| CapacityPolicy.CandidatePresentYetOver | DeepStorage/Deep_Storage_ShouldRemoveFrom.cs:135-156 | In one concrete cell, holding another storable stack and then the candidate, with a one-stack limit and no weight limits, the answer is "over capacity" with the stack-count warning although the candidate is present. |
| StorePatch.NextStloc1 | DeepStorage/Deep_Storage_ShouldRemoveFrom.cs:55-57 | Returns a position at or after the start point that is either the end or holds a `stloc.1`. |
| StorePatch.NextPriorityStore | DeepStorage/Deep_Storage_ShouldRemoveFrom.cs:77-80 | Returns a position at or after the start point that is either the end or holds `stloc.s 7`. |
| StorePatch.ScanTriple | DeepStorage/Deep_Storage_ShouldRemoveFrom.cs:86-94 | A hit at or after the start point is a complete `ldloc.s 7; ldarg.3; bgt` triple within the list. An overrun at or after the start point is an `ldloc.s 7` whose test reads past the end. |
| StorePatch.NextStloc1Is | DeepStorage/Deep_Storage_ShouldRemoveFrom.cs:55-57 | `NextStloc1` returns exactly the first `stloc.1` from the start point, or the end when there is none. |
| StorePatch.NextPriorityStoreIs | DeepStorage/Deep_Storage_ShouldRemoveFrom.cs:77-80 | `NextPriorityStore` returns exactly the first `stloc.s 7` from the start point, or the end when there is none. |
| StorePatch.ScanTripleEndsAt | DeepStorage/Deep_Storage_ShouldRemoveFrom.cs:86-92 | The phase-3 scan ends at the first position whose test succeeds or reads past the end, and reports which of the two happened. |
| StorePatch.ScanTripleMisses | DeepStorage/Deep_Storage_ShouldRemoveFrom.cs:86-95 | With no such position, the phase-3 scan finds nothing. |
| StorePatch.CopyThroughCallSite | DeepStorage/Deep_Storage_ShouldRemoveFrom.cs:54-67 | Phase 1 copies up to and including the first `stloc.1`, then appends the five call instructions. Its cursor ends just past that `stloc.1`; with no `stloc.1` it copies everything and ends at the end. |
| StorePatch.CopyToPriorityStore | DeepStorage/Deep_Storage_ShouldRemoveFrom.cs:77-82 | Phase 2 stops at the first `stloc.s 7` from its start point, without emitting it. It appends exactly the instructions it passed. |
| StorePatch.CopyToComparison | DeepStorage/Deep_Storage_ShouldRemoveFrom.cs:86-94 | Phase 3 stops at the first triple and appends what it passed plus `ldloc.s v; brtrue L`; it does not emit the triple. It signals an overrun when the unchecked reads go past the end. When it finds neither, it copies the rest. |
| StorePatch.CopyRest | DeepStorage/Deep_Storage_ShouldRemoveFrom.cs:97-98 | Phase 4 appends exactly the rest of the list. |
| StorePatch.Transpiler | DeepStorage/Deep_Storage_ShouldRemoveFrom.cs:49-99 | The method runs the four phases over one cursor. It logs failure code n − 1 when phase n (n = 1, 2, 3) leaves the cursor at the end; phase 4 always ends there and logs nothing. Its result is exactly `Rewrite`. |
| StorePatch.Rewrite | DeepStorage/Deep_Storage_ShouldRemoveFrom.cs:49-99 | The body defines the output in four parts: the output of phase 1, then the input from the phase-1 cursor up to the first triple after the first `stloc.s 7`, then the branch, then the rest. The contract states that failure code 0, 1 or 2 is logged exactly when phase 1, phase 2 or phase 3 leaves the cursor at the end. The rewrite fails with an out-of-range read exactly when the comparison test reads past the end. When it does not fail, no failure is logged exactly when a comparison is found. |
| StorePatch.RewriteGrowth | DeepStorage/Deep_Storage_ShouldRemoveFrom.cs:55-98 | Unless it fails, the rewrite adds exactly five instructions when there is a `stloc.1`, and two more when a comparison is found. It keeps the input unchanged up to the cursor after phase 1. |
| StorePatch.NoCallSite | DeepStorage/Deep_Storage_ShouldRemoveFrom.cs:55-95 | With no `stloc.1`, the output is the input unchanged and failures 0, 1 and 2 are all logged. |
| StorePatch.NoPriorityStore | DeepStorage/Deep_Storage_ShouldRemoveFrom.cs:64-95 | With a `stloc.1` but no `stloc.s 7` after it, only the call block is inserted, right after that `stloc.1`. Failures 1 and 2 are logged, and failure 0 too when the `stloc.1` is last. Deleting the five inserted instructions gives back the input. |
| StorePatch.NoComparison | DeepStorage/Deep_Storage_ShouldRemoveFrom.cs:77-95 | With both anchors, and after the store neither a complete comparison triple nor an `ldloc.s 7` whose test reads past the end, only the call block is inserted and only failure 2 is logged. Deleting it gives back the input. |
| StorePatch.ComparisonOverrun | DeepStorage/Deep_Storage_ShouldRemoveFrom.cs:86-88 | After the first `stloc.s 7` that follows the first `stloc.1`, an `ldloc.s 7` whose test reads past the end comes before any complete `ldloc.s 7; ldarg.3; bgt` triple. Then the rewrite fails with `OutOfRange` and no failure code logged. |
| StorePatch.FullSuccess | DeepStorage/Deep_Storage_ShouldRemoveFrom.cs:55-98 | When all three landmarks are found, the output is the input with two insertions. The five call instructions go right after the first `stloc.1`. The two branch instructions go right before the first triple after the next `stloc.s 7`. The output is seven instructions longer, no failure is logged, and deleting the seven inserted instructions gives back the input, `stloc.s 7` included. |
| StorePatch.InjectedShape | DeepStorage/Deep_Storage_ShouldRemoveFrom.cs:53-90 | In a full rewrite, the block after `stloc.1` is exactly `ldarg.2; ldarg.0; ldloca.s 1; call OverCapacity; stloc.s v`. The branch loads that same local v, and its `brtrue` carries the same label as the `bgt` of the triple, which follows it unchanged. |
| StorePatch.RewriteOnMiss | DeepStorage/Deep_Storage_ShouldRemoveFrom.cs:77-98 | With both anchors, and after the store neither a complete comparison triple nor an `ldloc.s 7` whose test reads past the end, the rewrite is the input with the call block inserted, and failure 2 is reported. |
| StorePatch.RewriteOnHit | DeepStorage/Deep_Storage_ShouldRemoveFrom.cs:55-98 | With all three landmarks, the rewrite is the input with the call block and the branch inserted, and no failure. |
| StorePatch.SpliceShape | DeepStorage/Deep_Storage_ShouldRemoveFrom.cs:58-90 | For the two insertions: the length grows by seven, and each injected instruction sits at its position. The branch label is the triple's. Deleting the inserted instructions gives back the input. |

## Left out

- Patch registration, reflection and code generation are not modelled, because they are host machinery. This covers the Harmony attribute, `AccessTools.Method` and `ILGenerator.DeclareLocal`. The call target is a `Method("OverCapacity")` operand, and the new local's index is a parameter.
- The runtime meaning of the IL is out of scope. The model covers only the structure of the list, so it does not prove that the rewritten routine behaves as the comment at lines 69-76 says. Labels attached to instructions are not modelled either.
- Host lookups are passed in as plain data: `ThingsListAt`, `GetSlotGroup`, `GetComp<CompDeepStorage>`, `GetStatValue` and `EverStorable`. Each thing carries an identity, a storable flag, a stack count and its value of the limiting stat. The descriptor's `stat` field is therefore not modelled.
- Stat values and limits are reals, because IEEE float rounding of the running weight is out of scope.
- `Log.Error` and `Utils.Warn` are side effects. They appear only as failure codes and reason tags.
- The lazy `yield` enumeration is modelled as eager construction of the output list.
- Transpiler: requires, as do `CopyToPriorityStore` and `CopyToComparison`, every `stloc.s` and `ldloc.s` operand in the whole list to be a local. The source casts only the operands that phases 2 and 3 examine (lines 78 and 87) to `LocalBuilder`, and the failing cast for any other operand is not modelled. The requirement is wider than those casts; Harmony hands these opcodes local-builder operands, so the wider requirement excludes no instruction list it produces.
- FiresSomewhereIff and ScanDecidedByTotals require non-negative weights. With a negative weight, the running total can exceed the cell limit part-way and drop back by the end, so whole-list totals would not decide the answer.
- The exception raised by the out-of-range read is not modelled beyond its outcome: `OutOfRange` carries the failure codes logged before it.
