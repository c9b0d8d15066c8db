# The inference server's scheduler, modelled in Dafny

This project models the parts of the InferFlux inference server in which requests,
KV blocks, sequence slots, sessions, queues, files, threads and model ids change
hands, and proves what the server relies on.

- **Ownership in unified mode** (`Ownership`, `OwnershipInvariant`, `OwnershipSteps`,
  `OwnershipCompletion`, `OwnershipRuns`, `OwnershipTheorems`, `Leases`, `Fences`,
  `FenceRun`, `Balance`). One state machine covers admission (session lease, radix
  lookup, block reservation, slot allocation with donor eviction, grant, prefill or
  deferral, every rollback), chunked prefill, decode, completion (session commit,
  prefix donation, release), aborts, expiry and retirement polling. The admission is
  cut into the worker's own steps, so retirement polling and session expiry may fall
  between any two of them. What the scheduler does not decide (free pages, the least
  recently used donor, pending fences, failing batches) is an argument of the step.
- **What each step leaves behind** (`AdmissionOutcomes`, `CompletionOutcomes`,
  `Turns`). For every step of that machine, exactly when it grants, refuses, keeps or
  gives back, and what request, session, donor, slot and counts are afterwards, told
  without the step's own branches; and across whole turns, that the next request of a
  session continues on its slot and one with a donated prefix shares its blocks.
- **KV prefix reuse** (`SequenceKv`, `PrefixReuse`). The backend is a map from
  sequences to resident tokens that refuses a batch whose first position is not the
  resident length, and may leave part of a failed batch behind. The deferred chunks of
  the ownership model run on either kind of decoder, refusing or overwriting.
- **The same operations in place** (`SlotLayer`, `PagedCache`): slot allocation,
  retirement polling, page selection and reference counting as loops over fields,
  proved equal to the steps of the state machine.
- **Sessions** (`Sessions`, `SessionRuns`), **batch building and fairness**
  (`BatchBuild`, `BatchQueues`), **bounded overtaking** (`Overtaking`), the **split
  hand-off** to decode workers (`Handoff`), **decode pause and resume**
  (`DecodeSteps`).
- **The policy store** (`PolicyText`, `PolicyStore`, `PolicyFiles`), the **thread
  tamer** (`Tamer`), **model ids** (`Router`), the **model registry** (`Registry`),
  the **dependency check** (`Dependencies`) and the **fallback tokenizer**
  (`Tokenizer`).

Four promises turn out to hold only under a condition; each has a lemma with the
exact condition and one with a failing case:

- A slot is not leased again before its release fence completes, if and only if the
  fence of an evicted donor is not pending: the eviction callback releases with
  generation 0, which drops the fence.
- A session has one holder, if and only if sessions are drained with no lease out.
- The split hand-off never times a packet out, if and only if there is at most one
  decode worker: a second worker's drain does not look into the first one's batch.
- A save survives a crash at every point, if and only if the first rename succeeds,
  or the target is not removed, or the backup holds the old or the new store.

Two more are exact characterisations, again with a failing case: which policy stores
survive Save and Load, and which thread creations stay transparent to affinity masks.

`dafny verify dfyconfig.toml` checks the whole project.

## Model

| member | source | states |
|---|---|---|
| `PrefixReuse.PrefillRefinesFullPrefill` | scheduler/scheduler.cpp:2492-2528 | For every prompt, donor, match length, trim outcome, batch outcome and chunk size, a prefill that succeeds leaves exactly the prompt resident in its sequence, and every other sequence as it was |
| `PrefixReuse.PrefillSucceedsIff` | scheduler/scheduler.cpp:2492-2528 | A prefill succeeds if and only if every batch of its step does, where the step replays only what is beyond the reused prefix, or every batch of the full prefill, or, when a prefix was reused and the step ended exactly where it ends, every batch of the partial prefill |
| `PrefixReuse.ResolveKeepsThePrefix` | scheduler/scheduler.cpp:129-161 | The reuse plan leaves the planned part of the prompt at the front of the target sequence, always keeps at least one token to replay, and touches no other sequence |
| `PrefixReuse.ReusedIff` | scheduler/scheduler.cpp:129-161 | Exactly when a prefix is reused (a session's own always, a donor's if its copy can be trimmed or nothing of it is kept), that the prefill then starts behind the match but before the last token, what the target then holds, and that a failed copy leaves it empty |
| `PrefixReuse.PhasedStepFillsTheSequence` | scheduler/scheduler.cpp:410-503 | From a sequence that starts with the planned prefix, a phased step leaves the whole prompt or, when it fails, some prefix of it, whether or not the trim worked |
| `PrefixReuse.StepSucceedsIff` | scheduler/scheduler.cpp:410-503 | A phased step succeeds if and only if the batches of its chunks do, as many as the part beyond the planned prefix needs, or as the whole prompt needs when the trim was lost |
| `PrefixReuse.FallbackFillsTheSequence` | scheduler/scheduler.cpp:2504-2528 | After a failed step, the partial prefill is accepted only where the sequence ends, and the full prefill starts clean, so success means the whole prompt |
| `PrefixReuse.FallbackSucceeds` | scheduler/scheduler.cpp:2504-2528 | The fallback succeeds if and only if every batch of the full prefill does, or a prefix was reused, the sequence ends where the prefill starts and every batch of the partial one does |
| `PrefixReuse.ChunksAppendTheRest` | scheduler/scheduler.cpp:446-493 | Chunked submission from a clean position appends exactly the rest of the prompt |
| `PrefixReuse.ChunksSucceedIff` | scheduler/scheduler.cpp:446-493 | From a clean position the chunks succeed if and only if each of their batches does, one batch per started cap tokens |
| `PrefixReuse.ChunksElsewhereAreRefused` | runtime/backends/llama/llama_cpp_backend.cpp:1163-1202 | Chunks that start anywhere else are refused at once and change nothing |
| `PrefixReuse.LogitsAskedOnce` | scheduler/scheduler.cpp:446-493 | In a tiling of the prompt, logits are asked for exactly once, on the chunk that ends it |
| `PrefixReuse.Backend.SubmitChunks` | scheduler/scheduler.cpp:446-493 | The chunk loop: every chunk is submitted at the resident length, holds one to cap tokens, and the chunks tile the prompt without gap or overlap |
| `PrefixReuse.Backend.ExecutePhasedPrefillStep` | scheduler/scheduler.cpp:410-503 | The step in place computes the specified KV and tiles the prompt from its restart point |
| `PrefixReuse.Backend.ResolvePrefixReuse` | scheduler/scheduler.cpp:129-161 | The reuse decision in place computes the specified plan, whose outcome `PrefixReuse.ReusedIff` gives exactly |
| `PrefixReuse.Backend.CopySequencePrefix` | runtime/backends/llama/llama_cpp_backend.cpp:1127-1159 | Clear, copy the whole source, trim; a trim that fails leaves the destination empty |
| `PrefixReuse.Backend.TruncateSequence` | runtime/backends/llama/llama_cpp_backend.cpp:1668-1691 | Keep a front part, or clear everything and report failure |
| `OwnershipTheorems.CountsAreOwners` | scheduler/scheduler.cpp:2326-2580 | In every reachable state each block's reference count is the number of references held by admitted requests, donated prefixes, retained sessions and the admission under way, which holds none between admissions |
| `OwnershipTheorems.ReleasesAreCovered` | scheduler/scheduler.cpp:3310-3406 | In every reachable state, mid-admission included, and for any distinct holders of one kind or several, each block's count is what they hold together plus what everybody else holds, so their releases never take what another holder relies on |
| `OwnershipTheorems.OneOwner` | scheduler/scheduler.cpp:3141-3308 | In every reachable state each sequence slot has exactly one owner: free, a live request, a donor, a retained session, a pending retirement, or the admission under way |
| `OwnershipTheorems.SlotsHoldTheirPrompts` | scheduler/scheduler.cpp:2326-2580 | In every reachable state, what a request has prefilled, what a donor offers and what a session kept is what their slots hold: reuse never serves other tokens |
| `OwnershipTheorems.TablesCoverThePrompt` | scheduler/scheduler.cpp:2326-2364 | In every reachable state an admitted request's block table covers its prompt with room for one more token |
| `OwnershipRuns.StepOwners` | scheduler/scheduler.cpp:2326-2580 | Every step of the state machine, with every outcome, keeps owners in place and references balanced |
| `OwnershipRuns.RunKeeps` | scheduler/scheduler.cpp:2326-2580 | So does every run |
| `OwnershipRuns.AdmitKeeps` | scheduler/scheduler.cpp:2418-2580 | A granted admission, deferred, prefilled or failed and given back, keeps the invariant |
| `OwnershipRuns.HitHolds` | scheduler/scheduler.cpp:2378-2417 | A radix or session hit that survived allocation still describes what the donor sequence holds when prefill starts |
| `OwnershipRuns.CompleteKeeps` | scheduler/scheduler.cpp:2954-3001 | Completion by session commit, donation or release keeps the invariant; what it leaves is in the rows of `CompletionOutcomes` |
| `OwnershipRuns.AbortKeeps` | scheduler/scheduler.cpp:3388-3406 | The error paths release exactly what the request holds |
| `OwnershipRuns.FinalizeKeeps` | scheduler/scheduler.cpp:3328-3386 | Finalizing a session lease hands the slot and references to the session or releases them, never both |
| `OwnershipSteps.FreshSlotKeeps` | scheduler/scheduler.cpp:2364-2417 | Allocating a slot, with retirements polled, donors evicted and the matched donor possibly retired, keeps the invariant |
| `OwnershipSteps.AllocateFrame` | scheduler/scheduler.cpp:3141-3183 | Slot allocation touches slots and donors only, a donor not reported retired is still there, and it fails only when no donor is left |
| `OwnershipSteps.AllocatePlaces` | scheduler/scheduler.cpp:3141-3183 | The donor-eviction loop ends, and a slot it hands out was nobody's |
| `OwnershipSteps.GrantBalances` | scheduler/scheduler.cpp:2450-2460 | Granting adds a reference on radix blocks and none on session blocks, whose reference passes to the request |
| `OwnershipSteps.RollbackPlaces` | scheduler/scheduler.cpp:2570-2580 | A failed admission gives its fresh slot back and leaves a reused session's slot alone |
| `OwnershipCompletion.DonateKeeps` | scheduler/scheduler.cpp:2954-3001 | Donation moves the slot to the trie node with its own references, retiring an older donor at that path |
| `OwnershipCompletion.CommitKeeps` | scheduler/scheduler.cpp:3338-3367 | A session commit moves slot and references from the request to the session |
| `OwnershipCompletion.GiveBackKeeps` | scheduler/scheduler.cpp:3369-3406 | Giving back releases the request's references and frees or retires its slot |
| `AdmissionOutcomes.BeginningAnAdmission` | scheduler/scheduler.cpp:2218-2286 | Taking a request up: exactly when it gets its session's lease, continues its session, shares a donor's prefix or starts cold, and exactly what is given up for it |
| `AdmissionOutcomes.BlocksForAPrompt` | scheduler/scheduler.cpp:2326-2335 | A table has the fewest 16-token blocks that cover the prompt and one block more; cached blocks count towards them |
| `AdmissionOutcomes.ReservingBlocks` | scheduler/scheduler.cpp:2326-2362 | Exactly the missing blocks are reserved, with one reference each, or none; nothing else changes |
| `AdmissionOutcomes.AllocatingASlot` | scheduler/scheduler.cpp:2364-2376 | A continued session keeps its own slot and lease; otherwise the lowest idle slot is taken under a new generation with no donor disturbed, and there is none only if no donor is in reach |
| `AdmissionOutcomes.AllocationFinds` | scheduler/scheduler.cpp:3141-3183 | With a donor in reach of the backend an allocation always finds a slot |
| `AdmissionOutcomes.RetiredAreGone` | scheduler/scheduler.cpp:3141-3183 | The slots reported retired are exactly donors', and those donors are gone |
| `AdmissionOutcomes.KeepingTheHit` | scheduler/scheduler.cpp:2377-2417 | A shared prefix is given up exactly if its donor had to go for the slot, and the blocks are then reserved anew for the whole prompt |
| `AdmissionOutcomes.AdmitsIff` | scheduler/scheduler.cpp:2418-2449 | A request goes on exactly if it has a slot and, unless the cached blocks suffice, new blocks |
| `AdmissionOutcomes.TurningAway` | scheduler/scheduler.cpp:2571-2580 | One that does not leaves everything as it was: its new blocks and a fresh slot are free again, a session's slot stays with its session |
| `AdmissionOutcomes.Admitting` | scheduler/scheduler.cpp:2418-2580 | If the batches let the prefill through, as `PrefixReuse.PrefillSucceedsIff` says, the request is admitted and its slot holds exactly its prompt; what it, its session and its donor hold then is stated completely |
| `AdmissionOutcomes.Deferring` | scheduler/scheduler.cpp:2462-2491 | A deferred prefill begins behind the reused part, which its slot holds |
| `AdmissionOutcomes.FailingToPrefill` | scheduler/scheduler.cpp:2545-2569 | In every other case it keeps nothing: its new blocks are free, a shared prefix loses the reference it gained, a session it continued is emptied, its slot is no longer live |
| `AdmissionOutcomes.PrefillingAChunk` | runtime/execution/batch_executor.cpp:1286-1370 | A chunk the decoder takes brings a deferred prefill on by exactly its tokens and ends it with the prompt; one not taken leaves it where it was |
| `AdmissionOutcomes.DecodingAToken` | runtime/execution/batch_executor.cpp:1529-1822 | A decoded token is appended to the request's own sequence and nothing else changes |
| `CompletionOutcomes.CompletingAHolder` | scheduler/scheduler.cpp:3328-3386 | A successful turn leaves in its session exactly that request's slot, generation, prompt and blocks, with slot and KV untouched; a failed one leaves nothing, gives its references back and its lease is dead; one that never ran leaves what was there; nobody else is touched |
| `CompletionOutcomes.AbortingAHolder` | scheduler/scheduler.cpp:3388-3406 | The same on the error paths |
| `CompletionOutcomes.CompletingADonor` | scheduler/scheduler.cpp:2954-3001 | A prefilled request of 32 tokens or more that the trie takes is afterwards the donor at its prompt, with its own slot and blocks; its references become the node's and an earlier donor there is gone with its own |
| `CompletionOutcomes.CompletingAPlainRequest` | scheduler/scheduler.cpp:2954-3001 | Any other request without a session gives back exactly its references and its slot, and nobody else is touched |
| `CompletionOutcomes.AbortingAPlainRequest` | scheduler/scheduler.cpp:3388-3406 | So does every one that is aborted |
| `CompletionOutcomes.EvictedGo` | server/main.cpp:1625-1634 | The donors an insertion evicts are gone, and no reference is gained |
| `CompletionOutcomes.ExpiringASession` | scheduler/scheduler.cpp:3310-3326 | An idle session that expires is gone, with its references and its lease |
| `CompletionOutcomes.FreeingASlot` | scheduler/scheduler.cpp:3219-3308 | A lease is freed if and only if its generation is current or none is named; the KV is cleared where there is a backend, a pending fence is recorded and holds a named lease's slot back; a stale lease changes nothing |
| `CompletionOutcomes.PollingFrees` | scheduler/scheduler.cpp:3185-3217 | Polling frees exactly the retiring slots whose fence is ready, and drops exactly their fences and leases |
| `Turns.WhoFindsPagesAndASlotIsServed` | scheduler/scheduler.cpp:2326-2580 | In every reachable state and for every request: given pages for what is missing, an idle slot or its session's own, and batches that let the prefill through, a whole admission ends with the request prefilled on that slot, which holds its prompt, with the cached and the picked blocks |
| `Turns.TheNextTurnContinues` | scheduler/scheduler.cpp:3338-3367 | After a successful turn, the next request of the session whose prompt goes on from it runs on the same slot and lease, with the same blocks and only the missing ones picked |
| `Turns.TheNextRequestShares` | scheduler/scheduler.cpp:2954-3001 | After a donation, a request that goes on from the donated prompt shares its blocks, picks only the missing ones, runs on a slot of its own, and the donor keeps its prefix |
| `OwnershipInvariant.Update` | scheduler/scheduler.cpp:2326-2580 | The rule behind every step: in order before, alone on its slot, unchanged elsewhere, settled after, hence in order after |
| `OwnershipInvariant.Rebalanced` | runtime/kv_cache/paged_kv_cache.cpp:22-98 | A step that changes the tables of some holders and the counts by the same amount keeps the balance |
| `Balance.SumChanges` | runtime/kv_cache/paged_kv_cache.cpp:22-98 | Changing one holder's table changes the total of references by exactly that |
| `Leases.StaleFreeDoesNothing` | scheduler/scheduler.cpp:3219-3308 | After any run, freeing a lease that has died changes nothing: not the backend's KV, not the slot, not its new owner |
| `Leases.RunForward` | runtime/scheduler/sequence_slot_manager.cpp:91-232 | Over every run generations never fall, and within a generation a lease given up is not taken up again |
| `Leases.FreeKills` | scheduler/scheduler.cpp:3219-3308 | Freeing a lease kills it, pending fence or not |
| `Fences.FencedSlotsAreNotLeased` | scheduler/scheduler.cpp:3185-3308 | On every run whose evictions have no pending fence, a slot with a pending fence is retiring and is not the next one leased |
| `Fences.EvictionGuardsIffQuiet` | server/main.cpp:1625-1634 | Evicting a donor keeps every pending fence guarded if and only if its own fence is not pending |
| `FenceRun.AFencedSlotIsLeased` | scheduler/scheduler.cpp:3231-3239 | Eleven steps from a fresh scheduler lease a slot whose release fence is still pending |
| `FenceRun.PendingEvictionLeasesAFencedSlot` | scheduler/scheduler.cpp:3150-3172 | Under slot pressure an eviction with a pending fence always leases that donor's slot |
| `SlotLayer.Slots.AllocSeqSlot` | scheduler/scheduler.cpp:3141-3183 | The acquire-or-evict loop in place is the allocation of the state machine, for whatever victims are chosen |
| `SlotLayer.Slots.Poll` | scheduler/scheduler.cpp:3185-3217 | The erase-while-iterating loop retires exactly the leases whose fence is ready and keeps the others in order |
| `SlotLayer.PendingInOrder` | scheduler/scheduler.cpp:3185-3217 | The retirements still pending are read off the list at increasing places, exactly those whose slot is not ready |
| `SlotLayer.Slots.Free` | scheduler/scheduler.cpp:3219-3308 | The release in place, validated before the backend is touched, is the release of the state machine |
| `SlotLayer.Slots.RetireLease` | runtime/scheduler/sequence_slot_manager.cpp:164-206 | A lease retires if and only if its generation is current and its slot live |
| `SlotLayer.Slots.FindFreeSlot` | runtime/scheduler/sequence_slot_manager.cpp:408-422 | The lowest idle slot the backend can index, or none |
| `PagedCache.Cache.ReserveBlocks` | runtime/kv_cache/paged_kv_cache.cpp:70-87 | The state machine's reservation in place: it succeeds if and only if enough pages are free, hands out distinct free pages with one reference each, and a failure leaves every count as it was |
| `PagedCache.Cache.ReleaseBlocksRef` | runtime/kv_cache/paged_kv_cache.cpp:40-60 | The state machine's release in place: for any list of blocks it is multiset difference, unknown pages are ignored and no count goes below zero |
| `PagedCache.Cache.AcquireBlocks` | runtime/kv_cache/paged_kv_cache.cpp:360-367 | Adds one reference per occurrence to pages in use and none to others, so on referenced blocks it is the state machine's acquisition |
| `PagedCache.Cache.SelectEvictionCandidate` | runtime/kv_cache/paged_kv_cache.cpp:211-246 | A free page by the cache's policy, none exactly when no page is free: by age the last of the least recently used, by clock the one due first |
| `PagedCache.Cache.SelectByClock` | runtime/kv_cache/paged_kv_cache.cpp:215-236 | Two turns of the hand always find a free page if there is one; it is the one with the fewest steps ahead of the hand, a set reference bit costing a whole turn; the hand stops behind it and exactly the free pages passed lose their bits |
| `PagedCache.Cache.NumFreeBlocks` | runtime/kv_cache/paged_kv_cache.cpp:335-344 | The count of the state machine's free blocks |
| `SessionRuns.OneHolderPerSession` | scheduler/session_handle_manager.cpp:35-166 | On every run with orderly drains: at most one holder per session, exactly the held entries in use, every idle entry keeps a state, every entry expires one lifetime after its last use, the count within max_sessions |
| `SessionRuns.HeldEntriesStay` | scheduler/session_handle_manager.cpp:20-153 | A held entry is never evicted, expired or handed to another holder |
| `SessionRuns.NoStateIsCleanedTwice` | scheduler/session_handle_manager.cpp:35-166 | On every run, drains included, a state committed once is given out for cleanup at most once and offered by no entry afterwards |
| `SessionRuns.RunAccounts` | scheduler/session_handle_manager.cpp:35-166 | Every committed state is kept, given out, or given up by its holder, each exactly as often as it was committed |
| `SessionRuns.DrainKeepsIffNothingHeld` | scheduler/session_handle_manager.cpp:155-166 | Draining keeps the lease invariant if and only if no lease is out |
| `SessionRuns.DrainAdmitsASecondHolder` | scheduler/session_handle_manager.cpp:155-166 | After a drain with leases out, any held session can be acquired at once by a second holder |
| `SessionRuns.DrainBreaksExclusion` | scheduler/session_handle_manager.cpp:155-166 | A drain between two acquisitions gives one session two holders |
| `SessionRuns.SweepKeeps` | scheduler/session_handle_manager.cpp:138-153 | The collection removes exactly the idle entries whose time is over and leaves every other entry as it was |
| `SessionRuns.CollectedIff` | scheduler/session_handle_manager.cpp:138-153 | In every state a run reaches with orderly drains, a collection takes an entry if and only if nobody holds it and it was last used a lifetime ago or more |
| `SessionRuns.CommittedComesBack` | scheduler/session_handle_manager.cpp:35-104 | A committed state is what the next holder is given while its time lasts; from then on it is given out for cleanup; either way the lease is granted |
| `SessionRuns.ReleasedStaysOrGoes` | scheduler/session_handle_manager.cpp:106-136 | A holder that releases leaves the state it was given, for one more lifetime; one that discarded it leaves no entry |
| `Sessions.AcquireIff` | scheduler/session_handle_manager.cpp:35-89 | Exactly who gets a lease, which state comes with it and which states are to be cleaned up, whose entry is evicted, and that nothing else changes |
| `Sessions.Manager.FindEvictionCandidate` | scheduler/session_handle_manager.cpp:20-33 | The first idle entry in enumeration order that no idle entry is older than; none exactly when all are held |
| `Sessions.Manager.AcquireLease` | scheduler/session_handle_manager.cpp:35-89 | Acquisition in place: new entry, eviction when full, busy, expired state, kept state |
| `Sessions.Manager.CollectExpired` | scheduler/session_handle_manager.cpp:138-153 | The erase-while-iterating sweep computes the specified collection and returns the states it removed |
| `Sessions.Manager.ReleaseLease` | scheduler/session_handle_manager.cpp:106-123 | An entry without a state disappears, one with a state becomes idle |
| `Sessions.Manager.DrainAll` | scheduler/session_handle_manager.cpp:155-166 | Draining in place empties the table and returns every kept state |
| `BatchQueues.BatchesAreMaximal` | scheduler/scheduler.cpp:2033-2075 | At most max_batch_size requests; cost, as `BatchBuild.PrefillCosts` and `BatchBuild.DecodeCosts` give it, within max_batch_tokens unless a single oversized request; not empty while anything is queued; and if not full, everything left behind would overflow the budget |
| `BatchQueues.PromptsFitTheBudget` | scheduler/scheduler.cpp:2033-2075 | A batch of several brings in no more prompt tokens, with one more for every decode, than max_batch_tokens |
| `BatchQueues.BatchesConserveRequests` | scheduler/scheduler.cpp:1920-1961 | After building a batch every pending request is in exactly one place once, and nothing else is anywhere |
| `BatchQueues.LeftInOrder` | scheduler/scheduler.cpp:2077-2102 | What stays in a queue is read off it at increasing places, each the first place of its request |
| `BatchBuild.SelectionFacts` | scheduler/scheduler.cpp:2011-2075 | The batch keeps the ranking, starts with a request nobody outranks, and whoever is left behind faced a full batch of requests it does not outrank or overflowed the budget behind such requests |
| `BatchBuild.RankFacts` | scheduler/scheduler.cpp:2011-2031 | The ranking is a sorted permutation of the queue items |
| `BatchBuild.CostPredictsTheTimeslice` | scheduler/scheduler.cpp:327-378 | The decode charge made before the fairness pass is the one its slice implies, and never exceeds the remaining budget; the charges themselves are in the next two rows |
| `BatchBuild.PrefillCosts` | scheduler/scheduler.cpp:344-350 | A prefill is charged its prompt width, and a stateless one its whole decode budget too |
| `BatchBuild.DecodeCosts` | scheduler/scheduler.cpp:352-377 | A decode is charged the smallest of its bounds (max_tokens, what remains, its slice, the slice to come), and at least one token |
| `BatchBuild.TimesliceFacts` | scheduler/fairness_controller.cpp:54-74 | The fairness pass slices exactly the requests below the threshold, to the smaller of the slice and what remains, and changes nothing else |
| `BatchBuild.OutranksIff` | scheduler/batch_selection_policy.cpp:12-42 | One priority level is worth 2000 ms of waiting, or 32 or 64 tokens of shared prefix by the policy; the earlier arrival wins a tie |
| `BatchQueues.Queues.BuildBatch` | scheduler/scheduler.cpp:1913-2102 | Scan, dedup, rank, select and erase by index, in place: the selected batch, and queues holding the first occurrences of the rest in order |
| `BatchQueues.Queues.Scan` | scheduler/scheduler.cpp:1936-1961 | One pass finds the first occurrences of pointers not seen before, and the indices of all others |
| `BatchQueues.Queues.Select` | scheduler/scheduler.cpp:2033-2075 | The greedy loop computes the specified selection and its total cost |
| `BatchQueues.EraseIndices` | scheduler/scheduler.cpp:2077-2086 | Sorting, deduplicating and erasing from the back removes exactly the listed positions |
| `BatchQueues.SwapsRaiseThePriority` | scheduler/fairness_controller.cpp:16-50 | A swap happens exactly when preemption is on and some queued request at or above the threshold outranks some batched one; it brings in a highest and takes out a lowest |
| `BatchQueues.EvaluateFairness` | scheduler/fairness_controller.cpp:16-50 | First largest of the queue against first smallest of the batch |
| `BatchQueues.SwapConserves` | scheduler/scheduler.cpp:3111-3137 | The swap neither loses nor duplicates a request, wherever the two come from |
| `BatchQueues.Queues.ApplyFairness` | scheduler/scheduler.cpp:3047-3139 | The swap in place: one exchange, the displaced request at the back of its phase's queue, all other order kept |
| `BatchQueues.Queues.Requeue` | scheduler/scheduler.cpp:3009-3016 | Yielded requests join the end of the decode queue in order |
| `BatchQueues.StickyAppendFacts` | scheduler/scheduler.cpp:1060-1087 | As many compatible requests join as fit; those that join and those that stay are read off the queue at increasing places that together are all places; no compatible request that stays is ahead of one that joins; nobody is lost or doubled |
| `BatchQueues.Queues.AppendCompatible` | scheduler/scheduler.cpp:1060-1087 | The erase-while-iterating append computes that |
| `Overtaking.SelectedInBoundedTime` | scheduler/batch_selection_policy.cpp:12-20 | A request of priority p enqueued at t is selected after no more batches than there are enqueue events stamped at or before t + 2000 (P - p) ms, on every run |
| `Overtaking.RankingIgnoresTime` | scheduler/batch_selection_policy.cpp:14-17 | The ranking of two queued requests never changes with time |
| `Overtaking.StepSpends` | scheduler/scheduler.cpp:2011-2075 | A batch that leaves a request waiting takes one of its rivals; an arrival adds at most one |
| `Overtaking.EnqueueJoins` | scheduler/scheduler.cpp:1790-1797 | A request not queued yet joins the end of its queue as it is, and one already queued changes nothing |
| `Handoff.OneWorkerCommitsEveryPacket` | scheduler/scheduler.cpp:1231-1386 | With at most one decode worker, in every interleaving: no packet with a position times out, no ticket is decided twice, and with nothing in flight every accepted packet is decided; where every request then is, for any number of workers, is `Handoff.NobodyIsLost` |
| `Handoff.NobodyIsLost` | scheduler/scheduler.cpp:1231-1704 | On every run with any number of workers, every accepted request is in exactly one place (being published, waiting, in one worker's batch, finished), and a rejected one is in none |
| `Handoff.NobodyIsStuck` | scheduler/scheduler.cpp:1231-1704 | With one worker, whatever has happened, a waiting request can still be taken up, decided and finished |
| `Handoff.DecidedInOrder` | scheduler/scheduler.cpp:1289-1386 | With one worker packets are decided in the order they were sent, and the channel never holds more than its capacity |
| `Handoff.ExecuteSorts` | scheduler/scheduler.cpp:1643-1704 | A decode step sends the yielded back to the queue, retires the finished and keeps the others in the batch |
| `Handoff.TakingAndPublishing` | scheduler/scheduler.cpp:1231-1260 | A worker moves exactly the requests it picked from the queue to its batch; registering precedes sending, and a published request waits |
| `Handoff.AcceptedIffRoom` | runtime/disaggregated/kv_channel.cpp:43-54 | A packet is accepted, at the end, if and only if the channel has room |
| `Handoff.CommittedBeforeTheFirstStep` | scheduler/scheduler.cpp:2614-2648 | A request's packet is committed before its first decode step |
| `Handoff.SafeIffOneWorker` | scheduler/scheduler.cpp:1352-1376 | No packet ever times out, over all runs, if and only if there is at most one decode worker |
| `Handoff.TwoWorkersTimeOutAPacket` | scheduler/scheduler.cpp:1352-1376 | With two workers a seven-step run times out the packet of a request in the other worker's batch |
| `Handoff.MatchKeeps` | scheduler/scheduler.cpp:1351-1384 | With one worker the packet's request is always in one of the three registries, so the verdict is commit exactly for packets with a position |
| `Handoff.SendKeeps` | runtime/disaggregated/kv_channel.cpp:43-54 | Sending after registering keeps every packet in flight matched to a known request |
| `DecodeSteps.ResumeRestores` | scheduler/scheduler.cpp:565-679 | Sync, reset and prime restore token count, limit, text and current token of a continuing decode, which still continues |
| `DecodeSteps.ReportedTokensWithinMax` | scheduler/scheduler.cpp:714-742 | Over any run of steps, pauses and resumes, reported completion tokens never exceed max_tokens |
| `DecodeSteps.ReportedTokensAreShown` | scheduler/scheduler.cpp:714-742 | Over any run of steps, pauses and resumes, the completion tokens reported are the visible pieces shown, no more and no fewer |
| `DecodeSteps.TheFirstPieceCounts` | scheduler/scheduler.cpp:581-654 | The token a prefill produced is emitted when its decode begins: a visible piece counts as one token, and exactly a stop string, the limit or a cancellation ends the request there |
| `DecodeSteps.WithoutAFirstTokenItPrefills` | scheduler/scheduler.cpp:581-654 | Without a first token a request prefills from the start or from where its prefill stands; with neither it is in error and does not run |
| `DecodeSteps.DecodingOne` | runtime/execution/batch_executor.cpp:1529-1822 | The token is the next input, a visible piece is appended, and the request stops exactly at a stop string, its limit, too many silent steps, a cancellation or a bad token |
| `DecodeSteps.PrefillingOne` | runtime/execution/batch_executor.cpp:1529-1822 | A chunk goes on by as many tokens as fit; the last one's token starts the decode; a failed one ends the request |
| `DecodeSteps.PrefillingNothing` | runtime/execution/batch_executor.cpp:1529-1822 | With nothing left to prefill, or no room for it, a request goes on to decode |
| `DecodeSteps.PausingKeepsProgress` | scheduler/scheduler.cpp:667-679 | A pause folds text, count, remaining budget and next token back into the request |
| `DecodeSteps.StepKeeps` | runtime/execution/batch_executor.cpp:1529-1822 | Every prime, decode, prefill chunk (also one with no token left to send) or pause keeps the counts within the limit and room for a pending first token |
| `DecodeSteps.Request.PrimeStep` | scheduler/scheduler.cpp:581-654 | Priming in place, all branches |
| `DecodeSteps.Request.SyncProgress` | scheduler/scheduler.cpp:667-679 | Folding progress back in place |
| `PolicyStore.RoundTripIffClean` | policy/policy_store.cpp:223-246 | For every order in which keys are printed, a store survives Save and Load if and only if its keys, words, scopes and scope name are clean and no key prints as a section header |
| `PolicyStore.ParsedIsReadable` | policy/policy_store.cpp:152-214 | Whatever the text, what Load reads has clean keys, words, rate and scope name |
| `PolicyStore.PrintedForm` | policy/policy_store.cpp:223-246 | The text that is saved, section by section |
| `PolicyStore.IgnoredLines` | policy/policy_store.cpp:152-214 | Blank lines, comments, lines without an equals sign and keys their section does not have say nothing |
| `PolicyStore.LastLineWins` | policy/policy_store.cpp:152-180 | The last line for an API key wins, and its scopes are a list |
| `PolicyStore.FlagsParse` | policy/policy_store.cpp:69-80 | A flag is any of six words in any case; any other word leaves it as it was |
| `PolicyStore.RoutingDefaults` | policy/policy_store.cpp:187-209 | A routing section that names only a scope allows the default fallback and does not require readiness; a text without one has no routing |
| `PolicyStore.HeaderKeyIsLost` | policy/policy_store.cpp:167-170 | A key whose line looks like a section header is never read back |
| `PolicyStore.LoadedSurvivesIffNoHeader` | policy/policy_store.cpp:152-246 | Whatever the text, what Load read survives the next Save and Load if and only if none of its keys prints as a section header |
| `PolicyStore.ReadKeyIsLost` | policy/policy_store.cpp:152-246 | Every clean key and scopes that print as a header can be read from a file, from a line with a comma too many, and the next Save and Load lose that key |
| `PolicyStore.ABracketedKeyIsLost` | policy/policy_store.cpp:167-170 | The line `[x=y],` under `[api_keys]` is such an input |
| `PolicyStore.Load` | policy/policy_store.cpp:152-214 | The line loop computes the specified parse |
| `PolicyText.SplitJoinIffClean` | policy/policy_store.cpp:105-127 | A list survives joining and splitting if and only if its words are non-empty, trimmed and comma-free |
| `PolicyText.Split` | policy/policy_store.cpp:105-116 | The splitting loop drops empty pieces and trims the others |
| `PolicyText.Join` | policy/policy_store.cpp:118-127 | The joining loop puts a comma between words and nowhere else |
| `PolicyText.PiecesAre` | policy/policy_store.cpp:105-116 | What is before the first separator is a piece, a text without one is a single piece, and nothing has no pieces |
| `PolicyText.DecodeUndoesEncode` | policy/policy_store.cpp:31-66 | Hexadecimal decoding undoes encoding |
| `PolicyText.HexDecode` | policy/policy_store.cpp:42-66 | Odd length or a bad digit decodes to nothing, anything else pairwise |
| `PolicyText.HexEncode` | policy/policy_store.cpp:31-40 | Two lower-case digits per byte |
| `PolicyText.HexIs` | policy/policy_store.cpp:42-66 | Byte i is the two digits at 2i, of either case, the high half first |
| `PolicyText.ParseOfPrintInt` | policy/policy_store.cpp:181-186 | A printed 32-bit number parses to itself |
| `PolicyText.ParsedNumbers` | policy/policy_store.cpp:181-186 | An optional sign and digits give the number whatever follows them; without digits, or out of a 32-bit range, 0 |
| `PolicyText.TrimFacts` | runtime/string_utils.h:20-27 | Trimming trims, keeps only characters that were there, and leaves exactly the trimmed strings alone |
| `PolicyText.TrimTakesBlanks` | runtime/string_utils.h:20-27 | Exactly the spaces, tabs and line ends at both ends go |
| `PolicyFiles.CrashSafeIff` | policy/policy_store.cpp:254-297 | Stopping after any prefix of a save's file steps, Load reads the old or the new store, if and only if the save never reached the renames, the first rename succeeds, the target is not removed, or the backup serves |
| `PolicyFiles.SaveThenLoad` | policy/policy_store.cpp:254-297 | A successful save is read back, the first one too; after a failed one with a finished backup the old store is read |
| `PolicyFiles.SavedStoreIsLoaded` | policy/policy_store.cpp:217-292 | A clean store that was saved is the store that is loaded |
| `PolicyFiles.AFirstSaveIsSafe` | policy/policy_store.cpp:254-297 | A save where there was no file can be interrupted anywhere: what is read is what was read before, or the new store |
| `PolicyFiles.AnOldBackupComesBack` | policy/policy_store.cpp:271-292 | A failed copy, a failed rename and a removed target let an older backup be loaded |
| `PolicyFiles.Files.Save` | policy/policy_store.cpp:254-297 | The file operations in place: temporary file, backup, renames, clean-up, and the result |
| `Tamer.TreesAreTransparent` | runtime/rocr_spin_tamer.cpp:260-356 | Over any tree of sound creations every unpinned thread has the mask it would have had without the tamer, and every tamed one is pinned to one allotted CPU of that mask, which it saved; which ones are pinned is the next row |
| `Tamer.TreesPinRuntimeThreadsOnly` | runtime/rocr_spin_tamer.cpp:252-330 | Over any tree of sound creations, each thread is pinned if and only if the runtime created it, there is a core, its mask has an allotted CPU and the system grants it; it is then pinned to the core if its mask has it; every other thread keeps the mask it asked for or its creator's |
| `Tamer.PinnedIff` | server/rocr_pthread_interposer.cpp:76-134 | The same for one creation |
| `Tamer.CreationIsTransparentIffUnambiguous` | server/rocr_pthread_interposer.cpp:76-134 | With memory and affinity calls granted, a creation is transparent if and only if its attribute does not name exactly the pinned creator's CPU while the creator's own mask is wider |
| `Tamer.WithoutABoxThePinLeaks` | server/rocr_pthread_interposer.cpp:114-134 | Without memory for the box the pin leaks if and only if the creator is pinned, no attribute is given and the pin was not its whole mask |
| `Tamer.RuntimeThreadsArePinned` | runtime/rocr_spin_tamer.cpp:260-330 | A runtime thread that may use the core is pinned to it, otherwise to an allotted CPU of its mask |
| `Tamer.ACloneOfThePinIsWidened` | runtime/rocr_spin_tamer.cpp:150-154 | An attribute cloned from the pin widens the child to its creator's mask |
| `Tamer.ChooseMaskCore` | runtime/rocr_spin_tamer.cpp:34-59 | No core with fewer than two CPUs; a digits-only setting that names an allotted CPU wins; otherwise the highest |
| `Tamer.RequestedIs` | runtime/rocr_spin_tamer.cpp:34-59 | A setting names the CPU its digits spell, and none if it is empty, has another character or does not fit an int |
| `Tamer.FindTarget` | runtime/rocr_spin_tamer.cpp:277-291 | The core if the thread may use it, else the highest CPU of its mask that is allotted, else none |
| `Router.EnsureUniqueId` | scheduler/single_model_router.cpp:770-780 | The suffix search ends with the first unused candidate after at most one more probe than there are used ids |
| `Router.CandidateNames` | scheduler/single_model_router.cpp:770-780 | The candidates are the name, then the name with 1, 2 and so on behind a dash; a model without a name is called model |
| `Router.StepKeeps` | scheduler/single_model_router.cpp:174-258 | Every locked section, and every request taking or dropping a backend, keeps live and retired ids disjoint and the default live exactly when any model is, makes live only ids never used before, and leaves a live id with its model or retires it |
| `Router.SectionsTakeEffect` | scheduler/single_model_router.cpp:174-258 | A registration or load that is not refused makes its id live with its model; an idle model is unloaded and retired; a busy one stays |
| `Router.DefaultFollows` | scheduler/single_model_router.cpp:625-740 | The first model, one loaded as the default or one named becomes the default; nothing else moves it except unloading it |
| `Router.IdsAreNeverReused` | scheduler/single_model_router.cpp:662-679 | On every run an id once used stays the same model's until it is retired, and a retired id stays retired and is never live again |
| `Router.DefaultIsLive` | scheduler/single_model_router.cpp:786-795 | On every run the default is a live model exactly when any model is live, and empty otherwise |
| `Router.Models.RegisterModel` | scheduler/single_model_router.cpp:174-258 | Registration in place: refused for a used id, otherwise a fresh id |
| `Router.Models.CommitLoadedModel` | scheduler/single_model_router.cpp:625-644 | The commit of a load assigns an id that was never live |
| `Router.Models.UnloadModel` | scheduler/single_model_router.cpp:662-679 | Unloads an idle model, retires its id and moves the default to a live model if there is one |
| `Router.Models.SetDefaultModel` | scheduler/single_model_router.cpp:730-740 | The default changes exactly when the named model is live |
| `Registry.ModelRegistry.ApplyEntries` | scheduler/model_registry.cpp:103-177 | A rejected pass changes nothing and calls nothing; otherwise managed paths are the kept, the not unloadable and the newly loaded ones, the result is the change in size, and the router is not called exactly when the managed paths were the wanted ones |
| `Registry.ModelRegistry.Collect` | scheduler/model_registry.cpp:103-122 | The scan rejects exactly the lists in which some entry repeats the path, the given id or the artifact of one before it |
| `Registry.CallsAre` | scheduler/model_registry.cpp:123-177 | The router is asked to unload exactly the managed paths that are not wanted, and then to load exactly the wanted ones that are not managed, each once and in order |
| `Registry.DuplicatesAre` | scheduler/model_registry.cpp:103-122 | A list is rejected if and only if two entries name the same path, the same id or the same artifact |
| `Registry.SecondPassIsQuiet` | scheduler/model_registry.cpp:103-177 | After a fully successful pass the same entries are accepted again and ask nothing of the router |
| `Dependencies.Checker.Validate` | scripts/check_planning_artifacts.py:76-99 | Passes if and only if every dependency is known and the graph has no cycle, self-edges included; a reported path ends in a genuine cycle |
| `Dependencies.Checker.Visit` | scripts/check_planning_artifacts.py:86-96 | The search ends, restores the visiting set, and visits everything below or reports a genuine cycle |
| `Dependencies.TopologicalMeansAcyclic` | scripts/check_planning_artifacts.py:76-99 | An order in which dependencies come first excludes every cycle |
| `Tokenizer.RoundTrip` | model/tokenizer/simple_tokenizer.cpp:52-85 | Decoding what was encoded, with the vocabulary of then or of any later time, gives a text with the same words, so doing it again changes nothing |
| `Tokenizer.WordsOfJoin` | model/tokenizer/simple_tokenizer.cpp:27-50 | Splitting the joined text of words gives the words back |
| `Tokenizer.EncodingFacts` | model/tokenizer/simple_tokenizer.cpp:16-66 | Encoding keeps the tables inverse, never changes an assigned id, and names each word by an id above the reserved ones |
| `Tokenizer.EncodingsBegin` | model/tokenizer/simple_tokenizer.cpp:52-66 | An encoding starts with id 1 and has one id for each word in order; a text without words has none |
| `Tokenizer.WordsAre` | model/tokenizer/simple_tokenizer.cpp:27-50 | Letters and digits in a row are one word, in lower case; a space separates; any other character separates and is a word itself |
| `Tokenizer.Characters` | model/tokenizer/simple_tokenizer.cpp:27-50 | The characters of words, the six spaces, and their lower case |
| `Tokenizer.SilentIds` | model/tokenizer/simple_tokenizer.cpp:68-85 | Ids that name nothing, and the begin token, leave no trace wherever they stand |
| `Tokenizer.SpokenIds` | model/tokenizer/simple_tokenizer.cpp:68-85 | Every other id is spelled out, the end token too |
| `Tokenizer.JoinedBySpaces` | model/tokenizer/simple_tokenizer.cpp:68-85 | Words are joined by single spaces, but none before a closing mark |
| `Tokenizer.Tokenize` | model/tokenizer/simple_tokenizer.cpp:27-50 | The scanning loop computes the specified words |
| `Tokenizer.SimpleTokenizer.Encode` | model/tokenizer/simple_tokenizer.cpp:52-66 | Encoding in place over the growing vocabulary |
| `Tokenizer.SimpleTokenizer.Decode` | model/tokenizer/simple_tokenizer.cpp:68-85 | Decoding in place, unknown ids skipped, spaces before everything but closing marks |
| `Tokenizer.SimpleTokenizer.AddToken` | model/tokenizer/simple_tokenizer.cpp:16-25 | Adds a word once and keeps the tables inverse |

## Left out

- The bodies of the compute backends; they enter as a map of resident tokens with failing trims and batches. The partial and full prefill fallbacks re-tokenize the prompt text, which is taken to give the same tokens.
- Host swapping of blocks, cross-process KV blobs and the native context-overflow exit; the ownership statements are about unified mode without them.
- The radix trie's shape: a donor is its whole token path, a lookup offers some donor whose path starts the prompt, and an insertion may evict any donors. Deferred prefill needs asynchronous batches, which no backend in the repository supports (`SupportsAsyncUnifiedBatch` is false in runtime/backends/llama/llama_cpp_backend.cpp:1423 and runtime/backends/cuda/inferflux_cuda_executor.cpp:3771-3780, 3877); its chunk step is modelled for a checking and an overwriting decoder, and on a checking one a reused session's decoded tail makes every chunk be refused.
- `Ownership` abstracts the session table to who holds an entry and what it keeps; `Sessions` models the table itself with times and enumeration order.
- In `BatchBuild`, swapped-out requests and the decode-worker variant in which the worker builds prefill batches only.
- In `Handoff`, timed waits, rejected packets' retry counters and the worker's choice of batch beyond which requests it takes.
- In `DecodeSteps`, log probabilities, stop-string matching and UTF-8 assembly; what appending a piece does to the text is an argument.
- In `PolicyStore` and `PolicyFiles`, encryption, permissions and directory creation.
- In `Tamer`, thread names, counters, cancellation state and failing reads of a thread's own mask.
- In `Router`, readiness, capabilities and backend selection; a model is a path and whether a request holds its backend, which requests change between the locked sections.
- Floating-point rounding: scores and time stamps are reals. Metrics, logging, tracing, shutdown draining and thread wake-ups.
- PrefixReuse.ChunksElsewhereAreRefused: does not hold of a decoder without a position check, such as the CUDA executor, which writes at the position it is given; the refusal is a property of the modelled backend. Only the partial-prefill fallback relies on it, which the native GPU backends delegate to another backend (runtime/backends/native/native_gpu_backend.cpp:331-339): `PrefixReuse.Backend.SubmitChunks` shows that the phased step itself never submits a chunk anywhere but at the resident length.
- DecodeSteps.ResumeRestores: does not restore the count of silent steps, because the code does not: the count of consecutive silent steps starts over at one, as in the code, so a request paused often can take more silent steps than one that is not.
