# The stores and loops of the swarm, modelled and proved

This project models the stateful core of the agent swarm in `dharma_swarm/`: the evolution
archive with its MAP-Elites grid, the reciprocity ledger, the two tiered memories, the bounded
completion loops with their acceptance gate, belief learning, and the agent registry. Each store
has a specification in functions (`Step`, `Run`, over a datatype of operations), laws about
every run of it, and, where the original updates objects in place, a class whose methods are
proved to take exactly the step the specification says.

`dafny verify dfyconfig.toml` checks everything.

How things are represented: floats are `real`, times are `int` (seconds), JSON is the identity,
SQLite tables are sequences of rows, a Python `dict` is a sequence of key/value pairs in
insertion order (`OrderedDict.dfy`), and digests are functions nothing is known about. Providers,
tools, assessors and text heuristics are arbitrary functions of everything that happened before.
Every lemma switches Dafny's automatic induction off, so that its body is its proof.

## What is proved

- **Archive.** After every run of adding (fresh ids), status changes, rollback, compaction,
  reconfiguration and reloading, the grid holds, in every cell, the earliest of the fittest
  entries that fall there; and reloading the file restores entries and grid as they are in memory.
  A cell comes from a specification that never mentions insertion, so incremental insertion and
  rebuilding agree because both meet it.
- **Reused ids.** `add_entry` under an id in use can leave a stale occupant in the grid. The exact
  condition under which it does not is stated and proved in both directions.
- **Diversity.** Greedy farthest-point sampling has at least half the best possible spread, over
  every equally large choice of cells. Working with squares, the factor is four.
- **Cells.** Which coordinates a bin holds, which axis a cell reads from where, and when two entries
  share one, is stated by intervals.
- **Forgetting.** Compaction leaves the first m - k results of `get_best` unchanged, and composts
  exactly the old, childless entries below the threshold; old, childless and below are said in terms
  of the entries alone.
- **Approval.** Without approval no run with fresh ids changes the sequence of fitness-bearing
  entries that move the archive; the one step that could do so is characterised in both directions.
- **Ledger.** Every run keeps the chain verifying; two verifying chains with the same head agree,
  or a digest collision is exhibited; tables are last-writer-wins folds of the log; what is routed
  in a unit is covered by what is owed in it, up to the tolerance and to cross-unit routings.
- **Effects.** For every operation of the stores: when it goes through, which entry, row or file it
  writes, with which fields, and that everything else is as before, in the same order. The statements
  do not mention the functions that specify the operations.
- **Memories.** What is held is what was last remembered, through any promotions, demotions and
  evictions. Bounds, disjointness, sorting by category, what each operation may drop, where
  promotions land, exactly when the long-term limit is exceeded, and the exact length of the
  context that is built.
- **Completion loops.** Termination, the number of provider calls, the ids of tool calls, the shape of
  every request sent, and the history of the attempts: each but the last was rejected, the next opens
  with its repair, and the last decides the outcome. All this for arbitrary surroundings.
- **Honors gate.** From completion to verdict: exactly the completions are accepted that contain all
  and enough of what is required, well supported, and an accepted checkpoint scores exactly one if
  and only if its reference lists are clean. Under clean lists the score is one less the cost of what
  is missing.
- **Beliefs.** Contraction towards a constant quality with both bounds, independence of the start
  for arbitrary qualities, independence of beliefs from each other in any interleaving, and exactly
  when observations that answer an old prediction overshoot.
- **Registry.** For every run, the identity summary, the prompt files, the costs and the budget
  flags agree with the task log and with the operations that were made.

## Where the code departs from its comments

The model follows the code in each case.

- `coverage` is documented as a fraction of the possible bins. There is no lower clip on bins, so that
  occupied cells lie within those exactly when no coordinate is at or below -1/n
  (`MapElites.OccupiedInBoxIff`). Then it is at most one; otherwise it can exceed one
  (`ArchiveLaws.ArchiveCoverageCanExceedOne`).
- `compact(min_age_entries=0)` forgets nothing, because a slice up to `-0` is empty
  (`Compaction.ZeroAgeForgetsNothing`).
- The memory bank says that eviction breaks ties by the oldest update. It breaks them by access
  count (`AgentMemoryBanks.Lower`).
- The memory bank's consolidation documents a pruning step. The invariant makes its loop
  unreachable, and idle entries that find no room in archival are dropped instead
  (`AgentMemoryBanks.ConsolidateShrinksExactly`).
- The long-term limit of 10000 rows is enforced before promotion, so that a consolidation exceeds it
  when the unexpired and the newly promoted rows do (`LongTermLimits.LimitExceededIff`), by up to 500
  in reachable states (`LongTermLimits.RunsExceedTheLimit`).
- Ids made up for tool calls keep the calls of a message apart only if no call brings an id of that
  form itself (`CompletionLoops.IdsDistinctIff`).
- A repair setting of zero counts as not set, because settings are chained with `or`; a string
  `"0"`, a negative number or a fraction below one switches repairs off
  (`CompletionLoops.RepairsOffIff`).
- Verifying the ledger's chain does not look at payloads (`ReciprocityLedgers.PayloadsAreNotVerified`),
  and loading into a ledger that already holds entries breaks its chain
  (`ReciprocityLedgers.LoadKeepsChainIff`).
- A context can exceed its budget when its header and first heading alone do
  (`MemoryContexts.WithinBudgetIff`).
- The time given to a repairable attempt can exceed the run's total: without an explicit time exactly
  when the total is below five seconds, with one exactly when it, or the hundredth of a second it is
  raised to, does (`CompletionLoops.AttemptTimeoutFitsIff`).
- Registry calls and log length disagree exactly when tasks were logged before registration
  (`AgentRegistries.SummaryMatchesFitnessIff`).

## Model

| member | source | states |
|---|---|---|
| Fitness.WeightedIsDefault | dharma_swarm/archive.py:202-224 | the nine-term default score is the generic weighted sum under the default table |
| Fitness.OnlyZeroIsHarmless | dharma_swarm/archive.py:440-447 | a score is let through without approval if and only if it is zero in every dimension |
| Fitness.NormalizeFitnessWeights | dharma_swarm/archive.py:122-148 | each of the three rejections exactly when it applies; otherwise mass one, no negative weight, and every pair of scores ranked as by the unnormalized weights |
| Fitness.NormalizedLaws | dharma_swarm/archive.py:122-148 | dividing by a positive total makes the mass one and changes no comparison |
| MapElites.InsertKeepsIndex | dharma_swarm/archive.py:320-335 | one insertion turns the index of some entries into the index of one more: every cell keeps its earliest fittest entry, ties included |
| MapElites.RebuiltIsIndex | dharma_swarm/archive.py:418-422 | inserting entries one by one from nothing yields the index as it is defined |
| MapElites.OccupiedIff | dharma_swarm/archive.py:320-335 | a cell is occupied if and only if some entry falls into it |
| MapElites.IndexIsUnique | dharma_swarm/archive.py:274-335 | the definition of the index leaves no choice, so that incremental and rebuilt grids bind the same cells to the same entries |
| MapElites.BinIff | dharma_swarm/archive.py:294-296 | bin b of n holds exactly the coordinates v with b <= vn < b + 1, the last bin everything from there up, and below zero the mirrored intervals of truncation |
| MapElites.CoordIs | dharma_swarm/archive.py:299-318 | coordinates are those stored with the entry, zero where one is missing, or else alignment, elegance and the share of 500 diff lines, at most one |
| MapElites.CellAxes | dharma_swarm/archive.py:312-318 | an entry falls into a cell if and only if alignment, elegance and complexity, in this order, fall into its three bins |
| MapElites.SameCellIff | dharma_swarm/archive.py:312-318 | two entries share a cell if and only if they share a bin on each of the three axes |
| MapElites.BinInRangeIff | dharma_swarm/archive.py:294-296 | a bin lies in the nominal range if and only if the coordinate is above -1/n |
| MapElites.OccupiedInBoxIff | dharma_swarm/archive.py:294-335 | the occupied cells are nominal ones if and only if no entry has a coordinate at or below -1/n |
| MapElites.CoverageIsAFraction | dharma_swarm/archive.py:404-416 | then occupied cells are at most n cubed |
| MapElites.CoverageCanExceedOne | dharma_swarm/archive.py:404-416 | below that floor, 28 entries with distinct ids occupy 28 of nominally 27 cells |
| ArchiveLaws.ArchiveCoverageCanExceedOne | dharma_swarm/archive.py:404-416 | a consistent archive, loaded from a file with distinct ids, does so |
| MapElites.Dist2Relaxed | dharma_swarm/archive.py:354-356 | squared bin distance obeys the triangle inequality up to a factor of two |
| MapElites.Dist2Grows | dharma_swarm/archive.py:354-356 | the distance is zero for equal cells alone, and on every axis it grows exactly with the difference of the bins |
| MapElitesGrids.MAPElitesGrid.constructor | dharma_swarm/archive.py:288-292 | an empty grid of at least three bins; none or zero means five |
| MapElitesGrids.MAPElitesGrid.TryInsert | dharma_swarm/archive.py:320-335 | the mutable grid takes the specified step and reports whether the entry now occupies its cell |
| MapElitesGrids.MAPElitesGrid.Rebuild | dharma_swarm/archive.py:418-422 | the mutable grid ends up as the index of the given entries, whatever it held |
| MapElitesGrids.SampleDiverse | dharma_swarm/archive.py:358-402 | as many distinct occupied cells as asked for and available, a fittest one first, and four times their spread bounds that of any equally large choice |
| MapElitesGrids.FittestCell | dharma_swarm/archive.py:378-380 | the first cell of maximal fitness |
| MapElitesGrids.FarthestCell | dharma_swarm/archive.py:388-396 | the first remaining cell whose distance to the nearest pick is maximal |
| MapElitesGrids.GreedyIsNearBest | dharma_swarm/archive.py:358-402 | greedy picks under squared bin distance have a quarter of the best squared spread |
| FarthestPoint.HalfApproximation | dharma_swarm/archive.py:358-402 | the same for any relaxed metric and any competing selection, repetitions allowed |
| FarthestPoint.SharedPick | dharma_swarm/archive.py:385-402 | two of any n cells lie near one of the first n - 1 picks, within the last pick's distance |
| FarthestPoint.GreedySpread | dharma_swarm/archive.py:385-402 | the last greedy pick attains the spread of the selection |
| EvolutionArchives.EveryRunIsIndexedAndReloadable | dharma_swarm/archive.py:515-785 | from a file with distinct ids, every run with fresh ids leaves the grid equal to the index of the fitness-bearing entries and to a full rebuild of them, cell order included, and reloading the file is the identity on the archive |
| EvolutionArchives.StepKeepsConsistent | dharma_swarm/archive.py:578-785 | every operation keeps ids distinct, the file a mirror of memory and the grid the index |
| EvolutionArchives.LoadIsConsistent | dharma_swarm/archive.py:515-537 | loading a file with distinct ids establishes that |
| EvolutionArchives.ReloadIsIdentity | dharma_swarm/archive.py:515-576 | what appends and rewrites left in the file replays to the state in memory, order included |
| ArchiveLaws.EveryRunReloadsItsEntries | dharma_swarm/archive.py:515-576 | even with reused and duplicated ids, the file replays to the entries in memory, in order |
| ArchiveLaws.NoFitnessMovesWithoutApproval | dharma_swarm/archive.py:492-511 | under enforcement, no run with fresh ids and without approval changes the fitness-bearing entries that move the archive |
| ArchiveLaws.UnapprovedStepMovesNothingIff | dharma_swarm/archive.py:578-785 | one unapproved step changes them if and only if it adds a let-through entry under the id of one of them |
| ArchiveLaws.CompactKeepsChampions | dharma_swarm/archive.py:751-785 | the first m - k results of `get_best` are the same before and after, entry by entry |
| ArchiveLaws.CompactForgetsExactly | dharma_swarm/archive.py:751-785 | after a compaction an entry is newly composted if and only if no entry names its id as its parent, its weight is below the value of the threshold rank, its status is one of five bearing ones or "proposed", and at least `min_age_entries` entries follow it in the order of time, ties in the order of the archive; every other entry is as before |
| ArchiveLaws.CompactOutcomeIff | dharma_swarm/archive.py:751-785 | the compaction is refused if and only if enforcement is on, approval is missing and one of these entries has a score other than zero |
| ArchiveLaws.CompactDoesNothing | dharma_swarm/archive.py:754-761 | with fewer entries than the minimum age or no fitness-bearing one nothing changes; otherwise it fails if and only if the percentile picks no rank |
| ArchiveLaws.ThresholdRankIsFloor | dharma_swarm/archive.py:759-761 | for a percentile of zero or more the rank is the floor of m times it, capped at m - 1 |
| Compaction.ChampionsStay | dharma_swarm/archive.py:661-682 | composting below the value of rank k keeps the first m - k of the stable ranking |
| Compaction.AtLeastFromRank | dharma_swarm/archive.py:759-761 | at least m - k values reach the value of rank k |
| Compaction.OldHasNewer | dharma_swarm/archive.py:766-767 | at least the minimum number of others are no older than an old entry |
| Compaction.CandidateIff | dharma_swarm/archive.py:763-774 | the candidates are exactly the forgettable entries |
| Sorting.PlaceInSort | dharma_swarm/archive.py:766-767 | a stable sort puts an element behind exactly as many as have a smaller key, or the same and an earlier place |
| Compaction.ZeroAgeForgetsNothing | dharma_swarm/archive.py:766-767 | with a minimum age of zero there are no candidates |
| ReusedIds.ReuseKeepsIndexIff | dharma_swarm/archive.py:578-618 | adding under an id in use keeps the grid the index if and only if the reuse is safe |
| ReusedIds.IndexesIff | dharma_swarm/archive.py:482-490 | the index read off all entries is the index of the fitness-bearing ones |
| ReusedIds.ReuseCanLeaveStaleOccupant | dharma_swarm/archive.py:578-618 | an applied entry replaced by a proposed one leaves an occupant although nothing bears fitness |
| ArchiveObjects.EvolutionArchive.LoadFile | dharma_swarm/archive.py:515-537 | the object holds what the file replays to |
| ArchiveObjects.EvolutionArchive.AddEntry | dharma_swarm/archive.py:578-618 | refused, without a change, if and only if enforcement is on, approval is missing and the score is not zero; otherwise the entry, with root, chain and coordinates filled in, stands under its id, in place or at the end, and nothing else has changed |
| ArchiveObjects.EvolutionArchive.UpdateStatusOf | dharma_swarm/archive.py:717-733 | absent if and only if the id is unknown; refused if and only if the score is not zero, unapproved under enforcement, and the status bears fitness before or afterwards; unchanged in these cases, and otherwise the entry under the id has the given status and reason and every other is as before, up to filled coordinates, in the same order |
| ArchiveObjects.EvolutionArchive.RollbackEntry | dharma_swarm/archive.py:735-749 | the same, with the status "rolled_back" and the reason given; refused whatever the statuses |
| ArchiveObjects.EvolutionArchive.CompactEntries | dharma_swarm/archive.py:751-785 | the compaction that `CompactForgetsExactly` and `CompactOutcomeIff` describe, and the number composted; nothing changes when any candidate is refused |
| ArchiveObjects.EvolutionArchive.ReconfigureGrid | dharma_swarm/archive.py:620-623 | a fresh grid with the new bins holding the index |
| ArchiveObjects.EvolutionArchive.GetLineage | dharma_swarm/archive.py:629-641 | nothing for an unknown id, otherwise the chain of parents from the entry, each ancestor once, as long as it goes |
| ArchiveEffects.UpdatedSetsStatus | dharma_swarm/archive.py:717-749 | a change of status sets status and reason of the entry under the id, and touches no other entry but to fill in its coordinates where it bears fitness |
| ArchiveEffects.AddedAddsEntry | dharma_swarm/archive.py:578-618 | an addition stores the entry with its root and parent chain, in place or at the end, and appends it to the file |
| ArchiveEffects.LoadHoldsLastLines | dharma_swarm/archive.py:515-537 | loading holds an id if and only if a line has it, and then what the last such line says |
| ArchiveEffects.LoadKeepsOrder | dharma_swarm/archive.py:515-537 | with distinct ids it holds the lines, one by one, in their order |
| ReciprocityLedgers.EveryRunIsWellKept | dharma_swarm/ai_reciprocity_ledger.py:396-468 | every run verifies, numbers entries from zero and keeps the nine tables equal to the replay of the log |
| ReciprocityLedgers.SameHeadSameLog | dharma_swarm/ai_reciprocity_ledger.py:396-432 | two verifying logs with the same head agree on sequence numbers, kinds, payload digests, predecessors and timestamps, or exhibit a collision or an empty digest |
| ReciprocityLedgers.SameHeadSamePayloads | dharma_swarm/ai_reciprocity_ledger.py:396-432 | for any digests: two recorded ledgers with the same head hold the same payloads and the same tables, or exhibit a collision of entries, an empty digest, or two different payloads at one place with the same payload digest |
| ReciprocityLedgers.PayloadsAreNotVerified | dharma_swarm/ai_reciprocity_ledger.py:424-432 | replacing a payload behind its digest never changes the verdict |
| ReciprocityLedgers.SaveThenLoad | dharma_swarm/ai_reciprocity_ledger.py:709-766 | saving any run and loading it into a fresh ledger restores log, tables and a verifying chain |
| ReciprocityLedgers.LoadKeepsChainIff | dharma_swarm/ai_reciprocity_ledger.py:719-736 | loading a verifying file into a verifying ledger keeps the chain if and only if one of the two was empty |
| ReciprocityLedgers.HeldWasWritten | dharma_swarm/ai_reciprocity_ledger.py:738-766 | a table holds an id only if some entry wrote it, and yields the last one |
| ReciprocityLedgers.LastWriterWins | dharma_swarm/ai_reciprocity_ledger.py:738-766 | a table holds under an id what the last entry for it says |
| ReciprocityLedgers.ReplayIsWellFiled | dharma_swarm/ai_reciprocity_ledger.py:738-766 | keys are the records' ids and every table holds its own kind |
| ReciprocityLedgers.AIReciprocityLedger.Record | dharma_swarm/ai_reciprocity_ledger.py:402-468 | appends one entry with the next number, the kind of the record, the payload and its digest, the digest of the entry before, and the time; files the record under its id in the table of its kind alone; the chain is kept |
| ReciprocityLedgers.AIReciprocityLedger.VerifyChainIntegrity | dharma_swarm/ai_reciprocity_ledger.py:424-432 | the loop decides whether every entry names its predecessor's digest |
| ReciprocityLedgers.AIReciprocityLedger.LoadFile | dharma_swarm/ai_reciprocity_ledger.py:719-736 | the file's entries are appended and filed, and counted |
| ReciprocityInvariants.InvariantIssues | dharma_swarm/ai_reciprocity_ledger.py:509-663 | reports a code about a subject if and only if a record of that id in the code's table is flawed in that way: a missing reference, a fulfilled obligation without routing, an excess, a blank target group, an ecological claim without evidence or audit or by an experimental project |
| ReciprocityInvariants.IssueMeans | dharma_swarm/ai_reciprocity_ledger.py:509-663 | each of the twelve codes stands for its flaw, told by the contents of the tables |
| ReciprocityInvariants.ReferencesCloseIff | dharma_swarm/ai_reciprocity_ledger.py:513-618 | no reference is reported missing if and only if every reference leads to a record that is held |
| ReciprocityInvariants.EcologyIsBackedIff | dharma_swarm/ai_reciprocity_ledger.py:620-663 | no ecological code is raised if and only if every verified, challenged or reversed ecological outcome of a known project has evidence and an audit, and its project is not experimental |
| ReciprocityInvariants.DoubleSum | dharma_swarm/ai_reciprocity_ledger.py:488-507 | adding up routings by obligation or by routing differs by the cross-unit routings alone |
| ReciprocityInvariants.Conservation | dharma_swarm/ai_reciprocity_ledger.py:538-577 | without an excess issue, the total routed in a unit is at most the total obligation plus 1e-9 for each obligation plus what crosses units |
| ReciprocityInvariants.ConservationWithinUnit | dharma_swarm/ai_reciprocity_ledger.py:538-577 | and nothing crosses when routings that hit an obligation hit one of their own unit and none misses |
| ReciprocityInvariants.CrossUnitRoutingIsNotCounted | dharma_swarm/ai_reciprocity_ledger.py:538-577 | for any amount, a ledger without either issue that routes the amount in a unit in which nothing is owed |
| ReciprocityInvariants.RunTablesAreValid | dharma_swarm/ai_reciprocity_ledger.py:234-276 | every ledger recorded from positive obligations meets the conditions of the above |
| AgentMemoryBanks.EveryRunIsOk | dharma_swarm/agent_memory.py:69-88 | after every run tiers are disjoint, hold at most 10, 100 and 5 entries, and each entry sits in the tier of its category |
| AgentMemoryBanks.StepKeepsOk | dharma_swarm/agent_memory.py:108-323 | every operation keeps that |
| AgentMemoryBanks.RememberKeepsAllButOne | dharma_swarm/agent_memory.py:108-166 | exactly the old keys and the new one are known afterwards, but for at most one dropped key |
| AgentMemoryBanks.RememberedHolds | dharma_swarm/agent_memory.py:108-166 | the key is in the tier of its category with the given value, category and importance |
| AgentMemoryBanks.DroppedIsLowest | dharma_swarm/agent_memory.py:350-364 | what is dropped is a lowest entry of a full target tier, and from working memory only when archival is full too |
| AgentMemoryBanks.Lowest | dharma_swarm/agent_memory.py:355-356 | the first entry that no other undercuts by importance, then access count |
| AgentMemoryBanks.PromoteLosesNothing | dharma_swarm/agent_memory.py:201-212 | promotion keeps every key, even with working memory full, and the promoted key ends in working memory |
| AgentMemoryBanks.DemoteLoses | dharma_swarm/agent_memory.py:214-225 | demotion loses a key if and only if archival is full, and then archival's lowest |
| AgentMemoryBanks.ForgetRemovesOne | dharma_swarm/agent_memory.py:168-174 | exactly the one key is no longer known |
| AgentMemoryBanks.RecallKeepsKeys | dharma_swarm/agent_memory.py:176-183 | recalling changes no key |
| AgentMemoryBanks.ConsolidateShrinksExactly | dharma_swarm/agent_memory.py:270-313 | the bank shrinks by the expired entries and by the idle ones that find no room |
| AgentMemoryObjects.AgentMemoryBank.RememberNote | dharma_swarm/agent_memory.py:108-166 | the entry returned is a new one or the old one with value, category, importance, time and a source, if given, rewritten; it keeps its place in its tier, or leaves the tier it was in and goes to the end, after room was made; nothing else changes |
| AgentMemoryObjects.AgentMemoryBank.LearnLesson | dharma_swarm/agent_memory.py:315-323 | the same for a lesson of importance 0.9, in archival |
| AgentMemoryObjects.AgentMemoryBank.EvictLowest | dharma_swarm/agent_memory.py:350-364 | the first entry of least importance, and among those of least accesses, leaves its tier; out of working memory it goes unchanged but for category and time to the end of archival while there are fewer than 100 |
| AgentMemoryObjects.AgentMemoryBank.ForgetKey | dharma_swarm/agent_memory.py:168-174 | the key's entry is cut out and all others stay in order; true if and only if it was there |
| AgentMemoryObjects.AgentMemoryBank.RecallKey | dharma_swarm/agent_memory.py:176-183 | the key's entry has been accessed once more and is returned; everything else is as it was; nothing for an unknown key |
| AgentMemoryObjects.AgentMemoryBank.PromoteKey | dharma_swarm/agent_memory.py:201-212 | true if and only if the key was in archival; then its entry, unchanged but for category and time, goes to the end of working memory, after room was made there; otherwise nothing changes |
| AgentMemoryObjects.AgentMemoryBank.DemoteKey | dharma_swarm/agent_memory.py:214-225 | the same from working memory to archival |
| AgentMemoryObjects.AgentMemoryBank.ConsolidateAll | dharma_swarm/agent_memory.py:270-313 | expired entries are gone from all tiers; of the others, exactly those of working memory without an access and of an importance below 0.3 leave it, for the end of archival as far as there are fewer than 100, unchanged but for category and time; returns how many there were of both |
| AgentMemoryBankEffects.StepKeepsContent | dharma_swarm/agent_memory.py:108-323 | whatever an operation moves, an entry keeps value, importance, source and times of creation and expiry; only `remember` writes, and only its own key; only `recall` counts an access, and only of its own key |
| AgentMemoryBankEffects.HeldIsLastWritten | dharma_swarm/agent_memory.py:108-323 | after every run, value and importance held under a key are those of the last `remember` of the key |
| AgentMemoryBankEffects.EvictEffects | dharma_swarm/agent_memory.py:350-364 | which entry an eviction takes, and where it goes |
| AgentMemoryBankEffects.RememberEffects | dharma_swarm/agent_memory.py:108-166 | where `remember` puts which entry |
| AgentMemoryBankEffects.ConsolidateEffects | dharma_swarm/agent_memory.py:270-313 | which entries a consolidation drops, moves and keeps |
| AgentMemoryManagers.EveryRunIsBounded | dharma_swarm/agent_memory_manager.py:162-165 | for all agents in any order: working at most 50, short-term 500, shared 50000, long-term 10500; row ids and agent, key, scope triples unique |
| LongTermLimits.ConsolidatedExactly | dharma_swarm/agent_memory_manager.py:612-680 | after a consolidation the agent has exactly the long-term rows left by expiry and trimming and the rows due for promotion that had no long-term namesake |
| LongTermLimits.SweepIsExpiry | dharma_swarm/agent_memory_manager.py:612-650 | while the long-term limit is kept, expiry leaves nothing to trim |
| LongTermLimits.LimitExceededIff | dharma_swarm/agent_memory_manager.py:220-689 | a step carries an agent beyond 10000 long-term rows if and only if it is the agent's own consolidation, and its unexpired long-term rows and its unexpired due rows without a long-term namesake are together more than 10000 |
| LongTermLimits.RunsExceedTheLimit | dharma_swarm/agent_memory_manager.py:595-680 | for every m up to 500, a run from the empty database that leaves 10000 + m long-term rows, so that the bound of 10500 is attained |
| LongTermLimits.PromotedOneExactly | dharma_swarm/agent_memory_manager.py:652-680 | one promotion adds a long-term row if and only if there is none under the key |
| AgentMemoryManagers.StepKeepsOk | dharma_swarm/agent_memory_manager.py:220-689 | every operation keeps that |
| AgentMemoryManagers.EvictLaws | dharma_swarm/agent_memory_manager.py:749-776 | an eviction takes as many rows of the scope as asked for, none more used than a survivor, and no other row |
| AgentMemoryManagers.EnforcedLeavesRoom | dharma_swarm/agent_memory_manager.py:749-776 | making room leaves the scope below its bound and evicts least used rows only |
| AgentMemoryManagers.TrimmedFits | dharma_swarm/agent_memory_manager.py:625-650 | trimming a scope brings it within its limit by evicting least used rows only |
| AgentMemoryManagers.SweptFits | dharma_swarm/agent_memory_manager.py:612-650 | after expiry and trimming, every scope of the agent is within its own limit, surviving rows in order |
| AgentMemoryManagers.PromotionLands | dharma_swarm/agent_memory_manager.py:652-680 | a promoted row ends as exactly one long-term row with its content and no short-term copy |
| AgentMemoryManagers.ConsolidationPromotes | dharma_swarm/agent_memory_manager.py:595-680 | so does every promotable row, after the whole consolidation |
| AgentMemoryManagerObjects.AgentMemoryManager.RememberMemo | dharma_swarm/agent_memory_manager.py:220-276 | a full scope first loses a tenth of its limit, its least used rows; then the row under agent, key and scope is rewritten in place, or a new one appended, with the content, time to live and digest given; nothing else changes, and the row is returned |
| AgentMemoryManagerObjects.AgentMemoryManager.EnforceLimit | dharma_swarm/agent_memory_manager.py:749-776 | the eviction that `EnforceEffects` describes |
| AgentMemoryManagerObjects.AgentMemoryManager.ShareMemory | dharma_swarm/agent_memory_manager.py:430-488 | of 50000 shared rows one of the oldest goes first; then the row under the key is rewritten in place, or a new one appended; no other row changes |
| AgentMemoryManagerObjects.AgentMemoryManager.RecallByKey | dharma_swarm/agent_memory_manager.py:353-390 | a row is found if and only if there is one of the agent under the key, in the scope asked for or, without one, in any, but not when shared memory alone is asked for; it is a most recently accessed one and is stamped in place, no other row changes; otherwise a shared row under the key if and only if there is one |
| AgentMemoryManagerObjects.AgentMemoryManager.ForgetMemory | dharma_swarm/agent_memory_manager.py:392-428 | exactly the rows of the agent under the key go, in the scope asked for or, without one, in all, but none when shared memory alone is asked for; and exactly the shared rows under the key unless a scope is; what remains is in order; true if and only if there was such a row |
| AgentMemoryManagerObjects.AgentMemoryManager.ConsolidateMemories | dharma_swarm/agent_memory_manager.py:595-689 | the specified consolidation; returns the rows gone plus the rows promoted |
| AgentMemoryEffects.ConsolidatedBrings | dharma_swarm/agent_memory_manager.py:612-680 | a row a consolidation brings is a long-term copy of an unexpired short-term row of the agent with three accesses and more than an hour old |
| AgentMemoryEffects.ConsolidatedKeeps | dharma_swarm/agent_memory_manager.py:612-680 | it keeps every unexpired row but the due ones, their long-term namesakes and those of a scope of the agent beyond its limit |
| AgentMemoryEffects.ConsolidatedPromotes | dharma_swarm/agent_memory_manager.py:652-680 | every due row that is not expired ends as one long-term row with its content, and no short-term one |
| AgentMemoryEffects.EnforceEffects | dharma_swarm/agent_memory_manager.py:749-776 | nothing goes below the limit; at the limit a tenth of it goes, the agent's least used rows of the scope, and the rest stays in order |
| MemoryContexts.GetContext | dharma_swarm/agent_memory_manager.py:490-593 | header, working memory, recent, long-term and shared memories in this order, each with its heading and the longest run of its lines that fits, the later ones only with more than 100 characters left; within four characters a token, or its unconditional part alone |
| MemoryContexts.WithinBudgetIff | dharma_swarm/agent_memory_manager.py:507-593 | the text fits the budget if and only if header and working heading do, and is just those when they do not |
| MemoryContexts.HeadingLengths | dharma_swarm/agent_memory_manager.py:519-585 | the literals 20, 12, 25 and 20 are the headings' lengths with their newlines |
| MemoryContexts.AppendFitting | dharma_swarm/agent_memory_manager.py:525-535 | appends the lines up to the first that does not fit, and `used` stays the length of the joined lines |
| MemoryContexts.FittingFits | dharma_swarm/agent_memory_manager.py:507-593 | what fits never exceeds the budget, unless it was exceeded before |
| MemoryContexts.FittingIsLongest | dharma_swarm/agent_memory_manager.py:507-593 | so many leading lines are appended as leave the joined text within the budget, and no more |
| MemoryContexts.ContextHasFourParts | dharma_swarm/agent_memory_manager.py:507-593 | the order of the sections, their lines and what expired rows and lengths leave out |
| CompletionLoops.MaxRounds | dharma_swarm/agent_runner.py:1598-1608 | between 1 and 32 for any settings |
| CompletionLoops.RepairAttempts | dharma_swarm/agent_runner_quality.py:553-565 | at most three for any settings |
| CompletionLoops.RepairsOffIff | dharma_swarm/agent_runner_quality.py:553-565 | repairs are off if and only if the first setting that counts as set is a number below one, fractions included, or a numeral not above zero |
| CompletionLoops.MaxRoundsIs | dharma_swarm/agent_runner.py:1598-1608 | the first setting that counts as set, truncated and brought between 1 and 32; 8 without one or for something that is no number |
| CompletionLoops.RepairAttemptsIs | dharma_swarm/agent_runner_quality.py:553-565 | the same between 0 and 3; without a setting 1, or 2 for analytical tasks |
| CompletionLoops.AttemptTimeoutIs | dharma_swarm/agent_runner_quality.py:568-606 | the explicit time, at least a hundredth of a second; or the total less 30 seconds for every attempt left, brought between a quarter and three quarters of it, and at least five seconds |
| CompletionLoops.AttemptTimeoutFitsIff | dharma_swarm/agent_runner_quality.py:568-606 | for any explicit time, total and attempts left: when there is a time at all, and exactly when it fits the total, namely from five seconds on without an explicit time, and otherwise when the explicit time and a hundredth of a second do; without one it is at least a quarter of the total, and at most three quarters or five seconds |
| CompletionLoops.IdsDistinctIff | dharma_swarm/agent_runner.py:1665-1675 | the ids of one message are distinct if and only if the calls' own ids are and none of them reads like one made up for another call |
| CompletionLoops.OwnIdCanCollide | dharma_swarm/agent_runner.py:1665-1675 | a call that brings the id "tool-call-2" collides with a second call that brings none |
| CompletionLoops.RunTools | dharma_swarm/agent_runner.py:2168-2248 | exactly one tool message a call, same ids, same order |
| CompletionLoops.CompleteWithToolLoop | dharma_swarm/agent_runner.py:2168-2248 | the loop comes to what its recursive specification says; at most the maximum of rounds calls; each request is the opening followed by complete tool rounds; an answer is the provider's last reply |
| CompletionLoops.RoundsGoOn | dharma_swarm/agent_runner.py:2168-2248 | round by round: the next request is the last one, the provider's reply and one answer for each of its calls, shortened to 16000 characters; the loop ends with an answer without calls, a timeout, a failure of provider or tool, or the last round |
| CompletionLoops.NextRepair | dharma_swarm/agent_runner_quality.py:718-747 | a repair extends the opening by a failed answer and a critique, users and assistants in strict turn |
| CompletionLoops.RunTask | dharma_swarm/agent_runner.py:2512-2612 | terminates with the outcome, requests and trace of attempts of its recursive specification; at most repairs + 1 attempts and rounds calls each; attempt k opens with 1 + 2k messages in strict turn; success means an accepted answer that the provider gave last |
| CompletionLoops.TaskHistory | dharma_swarm/agent_runner.py:2512-2612 | the trace tells the task: the first attempt opens with the first message; every attempt but the last timed out, or was answered by a text that does not look failed and is not accepted, and the next opens with the same messages, that text shortened to 12000 characters, and a user message that contains the assessor's reason; the last answer is accepted and returned, or the task fails because the last attempt raised, looks failed, or is rejected as the attempt after the last repair |
| CompletionLoops.CallsAreBounded | dharma_swarm/agent_runner.py:2512-2612 | in any surroundings and under any settings the whole task sends at most 128 requests |
| HonorsGates.DedupeKeepOrder | dharma_swarm/agent_runner_quality.py:86-95 | the loop computes the deduplication |
| HonorsGates.DedupeMember | dharma_swarm/agent_runner_quality.py:86-95 | it keeps exactly the stripped non-blank items |
| HonorsGates.DedupeDistinct | dharma_swarm/agent_runner_quality.py:86-95 | each of them once |
| HonorsGates.DedupeKeepsAllIff | dharma_swarm/agent_runner_quality.py:86-95 | it drops nothing if and only if the items are non-blank and differ once stripped |
| HonorsGates.MatchRequired | dharma_swarm/agent_runner_quality.py:144-162 | sorting into found and not found and deduplicating afterwards yields the found and the unfound of the deduplicated requirements, in their order |
| HonorsGates.MatchCounts | dharma_swarm/agent_runner_quality.py:144-162 | matched and missing add up to the deduplicated requirements; none is missing if and only if all are found |
| HonorsGates.MatchedIff | dharma_swarm/agent_runner_quality.py:144-162 | a non-blank requirement is matched if and only if it is found, and missing if and only if it is not |
| HonorsGates.BuildPacket | dharma_swarm/agent_runner_quality.py:179-290 | the packet's counts are those of the specified lists |
| HonorsGates.PacketIsCounted | dharma_swarm/agent_runner_quality.py:196-255 | met and missing add up to the deduplicated reference lists and to the stakeholders; supported claims are at most the claims |
| HonorsGates.NothingMissingIff | dharma_swarm/agent_runner_quality.py:196-255 | nothing is missing from the packet if and only if the completion meets every requirement |
| HonorsGates.AcceptedIff | dharma_swarm/agent_runner_quality.py:325-507 | a completion is accepted if and only if it contains everything required, enough of everything, as many signals as its claims need, and few enough claims in excess of the signals |
| HonorsGates.MeetsIff | dharma_swarm/agent_runner_quality.py:144-255 | what it means to contain everything required, in terms of the completion's text and of the items, files and tests extracted from it |
| HonorsGates.EvidenceIff | dharma_swarm/agent_runner_quality.py:179-200 | the evidence is the non-blank items, files and tests, stripped |
| HonorsGates.SignalsIff | dharma_swarm/agent_runner_quality.py:196-255 | the signals are the evidence, the context references said, and the required evidence, files and tests found; each once |
| HonorsGates.MissingMeans | dharma_swarm/agent_runner_quality.py:144-162 | missing are the non-blank requirements neither said nor observed nor cited, each once |
| HonorsGates.MissingCosts | dharma_swarm/agent_runner_quality.py:325-507 | under clean lists the score is one, less a twentieth to a quarter of the share by which each requirement, minimum or support falls short |
| HonorsGates.AssessHonorsCheckpoint | dharma_swarm/agent_runner_quality.py:293-519 | from completion to verdict: accepted if and only if the completion names every section with a colon, says every context reference and stakeholder, and says or cites every required piece of evidence, file and test, with enough of everything and enough support; the score under clean lists is one less the cost of each thing missing; scores are fractions |
| HonorsGates.AcceptedScoresOneIff | dharma_swarm/agent_runner_quality.py:325-519 | that equivalence, and the quality that follows from it |
| HonorsGates.ValidatedScoresOne | dharma_swarm/mission_contract.py:308-320 | under a contract whose lists have been validated, an accepted checkpoint scores exactly one and its quality is the mean of the semantic score and one |
| HonorsGates.DedupedIsClean | dharma_swarm/mission_contract.py:24-52 | stripped, deduplicated lists without blanks are clean |
| HonorsGates.ScoresAreFractions | dharma_swarm/agent_runner_quality.py:306-507 | final score and quality lie in [0, 1] for any contract and packet |
| BeliefLearning.LearnAll | dharma_swarm/active_inference.py:307-324 | after any observations, stale or not, the mean is in [0, 1], the precision within its bounds, and the count exact |
| BeliefLearning.PrecisionAfter | dharma_swarm/active_inference.py:319-324 | precision grows by the rate with every observation up to the ceiling, and never falls |
| BeliefLearning.PracticeIsARun | dharma_swarm/active_inference.py:253-327 | predict and observe pairs are the run of observations whose predictions are current |
| BeliefLearning.PullLeaves | dharma_swarm/active_inference.py:304-317 | of a difference of errors, the update leaves between 1 - rate and 1 - rate/2, from precision one |
| BeliefLearning.MeanMovesTowards | dharma_swarm/active_inference.py:301-317 | against its own prediction, the mean moves towards the quality and not beyond it |
| BeliefLearning.PracticeForgetsItsStart | dharma_swarm/active_inference.py:253-327 | under any qualities, beliefs from two starts keep their order and approach each other geometrically |
| BeliefLearning.BeliefConverges | dharma_swarm/active_inference.py:253-327 | n pairs with one quality never overshoot, and leave between (1 - rate)^n and (1 - rate/2)^n of the distance |
| BeliefLearning.PractisedPrecision | dharma_swarm/active_inference.py:319-324 | precision is then 1 + n rate, up to the ceiling |
| StalePredictions.OneStaleOvershootsIff | dharma_swarm/active_inference.py:298-317 | one observation against any prediction carries the mean past the quality if and only if the gain times the error is more than the distance, and the quality is not extreme |
| StalePredictions.StaleOvershootsIff | dharma_swarm/active_inference.py:298-324 | for any rule, belief and quality, n observations against the first prediction overshoot if and only if their gains add up to more than one, and the quality is neither extreme nor what was predicted |
| StalePredictions.PrecisionAtIs | dharma_swarm/active_inference.py:319-324 | the precision of the i-th of these gains is the first one plus i times the rate, up to the ceiling |
| StalePredictions.EngineOvershootsIff | dharma_swarm/active_inference.py:244-327 | in an engine run with a new agent, n observations against the first prediction overshoot if and only if n is 16 or more and the quality is neither extreme nor one half |
| ActiveInference.BeliefsAreIndependent | dharma_swarm/active_inference.py:244-327 | after any run over all agents and task types, a belief is what its own observations alone make of it |
| ActiveInference.EveryRunIsBounded | dharma_swarm/active_inference.py:119-142 | after every run from nothing, means are fractions and precision is determined by the number of observations |
| ActiveInference.RunConverges | dharma_swarm/active_inference.py:253-327 | whatever else runs, fresh observations of one quality draw a belief to it, leaving at most 0.95^n of the distance |
| ActiveInference.GenerativeModel.GetBelief | dharma_swarm/active_inference.py:138-142 | the held belief, or the default, which is then held |
| ActiveInference.ActiveInferenceEngine.Predict | dharma_swarm/active_inference.py:253-275 | the current mean and precision; no belief changes, though a default may be stored |
| ActiveInference.ActiveInferenceEngine.Observe | dharma_swarm/active_inference.py:277-327 | exactly the named belief is updated, whatever objects the other models are |
| AgentRegistries.EveryRunAgrees | dharma_swarm/agent_registry.py:255-703 | for every agent after every run: calls = completed + failed = entries logged since registration, their tokens, their last 50 as history, their cost at the model's price; file i holds prompt i, the newest is active; an entry is flagged if and only if a budget was spent before it |
| AgentRegistries.SummaryMatchesFitnessIff | dharma_swarm/agent_registry.py:523-600 | the summary's calls are the fitness's calls if and only if nothing was logged before registration; then tokens, successes and cost agree too |
| AgentRegistries.GenerationsAreNeverRewritten | dharma_swarm/agent_registry.py:638-703 | a generation file written at any time of a run reads the same at its end |
| AgentRegistries.FitnessBounded | dharma_swarm/agent_registry.py:544-600 | success rate and speed are fractions, the rate times the calls is the successes, and the composite weighs rate, speed and the constant quality 8 : 6 : 6 |
| AgentRegistries.SpeedIs | dharma_swarm/agent_registry.py:544-600 | full speed up to five seconds on average, none from two minutes on, a straight line in between |
| AgentRegistries.ExceededForTheDay | dharma_swarm/agent_registry.py:908-922 | once a daily budget is spent, every later check of that day says so |
| AgentRegistries.FleetSpendIsCost | dharma_swarm/agent_registry.py:805-838 | the spend of several agents since a cutoff is the cost of their entries stamped at or after it |
| AgentRegistries.MidnightIff | dharma_swarm/agent_registry.py:840-858 | the day starts at the last multiple of a day |
| AgentRegistries.AgentRegistry.AggregateSpend | dharma_swarm/agent_registry.py:805-838 | the nested loops add up the costs of the agents' entries stamped at or after the cutoff |
| AgentRegistries.AgentRegistry.IsBudgetExceeded | dharma_swarm/agent_registry.py:908-922 | true if and only if the entries stamped since the last midnight cost the daily budget, or those of the last seven days the weekly one |
| AgentRegistries.AgentRegistry.CheckBudget | dharma_swarm/agent_registry.py:860-906 | exceeded if and only if the kill switch says so and if and only if nothing remains of a budget; well if and only if moreover less than four fifths of each is spent; spent and remaining add up otherwise |
| AgentRegistries.AgentRegistry.RegisterAgent | dharma_swarm/agent_registry.py:255-318 | a new identity with counters at zero, its prompt as generation 0, active and noted; for a registered agent nothing changes and the identity is returned |
| AgentRegistries.AgentRegistry.LogTask | dharma_swarm/agent_registry.py:441-514 | one entry more, priced by the agent's model and flagged if and only if a budget was spent before; a registered agent's summary counts it and keeps the newest fifty; no other agent is touched |
| AgentRegistries.AgentRegistry.EvolvePrompt | dharma_swarm/agent_registry.py:638-703 | the next generation is filed under its number, active and noted, and the one until now stays filed under its own; refused, without a change, for an unregistered agent |

## Left out

- Files, SQLite, locks, HTTP, subprocesses and model calls: only the state they read or write is modelled; crashes and several processes are not.
- Object identity: archive entries, memory entries and beliefs are values. That the grid and the archive share entry objects is modelled by filling in coordinates in both; `EvolutionArchives.Consistent` says that they stay equal.
- Floating-point rounding, `round(...)`, the logarithms of model complexity and free energy, and everything computed from them.
- The Merkle log, the telos gates, the genome and `LedgerEntry.compute_hash` are not part of this model; roots and digests are inputs.
- `to_gaia_ledger`, `summary`, dashboards, statistics and reports: projections of state already covered.
- `get_best` with a component filter or explicit weights, `get_diverse`, `get_children`, `get_latest`, `research_reward_to_fitness`: they would only add easy members.
- InvariantIssues: says which issues are reported, not in which order or how often; messages are left out.
- Cross-references of the ledger that only look up lists (`evidence_for`, `audits_for`): covered where `invariant_issues` uses them.
- Text heuristics: section extraction, file patterns, provider-failure strings, tool calls parsed from text and the semantic assessor are arbitrary functions; lower-casing is a parameter, and blanks are space, tab, newline and carriage return.
- AssessHonorsCheckpoint: starts from a contract in honors mode; without one the original accepts with the semantic score. Reasons and summaries are left out.
- `recall` by query and shared search: which rows a query touches is left open (`Recall` stamps any set of rows); keyword scores are not modelled.
- The order in which SQLite returns rows that its `ORDER BY` ties: rows are taken in table order.
- The order of memories inside a context section: taken as given by the queries.
- RunTask: the fixed instructions of the critique, the system prompt, routing, latency counters and the effects on the agent's state are left out; a timeout of an attempt is one of the outcomes, and the label of its seconds is not in the text.
- `_trim_context_to_budget`, `load` on malformed lines, legacy migration, runtime fields and frontier tasks.
- Observe: requires a precision other than -1, where the original divides by zero; a stored precision can only be that when the file of models says so.
- EveryRunAgrees: starts from an empty agents directory; leftover prompt files of an agent whose identity was deleted by hand are not considered.
- AggregateSpend: is given the names to add up, one agent or the registered ones; timestamps are compared as numbers of seconds, and entries without a stored cost are not modelled.
