# Board, incidents and page bodies: a Dafny model

This project models three pieces of the repository and proves what they are for.

1. **The agent board.** A card is an append-only event list, read together with Dave's decision stream and
   the receipt map; everything shown about it is derived from those alone. The model has the derivation
   (`Ledger`), one card's life as a transition system (`Life`), the whole board with its trash as a class
   whose verbs append under guards (`Board`), the pure planner beside the loop that computes the same plan
   (`Plan`), and the reactor that carries memory, a daily count and a health class across passes
   (`Reactor`), joined to the board in `Source`. The main results are about every reachable history:
   strikes, brief runs and research runs are accounted for (`Strikes`, `BriefRuns`, `ResearchRuns`),
   approval is final (`Approval`) and any card can still come to it exactly when it is not rejected
   (`Paths`, `Landing`), forged events move nothing (`Forged`), holds work and stick (`Quarantine`), the
   planner loses no wake-up (`PlanProps`), the limits hold under any answers (`Reactor`).
   `Lives.BoardTheorem` carries the per-card results to every card of every reachable board, ids used
   again included; `Recycled` says exactly what such an id's record may come to; and `Joint` runs people,
   units and passes together, in any order, and shows that quarantine takes hold and lasts.
2. **The incident debounce.** `Incidents` proves that the counters kept per key are facts about the whole
   sweep history; `Notify` logs every message and keeps, as its class invariant, what the messages of whole
   runs satisfy.
3. **The page body pipeline.** Span fitting under two limits (`Spans`), greedy batching and the write that
   puts its sentinel last (`PageWrite`), and the block parser and printer (`Markdown`, `MarkdownPrint`) with
   the proof that they undo each other (`PlainLines`, `RoundTrip`) and exactly when canonical text, parsed
   and printed once more, stays as it is (`Canon`).

`Seqs`, `Text` and `Order` hold the shared parts: the stable sort, filtering, whitespace and hashing of
text, and the board's order.

## How the model reads

- Time is an integer number of seconds. A `Moment` or `Instant` carries what the code asks its surroundings
  for: the time, the local date as a day number, the pick timeout, what canonical main holds, due times.
- `NeverBack` is a clock that never goes back; `Rising` is one that strictly rises. Each theorem names the one
  it needs, and `Life.ReachableInOrder` first shows that on reachable ledgers sorting by time changes nothing.
  `Forged` needs no clock at all.
- A decision step is allowed only as the gate allows it: on the shown view, merged cards included. The
  ledger's own verbs derive without the join to canonical main, so to them a merged card is still In Review.
- Receipts only appear, and a present one may turn failed; so `void` only grows.
- The hash is a function parameter; nothing needs it to be injective, because approval follows the hash.
- External calls enter as parameters: what a pass observes, what each call answers (a start reported failed may
  have taken effect), and which units exit meanwhile. A verb is one atomic step.
- Methods follow the loops and the field updates of the code; each is tied by its `ensures` to a
  specification function, and the lemmas speak of those functions.

## What the code does that a reader may not expect

- Purging a card keeps its decisions. A card created later under the same id is shown deleted from birth
  exactly when a deletion of the earlier one is still in force (`Lives.BornDeletedExactlyWhenRecycled`), and
  there are boards on which one is (`Recycled.SomeIdIsRecycled`).
- The strike rule counts only returns of texts the card's own ledger recorded (bin/board.py:339). So each
  card's own returns are at most two plus its unblocks, but all the returns on an id used again are not:
  create, return twice, delete, purge and create again, n times over, gives 2n returns and no unblock
  (`Recycled.ReturnsWithoutBound`). `Recycled.ReturnsBoundedExactlyWhen` gives the exact condition at birth.
- `canonical` is not idempotent on every text: a paragraph wrapped after "7." prints as "7. x", which parses
  as a numbered item and prints as "1. x" (`Canon.CanonicalMayMove`). `Canon.CanonicalSettlesExactlyWhen`
  says when it is: no paragraph may begin with a star, a plus, four or more hashes or a number other than
  one, none may read as a list item beside an item of that type, and no bullet may read as the rule of a
  table right below a bullet with a pipe.
- Whether a scope edit voids an approval is looked up after the first event equal to the last brief, as a
  list's `index` finds it (bin/board.py:300-304); `Ledger.BriefOrdered` does the same, and under a strictly
  rising clock that event is the last brief itself (`ResearchRuns.FirstCopyIsLastBrief`).
- The deadline block is armed by the local date but stamped at the end of that day in UTC
  (bin/board.py:347-348); the stamp is `Ledger.DayEnd`, the date a parameter.
- A reopened incident takes a new entry, so a recovery whose send failed is not sent again once the key is
  seen again (bin/incident_state.py:97-98).

## Model

| member | source | states |
|---|---|---|
| Seqs.OrderedIdentity | bin/board.py:274-275 | Sorting rows that are already in time order leaves them as they are |
| Seqs.OrderedFilter | bin/board.py:274-275 | The stable sort commutes with dropping rows, for arbitrary timestamps |
| Seqs.OrderedIsSorted | bin/board.py:274-275 | What the sort returns is in time order |
| Seqs.OrderedMembers | bin/board.py:274-275 | The sort neither loses nor adds a row |
| Ledger.CountFailedStreak | bin/board.py:385-393 | The loop counts exactly the failed runs at the end of the run list, later than the latest unblock, that `FailedStreak` defines |
| Ledger.CollectHumanInputs | bin/board.py:404-417 | The loop collects exactly the instants at which a human put something in: creation, human briefs before any agent brief, plain or answering human notes, scope edits and returns |
| Ledger.ComputeEffectiveFields | bin/board.py:278-286 | The loop gives the created fields with every edit applied in time order |
| Ledger.ScopeEditable | bin/board.py:502-504 | The scope is editable exactly in the briefing columns of a card that was never researched |
| Forged.ForgedEventsMoveNothing | bin/board.py:452-499 | Any number of forged events (decision-shaped, or holds by anyone but the reactor), inserted anywhere with any timestamps, change nothing derived but `rev` and `exceptions` |
| Forged.DeriveIgnoresForged | bin/board.py:461-463 | Deriving a ledger and deriving it without its forgeries give one view, those two fields apart |
| Forged.InsertedForgeries | bin/board.py:461-463 | A ledger with forgeries inserted has the same genuine events in the same order |
| Forged.EveryForgeryIsReported | bin/board.py:461-463 | An exception is reported exactly when some forged event is what it reports, and there are as many as there are forgeries |
| Forged.BriefIgnoresForged | bin/board.py:293-313 | The brief state, with its first-copy lookup, does not see forgeries |
| Life.ReachableInOrder | bin/board.py:215-226 | On every reachable card events and decisions stand in time order and none is in the future |
| Life.WantsMeans | bin/board.py:485-491 | A card wants a run only when undeleted, unblocked and in the column that wants it |
| Life.PickMeans | bin/board.py:824-853 | An accepted pick was for the run the card wanted, under an unused run id, and records the hash of the brief then shown |
| Life.ResearchPickMeans | bin/board.py:824-853 | A research pick is made only in Todo |
| Life.ScopeEditMeans | bin/board.py:723-744 | A scope edit is accepted only in a briefing column of a card never researched |
| Life.BlockedByTrigger | bin/board.py:338-352 | One trigger later than the latest unblock is enough to block |
| Life.SinceUnblockIsMax | bin/board.py:376-378 | The unblock instant is the largest of the card's unblock decisions |
| ResearchRuns.AtMostOneOpenResearchRun | bin/board.py:316-326 | In every reachable state any research run but the newest has an outcome, whatever later became of the earlier ones |
| ResearchRuns.OnlyNewestOpenAlways | bin/board.py:355-373 | The same as an invariant kept by every verb, decision and receipt |
| ResearchRuns.EveryResearchRunAnswersApprovedBrief | bin/board.py:835-851 | Each research pick carries the hash of the last brief before it; no scope edit lies between or ever follows; the latest verdict on that hash by then was an approval |
| ResearchRuns.NoScopeEditAfterPick | bin/board.py:502-504 | Once a research run was picked no scope edit is accepted |
| ResearchRuns.FirstCopyIsLastBrief | bin/board.py:300-304 | Under a rising clock the first event equal to the last brief is the last brief: none follows it |
| BriefRuns.BriefRunsPaidByInputs | bin/board.py:425-438 | In every reachable history the live brief runs of a card number at most its human inputs since it was created; inputs of an earlier card under its id pay for none |
| BriefRuns.EachBriefRunFollowsNewInput | bin/board.py:404-438 | Between any two live brief runs there is a human input strictly after the first and no later than the second |
| BriefRuns.BriefPickIsPaid | bin/board.py:425-438 | An accepted brief pick has an input later than each earlier live brief run |
| BriefRuns.PaidCount | bin/board.py:425-438 | Disjoint intervals with an input in each are no more than the inputs: the counting step of the result above |
| Approval.ApprovalIsFinal | bin/board.py:464-497 | After the gate accepts an approval, with receipts fixed, every later verb, gated decision, planned hold and instant shows In Review (landing) or Done, whatever the deadline and whatever main holds |
| Approval.ApprovalLands | bin/control_room_board_decisions.py:57-66 | An accepted approval leaves the card landing: approved after its last live research run, not rejected, with no block that counts |
| Approval.LandedAlways | bin/board.py:338-373 | No step but a receipt or an unplanned hold dislodges a landing card |
| Approval.LandedShows | bin/board.py:464-497 | A landing card is In Review or Done, wants nothing, and offers no move but deletion |
| Approval.NoBlockNoLandingBlock | bin/board.py:338-352 | A card with no block has none either once its deadline is lifted |
| Landing.CanLandExactlyWhenNotRejected | bin/board.py:452-499 | Wherever a card stands, whatever its runs, holds, strikes, deadline and dates, some run of steps the guards and the gate accept ends in an approved, landing page if and only if the card has no rejection on record |
| Landing.EveryCardCanLand | bin/board.py:452-499 | The run itself, under any calendar: runs still out fail, the card is restored, undated and unblocked as needed, given a text and its approval, researched once its date is due, and its page approved |
| Landing.RejectionStays | bin/board.py:467-472 | No step takes a rejection back |
| Landing.MayPickResearch | bin/board.py:824-853 | A free card with an approved brief in Todo takes a research pick once its date is due |
| Landing.ReviewedHasLanded | bin/board.py:355-373 | A free card in review under a verdict is landing |
| Paths.Shows | bin/board.py:464-491 | A rejected card shows Done, else a blocked one Blocked, else the column of its flow |
| Paths.MayRestore | bin/control_room_board_decisions.py:80-98 | The gate takes the restore of a deleted card, which undoes the deletion and nothing else |
| Paths.MayUndate | bin/board.py:723-744 | A deadline there is may be taken off any card that is not rejected and has no run out, and nothing else changes |
| Paths.MayUnblock | bin/board.py:338-352 | The gate takes the unblock of a blocked card, and then no run, hold, strike or block blocks it |
| Paths.MayWrite | bin/board.py:660-693 | A free card in a briefing column takes any unused text, which then stands unapproved |
| Paths.MayApprove | bin/control_room_board_decisions.py:92-110 | A standing text no decision names may be approved, and no block comes of it |
| Paths.MayReturn | bin/control_room_board_decisions.py:92-110 | Or returned, which adds exactly one return of the card's own; the first leaves it free |
| Paths.CanBeFreed | bin/board.py:338-352 | Any card that is not rejected and has no run out comes by accepted steps to be undeleted, undated and unblocked, with its returns as they were |
| Paths.OnlyTheRecordBlocks | bin/board.py:338-352 | A card with no run, hold, deadline or second return is blocked if and only if its record holds a block or a second change request no unblock has reached |
| Strikes.ReturnsAndChangesAreConserved | bin/board.py:329-352 | In every gated run under a rising clock, whatever decisions were on record at its birth, a card's returns of its own texts are at most two plus the unblocks since, and the change requests at most two plus all unblocks; returns of earlier texts neither come nor go |
| Strikes.FirstCardReturnsAreConserved | bin/board.py:338-352 | For the first card of an id all its returns are at most two plus its unblocks |
| Strikes.ReturnedOnce | bin/board.py:687-690 | No text is ever returned twice on one id |
| Strikes.ShownWasNotReturned | bin/board.py:306-310 | A text the gate shows was never returned |
| Strikes.DeclinesAreConserved | bin/board.py:345-352 | When each receipt lands before the card's next pick, declined runs are at most two plus the unblocks since the card was created |
| Strikes.NoBlockLifts | bin/board.py:338-352 | An unblocked card has no second strike of any kind later than its latest unblock |
| Strikes.VerdictsAlways | bin/control_room_board_decisions.py:57-59 | The accounting of returns and change requests is kept by every step the gate lets through |
| Strikes.DeclinesAlways | bin/board.py:345-352 | The accounting of declined runs is kept by every paced step, pending runs included |
| Text.StoredTextRehashes | bin/board.py:660-665 | The text stored for a brief hashes to the name it is stored under |
| Order.BeforeTotal | bin/board.py:551-553 | Any two cards are ordered one way or are the same by priority, deadline and id |
| Order.BeforeTransitive | bin/board.py:551-553 | The board's order is transitive |
| Order.ArrangeArranged | bin/board_plan.py:86-89 | The arranged board is in that order, whatever order it came in |
| Board.Store.CreateCard | bin/board.py:620-645 | Creates exactly the new card, with its first brief stored under its hash, unless the id is on the board or in the trash; says whether it did |
| Board.Store.WriteBriefText | bin/board.py:660-693 | Appends exactly one brief event and stores its text, when the actor, column, hash and revision allow it; else nothing changes |
| Board.Store.WriteNoteText | bin/board.py:696-706 | Appends exactly one note, when the actor may write that kind; else nothing changes |
| Board.Store.Hold | bin/board.py:709-720 | Appends exactly one reactor hold, unless a hold is what the card already shows as its block; a card blocked for any other cause is held; else nothing changes |
| Board.Store.Edit | bin/board.py:723-744 | Appends exactly one edit of the fields that really change, when all are editable and the dates agree; else nothing changes |
| Board.Store.TakeDecision | bin/control_room_board_decisions.py:92-110 | Appends exactly Dave's decision when the gate accepts it: offered in the shown view, at the shown revision and brief; a restore when the card is trashed or deleted |
| Board.Store.TrashCard | bin/board.py:922-932 | Moves the card whole into the trash, unless the trash already holds the id |
| Board.Store.RestoreCard | bin/board.py:935-944 | Moves it back whole, unless the id is on the board again |
| Board.Store.PurgeCard | bin/board.py:975-989 | Removes a trashed card exactly when thirty days have passed since its deletion in force |
| Board.Store.Listing | bin/board.py:521-532 | Lists each undeleted card of the board once, with its joined view |
| Board.Store.FindRun | bin/board.py:824-834 | Finds the card a run id already names, if any does |
| Board.Store.TryPick | bin/board.py:835-853 | Takes the card exactly when it still wants this run in the fresh view and its brief text is on file |
| Board.Store.Pick | bin/board.py:824-853 | Takes the first card in board order that can be taken, or none when none can; a known run id is answered without a change |
| Lives.AlwaysOnePlace | bin/board.py:641-645 | Over all runs an id is never both on the board and in the trash |
| Lives.DeletionMeans | bin/board.py:441-444 | A deletion in force is the latest deletion, and no restore is later |
| Lives.PurgedWasLongDeleted | bin/board.py:975-989 | A purged card has a deletion at least thirty days old with no later restore |
| Lives.BornDeletedExactlyWhenRecycled | bin/board.py:620-645 | A created card is shown deleted from birth if and only if a deletion under its id is still in force |
| Lives.AlwaysOnFile | bin/board.py:660-665 | On every reachable board each recorded brief is on file under its hash and hashes to it |
| Lives.BriefAlwaysReads | bin/board.py:835-851 | On every reachable board the brief shown reads back, so a pick never fails for a missing or altered text |
| Lives.EveryCardHasLived | bin/board.py:215-226 | Every card of a reachable board, whatever cards bore its id before, is the outcome of one card's life under a rising clock, begun under a record that is fair |
| Lives.BoardTheorem | bin/board.py:452-499 | For every card, on the board or in the trash, of every reachable board, ids used again included: its own returns and its change requests within two plus the unblocks, brief runs paid by inputs since its creation, at most the newest research run open, every research run answering an approved brief, everything in time order; declined runs too when paced |
| Recycled.ReturnsBoundedExactlyWhen | bin/board.py:338-352 | For a new card under any fair record: all the returns on its id stay within two plus its unblocks along every run of accepted steps if and only if at its birth the returns of earlier texts number at most the unblocks (one more if the record holds the card blocked), or it is rejected and within the bound already |
| Recycled.BoundedBirthStays | bin/board.py:338-352 | The condition is enough under any clock that rises and any dates |
| Recycled.HeldAlways | bin/board.py:338-352 | A card born blocked by its record takes no return until a first unblock, and is accounted from then on |
| Recycled.RejectedStays | bin/board.py:467-472 | A rejected card takes neither a return nor an unblock |
| Recycled.CanReturnTwice | bin/control_room_board_decisions.py:92-110 | A new card that is not rejected can come to two returns of its own, with an unblock only if its record holds it |
| Recycled.WornLife | bin/board.py:975-989 | On the board: a whole life of an id, created, returned twice, deleted, trashed and purged, leaves two more returns on record |
| Recycled.ReturnsWithoutBound | bin/board.py:338-352 | For every n some reachable board has a new card under 2n returns and no unblock |
| Recycled.SomeIdIsRecycled | bin/board.py:620-645 | Some reachable board takes a card under an id whose deletion is still in force |
| Plan.MakePlan | bin/board_plan.py:171-177 | The planner's loops compute exactly `PlanOf`: actions, wake and cap |
| Plan.Planner.Card | bin/board_plan.py:121-131 | One card adds exactly its actions, queue entry and wakes |
| Plan.Planner.Wanted | bin/board_plan.py:133-143 | A card that wants a run is held, or queued when ready, or wakes the loop when it will be |
| Plan.Planner.TrashPass | bin/board_plan.py:145-152 | Pending restores come first; a due row is purged only without one |
| Plan.Planner.RestoreOne | bin/board_plan.py:154-159 | A restore is planned, or the loop wakes when its backoff ends |
| Plan.Planner.Spend | bin/board_plan.py:161-168 | Starts as much of the queue as the budget allows and says whether the day's cap cut it |
| PlanProps.StartIsSafe | bin/board_plan.py:121-143 | A started card is undeleted, wants that run, has no unit active, is not quarantined, and its cooldown and backoff are over |
| PlanProps.StartsAreTheHead | bin/board_plan.py:161-168 | The starts of a plan are exactly the head of the queue |
| PlanProps.StartsWithinBudget | bin/board_plan.py:161-168 | A plan starts no more than the free slots and the rest of the day's budget |
| PlanProps.StartsAreDistinct | bin/board_plan.py:161-168 | No plan starts one card twice |
| PlanProps.StartsInBoardOrder | bin/board_plan.py:161-177 | A card left out never stands before one that is started |
| PlanProps.TrashedIsIdle | bin/board_plan.py:92-96 | A plan trashes only a deleted card with neither unit active |
| PlanProps.DeletedIsStopped | bin/board_plan.py:92-96 | Every active unit of a deleted card is stopped |
| PlanProps.RestoredOrPurged | bin/board_plan.py:145-159 | No plan both restores and purges a card, and a purge is past the retention |
| PlanProps.PurgeIsFor | bin/board_plan.py:145-152 | A purge names a trash row that is due, with no restore pending |
| PlanProps.UnwantedIsLeft | bin/board_plan.py:121-131 | A card that wants nothing is neither started nor held |
| PlanProps.NoLostWakeUp | bin/board_plan.py:107-177 | Every undeleted card that wants a run and has no unit active is held, or started, or cut by a capped plan or one that wakes within 30 s, or the loop wakes no later than the same state would queue it |
| PlanProps.CutQueueWakes | bin/board_plan.py:161-168 | Read off the definition of the wakes: a queue the budget cuts wakes the loop within the recheck, or the plan is capped |
| PlanProps.ScheduledWakes | bin/board_plan.py:121-131 | A scheduled card's due time wakes the loop |
| PlanProps.RestoreWakesUp | bin/board_plan.py:154-159 | A pending restore is planned, or the end of its backoff wakes the loop |
| Quarantine.HoldIsAfterUnblock | bin/board_plan.py:99-104 | Every hold the planner emits is stamped strictly after the card's latest unblock |
| Quarantine.HoldApplies | bin/board.py:709-720 | Such a hold is accepted and the card then derives Blocked |
| Quarantine.HoldBlocks | bin/board.py:333-352 | A reactor hold later than the latest unblock blocks the card, whatever else it holds |
| Quarantine.HoldSticks | bin/board.py:338-352 | Until an unblock at or after its stamp a held card is Blocked or Done at every instant and wants nothing |
| Quarantine.PlannerLeavesHeldCard | bin/board_plan.py:121-143 | While the hold sticks the planner neither starts nor holds the card |
| Quarantine.HoldStaysOnLedger | bin/board.py:215-226 | No later step removes the hold |
| Quarantine.HoldMeans | bin/board_plan.py:99-143 | A planned hold is for a card that wants a run, for the reason quarantine gives |
| Reactor.Machine.constructor | bin/board_reactor.py:84-88 | The empty state satisfies the invariant |
| Reactor.Machine.Pass | bin/board_reactor.py:165-196 | Applies exactly the plan's actions up to the first permanent error, each with its effect and its memory, whatever each call answers; the invariant is kept: units within the limit, one a card, no day over its cap, every count a real try, the tries of a card spaced, a receipt only where health flipped; gives the wake, by midnight when capped, and the verdict |
| Reactor.Machine.BeginPass | bin/board_reactor.py:172-175 | Settles memory against the observation, charges nothing, and plans what is left to spend |
| Reactor.Machine.ApplyAll | bin/board_reactor.py:176-187 | The loop's effects, memory, charges, first transient failure and permanent error are exactly those of the applied prefix |
| Reactor.Machine.ApplyOne | bin/board_reactor.py:178-183 | One action's effect, memory and charge, with the count kept equal to the day's charged starts |
| Reactor.Machine.Remember | bin/board_reactor.py:198-212 | A start adds one try, and clears or doubles the backoff by its answer; only a success counts against the day |
| Reactor.Machine.RememberRestore | bin/board_reactor.py:214-221 | A restore clears its memory or backs off further, and touches no other entry |
| Reactor.Machine.RunsToday | bin/board_reactor.py:104-108 | Returns the number of starts charged to today, which is none on a new day |
| Reactor.Machine.RecordHealth | bin/board_reactor.py:132-137 | Writes a receipt exactly when class or reason changes |
| Reactor.Machine.ObserveFails | bin/board_reactor.py:223-227 | A permanent failure to observe raises without a receipt; a transient one retries after the base |
| Reactor.Machine.UnitExits | bin/board_source.py:52-62 | A unit may end at any time without breaking the invariant |
| Reactor.LimitsHold | bin/board_reactor.py:165-187 | A plan applied to any point, under any answers and exits, exceeds neither the units, nor one a card, nor any day's cap, and charges only starts it planned |
| Reactor.UnitsBounded | bin/board_reactor.py:176-187 | Every unit active after any prefix was active before or is a planned start |
| Reactor.LogBounded | bin/board_reactor.py:198-212 | Every charge of any prefix is a planned start, charged to the pass's own day |
| Reactor.TriesAreSpaced | bin/board_plan.py:107-111 | Read off the invariant that `Reactor.Machine.Pass` keeps: while a card stays on the board, no start is tried within the cooldown of the one before, nor before the backoff of a failed one is over |
| Reactor.SpacedAfter | bin/board_reactor.py:198-212 | Applying any prefix of rested starts keeps the tries spaced and memory true to the last of them |
| Reactor.StaysSpaced | bin/board_plan.py:133-143 | A plan tries no card before its cooldown and backoff are over, wherever it is cut |
| Reactor.PlanFits | bin/board_reactor.py:174-176 | A plan's starts fit the slots beside the busy units and the rest of the day's cap |
| Reactor.PlanStartsSafe | bin/board_plan.py:121-143 | A plan's starts are for different cards, none with a unit active |
| Reactor.UnitsStayApart | bin/board_plan.py:121-168 | Applying them to any point leaves at most one unit a card |
| Reactor.CountedSettles | bin/board_plan.py:66-83 | Read off the definition of settling: memory counts exactly the tries since the last reset, at most the limit |
| Reactor.ResetsHaveCause | bin/board_plan.py:78-83 | Read off the definition of settling: on a card still on the board a count is dropped only by a pick or unblock no older than its last try |
| Reactor.CountedIsTrue | bin/board_plan.py:99-104 | Read off the invariant: a counted start happened and is not in the future, as quarantine relies on |
| Reactor.BackoffGrows | bin/board_reactor.py:79-80 | A backoff is at least the base, at most the ceiling, and never shrinks with more failures |
| Source.Observe | bin/board_source.py:86-97 | The observation holds each card and each trashed card once, the trash rows with their purge times, and memory settled against them |
| Source.ApplyToBoard | bin/board_source.py:116-130 | Each ledger action has exactly its verb's effect and answers as the verb does |
| Source.PlannedHoldBlocks | bin/board_source.py:116-118 | A hold planned from an observation and applied to that board leaves the card Blocked |
| Source.PlannedPurgeIsDue | bin/board_source.py:128-130 | A purge planned from an observation is carried out: planner and verb agree on when time is up |
| Joint.QuarantineHoldsUntilUnblock | bin/board_reactor.py:165-196 | Over any interleaving of people's verbs, ending units and passes, from an empty board and an idle reactor: once a pass considers a card tried `attempts` times since its count was last reset, or failed as often in a row, no later pass starts or holds it, and it shows Blocked or Done, until an unblock no older than that pass or a purge |
| Joint.QuarantineTakes | bin/board_plan.py:99-143 | Such a pass, unless a permanent error ends it or the ledger refuses, leaves a hold later than every unblock on the card's ledger, whatever else it applies |
| Joint.HeldIsLeft | bin/board_plan.py:121-143 | While that hold is on the ledger and unlifted a pass neither starts nor holds the card, on the board or in the trash |
| Joint.HeldAlong | bin/board.py:215-226 | No verb and no pass takes the hold off a card that is not purged |
| Joint.AlwaysSound | bin/board_reactor.py:165-212 | Every run keeps an id in one place, ledgers and decisions in time order, and memory that counts exactly the tries since the last reset |
| Joint.CountedAfter | bin/board_reactor.py:198-212 | Applying a plan to any point keeps that count |
| Joint.HeldByPass | bin/board_reactor.py:176-187 | Applied action by action, a pass leaves the card untouched up to its hold and held from then on |
| Incidents.CountersRefineHistory | bin/incident_state.py:43-109 | After any sweep sequence an entry is open exactly when the history says so, and then its green streak, green-since and red streak are the history's own |
| Incidents.ResolvesExactlyWhenSpellHolds | bin/incident_state.py:68-73 | An open incident resolves at a sweep if and only if that healthy green spell has reached three sweeps or the window; never on a degraded sweep |
| Incidents.RefinesStep | bin/incident_state.py:88-109 | One sweep keeps the refinement |
| Incidents.GreensCount | bin/incident_state.py:68-73 | The spell's length is the number of healthy sweeps that did not observe the key |
| Incidents.RedsCountExactlyWhen | bin/incident_state.py:56-65 | Reds count observing sweeps if and only if none of the sweeps counted observes the key twice |
| Incidents.KeepFirst | bin/workflow_incidents.py:167-170 | The loop hands on, of what was found, exactly the first item of each key in the order of first sight |
| Incidents.HandedOnOnce | bin/workflow_incidents.py:167-170 | Each key found is handed on once, by its first item, and no other key is |
| Incidents.HandedOnExactlyWhenDistinct | bin/workflow_incidents.py:167-170 | Handing on leaves items as they are if and only if no key is among them twice |
| Incidents.RedStreakCountsSweeps | bin/incident_state.py:56-65 | After any sweeps, so handed on, the red streak of an open incident is the number of sweeps that found its key since the last healthy sweep that did not, or since it opened |
| Incidents.DueExactlyWhen | bin/incident_state.py:76-80 | An open incident is due if and only if opening is immediate, or it was observed three times since the last healthy green sweep, or it has stood open for the window |
| Incidents.OpenEntryDates | bin/incident_state.py:43-53 | An open entry dates from the sweep that opened it, by its first item's own stamp if it has one |
| Incidents.FlappingStaysOpen | bin/incident_state.py:68-73 | A key whose spells from its first sighting on all stay short, once open, stays open |
| Incidents.FlapsExactlyWhenNeverResolved | bin/incident_state.py:68-109 | Those are exactly the keys whose incident, from their first sighting on, is open after every sweep |
| Incidents.UnseenFlaps | bin/incident_state.py:68-73 | However many healthy sweeps pass before a key is first seen, they are no spell of it |
| Notify.Monitor.constructor | bin/incident_state.py:39-40 | The empty state satisfies the invariant |
| Notify.Monitor.Reconcile | bin/incident_state.py:88-109 | Moves every key by exactly its own step and reports what opened, updated and closed |
| Notify.Monitor.ObserveOne | bin/incident_state.py:93-102 | One item opens a new entry or adds a red to the open one |
| Notify.Monitor.GreenOne | bin/incident_state.py:105-108 | One unobserved open key goes green, and is closed exactly when its spell is long enough |
| Notify.Monitor.Prune | bin/incident_state.py:112-118 | Drops exactly the entries resolved longer ago than the retention |
| Notify.Monitor.SendOpens | bin/incident_notify.py:240-255 | Sends, in order of first sight, exactly the due, unreported, immediate entries with attempts left, up to the limit, each marked by its own answer |
| Notify.Monitor.SendRecoveries | bin/incident_notify.py:257-268 | Sends exactly one recovery for each resolved entry reported open and not yet reported closed, marked by its answer |
| Notify.Monitor.SendDigest | bin/incident_notify.py:270-286 | Lists exactly the open entries when due or forced, once until the gate moves |
| Notify.Monitor.Run | bin/incident_notify.py:288-314 | One sweep: every entry is what reconciling and pruning make it, sending only marks entries, and without a channel nothing is sent, tried or marked |
| Notify.PendingAre | bin/incident_notify.py:240-247 | Each pending entry is the state's own, due, and pending once |
| Notify.RecoveriesAre | bin/incident_notify.py:257-268 | What each entry's recovery came to |
| Notify.MessagesAreBounded | bin/incident_notify.py:225-268 | Read off the invariant that `Notify.Monitor.Run` keeps: at every point of any run, for every key, since its incident opened at most one open message was sent, and only for an entry that was due and immediate; at most one recovery and only after that open; and failed opens stay within the attempt limit |
| Notify.FlappingPagesOnce | bin/incident_state.py:68-80 | A key whose green spells, from its first sighting on, all stay below both thresholds pages at most once over the whole run and never recovers |
| Notify.DigestOncePerGate | bin/incident_state.py:121-127 | Read off the definition of the gate: after a digest none is due until the gate moves past it |
| Spans.ChunkSpans | bin/notion_markdown.py:90-99 | The loop cuts exactly the long spans into pieces |
| Spans.FitSpans | bin/notion_markdown.py:102-111 | The search from the longest prefix down gives exactly `Fit` |
| Spans.FitIsWithinLimits | bin/notion_markdown.py:102-111 | At most 100 spans of at most 1900 characters, whatever comes in |
| Spans.FitIsLosslessUpToLimit | bin/notion_markdown.py:102-111 | The text survives if and only if it is at most 190,000 characters |
| Spans.FitKeepsLongestPrefix | bin/notion_markdown.py:102-111 | When it must merge and can do so losslessly it keeps the longest prefix that still fits |
| Spans.ChunkedSpells | bin/notion_markdown.py:90-99 | Chunking keeps the text |
| Spans.PlainTextIsCarried | bin/notion_markdown.py:114-120 | A text up to the limit is carried whole by a block |
| Spans.PlainTextIsCut | bin/notion_markdown.py:102-120 | A longer one is cut exactly at the limit |
| PageWrite.Batches | bin/agent_inbox_notion_sync.py:127-139 | The batches concatenate to the input, each within the limit unless one oversized block, and none had room for the next block |
| PageWrite.GreedyIsOptimal | bin/agent_inbox_notion_sync.py:127-139 | No order-preserving split within the limit uses fewer batches |
| PageWrite.GreedyStaysAhead | bin/agent_inbox_notion_sync.py:127-139 | The first n greedy batches reach at least as far as the first n of any other split |
| PageWrite.BatchesWithinLimit | bin/agent_inbox_notion_sync.py:127-139 | When every block fits, so does every batch |
| PageWrite.Page.WriteBody | bin/agent_inbox_notion_sync.py:168-188 | One attempt cut after any number of calls leaves the whole page untouched, or a suffix of what stood, or the first batches of the body |
| PageWrite.Page.Delete | bin/agent_inbox_notion_sync.py:179-181 | Removes exactly the one child |
| PageWrite.Page.Append | bin/agent_inbox_notion_sync.py:182-184 | Adds exactly the batch at the end, under new ids |
| PageWrite.AttemptIsAllOrNothing | bin/agent_inbox_notion_sync.py:160-188 | After an attempt the page ends in the sentinel exactly when it was whole before or the attempt ran to its end, and then it holds the whole body |
| PageWrite.SentinelMeansWhole | bin/agent_inbox_notion_sync.py:160-188 | For any schedule of cut attempts a page ending in the sentinel holds exactly a whole body |
| PageWrite.WholePageStays | bin/agent_inbox_notion_sync.py:160-175 | Once whole, later attempts write nothing |
| PageWrite.FirstCompletionIsFinal | bin/agent_inbox_notion_sync.py:168-188 | The first attempt that completes leaves exactly its body for good |
| Markdown.BlocksFromMarkdown | bin/notion_markdown.py:203-233 | The line scanner computes exactly `Parse` |
| Markdown.ConsumeTable | bin/notion_markdown.py:173-184 | Takes the rows up to the first blank or pipeless line, each fitted to the header's width |
| Markdown.ConsumeFence | bin/notion_markdown.py:187-193 | Takes the lines up to a closing fence at least as long, or the end |
| MarkdownPrint.BlocksToMarkdown | bin/notion_research.py:162-171 | The printer's loop, with its running number and previous type, computes exactly `Print` |
| PlainLines.RowSplits | bin/notion_markdown.py:151-157 | A printed table row splits into its own cells |
| PlainLines.RuleIsSeparator | bin/notion_markdown.py:160-164 | The rule printed under a header reads as a separator |
| PlainLines.HeadingLine | bin/notion_markdown.py:131-135 | A printed heading opens a heading of its level and text |
| PlainLines.NumberedLine | bin/notion_markdown.py:138-140 | A printed numbered item opens one with its text, whatever its number |
| PlainLines.SplitJoined | bin/notion_markdown.py:210-210 | Lines with no break of their own come back from the printed text |
| RoundTrip.ParseUndoesPrint | bin/notion_markdown.py:203-253 | For every list of plain blocks, no paragraph of which begins with a mark, parsing the printed text gives back the same blocks |
| RoundTrip.ParseReadsPrint | bin/notion_markdown.py:203-253 | For every list of plain blocks, parsing the printed text gives each block back, a paragraph that begins with a mark as the heading or item the mark opens |
| RoundTrip.ScanPrintable | bin/notion_research.py:134-159 | Whatever is parsed can be printed: each table has its header |
| RoundTrip.ScanLines | bin/notion_markdown.py:203-253 | Scanning the printed lines of plain blocks yields each as it reads, the last one possibly still open |
| Canon.CanonicalSettlesExactlyWhen | bin/notion_research.py:72-73 | For every page whose parsed blocks are tame, `canonical` taken twice is the same as taken once if and only if no paragraph begins with a mark that moves, none reads as an item beside an item of its type, and no bullet reads as a rule below a pipe |
| Canon.WrappedSettlesExactlyWhen | bin/notion_research.py:72-73 | For one paragraph of several lines: if and only if its first line is not a star, a plus, four to six hashes, or a number other than one |
| Canon.TameIsPlain | bin/notion_markdown.py:203-253 | Whatever page is parsed, blocks without inline marks, cut text or a fence-closing code line are plain: trimmed where the parser trims, one line each, a paragraph opening nothing but by a mark joined from its first line |
| Canon.MarkPrints | bin/notion_research.py:145-159 | A paragraph that begins with a mark prints back as itself exactly when the mark is a dash, one to three hashes, or the number one |
| Canon.SameLinesKeep | bin/notion_research.py:162-171 | If a page prints back line for line, no mark moved and no blank line was lost |
| Canon.RulesMove | bin/notion_markdown.py:160-184 | A page with a bullet that reads as a rule below a pipe never prints back as it was: the two read as a table |
| Canon.CanonicalIsIdempotent | bin/notion_research.py:72-73 | On the printed output of plain blocks, no paragraph of which begins with a mark, `canonical` changes nothing, so the page's hash is stable |
| Canon.CanonicalMayMove | bin/notion_research.py:72-73 | On some text it does: "7." wrapped before "x" becomes "7. x", and then "1. x" |

## Left out

- Locks, files, JSON lines and directory walking: each verb is one atomic step on sequences and maps.
- Time parsing, time zones and daylight saving: due times, the local day and midnight are given.
- The shape checks of arguments (ids, dates, required strings) and the owner and kind filters of a pick: one owner and one kind.
- The migration of idea cards, the rendering of cards, pages and messages, the command line and the web views.
- The broker's signature and transport: a decision the gate accepts is appended.
- How a receipt is validated: workflow_receipt.py is not part of this model; a receipt gives an outcome and a page.
- Board.Store.TakeDecision: whether the exported page still hashes to the rendered one is a parameter of the step.
- systemctl, inotify and the watchdog: a call answers, a unit exits, a pass happens.
- Reactor.Machine.Pass: other ledger verbs between the observation and the actions of one pass are not interleaved; the plan is applied to what was observed.
- Source.PlannedHoldBlocks: for a hold applied to the board it was planned from; `Joint` has the other moves of a pass between.
- Joint.Passed: a pass observes and applies at one instant, as one move; people's verbs come before or after it.
- Approval.ApprovalIsFinal: receipts stay as they are and holds come only from the planner, which holds only a card that wants a run.
- Strikes.DeclinesAreConserved: needs each receipt to land before the card's next pick; without that a run picked before the second decline may still decline.
- Landing.CanLandExactlyWhenNotRejected: the run needs a text no decision names and a run id no pick or receipt names.
- Canon.CanonicalSettlesExactlyWhen: stops at three kinds of block: text with inline marks, text that reaches the limit of 190,000 characters and is cut, and code that holds a line closing a fence of three, whose second half is then read as markdown and may settle or not.
- Incident entries written by older versions, event and channel ids of sent messages, and the dry run.
- Notion's HTTP calls and their errors: a DELETE or PATCH happens or the attempt is cut before it.
- PageWrite.Page.WriteBody: the sentinel pattern is the block's given `mark`, and an earlier block that reads as the sentinel is excluded where a theorem needs it.
- Inline marks (bold, code, links, addresses): the inline parser stands as the identity, so `RoundTrip` and `Canon` speak of text without them.
- RoundTrip.ParseUndoesPrint: code has no line that would close its fence, each text is within one block's limit, and no bullet reads as a rule below a pipe.
