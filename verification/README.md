# The stake accounting, round machine and allocators of the sequencer pallets

This project models, and proves properties of, four parts of the chain's runtime.

- **Stake accounting** of `pallet-sequencer-staking`. Six storage maps (`CandidateInfo`, `TopDelegations`,
  `BottomDelegations`, `DelegatorState`, `DelegationScheduledRequests`, `CandidatePool`) describe the same money from
  different sides, next to `Total` and the pallet's balance of the staked asset. The dispatchables edit all of them by
  hand. `Storage.Inv` says what makes them agree; every dispatchable keeps it, and so does every run.
- **The round machine** of the same pallet: round changes, one snapshot of the next sequencers per round, one delayed
  payment per block, and rewards split in parts per billion.
- **Grouping** of the selected sequencers (`pallet-sequencer-grouping`): shuffle, partition, processors in turn.
- **Application allocation** to groups (`pallet-container`).

## How it is built

`Config` holds the runtime's constants as symbols, so every result holds for every runtime that has at least one top
and one bottom slot, a positive minimum delegation, and a payment delay of at least one round.

Three layers carry the stake accounting.

1. Values: `Bonds`, `DelegationList`, `Tiers` (the two-tier list, its edits as functions, and what they do to the
   ledger of backers), `Queues` (the order among equal amounts, in both tiers), `OrderedSets`, and `Book` with
   `Bookkeeping` (delegations from both sides, and requests).
2. `Storage.Pallet` is the pallet as a class with its storage items as fields. The modules from `DelegatorRecord` to
   `CandidateExit` hold its operations as methods, step by step as the source takes them. Each method is proved against
   a predicate over the storage before and after (`Admitted`, `Delegated`, `Executed`, `Exited`, ...) and against its
   exact error. Every such predicate is proved to keep the invariant and to move exactly the right money.
3. `Dispatch` turns the calls into one step relation; `Admission` says when a call succeeds and `Deeds` what it then has
   done; `Effects` and `Holdings` say what one step can do to one candidate, one delegation, one request and one account;
   `Runs` has the theorems over whole histories.

`Rounds.RoundBook` is the round machine as a class. `Payouts` divides a reward; `Payees` says who is paid, and how much at
least. `World` puts staking and rounds together; `RoundRuns`, `PayoutRuns`, `FallBack` and `RewardRuns` have its theorems
over whole histories. `Grouping.GroupBook` and `Container.AppBook` are classes, too, and `Blocks` joins the hook of the
staking pallet with the grouping it triggers.

Records that the source reads from storage, changes and writes back (`CandidateMetadata`, `Delegator`, `Delegations`)
are values here, because reading storage copies them; the storage items and the ordered sets are fields of classes.
Hooks are not transactional and dispatchables are: in the staking pallet no error leaves a write behind, which the
methods prove; in the container pallet one does, and the roll-back is modelled.

## What the source says about itself, and what is proved instead

The model follows the code. Where the code departs from its comments or from what one would expect, the exact facts are
proved.

- `decrease_bottom_delegation` does not lower `bottom_delegations.total` (types.rs:1005-1035). That total therefore
  exceeds the bottom delegations by all decreases executed there since the candidate joined (`Runs.DriftOverRuns`).
- A candidate's exit takes the excess off `Total` along with the stake (lib.rs:1423-1448), and a `Total` that would go
  below zero is set to zero. So `Total` is never more than the live stake; the gap is exactly the least, over all
  moments so far, of the live stake then and what exits have lost since (`Runs.TotalIsExact`); and there is none if and
  only if no exit has lost anything since there last was no stake at all (`Runs.TotalMeetsStake`). `LossyExit` makes a
  whole run, for any size of the tiers, that ends with a gap (`LossyExit.TotalFallsShort`).
- An exit pays every delegation back but keeps the candidate's own bond of the staked asset; only the native lock is
  removed (`Runs.Custody` and `Runs.WealthOverRuns` account for it).
- A scheduled decrease waits for `RevokeDelegationDelay` (delegation_requests.rs:167).
- `rm_top_delegation` returns whether the counted total is unchanged, while its comment says "changed". Both lists are
  right in either case, and so is the pool.
- A top delegation that is bumped goes behind bottom delegations of its own amount, as a newcomer would. A delegation
  that is lowered within its tier stays ahead of those that had the amount before (`Queues.LowerQueues`).
- A sequencer without delegations is paid its portion of the issuance for stakers only, and no commission
  (`Payees.EverybodyIsPaid`).
- `set_blocks_per_round` does not look at the snapshot point. A round of L blocks takes its one snapshot iff the point
  is below L (`RoundRuns.EndedRound`); a round that ends before it leaves the next one without snapshots
  (`FallBack.MissedSnapshot`). A block panics if and only if it is to take a snapshot, nobody can be selected, somebody
  was selected before, and the round before went without a snapshot (`FallBack.PanicsExactly`). `ShortRound` makes a
  whole run of calls that pass every check and end with such a block (`ShortRound.ShortRoundPanics`).
- A round that is due drains iff it has at most L - 1 snapshots; what is left after it is never paid
  (`RoundRuns.DrainedRound`, `RoundRuns.LeftoverStays`).
- The points of a round saturate. They keep up with an award iff they do not pass their limit with it, or nobody else was
  awarded any, which is known before the award; the awards of a round add up to exactly its points iff these kept up with
  each one, and exceed them if not (`RewardRuns.AwardsAddUp`). The payments are bounded by the reward if they did
  (`RewardRuns.RewardBound`), and by the portion of it that the awards are of the points in any case
  (`RewardRuns.RewardBoundByAwards`).
- The bound needs the shares of each paid snapshot to fit, which they do iff some stake counts or the library's share of
  nothing, once for everybody, fits (`RewardRuns.PaidShares`, `Payouts.EmptySnapshotPays`).
- A group metric from genesis is not checked: beyond the bounds, grouping panics (`Grouping.TriggerGroup`).
- With no groups, the bound `group_number - 1` wraps around, and the processors run out of room unless there are very
  many; a build with overflow checks panics there instead.

## Model

| member | source | states |
|---|---|---|
| DelegationList.BinarySearchDesc | pallets/sequencer-staking/src/types.rs:184-213 | the search finds an equal amount or the only place between larger and smaller ones |
| DelegationList.InsertSortedGreatestToLeast | pallets/sequencer-staking/src/types.rs:184-213 | the walk past equal amounts inserts where the stable insertion does, and adds the amount to the total |
| DelegationList.InsertDescIsFifo | pallets/sequencer-staking/src/types.rs:184-213 | a new delegation queues behind all of its amount, and no two others of one amount change places |
| DelegationList.SortDescIsStable | pallets/sequencer-staking/src/types.rs:178-181 | sorting a list keeps the order among equal amounts |
| Tiers.AddHolds | pallets/sequencer-staking/src/types.rs:490-633 | adding keeps both tiers in shape, enters exactly the new delegation, and drops exactly the kicked one |
| Tiers.KickedIsLeast | pallets/sequencer-staking/src/types.rs:498-528 | the delegation that makes room is the least of all, and less than the newcomer |
| Tiers.RemoveHolds | pallets/sequencer-staking/src/types.rs:637-746 | removal keeps both tiers in shape and takes exactly one delegation out, refilling the top from the bottom |
| Tiers.RaiseHolds | pallets/sequencer-staking/src/types.rs:750-891 | an increase keeps both tiers in shape and changes exactly one amount, climbing into the top if it must |
| Tiers.LowerHolds | pallets/sequencer-staking/src/types.rs:894-1035 | a decrease keeps both tiers in shape and changes exactly one amount, sinking into the bottom if it must |
| Tiers.TopIsLargest | pallets/sequencer-staking/src/types.rs:456-472 | no choice of MaxTop delegations sums to more than the top tier does |
| Tiers.TopIsASelection | pallets/sequencer-staking/src/types.rs:456-472 | the top tier is such a choice, with as many delegations as fit |
| Tiers.TierOf | pallets/sequencer-staking/src/types.rs:637-664 | a delegation is in exactly one tier, and its amount lies on that tier's side of the cached bounds |
| Queues.AddQueues | pallets/sequencer-staking/src/types.rs:490-633 | of equal amounts in either tier: a newcomer goes behind its equals, the newest of the lowest is bumped and kicked, and who is bumped goes behind its equals below |
| Queues.RemoveQueues | pallets/sequencer-staking/src/types.rs:637-746 | of equal amounts: the rest keep their order, and of the highest of the bottom the one that waited longest rises, behind its equals in the top |
| Queues.RaiseQueues | pallets/sequencer-staking/src/types.rs:750-891 | of equal amounts: who adds goes behind its new equals; if it rises, the newest of the lowest of the top changes places with it |
| Queues.LowerQueues | pallets/sequencer-staking/src/types.rs:894-1035 | of equal amounts: who takes out stays ahead of its new equals in its tier; if it sinks, the one of the highest of the bottom that waited longest changes places with it, each behind its equals |
| Queues.NothingMoves | pallets/sequencer-staking/src/types.rs:750-924 | an increase or decrease of nothing leaves both tiers as they are |
| Queues.QueuesAreAll | pallets/sequencer-staking/src/types.rs:178-213 | sorted lists with the same queue for every amount are the same list, so that these laws determine both tiers |
| OrderedSets.BinarySearch | pallets/sequencer-staking/src/set.rs:54-63 | finds the owner's entry, or the only place for it |
| OrderedSets.OrderedSet.Insert | pallets/sequencer-staking/src/set.rs:54-63 | inserts iff the owner is new, and the set stays strictly ascending |
| OrderedSets.BoundedOrderedSet.TryInsert | pallets/sequencer-staking/src/set.rs:129-136 | fails iff the owner is new and the set is full; else as the unbounded set |
| OrderedSets.BoundedOrderedSet.Remove | pallets/sequencer-staking/src/set.rs:138-147 | removes exactly the owner's entry, and says whether there was one |
| OrderedSets.SortDedupIdle | pallets/sequencer-staking/src/set.rs:40-52 | sorting and dropping duplicates leaves a set that is already ordered alone |
| Bookkeeping.PlaceKeeps | pallets/sequencer-staking/src/lib.rs:1142-1229 | a delegation entered on both sides keeps mirror, delegator records, requests and pending sums |
| Bookkeeping.ReleaseKeeps | pallets/sequencer-staking/src/types.rs:582-617 | ending a delegation on both sides, with its request, keeps them; an empty record disappears |
| Bookkeeping.ReviseKeeps | pallets/sequencer-staking/src/types.rs:1219-1272 | a new amount on both sides keeps them if the pending request can live with it |
| Bookkeeping.AskKeeps | pallets/sequencer-staking/src/delegation_requests.rs:69-189 | a request that a live bond covers keeps them, and the pending sum grows by its amount |
| Bookkeeping.WithdrawKeeps | pallets/sequencer-staking/src/delegation_requests.rs:192-233 | a request taken back lowers the pending sum by exactly its amount |
| Storage.Transfer | pallets/sequencer-staking/src/types.rs:344-352 | a transfer succeeds iff the source has the amount |
| Storage.MovedHolds | pallets/sequencer-staking/src/types.rs:344-352 | a transfer conserves the supply and moves exactly the amount between the two accounts |
| Storage.GenesisOk | pallets/sequencer-staking/src/lib.rs:313-316 | the empty pallet satisfies the invariant |
| DelegatorRecord.RmDelegation | pallets/sequencer-staking/src/types.rs:1189-1215 | the bond is removed and paid back; with custody in order the lock decrease cannot fail |
| DelegatorRecord.RemoveRequestWithState | pallets/sequencer-staking/src/delegation_requests.rs:384-400 | the request disappears, and its amount from the pending sum |
| CandidateRecord.UpdateActive | pallets/sequencer-staking/src/lib.rs:1458-1466 | an active candidate's pool entry becomes the new total, and nothing else changes |
| CandidateRecord.ResetTopData | pallets/sequencer-staking/src/types.rs:456-472 | every cached figure of the top is what recomputing gives, and the pool follows |
| CandidateState.AddBottomDelegation | pallets/sequencer-staking/src/types.rs:570-633 | a full bottom loses its lowest delegation, whose delegator is paid; its consistency checks never fire |
| CandidateState.AddTopDelegation | pallets/sequencer-staking/src/types.rs:533-565 | a full top bumps its lowest delegation into the bottom |
| CandidateState.AddDelegation | pallets/sequencer-staking/src/types.rs:490-529 | the cached figures alone put the delegation where the sorted lists would; the kicked amount is exact |
| CandidateRemoval.RmTopDelegation | pallets/sequencer-staking/src/types.rs:666-713 | a delegation below the top's bounds is not found and nothing changes; otherwise it leaves and the bottom refills |
| CandidateRemoval.RmDelegationIfExists | pallets/sequencer-staking/src/types.rs:637-664 | at its true amount every delegation is found, ties at the tier border included |
| CandidateChange.IncreaseDelegation | pallets/sequencer-staking/src/types.rs:750-779 | at its true amount every delegation is found and raised, whichever list is tried first |
| CandidateChange.IncreaseBottomDelegation | pallets/sequencer-staking/src/types.rs:815-891 | a bottom delegation that outgrows the top changes places with the lowest top one |
| CandidateChange.DecreaseDelegation | pallets/sequencer-staking/src/types.rs:894-924 | at its true amount every delegation is found and lowered, whichever list is tried first |
| CandidateChange.DecreaseTopDelegation | pallets/sequencer-staking/src/types.rs:926-1003 | a top delegation that sinks below the bottom changes places with the highest bottom one |
| CandidateChange.DecreaseBottomDelegation | pallets/sequencer-staking/src/types.rs:1005-1035 | the bottom list is lowered and its total is not |
| Delegate.DelegateInner | pallets/sequencer-staking/src/lib.rs:1142-1229 | the exact error of every refusal, which changes nothing; else the delegation on both sides, the kick and the money |
| Delegate.DelegatedKeeps | pallets/sequencer-staking/src/lib.rs:1142-1229 | an accepted delegation keeps the invariant, custody and the gap of the total, whoever is kicked |
| Admission.DelegateSucceeds | pallets/sequencer-staking/src/lib.rs:1142-1229 | a delegation comes into being iff the candidate is active, balance and minimum suffice, there is room in the record, it is new, the hints are large enough, and the lists have a place |
| Admission.RefusesTheLeast | pallets/sequencer-staking/src/types.rs:498-528 | the lists refuse an amount iff they are full and it is larger than no delegation in them |
| Candidates.JoinCandidatesInner | pallets/sequencer-staking/src/lib.rs:1249-1288 | the exact error, or a new active candidate without stake |
| Candidates.GoOfflineInner | pallets/sequencer-staking/src/lib.rs:1290-1310 | the exact error, or the candidate idle and out of the pool |
| Candidates.GoOnlineInner | pallets/sequencer-staking/src/lib.rs:1312-1348 | the exact error, or the candidate active and in the pool with its counted stake |
| Candidates.ScheduleLeaveCandidates | pallets/sequencer-staking/src/lib.rs:768-793 | the exact error, or out of the pool at once with the exit due after the full delay |
| Candidates.CancelLeaveCandidates | pallets/sequencer-staking/src/lib.rs:816-838 | the exact error, or active and in the pool again |
| Candidates.CandidateBondMoreInner | pallets/sequencer-staking/src/types.rs:329-366 | fails iff the candidate lacks the amount; else bond, counted stake, pool, total and money move together |
| Candidates.ScheduleCandidateBondLess | pallets/sequencer-staking/src/types.rs:407-423 | the exact error, or a request due after the full delay |
| Candidates.ExecuteCandidateBondLessInner | pallets/sequencer-staking/src/types.rs:368-438 | once due it cannot fail, and exactly the requested amount is paid back |
| Candidates.CancelCandidateBondLess | pallets/sequencer-staking/src/types.rs:441-453 | the exact error, or the request gone |
| Candidates.AdmittedKeeps | pallets/sequencer-staking/src/lib.rs:1249-1288 | joining keeps the invariant and leaves the live stake as it was |
| Candidates.StatusChangedKeeps | pallets/sequencer-staking/src/lib.rs:1290-1348 | every status change keeps the pool equal to the active candidates with their counted stake |
| DelegationRequests.RequestsFit | pallets/sequencer-staking/src/delegation_requests.rs:96-104 | the bounded list always has room for another delegator's request |
| DelegationRequests.ScheduleRevoke | pallets/sequencer-staking/src/delegation_requests.rs:69-112 | the exact error, or a request for the whole current bond, due after the full delay |
| DelegationRequests.ScheduleBondDecrease | pallets/sequencer-staking/src/delegation_requests.rs:114-189 | the exact error, or a request that leaves the minimum, due after the full delay |
| DelegationRequests.CancelRequest | pallets/sequencer-staking/src/delegation_requests.rs:192-233 | the exact error, or the request gone and its amount from the pending sum |
| Ledger.LessFits | pallets/sequencer-staking/src/delegation_requests.rs:146-156 | what is pending against a delegator never exceeds what it has bonded |
| Ledger.RequestIsBacked | pallets/sequencer-staking/src/delegation_requests.rs:236-380 | every pending request rests on a live bond: a revocation on all of it, a decrease leaves the minimum |
| RequestExecution.ExecuteScheduledRequest | pallets/sequencer-staking/src/delegation_requests.rs:236-380 | only a missing delegator, a missing request or an early call can fail; a due request pays exactly its amount |
| RequestExecution.DelegatorLeavesCandidate | pallets/sequencer-staking/src/lib.rs:1469-1487 | the candidate's side of a revocation never fails |
| RequestExecution.DelegatorBondMore | pallets/sequencer-staking/src/types.rs:1219-1272 | the exact error, or the increase on both sides and the tier the delegation is in afterwards |
| CandidateExit.ReturnStake | pallets/sequencer-staking/src/lib.rs:1397-1428 | one delegation is paid back, its request dropped, and its delegator's record removed iff nothing remains |
| CandidateExit.ReturnAllHolds | pallets/sequencer-staking/src/lib.rs:1397-1435 | in the middle of the exit the rest of the book stays in order, and exactly the returned bonds were paid |
| CandidateExit.ExecuteLeaveCandidates | pallets/sequencer-staking/src/lib.rs:1383-1455 | the exact error; once due the exit cannot fail |
| CandidateExit.ExitedKeeps | pallets/sequencer-staking/src/lib.rs:1383-1455 | the exit keeps the invariant; the pallet keeps the own bond, and the total loses the bottom's excess besides the stake |
| Dispatch.Dispatch | pallets/sequencer-staking/src/lib.rs:750-1012 | every dispatchable takes a step of the relation that the theorems over runs are about |
| Dispatch.StepKeeps | pallets/sequencer-staking/src/lib.rs:750-1012 | every step keeps the invariant and accounts for all money: surplus by the inflow, gap by what was lost |
| Admission.RefusesExactly | pallets/sequencer-staking/src/lib.rs:750-1012 | every call fails with its first unmet demand, and succeeds iff all are met; the demands are told by statuses, balances, due dates, and the numbers of active candidates and of live delegations |
| Deeds.EveryDeedIsDone | pallets/sequencer-staking/src/lib.rs:750-1012 | what each successful call has achieved: the status, bond, delegation or request it leaves |
| Deeds.VanishingIsExplained | pallets/sequencer-staking/src/delegation_requests.rs:192-400 | a request disappears only by being cancelled or executed, by a kick of its delegator, or by the exit |
| Effects.OnlyTheTarget | pallets/sequencer-staking/src/lib.rs:750-1012 | a call touches no record, list or request of any candidate but its own |
| Effects.RequestIsScheduled | pallets/sequencer-staking/src/delegation_requests.rs:69-189 | only its delegator's own call puts a request on the list |
| Effects.StakeIsExplained | pallets/sequencer-staking/src/lib.rs:1142-1487 | a delegation shrinks only by its due request and its exact amount, by a larger newcomer's kick, or by a due exit; it grows only by its delegator's own call and its amount, and a new one needs an active candidate |
| Effects.RecordExplained | pallets/sequencer-staking/src/types.rs:308-453 | every change of status, from the status that allows it, every change of the own bond, and every new bond request come from the one call that may make them; a bond shrinks by the amount of its due request |
| Effects.DriftIsExplained | pallets/sequencer-staking/src/types.rs:1005-1035 | nothing but a decrease in the bottom adds to the excess of the bottom total, by exactly its amount; any other call carries the excess along, exactly up to the limit of the type |
| Holdings.WealthKept | pallets/sequencer-staking/src/lib.rs:750-1012 | balance, own bond and delegations of every account together change only by transfers and its own exit |
| Runs.AlwaysInv | pallets/sequencer-staking/src/lib.rs:750-1012 | every reachable state satisfies the whole invariant |
| Runs.Custody | pallets/sequencer-staking/src/types.rs:1108-1215 | the pallet holds exactly the live stake, the own bonds of those who left, and what came from outside |
| Runs.TotalIsBounded | pallets/sequencer-staking/src/lib.rs:1209-1218 | the total never exceeds the live stake and lags it by no more than exits lost |
| Runs.TotalIsExact | pallets/sequencer-staking/src/lib.rs:1423-1448 | in every run the total lags the live stake by exactly the least, over all moments, of the stake then and what exits lost since |
| Runs.TotalWhilePositive | pallets/sequencer-staking/src/lib.rs:1423-1448 | while it stays positive, the total falls behind by exactly what exits lose |
| Runs.TotalMeetsStake | pallets/sequencer-staking/src/lib.rs:1423-1448 | in every run the total is the live stake iff no exit lost anything since there last was no stake |
| Runs.DriftOverRuns | pallets/sequencer-staking/src/types.rs:1005-1035 | the bottom total exceeds the bottom by at most the decreases executed there since the candidate joined, and by exactly these iff they always fitted the type together with the bottom |
| Runs.TotalWithoutLateExits | pallets/sequencer-staking/src/types.rs:1005-1035 | if no candidate exits after a decrease in its bottom, the total is the live stake |
| LossyExit.TotalFallsShort | pallets/sequencer-staking/src/types.rs:1005-1035 | a run from genesis whose calls all succeed and after which the total is less than the live stake |
| Runs.WealthOverRuns | pallets/sequencer-staking/src/lib.rs:1383-1455 | nobody gains or loses over any run but by transfers and the exit of its own candidacy |
| Runs.RequestOrigin | pallets/sequencer-staking/src/delegation_requests.rs:88-104 | a pending request was scheduled by its delegator, a delay before it is due, and stayed pending since |
| Runs.StakeLeavesOnlyBy | pallets/sequencer-staking/src/delegation_requests.rs:236-249 | stake leaves only a full delay after its request, by a kick, or by an exit a full delay after its schedule |
| Runs.StakeGrowsOnlyBy | pallets/sequencer-staking/src/lib.rs:1142-1229 | over any run a delegation grows only by its delegator's own call, and by just its amount; a new one needs a candidate that is active then |
| Runs.LocksAreCandidates | pallets/sequencer-staking/src/lib.rs:1249-1288 | in every reachable state native locks are held for exactly the candidates |
| Runs.CandidateLeavesOnlyByExit | pallets/sequencer-staking/src/types.rs:308-322 | a candidate disappears only a full delay after scheduling its exit, not cancelled in between |
| Runs.OwnBondShrinksOnlyBy | pallets/sequencer-staking/src/types.rs:407-438 | an own bond shrinks only a full delay after its request, by exactly its amount |
| Runs.DueRequestExecutes | pallets/sequencer-staking/src/delegation_requests.rs:236-380 | in every reachable state a due request executes |
| Runs.DueExitExecutes | pallets/sequencer-staking/src/lib.rs:1383-1395 | in every reachable state a due exit executes |
| Runs.CountedIsTheLargest | pallets/sequencer-staking/src/types.rs:456-1035 | in every reachable state the counted stake is the bond and the MaxTop largest delegations, both sides agree on them, and the pool lists it iff the candidate is active |
| Runs.CachedFiguresAreTrue | pallets/sequencer-staking/src/types.rs:456-488 | in every reachable state the number of delegations, the least and the greatest of each tier and its capacity, as cached, are true; a bottom needs a full top |
| Snapshots.GetRewardableDelegators | pallets/sequencer-staking/src/lib.rs:1789-1819 | rewardable and uncounted stake add up to the top's, with no saturation |
| Snapshots.TakeSnapshot | pallets/sequencer-staking/src/lib.rs:1742-1758 | the snapshot's total is exactly its bond and its rewardable delegations |
| Snapshots.SnapshotHolds | pallets/sequencer-staking/src/lib.rs:1789-1819 | delegation by delegation it holds the amount less what is pending: nothing for a revocation, the rest for a decrease |
| Snapshots.SnapshotIsProper | pallets/sequencer-staking/src/lib.rs:1789-1819 | a snapshot lists each delegator once and never its own sequencer |
| Shares.PortionBound | pallets/sequencer-staking/src/lib.rs:1592-1640 | a share rounded down, of an amount rounded to the nearest, exceeds the exact portion by at most a half |
| Payouts.PayRewards | pallets/sequencer-staking/src/lib.rs:1592-1645 | the transfers made for one sequencer |
| Payees.EverybodyIsPaid | pallets/sequencer-staking/src/lib.rs:1592-1645 | the sequencer and each delegator are paid, once, within a half of their rounded-down share of the part that goes by stake, the sequencer its commission besides; nobody else is paid |
| Payees.EachGetsItsPortion | pallets/sequencer-staking/src/lib.rs:1634-1640 | where stake counts, a delegator gets its portion by stake, up to rounding |
| Payees.PartsByPoints | pallets/sequencer-staking/src/lib.rs:1572-1600 | what is divided by stake and the commission are the portions by points of the two issuances, up to rounding |
| Payouts.DuesBound | pallets/sequencer-staking/src/lib.rs:1547-1660 | they sum to at most its points' portion of the larger issuance and a half for each payee and the commission |
| Payees.DuesFloor | pallets/sequencer-staking/src/lib.rs:1592-1640 | where stake counts, what is paid for a sequencer falls short of its part by no more than the rounding of each share |
| Payouts.SharesFitExactly | pallets/sequencer-staking/src/lib.rs:1616-1635 | the shares add up to at most one iff some stake counts, or k + 1 times the share of nothing does |
| Payouts.EmptySnapshotPays | pallets/sequencer-staking/src/lib.rs:1613-1640 | where no stake counts, the sequencer and each of its delegators get the share of nothing |
| Payouts.EmptySnapshotOverpays | pallets/sequencer-staking/src/lib.rs:1613-1640 | if that is the whole, a sequencer with k delegators pays the reward k + 1 times |
| Selection.ComputeTopCandidates | pallets/sequencer-staking/src/lib.rs:1666-1701 | the min(n, pool) greatest by amount and owner, sorted, whatever the partial sort leaves |
| Selection.SelectionIsUnique | pallets/sequencer-staking/src/lib.rs:1666-1701 | there is only one such selection |
| Rounds.AwardPointsToSequencer | pallets/sequencer-staking/src/lib.rs:1868-1878 | points of the sequencer and of the round grow together, each up to the limit of its type |
| Rounds.PayOneSequencerReward | pallets/sequencer-staking/src/lib.rs:1547-1660 | one snapshot and its points are consumed, whichever comes first, or nothing is left to pay |
| Rounds.HandleDelayedPayouts | pallets/sequencer-staking/src/lib.rs:1519-1541 | only the round a delay ago is paid, and cleaned up when nothing is left |
| Rounds.SelectTopCandidates | pallets/sequencer-staking/src/lib.rs:1704-1775 | every expectation holds but one: the fall-back needs a snapshot of every selected candidate |
| Rounds.PoolIsOnRecord | pallets/sequencer-staking/src/lib.rs:1742-1745 | everybody in the pool is a candidate on record and active |
| Rounds.OnInitialize | pallets/sequencer-staking/src/lib.rs:602-663 | what a block does, exactly when it panics, and what grouping is called with |
| Rounds.SetBlocksPerRound | pallets/sequencer-staking/src/lib.rs:726-748 | the exact error, or the new length with the snapshot point unchanged |
| World.ClockStep | pallets/sequencer-staking/src/types.rs:1306-1318 | a block opens a round iff the current one has its length, takes the snapshot iff it stands at the snapshot point, and pays only what the round a delay ago still owes; other steps leave the clock |
| World.SnapshotStep | pallets/sequencer-staking/src/lib.rs:602-663 | a step takes the paid snapshot from one round and adds the selection to the next, and no more |
| World.StakingSide | pallets/sequencer-staking/src/lib.rs:602-634 | on the staking side a block is the passing of a round or nothing |
| RoundRuns.PaidOnce | pallets/sequencer-staking/src/lib.rs:1575-1582 | over any run no snapshot is paid twice |
| RoundRuns.DrainsBlockByBlock | pallets/sequencer-staking/src/lib.rs:1519-1582 | the blocks since a round fell due say exactly how many snapshots are left and whether the payout is cleared |
| RoundRuns.DrainedRound | pallets/sequencer-staking/src/lib.rs:602-634 | a due round of L blocks drains iff at most L - 1 snapshots were left, and clears iff fewer |
| RoundRuns.SnapshotsWait | pallets/sequencer-staking/src/lib.rs:1519-1541 | until its rewards are due, a round's snapshots are left alone |
| RoundRuns.LeftoverStays | pallets/sequencer-staking/src/lib.rs:1519-1541 | what is not paid in its round is never paid |
| PayoutRuns.PayoutIsNoted | pallets/sequencer-staking/src/lib.rs:1489-1513 | over any run, the payout of an ended round is noted iff points were earned, with the reward and the commission of that block |
| PayoutRuns.PayoutWaits | pallets/sequencer-staking/src/lib.rs:1519-1541 | a noted payout stays until the round begins in which it is due |
| PayoutRuns.PaymentIsExact | pallets/sequencer-staking/src/lib.rs:1547-1660 | a payment goes by the points and the snapshot of when the round ended, and pays everybody in the snapshot |
| PayoutRuns.EveryoneIsPaid | pallets/sequencer-staking/src/lib.rs:602-634 | if the paying round has L blocks and at most L - 1 sequencers had snapshots, each of these is paid by its end |
| RoundRuns.EndedRound | pallets/sequencer-staking/src/types.rs:1306-1318 | a round of L blocks takes exactly one snapshot iff the snapshot point is below L, else none |
| RoundRuns.SelectionAgrees | pallets/sequencer-staking/src/lib.rs:1704-1770 | the selected sequencers are exactly those with snapshots for the round last selected for |
| PayoutRuns.SelectionIsExposed | pallets/sequencer-staking/src/lib.rs:1742-1770 | whoever a block selects is active, and its snapshot is its bond and each counted delegation less what is pending |
| PayoutRuns.FallBackIsCopied | pallets/sequencer-staking/src/lib.rs:1711-1725 | without a selection the next round gets exactly the snapshots of the current one |
| FallBack.MissedSnapshot | pallets/sequencer-staking/src/lib.rs:726-748 | a round that ends before its snapshot point leaves the next one without snapshots, to its end |
| FallBack.PanicsExactly | pallets/sequencer-staking/src/lib.rs:1711-1738 | in every run, exactly when the next block panics: an empty selection, an earlier one, and no snapshot in the round before |
| FallBack.MissedSnapshotPanics | pallets/sequencer-staking/src/lib.rs:1727-1731 | the same, told by whether the last state of the round before had reached its snapshot point |
| FallBack.NeverPanics | pallets/sequencer-staking/src/lib.rs:1711-1738 | if the snapshot point always lies within the round, no block panics |
| ShortRound.ShortRoundPanics | pallets/sequencer-staking/src/lib.rs:726-748 | a run from genesis, with calls that pass every check, whose next block panics |
| ShortRound.LengthIgnoresPoint | pallets/sequencer-staking/src/lib.rs:726-748 | a new length is accepted iff it reaches the minimum, differs, and exceeds the selected total, wherever the snapshot point lies |
| RewardRuns.PaidShares | pallets/sequencer-staking/src/lib.rs:1547-1660 | in every run, exactly when the shares of a paid snapshot add up to at most one |
| RewardRuns.RewardBoundByAwards | pallets/sequencer-staking/src/lib.rs:1547-1660 | over any run, if the shares of its snapshots fit, all payments for a round are at most the portion of its reward that its awards are of its points, and half of the sum over sequencers of delegations + 2 |
| RewardRuns.RewardBound | pallets/sequencer-staking/src/lib.rs:1547-1660 | over any run, if the points of a round kept up with its awards and the shares of its snapshots fit, all payments for it exceed its reward by at most half of the sum over sequencers of delegations + 2 |
| RewardRuns.AwardsAddUp | pallets/sequencer-staking/src/lib.rs:1868-1878 | in every run the awards of a lasting round add up to exactly its points if these kept up with each award, and exceed them at their limit if not |
| RewardRuns.PointsAreGiven | pallets/sequencer-staking/src/lib.rs:1868-1878 | in every run, while a round lasts, the points of each sequencer and of the round are what the awards gave, up to the limit of the type |
| RewardRuns.EndsWithinExactly | pallets/sequencer-staking/src/lib.rs:1868-1878 | a round ends with its awards within its points iff these kept up with each award |
| RewardRuns.SaturatedPointsAreTooFew | pallets/sequencer-staking/src/lib.rs:1868-1878 | at the limit of the type, awards can be twice the round's points |
| Grouping.ShuffleAccounts | pallets/sequencer-grouping/src/lib.rs:222-234 | the in-place swaps compute the specified shuffle |
| Grouping.ShuffledIsPermutation | pallets/sequencer-grouping/src/lib.rs:222-234 | whatever the random value, the shuffle is a permutation |
| Grouping.WhoEndsWhere | pallets/sequencer-grouping/src/lib.rs:222-234 | the last position gets the account the random value points to, and each earlier one what stood where it points to when its turn came |
| Grouping.WhoIsInWhichGroup | pallets/sequencer-grouping/src/lib.rs:288-305 | the k-th member of group g is the account at that distance from the end |
| Grouping.ShuffleThenSplit | pallets/sequencer-grouping/src/lib.rs:288-305 | the groups are pairwise disjoint, of exactly the size, and cover just enough candidates |
| Grouping.ExactlyOneGroup | pallets/sequencer-grouping/src/lib.rs:288-305 | with just enough distinct candidates each is in exactly one group |
| Grouping.TriggerGroup | pallets/sequencer-grouping/src/lib.rs:276-311 | the exact error and the exact panic, and what stays written when the processors cannot take the groups |
| Blocks.StartBlock | pallets/sequencer-staking/src/lib.rs:636-659 | after the hook the selected sequencers stand in the shuffled groups, which the processors serve from the next round; with a full selection everybody is in exactly one group, whatever grouping answers |
| Grouping.AssignProcessorsToGroups | pallets/sequencer-grouping/src/lib.rs:236-260 | it fails without processors, or for capacity iff the rounded-up quotient exceeds it, and then changes nothing |
| Grouping.AssignFailsExactly | pallets/sequencer-grouping/src/lib.rs:236-260 | no processors iff there are none; no capacity iff some processor would get more groups than one may serve; for no groups, too, unless there is room for 2^32 of them |
| Grouping.EachGroupServedOnce | pallets/sequencer-grouping/src/lib.rs:247-257 | processor i of m serves exactly the groups congruent to i modulo m |
| Grouping.AccountInGroup | pallets/sequencer-grouping/src/lib.rs:313-321 | the first group that has the account, the only one if there is only one, or the error iff none has |
| Grouping.GetGroupIds | pallets/sequencer-grouping/src/lib.rs:262-269 | the groups of the account's one entry |
| Grouping.RegisterProcessor | pallets/sequencer-grouping/src/lib.rs:183-204 | no account is ever registered twice |
| Grouping.SetGroupMetric | pallets/sequencer-grouping/src/lib.rs:145-158 | the exact error, or the new metric within the bounds |
| Container.RegisterApp | pallets/container/src/lib.rs:164-210 | fails iff all flags are taken, and is then rolled back |
| Container.RegisteredIsNext | pallets/container/src/lib.rs:177-200 | a registered application gets the next id and waits, and all others stay as they are |
| Container.OnFinalize | pallets/container/src/lib.rs:118-157 | the nested loops allocate first come, first served |
| Container.LowestFreeIsTaken | pallets/container/src/lib.rs:130-146 | a waiting group gets the lowest free application, unless all are in use |
| Container.EarlierIsServedFirst | pallets/container/src/lib.rs:118-157 | of two waiting groups the earlier in the list is served first, and with the lower application |
| Container.AllocatedOk | pallets/container/src/lib.rs:118-157 | allocation keeps the assignment injective, its flags and every earlier assignment, and serves only listed groups |
| Container.AlwaysOk | pallets/container/src/lib.rs:118-200 | over any run the flags say exactly which applications serve a group, and ids count up from one |
| Container.NeverReassigned | pallets/container/src/lib.rs:118-157 | over any run a group keeps its application, and no other group ever gets it |
| Container.NoneWaitsInVain | pallets/container/src/lib.rs:118-157 | after any block every group has an application, or every registered one is in use |

## Left out

- Node, RPC and runtime wiring; events, weights, storage encoding and benchmarks. Weight hints are kept, as the checks they are.
- The asset and currency pallets: an ideal ledger, where a transfer succeeds iff the source has the amount. Minimum balances, freezes and dust are not part of this model; native locks are a set of candidates.
- Payouts.PayRewards: gives the transfers out of the reward account; whether each succeeds depends on that account's funds, and the source ignores a failure.
- Shares.FromRational: the library's shares are given by their contract, with the share of a zero total left open.
- Selection.ComputeTopCandidates: the library's partial sort is given by its contract; its result is a parameter.
- Payouts.DuesBound: requires the snapshot's shares to add up to at most one; `RewardRuns.PaidShares` says exactly when they do.
- RewardRuns.RewardBound: requires that of each paid snapshot, and that the points of the round kept up with each of its awards, which is exactly when the awards stay within the points (`RewardRuns.AwardsAddUp`); without it, `RewardRuns.RewardBoundByAwards` gives the bound that holds.
- Dispatch.Dispatch: `notify_inactive_sequencer` and `force_join_candidates` are no steps of their own; they end in `go_offline_inner` and `join_candidates_inner`, and their other checks are not part of this model.
- Grouping.TriggerGroup: does not model a group metric from genesis whose product passes 32 bits.
- Round indices, block numbers and the counters of delegations are unbounded; amounts and points saturate as in the source.
- The pallet's account signs no call and is not made to join as a candidate.
- `set_candidate_bond_to_zero`, the hotfix call, the commission and URL setters, charging the reward account and the download look-up would only add easy members. The commission is an arbitrary value at each round change.
- Genesis delegations are ordinary calls; runs of the staking pallet start from the empty pallet, runs with rounds from any staking state in order.
