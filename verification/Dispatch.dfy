/** The dispatchables as one step of the pallet: what each call demands, what it does, and what every step keeps. */
module Dispatch {
  import opened Config
  import opened Wrappers
  import opened Sums
  import opened Bonds
  import opened DelegationList
  import opened Tiers
  import opened OrderedSets
  import opened Book
  import opened Storage
  import opened DelegatorRecord
  import opened CandidateRecord
  import opened CandidateState
  import opened Accounting
  import opened Delegate
  import opened Candidates
  import opened Ledger
  import opened DelegationRequests
  import Execution = RequestExecution
  import opened CandidateExit

  /** The calls of the pallet, and what its environment does: rounds pass, and others transfer the asset. */
  datatype Call =
    | JoinCandidates(who: Account, freeBalance: Balance, candidateHint: nat)
    | ScheduleLeave(who: Account, candidateHint: nat)
    | ExecuteLeave(candidate: Account, delegationHint: nat)
    | CancelLeave(who: Account, candidateHint: nat)
    | GoOffline(who: Account)
    | GoOnline(who: Account)
    | CandidateBondMore(who: Account, more: Balance)
    | ScheduleCandidateBondLess(who: Account, less: Balance)
    | ExecuteCandidateBondLess(candidate: Account)
    | CancelCandidateBondLess(who: Account)
    | DelegateTo(who: Account, candidate: Account, amount: Balance, delegationHint: nat, ownHint: nat)
    | ScheduleRevoke(who: Account, candidate: Account)
    | DelegatorBondMore(who: Account, candidate: Account, more: Balance)
    | ScheduleDelegatorBondLess(who: Account, candidate: Account, less: Balance)
    | ExecuteRequest(delegator: Account, candidate: Account)
    | CancelRequest(who: Account, candidate: Account)
    | NextRound
    | TransferBtc(who: Account, to: Account, amount: Balance)

  /** No key signs for the pallet's own account. */
  predicate Signed(call: Call) {
    match call
    case ExecuteLeave(_, _) => true
    case ExecuteCandidateBondLess(_) => true
    case ExecuteRequest(_, _) => true
    case NextRound => true
    case _ => call.who != PALLET
  }

  /** The error a call ends with, if any. */
  ghost function ErrorOf(s: Storage, call: Call): Option<Error>
    requires Keyed(s)
  {
    match call
    case JoinCandidates(c, free, hint) => JoinCandidatesError(s, c, free, hint)
    case ScheduleLeave(c, hint) => ScheduleLeaveError(s, c, hint)
    case ExecuteLeave(c, hint) => ExecuteLeaveError(s, c, hint)
    case CancelLeave(c, hint) => CancelLeaveError(s, c, hint)
    case GoOffline(c) => GoOfflineError(s, c)
    case GoOnline(c) => GoOnlineError(s, c)
    case CandidateBondMore(c, more) => BondMoreError(s, c, more)
    case ScheduleCandidateBondLess(c, less) => ScheduleBondLessError(s, c, less)
    case ExecuteCandidateBondLess(c) => ExecuteBondLessError(s, c)
    case CancelCandidateBondLess(c) => CancelBondLessError(s, c)
    case DelegateTo(d, c, a, hint, own) => DelegateError(s, c, d, a, hint, own)
    case ScheduleRevoke(d, c) => ScheduleRevokeError(s, c, d)
    case DelegatorBondMore(d, c, more) => Execution.BondMoreError(s, c, d, more)
    case ScheduleDelegatorBondLess(d, c, less) => ScheduleDecreaseError(s, c, d, less)
    case ExecuteRequest(d, c) => Execution.ExecuteRequestError(s, c, d)
    case CancelRequest(d, c) => CancelRequestError(s, c, d)
    case NextRound => None
    case TransferBtc(from, to, amount) => if Get(s.btc, from) < amount then Some(InsufficientBalance) else None
  }

  /** What a call that succeeds does. */
  ghost predicate Next(s: Storage, call: Call, s': Storage) {
    match call
    case JoinCandidates(c, _, _) => Admitted(s, s', c)
    case ScheduleLeave(c, _) => StatusChanged(s, s', c, Leaving(s.round + LEAVE_CANDIDATES_DELAY))
    case ExecuteLeave(c, _) => Exited(s, s', c)
    case CancelLeave(c, _) => StatusChanged(s, s', c, Active)
    case GoOffline(c) => StatusChanged(s, s', c, Idle)
    case GoOnline(c) => StatusChanged(s, s', c, Active)
    case CandidateBondMore(c, more) => BondRaised(s, s', c, more)
    case ScheduleCandidateBondLess(c, less) =>
      BondLessNoted(s, s', c, Some(BondLessRequest(less, s.round + CANDIDATE_BOND_LESS_DELAY)))
    case ExecuteCandidateBondLess(c) =>
      c in s.info && s.info[c].request.Some? && BondLowered(s, s', c, s.info[c].request.value.amount)
    case CancelCandidateBondLess(c) => BondLessNoted(s, s', c, None)
    case DelegateTo(d, c, a, _, _) => Delegated(s, s', c, d, a)
    case ScheduleRevoke(d, c) =>
      d in s.delegators &&
      Asked(s, s', c, Request(d, s.round + REVOKE_DELEGATION_DELAY, Revoke(AmountOf(s.delegators[d].delegations, c))))
    case DelegatorBondMore(d, c, more) => Increased(s, s', c, d, more)
    case ScheduleDelegatorBondLess(d, c, less) =>
      Asked(s, s', c, Request(d, s.round + REVOKE_DELEGATION_DELAY, Decrease(less)))
    case ExecuteRequest(d, c) => exists q: Request :: q.delegator == d && Execution.Executed(s, s', c, q)
    case CancelRequest(d, c) => Withdrawn(s, s', c, d)
    case NextRound => s' == s.(round := s.round + 1)
    case TransferBtc(from, to, amount) =>
      amount <= Get(s.btc, from) && s' == s.(btc := Moved(s.btc, from, to, amount))
  }

  /** One step: a call either succeeds and does its work, or fails and does nothing. */
  ghost predicate Step(s: Storage, call: Call, s': Storage) {
    && Keyed(s) && Signed(call)
    && (if ErrorOf(s, call).None? then Next(s, call, s') else s' == s)
  }

  /** The candidate's own calls, but for its exit. */
  predicate OwnCall(call: Call) {
    || call.JoinCandidates? || call.ScheduleLeave? || call.CancelLeave? || call.GoOffline? || call.GoOnline?
    || call.CandidateBondMore? || call.ScheduleCandidateBondLess? || call.ExecuteCandidateBondLess?
    || call.CancelCandidateBondLess?
  }

  /** Every dispatchable takes exactly such a step, and answers with the error the step has. */
  method Dispatch(p: Pallet, call: Call) returns (r: Outcome<Error>)
    requires Inv(p.View()) && Signed(call) && Keyed(p.View())
    modifies p
    ensures Inv(p.View())
    ensures r == Answer(ErrorOf(old(p.View()), call))
    ensures Step(old(p.View()), call, p.View())
  {
    hide Inv, Keyed, Admitted, StatusChanged, Exited, BondRaised, BondLowered, BondLessNoted, Delegated,
      Asked, Increased, Withdrawn, Moved, Execution.Executed, JoinCandidatesError, ScheduleLeaveError,
      ExecuteLeaveError, CancelLeaveError, GoOfflineError, GoOnlineError, BondMoreError, ScheduleBondLessError,
      CancelBondLessError, DelegateError, Execution.BondMoreError, ScheduleDecreaseError,
      Execution.ExecuteRequestError, CancelRequestError, AmountOf;
    if OwnCall(call) {
      r := DispatchOwnCall(p, call);
      return;
    }
    match call {
      case ExecuteLeave(c, hint) => r := ExecuteLeaveCandidates(p, c, hint);
      case DelegateTo(d, c, a, hint, own) => r := DelegateInner(p, c, d, a, hint, own);
      case ScheduleRevoke(d, c) => r := DelegationRequests.ScheduleRevoke(p, c, d);
      case DelegatorBondMore(d, c, more) =>
        var inTop;
        r, inTop := Execution.DelegatorBondMore(p, d, c, more);
      case ScheduleDelegatorBondLess(d, c, less) => r := ScheduleBondDecrease(p, c, d, less);
      case ExecuteRequest(d, c) => r := Execution.ExecuteScheduledRequest(p, c, d);
      case CancelRequest(d, c) => r := DelegationRequests.CancelRequest(p, c, d);
      case NextRound =>
        RoundStep(p.View(), p.View().(round := p.round + 1));
        p.round := p.round + 1;
        r := Pass;
      case TransferBtc(from, to, amount) =>
        if Get(p.btc, from) >= amount {
          TransferStep(p.View(), p.View().(btc := Moved(p.btc, from, to, amount)), from, to, amount);
        }
        var ok := Transfer(p, from, to, amount);
        r := if ok then Pass else Fail(InsufficientBalance);
    }
  }

  method DispatchOwnCall(p: Pallet, call: Call) returns (r: Outcome<Error>)
    requires Inv(p.View()) && Signed(call) && Keyed(p.View()) && OwnCall(call)
    modifies p
    ensures Inv(p.View())
    ensures r == Answer(ErrorOf(old(p.View()), call))
    ensures Step(old(p.View()), call, p.View())
  {
    hide Inv, Keyed, Admitted, StatusChanged, Exited, BondRaised, BondLowered, BondLessNoted, Delegated,
      Asked, Increased, Withdrawn, Moved, Execution.Executed, JoinCandidatesError, ScheduleLeaveError,
      ExecuteLeaveError, CancelLeaveError, GoOfflineError, GoOnlineError, BondMoreError, ScheduleBondLessError,
      CancelBondLessError, DelegateError, Execution.BondMoreError, ScheduleDecreaseError,
      Execution.ExecuteRequestError, CancelRequestError, AmountOf;
    match call {
      case JoinCandidates(c, free, hint) => r := JoinCandidatesInner(p, c, free, hint);
      case ScheduleLeave(c, hint) => r := ScheduleLeaveCandidates(p, c, hint);
      case CancelLeave(c, hint) => r := CancelLeaveCandidates(p, c, hint);
      case GoOffline(c) => r := GoOfflineInner(p, c);
      case GoOnline(c) => r := GoOnlineInner(p, c);
      case CandidateBondMore(c, more) => r := CandidateBondMoreInner(p, c, more);
      case ScheduleCandidateBondLess(c, less) => r := Candidates.ScheduleCandidateBondLess(p, c, less);
      case ExecuteCandidateBondLess(c) => r := ExecuteCandidateBondLessInner(p, c);
      case CancelCandidateBondLess(c) => r := Candidates.CancelCandidateBondLess(p, c);
    }
  }

  // Money over one step

  /** What the pallet holds beyond the live stake. */
  ghost function Surplus(s: Storage): int
    requires Keyed(s)
  {
    Get(s.btc, PALLET) - Live(s)
  }

  /** How far the recorded total is below the live stake. */
  ghost function Gap(s: Storage): int
    requires Keyed(s)
  {
    Live(s) - s.total
  }

  /** The own bond of a candidate that leaves: the pallet keeps it. */
  ghost function Forfeited(s: Storage, call: Call): Balance
    requires Keyed(s)
  {
    if ErrorOf(s, call).None? && call.ExecuteLeave? && call.candidate in s.info then s.info[call.candidate].bond else 0
  }

  /** What others transfer to the pallet's account. */
  ghost function Deposited(s: Storage, call: Call): Balance
    requires Keyed(s)
  {
    if ErrorOf(s, call).None? && call.TransferBtc? && call.to == PALLET then call.amount else 0
  }

  ghost function Inflow(s: Storage, call: Call): Balance
    requires Keyed(s)
  {
    Forfeited(s, call) + Deposited(s, call)
  }

  /** What a step loses from the recorded total: what bottom decreases left behind with a candidate that leaves. */
  ghost function Lost(s: Storage, call: Call): int
    requires Keyed(s)
  {
    match call
    case ExecuteLeave(c, _) => if ErrorOf(s, call).None? && c in s.info then Drift(s.bottom[c]) else 0
    case _ => 0
  }

  /** The surplus grew by the inflow, the gap by no more than what was lost, and by just that if any total is left. */
  ghost predicate Balanced(s: Storage, s': Storage, inflow: Balance, lost: int) {
    && Keyed(s) && Keyed(s')
    && Surplus(s') == Surplus(s) + inflow
    && Gap(s') <= Gap(s) + lost
    && (s'.total > 0 ==> Gap(s') == Gap(s) + lost)
  }

  lemma DelegateStep(s: Storage, s': Storage, c: Account, d: Account, a: Balance, hint: nat, own: nat)
    requires Inv(s) && Keyed(s) && ErrorOf(s, DelegateTo(d, c, a, hint, own)) == None
    requires Delegated(s, s', c, d, a) && d != PALLET
    ensures Inv(s') && Balanced(s, s', 0, 0)
  {
    hide ToMap, Backers, TierOk, BookOk, Add, Live, AfterKick, Joined;
    NewcomerIsNew(s, c, d);
    DelegatedKeeps(s, s', c, d, a);
  }

  lemma ExecuteStep(s: Storage, s': Storage, c: Account, q: Request)
    requires Inv(s) && Execution.Executed(s, s', c, q)
    ensures Inv(s') && Balanced(s, s', 0, 0)
  {
    hide ToMap, Backers, TierOk, BookOk, Lower, Remove, Live, Inv, ListsChanged, Balanced, Revoked, Decreased;
    InvKeyed(s);
    match q.action {
      case Revoke(_) => RevokedStep(s, s', c, q.delegator);
      case Decrease(x) => DecreasedStep(s, s', c, q.delegator, x);
    }
  }

  lemma RevokedStep(s: Storage, s': Storage, c: Account, d: Account)
    requires Inv(s) && Revoked(s, s', c, d)
    ensures Inv(s') && Balanced(s, s', 0, 0)
  {
    hide ToMap, Backers, TierOk, BookOk, Remove, Live, Inv, ListsChanged, Released;
    RevokedKeeps(s, s', c, d);
    InvKeyed(s);
    InvKeyed(s');
  }

  lemma DecreasedStep(s: Storage, s': Storage, c: Account, d: Account, less: Balance)
    requires Inv(s) && Decreased(s, s', c, d, less) && Backers(TiersOf(s, c))[d] - less >= MIN_DELEGATION
    ensures Inv(s') && Balanced(s, s', 0, 0)
  {
    hide ToMap, Backers, TierOk, BookOk, Lower, Live, Inv, ListsChanged, Moved, Revised, Forget, PendingIn;
    DecreasedKeeps(s, s', c, d, less);
    InvKeyed(s);
    InvKeyed(s');
  }

  lemma TransferStep(s: Storage, s': Storage, from: Account, to: Account, amount: Balance)
    requires Inv(s) && from != PALLET && amount <= Get(s.btc, from)
    requires s' == s.(btc := Moved(s.btc, from, to, amount))
    ensures Inv(s') && Balanced(s, s', if to == PALLET then amount else 0, 0)
  {
    hide TierOk, Backers, BookOk, Moved, Sum, ToMap, SortedByOwner, ActiveStakes;
    MovedHolds(s.btc, from, to, amount);
    SameStakes(s, s');
    assert BookOf(s') == BookOf(s);
  }

  lemma SameStakes(s: Storage, s': Storage)
    requires Keyed(s) && s'.info == s.info && s'.top == s.top && s'.bottom == s.bottom
    ensures Keyed(s') && Live(s') == Live(s) && BookOf(s').backing == BookOf(s).backing
  {
    hide Backers, Sum;
    assert Stakes(s') == Stakes(s);
    assert BookOf(s').backing == BookOf(s).backing;
  }

  lemma RoundStep(s: Storage, s': Storage)
    requires Inv(s) && s' == s.(round := s.round + 1)
    ensures Inv(s') && Balanced(s, s', 0, 0)
  {
    hide TierOk, Backers, BookOk, Sum, ToMap, SortedByOwner, ActiveStakes;
    SameStakes(s, s');
    assert BookOf(s') == BookOf(s);
  }

  lemma ExitStep(s: Storage, s': Storage, c: Account)
    requires Inv(s) && Exited(s, s', c)
    ensures c in s.info && c in s.bottom
    ensures Inv(s') && Balanced(s, s', s.info[c].bond, Drift(s.bottom[c]))
  {
    hide Backers, TierOk, BookOk, PoolOk, ReturnAll, Sum, Live, SeqSum, CandidatesOk;
    ExitedKeeps(s, s', c);
    BackingTotal(s, c);
    ExitTotal(s, s', c);
  }

  lemma ExitTotal(s: Storage, s': Storage, c: Account)
    requires Inv(s) && Exited(s, s', c)
    ensures s'.total == SatSub(s.total, SatAdd(SatAdd(s.info[c].bond, s.top[c].total), s.bottom[c].total))
    ensures s.total <= Live(s) <= MAX_BALANCE
  {
    hide Backers, TierOk, BookOk, PoolOk, ReturnAll, CandidatesOk;
    SumEntry(s.btc, PALLET);
  }

  lemma OwnCallKeeps(s: Storage, call: Call, s': Storage)
    requires Inv(s) && Keyed(s) && OwnCall(call) && Next(s, call, s')
    ensures Inv(s') && Balanced(s, s', 0, 0)
  {
    hide Inv, Keyed, Admitted, StatusChanged, BondRaised, BondLowered, BondLessNoted, Balanced;
    match call {
      case JoinCandidates(c, _, _) => AdmittedStep(s, s', c);
      case ScheduleLeave(c, _) => StatusStep(s, s', c, Leaving(s.round + LEAVE_CANDIDATES_DELAY));
      case CancelLeave(c, _) => StatusStep(s, s', c, Active);
      case GoOffline(c) => StatusStep(s, s', c, Idle);
      case GoOnline(c) => StatusStep(s, s', c, Active);
      case CandidateBondMore(c, more) => RaisedStep(s, s', c, more);
      case ScheduleCandidateBondLess(c, less) =>
        NotedStep(s, s', c, Some(BondLessRequest(less, s.round + CANDIDATE_BOND_LESS_DELAY)));
      case ExecuteCandidateBondLess(c) => LoweredStep(s, s', c, s.info[c].request.value.amount);
      case CancelCandidateBondLess(c) => NotedStep(s, s', c, None);
    }
  }

  /** Every step keeps every invariant and accounts for all money. */
  lemma StepKeeps(s: Storage, call: Call, s': Storage)
    requires Inv(s) && Step(s, call, s')
    ensures Inv(s') && Balanced(s, s', Inflow(s, call), Lost(s, call))
  {
    hide ToMap, Inv, Admitted, StatusChanged, Exited, BondRaised, BondLowered, BondLessNoted, Delegated,
      Asked, Increased, Withdrawn, ErrorOf, Moved, Execution.Executed, Balanced, Drift;
    InvKeyed(s);
    if ErrorOf(s, call).Some? {
      IdleStep(s);
    } else if OwnCall(call) {
      OwnCallKeeps(s, call, s');
    } else {
      match call {
        case ExecuteLeave(c, _) =>
          ExitStep(s, s', c);
        case DelegateTo(d, c, a, hint, own) =>
          DelegateStep(s, s', c, d, a, hint, own);
        case ScheduleRevoke(d, c) =>
          AskedStep(s, s', c, Request(d, s.round + REVOKE_DELEGATION_DELAY,
                                      Revoke(AmountOf(s.delegators[d].delegations, c))));
        case DelegatorBondMore(d, c, more) =>
          IncreasedStep(s, s', c, d, more);
        case ScheduleDelegatorBondLess(d, c, less) =>
          AskedStep(s, s', c, Request(d, s.round + REVOKE_DELEGATION_DELAY, Decrease(less)));
        case ExecuteRequest(d, c) =>
          var q: Request :| q.delegator == d && Execution.Executed(s, s', c, q);
          ExecuteStep(s, s', c, q);
        case CancelRequest(d, c) =>
          WithdrawnStep(s, s', c, d);
        case NextRound =>
          RoundStep(s, s');
        case TransferBtc(from, to, amount) =>
          TransferStep(s, s', from, to, amount);
      }
    }
  }

  lemma IdleStep(s: Storage)
    requires Inv(s)
    ensures Balanced(s, s, 0, 0)
  {
  }

  lemma AdmittedStep(s: Storage, s': Storage, c: Account)
    requires Inv(s) && Admitted(s, s', c)
    ensures Inv(s') && Balanced(s, s', 0, 0)
  {
    hide NEW_CANDIDATE, NO_DELEGATIONS, Live, BookOf, CandidatesOk, BookOk, PoolOk, MoneyOk, InsertByOwner;
    AdmittedKeeps(s, s', c);
  }

  lemma StatusStep(s: Storage, s': Storage, c: Account, status: Status)
    requires Inv(s) && StatusChanged(s, s', c, status)
    ensures Inv(s') && Balanced(s, s', 0, 0)
  {
    hide Live, BookOf, CandidatesOk, BookOk, PoolOk, MoneyOk;
    StatusChangedKeeps(s, s', c, status);
  }

  lemma NotedStep(s: Storage, s': Storage, c: Account, request: Option<BondLessRequest>)
    requires Inv(s) && BondLessNoted(s, s', c, request)
    ensures Inv(s') && Balanced(s, s', 0, 0)
  {
    hide Live, BookOf, CandidatesOk, BookOk, PoolOk, MoneyOk;
    BondLessNotedKeeps(s, s', c, request);
  }

  lemma RaisedStep(s: Storage, s': Storage, c: Account, more: Balance)
    requires Inv(s) && BondRaised(s, s', c, more)
    ensures Inv(s') && Balanced(s, s', 0, 0)
  {
    hide Live, BookOf, CandidatesOk, BookOk, PoolOk, MoneyOk, Moved, PoolAfter;
    BondRaisedKeeps(s, s', c, more);
  }

  lemma LoweredStep(s: Storage, s': Storage, c: Account, less: Balance)
    requires Inv(s) && BondLowered(s, s', c, less)
    ensures Inv(s') && Balanced(s, s', 0, 0)
  {
    hide Live, BookOf, CandidatesOk, BookOk, PoolOk, Moved, PoolAfter;
    BondLoweredKeeps(s, s', c, less);
    LoweredLive(s, s', c, less);
  }

  lemma LoweredLive(s: Storage, s': Storage, c: Account, less: Balance)
    requires Inv(s) && BondLowered(s, s', c, less)
    ensures Keyed(s') && Live(s') == Live(s) - less
  {
    hide Live, BookOf, CandidatesOk, BookOk, PoolOk, MoneyOk, Moved, PoolAfter;
    SameLists(s, s', c);
  }

  lemma AskedStep(s: Storage, s': Storage, c: Account, r: Request)
    requires Inv(s) && Asked(s, s', c, r)
    ensures Inv(s') && Balanced(s, s', 0, 0)
  {
    hide Live, BookOf, CandidatesOk, BookOk, PoolOk, MoneyOk, Backers;
    AskedKeeps(s, s', c, r);
  }

  lemma WithdrawnStep(s: Storage, s': Storage, c: Account, d: Account)
    requires Inv(s) && Withdrawn(s, s', c, d)
    ensures Inv(s') && Balanced(s, s', 0, 0)
  {
    hide Live, BookOf, CandidatesOk, BookOk, PoolOk, MoneyOk, Backers, Forget, PendingIn;
    WithdrawnKeeps(s, s', c, d);
  }

  lemma IncreasedStep(s: Storage, s': Storage, c: Account, d: Account, more: Balance)
    requires Inv(s) && Increased(s, s', c, d, more)
    ensures Inv(s') && Balanced(s, s', 0, 0)
  {
    hide Live, BookOf, CandidatesOk, BookOk, PoolOk, MoneyOk, Moved, Raise, Revised, ListsChanged, Backers;
    IncreasedKeeps(s, s', c, d, more);
    InvKeyed(s');
  }
}
