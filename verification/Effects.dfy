/** What one step can do to one candidate, one delegation and one request: the links of the run-level properties. */
module Effects {
  import opened Config
  import opened Wrappers
  import opened Sums
  import opened Bonds
  import opened DelegationList
  import opened Tiers
  import opened OrderedSets
  import opened Book
  import opened Storage
  import opened DelegatorRecord
  import opened CandidateRecord
  import opened CandidateState
  import opened Accounting
  import opened Delegate
  import opened Candidates
  import opened Ledger
  import DelegationRequests
  import Execution = RequestExecution
  import opened CandidateExit
  import opened Dispatch

  /** The candidate a call is about. */
  function Target(call: Call): Option<Account> {
    match call
    case JoinCandidates(c, _, _) => Some(c)
    case ScheduleLeave(c, _) => Some(c)
    case ExecuteLeave(c, _) => Some(c)
    case CancelLeave(c, _) => Some(c)
    case GoOffline(c) => Some(c)
    case GoOnline(c) => Some(c)
    case CandidateBondMore(c, _) => Some(c)
    case ScheduleCandidateBondLess(c, _) => Some(c)
    case ExecuteCandidateBondLess(c) => Some(c)
    case CancelCandidateBondLess(c) => Some(c)
    case DelegateTo(_, c, _, _, _) => Some(c)
    case ScheduleRevoke(_, c) => Some(c)
    case DelegatorBondMore(_, c, _) => Some(c)
    case ScheduleDelegatorBondLess(_, c, _) => Some(c)
    case ExecuteRequest(_, c) => Some(c)
    case CancelRequest(_, c) => Some(c)
    case NextRound => None
    case TransferBtc(_, _, _) => None
  }

  /** Nothing recorded for candidate `e` changed: record, lists and pending requests. */
  ghost predicate Untouched(s: Storage, s': Storage, e: Account)
    requires Keyed(s) && Keyed(s')
  {
    && (e in s'.info <==> e in s.info)
    && (e in s.info ==> s'.info[e] == s.info[e] && s'.top[e] == s.top[e] && s'.bottom[e] == s.bottom[e])
    && RequestsOf(s'.requests, e) == RequestsOf(s.requests, e)
  }

  /** A call touches no candidate but its own. */
  lemma OnlyTheTarget(s: Storage, call: Call, s': Storage, e: Account)
    requires Inv(s) && Inv(s') && Keyed(s) && Keyed(s') && Step(s, call, s') && Target(call) != Some(e)
    ensures Untouched(s, s', e)
  {
    hide ToMap, TierOk, Inv, Live, DelegateError, Moved, Sum, BookOk, PoolOk, MoneyOk, CandidatesOk, Add, Remove, Lower,
      Raise, Backers, Released, ReturnAll, Untouched, NEW_CANDIDATE, NO_DELEGATIONS, Exited, Delegated,
      Increased, Execution.Executed, ErrorOf, Asked, Withdrawn, Admitted,
      StatusChanged, BondRaised, BondLowered, BondLessNoted;
    if ErrorOf(s, call).Some? || call.NextRound? || call.TransferBtc? {
      Same(s, s', e);
    } else {
      var c := Target(call).value;
      match call {
        case ExecuteLeave(_, _) => ExitTouches(s, s', c, e);
        case DelegateTo(d, _, a, _, _) => DelegateTouches(s, s', c, d, a, e);
        case ExecuteRequest(d, _) =>
          var q: Request :| q.delegator == d && Execution.Executed(s, s', c, q);
          ExecuteTouches(s, s', c, q, e);
        case DelegatorBondMore(d, _, more) => IncreaseTouches(s, s', c, d, more, e);
        case ScheduleRevoke(d, _) => AskTouches(s, s', c, Request(d, s.round + REVOKE_DELEGATION_DELAY,
                                                                    Revoke(AmountOf(s.delegators[d].delegations, c))), e);
        case ScheduleDelegatorBondLess(d, _, less) =>
          AskTouches(s, s', c, Request(d, s.round + REVOKE_DELEGATION_DELAY, Decrease(less)), e);
        case CancelRequest(d, _) => WithdrawTouches(s, s', c, d, e);
        case _ => OwnCallTouches(s, call, s', e);
      }
    }
  }

  lemma OwnCallTouches(s: Storage, call: Call, s': Storage, e: Account)
    requires Keyed(s) && Keyed(s') && Next(s, call, s') && OwnCall(call) && Target(call) != Some(e)
    ensures Untouched(s, s', e)
  {
    hide Keyed, NEW_CANDIDATE, NO_DELEGATIONS, Moved, PoolAfter, Without, InsertByOwner, Untouched;
    Same(s, s', e);
  }

  lemma Same(s: Storage, s': Storage, e: Account)
    requires Keyed(s) && Keyed(s') && (e in s'.info <==> e in s.info)
    requires e in s.info ==> s'.info[e] == s.info[e] && s'.top[e] == s.top[e] && s'.bottom[e] == s.bottom[e]
    requires RequestsOf(s'.requests, e) == RequestsOf(s.requests, e)
    ensures Untouched(s, s', e)
  {
  }

  lemma AskTouches(s: Storage, s': Storage, c: Account, r: Request, e: Account)
    requires Keyed(s) && Keyed(s') && Asked(s, s', c, r) && e != c
    ensures Untouched(s, s', e)
  {
    hide Backers, Backed, HasRequest;
  }

  lemma WithdrawTouches(s: Storage, s': Storage, c: Account, d: Account, e: Account)
    requires Keyed(s) && Keyed(s') && Withdrawn(s, s', c, d) && e != c
    ensures Untouched(s, s', e)
  {
    hide DropRequest, PendingIn;
  }

  lemma ExitTouches(s: Storage, s': Storage, c: Account, e: Account)
    requires Keyed(s) && Keyed(s') && Exited(s, s', c) && e != c
    ensures Untouched(s, s', e)
  {
    hide Released, ToMap;
    ReturnTouches(s, c, AllBonds(s, c), e);
    ReturnFrame(s, c, AllBonds(s, c));
  }

  lemma {:induction false} ReturnTouches(s: Storage, c: Account, l: seq<Bond>, e: Account)
    requires e != c
    ensures RequestsOf(ReturnAll(s, c, l).requests, e) == RequestsOf(s.requests, e)
  {
    hide Store, Parted, Moved, AmountOf, PendingIn, DropRequest;
    if l != [] {
      ReturnTouches(s, c, Init(l), e);
    }
  }

  lemma DelegateTouches(s: Storage, s': Storage, c: Account, d: Account, a: Balance, e: Account)
    requires Keyed(s) && Keyed(s') && Delegated(s, s', c, d, a) && e != c
    ensures Untouched(s, s', e)
  {
    hide TierOk, Add, DriftKept, Joined, PoolAfter, Store, Parted, Moved, AmountOf, PendingIn, DropRequest;
    OnlyCandidateHolds(s, s', c);
  }

  lemma ExecuteTouches(s: Storage, s': Storage, c: Account, q: Request, e: Account)
    requires Keyed(s) && Keyed(s') && Execution.Executed(s, s', c, q) && e != c
    ensures Untouched(s, s', e)
  {
    hide TierOk, Remove, Lower, Backers, PoolAfter, Store, Parted, Moved, AmountOf, PendingIn, DropRequest, Revised,
      Execution.DriftAfterDecrease;
    OnlyCandidateHolds(s, s', c);
  }

  lemma IncreaseTouches(s: Storage, s': Storage, c: Account, d: Account, more: Balance, e: Account)
    requires Keyed(s) && Keyed(s') && Increased(s, s', c, d, more) && e != c
    ensures Untouched(s, s', e)
  {
    hide TierOk, Raise, Backers, PoolAfter, Moved, Revised, DriftKept;
    OnlyCandidateHolds(s, s', c);
  }

  // Requests

  /** This call put the request on the list. */
  ghost predicate Schedules(s: Storage, call: Call, c: Account, r: Request)
    requires Keyed(s)
  {
    && ErrorOf(s, call) == None
    && r.whenExecutable == s.round + REVOKE_DELEGATION_DELAY
    && match r.action
       case Revoke(_) => call == ScheduleRevoke(r.delegator, c)
       case Decrease(x) => call == ScheduleDelegatorBondLess(r.delegator, c, x)
  }

  /** A request that was not there before was scheduled by this very call. */
  lemma RequestIsScheduled(s: Storage, call: Call, s': Storage, c: Account, r: Request)
    requires Inv(s) && Inv(s') && Keyed(s) && Keyed(s') && Step(s, call, s')
    requires r in RequestsOf(s'.requests, c) && r !in RequestsOf(s.requests, c)
    ensures Schedules(s, call, c, r)
  {
    hide ToMap, TierOk, Inv, Live, Moved, Sum, BookOk, Backers, Exited, Delegated, Increased, Execution.Executed,
      ErrorOf, Withdrawn, Admitted, StatusChanged, BondRaised, BondLowered, BondLessNoted, Untouched, AmountOf;
    if Target(call) != Some(c) {
      OnlyTheTarget(s, call, s', c);
      Unchanged(s, s', c);
    } else if !call.ScheduleRevoke? && !call.ScheduleDelegatorBondLess? && ErrorOf(s, call).None? {
      OthersOnlyDrop(s, call, s', c, r);
    }
  }

  lemma Unchanged(s: Storage, s': Storage, e: Account)
    requires Keyed(s) && Keyed(s') && Untouched(s, s', e)
    ensures RequestsOf(s'.requests, e) == RequestsOf(s.requests, e)
    ensures e in s'.info <==> e in s.info
    ensures e in s.info ==> s'.info[e] == s.info[e] && TiersOf(s', e) == TiersOf(s, e) && s'.bottom[e] == s.bottom[e]
  {
  }

  lemma OthersOnlyDrop(s: Storage, call: Call, s': Storage, c: Account, r: Request)
    requires Keyed(s) && Keyed(s') && Next(s, call, s') && Target(call) == Some(c)
    requires !call.ScheduleRevoke? && !call.ScheduleDelegatorBondLess?
    ensures r in RequestsOf(s'.requests, c) ==> r in RequestsOf(s.requests, c)
  {
    hide ToMap, TierOk, Backers, Exited, Delegated, Increased, Execution.Executed, Revoked, Decreased, PoolAfter,
      Withdrawn, Moved, NEW_CANDIDATE, NO_DELEGATIONS;
    match call {
      case ExecuteLeave(_, _) =>
        ExitDrops(s, s', c);
      case DelegateTo(d, _, a, _, _) => DelegateDrops(s, s', c, d, a, r);
      case ExecuteRequest(d, _) =>
        var q: Request :| q.delegator == d && Execution.Executed(s, s', c, q);
        ExecuteDrops(s, s', c, q, r);
      case DelegatorBondMore(d, _, more) => IncreaseDrops(s, s', c, d, more);
      case CancelRequest(d, _) => WithdrawDrops(s, s', c, d, r);
      case _ =>
    }
  }

  lemma ExitDrops(s: Storage, s': Storage, c: Account)
    requires Exited(s, s', c)
    ensures RequestsOf(s'.requests, c) == []
  {
    hide ReturnAll;
  }

  lemma {:induction false} DropDrops(l: seq<Request>, d: Account, r: Request)
    ensures r in DropRequest(l, d) ==> r in l
  {
    if l != [] && l[0].delegator != d {
      DropDrops(l[1..], d, r);
    }
  }

  lemma DelegateDrops(s: Storage, s': Storage, c: Account, d: Account, a: Balance, r: Request)
    requires Delegated(s, s', c, d, a)
    ensures r in RequestsOf(s'.requests, c) ==> r in RequestsOf(s.requests, c)
  {
    hide TierOk, Add, DriftKept, Joined, PoolAfter, Store, Parted, Moved, AmountOf, PendingIn, DropRequest;
    if |s.bottom[c].delegations| == MAX_BOTTOM {
      DropDrops(RequestsOf(s.requests, c), Last(s.bottom[c].delegations).owner, r);
    }
  }

  lemma ExecuteDrops(s: Storage, s': Storage, c: Account, q: Request, r: Request)
    requires Execution.Executed(s, s', c, q)
    ensures r in RequestsOf(s'.requests, c) ==> r in RequestsOf(s.requests, c)
  {
    hide ListsChanged, TierOk, Remove, Lower, Backers, PoolAfter, Store, Parted, Moved, AmountOf, PendingIn,
      DropRequest, Revised, Execution.DriftAfterDecrease;
    DropDrops(RequestsOf(s.requests, c), q.delegator, r);
  }

  lemma IncreaseDrops(s: Storage, s': Storage, c: Account, d: Account, more: Balance)
    requires Increased(s, s', c, d, more)
    ensures s'.requests == s.requests && s'.round == s.round
  {
    hide ListsChanged, TierOk, Raise, Backers, PoolAfter, Moved, Revised, DriftKept;
  }

  lemma WithdrawDrops(s: Storage, s': Storage, c: Account, d: Account, r: Request)
    requires Withdrawn(s, s', c, d)
    ensures r in RequestsOf(s'.requests, c) ==> r in RequestsOf(s.requests, c)
  {
    hide DropRequest, PendingIn;
    DropDrops(RequestsOf(s.requests, c), d, r);
  }

  // The candidate's record

  /** A candidate that is leaving was already leaving, or has just scheduled its exit. */
  ghost predicate LeavingExplained(s: Storage, call: Call, s': Storage, c: Account)
    requires Keyed(s) && c in s'.info
  {
    s'.info[c].status.Leaving? ==>
      || (c in s.info && s.info[c].status == s'.info[c].status)
      || (call.ScheduleLeave? && call.who == c && ErrorOf(s, call) == None
          && s'.info[c].status.when == s.round + LEAVE_CANDIDATES_DELAY)
  }

  /** A pending request to lower the own bond was already pending, or has just been scheduled. */
  ghost predicate BondLessExplained(s: Storage, call: Call, s': Storage, c: Account)
    requires Keyed(s) && c in s'.info
  {
    s'.info[c].request.Some? ==>
      || (c in s.info && s.info[c].request == s'.info[c].request)
      || (call == ScheduleCandidateBondLess(c, s'.info[c].request.value.amount) && ErrorOf(s, call) == None
          && s'.info[c].request.value.whenExecutable == s.round + CANDIDATE_BOND_LESS_DELAY)
  }

  /** The own bond grows only by the candidate's own call, and shrinks only by executing the due request. */
  ghost predicate BondExplained(s: Storage, call: Call, s': Storage, c: Account)
    requires Keyed(s) && c in s'.info && c in s.info
  {
    && (s'.info[c].bond < s.info[c].bond ==>
          && call == ExecuteCandidateBondLess(c) && ErrorOf(s, call) == None
          && s.info[c].request.Some? && s.info[c].request.value.whenExecutable <= s.round
          && s'.info[c].bond == s.info[c].bond - s.info[c].request.value.amount)
    && (s'.info[c].bond > s.info[c].bond ==>
          && call.CandidateBondMore? && call.who == c && ErrorOf(s, call) == None
          && s'.info[c].bond == s.info[c].bond + call.more)
  }

  /** What each change of status comes from, the first one included. */
  ghost predicate StatusExplained(s: Storage, call: Call, s': Storage, c: Account)
    requires Keyed(s) && c in s'.info
  {
    (if c in s.info then s'.info[c].status != s.info[c].status else true) ==>
      && ErrorOf(s, call) == None
      && if c !in s.info then call.JoinCandidates? && call.who == c && s'.info[c].status == Active
         else match s'.info[c].status
              case Active =>
                || (call == GoOnline(c) && s.info[c].status == Idle)
                || (call.CancelLeave? && call.who == c && s.info[c].status.Leaving?)
              case Idle => call == GoOffline(c) && s.info[c].status == Active
              case Leaving(when) =>
                && call.ScheduleLeave? && call.who == c && !s.info[c].status.Leaving?
                && when == s.round + LEAVE_CANDIDATES_DELAY
  }

  lemma RecordExplained(s: Storage, call: Call, s': Storage, c: Account)
    requires Inv(s) && Inv(s') && Keyed(s) && Keyed(s') && Step(s, call, s') && c in s'.info
    ensures LeavingExplained(s, call, s', c) && BondLessExplained(s, call, s', c) && StatusExplained(s, call, s', c)
    ensures c in s.info ==> BondExplained(s, call, s', c)
  {
    hide ToMap, TierOk, Inv, Live, Moved, Sum, BookOk, Backers, Exited, Delegated, Increased, Execution.Executed,
      ErrorOf, Withdrawn, Asked, Admitted, StatusChanged, BondRaised, BondLowered, BondLessNoted, Untouched,
      LeavingExplained, BondLessExplained, BondExplained, StatusExplained;
    if ErrorOf(s, call).Some? {
      SameRecordExplained(s, call, s', c);
    } else if Target(call) != Some(c) {
      OnlyTheTarget(s, call, s', c);
      Unchanged(s, s', c);
      SameRecordExplained(s, call, s', c);
    } else if OwnCall(call) {
      OwnCallRequest(s, call, s', c);
      OwnCallBond(s, call, s', c);
      OwnCallStatus(s, call, s', c);
      StatusTellsLeaving(s, call, s', c);
    } else {
      OthersKeepRecord(s, call, s', c);
      SameRecordExplained(s, call, s', c);
    }
  }

  lemma SameRecordExplained(s: Storage, call: Call, s': Storage, c: Account)
    requires Keyed(s) && c in s'.info && c in s.info
    requires s'.info[c].(delegationCount := 0, totalCounted := 0, lowestTop := 0, highestBottom := 0, lowestBottom := 0,
                         topCapacity := Empty, bottomCapacity := Empty)
             == s.info[c].(delegationCount := 0, totalCounted := 0, lowestTop := 0, highestBottom := 0, lowestBottom := 0,
                           topCapacity := Empty, bottomCapacity := Empty)
    ensures LeavingExplained(s, call, s', c) && BondLessExplained(s, call, s', c) && BondExplained(s, call, s', c)
    ensures StatusExplained(s, call, s', c)
  {
  }

  lemma OwnCallRequest(s: Storage, call: Call, s': Storage, c: Account)
    requires Keyed(s) && Keyed(s') && c in s'.info && Next(s, call, s') && OwnCall(call) && Target(call) == Some(c)
    requires ErrorOf(s, call) == None
    ensures BondLessExplained(s, call, s', c)
  {
    hide ErrorOf, Moved, PoolAfter, Without, InsertByOwner, NO_DELEGATIONS, Keyed;
  }

  lemma OwnCallBond(s: Storage, call: Call, s': Storage, c: Account)
    requires Keyed(s) && Keyed(s') && c in s'.info && Next(s, call, s') && OwnCall(call) && Target(call) == Some(c)
    requires ErrorOf(s, call) == None
    ensures c in s.info ==> BondExplained(s, call, s', c)
  {
    hide ErrorOf, Moved, PoolAfter, Without, InsertByOwner, NO_DELEGATIONS, Keyed;
  }

  lemma StatusTellsLeaving(s: Storage, call: Call, s': Storage, c: Account)
    requires Keyed(s) && c in s'.info && StatusExplained(s, call, s', c)
    ensures LeavingExplained(s, call, s', c)
  {
    hide ErrorOf;
  }

  lemma OwnCallStatus(s: Storage, call: Call, s': Storage, c: Account)
    requires Keyed(s) && Keyed(s') && c in s'.info && Next(s, call, s') && OwnCall(call) && Target(call) == Some(c)
    requires ErrorOf(s, call) == None
    ensures StatusExplained(s, call, s', c)
  {
    hide Moved, PoolAfter, Without, InsertByOwner, NO_DELEGATIONS, Keyed;
  }

  lemma OthersKeepRecord(s: Storage, call: Call, s': Storage, c: Account)
    requires Keyed(s) && Keyed(s') && c in s'.info && Next(s, call, s') && !OwnCall(call) && Target(call) == Some(c)
    ensures c in s.info && s'.info[c].bond == s.info[c].bond
    ensures s'.info[c].status == s.info[c].status && s'.info[c].request == s.info[c].request
  {
    hide Exited, TierOk, Backers, Add, Raise, Remove, Lower, PoolAfter, Moved, Released, Joined, AmountOf, PendingIn,
      Revised, Forget, DriftKept, Execution.DriftAfterDecrease, AfterKick, KickReady;
    if call.ExecuteLeave? {
      ExitRemoves(s, s', c);
    }
  }

  lemma ExitRemoves(s: Storage, s': Storage, c: Account)
    requires Exited(s, s', c)
    ensures c !in s'.info
  {
    hide ReturnAll;
  }

  // The delegations

  /** What `d` has delegated to `c`. */
  ghost function StakeWith(s: Storage, c: Account, d: Account): Balance
    requires Keyed(s)
  {
    if c in s.info then Get(Backers(TiersOf(s, c)), d) else 0
  }

  /**
   A delegation shrinks only by executing its due request, and by just the requested amount; or because a larger
   newcomer kicks it; or because the candidate's own exit is due.
   */
  ghost predicate LossExplained(s: Storage, call: Call, s': Storage, c: Account, d: Account)
    requires Keyed(s) && Keyed(s')
  {
    StakeWith(s', c, d) < StakeWith(s, c, d) ==>
      && ErrorOf(s, call) == None
      && (|| (call == ExecuteRequest(d, c) && PaidByRequest(s, s', c, d))
          || (call.DelegateTo? && call.candidate == c && KickedBy(s, s', c, d, call.amount))
          || (call.ExecuteLeave? && call.candidate == c && ExitDue(s, c)))
  }

  /**
   A delegation grows only by its delegator's own call, and by just the amount of the call; a new one needs an active
   candidate.
   */
  ghost predicate GainExplained(s: Storage, call: Call, s': Storage, c: Account, d: Account)
    requires Keyed(s) && Keyed(s')
  {
    StakeWith(s', c, d) > StakeWith(s, c, d) ==>
      && ErrorOf(s, call) == None
      && (|| (call.DelegateTo? && call.who == d && call.candidate == c && StakeWith(s, c, d) == 0
              && c in s.info && s.info[c].status == Active && StakeWith(s', c, d) == call.amount)
          || (call.DelegatorBondMore? && call.who == d && call.candidate == c
              && StakeWith(s', c, d) == StakeWith(s, c, d) + call.more))
  }

  ghost predicate PaidByRequest(s: Storage, s': Storage, c: Account, d: Account)
    requires Keyed(s) && Keyed(s')
  {
    exists r :: r in RequestsOf(s.requests, c) && r.delegator == d && r.whenExecutable <= s.round
                && StakeWith(s', c, d) == StakeWith(s, c, d) - r.action.amount
  }

  ghost predicate KickedBy(s: Storage, s': Storage, c: Account, d: Account, amount: Balance)
    requires Keyed(s) && Keyed(s')
  {
    && c in s.info && Kicked(TiersOf(s, c)) == Some(Bond(d, StakeWith(s, c, d)))
    && StakeWith(s, c, d) < amount && StakeWith(s', c, d) == 0
  }

  ghost predicate ExitDue(s: Storage, c: Account) {
    c in s.info && s.info[c].status.Leaving? && s.info[c].status.when <= s.round
  }

  lemma StakeIsExplained(s: Storage, call: Call, s': Storage, c: Account, d: Account)
    requires Inv(s) && Inv(s') && Keyed(s) && Keyed(s') && Step(s, call, s')
    ensures LossExplained(s, call, s', c, d) && GainExplained(s, call, s', c, d)
  {
    hide ToMap, TierOk, Inv, Live, Moved, Sum, BookOk, Backers, Exited, Delegated, Increased, Execution.Executed,
      ErrorOf, Withdrawn, Asked, Admitted, StatusChanged, BondRaised, BondLowered, BondLessNoted, Untouched,
      StakeWith, PaidByRequest, KickedBy, ExitDue;
    if ErrorOf(s, call).Some? {
    } else if Target(call) != Some(c) {
      OnlyTheTarget(s, call, s', c);
      SameStakeWith(s, s', c, d);
    } else {
      match call {
        case ExecuteLeave(_, _) =>
          ExitIsDue(s, s', c);
          ExitRemoves(s, s', c);
          NoStakeLeft(s', c, d);
        case DelegateTo(e, _, a, hint, own) => DelegateStake(s, s', c, e, a, hint, own, d);
        case ExecuteRequest(e, _) =>
          var q: Request :| q.delegator == e && Execution.Executed(s, s', c, q);
          ExecuteStake(s, s', c, q, d);
        case DelegatorBondMore(e, _, more) => IncreaseStake(s, s', c, e, more, d);
        case _ => RestKeepsLists(s, call, s', c, d);
      }
    }
  }

  lemma SameStakeWith(s: Storage, s': Storage, c: Account, d: Account)
    requires Keyed(s) && Keyed(s') && Untouched(s, s', c)
    ensures StakeWith(s', c, d) == StakeWith(s, c, d)
  {
    hide Backers;
  }

  lemma NoStakeLeft(s: Storage, c: Account, d: Account)
    requires Keyed(s) && c !in s.info
    ensures StakeWith(s, c, d) == 0
  {
  }

  lemma ExitIsDue(s: Storage, s': Storage, c: Account)
    requires Exited(s, s', c)
    ensures ExitDue(s, c)
  {
    hide ReturnAll;
  }

  lemma RestKeepsLists(s: Storage, call: Call, s': Storage, c: Account, d: Account)
    requires Keyed(s) && Keyed(s') && Next(s, call, s') && Target(call) == Some(c)
    requires !call.ExecuteLeave? && !call.DelegateTo? && !call.ExecuteRequest? && !call.DelegatorBondMore?
    ensures StakeWith(s', c, d) == StakeWith(s, c, d)
  {
    hide Backers, Moved, PoolAfter, Without, InsertByOwner, NEW_CANDIDATE, NO_DELEGATIONS, Forget, PendingIn;
    if call.JoinCandidates? {
      AdmittedIsEmpty(s, s', c);
    }
  }

  lemma IncreaseStake(s: Storage, s': Storage, c: Account, e: Account, more: Balance, d: Account)
    requires Inv(s) && Keyed(s) && Keyed(s') && Increased(s, s', c, e, more)
    ensures StakeWith(s', c, d) == StakeWith(s, c, d) + if d == e then more else 0
  {
    hide Inv, ToMap, TierOk, Raise, Backers, PoolAfter, Moved, Revised, DriftKept;
    ShapeOf(s, c);
    RaiseHolds(TiersOf(s, c), e, more);
  }

  lemma ExecuteStake(s: Storage, s': Storage, c: Account, q: Request, d: Account)
    requires Inv(s) && Keyed(s) && Keyed(s') && Execution.Executed(s, s', c, q)
    ensures StakeWith(s', c, d) != StakeWith(s, c, d) ==> d == q.delegator
    ensures StakeWith(s', c, q.delegator) == StakeWith(s, c, q.delegator) - q.action.amount
    ensures PaidByRequest(s, s', c, q.delegator)
  {
    hide Inv, ToMap, TierOk, Remove, Lower, Backers, PoolAfter, Moved, Revised, Forget, PendingIn, Released,
      Execution.DriftAfterDecrease;
    var t, o := TiersOf(s, c), q.delegator;
    ShapeOf(s, c);
    match q.action {
      case Revoke(_) => RemoveHolds(t, o);
      case Decrease(x) => LowerHolds(t, o, x);
    }
  }

  lemma DelegateStake(s: Storage, s': Storage, c: Account, e: Account, a: Balance, hint: nat, own: nat, d: Account)
    requires Inv(s) && Keyed(s) && Keyed(s') && Delegated(s, s', c, e, a) && e != PALLET
    requires ErrorOf(s, DelegateTo(e, c, a, hint, own)) == None
    ensures StakeWith(s', c, d) < StakeWith(s, c, d) ==> KickedBy(s, s', c, d, a)
    ensures StakeWith(s', c, d) > StakeWith(s, c, d) ==> d == e
    ensures StakeWith(s, c, e) == 0 && StakeWith(s', c, e) == a
    ensures c in s.info && s.info[c].status == Active
  {
    hide Inv, ToMap, TierOk, Add, Backers, PoolAfter, Moved, Released, Joined, DriftKept, AfterKick;
    var t := TiersOf(s, c);
    NewcomerIsNew(s, c, e);
    ShapeOf(s, c);
    AddHolds(t, Bond(e, a));
    if IsFull(t) {
      KickedIsLeast(t, Bond(e, a));
      LastBacks(t);
    }
  }

  // What bottom decreases leave behind

  /** What this call leaves behind in the bottom total of `c`: a decrease executed in the bottom is not taken off. */
  ghost function LeftBehind(s: Storage, call: Call, c: Account): Balance
    requires Keyed(s)
  {
    if c in s.info && call.ExecuteRequest? && call.candidate == c && ErrorOf(s, call) == None
       && call.delegator !in ToMap(s.top[c].delegations) && IsDecrease(s, c, call.delegator)
    then PendingIn(RequestsOf(s.requests, c), call.delegator) else 0
  }

  ghost predicate IsDecrease(s: Storage, c: Account, d: Account) {
    exists r :: r in RequestsOf(s.requests, c) && r.delegator == d && r.action.Decrease?
  }

  /** What a bottom total owes to the past, and what one call adds to it: exactly, up to the limit of the type. */
  ghost predicate DriftExplained(s: Storage, call: Call, s': Storage, c: Account)
    requires Keyed(s) && Keyed(s') && c in s'.info
  {
    var before := if c in s.info then Drift(s.bottom[c]) else 0;
    Carries(s'.bottom[c], before + LeftBehind(s, call, c))
  }

  lemma DriftIsExplained(s: Storage, call: Call, s': Storage, c: Account)
    requires Inv(s) && Inv(s') && Keyed(s) && Keyed(s') && Step(s, call, s') && c in s'.info
    ensures DriftExplained(s, call, s', c)
  {
    hide ToMap, TierOk, Inv, Live, Moved, Sum, BookOk, Backers, Exited, Delegated, Increased, Execution.Executed,
      ErrorOf, Withdrawn, Asked, Admitted, StatusChanged, BondRaised, BondLowered, BondLessNoted, Untouched,
      DriftExplained, Drift, Carries;
    TotalFits(s', c);
    if ErrorOf(s, call).Some? {
      SameDrift(s, call, s', c);
    } else if Target(call) != Some(c) {
      OnlyTheTarget(s, call, s', c);
      Unchanged(s, s', c);
      SameDrift(s, call, s', c);
    } else {
      match call {
        case JoinCandidates(_, _, _) => JoinDrift(s, call, s', c);
        case ExecuteLeave(_, _) => ExitRemoves(s, s', c);
        case DelegateTo(_, _, _, _, _) => DelegateDrift(s, call, s', c);
        case ExecuteRequest(e, _) =>
          var q: Request :| q.delegator == e && Execution.Executed(s, s', c, q);
          ExecuteDrift(s, call, s', c, q);
        case DelegatorBondMore(_, _, _) => IncreaseDrift(s, call, s', c);
        case _ =>
          RestKeepsBottom(s, call, s', c);
          SameDrift(s, call, s', c);
      }
    }
  }

  lemma RestKeepsBottom(s: Storage, call: Call, s': Storage, c: Account)
    requires Keyed(s) && Keyed(s') && Next(s, call, s') && Target(call) == Some(c)
    requires !call.ExecuteLeave? && !call.DelegateTo? && !call.ExecuteRequest? && !call.DelegatorBondMore?
    requires !call.JoinCandidates? && c in s'.info
    ensures c in s.info && s'.bottom[c] == s.bottom[c]
  {
    hide Backers, Moved, PoolAfter, Without, InsertByOwner, NEW_CANDIDATE, NO_DELEGATIONS, Forget, PendingIn;
  }

  lemma TotalFits(s: Storage, c: Account)
    requires Inv(s) && Keyed(s) && c in s.info
    ensures s.bottom[c].total <= MAX_BALANCE
  {
    hide BookOk, PoolOk, MoneyOk, Shape, CachedTop, CachedBottom, SeqSum;
  }

  lemma SameDrift(s: Storage, call: Call, s': Storage, c: Account)
    requires Keyed(s) && Keyed(s') && c in s'.info && c in s.info && s'.bottom[c] == s.bottom[c]
    requires Target(call) != Some(c) || ErrorOf(s, call).Some? || !call.ExecuteRequest?
    requires s'.bottom[c].total <= MAX_BALANCE
    ensures DriftExplained(s, call, s', c)
  {
    hide ErrorOf, ToMap, IsDecrease, Backers, Sum, SeqSum;
  }

  lemma JoinDrift(s: Storage, call: Call, s': Storage, c: Account)
    requires Keyed(s) && Keyed(s') && c in s'.info && Admitted(s, s', c)
    ensures DriftExplained(s, call, s', c)
  {
    hide ErrorOf, ToMap, IsDecrease, Backers, Sum;
  }

  lemma DelegateDrift(s: Storage, call: Call, s': Storage, c: Account)
    requires Keyed(s) && Keyed(s') && c in s'.info && call.DelegateTo? && call.candidate == c
    requires Delegated(s, s', c, call.who, call.amount)
    ensures DriftExplained(s, call, s', c)
  {
    hide ErrorOf, ToMap, IsDecrease, Backers, Sum, TierOk, Add, AfterKick, Joined, PoolAfter, Moved, Drift, KickReady;
  }

  lemma IncreaseDrift(s: Storage, call: Call, s': Storage, c: Account)
    requires Keyed(s) && Keyed(s') && c in s'.info && call.DelegatorBondMore? && call.candidate == c
    requires Increased(s, s', c, call.who, call.more)
    ensures DriftExplained(s, call, s', c)
  {
    hide ErrorOf, ToMap, IsDecrease, Backers, Sum, TierOk, Raise, PoolAfter, Moved, Revised, Drift;
  }

  lemma ExecuteDrift(s: Storage, call: Call, s': Storage, c: Account, q: Request)
    requires Inv(s) && Keyed(s) && Keyed(s') && c in s'.info && call == ExecuteRequest(q.delegator, c)
    requires ErrorOf(s, call) == None && Execution.Executed(s, s', c, q) && s'.bottom[c].total <= MAX_BALANCE
    ensures DriftExplained(s, call, s', c)
  {
    hide Inv, ErrorOf, ToMap, Backers, Sum, SeqSum, TierOk, Remove, Lower, PoolAfter, Moved, Revised, Released, Forget,
      PendingIn;
    RequestIsBacked(s, c, q);
    OnlyRequest(s, c, q);
  }

  lemma OnlyRequest(s: Storage, c: Account, q: Request)
    requires Inv(s) && q in RequestsOf(s.requests, c)
    ensures IsDecrease(s, c, q.delegator) <==> q.action.Decrease?
  {
    hide ToMap, TierOk, Backers, Mirror, DelegatorsOk, LessOk;
    DelegationRequests.OneEach(s, c);
  }

  // Rounds

  /** Rounds pass one by one, and no dispatchable turns the clock. */
  lemma RoundAfter(s: Storage, call: Call, s': Storage)
    requires Keyed(s) && Step(s, call, s')
    ensures s'.round == s.round + (if call == NextRound then 1 else 0)
  {
    hide ToMap, TierOk, Moved, Backers, Exited, Delegated, Increased, Execution.Executed, PoolAfter,
      Without, InsertByOwner, NEW_CANDIDATE, NO_DELEGATIONS, Forget, PendingIn;
    if ErrorOf(s, call).None? {
      match call {
        case ExecuteLeave(c, _) => ExitRound(s, s', c);
        case DelegateTo(d, c, a, _, _) => DelegateRound(s, s', c, d, a);
        case ExecuteRequest(d, c) =>
          var q: Request :| q.delegator == d && Execution.Executed(s, s', c, q);
          ExecuteRound(s, s', c, q);
        case DelegatorBondMore(d, c, more) => IncreaseDrops(s, s', c, d, more);
        case _ =>
      }
    }
  }

  lemma ExitRound(s: Storage, s': Storage, c: Account)
    requires Exited(s, s', c)
    ensures s'.round == s.round
  {
    hide ReturnAll;
    ReturnFrame(s, c, AllBonds(s, c));
  }

  lemma DelegateRound(s: Storage, s': Storage, c: Account, d: Account, a: Balance)
    requires Delegated(s, s', c, d, a)
    ensures s'.round == s.round
  {
    hide TierOk, Add, DriftKept, Joined, PoolAfter, Store, Parted, Moved, AmountOf, PendingIn, Forget;
  }

  lemma ExecuteRound(s: Storage, s': Storage, c: Account, q: Request)
    requires Execution.Executed(s, s', c, q)
    ensures s'.round == s.round
  {
    hide ListsChanged, TierOk, Remove, Lower, Backers, PoolAfter, Store, Parted, Moved, AmountOf, PendingIn,
      Forget, Revised, Execution.DriftAfterDecrease;
  }

  lemma GoneByExit(s: Storage, call: Call, s': Storage, c: Account)
    requires Inv(s) && Inv(s') && Keyed(s) && Keyed(s') && Step(s, call, s') && c in s.info && c !in s'.info
    ensures call.ExecuteLeave? && call.candidate == c && ExitDue(s, c) && ErrorOf(s, call) == None
  {
    hide ToMap, TierOk, Inv, Live, Moved, Backers, Exited, Delegated, Increased, Execution.Executed, ErrorOf, Withdrawn,
      Asked, Admitted, StatusChanged, BondRaised, BondLowered, BondLessNoted, Untouched, ExitDue;
    if Target(call) != Some(c) {
      OnlyTheTarget(s, call, s', c);
      Unchanged(s, s', c);
    } else if ErrorOf(s, call).None? {
      if call.ExecuteLeave? {
        ExitIsDue(s, s', c);
      } else {
        TargetStays(s, call, s', c);
      }
    }
  }

  lemma TargetStays(s: Storage, call: Call, s': Storage, c: Account)
    requires Keyed(s) && Next(s, call, s') && Target(call) == Some(c) && !call.ExecuteLeave? && c in s.info
    ensures c in s'.info
  {
    hide Keyed, TierOk, Moved, Backers, Delegated, Increased, Execution.Executed, Withdrawn,
      Asked, Admitted, StatusChanged, BondRaised, BondLowered, BondLessNoted;
    match call {
      case DelegateTo(d, _, a, _, _) => DelegateStays(s, s', c, d, a);
      case ExecuteRequest(d, _) =>
        var q: Request :| q.delegator == d && Execution.Executed(s, s', c, q);
        ExecuteStays(s, s', c, q);
      case DelegatorBondMore(d, _, more) => IncreaseStays(s, s', c, d, more);
      case ScheduleRevoke(_, _) => AskStays(s, call, s');
      case ScheduleDelegatorBondLess(_, _, _) => AskStays(s, call, s');
      case CancelRequest(_, _) => AskStays(s, call, s');
      case _ => OwnCallStays(s, call, s', c);
    }
  }

  lemma OwnCallStays(s: Storage, call: Call, s': Storage, c: Account)
    requires Next(s, call, s') && OwnCall(call) && Target(call) == Some(c)
    ensures c in s'.info
  {
    hide NEW_CANDIDATE, NO_DELEGATIONS, PoolAfter, Without, InsertByOwner, Moved;
  }

  lemma AskStays(s: Storage, call: Call, s': Storage)
    requires Keyed(s) && Next(s, call, s')
    requires call.ScheduleRevoke? || call.ScheduleDelegatorBondLess? || call.CancelRequest?
    ensures s'.info == s.info
  {
    hide Backers, Forget, PendingIn;
  }

  lemma DelegateStays(s: Storage, s': Storage, c: Account, d: Account, a: Balance)
    requires Delegated(s, s', c, d, a)
    ensures c in s'.info
  {
    hide TierOk, Add, DriftKept, Joined, PoolAfter, AfterKick;
  }

  lemma ExecuteStays(s: Storage, s': Storage, c: Account, q: Request)
    requires Execution.Executed(s, s', c, q)
    ensures c in s'.info
  {
    hide TierOk, Remove, Lower, Backers, PoolAfter, Released, Revised, Execution.DriftAfterDecrease;
  }

  lemma IncreaseStays(s: Storage, s': Storage, c: Account, d: Account, more: Balance)
    requires Increased(s, s', c, d, more)
    ensures c in s'.info
  {
    hide TierOk, Raise, Backers, PoolAfter, Moved, Revised, DriftKept;
  }

  // Locks

  /** Exactly the candidates have a native lock. */
  lemma LocksKept(s: Storage, call: Call, s': Storage)
    requires Keyed(s) && Step(s, call, s') && s.locks == s.info.Keys
    ensures s'.locks == s'.info.Keys
  {
    hide ToMap, TierOk, Moved, Backers, Exited, Delegated, Increased, Execution.Executed, ErrorOf, PoolAfter,
      Without, InsertByOwner, NEW_CANDIDATE, NO_DELEGATIONS, Forget, PendingIn, Keyed;
    if ErrorOf(s, call).None? {
      match call {
        case ExecuteLeave(c, _) => ExitLocks(s, s', c);
        case DelegateTo(d, c, a, _, _) => DelegateLocks(s, s', c, d, a);
        case ExecuteRequest(d, c) =>
          var q: Request :| q.delegator == d && Execution.Executed(s, s', c, q);
          ExecuteLocks(s, s', c, q);
        case DelegatorBondMore(d, c, more) => IncreaseLocks(s, s', c, d, more);
        case _ =>
      }
    }
  }

  lemma ExitLocks(s: Storage, s': Storage, c: Account)
    requires Exited(s, s', c)
    ensures s'.locks == s.locks - {c} && s'.info.Keys == s.info.Keys - {c}
  {
    hide ReturnAll;
    ReturnFrame(s, c, AllBonds(s, c));
  }

  lemma DelegateLocks(s: Storage, s': Storage, c: Account, d: Account, a: Balance)
    requires Delegated(s, s', c, d, a)
    ensures s'.locks == s.locks && s'.info.Keys == s.info.Keys
  {
    hide TierOk, Add, DriftKept, Joined, PoolAfter, Store, Parted, Moved, AmountOf, PendingIn, Forget;
    OnlyCandidateHolds(s, s', c);
  }

  lemma ExecuteLocks(s: Storage, s': Storage, c: Account, q: Request)
    requires Execution.Executed(s, s', c, q)
    ensures s'.locks == s.locks && s'.info.Keys == s.info.Keys
  {
    hide TierOk, Remove, Lower, Backers, PoolAfter, Store, Parted, Moved, AmountOf, PendingIn, Forget, Revised,
      Execution.DriftAfterDecrease;
    OnlyCandidateHolds(s, s', c);
  }

  lemma IncreaseLocks(s: Storage, s': Storage, c: Account, d: Account, more: Balance)
    requires Increased(s, s', c, d, more)
    ensures s'.locks == s.locks && s'.info.Keys == s.info.Keys
  {
    hide TierOk, Raise, Backers, PoolAfter, Moved, Revised, DriftKept;
    OnlyCandidateHolds(s, s', c);
  }
}
