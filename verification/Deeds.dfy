/** What a call that succeeds has achieved, and what makes a request disappear. */
module Deeds {
  import opened Config
  import opened Wrappers
  import opened Sums
  import opened Bonds
  import opened DelegationList
  import opened Tiers
  import opened OrderedSets
  import opened Book
  import opened Storage
  import opened DelegatorRecord
  import opened CandidateRecord
  import opened CandidateState
  import opened Accounting
  import opened Delegate
  import opened Candidates
  import opened Ledger
  import DelegationRequests
  import Execution = RequestExecution
  import opened CandidateExit
  import opened Dispatch
  import opened Effects
  import opened Admission

  /** What the candidate's own calls achieve. */
  ghost predicate OwnDeed(s: Storage, call: Call, s': Storage)
    requires Keyed(s) && Keyed(s') && OwnCall(call)
  {
    match call
    case JoinCandidates(c, _, _) =>
      && c in s'.info && s'.info[c].status == Active && s'.info[c].bond == 0 && s'.info[c].request == None
      && Backers(TiersOf(s', c)) == map[]
    case ScheduleLeave(c, _) => c in s'.info && s'.info[c].status == Leaving(s.round + LEAVE_CANDIDATES_DELAY)
    case CancelLeave(c, _) => c in s'.info && s'.info[c].status == Active
    case GoOffline(c) => c in s'.info && s'.info[c].status == Idle
    case GoOnline(c) => c in s'.info && s'.info[c].status == Active
    case CandidateBondMore(c, more) => c in s.info && c in s'.info && s'.info[c].bond == s.info[c].bond + more
    case ScheduleCandidateBondLess(c, less) =>
      c in s'.info && s'.info[c].request == Some(BondLessRequest(less, s.round + CANDIDATE_BOND_LESS_DELAY))
    case ExecuteCandidateBondLess(c) =>
      && c in s.info && c in s'.info && s.info[c].request.Some? && s'.info[c].request == None
      && s'.info[c].bond == s.info[c].bond - s.info[c].request.value.amount
    case CancelCandidateBondLess(c) => c in s'.info && s'.info[c].request == None
  }

  /** What the other calls achieve. */
  ghost predicate OtherDeed(s: Storage, call: Call, s': Storage)
    requires Keyed(s) && Keyed(s') && !OwnCall(call)
  {
    match call
    case ExecuteLeave(c, _) => c in s.info && c !in s'.info
    case DelegateTo(d, c, a, _, _) => StakeWith(s', c, d) == a
    case DelegatorBondMore(d, c, more) => StakeWith(s', c, d) == StakeWith(s, c, d) + more
    case ScheduleRevoke(d, c) =>
      Request(d, s.round + REVOKE_DELEGATION_DELAY, Revoke(StakeWith(s, c, d))) in RequestsOf(s'.requests, c)
    case ScheduleDelegatorBondLess(d, c, less) =>
      Request(d, s.round + REVOKE_DELEGATION_DELAY, Decrease(less)) in RequestsOf(s'.requests, c)
    case ExecuteRequest(d, c) =>
      && !IsPending(s', c, d)
      && exists r :: r in RequestsOf(s.requests, c) && r.delegator == d
                     && StakeWith(s', c, d) == StakeWith(s, c, d) - r.action.amount
    case CancelRequest(d, c) => IsPending(s, c, d) && !IsPending(s', c, d)
    case NextRound => s'.round == s.round + 1
    case TransferBtc(from, to, amount) =>
      from != to ==> Get(s'.btc, from) == Get(s.btc, from) - amount && Get(s'.btc, to) == Get(s.btc, to) + amount
  }

  /** Every call that succeeds does what it is for. */
  lemma EveryDeedIsDone(s: Storage, call: Call, s': Storage)
    requires Inv(s) && Inv(s') && Keyed(s) && Keyed(s') && Step(s, call, s') && ErrorOf(s, call) == None
    ensures if OwnCall(call) then OwnDeed(s, call, s') else OtherDeed(s, call, s')
  {
    hide Inv, Keyed, Admitted, StatusChanged, BondRaised, BondLowered, BondLessNoted, Exited, Delegated, Increased,
      Execution.Executed, Asked, Withdrawn, Moved, StakeWith, IsPending;
    if OwnCall(call) {
      OwnDeedIsDone(s, call, s');
    } else {
      hide ErrorOf;
      match call {
        case ExecuteLeave(c, _) =>
          ExitRemoves(s, s', c);
          ExitIsDue(s, s', c);
        case DelegateTo(d, c, a, hint, own) => DelegateStake(s, s', c, d, a, hint, own, d);
        case DelegatorBondMore(d, c, more) => IncreaseStake(s, s', c, d, more, d);
        case ScheduleRevoke(d, c) => RevokeIsAsked(s, s', c, d);
        case ScheduleDelegatorBondLess(d, c, less) =>
          RequestIsThere(s, s', c, Request(d, s.round + REVOKE_DELEGATION_DELAY, Decrease(less)));
        case ExecuteRequest(d, c) =>
          var q: Request :| q.delegator == d && Execution.Executed(s, s', c, q);
          ExecuteStake(s, s', c, q, d);
          RequestIsDone(s, s', c, q);
        case CancelRequest(d, c) => RequestIsGone(s, s', c, d);
        case NextRound =>
        case TransferBtc(from, to, amount) => MovedHolds(s.btc, from, to, amount);
      }
    }
  }

  lemma OwnDeedIsDone(s: Storage, call: Call, s': Storage)
    requires Keyed(s) && Keyed(s') && OwnCall(call) && Next(s, call, s')
    ensures OwnDeed(s, call, s')
  {
    hide Keyed, Backers, Moved, PoolAfter, Without, InsertByOwner, NO_DELEGATIONS;
    if call.JoinCandidates? {
      AdmittedIsEmpty(s, s', call.who);
    }
  }

  lemma RequestIsThere(s: Storage, s': Storage, c: Account, r: Request)
    requires Asked(s, s', c, r)
    ensures r in RequestsOf(s'.requests, c)
  {
    hide Backers, Backed, HasRequest;
  }

  lemma RevokeIsAsked(s: Storage, s': Storage, c: Account, d: Account)
    requires Inv(s) && Keyed(s) && d in s.delegators
    requires Asked(s, s', c, Request(d, s.round + REVOKE_DELEGATION_DELAY,
                                     Revoke(AmountOf(s.delegators[d].delegations, c))))
    ensures Request(d, s.round + REVOKE_DELEGATION_DELAY, Revoke(StakeWith(s, c, d))) in RequestsOf(s'.requests, c)
  {
    hide Inv, Backers, AmountOf, HasRequest;
    RequestIsThere(s, s', c, Request(d, s.round + REVOKE_DELEGATION_DELAY,
                                     Revoke(AmountOf(s.delegators[d].delegations, c))));
  }

  lemma RequestIsGone(s: Storage, s': Storage, c: Account, d: Account)
    requires Inv(s) && Withdrawn(s, s', c, d)
    ensures IsPending(s, c, d) && !IsPending(s', c, d)
  {
    hide Inv, PendingIn, DropRequest;
    DelegationRequests.OneEach(s, c);
    DropRequestHolds(s.requests[c], d);
  }

  lemma RequestIsDone(s: Storage, s': Storage, c: Account, q: Request)
    requires Inv(s) && Execution.Executed(s, s', c, q)
    ensures q in RequestsOf(s.requests, c) && !IsPending(s', c, q.delegator)
  {
    hide Inv, ListsChanged, TierOk, Remove, Lower, Backers, PoolAfter, Store, Parted, Moved, AmountOf, PendingIn,
      DropRequest, Revised, Execution.DriftAfterDecrease;
    DelegationRequests.OneEach(s, c);
    DropRequestHolds(s.requests[c], q.delegator);
  }

  // How a request disappears

  /** A request disappears only by being cancelled or executed, by a kick of its delegator, or by the exit. */
  ghost predicate VanishingExplained(s: Storage, call: Call, s': Storage, c: Account, r: Request)
    requires Keyed(s) && Keyed(s')
  {
    r in RequestsOf(s.requests, c) && r !in RequestsOf(s'.requests, c) ==>
      && ErrorOf(s, call) == None
      && (|| call == CancelRequest(r.delegator, c)
          || call == ExecuteRequest(r.delegator, c)
          || (call.DelegateTo? && call.candidate == c && KickedBy(s, s', c, r.delegator, call.amount))
          || (call.ExecuteLeave? && call.candidate == c && ExitDue(s, c)))
  }

  lemma VanishingIsExplained(s: Storage, call: Call, s': Storage, c: Account, r: Request)
    requires Inv(s) && Inv(s') && Keyed(s) && Keyed(s') && Step(s, call, s')
    ensures VanishingExplained(s, call, s', c, r)
  {
    hide ToMap, TierOk, Inv, Live, Moved, Sum, BookOk, Backers, Exited, Delegated, Increased, Execution.Executed,
      ErrorOf, Withdrawn, Asked, Admitted, StatusChanged, BondRaised, BondLowered, BondLessNoted, Untouched,
      KickedBy, ExitDue, AmountOf;
    if ErrorOf(s, call).Some? {
    } else if Target(call) != Some(c) {
      OnlyTheTarget(s, call, s', c);
      Unchanged(s, s', c);
    } else if !OwnCall(call) {
      match call {
        case ExecuteLeave(_, _) => ExitIsDue(s, s', c);
        case DelegateTo(e, _, a, hint, own) => KickDrops(s, s', c, e, a, hint, own, r);
        case ExecuteRequest(e, _) =>
          var q: Request :| q.delegator == e && Execution.Executed(s, s', c, q);
          ExecuteDropsOne(s, s', c, q, r);
        case DelegatorBondMore(e, _, more) => IncreaseDrops(s, s', c, e, more);
        case ScheduleRevoke(e, _) =>
          AskDropsNone(s, s', c, Request(e, s.round + REVOKE_DELEGATION_DELAY,
                                         Revoke(AmountOf(s.delegators[e].delegations, c))), r);
        case ScheduleDelegatorBondLess(e, _, less) =>
          AskDropsNone(s, s', c, Request(e, s.round + REVOKE_DELEGATION_DELAY, Decrease(less)), r);
        case CancelRequest(e, _) => WithdrawDropsOne(s, s', c, e, r);
      }
    } else {
      OwnCallDropsNone(s, call, s');
    }
  }

  lemma OwnCallDropsNone(s: Storage, call: Call, s': Storage)
    requires OwnCall(call) && Next(s, call, s')
    ensures s'.requests == s.requests
  {
    hide Moved, PoolAfter, Without, InsertByOwner, NEW_CANDIDATE, NO_DELEGATIONS;
  }

  lemma AskDropsNone(s: Storage, s': Storage, c: Account, q: Request, r: Request)
    requires Asked(s, s', c, q)
    ensures r in RequestsOf(s.requests, c) ==> r in RequestsOf(s'.requests, c)
  {
    hide Backers, Backed, HasRequest;
  }

  lemma {:induction false} DropSparesOthers(l: seq<Request>, d: Account, r: Request)
    requires r.delegator != d
    ensures r in DropRequest(l, d) <==> r in l
  {
    if l != [] && l[0].delegator != d {
      DropSparesOthers(l[1..], d, r);
    }
  }

  lemma WithdrawDropsOne(s: Storage, s': Storage, c: Account, d: Account, r: Request)
    requires Withdrawn(s, s', c, d)
    ensures r.delegator != d ==> (r in RequestsOf(s'.requests, c) <==> r in RequestsOf(s.requests, c))
  {
    hide DropRequest, PendingIn;
    if r.delegator != d {
      DropSparesOthers(RequestsOf(s.requests, c), d, r);
    }
  }

  lemma ExecuteDropsOne(s: Storage, s': Storage, c: Account, q: Request, r: Request)
    requires Execution.Executed(s, s', c, q)
    ensures r.delegator != q.delegator ==> (r in RequestsOf(s'.requests, c) <==> r in RequestsOf(s.requests, c))
  {
    hide ListsChanged, TierOk, Remove, Lower, Backers, PoolAfter, Store, Parted, Moved, AmountOf, PendingIn,
      DropRequest, Revised, Execution.DriftAfterDecrease;
    if r.delegator != q.delegator {
      DropSparesOthers(RequestsOf(s.requests, c), q.delegator, r);
    }
  }

  lemma KickDrops(s: Storage, s': Storage, c: Account, e: Account, a: Balance, hint: nat, own: nat, r: Request)
    requires Inv(s) && Keyed(s) && Keyed(s') && Delegated(s, s', c, e, a) && e != PALLET
    requires ErrorOf(s, DelegateTo(e, c, a, hint, own)) == None
    ensures r in RequestsOf(s.requests, c) && r !in RequestsOf(s'.requests, c) ==> KickedBy(s, s', c, r.delegator, a)
  {
    hide Inv, ErrorOf, TierOk, Add, DriftKept, Joined, PoolAfter, Store, Parted, Moved, AmountOf, PendingIn, DropRequest,
      KickedBy, KickReady;
    var l := s.bottom[c].delegations;
    if |l| == MAX_BOTTOM && r in RequestsOf(s.requests, c) && r !in RequestsOf(s'.requests, c) {
      if r.delegator != Last(l).owner {
        DropSparesOthers(RequestsOf(s.requests, c), Last(l).owner, r);
      }
      KickHits(s, s', c, e, a, hint, own);
    }
  }

  /** Who is kicked. */
  lemma KickHits(s: Storage, s': Storage, c: Account, e: Account, a: Balance, hint: nat, own: nat)
    requires Inv(s) && Keyed(s) && Keyed(s') && Delegated(s, s', c, e, a) && e != PALLET
    requires ErrorOf(s, DelegateTo(e, c, a, hint, own)) == None && |s.bottom[c].delegations| == MAX_BOTTOM
    ensures KickedBy(s, s', c, Last(s.bottom[c].delegations).owner, a)
  {
    hide Inv, ToMap, TierOk, Add, Backers, PoolAfter, Moved, Released, Joined, DriftKept, AfterKick;
    var t := TiersOf(s, c);
    NewcomerIsNew(s, c, e);
    ShapeOf(s, c);
    AddHolds(t, Bond(e, a));
    LastBacksWhenFull(t);
    KickedIsLeast(t, Bond(e, a));
  }

  lemma LastBacksWhenFull(t: Tiers)
    requires Shape(t) && |t.bottom| == MAX_BOTTOM
    ensures IsFull(t) && Last(t.bottom).owner in Backers(t)
    ensures Backers(t)[Last(t.bottom).owner] == Last(t.bottom).amount
  {
    LastBacks(t);
  }
}
