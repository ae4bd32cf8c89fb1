/**
 When a call succeeds and how it fails, told in terms of the delegations themselves: who backs whom and with how much,
 whichever tier or record that is read from.
 */
module Admission {
  import opened Config
  import opened Wrappers
  import opened Sums
  import opened Bonds
  import opened DelegationList
  import opened Tiers
  import opened OrderedSets
  import opened Book
  import opened Storage
  import opened DelegatorRecord
  import opened Accounting
  import opened Delegate
  import opened Candidates
  import opened Ledger
  import Requests = DelegationRequests
  import Execution = RequestExecution
  import opened CandidateExit
  import opened Dispatch

  /** The candidates that `d` delegates to. */
  ghost function Places(s: Storage, d: Account): set<Account>
    requires Keyed(s)
  {
    set c | c in s.info && d in Backers(TiersOf(s, c))
  }

  /** How many candidates are active. */
  ghost function ActiveCount(s: Storage): nat {
    |ActiveStakes(s.info)|
  }

  /** How many delegations `c` has. */
  ghost function BackerCount(s: Storage, c: Account): nat
    requires Keyed(s) && c in s.info
  {
    |Backers(TiersOf(s, c))|
  }

  /** `c` has room for a delegation of `a`, or a smaller one to kick. */
  ghost predicate HasPlaceFor(s: Storage, c: Account, a: Balance)
    requires Keyed(s) && c in s.info
  {
    var m := Backers(TiersOf(s, c));
    |m| < MAX_TOP + MAX_BOTTOM || exists o :: o in m && m[o] < a
  }

  ghost predicate IsPending(s: Storage, c: Account, d: Account) {
    HasRequest(RequestsOf(s.requests, c), d)
  }

  /** A demand of a call, the error if it is not met, and what else is demanded. */
  function Demand(met: bool, otherwise: Error, next: Option<Error>): Option<Error> {
    if met then next else Some(otherwise)
  }

  // The candidate's calls

  ghost function OwnRefusal(s: Storage, call: Call): Option<Error>
    requires Keyed(s) && OwnCall(call)
  {
    match call
    case JoinCandidates(c, free, hint) =>
      Demand(c !in s.info, CandidateExists,
      Demand(Places(s, c) == {}, DelegatorExists,
      Demand(ActiveCount(s) <= hint, TooLowCandidateCountWeightHintJoinCandidates,
      Demand(ActiveCount(s) < MAX_CANDIDATES, CandidateLimitReached,
      Demand(MIN_CANDIDATE_STK <= free, InsufficientBalance, None)))))
    case ScheduleLeave(c, hint) =>
      Demand(c in s.info, CandidateDNE,
      Demand(c in s.info && !s.info[c].status.Leaving?, CandidateAlreadyLeaving,
      Demand(ActiveCount(s) <= hint, TooLowCandidateCountToLeaveCandidates, None)))
    case CancelLeave(c, hint) =>
      Demand(c in s.info, CandidateDNE,
      Demand(c in s.info && s.info[c].status.Leaving?, CandidateNotLeaving,
      Demand(ActiveCount(s) <= hint, TooLowCandidateCountWeightHintCancelLeaveCandidates,
      Demand(ActiveCount(s) < MAX_CANDIDATES, CandidateLimitReached, None))))
    case GoOffline(c) =>
      Demand(c in s.info, CandidateDNE,
      Demand(c in s.info && s.info[c].status == Active, AlreadyOffline, None))
    case GoOnline(c) =>
      Demand(c in s.info, CandidateDNE,
      Demand(c in s.info && s.info[c].status != Active, AlreadyActive,
      Demand(c in s.info && s.info[c].status == Idle, CannotGoOnlineIfLeaving,
      Demand(ActiveCount(s) < MAX_CANDIDATES, CandidateLimitReached, None))))
    case CandidateBondMore(c, more) =>
      Demand(c in s.info, CandidateDNE,
      Demand(more <= Get(s.btc, c), InsufficientBalance, None))
    case ScheduleCandidateBondLess(c, less) =>
      Demand(c in s.info, CandidateDNE,
      Demand(c in s.info && s.info[c].request == None, PendingCandidateRequestAlreadyExists,
      Demand(c in s.info && less < s.info[c].bond, CandidateBondBelowMin, None)))
    case ExecuteCandidateBondLess(c) =>
      Demand(c in s.info, CandidateDNE,
      Demand(c in s.info && s.info[c].request != None, PendingCandidateRequestsDNE,
      Demand(c in s.info && s.info[c].request.Some? && s.info[c].request.value.whenExecutable <= s.round,
             PendingCandidateRequestNotDueYet, None)))
    case CancelCandidateBondLess(c) =>
      Demand(c in s.info, CandidateDNE,
      Demand(c in s.info && s.info[c].request != None, PendingCandidateRequestsDNE, None))
  }

  // The delegator's calls

  ghost function DelegateRefusal(s: Storage, d: Account, c: Account, a: Balance, hint: nat, ownHint: nat): Option<Error>
    requires Keyed(s)
  {
    Demand(c in s.info && s.info[c].status == Active, CandidateDNE,
    Demand(a <= Get(s.btc, d), InsufficientBalance,
    Demand(MIN_DELEGATION <= a, DelegationBelowMin,
    Demand(|Places(s, d)| <= ownHint, TooLowDelegationCountToDelegate,
    Demand(|Places(s, d)| < MAX_DELEGATIONS, ExceedMaxDelegationsPerDelegator,
    Demand(c !in Places(s, d), AlreadyDelegatedCandidate,
    Demand(d !in s.info, CandidateExists,
    Demand(c in s.info && BackerCount(s, c) <= hint, TooLowCandidateDelegationCountToDelegate,
    Demand(c in s.info && HasPlaceFor(s, c, a), CannotDelegateLessThanOrEqualToLowestBottomWhenFull, None)))))))))
  }

  /** The calls about a delegation that is there. */
  predicate RequestCall(call: Call) {
    || call.ScheduleRevoke? || call.ScheduleDelegatorBondLess? || call.CancelRequest? || call.ExecuteRequest?
    || call.DelegatorBondMore?
  }

  ghost function RequestRefusal(s: Storage, call: Call): Option<Error>
    requires Keyed(s) && RequestCall(call)
  {
    match call
    case ScheduleRevoke(d, c) =>
      Demand(Places(s, d) != {}, DelegatorDNE,
      Demand(!IsPending(s, c, d), PendingDelegationRequestAlreadyExists,
      Demand(c in Places(s, d), DelegationDNE, None)))
    case ScheduleDelegatorBondLess(d, c, less) =>
      Demand(Places(s, d) != {}, DelegatorDNE,
      Demand(!IsPending(s, c, d), PendingDelegationRequestAlreadyExists,
      Demand(c in Places(s, d), DelegationDNE,
      Demand(c in Places(s, d) && less < Backers(TiersOf(s, c))[d], DelegatorBondBelowMin,
      Demand(c in Places(s, d) && less + MIN_DELEGATION <= Backers(TiersOf(s, c))[d], DelegationBelowMin,
      Demand(d in s.delegators
             && (less == 0 || less + s.delegators[d].lessTotal + MIN_DELEGATION <= s.delegators[d].total),
             DelegatorBondBelowMin, None))))))
    case CancelRequest(d, c) =>
      Demand(Places(s, d) != {}, DelegatorDNE,
      Demand(IsPending(s, c, d), PendingDelegationRequestDNE, None))
    case ExecuteRequest(d, c) =>
      Demand(Places(s, d) != {}, DelegatorDNE,
      Demand(IsPending(s, c, d), PendingDelegationRequestDNE,
      Demand(forall r | r in RequestsOf(s.requests, c) && r.delegator == d :: r.whenExecutable <= s.round,
             PendingDelegationRequestNotDueYet, None)))
    case DelegatorBondMore(d, c, more) =>
      Demand(Places(s, d) != {}, DelegatorDNE,
      Demand(forall r | r in RequestsOf(s.requests, c) && r.delegator == d :: !r.action.Revoke?, PendingDelegationRevoke,
      Demand(c in Places(s, d), DelegationDNE,
      Demand(more <= Get(s.btc, d), TransferFailed, None))))
  }

  ghost function OtherRefusal(s: Storage, call: Call): Option<Error>
    requires Keyed(s) && !OwnCall(call) && !RequestCall(call)
  {
    match call
    case DelegateTo(d, c, a, hint, own) => DelegateRefusal(s, d, c, a, hint, own)
    case ExecuteLeave(c, hint) =>
      Demand(c in s.info, CandidateDNE,
      Demand(c in s.info && BackerCount(s, c) <= hint, TooLowCandidateDelegationCountToLeaveCandidates,
      Demand(c in s.info && s.info[c].status.Leaving?, CandidateNotLeaving,
      Demand(c in s.info && s.info[c].status.Leaving? && s.info[c].status.when <= s.round, CandidateCannotLeaveYet,
             None))))
    case NextRound => None
    case TransferBtc(from, to, amount) => Demand(amount <= Get(s.btc, from), InsufficientBalance, None)
  }

  /** The first demand of a call that is not met. */
  ghost function Refusal(s: Storage, call: Call): Option<Error>
    requires Keyed(s)
  {
    if OwnCall(call) then OwnRefusal(s, call)
    else if RequestCall(call) then RequestRefusal(s, call)
    else OtherRefusal(s, call)
  }

  // What the checks look at instead

  lemma PoolCounts(s: Storage)
    requires Inv(s)
    ensures |s.pool| == ActiveCount(s) <= MAX_CANDIDATES
  {
    hide ToMap, CandidatesOk, BookOk, MoneyOk;
    SumToMap(s.pool);
  }

  lemma CandidateCounts(s: Storage, c: Account)
    requires Inv(s) && Keyed(s) && c in s.info
    ensures s.info[c].delegationCount == BackerCount(s, c)
  {
    hide ToMap, BookOk, PoolOk, MoneyOk, CachedTop, CachedBottom, SeqSum, Above;
    var t := TiersOf(s, c);
    SumToMap(t.top);
    SumToMap(t.bottom);
    UpperIsASelection(ToMap(t.top), ToMap(t.bottom));
  }

  /** A delegator's record lists exactly its places; without any there is no record. */
  lemma RecordCounts(s: Storage, d: Account)
    requires Inv(s) && Keyed(s)
    ensures d in s.delegators <==> Places(s, d) != {}
    ensures d in s.delegators ==>
              && |s.delegators[d].delegations| == |Places(s, d)| && d !in s.info
              && forall c :: HasOwner(s.delegators[d].delegations, c) <==> c in Places(s, d)
    ensures Places(s, d) != {} || |Places(s, d)| == 0
  {
    hide ToMap, CandidatesOk, PoolOk, MoneyOk, Backers, RequestsOk, LessOk;
    var bk := BookOf(s);
    forall c
      ensures c in Places(s, d) <==> c in BondsOf(s.delegators, d)
    {
      assert Lookup(BackersOf(bk, c), d) == Lookup(BondsOf(bk.delegators, d), c);
    }
    if d in s.delegators {
      var l := s.delegators[d].delegations;
      SumToMap(l);
      ToMapOwners(l);
      assert Places(s, d) == ToMap(l).Keys;
      KeysNumber(ToMap(l));
      assert HasOwner(l, l[0].owner);
    }
  }

  lemma KeysNumber(m: map<Account, Balance>)
    ensures |m.Keys| == |m|
  {
  }

  /** The lists refuse an amount just if they are full and it beats no delegation in them. */
  lemma RefusesTheLeast(t: Tiers, a: Balance)
    requires Shape(t)
    ensures Refuses(t, a) <==>
            |Backers(t)| == MAX_TOP + MAX_BOTTOM && forall o | o in Backers(t) :: a <= Backers(t)[o]
    ensures |Backers(t)| <= MAX_TOP + MAX_BOTTOM
  {
    hide ToMap;
    SumToMap(t.top);
    SumToMap(t.bottom);
    UpperIsASelection(ToMap(t.top), ToMap(t.bottom));
    EndsBound(t.top);
    EndsBound(t.bottom);
    if IsFull(t) {
      assert Last(t.bottom).owner in Backers(t) && Backers(t)[Last(t.bottom).owner] == Lowest(t.bottom);
    }
  }

  // The errors are exactly these

  lemma OwnCallsRefuse(s: Storage, call: Call)
    requires Inv(s) && Keyed(s) && OwnCall(call)
    ensures ErrorOf(s, call) == OwnRefusal(s, call)
  {
    hide Inv, Places, ActiveCount;
    PoolCounts(s);
    if call.JoinCandidates? {
      RecordCounts(s, call.who);
    }
  }

  lemma DelegateRefuses(s: Storage, d: Account, c: Account, a: Balance, hint: nat, own: nat)
    requires Inv(s) && Keyed(s)
    ensures DelegateError(s, c, d, a, hint, own) == DelegateRefusal(s, d, c, a, hint, own)
  {
    hide Inv, Places, BackerCount, HasPlaceFor, Refuses;
    RecordCounts(s, d);
    if c in s.info {
      CandidateCounts(s, c);
      PlaceOrRefusal(s, c, a);
    }
  }

  lemma PlaceOrRefusal(s: Storage, c: Account, a: Balance)
    requires Inv(s) && Keyed(s) && c in s.info
    ensures HasPlaceFor(s, c, a) <==> !Refuses(TiersOf(s, c), a)
  {
    hide Inv, Backers, Refuses;
    ShapeOf(s, c);
    RefusesTheLeast(TiersOf(s, c), a);
  }

  lemma RequestsRefuse(s: Storage, call: Call)
    requires Inv(s) && Keyed(s) && RequestCall(call)
    ensures ErrorOf(s, call) == RequestRefusal(s, call)
  {
    hide Inv, Backers, AmountOf, HasOwner, HasRequest;
    var d := if call.ExecuteRequest? then call.delegator else call.who;
    RecordCounts(s, d);
    if d in s.delegators {
      Requests.BondOnBothSides(s, call.candidate, d);
    }
  }

  /** Every call fails with the first demand that is not met, and succeeds if and only if all are. */
  lemma RefusesExactly(s: Storage, call: Call)
    requires Inv(s) && Keyed(s)
    ensures ErrorOf(s, call) == Refusal(s, call)
  {
    hide Inv, OwnRefusal, DelegateRefusal, RequestRefusal, DelegateError, BackerCount;
    if OwnCall(call) {
      OwnCallsRefuse(s, call);
    } else if RequestCall(call) {
      RequestsRefuse(s, call);
    } else if call.DelegateTo? {
      DelegateRefuses(s, call.who, call.candidate, call.amount, call.delegationHint, call.ownHint);
    } else if call.ExecuteLeave? && call.candidate in s.info {
      CandidateCounts(s, call.candidate);
    }
  }

  /** When a delegation comes into being. */
  lemma DelegateSucceeds(s: Storage, d: Account, c: Account, a: Balance, hint: nat, own: nat)
    requires Inv(s) && Keyed(s)
    ensures ErrorOf(s, DelegateTo(d, c, a, hint, own)) == None <==>
            && c in s.info && s.info[c].status == Active
            && MIN_DELEGATION <= a <= Get(s.btc, d)
            && d !in s.info && c !in Places(s, d) && |Places(s, d)| < MAX_DELEGATIONS
            && HasPlaceFor(s, c, a)
            && |Places(s, d)| <= own && BackerCount(s, c) <= hint
  {
    hide Inv, Places, BackerCount, HasPlaceFor, DelegateError;
    RefusesExactly(s, DelegateTo(d, c, a, hint, own));
  }
}
