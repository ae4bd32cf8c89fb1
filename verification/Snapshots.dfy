/** What a sequencer's snapshot records for the rewards: the counted delegations, less what is pending against them. */
module Snapshots {
  import opened Config
  import opened Wrappers
  import opened Sums
  import opened Bonds
  import opened DelegationList
  import opened Tiers
  import opened Book
  import opened Bookkeeping
  import opened Storage
  import opened CandidateRecord
  import opened Accounting
  import opened Candidates
  import opened Ledger
  import DelegationRequests

  datatype SequencerSnapshot = SequencerSnapshot(bond: Balance, delegations: seq<Bond>, total: Balance)

  /** The delegations at the amounts their delegators want to keep. */
  function Rewardable(l: seq<Bond>, requests: seq<Request>): seq<Bond> {
    if l == [] then [] else
      Rewardable(Init(l), requests)
      + [Bond(Last(l).owner, SatSub(Last(l).amount, PendingIn(requests, Last(l).owner)))]
  }

  ghost function SnapshotOf(s: Storage, c: Account): SequencerSnapshot
    requires c in s.info && c in s.top
  {
    var l := Rewardable(s.top[c].delegations, RequestsOf(s.requests, c));
    SequencerSnapshot(s.info[c].bond, l, s.info[c].bond + SeqSum(l))
  }

  /** The action requested by `d`; the source collects the requests into a map, where the last one would win. */
  function ActionOf(requests: seq<Request>, d: Account): Option<Action> {
    if requests == [] then None
    else if requests[|requests| - 1].delegator == d then Some(requests[|requests| - 1].action)
    else ActionOf(requests[..|requests| - 1], d)
  }

  /** With one request each, the map finds the request whose amount is pending. */
  lemma ActionIsPending(requests: seq<Request>, d: Account)
    requires OneRequestEach(requests)
    ensures match ActionOf(requests, d)
            case None => PendingIn(requests, d) == 0
            case Some(a) =>
              PendingIn(requests, d) == a.amount && exists r :: r in requests && r.delegator == d && r.action == a
  {
    if HasRequest(requests, d) {
      var r :| r in requests && r.delegator == d;
      PendingInIs(requests, r);
      ActionIs(requests, r);
    } else {
      NoRequestNoPending(requests, d);
      NoRequestNoAction(requests, d);
    }
  }

  lemma {:induction false} ActionIs(requests: seq<Request>, r: Request)
    requires OneRequestEach(requests) && r in requests
    ensures ActionOf(requests, r.delegator) == Some(r.action)
  {
    if requests[|requests| - 1].delegator != r.delegator {
      ActionIs(requests[..|requests| - 1], r);
    }
  }

  lemma {:induction false} NoRequestNoAction(requests: seq<Request>, d: Account)
    requires !HasRequest(requests, d)
    ensures ActionOf(requests, d) == None
  {
    if requests != [] {
      assert requests[|requests| - 1] in requests;
      NoRequestNoAction(requests[..|requests| - 1], d);
    }
  }

  /** A counted delegation covers what is pending against it; a revocation takes all of it. */
  lemma TopBondCovers(s: Storage, c: Account, b: Bond)
    requires Inv(s) && c in s.info && b in s.top[c].delegations
    ensures var requests := RequestsOf(s.requests, c);
            match ActionOf(requests, b.owner)
            case None => PendingIn(requests, b.owner) == 0
            case Some(Revoke(x)) => PendingIn(requests, b.owner) == x == b.amount
            case Some(Decrease(x)) => PendingIn(requests, b.owner) == x <= b.amount
  {
    hide ToMap, TierOk, BookOk, Backers, PoolOk, MoneyOk, PendingIn, ActionOf, OneRequestEach;
    var requests := RequestsOf(s.requests, c);
    DelegationRequests.OneEach(s, c);
    ActionIsPending(requests, b.owner);
    if ActionOf(requests, b.owner).Some? {
      var r :| r in requests && r.delegator == b.owner && ActionOf(requests, b.owner) == Some(r.action);
      RequestIsBacked(s, c, r);
      TopBondBacks(s, c, b);
    }
  }

  lemma TopBondBacks(s: Storage, c: Account, b: Bond)
    requires Inv(s) && c in s.info && b in s.top[c].delegations
    ensures b.owner in Backers(TiersOf(s, c)) && Backers(TiersOf(s, c))[b.owner] == b.amount
  {
    hide TierOk, BookOk, PoolOk, MoneyOk, ToMap;
    ShapeOf(s, c);
    ToMapHolds(s.top[c].delegations);
    ToMapOwners(s.top[c].delegations);
    TopBacker(TiersOf(s, c), b.owner);
  }

  lemma TopTotal(s: Storage, c: Account)
    requires Inv(s) && c in s.info
    ensures s.top[c].total == SeqSum(s.top[c].delegations) <= MAX_BALANCE
    ensures s.info[c].totalCounted == s.info[c].bond + SeqSum(s.top[c].delegations)
  {
    hide BookOk, PoolOk, Shape;
    InvReady(s, c);
    CountedFits(s, c);
    SumEntry(s.btc, PALLET);
  }

  /**
   The delegations that earn rewards, and the counted stake that does not: a pending revocation counts nothing,
   a pending decrease counts what is left. No subtraction saturates.
   */
  method GetRewardableDelegators(p: Pallet, sequencer: Account)
    returns (uncountedStake: Balance, rewardableDelegations: seq<Bond>)
    requires Inv(p.View()) && sequencer in p.candidateInfo && sequencer in p.topDelegations
    ensures rewardableDelegations ==
            Rewardable(p.topDelegations[sequencer].delegations, RequestsOf(p.scheduledRequests, sequencer))
    ensures SeqSum(rewardableDelegations) + uncountedStake == SeqSum(p.topDelegations[sequencer].delegations)
  {
    hide Inv, PendingIn, ActionOf;
    ghost var s := p.View();
    var requests := RequestsOf(p.scheduledRequests, sequencer);
    var top := p.topDelegations[sequencer].delegations;
    TopTotal(s, sequencer);
    uncountedStake, rewardableDelegations := 0, [];
    for i := 0 to |top|
      invariant rewardableDelegations == Rewardable(top[..i], requests)
      invariant SeqSum(rewardableDelegations) + uncountedStake == SeqSum(top[..i])
    {
      var bond := top[i];
      TopBondCovers(s, sequencer, bond);
      NextPrefix(top, i);
      PrefixSum(top, i + 1);
      var amount;
      match ActionOf(requests, bond.owner) {
        case None =>
          amount := bond.amount;
        case Some(Revoke(_)) =>
          uncountedStake := SatAdd(uncountedStake, bond.amount);
          amount := 0;
        case Some(Decrease(less)) =>
          uncountedStake := SatAdd(uncountedStake, less);
          amount := SatSub(bond.amount, less);
      }
      SeqSumLast(rewardableDelegations + [Bond(bond.owner, amount)]);
      rewardableDelegations := rewardableDelegations + [Bond(bond.owner, amount)];
    }
    assert top[..|top|] == top;
  }

  lemma NextPrefix(l: seq<Bond>, i: nat)
    requires i < |l|
    ensures Init(l[..i + 1]) == l[..i] && Last(l[..i + 1]) == l[i]
    ensures SeqSum(l[..i + 1]) == SeqSum(l[..i]) + l[i].amount
  {
    SeqSumLast(l[..i + 1]);
  }

  lemma {:induction false} PrefixSum(l: seq<Bond>, i: nat)
    requires i <= |l|
    ensures SeqSum(l[..i]) <= SeqSum(l)
    decreases |l| - i
  {
    if i < |l| {
      NextPrefix(l, i);
      PrefixSum(l, i + 1);
    } else {
      assert l[..i] == l;
    }
  }

  /** The snapshot of one selected sequencer. Its total is exactly its bond and what its delegators want to keep. */
  method TakeSnapshot(p: Pallet, account: Account) returns (snapshot: SequencerSnapshot)
    requires Inv(p.View()) && account in p.candidateInfo && account in p.topDelegations
    ensures snapshot == SnapshotOf(p.View(), account)
  {
    hide Inv, Rewardable, SeqSum;
    var state := p.candidateInfo[account];
    TopTotal(p.View(), account);
    var uncountedStake, rewardableDelegations := GetRewardableDelegators(p, account);
    var totalCounted := SatSub(state.totalCounted, uncountedStake);
    snapshot := SequencerSnapshot(state.bond, rewardableDelegations, totalCounted);
  }

  /** Delegation by delegation, a snapshot holds the counted amount less what is pending against it. */
  lemma {:induction false} RewardableAt(s: Storage, c: Account, l: seq<Bond>, i: nat)
    requires Inv(s) && c in s.info && i < |l| && forall b | b in l :: b in s.top[c].delegations
    ensures var requests := RequestsOf(s.requests, c); var r := Rewardable(l, requests);
            && |r| == |l| && r[i].owner == l[i].owner
            && r[i].amount + PendingIn(requests, l[i].owner) == l[i].amount
  {
    hide Inv, PendingIn, ActionOf;
    TopBondCovers(s, c, Last(l));
    if |l| > 1 {
      RewardableAt(s, c, Init(l), if i < |l| - 1 then i else 0);
    }
  }

  lemma SnapshotHolds(s: Storage, c: Account)
    requires Inv(s) && c in s.info && c in s.top
    ensures var x, top, requests := SnapshotOf(s, c), s.top[c].delegations, RequestsOf(s.requests, c);
            && x.bond == s.info[c].bond && x.total == x.bond + SeqSum(x.delegations)
            && |x.delegations| == |top|
            && (forall i | 0 <= i < |top| ::
                  x.delegations[i].owner == top[i].owner
                  && x.delegations[i].amount + PendingIn(requests, top[i].owner) == top[i].amount)
  {
    hide Inv, PendingIn, SeqSum;
    var top, requests := s.top[c].delegations, RequestsOf(s.requests, c);
    var r := Rewardable(top, requests);
    if top != [] {
      RewardableAt(s, c, top, 0);
    }
    forall i | 0 <= i < |top|
      ensures r[i].owner == top[i].owner && r[i].amount + PendingIn(requests, top[i].owner) == top[i].amount
    {
      RewardableAt(s, c, top, i);
    }
  }

  /** In a snapshot everybody has one place, and the sequencer none among its delegators. */
  lemma SnapshotIsProper(s: Storage, c: Account)
    requires Inv(s) && c in s.info && c in s.top
    ensures Distinct(SnapshotOf(s, c).delegations) && !HasOwner(SnapshotOf(s, c).delegations, c)
  {
    hide Inv, PendingIn, SeqSum, Rewardable;
    SnapshotHolds(s, c);
    TopIsDistinct(s, c);
    var top, l := s.top[c].delegations, SnapshotOf(s, c).delegations;
    forall b | b in l
      ensures b.owner != c
    {
      var i :| 0 <= i < |l| && l[i] == b;
      assert top[i] in top;
      TopBondBacks(s, c, top[i]);
      InvKeyed(s);
      BackerReturnable(s, c, top[i]);
    }
  }

  lemma TopIsDistinct(s: Storage, c: Account)
    requires Inv(s) && c in s.info && c in s.top
    ensures Distinct(s.top[c].delegations)
  {
    hide BookOk, PoolOk, MoneyOk;
    ShapeOf(s, c);
  }
}
