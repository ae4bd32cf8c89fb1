/** How an edit of one candidate shows in the book, the stakes and the pool of the whole pallet. */
module Accounting {
  import opened Config
  import opened Wrappers
  import opened Sums
  import opened Bonds
  import opened DelegationList
  import opened Tiers
  import opened OrderedSets
  import opened Book
  import opened Bookkeeping
  import opened Storage
  import opened CandidateRecord
  import opened CandidateState

  /** From `s` to `s'`, nothing of the candidates' records changed but those of `c`. */
  ghost predicate OnlyCandidate(s: Storage, s': Storage, c: Account) {
    && c in s.info && c in s'.info && c in s'.top && c in s'.bottom
    && s'.info == s.info[c := s'.info[c]]
    && s'.top == s.top[c := s'.top[c]]
    && s'.bottom == s.bottom[c := s'.bottom[c]]
  }

  lemma OnlyCandidateHolds(s: Storage, s': Storage, c: Account)
    requires Keyed(s) && OnlyCandidate(s, s', c)
    ensures Keyed(s') && s'.info.Keys == s.info.Keys
    ensures forall e | e in s.info && e != c ::
              s'.info[e] == s.info[e] && s'.top[e] == s.top[e] && s'.bottom[e] == s.bottom[e]
  {
  }

  lemma CandidatesKept(s: Storage, s': Storage, c: Account)
    requires Keyed(s) && CandidatesOk(s) && OnlyCandidate(s, s', c)
    requires TierOk(s'.info[c], s'.top[c], s'.bottom[c]) && BondLessOk(s'.info[c])
    ensures Keyed(s') && CandidatesOk(s')
  {
    hide TierOk, BondLessOk;
    OnlyCandidateHolds(s, s', c);
  }

  lemma BackingChanged(s: Storage, s': Storage, c: Account)
    requires Keyed(s) && OnlyCandidate(s, s', c)
    ensures Keyed(s')
    ensures BookOf(s').backing == BookOf(s).backing[c := Backers(TiersOf(s', c))]
  {
    hide Backers;
    OnlyCandidateHolds(s, s', c);
    var b, b' := BookOf(s).backing, BookOf(s').backing;
    forall e | e in b'
      ensures b'[e] == b[c := Backers(TiersOf(s', c))][e]
    {
    }
  }

  ghost function StakeOf(s: Storage, c: Account): Balance
    requires Keyed(s) && c in s.info
  {
    s.info[c].bond + Sum(Backers(TiersOf(s, c)))
  }

  lemma StakesChanged(s: Storage, s': Storage, c: Account)
    requires Keyed(s) && OnlyCandidate(s, s', c)
    ensures Keyed(s') && Stakes(s') == Stakes(s)[c := StakeOf(s', c)]
  {
    hide Backers, Sum;
    OnlyCandidateHolds(s, s', c);
    var m, m' := Stakes(s), Stakes(s');
    forall e | e in m'
      ensures m'[e] == m[c := StakeOf(s', c)][e]
    {
    }
  }

  lemma LiveChanged(s: Storage, s': Storage, c: Account)
    requires Keyed(s) && OnlyCandidate(s, s', c)
    ensures Keyed(s') && Live(s') + StakeOf(s, c) == Live(s) + StakeOf(s', c)
  {
    hide Backers, Sum;
    StakesChanged(s, s', c);
    SumUpdate(Stakes(s), c, StakeOf(s', c));
  }

  /** The pool follows when only `c` changed its counted stake and stayed what it was. */
  lemma PoolKept(s: Storage, s': Storage, c: Account)
    requires PoolOk(s) && c in s.info && c in s'.info
    requires s'.info == s.info[c := s'.info[c]] && s'.info[c].status == s.info[c].status
    requires s'.pool == PoolAfter(s.pool, c, s'.info[c])
    ensures PoolOk(s')
  {
    hide ToMap, Put, SortedByOwner;
    if s'.info[c].status == Active {
      ToMapPut(s.pool, Bond(c, s'.info[c].totalCounted));
      assert ActiveStakes(s'.info) == ActiveStakes(s.info)[c := s'.info[c].totalCounted];
    } else {
      assert ActiveStakes(s'.info) == ActiveStakes(s.info);
    }
  }

  lemma InvKeyed(s: Storage)
    requires Inv(s)
    ensures Keyed(s)
  {
  }

  lemma InvReady(s: Storage, c: Account)
    requires Inv(s) && c in s.info
    ensures Ready(s, c, s.info[c])
    ensures StakeOf(s, c) <= Live(s) <= Get(s.btc, PALLET)
  {
    hide ToMap, SortedByOwner, TierOk, BookOk, Backers;
    assert c in Stakes(s);
    SumEntry(Stakes(s), c);
    if s.info[c].status == Active {
      assert c in ActiveStakes(s.info);
    }
  }

  /** An account's balance and the stake of all candidates fit the balance type together. */
  lemma BalanceFits(s: Storage, d: Account, amount: Balance)
    requires Inv(s) && d != PALLET && amount <= Get(s.btc, d)
    ensures Live(s) + amount <= MAX_BALANCE
  {
    SumTwoEntries(s.btc, PALLET, d);
  }

  /** What a delegator has bonded in all is part of the live stake. */
  lemma DelegatorFits(s: Storage, d: Account)
    requires Inv(s) && d in s.delegators
    ensures s.delegators[d].total <= Live(s)
  {
    var bk := BookOf(s);
    var m := ToMap(s.delegators[d].delegations);
    forall c | c in m
      ensures m[c] <= Get(Stakes(s), c)
    {
      assert Lookup(BackersOf(bk, c), d) == Lookup(BondsOf(bk.delegators, d), c);
      SumEntry(bk.backing[c], d);
    }
    SumMonotone(m, Stakes(s));
  }

  /** Every delegation can be given back. */
  lemma BackerReturnable(s: Storage, c: Account, b: Bond)
    requires Inv(s) && c in s.info
    requires b.owner in Backers(TiersOf(s, c)) && Backers(TiersOf(s, c))[b.owner] == b.amount
    ensures Returnable(s, c, b) && b.owner !in s.info && b.owner != PALLET
    ensures MIN_DELEGATION <= b.amount
  {
    hide ToMap, SortedByOwner, TierOk, Backers;
    BondIn(BookOf(s), c, b.owner);
    InvReady(s, c);
    SumEntry(Backers(TiersOf(s, c)), b.owner);
  }

  lemma InvKickReady(s: Storage, c: Account)
    requires Inv(s) && c in s.info
    ensures KickReady(s, c)
  {
    InvReady(s, c);
    var t := TiersOf(s, c);
    if |t.bottom| == MAX_BOTTOM {
      EndsBound(t.bottom);
      BackerReturnable(s, c, Last(t.bottom));
    }
  }
}
