/** Nobody gains or loses: what an account holds plus what it has bonded, over every step. */
module Holdings {
  import opened Config
  import opened Wrappers
  import opened Sums
  import opened Bonds
  import opened DelegationList
  import opened Tiers
  import opened OrderedSets
  import opened Book
  import opened Bookkeeping
  import opened Storage
  import opened DelegatorRecord
  import opened CandidateRecord
  import opened CandidateState
  import opened Accounting
  import opened Delegate
  import opened Candidates
  import opened Ledger
  import DelegationRequests
  import Execution = RequestExecution
  import opened CandidateExit
  import opened Dispatch
  import opened Effects

  ghost function OwnBond(s: Storage, e: Account): Balance {
    if e in s.info then s.info[e].bond else 0
  }

  ghost function BondedBy(ds: map<Account, Delegator>, e: Account): Balance {
    if e in ds then ds[e].total else 0
  }

  /** What an account owns: its balance, its own bond as a candidate, and all its delegations. */
  ghost function Wealth(s: Storage, e: Account): Balance {
    Get(s.btc, e) + OwnBond(s, e) + BondedBy(s.delegators, e)
  }

  /** What a call takes from an account (negative) or gives to it: transfers, and the own bond lost at an exit. */
  ghost function Change(s: Storage, call: Call, e: Account): int
    requires Keyed(s)
  {
    if ErrorOf(s, call).Some? then 0 else
      match call
      case TransferBtc(from, to, amount) =>
        (if e == to then amount else 0) - (if e == from then amount else 0)
      case ExecuteLeave(c, _) => if e == c then 0 - OwnBond(s, c) else 0
      case _ => 0
  }

  /** Every call, whoever signs it, changes what an account owns by just that. */
  lemma WealthKept(s: Storage, call: Call, s': Storage, e: Account)
    requires Inv(s) && Keyed(s) && Step(s, call, s') && e != PALLET
    ensures Wealth(s', e) == Wealth(s, e) + Change(s, call, e)
  {
    hide ToMap, TierOk, Inv, Live, Moved, Sum, BookOk, Backers, Exited, Delegated, Increased, Execution.Executed,
      ErrorOf, Withdrawn, Asked, Admitted, StatusChanged, BondRaised, BondLowered, BondLessNoted, Wealth, OwnBond;
    if ErrorOf(s, call).None? {
      match call {
        case ExecuteLeave(c, _) => ExitWealth(s, s', c, e);
        case DelegateTo(d, c, a, hint, own) => DelegateWealth(s, s', c, d, a, hint, own, e);
        case ExecuteRequest(d, c) =>
          var q: Request :| q.delegator == d && Execution.Executed(s, s', c, q);
          ExecuteWealth(s, s', c, q, e);
        case DelegatorBondMore(d, c, more) => IncreaseWealth(s, s', c, d, more, e);
        case ScheduleRevoke(d, c) => AskWealth(s, s', c, Request(d, s.round + REVOKE_DELEGATION_DELAY,
                                                                 Revoke(AmountOf(s.delegators[d].delegations, c))), e);
        case ScheduleDelegatorBondLess(d, c, less) =>
          AskWealth(s, s', c, Request(d, s.round + REVOKE_DELEGATION_DELAY, Decrease(less)), e);
        case CancelRequest(d, c) => WithdrawWealth(s, s', c, d, e);
        case TransferBtc(from, to, amount) => TransferWealth(s, s', from, to, amount, e);
        case NextRound => SameWealth(s, s', e);
        case _ =>
          if call.ExecuteCandidateBondLess? {
            PalletCallsNothing(s, call);
          }
          OwnCallWealth(s, call, s', e);
      }
    }
  }

  lemma SameWealth(s: Storage, s': Storage, e: Account)
    requires s' == s.(round := s.round + 1)
    ensures Wealth(s', e) == Wealth(s, e)
  {
  }

  lemma TransferWealth(s: Storage, s': Storage, from: Account, to: Account, amount: Balance, e: Account)
    requires amount <= Get(s.btc, from) && s' == s.(btc := Moved(s.btc, from, to, amount))
    ensures Wealth(s', e) == Wealth(s, e) + (if e == to then amount else 0) - (if e == from then amount else 0)
  {
  }

  lemma AskWealth(s: Storage, s': Storage, c: Account, r: Request, e: Account)
    requires Asked(s, s', c, r)
    ensures Wealth(s', e) == Wealth(s, e)
  {
    hide Backers, Backed, HasRequest;
  }

  lemma WithdrawWealth(s: Storage, s': Storage, c: Account, d: Account, e: Account)
    requires Withdrawn(s, s', c, d)
    ensures Wealth(s', e) == Wealth(s, e)
  {
    hide Forget, PendingIn;
  }

  lemma PalletCallsNothing(s: Storage, call: Call)
    requires Inv(s) && Keyed(s) && ErrorOf(s, call) == None && call.ExecuteCandidateBondLess?
    ensures call.candidate != PALLET
  {
  }

  lemma OwnCallWealth(s: Storage, call: Call, s': Storage, e: Account)
    requires Keyed(s) && OwnCall(call) && Next(s, call, s') && e != PALLET && Signed(call)
    requires call.ExecuteCandidateBondLess? ==> call.candidate != PALLET
    ensures Wealth(s', e) == Wealth(s, e)
  {
    hide PoolAfter, Without, InsertByOwner, NO_DELEGATIONS, BondRaised, BondLowered, Moved, Wealth,
      SatSub, Keyed, ErrorOf;
    match call {
      case CandidateBondMore(c, more) => RaiseWealth(s, s', c, more, e);
      case ExecuteCandidateBondLess(c) => LowerWealth(s, s', c, s.info[c].request.value.amount, e);
      case _ => CalmWealth(s, s', e);
    }
  }

  lemma CalmWealth(s: Storage, s': Storage, e: Account)
    requires s'.btc == s.btc && s'.delegators == s.delegators && OwnBond(s', e) == OwnBond(s, e)
    ensures Wealth(s', e) == Wealth(s, e)
  {
  }

  lemma RaiseWealth(s: Storage, s': Storage, c: Account, more: Balance, e: Account)
    requires BondRaised(s, s', c, more) && e != PALLET && c != PALLET
    ensures Wealth(s', e) == Wealth(s, e)
  {
    hide PoolAfter;
  }

  lemma LowerWealth(s: Storage, s': Storage, c: Account, less: Balance, e: Account)
    requires BondLowered(s, s', c, less) && e != PALLET && c != PALLET
    ensures Wealth(s', e) == Wealth(s, e)
  {
    hide PoolAfter;
  }

  lemma IncreaseWealth(s: Storage, s': Storage, c: Account, d: Account, more: Balance, e: Account)
    requires Inv(s) && Increased(s, s', c, d, more) && d != PALLET && e != PALLET
    ensures Wealth(s', e) == Wealth(s, e)
  {
    hide Inv, ListsChanged, ToMap, TierOk, Raise, Backers, PoolAfter, Moved, DriftKept, Revalue, AmountOf;
    InvKeyed(s);
    BondAmount(s, c, d);
    MovedHolds(s.btc, d, PALLET, more);
    SameOwnBond(s, s', c, e);
  }

  lemma SameOwnBond(s: Storage, s': Storage, c: Account, e: Account)
    requires ListsChanged(s, s', c)
    ensures OwnBond(s', e) == OwnBond(s, e)
  {
    hide TierOk, PoolAfter;
    OnlyCandidateHolds(s, s', c);
  }

  /** A delegator's record holds each of its bonds at the amount the candidate has for it. */
  lemma BondAmount(s: Storage, c: Account, d: Account)
    requires Inv(s) && Keyed(s) && c in s.info && d in Backers(TiersOf(s, c)) && d in s.delegators
    ensures AmountOf(s.delegators[d].delegations, c) == Backers(TiersOf(s, c))[d] <= s.delegators[d].total
    ensures s.delegators[d].id == d && d != PALLET
    ensures SatSub(s.delegators[d].total, AmountOf(s.delegators[d].delegations, c)) == 0 <==>
            Without(s.delegators[d].delegations, c) == []
  {
    hide Backers, TierOk, Without, AmountOf, PendingIn, DropRequest, PoolOk, MoneyOk;
    BondInBook(BookOf(s), c, d);
    ZeroIsGone(BookOf(s), c, d);
    BondIsPart(BookOf(s), c, d);
  }

  lemma BondIsPart(bk: Book, c: Account, d: Account)
    requires BookOk(bk) && c in bk.backing && d in bk.backing[c] && d in bk.delegators
    ensures AmountOf(bk.delegators[d].delegations, c) <= bk.delegators[d].total
    ensures d != PALLET && bk.delegators[d].id == d
  {
    hide AmountOf;
    BondIn(bk, c, d);
    SumEntry(ToMap(bk.delegators[d].delegations), c);
  }

  /** Giving a delegation back leaves everybody's wealth as it is. */
  lemma ReleaseWealth(s: Storage, bk: Book, c: Account, d: Account, e: Account)
    requires BookOk(bk) && bk.delegators == s.delegators && c in bk.backing && d in bk.backing[c]
    requires CanRelease(s, c, d) && e != PALLET
    ensures Get(Released(s, c, d).btc, e) + BondedBy(Released(s, c, d).delegators, e)
            == Get(s.btc, e) + BondedBy(s.delegators, e)
  {
    hide BookOk, AmountOf, Without, PendingIn, Forget, Moved;
    ZeroIsGone(bk, c, d);
    BondIsPart(bk, c, d);
    MovedHolds(s.btc, PALLET, d, AmountOf(s.delegators[d].delegations, c));
  }

  lemma BookIsOk(s: Storage, c: Account, d: Account)
    requires Inv(s) && Keyed(s) && c in s.info && d in Backers(TiersOf(s, c))
    ensures var bk := BookOf(s);
            BookOk(bk) && bk.delegators == s.delegators && c in bk.backing && d in bk.backing[c]
  {
    hide BookOk, TierOk, PoolOk, Backers;
  }

  lemma ExecuteWealth(s: Storage, s': Storage, c: Account, q: Request, e: Account)
    requires Inv(s) && Execution.Executed(s, s', c, q) && e != PALLET
    ensures Wealth(s', e) == Wealth(s, e)
  {
    hide Inv, ListsChanged, ToMap, TierOk, Remove, Lower, Backers, Moved, Revalue, AmountOf, Execution.DriftAfterDecrease,
      BookOk, Forget, PendingIn, Released, Without;
    InvKeyed(s);
    var d := q.delegator;
    BondAmount(s, c, d);
    SameOwnBond(s, s', c, e);
    match q.action {
      case Revoke(_) =>
        BookIsOk(s, c, d);
        ReleaseWealth(s, BookOf(s), c, d, e);
      case Decrease(x) => MovedHolds(s.btc, PALLET, d, x);
    }
  }

  lemma DelegateWealth(s: Storage, s': Storage, c: Account, d: Account, a: Balance, hint: nat, own: nat, e: Account)
    requires Inv(s) && Keyed(s) && Delegated(s, s', c, d, a) && d != PALLET && e != PALLET
    requires ErrorOf(s, DelegateTo(d, c, a, hint, own)) == None
    ensures Wealth(s', e) == Wealth(s, e)
  {
    hide Inv, ToMap, TierOk, Add, Backers, PoolAfter, Moved, Released, DriftKept, InsertByOwner;
    KickWealth(s, c, e);
    var k := AfterKick(s, c);
    MovedHolds(k.btc, d, PALLET, a);
    OnlyCandidateHolds(s, s', c);
  }

  lemma KickWealth(s: Storage, c: Account, e: Account)
    requires Inv(s) && Keyed(s) && c in s.info && e != PALLET && KickReady(s, c)
    ensures Get(AfterKick(s, c).btc, e) + BondedBy(AfterKick(s, c).delegators, e)
            == Get(s.btc, e) + BondedBy(s.delegators, e)
  {
    hide Inv, ToMap, TierOk, Backers, Moved, Released, BondedBy, BookOk;
    CandidateShape(s, c);
    var t := TiersOf(s, c);
    if IsFull(t) {
      LastBacks(t);
      BookIsOk(s, c, Last(t.bottom).owner);
      ReleaseWealth(s, BookOf(s), c, Last(t.bottom).owner, e);
    } else {
      NotFullNoKick(t);
    }
  }

  lemma ExitWealth(s: Storage, s': Storage, c: Account, e: Account)
    requires Inv(s) && Exited(s, s', c) && e != PALLET
    ensures Wealth(s', e) == Wealth(s, e) - (if e == c then OwnBond(s, c) else 0)
  {
    hide Inv, ReturnAll, Held;
    AllBondsHeld(s, c);
    ReturnWealth(s, c, AllBonds(s, c), e);
  }

  lemma {:induction false} ReturnWealth(s: Storage, c: Account, l: seq<Bond>, e: Account)
    requires Inv(s) && Keyed(s) && c in s.info && Held(s, c, l) && e != PALLET
    ensures Get(ReturnAll(s, c, l).btc, e) + BondedBy(ReturnAll(s, c, l).delegators, e)
            == Get(s.btc, e) + BondedBy(s.delegators, e)
  {
    hide Inv, Held, Released, Returned, BondedBy, BookOk, Backers, ToMap, BookWithout, Sum;
    if l != [] {
      LastIsHeld(s, c, l);
      ReturnWealth(s, c, Init(l), e);
      ReturnAllHolds(s, c, Init(l));
      var m := ReturnAll(s, c, Init(l));
      ReturnOneWealth(s, m, c, l, e);
    }
  }

  lemma ReturnOneWealth(s: Storage, m: Storage, c: Account, l: seq<Bond>, e: Account)
    requires Inv(s) && Keyed(s) && c in s.info && l != [] && Held(s, c, l) && Returned(s, m, c, Init(l)) && e != PALLET
    ensures CanRelease(m, c, Last(l).owner)
    ensures Get(Released(m, c, Last(l).owner).btc, e) + BondedBy(Released(m, c, Last(l).owner).delegators, e)
            == Get(m.btc, e) + BondedBy(m.delegators, e)
  {
    hide Inv, Held, Released, BondedBy, BookOk, Backers, ToMap, BookWithout, Sum, SeqSum;
    ReturnOne(s, m, c, l);
    StillBacked(s, m, c, l);
    ReleaseWealth(m, BookWithout(s, m, c, Init(l)), c, Last(l).owner, e);
  }
}
