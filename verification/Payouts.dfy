/** The rewards of one sequencer and its delegators, and how far rounding can push their sum. */
module Payouts {
  import opened Config
  import opened Shares
  import opened Bonds
  import opened Snapshots

  datatype DelayedPayout = DelayedPayout(totalStakingReward: Balance, sequencerCommission: Share)

  /** What the sequencers get before anybody else, and what is left for the stake. */
  function Issuance(info: DelayedPayout): Balance {
    Part(info.sequencerCommission, info.totalStakingReward)
  }

  function StakingIssuance(info: DelayedPayout): Balance {
    SatSub(info.totalStakingReward, Issuance(info))
  }

  /** The delegators' dues; nothing is transferred where nothing is due. */
  function DelegatorDues(l: seq<Bond>, total: Balance, amount: Balance): seq<Bond> {
    if l == [] then [] else
      var due := Part(FromRational(l[0].amount, total), amount);
      (if due == 0 then [] else [Bond(l[0].owner, due)]) + DelegatorDues(l[1..], total, amount)
  }

  /** All transfers the pallet makes for one sequencer: to itself first, then to its delegators. */
  function Dues(sequencer: Account, state: SequencerSnapshot, pts: nat, totalPoints: nat, info: DelayedPayout): seq<Bond>
  {
    var pctDue := FromRational(pts, totalPoints);
    var totalPaid := Part(pctDue, StakingIssuance(info));
    if state.delegations == [] then [Bond(sequencer, totalPaid)]
    else
      var commission := Part(pctDue, Issuance(info));
      var amountDue := SatSub(totalPaid, commission);
      [Bond(sequencer, SatAdd(Part(FromRational(state.bond, state.total), amountDue), commission))]
      + DelegatorDues(state.delegations, state.total, amountDue)
  }

  /** Pay one sequencer of a round; the result are the transfers out of the reward account. */
  method PayRewards(sequencer: Account, state: SequencerSnapshot, pts: nat, totalPoints: nat, info: DelayedPayout)
    returns (dues: seq<Bond>)
    ensures dues == Dues(sequencer, state, pts, totalPoints, info)
  {
    var sequencerIssuance := Part(info.sequencerCommission, info.totalStakingReward);
    var stakingIssuance := SatSub(info.totalStakingReward, sequencerIssuance);
    var pctDue := FromRational(pts, totalPoints);
    var amountDue := Part(pctDue, stakingIssuance);
    if state.delegations == [] {
      return [Bond(sequencer, amountDue)];
    }
    var sequencerPct := FromRational(state.bond, state.total);
    var commission := Part(pctDue, sequencerIssuance);
    amountDue := SatSub(amountDue, commission);
    dues := [Bond(sequencer, SatAdd(Part(sequencerPct, amountDue), commission))];
    ghost var first := dues;
    for i := 0 to |state.delegations|
      invariant dues + DelegatorDues(state.delegations[i..], state.total, amountDue)
                == first + DelegatorDues(state.delegations, state.total, amountDue)
    {
      var bond := state.delegations[i];
      assert state.delegations[i..][1..] == state.delegations[i + 1..];
      var due := Part(FromRational(bond.amount, state.total), amountDue);
      ghost var rest := DelegatorDues(state.delegations[i + 1..], state.total, amountDue);
      if due != 0 {
        assert dues + ([Bond(bond.owner, due)] + rest) == dues + [Bond(bond.owner, due)] + rest;
        dues := dues + [Bond(bond.owner, due)];
      } else {
        assert [] + rest == rest;
      }
    }
  }

  // The bound

  lemma {:induction false} SeqSumConcat(s: seq<Bond>, t: seq<Bond>)
    ensures SeqSum(s + t) == SeqSum(s) + SeqSum(t)
  {
    if s == [] {
      assert s + t == t;
    } else {
      assert (s + t)[1..] == s[1..] + t;
      SeqSumConcat(s[1..], t);
    }
  }

  /** What the shares of the delegators add up to. */
  function SharesOf(l: seq<Bond>, total: Balance): nat {
    if l == [] then 0 else FromRational(l[0].amount, total) + SharesOf(l[1..], total)
  }

  /** The shares of the sequencer and its delegators add up to at most the whole; without delegations none are used. */
  predicate SharesFit(x: SequencerSnapshot) {
    x.delegations == [] || FromRational(x.bond, x.total) + SharesOf(x.delegations, x.total) <= BILLION
  }

  /** The delegators get their shares of the amount, give or take a half each. */
  lemma {:induction false} DelegatorDuesBound(l: seq<Bond>, total: Balance, amount: Balance)
    ensures 2 * BILLION * SeqSum(DelegatorDues(l, total, amount)) <= 2 * amount * SharesOf(l, total) + BILLION * |l|
  {
    if l != [] {
      var share := FromRational(l[0].amount, total);
      var due := Part(share, amount);
      var rest := DelegatorDues(l[1..], total, amount);
      PartIsNearest(share, amount);
      DelegatorDuesBound(l[1..], total, amount);
      SeqSumConcat(if due == 0 then [] else [Bond(l[0].owner, due)], rest);
      Distribute(amount, share, SharesOf(l[1..], total));
    }
  }

  lemma Distribute(amount: nat, x: nat, y: nat)
    ensures 2 * amount * (x + y) == 2 * x * amount + 2 * amount * y
  {
  }

  /** Sequencer and delegators together get what is due, give or take a half each. */
  lemma DuesOfShares(x: SequencerSnapshot, amount: Balance)
    requires SharesFit(x) && x.delegations != []
    ensures 2 * (Part(FromRational(x.bond, x.total), amount) + SeqSum(DelegatorDues(x.delegations, x.total, amount))) <=
            2 * amount + |x.delegations| + 1
  {
    var share, rest := FromRational(x.bond, x.total), SharesOf(x.delegations, x.total);
    PartIsNearest(share, amount);
    DelegatorDuesBound(x.delegations, x.total, amount);
    Distribute(amount, share, rest);
    Scale(share + rest, BILLION, 2 * amount);
  }

  /**
   When the shares of a snapshot fit: whenever some stake counts, for they are rounded down; and otherwise if and only
   if the library's share of nothing, once for everybody, does.
   */
  lemma SharesFitExactly(x: SequencerSnapshot)
    requires x.total == x.bond + SeqSum(x.delegations)
    ensures SharesFit(x) <==>
            x.delegations == [] || x.total > 0 || (|x.delegations| + 1) * SHARE_OF_NOTHING <= BILLION
  {
    if x.total > 0 {
      SharesRoundDown(x.delegations, x.total);
      FromRationalRoundsDown(x.bond, x.total);
      var share, rest := FromRational(x.bond, x.total), SharesOf(x.delegations, x.total);
      AddShares(x.total, share, rest, x.bond, SeqSum(x.delegations));
      Unscale(share + rest, BILLION, x.total);
    } else {
      SharesOfNothing(x.delegations);
    }
  }

  lemma {:induction false} SharesRoundDown(l: seq<Bond>, total: Positive)
    ensures total * SharesOf(l, total) <= SeqSum(l) * BILLION
  {
    if l != [] {
      SharesRoundDown(l[1..], total);
      FromRationalRoundsDown(l[0].amount, total);
      AddShares(total, FromRational(l[0].amount, total), SharesOf(l[1..], total), l[0].amount, SeqSum(l[1..]));
    }
  }

  lemma AddShares(total: nat, x: nat, y: nat, a: nat, b: nat)
    requires x * total <= a * BILLION && total * y <= b * BILLION
    ensures total * (x + y) <= (a + b) * BILLION
  {
  }

  lemma {:induction false} SharesOfNothing(l: seq<Bond>)
    ensures SharesOf(l, 0) == |l| * SHARE_OF_NOTHING
  {
    if l != [] {
      SharesOfNothing(l[1..]);
    }
  }

  /** The larger of the two issuances: as the commission is taken out of the stake's part, no more is paid. */
  function Purse(info: DelayedPayout): Balance {
    if StakingIssuance(info) <= Issuance(info) then Issuance(info) else StakingIssuance(info)
  }

  lemma PurseFits(info: DelayedPayout)
    ensures Purse(info) <= info.totalStakingReward
    ensures Issuance(info) + StakingIssuance(info) == info.totalStakingReward
  {
    PartFits(info.sequencerCommission, info.totalStakingReward);
  }

  /** Before rounding the parts, no more is paid than the larger of the sequencer's two dues. */
  lemma DuesParts(sequencer: Account, x: SequencerSnapshot, pts: nat, totalPoints: nat, info: DelayedPayout)
    requires SharesFit(x)
    ensures var pctDue := FromRational(pts, totalPoints);
            var totalPaid, commission := Part(pctDue, StakingIssuance(info)), Part(pctDue, Issuance(info));
            2 * SeqSum(Dues(sequencer, x, pts, totalPoints, info)) <=
            2 * (if totalPaid <= commission then commission else totalPaid) + |x.delegations| + 1
  {
    hide FromRational, Part, Issuance, StakingIssuance;
    var pctDue := FromRational(pts, totalPoints);
    var totalPaid, commission := Part(pctDue, StakingIssuance(info)), Part(pctDue, Issuance(info));
    if x.delegations != [] {
      var amount := SatSub(totalPaid, commission);
      DuesOfShares(x, amount);
      var first := Part(FromRational(x.bond, x.total), amount);
      SeqSumConcat([Bond(sequencer, SatAdd(first, commission))], DelegatorDues(x.delegations, x.total, amount));
    }
  }

  /** One sequencer's share of the purse, by points, give or take a half for it, each delegator and the commission. */
  lemma DuesBound(sequencer: Account, x: SequencerSnapshot, pts: nat, totalPoints: nat, info: DelayedPayout)
    requires SharesFit(x) && totalPoints > 0
    ensures 2 * totalPoints * SeqSum(Dues(sequencer, x, pts, totalPoints, info)) <=
            2 * Purse(info) * pts + totalPoints * (|x.delegations| + 2)
  {
    hide FromRational, Part, Issuance, StakingIssuance, Dues, SeqSum;
    var pctDue := FromRational(pts, totalPoints);
    var totalPaid, commission := Part(pctDue, StakingIssuance(info)), Part(pctDue, Issuance(info));
    var most := if totalPaid <= commission then commission else totalPaid;
    var paid, k := SeqSum(Dues(sequencer, x, pts, totalPoints, info)), |x.delegations|;
    PortionBound(pts, totalPoints, StakingIssuance(info));
    PortionBound(pts, totalPoints, Issuance(info));
    Enlarge(totalPoints, totalPaid, pts, StakingIssuance(info), Purse(info));
    Enlarge(totalPoints, commission, pts, Issuance(info), Purse(info));
    DuesParts(sequencer, x, pts, totalPoints, info);
    Scale(2 * paid, 2 * most + k + 1, totalPoints);
    DuesAlgebra(totalPoints, paid, most, k, 2 * Purse(info) * pts);
  }

  lemma Enlarge(p: nat, part: nat, pts: nat, issuance: nat, purse: nat)
    requires 2 * p * part <= 2 * issuance * pts + p && issuance <= purse
    ensures 2 * p * part <= 2 * purse * pts + p
  {
    Scale(issuance, purse, 2 * pts);
  }

  lemma DuesAlgebra(p: nat, paid: nat, most: nat, k: nat, bound: nat)
    requires p * (2 * paid) <= p * (2 * most + k + 1)
    requires 2 * p * most <= bound + p
    ensures 2 * p * paid <= bound + p * (k + 2)
  {
    assert p * (2 * most + k + 1) == 2 * p * most + p * (k + 1);
  }

  /** Where no stake counts, the sequencer and each delegator get the library's share of nothing. */
  lemma EmptySnapshotPays(sequencer: Account, x: SequencerSnapshot, pts: nat, totalPoints: nat, info: DelayedPayout)
    requires x.delegations != [] && x.total == 0 && forall b | b in x.delegations :: b.amount == 0
    ensures var pctDue := FromRational(pts, totalPoints);
            var commission := Part(pctDue, Issuance(info));
            var each := Part(SHARE_OF_NOTHING, SatSub(Part(pctDue, StakingIssuance(info)), commission));
            SeqSum(Dues(sequencer, x, pts, totalPoints, info)) == SatAdd(each, commission) + |x.delegations| * each
  {
    var pctDue := FromRational(pts, totalPoints);
    var commission := Part(pctDue, Issuance(info));
    var amount := SatSub(Part(pctDue, StakingIssuance(info)), commission);
    EmptyDues(x.delegations, amount);
    SeqSumConcat([Bond(sequencer, SatAdd(Part(SHARE_OF_NOTHING, amount), commission))],
                 DelegatorDues(x.delegations, 0, amount));
  }

  lemma {:induction false} EmptyDues(l: seq<Bond>, amount: Balance)
    ensures SeqSum(DelegatorDues(l, 0, amount)) == |l| * Part(SHARE_OF_NOTHING, amount)
  {
    if l != [] {
      EmptyDues(l[1..], amount);
      var due := Part(SHARE_OF_NOTHING, amount);
      SeqSumConcat(if due == 0 then [] else [Bond(l[0].owner, due)], DelegatorDues(l[1..], 0, amount));
    }
  }

  /** If that share is the whole, a sequencer with k delegators pays the reward k + 1 times. */
  lemma EmptySnapshotOverpays(sequencer: Account, x: SequencerSnapshot, pts: Positive, info: DelayedPayout)
    requires x.delegations != [] && x.total == 0 && forall b | b in x.delegations :: b.amount == 0
    requires SHARE_OF_NOTHING == BILLION && info.sequencerCommission == 0 && info.totalStakingReward <= MAX_BALANCE
    ensures !SharesFit(x)
    ensures SeqSum(Dues(sequencer, x, pts, pts, info)) == (|x.delegations| + 1) * info.totalStakingReward
  {
    var reward := info.totalStakingReward;
    EmptySnapshotPays(sequencer, x, pts, pts, info);
    assert Issuance(info) == 0;
    WholePart(reward);
    WholePart(0);
    SharesOfNothing(x.delegations);
    Once(|x.delegations|, reward);
    hide Dues, Issuance, StakingIssuance, Part, FromRational;
  }

  lemma Once(k: nat, reward: nat)
    ensures reward + k * reward == (k + 1) * reward
  {
  }

  lemma WholePart(x: nat)
    ensures Part(BILLION, x) == x
  {
    assert BILLION * x / BILLION == x && BILLION * x % BILLION == 0;
  }
}
