/** Who is paid for a sequencer's work and how much, from below as well as from above. */
module Payees {
  import opened Config
  import opened Shares
  import opened Bonds
  import opened Snapshots
  import opened Payouts

  /** What the delegators' shares, and the sequencer's own, are taken of. */
  function ForStake(pts: nat, totalPoints: nat, info: DelayedPayout): Balance {
    SatSub(ByPoints(pts, totalPoints, info), ForWork(pts, totalPoints, info))
  }

  /** A sequencer's portion, by points, of the reward without the commission. */
  function ByPoints(pts: nat, totalPoints: nat, info: DelayedPayout): Balance {
    Part(FromRational(pts, totalPoints),
         info.totalStakingReward - Commission(info))
  }

  /** Its portion, by points, of the commission. */
  function ForWork(pts: nat, totalPoints: nat, info: DelayedPayout): Balance {
    Part(FromRational(pts, totalPoints), Commission(info))
  }

  function Commission(info: DelayedPayout): (c: Balance)
    ensures c <= info.totalStakingReward
  {
    PartFits(info.sequencerCommission, info.totalStakingReward);
    Part(info.sequencerCommission, info.totalStakingReward)
  }

  /** A snapshot in which everybody has one place. */
  ghost predicate Proper(sequencer: Account, x: SequencerSnapshot) {
    Distinct(x.delegations) && !HasOwner(x.delegations, sequencer)
  }

  // Portions, from both sides

  /** `paid` is the portion p / q of x, up to a half above, and a half and a billionth of x below. */
  ghost predicate NearPortion(paid: nat, p: nat, q: nat, x: nat) {
    && 2 * q * paid <= 2 * x * p + q
    && 2 * BILLION * x * p <= 2 * BILLION * q * paid + 2 * q * x + q * BILLION
  }

  /** `paid` is the share of x that p of q is, rounded down, give or take a half. */
  ghost predicate NearShare(paid: nat, p: nat, q: nat, x: nat) {
    2 * FromRational(p, q) * x - BILLION <= 2 * BILLION * paid <= 2 * FromRational(p, q) * x + BILLION
  }

  lemma PortionIsNear(p: nat, q: Positive, x: nat)
    requires p <= q
    ensures NearPortion(Part(FromRational(p, q), x), p, q, x)
  {
    var share := FromRational(p, q);
    var paid := Part(share, x);
    PortionBound(p, q, x);
    PartIsNearest(share, x);
    FromRationalRoundsDown(p, q);
    FloorAlgebra(p, q, x, share, paid);
  }

  lemma FloorAlgebra(p: nat, q: nat, x: nat, share: nat, paid: nat)
    requires p * BILLION < share * q + q
    requires 2 * share * x <= 2 * BILLION * paid + BILLION
    ensures 2 * BILLION * x * p <= 2 * BILLION * q * paid + 2 * q * x + q * BILLION
  {
    Scale(p * BILLION, share * q + q, 2 * x);
    Scale(2 * share * x, 2 * BILLION * paid + BILLION, q);
    assert 2 * x * (p * BILLION) == 2 * BILLION * x * p;
    assert 2 * x * (share * q + q) == q * (2 * share * x) + 2 * q * x;
    assert q * (2 * BILLION * paid + BILLION) == 2 * BILLION * q * paid + q * BILLION;
  }

  // Each payee

  lemma DueOf(l: seq<Bond>, total: Balance, amount: Balance, b: Bond)
    requires Distinct(l) && b in l
    ensures AmountOf(DelegatorDues(l, total, amount), b.owner) == Part(FromRational(b.amount, total), amount)
  {
    DuesAreOwed(l, total, amount);
    var due := Part(FromRational(b.amount, total), amount);
    var dues := DelegatorDues(l, total, amount);
    if due > 0 {
      assert Bond(b.owner, due) in dues;
      EntryAmount(dues, Bond(b.owner, due));
    } else {
      forall e | e in dues
        ensures e.owner != b.owner
      {
        var f :| f in l && f.owner == e.owner && e.amount == Part(FromRational(f.amount, total), amount) > 0;
        if f.owner == b.owner {
          OneBondEach(l, f, b);
        }
      }
      NoEntry(dues, b.owner);
    }
  }

  lemma {:induction false} EntryAmount(l: seq<Bond>, b: Bond)
    requires Distinct(l) && b in l
    ensures AmountOf(l, b.owner) == b.amount
  {
    if l[0] != b {
      assert b in l[1..];
      HeadIsNew(l);
      EntryAmount(l[1..], b);
    }
  }

  lemma {:induction false} NoEntry(l: seq<Bond>, o: Account)
    requires forall e | e in l :: e.owner != o
    ensures AmountOf(l, o) == 0
  {
    if l != [] {
      NoEntry(l[1..], o);
    }
  }

  /** Exactly the delegators with something due are paid, each once and what is due. */
  lemma {:induction false} DuesAreOwed(l: seq<Bond>, total: Balance, amount: Balance)
    requires Distinct(l)
    ensures Distinct(DelegatorDues(l, total, amount))
    ensures forall e :: e in DelegatorDues(l, total, amount) <==>
              exists b :: b in l && b.owner == e.owner && e.amount == Part(FromRational(b.amount, total), amount) > 0
  {
    if l != [] {
      var due := Part(FromRational(l[0].amount, total), amount);
      var first := if due == 0 then [] else [Bond(l[0].owner, due)];
      var rest := DelegatorDues(l[1..], total, amount);
      HeadIsNew(l);
      DuesAreOwed(l[1..], total, amount);
      assert l == [l[0]] + l[1..];
      forall e: Bond
        ensures e in first + rest <==>
                exists b :: b in l && b.owner == e.owner && e.amount == Part(FromRational(b.amount, total), amount) > 0
      {
        assert e in first <==> l[0].owner == e.owner && e.amount == due > 0;
      }
      forall e | e in rest
        ensures e.owner != l[0].owner
      {
        var b :| b in l[1..] && b.owner == e.owner;
      }
    }
  }

  /** Who is paid what. */
  ghost predicate PaysEverybody(sequencer: Account, x: SequencerSnapshot, pts: nat, totalPoints: nat,
                                info: DelayedPayout, dues: seq<Bond>)
  {
    var part, work := ForStake(pts, totalPoints, info), ForWork(pts, totalPoints, info);
    && dues != [] && Distinct(dues) && dues[0].owner == sequencer
    && (x.delegations == [] ==> dues == [Bond(sequencer, ByPoints(pts, totalPoints, info))])
    && (x.delegations != [] ==> dues[0].amount >= work
                                && NearShare(dues[0].amount - work, x.bond, x.total, part))
    && (forall e | e in dues[1..] :: HasOwner(x.delegations, e.owner) && e.amount > 0)
    && (forall b | b in x.delegations :: NearShare(AmountOf(dues[1..], b.owner), b.amount, x.total, part))
  }

  /**
   Everybody in a snapshot is paid, and nobody else: the sequencer first, with its share of the stake's part and the
   commission, or with everything if it has no delegators; then each delegator, once, its own share of the stake's part.
   */
  lemma EverybodyIsPaid(sequencer: Account, x: SequencerSnapshot, pts: nat, totalPoints: nat, info: DelayedPayout)
    requires Proper(sequencer, x) && info.totalStakingReward <= MAX_BALANCE
    ensures PaysEverybody(sequencer, x, pts, totalPoints, info, Dues(sequencer, x, pts, totalPoints, info))
  {
    hide FromRational, Part, DelegatorDues, Distinct;
    PartsAre(pts, totalPoints, info);
    var part, work := ForStake(pts, totalPoints, info), ForWork(pts, totalPoints, info);
    if x.delegations != [] {
      var l := DelegatorDues(x.delegations, x.total, part);
      var dues := Dues(sequencer, x, pts, totalPoints, info);
      var own := Part(FromRational(x.bond, x.total), part);
      assert dues == [Bond(sequencer, SatAdd(own, work))] + l && dues[1..] == l;
      PartIsNearest(FromRational(x.bond, x.total), part);
      PartFits(FromRational(x.bond, x.total), part);
      DelegatorsArePaid(x.delegations, x.total, part);
      HeadIsOther(dues, sequencer, x.delegations);
    } else {
      OneIsDistinct(Bond(sequencer, ByPoints(pts, totalPoints, info)));
    }
  }

  lemma OneIsDistinct(b: Bond)
    ensures Distinct([b])
  {
  }

  lemma HeadIsOther(dues: seq<Bond>, sequencer: Account, l: seq<Bond>)
    requires dues != [] && dues[0].owner == sequencer && !HasOwner(l, sequencer) && Distinct(dues[1..])
    requires forall e | e in dues[1..] :: HasOwner(l, e.owner)
    ensures Distinct(dues)
  {
    forall i, j | 0 <= i < j < |dues|
      ensures dues[i].owner != dues[j].owner
    {
      assert dues[1..][j - 1] in dues[1..] && dues[1..][j - 1] == dues[j];
      if i > 0 {
        assert dues[1..][i - 1] == dues[i];
      }
    }
  }

  lemma DelegatorsArePaid(l: seq<Bond>, total: Balance, part: Balance)
    requires Distinct(l)
    ensures Distinct(DelegatorDues(l, total, part))
    ensures forall e | e in DelegatorDues(l, total, part) :: HasOwner(l, e.owner) && e.amount > 0
    ensures forall b | b in l :: NearShare(AmountOf(DelegatorDues(l, total, part), b.owner), b.amount, total, part)
  {
    hide FromRational, Part, DelegatorDues, Distinct, AmountOf;
    DuesAreOwed(l, total, part);
    forall b | b in l
      ensures NearShare(AmountOf(DelegatorDues(l, total, part), b.owner), b.amount, total, part)
    {
      DueOf(l, total, part, b);
      PartIsNearest(FromRational(b.amount, total), part);
    }
  }

  /** The parts are what the pallet computes, and together they are within the reward. */
  lemma PartsAre(pts: nat, totalPoints: nat, info: DelayedPayout)
    ensures Issuance(info) == Commission(info)
    ensures StakingIssuance(info) == info.totalStakingReward - Commission(info)
    ensures ForStake(pts, totalPoints, info) + ForWork(pts, totalPoints, info) <= info.totalStakingReward
  {
    hide FromRational;
    PartFits(FromRational(pts, totalPoints), Commission(info));
    PartFits(FromRational(pts, totalPoints), info.totalStakingReward - Commission(info));
  }

  // The floor

  lemma {:induction false} SharesFloor(l: seq<Bond>, total: Positive)
    requires forall b | b in l :: b.amount <= total
    ensures SeqSum(l) * BILLION <= total * SharesOf(l, total) + total * |l|
  {
    if l != [] {
      assert l[0] in l && forall b | b in l[1..] :: b in l;
      SharesFloor(l[1..], total);
      FromRationalRoundsDown(l[0].amount, total);
      AddFloors(total, FromRational(l[0].amount, total), SharesOf(l[1..], total), l[0].amount, SeqSum(l[1..]), |l| - 1);
    }
  }

  lemma AddFloors(total: nat, x: nat, y: nat, a: nat, b: nat, k: nat)
    requires a * BILLION <= x * total + total && b * BILLION <= total * y + total * k
    ensures (a + b) * BILLION <= total * (x + y) + total * (k + 1)
  {
  }

  lemma {:induction false} DelegatorDuesFloor(l: seq<Bond>, total: Balance, amount: Balance)
    ensures 2 * amount * SharesOf(l, total) <= 2 * BILLION * SeqSum(DelegatorDues(l, total, amount)) + BILLION * |l|
  {
    if l != [] {
      var share := FromRational(l[0].amount, total);
      var due := Part(share, amount);
      PartIsNearest(share, amount);
      DelegatorDuesFloor(l[1..], total, amount);
      SeqSumConcat(if due == 0 then [] else [Bond(l[0].owner, due)], DelegatorDues(l[1..], total, amount));
      Distribute(amount, share, SharesOf(l[1..], total));
    }
  }

  lemma {:induction false} MemberFits(l: seq<Bond>, b: Bond)
    requires b in l
    ensures b.amount <= SeqSum(l)
  {
    if l[0] != b {
      MemberFits(l[1..], b);
    }
  }

  /**
   The matching lower bound: where some stake counts, what is paid for a sequencer falls short of its portion of the
   reward by no more than a half and a billionth of the stake's part for it and for each delegator.
   */
  lemma DuesFloor(sequencer: Account, x: SequencerSnapshot, pts: nat, totalPoints: nat, info: DelayedPayout)
    requires info.totalStakingReward <= MAX_BALANCE && 0 < x.total == x.bond + SeqSum(x.delegations)
    ensures var part, work := ForStake(pts, totalPoints, info), ForWork(pts, totalPoints, info);
            var paid := SeqSum(Dues(sequencer, x, pts, totalPoints, info));
            if x.delegations == [] then paid == ByPoints(pts, totalPoints, info)
            else 2 * BILLION * (part + work) <= 2 * BILLION * paid + (|x.delegations| + 1) * (2 * part + BILLION)
  {
    hide FromRational, Part;
    PartsAre(pts, totalPoints, info);
    var part, work, k := ForStake(pts, totalPoints, info), ForWork(pts, totalPoints, info), |x.delegations|;
    if k > 0 {
      var own, share := Part(FromRational(x.bond, x.total), part), FromRational(x.bond, x.total);
      var l, rest := DelegatorDues(x.delegations, x.total, part), SharesOf(x.delegations, x.total);
      PartFits(share, part);
      SeqSumConcat([Bond(sequencer, SatAdd(own, work))], l);
      SharesNearlyWhole(x);
      PartIsNearest(share, part);
      DelegatorDuesFloor(x.delegations, x.total, part);
      hide SeqSum, SharesOf, Dues, DelegatorDues;
      FloorOfDues(part, share, rest, own, SeqSum(l), k);
    }
  }

  /** The shares of a snapshot are the whole, but for one part per billion each. */
  lemma SharesNearlyWhole(x: SequencerSnapshot)
    requires 0 < x.total == x.bond + SeqSum(x.delegations)
    ensures BILLION <= FromRational(x.bond, x.total) + SharesOf(x.delegations, x.total) + |x.delegations| + 1
  {
    var share, rest, k := FromRational(x.bond, x.total), SharesOf(x.delegations, x.total), |x.delegations|;
    forall b | b in x.delegations
      ensures b.amount <= x.total
    {
      MemberFits(x.delegations, b);
    }
    SharesFloor(x.delegations, x.total);
    FromRationalRoundsDown(x.bond, x.total);
    AddFloors(x.total, share, rest, x.bond, SeqSum(x.delegations), k);
    assert x.total * (share + rest) + x.total * (k + 1) == x.total * (share + rest + k + 1);
    assert x.total * BILLION == (x.bond + SeqSum(x.delegations)) * BILLION;
    Unscale(BILLION, share + rest + k + 1, x.total);
  }

  lemma FloorOfDues(part: nat, share: nat, rest: nat, own: nat, others: nat, k: nat)
    requires BILLION <= share + rest + k + 1
    requires 2 * share * part - BILLION <= 2 * BILLION * own
    requires 2 * part * rest <= 2 * BILLION * others + BILLION * k
    ensures 2 * BILLION * part <= 2 * BILLION * (own + others) + (k + 1) * (2 * part + BILLION)
  {
    Scale(BILLION, share + rest + k + 1, 2 * part);
    assert 2 * part * (share + rest + k + 1) == 2 * share * part + 2 * part * rest + (k + 1) * (2 * part);
  }

  /** Where some stake counts, each delegator gets its portion of the stake's part. */
  lemma EachGetsItsPortion(sequencer: Account, x: SequencerSnapshot, pts: nat, totalPoints: nat, info: DelayedPayout,
                           b: Bond)
    requires Proper(sequencer, x) && b in x.delegations && 0 < x.total == x.bond + SeqSum(x.delegations)
    ensures var dues := Dues(sequencer, x, pts, totalPoints, info);
            dues != [] && NearPortion(AmountOf(dues[1..], b.owner), b.amount, x.total, ForStake(pts, totalPoints, info))
  {
    hide FromRational, Part, DelegatorDues, Distinct, AmountOf, SeqSum, NearPortion;
    PartsAre(pts, totalPoints, info);
    var part := ForStake(pts, totalPoints, info);
    var l := DelegatorDues(x.delegations, x.total, part);
    var dues := Dues(sequencer, x, pts, totalPoints, info);
    assert dues[1..] == l;
    MemberFits(x.delegations, b);
    DueOf(x.delegations, x.total, part, b);
    PortionIsNear(b.amount, x.total, part);
  }

  /** The stake's part and the commission are the sequencer's portions, by points, of the two issuances. */
  lemma PartsByPoints(pts: nat, totalPoints: Positive, info: DelayedPayout)
    requires pts <= totalPoints
    ensures NearPortion(ByPoints(pts, totalPoints, info), pts, totalPoints, info.totalStakingReward - Commission(info))
    ensures NearPortion(ForWork(pts, totalPoints, info), pts, totalPoints, Commission(info))
    ensures 2 * info.sequencerCommission * info.totalStakingReward - BILLION <= 2 * BILLION * Commission(info)
            <= 2 * info.sequencerCommission * info.totalStakingReward + BILLION
  {
    PortionIsNear(pts, totalPoints, info.totalStakingReward - Commission(info));
    PortionIsNear(pts, totalPoints, Commission(info));
    PartIsNearest(info.sequencerCommission, info.totalStakingReward);
  }
}
