/** The rewards of a round over a whole run: what all its payments can add up to. */
module RewardRuns {
  import opened Config
  import opened Wrappers
  import opened Sums
  import opened Bonds
  import opened Shares
  import opened Snapshots
  import opened Payouts
  import opened Rounds
  import opened World
  import opened RoundRuns

  // Everything paid for one round

  function PaysFor(e: Event, r: RoundIndex): bool {
    PaidIn(e).Some? && PaidIn(e).value.round == r
  }

  /** All transfers for round `r` in the first `n` steps. */
  function PaidFor(ev: seq<Event>, r: RoundIndex, n: nat): nat
    requires n <= |ev|
  {
    if n == 0 then 0
    else PaidFor(ev, r, n - 1) + if PaysFor(ev[n - 1], r) then SeqSum(PaidIn(ev[n - 1]).value.dues) else 0
  }

  /** All points these payments were made for. */
  function PointsFor(ev: seq<Event>, r: RoundIndex, n: nat): nat
    requires n <= |ev|
  {
    if n == 0 then 0
    else PointsFor(ev, r, n - 1) + if PaysFor(ev[n - 1], r) then PaidIn(ev[n - 1]).value.points else 0
  }

  /** Twice what rounding may add: one for the sequencer, one for its commission, one for each delegator. */
  function RoundingFor(ev: seq<Event>, r: RoundIndex, n: nat): nat
    requires n <= |ev|
  {
    if n == 0 then 0
    else
      RoundingFor(ev, r, n - 1)
      + if PaysFor(ev[n - 1], r) then |PaidIn(ev[n - 1]).value.snapshot.delegations| + 2 else 0
  }

  // The awards of one round

  /**
   An award for round `r` that its points keep up with: they do not pass the limit of their type, or nobody else has
   any. This is known before the award is made.
   */
  ghost predicate KeepsUp(w: World, e: Event, r: RoundIndex) {
    e.Award? && w.staking.round == r ==>
      || Get(w.rounds.points, r) + e.points <= MAX_POINTS
      || Get(Row(w.rounds.awarded, r), e.sequencer) == Get(w.rounds.points, r)
  }

  /** The points kept up with every award for round `r` so far. */
  ghost predicate AllKeepUp(tr: seq<World>, ev: seq<Event>, r: RoundIndex, n: nat) {
    n < |tr| && n <= |ev| && forall i | 0 <= i < n :: KeepsUp(tr[i], ev[i], r)
  }

  /** Awards that add up to the round's points still do after one that these keep up with, and exceed them after another. */
  lemma AwardFromEqual(g: Rounds, r: RoundIndex, c: Account, points: nat)
    requires Sum(Row(g.awarded, r)) == Get(g.points, r) <= MAX_POINTS
    ensures var g' := PointsAwarded(g, r, c, points);
            if Get(g.points, r) + points <= MAX_POINTS || Get(Row(g.awarded, r), c) == Get(g.points, r)
            then Sum(Row(g'.awarded, r)) == Get(g'.points, r)
            else Sum(Row(g'.awarded, r)) > Get(g'.points, r) == MAX_POINTS
  {
    var row := Row(g.awarded, r);
    SumUpdate(row, c, SatPoints(Get(row, c), points));
    SumDrop(row, c);
  }

  /** Once they exceed the points, they do so after any award. */
  lemma AwardFromExcess(g: Rounds, r: RoundIndex, c: Account, points: nat)
    requires Sum(Row(g.awarded, r)) > Get(g.points, r) == MAX_POINTS && Get(Row(g.awarded, r), c) <= MAX_POINTS
    ensures var g' := PointsAwarded(g, r, c, points);
            Sum(Row(g'.awarded, r)) > Get(g'.points, r) == MAX_POINTS
  {
    var row := Row(g.awarded, r);
    SumUpdate(row, c, SatPoints(Get(row, c), points));
  }

  ghost predicate WithinLimit(w: World, r: RoundIndex) {
    && Get(w.rounds.points, r) <= MAX_POINTS
    && forall c | c in Row(w.rounds.awarded, r) :: Row(w.rounds.awarded, r)[c] <= MAX_POINTS
  }

  /**
   While a round lasts, its awards add up to exactly its points if these kept up with each of them, and to more than
   the limit of the points if not.
   */
  lemma {:induction false} AwardsAddUp(tr: seq<World>, ev: seq<Event>, r: RoundIndex, n: nat)
    requires WorldRun(tr, ev) && n < |tr| && tr[n].staking.round <= r
    ensures WithinLimit(tr[n], r)
    ensures if AllKeepUp(tr, ev, r, n)
            then Sum(Row(tr[n].rounds.awarded, r)) == Get(tr[n].rounds.points, r)
            else Sum(Row(tr[n].rounds.awarded, r)) > Get(tr[n].rounds.points, r) == MAX_POINTS
  {
    hide WorldStep, GenesisWorld, WorldRun, KeepsUp, RowOk;
    RunLength(tr, ev);
    if n == 0 {
      RunGenesis(tr, ev);
      GenesisFacts(tr[0]);
      SumZero(Row(tr[0].rounds.awarded, r));
    } else {
      RunStep(tr, ev, n - 1);
      RoundsGrow(tr, ev, n - 1, n);
      AwardsAddUp(tr, ev, r, n - 1);
      RowsOk(tr, ev, n - 1, r);
      AwardsStep(tr[n - 1], ev[n - 1], tr[n], r);
      assert AllKeepUp(tr, ev, r, n) <==> AllKeepUp(tr, ev, r, n - 1) && KeepsUp(tr[n - 1], ev[n - 1], r);
    }
  }

  lemma AwardsStep(w: World, e: Event, w': World, r: RoundIndex)
    requires WorldStep(w, e, w') && w.staking.round <= r && RowOk(w, r) && WithinLimit(w, r)
    ensures WithinLimit(w', r)
    ensures Sum(Row(w.rounds.awarded, r)) == Get(w.rounds.points, r) ==>
              if KeepsUp(w, e, r) then Sum(Row(w'.rounds.awarded, r)) == Get(w'.rounds.points, r)
              else Sum(Row(w'.rounds.awarded, r)) > Get(w'.rounds.points, r) == MAX_POINTS
    ensures Sum(Row(w.rounds.awarded, r)) > Get(w.rounds.points, r) == MAX_POINTS ==>
              Sum(Row(w'.rounds.awarded, r)) > Get(w'.rounds.points, r) == MAX_POINTS
  {
    hide WorldStep, Sum;
    FreshStep(w, e, w', r);
    if e.Award? && r == w.staking.round {
      if Sum(Row(w.rounds.awarded, r)) == Get(w.rounds.points, r) {
        AwardFromEqual(w.rounds, r, e.sequencer, e.points);
      } else if Sum(Row(w.rounds.awarded, r)) > Get(w.rounds.points, r) == MAX_POINTS {
        AwardFromExcess(w.rounds, r, e.sequencer, e.points);
      }
    }
  }

  /** All points given in round `r` by the first `n` steps, to `c` or to anybody. */
  function GivenTo(tr: seq<World>, ev: seq<Event>, r: RoundIndex, c: Account, n: nat): nat
    requires n <= |ev| && n < |tr|
  {
    if n == 0 then 0
    else
      GivenTo(tr, ev, r, c, n - 1)
      + if ev[n - 1].Award? && tr[n - 1].staking.round == r && ev[n - 1].sequencer == c then ev[n - 1].points else 0
  }

  function GivenIn(tr: seq<World>, ev: seq<Event>, r: RoundIndex, n: nat): nat
    requires n <= |ev| && n < |tr|
  {
    if n == 0 then 0
    else
      GivenIn(tr, ev, r, n - 1)
      + if ev[n - 1].Award? && tr[n - 1].staking.round == r then ev[n - 1].points else 0
  }

  /** While a round lasts, a sequencer's points and the round's are what was given so far, up to their limit. */
  lemma {:induction false} PointsAreGiven(tr: seq<World>, ev: seq<Event>, r: RoundIndex, c: Account, n: nat)
    requires WorldRun(tr, ev) && n < |tr| && tr[n].staking.round <= r
    ensures |tr| == |ev| + 1
    ensures var given := GivenTo(tr, ev, r, c, n);
            Get(Row(tr[n].rounds.awarded, r), c) == if given <= MAX_POINTS then given else MAX_POINTS
    ensures var given := GivenIn(tr, ev, r, n);
            Get(tr[n].rounds.points, r) == if given <= MAX_POINTS then given else MAX_POINTS
  {
    hide WorldStep, GenesisWorld, WorldRun, RowOk;
    RunLength(tr, ev);
    if n == 0 {
      RunGenesis(tr, ev);
      GenesisFacts(tr[0]);
    } else {
      RunStep(tr, ev, n - 1);
      RoundsGrow(tr, ev, n - 1, n);
      PointsAreGiven(tr, ev, r, c, n - 1);
      RowsOk(tr, ev, n - 1, r);
      FreshStep(tr[n - 1], ev[n - 1], tr[n], r);
    }
  }

  /** When round `r` ended, the points its sequencers were awarded added up to no more than its points. */
  ghost predicate EndsWithin(tr: seq<World>, r: RoundIndex, n: nat) {
    && n < |tr|
    && forall i | 0 <= i < n && tr[i].staking.round == r < tr[i + 1].staking.round ::
         Sum(Row(tr[i].rounds.awarded, r)) <= Get(tr[i].rounds.points, r)
  }

  /** A round ended with its awards within its points if and only if these kept up with each award. */
  lemma {:induction false} EndsWithinExactly(tr: seq<World>, ev: seq<Event>, r: RoundIndex, n: nat)
    requires WorldRun(tr, ev) && n < |tr| && r < tr[n].staking.round
    ensures EndsWithin(tr, r, n) <==> AllKeepUp(tr, ev, r, n)
  {
    hide WorldStep, GenesisWorld, WorldRun, Sum;
    RunLength(tr, ev);
    if n > 0 {
      RunStep(tr, ev, n - 1);
      ClockStep(tr[n - 1], ev[n - 1], tr[n]);
      assert AllKeepUp(tr, ev, r, n) <==> AllKeepUp(tr, ev, r, n - 1) && KeepsUp(tr[n - 1], ev[n - 1], r);
      if r < tr[n - 1].staking.round {
        EndsWithinExactly(tr, ev, r, n - 1);
      } else {
        assert KeepsUp(tr[n - 1], ev[n - 1], r);
        AwardsAddUp(tr, ev, r, n - 1);
        EndsNow(tr, ev, r, n);
      }
    }
  }

  /** The round that ends with this step has not ended before. */
  lemma EndsNow(tr: seq<World>, ev: seq<Event>, r: RoundIndex, n: nat)
    requires WorldRun(tr, ev) && 0 < n < |tr| && tr[n - 1].staking.round == r < tr[n].staking.round
    ensures EndsWithin(tr, r, n) <==>
            Sum(Row(tr[n - 1].rounds.awarded, r)) <= Get(tr[n - 1].rounds.points, r)
  {
    hide WorldStep, GenesisWorld, WorldRun, Sum;
    RunLength(tr, ev);
    forall k | 0 < k < n
      ensures tr[k].staking.round <= r
    {
      RoundsGrow(tr, ev, k, n - 1);
    }
  }

  // The books of one round

  /** The shares of every snapshot paid for the round add up to at most one. */
  ghost predicate SharesAlwaysFit(ev: seq<Event>, r: RoundIndex, n: nat)
    requires n <= |ev|
  {
    forall i | 0 <= i < n && PaysFor(ev[i], r) :: SharesFit(PaidIn(ev[i]).value.snapshot)
  }

  /** The books of round `r` after `n` steps, given that its points are `p` and its awards add up to `a`. */
  ghost predicate Settled(tr: seq<World>, ev: seq<Event>, r: RoundIndex, n: nat, p: nat, a: nat)
    requires n < |tr| && n <= |ev|
  {
    var w := tr[n];
    && 2 * p * PaidFor(ev, r, n) <= 2 * ROUND_REWARD * PointsFor(ev, r, n) + p * RoundingFor(ev, r, n)
    && (p == 0 ==> PaidFor(ev, r, n) == 0)
    && PointsFor(ev, r, n) + Sum(Row(w.rounds.awarded, r)) == a
    && (w.staking.round <= r ==> p == Get(w.rounds.points, r)
                                 && PaidFor(ev, r, n) == PointsFor(ev, r, n) == RoundingFor(ev, r, n) == 0)
    && (r in w.rounds.delayed ==> Get(w.rounds.points, r) == p)
  }

  /** If round `r` has ended, its points were `p` then, and its awards added up to `a`. */
  ghost predicate EndedWith(tr: seq<World>, r: RoundIndex, n: nat, p: nat, a: nat) {
    && n < |tr|
    && forall i | 0 <= i < n && tr[i].staking.round == r < tr[i + 1].staking.round ::
         Get(tr[i].rounds.points, r) == p && Sum(Row(tr[i].rounds.awarded, r)) == a
  }

  lemma {:induction false} AlwaysSettled(tr: seq<World>, ev: seq<Event>, r: RoundIndex, n: nat) returns (p: nat, a: nat)
    requires WorldRun(tr, ev) && n < |tr| && n <= |ev| && SharesAlwaysFit(ev, r, n)
    ensures Settled(tr, ev, r, n, p, a) && EndedWith(tr, r, n, p, a)
    ensures AllKeepUp(tr, ev, r, n) ==> a <= p
  {
    hide WorldStep, GenesisWorld, WorldRun, Settled, EndedWith, Sum, KeepsUp;
    RunLength(tr, ev);
    if tr[n].staking.round <= r {
      p, a := Get(tr[n].rounds.points, r), Sum(Row(tr[n].rounds.awarded, r));
      AwardsAddUp(tr, ev, r, n);
      SettledWhileOpen(tr, ev, r, n);
      NotEndedYet(tr, ev, r, n, p, a);
    } else if n == 0 {
      p, a := 0, 0;
      SettledAtGenesis(tr, ev, r);
      assert EndedWith(tr, r, 0, 0, 0) by { NotEndedAtGenesis(tr, r); }
    } else {
      p, a := AlwaysSettled(tr, ev, r, n - 1);
      RunStep(tr, ev, n - 1);
      RowsOk(tr, ev, n - 1, r);
      if tr[n - 1].staking.round <= r {
        SettledAtEnd(tr, ev, r, n, p, a);
        EndsWith(tr, ev, r, n, p, a);
      } else {
        SettledWhenPast(tr, ev, r, n, p, a);
        EndedBefore(tr, r, n, p, a);
      }
    }
  }

  lemma NotEndedYet(tr: seq<World>, ev: seq<Event>, r: RoundIndex, n: nat, p: nat, a: nat)
    requires WorldRun(tr, ev) && n < |tr| && tr[n].staking.round <= r
    ensures EndedWith(tr, r, n, p, a)
  {
    hide WorldStep, GenesisWorld, WorldRun, Sum;
    forall k | 0 < k <= n
      ensures tr[k].staking.round <= r
    {
      RoundsGrow(tr, ev, k, n);
    }
  }

  lemma NotEndedAtGenesis(tr: seq<World>, r: RoundIndex)
    requires |tr| > 0
    ensures EndedWith(tr, r, 0, 0, 0)
  {
  }

  lemma EndsWith(tr: seq<World>, ev: seq<Event>, r: RoundIndex, n: nat, p: nat, a: nat)
    requires WorldRun(tr, ev) && 0 < n < |tr| && n <= |ev| && tr[n - 1].staking.round <= r
    requires Settled(tr, ev, r, n - 1, p, a)
    ensures EndedWith(tr, r, n, p, a)
  {
    hide WorldStep, GenesisWorld, WorldRun, Sum;
    forall k | 0 < k < n
      ensures tr[k].staking.round <= r
    {
      RoundsGrow(tr, ev, k, n - 1);
    }
  }

  lemma EndedBefore(tr: seq<World>, r: RoundIndex, n: nat, p: nat, a: nat)
    requires 0 < n < |tr| && r < tr[n - 1].staking.round && EndedWith(tr, r, n - 1, p, a)
    ensures EndedWith(tr, r, n, p, a)
  {
    hide Sum;
  }

  lemma SettledAtGenesis(tr: seq<World>, ev: seq<Event>, r: RoundIndex)
    requires WorldRun(tr, ev) && |tr| > 0 && r < tr[0].staking.round
    ensures Settled(tr, ev, r, 0, 0, 0)
  {
    hide WorldStep, GenesisWorld;
    GenesisFacts(tr[0]);
    SumZero(Row(tr[0].rounds.awarded, r));
  }

  /** While the round lasts, nothing is paid for it. */
  lemma {:induction false} SettledWhileOpen(tr: seq<World>, ev: seq<Event>, r: RoundIndex, n: nat)
    requires WorldRun(tr, ev) && n < |tr| && n <= |ev| && tr[n].staking.round <= r
    ensures Settled(tr, ev, r, n, Get(tr[n].rounds.points, r), Sum(Row(tr[n].rounds.awarded, r)))
  {
    hide WorldStep, GenesisWorld, WorldRun, Owed, Sum;
    RowsOk(tr, ev, n, r);
    if n > 0 {
      RunStep(tr, ev, n - 1);
      RoundsGrow(tr, ev, n - 1, n);
      SettledWhileOpen(tr, ev, r, n - 1);
      ClockStep(tr[n - 1], ev[n - 1], tr[n]);
    }
  }

  /** The step that ends it pays nothing for it, and changes neither points nor awards. */
  lemma SettledAtEnd(tr: seq<World>, ev: seq<Event>, r: RoundIndex, n: nat, p: nat, a: nat)
    requires 0 < n < |tr| && n <= |ev| && Settled(tr, ev, r, n - 1, p, a)
    requires WorldStep(tr[n - 1], ev[n - 1], tr[n]) && RowOk(tr[n - 1], r)
    requires tr[n - 1].staking.round <= r < tr[n].staking.round
    ensures Settled(tr, ev, r, n, p, a)
  {
    hide WorldStep, Owed, Sum;
    ClockStep(tr[n - 1], ev[n - 1], tr[n]);
    FreshStep(tr[n - 1], ev[n - 1], tr[n], r);
  }

  /** Afterwards, every payment takes its points out of the awards. */
  lemma SettledWhenPast(tr: seq<World>, ev: seq<Event>, r: RoundIndex, n: nat, p: nat, a: nat)
    requires 0 < n < |tr| && n <= |ev| && Settled(tr, ev, r, n - 1, p, a)
    requires WorldStep(tr[n - 1], ev[n - 1], tr[n]) && RowOk(tr[n - 1], r) && r < tr[n - 1].staking.round
    requires PaysFor(ev[n - 1], r) ==> SharesFit(PaidIn(ev[n - 1]).value.snapshot)
    ensures Settled(tr, ev, r, n, p, a)
  {
    hide WorldStep, Dues;
    var w, e, w' := tr[n - 1], ev[n - 1], tr[n];
    ClockStep(w, e, w');
    PointsStep(w, e, w', r);
    if PaysFor(e, r) {
      var q := PaidIn(e).value;
      SumDrop(Row(w.rounds.awarded, r), q.sequencer);
      OwedBound(w.rounds, r, q, p);
      AddPayment(p, PaidFor(ev, r, n - 1), PointsFor(ev, r, n - 1), RoundingFor(ev, r, n - 1),
                 SeqSum(q.dues), q.points, |q.snapshot.delegations| + 2);
    } else {
      assert Row(w'.rounds.awarded, r) == Row(w.rounds.awarded, r);
    }
  }

  lemma OwedBound(g: Rounds, r: RoundIndex, q: Payment, p: nat)
    requires r in g.delayed && Owed(g, r, g.delayed[r], q) && Get(g.points, r) == p
    requires g.delayed[r].totalStakingReward == ROUND_REWARD
    requires SharesFit(q.snapshot)
    ensures 2 * p * SeqSum(q.dues) <= 2 * ROUND_REWARD * q.points + p * (|q.snapshot.delegations| + 2)
  {
    hide Dues, Purse;
    var info := g.delayed[r];
    if q.points > 0 {
      DuesBound(q.sequencer, q.snapshot, q.points, p, info);
      PurseFits(info);
      Scale(2 * Purse(info), 2 * ROUND_REWARD, q.points);
    }
  }

  /** Every snapshot ever paid holds exactly what its shares are taken of, so it is known when they fit. */
  lemma PaidShares(tr: seq<World>, ev: seq<Event>, i: nat)
    requires WorldRun(tr, ev) && i < |ev| && PaidIn(ev[i]).Some?
    ensures var x := PaidIn(ev[i]).value.snapshot;
            SharesFit(x) <==>
            x.delegations == [] || x.total > 0 || (|x.delegations| + 1) * SHARE_OF_NOTHING <= BILLION
  {
    hide WorldStep, GenesisWorld, WorldRun, SharesFit, SeqSum;
    var q := PaidIn(ev[i]).value;
    RunStep(tr, ev, i);
    ClockStep(tr[i], ev[i], tr[i + 1]);
    RowsOk(tr, ev, i, q.round);
    SharesFitExactly(q.snapshot);
  }

  lemma AddPayment(p: nat, paid: nat, points: nat, rounding: nat, due: nat, pts: nat, k: nat)
    requires 2 * p * paid <= 2 * ROUND_REWARD * points + p * rounding
    requires 2 * p * due <= 2 * ROUND_REWARD * pts + p * k
    ensures 2 * p * (paid + due) <= 2 * ROUND_REWARD * (points + pts) + p * (rounding + k)
  {
  }

  /**
   What all payments for a round add up to, in every run: of its reward, the portion that its awards are of its points,
   and no more than a half for each sequencer, each commission and each delegator paid.
   */
  lemma RewardBoundByAwards(tr: seq<World>, ev: seq<Event>, r: RoundIndex, n: nat) returns (p: nat, a: nat)
    requires WorldRun(tr, ev) && n < |tr| && n <= |ev| && SharesAlwaysFit(ev, r, n)
    ensures EndedWith(tr, r, n, p, a) && (AllKeepUp(tr, ev, r, n) ==> a <= p)
    ensures p == 0 ==> PaidFor(ev, r, n) == 0
    ensures 2 * p * PaidFor(ev, r, n) <= 2 * ROUND_REWARD * a + p * RoundingFor(ev, r, n)
  {
    hide WorldRun, SharesAlwaysFit, EndedWith, AllKeepUp;
    p, a := AlwaysSettled(tr, ev, r, n);
    Scale(PointsFor(ev, r, n), a, 2 * ROUND_REWARD);
  }

  /**
   If the points of the round kept up with its awards, all payments for it exceed its reward by no more than a half for
   each sequencer, each commission and each delegator paid.
   */
  lemma RewardBound(tr: seq<World>, ev: seq<Event>, r: RoundIndex, n: nat)
    requires WorldRun(tr, ev) && n < |tr| && n <= |ev| && SharesAlwaysFit(ev, r, n) && AllKeepUp(tr, ev, r, n)
    ensures 2 * PaidFor(ev, r, n) <= 2 * ROUND_REWARD + RoundingFor(ev, r, n)
  {
    hide WorldRun, SharesAlwaysFit, EndedWith, AllKeepUp;
    var p, a := RewardBoundByAwards(tr, ev, r, n);
    if p > 0 {
      Scale(a, p, 2 * ROUND_REWARD);
      TakeOut(p, PaidFor(ev, r, n), a, RoundingFor(ev, r, n));
    }
  }

  lemma TakeOut(p: Positive, paid: nat, points: nat, rounding: nat)
    requires 2 * p * paid <= 2 * ROUND_REWARD * points + p * rounding
    requires 2 * ROUND_REWARD * points <= 2 * ROUND_REWARD * p
    ensures 2 * paid <= 2 * ROUND_REWARD + rounding
  {
    assert 2 * p * paid == p * (2 * paid);
    assert 2 * ROUND_REWARD * p + p * rounding == p * (2 * ROUND_REWARD + rounding);
    Unscale(2 * paid, 2 * ROUND_REWARD + rounding, p);
  }

  /** Points at the limit of their type are too few: two sequencers can then be awarded twice the round's points. */
  lemma SaturatedPointsAreTooFew(g: Rounds, r: RoundIndex, a: Account, b: Account)
    requires a != b && Row(g.awarded, r) == map[] && Get(g.points, r) == 0
    ensures var g' := PointsAwarded(PointsAwarded(g, r, a, MAX_POINTS), r, b, MAX_POINTS);
            Get(g'.points, r) == MAX_POINTS && Sum(Row(g'.awarded, r)) == 2 * MAX_POINTS
  {
    var none: map<Account, nat> := map[];
    SumZero(none);
    SumUpdate(none, a, MAX_POINTS);
    SumUpdate(none[a := MAX_POINTS], b, MAX_POINTS);
  }
}
