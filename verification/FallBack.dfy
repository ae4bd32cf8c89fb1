/** When a block cannot be built: the fall-back of an empty selection, and the snapshots it needs. */
module FallBack {
  import opened Config
  import opened Wrappers
  import opened Sums
  import opened Bonds
  import opened Storage
  import opened Accounting
  import opened Shares
  import opened Snapshots
  import opened Payouts
  import opened Selection
  import opened Rounds
  import opened Dispatch
  import opened World
  import opened RoundRuns

  // A round that ends before its snapshot

  /** Before its point is reached, the current round has no snapshots to its name. */
  lemma {:induction false} NoEarlySnapshot(tr: seq<World>, ev: seq<Event>, n: nat)
    requires WorldRun(tr, ev) && n < |tr| && !Reached(tr[n])
    ensures Row(tr[n].rounds.atStake, tr[n].staking.round + 1) == map[]
  {
    hide WorldStep, GenesisWorld, WorldRun, RowOk, Owed;
    if n == 0 {
      RunGenesis(tr, ev);
      GenesisFacts(tr[0]);
    } else {
      RunLength(tr, ev);
      RunStep(tr, ev, n - 1);
      AlwaysOk(tr, ev, n - 1);
      RowsOk(tr, ev, n - 1, tr[n - 1].staking.round + 2);
      NothingBeyond(tr[n - 1]);
      ClockStep(tr[n - 1], ev[n - 1], tr[n]);
      LiveRowStep(tr[n - 1], ev[n - 1], tr[n], tr[n].staking.round + 1);
      if tr[n].staking.round == tr[n - 1].staking.round {
        NoEarlySnapshot(tr, ev, n - 1);
      }
    }
  }

  /** A round cut short before its snapshot point leaves the next one without snapshots, to its end. */
  lemma {:induction false} MissedSnapshot(tr: seq<World>, ev: seq<Event>, i: nat, n: nat)
    requires WorldRun(tr, ev) && i < n < |tr| && !Reached(tr[i])
    requires tr[i + 1].staking.round == tr[n].staking.round == tr[i].staking.round + 1
    ensures Row(tr[n].rounds.atStake, tr[n].staking.round) == map[]
    decreases n - i
  {
    hide WorldStep, GenesisWorld, WorldRun, Owed;
    RunLength(tr, ev);
    RunStep(tr, ev, n - 1);
    if n == i + 1 {
      NoEarlySnapshot(tr, ev, i);
      LiveRowStep(tr[i], ev[i], tr[n], tr[n].staking.round);
    } else {
      RoundsGrow(tr, ev, i + 1, n - 1);
      RoundsGrow(tr, ev, n - 1, n);
      MissedSnapshot(tr, ev, i, n - 1);
      LiveRowStep(tr[n - 1], ev[n - 1], tr[n], tr[n].staking.round);
    }
  }

  // What the selected sequencers can fall back on

  /** The round before `r` took its snapshot, or `r` is the first round, whose sequencers genesis selected. */
  predicate HasFallBack(tr: seq<World>, ev: seq<Event>, r: RoundIndex, n: nat)
    requires n < |tr| && n <= |ev|
  {
    r <= 1 || SnapshotsIn(tr, ev, r - 1, n) > 0
  }

  /** Where the next selection stands: done for the next round, or still to be made with or without a fall-back. */
  ghost predicate Covered(w: World, prepared: bool) {
    var g, now := w.rounds, w.staking.round;
    if Reached(w) then AllHaveSnapshots(g, now + 1)
    else if prepared then AllHaveSnapshots(g, now)
    else Row(g.atStake, now) == map[]
  }

  lemma {:induction false} AlwaysCovered(tr: seq<World>, ev: seq<Event>, n: nat)
    requires WorldRun(tr, ev) && n < |tr|
    ensures |tr| == |ev| + 1 && Covered(tr[n], HasFallBack(tr, ev, tr[n].staking.round, n))
  {
    hide WorldStep, GenesisWorld, WorldRun, Covered, RowOk;
    RunLength(tr, ev);
    if n == 0 {
      RunGenesis(tr, ev);
      CoveredAtGenesis(tr[0]);
    } else {
      AlwaysCovered(tr, ev, n - 1);
      RunStep(tr, ev, n - 1);
      AlwaysOk(tr, ev, n - 1);
      ClockStep(tr[n - 1], ev[n - 1], tr[n]);
      OneSnapshot(tr, ev, n - 1, tr[n - 1].staking.round);
      if !Reached(tr[n - 1]) {
        NoEarlySnapshot(tr, ev, n - 1);
      }
      CoveredKept(tr[n - 1], ev[n - 1], tr[n], HasFallBack(tr, ev, tr[n - 1].staking.round, n - 1));
    }
  }

  lemma CoveredAtGenesis(w: World)
    requires GenesisWorld(w)
    ensures Covered(w, true)
  {
    hide Inv, IsSelection, SnapshotOf;
    GenesisFacts(w);
    var topN, sel :| FirstSelection(w, topN, sel);
    ExposedAll(w.staking, topN, sel);
    SelectionRows(w.staking, Blank(w.rounds.length), 0, sel, 1);
    InSet(sel);
  }

  lemma InSet(s: seq<Account>)
    ensures forall c | c in s :: c in SetOf(s)
  {
    forall c | c in s
      ensures c in SetOf(s)
    {
      var i :| 0 <= i < |s| && s[i] == c;
    }
  }

  /** A step keeps the cover; the round it may open is prepared iff the last one reached its point. */
  lemma CoveredKept(w: World, e: Event, w': World, prepared: bool)
    requires Inv(w.staking) && WorldStep(w, e, w') && Covered(w, prepared) && w.staking.round >= 1
    requires w.rounds.first <= w.now
    requires !Reached(w) ==> Row(w.rounds.atStake, w.staking.round + 1) == map[]
    ensures Covered(w', if w'.staking.round == w.staking.round then prepared else Reached(w))
  {
    hide Inv, WorldStep, Owed, RowOk, Row;
    ClockStep(w, e, w');
    if TakesSnapshot(e) {
      CoveredBySnapshot(w, e, w');
    } else if w'.staking.round == w.staking.round {
      CoveredAsBefore(w, e, w', prepared);
    } else {
      CoveredInNewRound(w, e, w', prepared);
    }
  }

  lemma CoveredAsBefore(w: World, e: Event, w': World, prepared: bool)
    requires WorldStep(w, e, w') && Covered(w, prepared) && !TakesSnapshot(e) && w'.staking.round == w.staking.round
    ensures Covered(w', prepared)
  {
    hide WorldStep, Owed, Row;
    ClockStep(w, e, w');
    LiveRowStep(w, e, w', w.staking.round);
    LiveRowStep(w, e, w', w.staking.round + 1);
    SnapshotStep(w, e, w', w.staking.round);
  }

  lemma CoveredInNewRound(w: World, e: Event, w': World, prepared: bool)
    requires WorldStep(w, e, w') && Covered(w, prepared) && !TakesSnapshot(e) && w'.staking.round != w.staking.round
    requires !Reached(w) ==> Row(w.rounds.atStake, w.staking.round + 1) == map[]
    ensures Covered(w', Reached(w))
  {
    hide WorldStep, Owed, Row;
    ClockStep(w, e, w');
    LiveRowStep(w, e, w', w.staking.round + 1);
    SnapshotStep(w, e, w', w.staking.round + 1);
  }

  lemma CoveredBySnapshot(w: World, e: Event, w': World)
    requires Inv(w.staking) && WorldStep(w, e, w') && w.staking.round >= 1 && TakesSnapshot(e)
    requires w.rounds.first <= w.now
    ensures Reached(w') && AllHaveSnapshots(w'.rounds, w'.staking.round + 1)
  {
    hide Inv, WorldStep, Exposures, SetOf, Owed, Row;
    ClockStep(w, e, w');
    LiveRowStep(w, e, w', w'.staking.round + 1);
    SnapshotStep(w, e, w', w'.staking.round + 1);
    if e.chosen.value == [] {
      DidNotPanic(w, e, w');
    } else {
      ChosenIsSelection(w, e, w');
      InSet(e.chosen.value);
    }
  }

  lemma DidNotPanic(w: World, e: Event, w': World)
    requires WorldStep(w, e, w') && TakesSnapshot(e) && e.chosen.value == []
    ensures AllHaveSnapshots(w.rounds, w'.staking.round)
  {
    hide AfterOpening, AfterSelection, MayPay, IsSelection;
    ClockStep(w, e, w');
    EmptySelection(w.staking.pool, e.topN, []) by { ChosenByBlock(w, e, w'); }
  }

  lemma ChosenByBlock(w: World, e: Event, w': World)
    requires WorldStep(w, e, w') && TakesSnapshot(e)
    ensures IsSelection(w.staking.pool, e.topN, e.chosen.value)
  {
    hide AfterOpening, AfterSelection, MayPay, IsSelection, Panics;
  }

  // When a block panics

  /** The round that the next block belongs to. */
  function NextRoundIndex(w: World): RoundIndex
    requires w.rounds.first <= w.now
  {
    RoundAt(w.rounds, w.staking.round, w.now + 1)
  }

  /** The next block takes the snapshot of its round. */
  predicate SnapshotIsNext(w: World)
    requires w.rounds.first <= w.now
  {
    ShouldSnapshot(w.rounds.(first := if ShouldUpdate(w.rounds, w.now + 1) then w.now + 1 else w.rounds.first), w.now + 1)
  }

  /**
   In every run, the next block panics if and only if it is to take the snapshot, nobody can be selected, somebody
   was selected before, and the round before its own went without a snapshot.
   */
  lemma PanicsExactly(tr: seq<World>, ev: seq<Event>, n: nat, topN: nat)
    requires WorldRun(tr, ev) && n < |tr|
    ensures |tr| == |ev| + 1 && tr[n].rounds.first <= tr[n].now
    ensures Panics(tr[n].staking, tr[n].rounds, tr[n].now + 1, topN) <==>
            && SnapshotIsNext(tr[n]) && (topN == 0 || tr[n].staking.pool == []) && tr[n].rounds.selected != []
            && !HasFallBack(tr, ev, NextRoundIndex(tr[n]), n)
  {
    hide WorldStep, GenesisWorld, WorldRun, Inv, Row;
    var w := tr[n];
    AlwaysOk(tr, ev, n);
    AlwaysCovered(tr, ev, n);
    OneSnapshot(tr, ev, n, w.staking.round);
    if !Reached(w) {
      NoEarlySnapshot(tr, ev, n);
    }
    if w.rounds.selected != [] {
      assert w.rounds.selected[0] in w.rounds.selected;
    }
  }

  /** If the snapshot point always lies within the round, no block ever panics. */
  lemma NeverPanics(tr: seq<World>, ev: seq<Event>, n: nat, topN: nat)
    requires WorldRun(tr, ev) && n < |tr| && PointFits(tr, n)
    ensures tr[n].rounds.first <= tr[n].now && !Panics(tr[n].staking, tr[n].rounds, tr[n].now + 1, topN)
  {
    hide WorldStep, GenesisWorld, WorldRun, Inv;
    AlwaysOk(tr, ev, n);
    SelectionAgrees(tr, ev, n);
  }

  /** The same, told by the last state `i` of the round before: had it reached its snapshot point? */
  lemma MissedSnapshotPanics(tr: seq<World>, ev: seq<Event>, i: nat, n: nat, topN: nat)
    requires WorldRun(tr, ev) && i < n < |tr|
    requires tr[i + 1].staking.round == tr[n].staking.round == tr[i].staking.round + 1
    ensures tr[n].rounds.first <= tr[n].now
    ensures !ShouldUpdate(tr[n].rounds, tr[n].now + 1) && SnapshotIsNext(tr[n]) ==>
              (Panics(tr[n].staking, tr[n].rounds, tr[n].now + 1, topN) <==>
               !Reached(tr[i]) && (topN == 0 || tr[n].staking.pool == []) && tr[n].rounds.selected != [])
  {
    hide WorldStep, GenesisWorld, WorldRun, Inv, Panics;
    AlwaysOk(tr, ev, i);
    AlwaysOk(tr, ev, n);
    PanicsExactly(tr, ev, n, topN);
    EndedRound(tr, ev, i, n);
    RunStep(tr, ev, i);
    ClockStep(tr[i], ev[i], tr[i + 1]);
  }
}
