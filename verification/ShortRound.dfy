/** A run, from genesis and with calls that pass every check, whose next block panics. */
module ShortRound {
  import opened Config
  import opened Wrappers
  import opened Sums
  import opened Bonds
  import opened DelegationList
  import opened OrderedSets
  import opened Book
  import opened Storage
  import opened Candidates
  import opened Snapshots
  import opened Payouts
  import opened Selection
  import opened Rounds
  import opened Dispatch
  import opened World
  import opened RoundRuns
  import opened FallBack

  /** Which lengths `set_blocks_per_round` accepts: the snapshot point plays no part. */
  lemma LengthIgnoresPoint(g: Rounds, blocks: nat, totalSelected: nat)
    ensures SetBlocksError(g, blocks, totalSelected) == None <==>
            MIN_BLOCKS_PER_ROUND <= blocks && totalSelected < blocks && blocks != g.length
  {
  }

  /** One more step. */
  lemma RunExtended(tr: seq<World>, ev: seq<Event>, e: Event, w: World)
    requires WorldRun(tr, ev) && WorldStep(tr[|ev|], e, w)
    ensures WorldRun(tr + [w], ev + [e])
  {
    hide WorldStep, GenesisWorld;
    var tr', ev' := tr + [w], ev + [e];
    forall i | 0 <= i < |ev'|
      ensures WorldStep(tr'[i], ev'[i], tr'[i + 1])
    {
      if i < |ev| {
        assert tr'[i] == tr[i] && tr'[i + 1] == tr[i + 1] && ev'[i] == ev[i];
      }
    }
  }

  /** Nothing is due in the next `k` blocks: no round change, no snapshot, no payment. */
  ghost predicate Quiet(w: World, k: nat) {
    && w.rounds.delayed == map[] && w.rounds.first <= w.now
    && forall n | w.now < n <= w.now + k :: !ShouldUpdate(w.rounds, n) && !ShouldSnapshot(w.rounds, n)
  }

  lemma {:induction false} QuietBlocks(tr: seq<World>, ev: seq<Event>, k: nat)
    returns (tr': seq<World>, ev': seq<Event>)
    requires WorldRun(tr, ev) && Quiet(tr[|ev|], k)
    ensures WorldRun(tr', ev') && |tr'| == |ev'| + 1 && tr'[|ev'|] == tr[|ev|].(now := tr[|ev|].now + k)
  {
    hide WorldRun, WorldStep;
    RunLength(tr, ev);
    if k == 0 {
      tr', ev' := tr, ev;
    } else {
      var w := tr[|ev|];
      var quiet, events := QuietBlocks(tr, ev, k - 1);
      var e := Block(0, 0, None, None);
      var w' := w.(now := w.now + k);
      RunLength(quiet, events);
      QuietStep(w.(now := w.now + k - 1), e, w');
      RunExtended(quiet, events, e, w');
      tr', ev' := quiet + [w'], events + [e];
    }
  }

  lemma QuietStep(w: World, e: Event, w': World)
    requires Quiet(w, 1) && e == Block(0, 0, None, None) && w' == w.(now := w.now + 1)
    ensures WorldStep(w, e, w')
  {
    hide IsSelection, Owed;
  }

  // The run

  /** The pallet after `c` joined, as the only candidate and without stake. */
  ghost function Alone(c: Account): Storage {
    Storage(map[c := NEW_CANDIDATE], map[c := NO_DELEGATIONS], map[c := NO_DELEGATIONS], map[], map[],
            [Bond(c, 0)], 0, map[], {c}, 1)
  }

  lemma AloneOk(c: Account)
    requires c != PALLET
    ensures Inv(Alone(c)) && Keyed(Alone(c))
  {
    hide Inv, NEW_CANDIDATE, NO_DELEGATIONS;
    var none: map<Account, Balance> := map[];
    SumZero(none);
    GenesisOk(map[], 1);
    var s := Storage(map[], map[], map[], map[], map[], [], 0, map[], {}, 1);
    assert Alone(c) == s.(info := s.info[c := NEW_CANDIDATE], top := s.top[c := NO_DELEGATIONS],
                          bottom := s.bottom[c := NO_DELEGATIONS], pool := InsertByOwner(s.pool, Bond(c, 0)),
                          locks := s.locks + {c});
    AdmittedKeeps(s, Alone(c), c);
  }

  /** Genesis with `c` selected for the first round. */
  ghost function Start(c: Account, length: nat): World {
    World(Alone(c), AfterSelection(Alone(c), Blank(length), 0, [c]), 0)
  }

  lemma StartOk(c: Account, length: nat)
    requires c != PALLET
    ensures WorldRun([Start(c, length)], []) && Start(c, length).staking == Alone(c)
    ensures var g := Start(c, length).rounds;
            && g.first == 0 && g.length == length && g.snapshotTimePoint == length * 3 / 4
            && g.delayed == map[] && g.points == map[] && g.selected == [c] && Row(g.atStake, 2) == map[]
  {
    hide Inv, Exposures, NEW_CANDIDATE, NO_DELEGATIONS;
    var w := Start(c, length);
    AloneOk(c);
    SelectionRows(Alone(c), Blank(length), 0, [c], 2);
    assert IsSelection([Bond(c, 0)], 1, [c]) by {
      assert HasOwner([Bond(c, 0)], c) by { assert Bond(c, 0) in [Bond(c, 0)]; }
    }
    assert FirstSelection(w, 1, [c]);
  }

  /** The only candidate goes offline: nobody can be selected any more. */
  lemma GoesOffline(w: World, c: Account) returns (w': World)
    requires c != PALLET && w.staking == Alone(c) && w.rounds.first <= w.now
    ensures WorldStep(w, Staking(GoOffline(c)), w')
    ensures w' == w.(staking := w'.staking) && w'.staking.pool == [] && w'.staking.round == 1
  {
    hide Inv, NO_DELEGATIONS;
    AloneOk(c);
    var s := w.staking;
    var s' := s.(info := s.info[c := s.info[c].(status := Idle)], pool := Without(s.pool, c));
    assert Without([Bond(c, 0)], c) == [];
    assert StatusChanged(s, s', c, Idle);
    w' := w.(staking := s');
  }

  /** The round changes after `length` blocks; nobody earned points. */
  lemma RoundOpens(w: World) returns (w': World)
    requires w.rounds.first <= w.now && w.now + 1 == w.rounds.first + w.rounds.length
    requires w.rounds.points == map[] && w.rounds.snapshotTimePoint > 0
    ensures WorldStep(w, Block(0, 0, None, None), w')
    ensures w' == World(w.staking.(round := w.staking.round + 1), w.rounds.(first := w.now + 1), w.now + 1)
  {
    hide IsSelection;
    w' := World(w.staking.(round := w.staking.round + 1), w.rounds.(first := w.now + 1), w.now + 1);
  }

  /**
   The first round is cut to `blocks`, no longer than its snapshot point, and the second one made longer again: all
   checks pass, and the run ends with a block that cannot be built.
   */
  lemma ShortRoundPanics(c: Account, length: nat, blocks: nat, longer: nat) returns (tr: seq<World>, ev: seq<Event>)
    requires c != PALLET && 1 < blocks && MIN_BLOCKS_PER_ROUND <= blocks <= length * 3 / 4 < longer
    ensures WorldRun(tr, ev) && tr[|ev|].rounds.first <= tr[|ev|].now
    ensures Panics(tr[|ev|].staking, tr[|ev|].rounds, tr[|ev|].now + 1, 1)
  {
    hide WorldRun, WorldStep, Panics;
    var w0 := Start(c, length);
    StartOk(c, length);
    tr, ev := [w0], [];
    var w1 := GoesOffline(w0, c);
    tr, ev := Then(tr, ev, Staking(GoOffline(c)), w1);
    var w2 := w1.(rounds := w1.rounds.(length := blocks));
    LengthChanges(w1, blocks);
    tr, ev := Then(tr, ev, SetBlocks(blocks, 1), w2);
    tr, ev := QuietBlocks(tr, ev, blocks - 1);
    var w3 := w2.(now := blocks - 1);
    var w4 := RoundOpens(w3);
    tr, ev := Then(tr, ev, Block(0, 0, None, None), w4);
    var w5 := w4.(rounds := w4.rounds.(length := longer));
    LengthChanges(w4, longer);
    tr, ev := Then(tr, ev, SetBlocks(longer, 1), w5);
    tr, ev := QuietBlocks(tr, ev, length * 3 / 4 - 1);
    NothingToCopy(w5.(now := w5.now + length * 3 / 4 - 1), c);
  }

  lemma Then(tr: seq<World>, ev: seq<Event>, e: Event, w: World) returns (tr': seq<World>, ev': seq<Event>)
    requires WorldRun(tr, ev) && |tr| == |ev| + 1 && WorldStep(tr[|ev|], e, w)
    ensures WorldRun(tr', ev') && |tr'| == |ev'| + 1 && tr'[|ev'|] == w
  {
    hide WorldRun, WorldStep;
    RunExtended(tr, ev, e, w);
    tr', ev' := tr + [w], ev + [e];
  }

  lemma LengthChanges(w: World, blocks: nat)
    requires w.rounds.first <= w.now && MIN_BLOCKS_PER_ROUND <= blocks && 1 < blocks && blocks != w.rounds.length
    ensures WorldStep(w, SetBlocks(blocks, 1), w.(rounds := w.rounds.(length := blocks)))
  {
    LengthIgnoresPoint(w.rounds, blocks, 1);
  }

  /** A selected candidate without a snapshot, an empty pool, and the snapshot point. */
  lemma NothingToCopy(w: World, c: Account)
    requires w.rounds.first <= w.now && w.now + 1 == w.rounds.first + w.rounds.snapshotTimePoint
    requires w.rounds.snapshotTimePoint < w.rounds.length
    requires w.staking.pool == [] && w.rounds.selected == [c] && Row(w.rounds.atStake, w.staking.round) == map[]
    ensures Panics(w.staking, w.rounds, w.now + 1, 1)
  {
    assert c in w.rounds.selected;
  }
}
