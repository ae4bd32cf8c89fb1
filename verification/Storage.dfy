/** The storage of the staking pallet's stake accounting, and what is always true of it. */
module Storage {
  import opened Config
  import opened Wrappers
  import opened Sums
  import opened Bonds
  import opened DelegationList
  import opened Tiers
  import opened OrderedSets
  import opened Book

  datatype Status = Active | Idle | Leaving(when: RoundIndex)

  datatype BondLessRequest = BondLessRequest(amount: Balance, whenExecutable: RoundIndex)

  datatype CandidateMetadata = CandidateMetadata(
    bond: Balance,
    delegationCount: nat,
    totalCounted: Balance,
    lowestTop: Balance,
    highestBottom: Balance,
    lowestBottom: Balance,
    topCapacity: Capacity,
    bottomCapacity: Capacity,
    request: Option<BondLessRequest>,
    status: Status)

  const NEW_CANDIDATE := CandidateMetadata(0, 0, 0, 0, 0, 0, Empty, Empty, None, Active)

  /** The storage items as one value. */
  datatype Storage = Storage(
    info: map<Account, CandidateMetadata>,
    top: map<Account, Delegations>,
    bottom: map<Account, Delegations>,
    delegators: map<Account, Delegator>,
    requests: map<Account, seq<Request>>,
    pool: seq<Bond>,
    total: Balance,
    btc: map<Account, Balance>,
    locks: set<Account>,
    round: RoundIndex)

  /** The pallet: its storage items, which the dispatchables read and rewrite. */
  class Pallet {
    var candidateInfo: map<Account, CandidateMetadata>
    var topDelegations: map<Account, Delegations>
    var bottomDelegations: map<Account, Delegations>
    var delegatorState: map<Account, Delegator>
    var scheduledRequests: map<Account, seq<Request>>
    var candidatePool: seq<Bond>
    var total: Balance
    var btc: map<Account, Balance>
    var locks: set<Account>
    var round: RoundIndex

    ghost function View(): Storage
      reads this
    {
      Storage(candidateInfo, topDelegations, bottomDelegations, delegatorState, scheduledRequests,
              candidatePool, total, btc, locks, round)
    }

    /** Genesis: nobody stakes anything; the asset ledger is given. */
    constructor (btc: map<Account, Balance>, round: RoundIndex)
      requires Sum(btc) <= MAX_BALANCE
      ensures View() == Storage(map[], map[], map[], map[], map[], [], 0, btc, {}, round)
    {
      candidateInfo, topDelegations, bottomDelegations := map[], map[], map[];
      delegatorState, scheduledRequests := map[], map[];
      candidatePool, total, locks := [], 0, {};
      this.btc, this.round := btc, round;
    }
  }

  // One candidate

  ghost predicate CachedTop(md: CandidateMetadata, top: Delegations) {
    && md.lowestTop == Lowest(top.delegations)
    && md.topCapacity == TopCapacity(top.delegations)
    && md.totalCounted == md.bond + top.total
  }

  ghost predicate CachedBottom(md: CandidateMetadata, bottom: Delegations) {
    && md.lowestBottom == Lowest(bottom.delegations)
    && md.highestBottom == Highest(bottom.delegations)
    && md.bottomCapacity == BottomCapacity(bottom.delegations)
  }

  /** The lists are in shape, the totals fit them, and every cached figure is what recomputing it gives. */
  ghost predicate TierOk(md: CandidateMetadata, top: Delegations, bottom: Delegations) {
    && Shape(Tiers(top.delegations, bottom.delegations))
    && top.total == SeqSum(top.delegations)
    && SeqSum(bottom.delegations) <= bottom.total <= MAX_BALANCE
    && CachedTop(md, top)
    && CachedBottom(md, bottom)
    && md.delegationCount == |top.delegations| + |bottom.delegations|
  }

  // The whole pallet

  ghost predicate Keyed(s: Storage) {
    s.top.Keys == s.info.Keys && s.bottom.Keys == s.info.Keys
  }

  ghost function TiersOf(s: Storage, c: Account): Tiers
    requires Keyed(s) && c in s.info
  {
    Tiers(s.top[c].delegations, s.bottom[c].delegations)
  }

  ghost function BookOf(s: Storage): Book
    requires Keyed(s)
  {
    Book(map c | c in s.info :: Backers(TiersOf(s, c)), s.delegators, s.requests)
  }

  /** What stands behind each candidate: its own bond and all delegations, counted or not. */
  ghost function Stakes(s: Storage): map<Account, Balance>
    requires Keyed(s)
  {
    map c | c in s.info :: s.info[c].bond + Sum(Backers(TiersOf(s, c)))
  }

  ghost function Live(s: Storage): Balance
    requires Keyed(s)
  {
    Sum(Stakes(s))
  }

  ghost function ActiveStakes(info: map<Account, CandidateMetadata>): map<Account, Balance> {
    map c | c in info && info[c].status == Active :: info[c].totalCounted
  }

  /** The pool is exactly the active candidates with their counted stake, in ascending order. */
  ghost predicate PoolOk(s: Storage) {
    && SortedByOwner(s.pool)
    && |s.pool| <= MAX_CANDIDATES
    && ToMap(s.pool) == ActiveStakes(s.info)
  }

  ghost predicate BondLessOk(md: CandidateMetadata) {
    md.request.Some? ==> md.request.value.amount <= md.bond
  }

  /** The money: the pallet holds at least all live stake, and `total` never exceeds it. */
  ghost predicate MoneyOk(s: Storage)
    requires Keyed(s)
  {
    && Live(s) <= Get(s.btc, PALLET)
    && s.total <= Live(s)
    && Sum(s.btc) <= MAX_BALANCE
  }

  ghost predicate CandidatesOk(s: Storage)
    requires Keyed(s)
  {
    && PALLET !in s.info
    && (forall c | c in s.info :: TierOk(s.info[c], s.top[c], s.bottom[c]) && BondLessOk(s.info[c]))
  }

  ghost predicate Inv(s: Storage) {
    Keyed(s) && CandidatesOk(s) && BookOk(BookOf(s)) && PoolOk(s) && MoneyOk(s)
  }

  // Money

  /** The asset ledger after a transfer. */
  function Moved(btc: map<Account, Balance>, from: Account, to: Account, amount: Balance): map<Account, Balance>
    requires amount <= Get(btc, from)
  {
    var out := btc[from := Get(btc, from) - amount];
    out[to := Get(out, to) + amount]
  }

  /** A transfer conserves the supply and moves exactly the amount. */
  lemma MovedHolds(btc: map<Account, Balance>, from: Account, to: Account, amount: Balance)
    requires amount <= Get(btc, from)
    ensures Sum(Moved(btc, from, to, amount)) == Sum(btc)
    ensures from != to ==> Get(Moved(btc, from, to, amount), from) == Get(btc, from) - amount
    ensures from != to ==> Get(Moved(btc, from, to, amount), to) == Get(btc, to) + amount
    ensures forall a | a != from && a != to :: Get(Moved(btc, from, to, amount), a) == Get(btc, a)
  {
    SumUpdate(btc, from, Get(btc, from) - amount);
    var out := btc[from := Get(btc, from) - amount];
    SumUpdate(out, to, Get(out, to) + amount);
  }

  /** A transfer of the assets pallet: it succeeds iff the source has the amount. */
  method Transfer(p: Pallet, from: Account, to: Account, amount: Balance) returns (ok: bool)
    modifies p`btc
    ensures ok <==> amount <= Get(old(p.btc), from)
    ensures p.btc == if ok then Moved(old(p.btc), from, to, amount) else old(p.btc)
  {
    if Get(p.btc, from) < amount {
      return false;
    }
    p.btc := p.btc[from := Get(p.btc, from) - amount];
    p.btc := p.btc[to := Get(p.btc, to) + amount];
    return true;
  }

  // Genesis

  lemma GenesisOk(btc: map<Account, Balance>, round: RoundIndex)
    requires Sum(btc) <= MAX_BALANCE
    ensures Inv(Storage(map[], map[], map[], map[], map[], [], 0, btc, {}, round))
  {
    var s := Storage(map[], map[], map[], map[], map[], [], 0, btc, {}, round);
    assert BookOf(s) == Book(map[], map[], map[]);
    assert Stakes(s) == map[];
    assert ActiveStakes(s.info) == map[];
  }
}
