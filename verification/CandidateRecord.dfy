/**
 The lists of a candidate together with the running totals the pallet keeps beside them, and the cached
 figures of `CandidateMetadata` that every change resets.
 */
module CandidateRecord {
  import opened Config
  import opened Wrappers
  import opened Sums
  import opened Bonds
  import opened DelegationList
  import opened Tiers
  import opened OrderedSets
  import opened Storage

  function Push(b: Delegations, x: Bond): Delegations {
    Delegations(InsertDesc(b.delegations, x), SatAdd(b.total, x.amount))
  }

  function Pop(b: Delegations): Delegations
    requires b.delegations != []
  {
    Delegations(Init(b.delegations), SatSub(b.total, Last(b.delegations).amount))
  }

  function Shift(b: Delegations): Delegations
    requires b.delegations != []
  {
    Delegations(b.delegations[1..], SatSub(b.total, b.delegations[0].amount))
  }

  function MakeRoom(b: Delegations): Delegations {
    if |b.delegations| == MAX_BOTTOM then Pop(b) else b
  }

  /** The metadata with the figures of the top list recomputed. */
  function WithTop(md: CandidateMetadata, top: Delegations): CandidateMetadata {
    md.(lowestTop := Lowest(top.delegations),
    topCapacity := TopCapacity(top.delegations),
    totalCounted := SatAdd(md.bond, top.total))
  }

  /** The metadata with the figures of the bottom list recomputed. */
  function WithBottom(md: CandidateMetadata, bottom: Delegations): CandidateMetadata {
    md.(lowestBottom := Lowest(bottom.delegations),
    highestBottom := Highest(bottom.delegations),
    bottomCapacity := BottomCapacity(bottom.delegations))
  }

  /** By how much the bottom total exceeds the delegations in the bottom. */
  ghost function Drift(b: Delegations): int {
    b.total - SeqSum(b.delegations)
  }

  ghost predicate Covers(b: Delegations) {
    SeqSum(b.delegations) <= b.total <= MAX_BALANCE
  }

  /** The total carries an excess over the list along, as far as its type allows. */
  ghost predicate Carries(b: Delegations, excess: int) {
    var due := excess + SeqSum(b.delegations);
    b.total == if due <= MAX_BALANCE then due else MAX_BALANCE
  }

  lemma PushHolds(b: Delegations, x: Bond)
    requires Covers(b) && SeqSum(b.delegations) + x.amount <= MAX_BALANCE
    ensures Covers(Push(b, x))
    ensures SeqSum(Push(b, x).delegations) == SeqSum(b.delegations) + x.amount
    ensures Carries(Push(b, x), Drift(b))
  {
    InsertDescHolds(b.delegations, x);
  }

  lemma PopHolds(b: Delegations)
    requires Covers(b) && b.delegations != []
    ensures Covers(Pop(b)) && Drift(Pop(b)) == Drift(b)
    ensures SeqSum(Pop(b).delegations) == SeqSum(b.delegations) - Last(b.delegations).amount
  {
    SeqSumLast(b.delegations);
  }

  lemma ShiftHolds(b: Delegations)
    requires Covers(b) && b.delegations != []
    ensures Covers(Shift(b)) && Drift(Shift(b)) == Drift(b)
    ensures SeqSum(Shift(b).delegations) == SeqSum(b.delegations) - b.delegations[0].amount
  {
  }

  lemma BackersSum(t: Tiers)
    requires Shape(t)
    ensures Sum(Backers(t)) == SeqSum(t.top) + SeqSum(t.bottom)
  {
    SumMerge(ToMap(t.top), ToMap(t.bottom));
    SumToMap(t.top);
    SumToMap(t.bottom);
  }

  // The pool entry of one candidate

  /** An active candidate's pool entry is its counted stake. */
  ghost predicate PoolHas(pool: seq<Bond>, c: Account, md: CandidateMetadata) {
    && SortedByOwner(pool)
    && |pool| <= MAX_CANDIDATES
    && (md.status == Active ==> c in ToMap(pool) && ToMap(pool)[c] == md.totalCounted)
  }

  /** The pool after the counted stake of `c` became that of `md`. */
  function PoolAfter(pool: seq<Bond>, c: Account, md: CandidateMetadata): seq<Bond> {
    if md.status == Active then Put(pool, Bond(c, md.totalCounted)) else pool
  }

  lemma PoolAfterIdle(pool: seq<Bond>, c: Account, md: CandidateMetadata)
    requires PoolHas(pool, c, md)
    ensures PoolAfter(pool, c, md) == pool
  {
    if md.status == Active {
      ToMapPut(pool, Bond(c, md.totalCounted));
      SortedIsUnique(Put(pool, Bond(c, md.totalCounted)), pool);
    }
  }

  /** Caller must ensure the candidate is active: it is in the pool, so the insertion cannot fail. */
  method UpdateActive(p: Pallet, candidate: Account, total: Balance)
    requires SortedByOwner(p.candidatePool) && |p.candidatePool| <= MAX_CANDIDATES
    requires candidate in ToMap(p.candidatePool)
    modifies p`candidatePool
    ensures p.candidatePool == Put(old(p.candidatePool), Bond(candidate, total))
  {
    SortedWithout(p.candidatePool, candidate);
    var candidates := new BoundedOrderedSet.FromSortedSet(p.candidatePool, MAX_CANDIDATES);
    var removed := candidates.Remove(candidate);
    var inserted := candidates.TryInsert(Bond(candidate, total));
    assert inserted == Success(true); // the length cannot increase
    p.candidatePool := candidates.items;
  }

  /** Recompute what is cached of the top, and renew the pool entry if the counted stake is another one. */
  method ResetTopData(p: Pallet, md: CandidateMetadata, candidate: Account, top: Delegations)
    returns (out: CandidateMetadata)
    requires PoolHas(p.candidatePool, candidate, md)
    modifies p`candidatePool
    ensures out == WithTop(md, top)
    ensures p.candidatePool == PoolAfter(old(p.candidatePool), candidate, out)
    ensures PoolHas(p.candidatePool, candidate, out)
  {
    var s := top.delegations;
    out := md.(lowestTop := if s == [] then 0 else s[|s| - 1].amount);
    out := out.(topCapacity := TopCapacity(s));
    var oldTotalCounted := out.totalCounted;
    out := out.(totalCounted := SatAdd(out.bond, top.total));
    ToMapPut(p.candidatePool, Bond(candidate, out.totalCounted));
    PoolAfterIdle(p.candidatePool, candidate, md);
    if oldTotalCounted != out.totalCounted && out.status == Active {
      UpdateActive(p, candidate, out.totalCounted);
    }
  }

  /** Recompute what is cached of the bottom. */
  method ResetBottomData(md: CandidateMetadata, bottom: Delegations) returns (out: CandidateMetadata)
    ensures out == WithBottom(md, bottom)
  {
    var s := bottom.delegations;
    out := md.(lowestBottom := if s == [] then 0 else s[|s| - 1].amount);
    out := out.(highestBottom := if s == [] then 0 else s[0].amount);
    out := out.(bottomCapacity := BottomCapacity(s));
  }
}
