/**
 The delegation book: the same delegations seen from the candidate and from the delegator, and the requests
 pending against them. Nothing here depends on tiers, caches or balances.
 */
module Book {
  import opened Config
  import opened Wrappers
  import opened Sums
  import opened Bonds
  import opened OrderedSets

  datatype Delegator = Delegator(id: Account, delegations: seq<Bond>, total: Balance, lessTotal: Balance)

  datatype Action = Revoke(amount: Balance) | Decrease(amount: Balance)

  datatype Request = Request(delegator: Account, whenExecutable: RoundIndex, action: Action)

  datatype Book = Book(backing: map<Account, map<Account, Balance>>,
                       delegators: map<Account, Delegator>,
                       requests: map<Account, seq<Request>>)

  function Lookup(m: map<Account, Balance>, k: Account): Option<Balance> {
    if k in m then Some(m[k]) else None
  }

  function With(m: map<Account, Balance>, k: Account, v: Balance): map<Account, Balance> {
    m[k := v]
  }

  ghost function BackersOf(bk: Book, c: Account): map<Account, Balance> {
    if c in bk.backing then bk.backing[c] else map[]
  }

  ghost function BondsOf(ds: map<Account, Delegator>, d: Account): map<Account, Balance> {
    if d in ds then ToMap(ds[d].delegations) else map[]
  }

  function RequestsOf(rq: map<Account, seq<Request>>, c: Account): seq<Request> {
    if c in rq then rq[c] else []
  }

  /** The amount `d` has pending in one candidate's requests. */
  function PendingIn(l: seq<Request>, d: Account): Balance {
    if l == [] then 0 else if l[0].delegator == d then l[0].action.amount else PendingIn(l[1..], d)
  }

  ghost function Pending(rq: map<Account, seq<Request>>, d: Account): map<Account, Balance> {
    map c | c in rq :: PendingIn(rq[c], d)
  }

  predicate HasRequest(l: seq<Request>, d: Account) {
    exists r :: r in l && r.delegator == d
  }

  /** Removal of the first request of `d`. */
  function DropRequest(l: seq<Request>, d: Account): seq<Request> {
    if l == [] then [] else if l[0].delegator == d then l[1..] else [l[0]] + DropRequest(l[1..], d)
  }

  // The invariant

  /** Candidate side and delegator side record the same delegations at the same amounts. */
  ghost predicate Mirror(bk: Book) {
    forall c, d :: Lookup(BackersOf(bk, c), d) == Lookup(BondsOf(bk.delegators, d), c)
  }

  ghost predicate DelegatorOk(d: Account, rec: Delegator) {
    && rec.id == d
    && SortedByOwner(rec.delegations)
    && 1 <= |rec.delegations| <= MAX_DELEGATIONS
    && rec.total == Sum(ToMap(rec.delegations))
    && forall c | c in ToMap(rec.delegations) :: ToMap(rec.delegations)[c] >= MIN_DELEGATION
  }

  /** No account is both candidate and delegator, and the pallet itself delegates nothing. */
  ghost predicate DelegatorsOk(bk: Book) {
    forall d | d in bk.delegators ::
      DelegatorOk(d, bk.delegators[d]) && d !in bk.backing && d != PALLET
  }

  ghost predicate OneRequestEach(l: seq<Request>) {
    forall i, j | 0 <= i < j < |l| :: l[i].delegator != l[j].delegator
  }

  /** A request rests on a live bond: a revocation takes all of it, a decrease leaves the minimum. */
  ghost predicate Backed(r: Request, bond: Option<Balance>) {
    match bond
    case None => false
    case Some(a) =>
      match r.action
      case Revoke(x) => x == a
      case Decrease(x) => x + MIN_DELEGATION <= a
  }

  ghost predicate RequestsOk(bk: Book) {
    && (forall c | c in bk.requests :: OneRequestEach(bk.requests[c]))
    && (forall c, r | c in bk.requests && r in bk.requests[c] :: Backed(r, Lookup(BackersOf(bk, c), r.delegator)))
  }

  /** `lessTotal` is the sum of the delegator's pending amounts over all candidates. */
  ghost predicate LessOk(bk: Book) {
    forall d | d in bk.delegators :: bk.delegators[d].lessTotal == Sum(Pending(bk.requests, d))
  }

  ghost predicate BookOk(bk: Book) {
    Mirror(bk) && DelegatorsOk(bk) && RequestsOk(bk) && LessOk(bk)
  }

  // The changes

  ghost function Joined(ds: map<Account, Delegator>, d: Account, x: Bond): Delegator {
    if d in ds then
      ds[d].(delegations := InsertByOwner(ds[d].delegations, x), total := ds[d].total + x.amount)
    else Delegator(d, [x], x.amount, 0)
  }

  /** A new delegation. */
  ghost function Place(bk: Book, c: Account, d: Account, a: Balance): Book
    requires c in bk.backing
  {
    bk.(backing := bk.backing[c := With(bk.backing[c], d, a)],
    delegators := bk.delegators[d := Joined(bk.delegators, d, Bond(c, a))])
  }

  ghost function Parted(rec: Delegator, c: Account, pending: Balance): Delegator {
    rec.(delegations := Without(rec.delegations, c),
    total := SatSub(rec.total, AmountOf(rec.delegations, c)),
    lessTotal := SatSub(rec.lessTotal, pending))
  }

  ghost function Store(ds: map<Account, Delegator>, rec: Delegator): map<Account, Delegator> {
    if rec.delegations == [] then ds - {rec.id} else ds[rec.id := rec]
  }

  ghost function Forget(rq: map<Account, seq<Request>>, c: Account, d: Account): map<Account, seq<Request>> {
    if c in rq then rq[c := DropRequest(rq[c], d)] else rq
  }

  /** A delegation ends: revoked, kicked, or returned when the candidate exits. */
  ghost function Release(bk: Book, c: Account, d: Account): Book
    requires c in bk.backing && d in bk.delegators
  {
    Book(bk.backing[c := bk.backing[c] - {d}],
         Store(bk.delegators, Parted(bk.delegators[d], c, PendingIn(RequestsOf(bk.requests, c), d))),
         Forget(bk.requests, c, d))
  }

  ghost function Revised(rec: Delegator, c: Account, a: Balance): Delegator {
    rec.(delegations := Revalue(rec.delegations, c, a),
    total := SatSub(rec.total, AmountOf(rec.delegations, c)) + a)
  }

  /** A delegation changes its amount. */
  ghost function Revise(bk: Book, c: Account, d: Account, a: Balance): Book
    requires c in bk.backing && d in bk.delegators
  {
    bk.(backing := bk.backing[c := With(bk.backing[c], d, a)],
    delegators := bk.delegators[d := Revised(bk.delegators[d], c, a)])
  }

  /** A request is scheduled. */
  ghost function Ask(bk: Book, c: Account, r: Request): Book
    requires r.delegator in bk.delegators
  {
    var rec := bk.delegators[r.delegator];
    bk.(requests := bk.requests[c := RequestsOf(bk.requests, c) + [r]],
    delegators := bk.delegators[r.delegator := rec.(lessTotal := rec.lessTotal + r.action.amount)])
  }

  /** A request is taken back. */
  ghost function Withdraw(bk: Book, c: Account, d: Account): Book
    requires d in bk.delegators
  {
    var rec := bk.delegators[d];
    bk.(requests := Forget(bk.requests, c, d),
    delegators := bk.delegators[d := rec.(lessTotal :=
    SatSub(rec.lessTotal, PendingIn(RequestsOf(bk.requests, c), d)))])
  }

  ghost function Open(bk: Book, c: Account): Book {
    bk.(backing := bk.backing[c := map[]])
  }

  ghost function Close(bk: Book, c: Account): Book {
    bk.(backing := bk.backing - {c}, requests := bk.requests - {c})
  }

  // Requests and pending amounts

  lemma {:induction false} NoRequestNoPending(l: seq<Request>, d: Account)
    requires !HasRequest(l, d)
    ensures PendingIn(l, d) == 0 && DropRequest(l, d) == l
  {
    if l != [] {
      assert l[0] in l && l == [l[0]] + l[1..];
      NoRequestNoPending(l[1..], d);
    }
  }

  lemma {:induction false} DropRequestHolds(l: seq<Request>, d: Account)
    requires OneRequestEach(l)
    ensures OneRequestEach(DropRequest(l, d))
    ensures forall r :: r in DropRequest(l, d) <==> r in l && r.delegator != d
    ensures PendingIn(DropRequest(l, d), d) == 0
  {
    if l != [] {
      assert l == [l[0]] + l[1..];
      if l[0].delegator == d {
        assert !HasRequest(l[1..], d) by {
          forall r | r in l[1..]
            ensures r.delegator != d
          {
            var i :| 0 <= i < |l[1..]| && l[1..][i] == r;
            assert l[i + 1] == r;
          }
        }
        NoRequestNoPending(l[1..], d);
      } else {
        DropRequestHolds(l[1..], d);
        forall r | r in DropRequest(l[1..], d)
          ensures r.delegator != l[0].delegator
        {
          var i :| 0 <= i < |l[1..]| && l[1..][i] == r;
          assert l[i + 1] == r;
        }
      }
    }
  }

  lemma {:induction false} DropRequestOthers(l: seq<Request>, d: Account, e: Account)
    requires d != e
    ensures PendingIn(DropRequest(l, d), e) == PendingIn(l, e)
  {
    if l != [] && l[0].delegator != d {
      DropRequestOthers(l[1..], d, e);
    }
  }

  lemma {:induction false} PendingInAppend(l: seq<Request>, r: Request, d: Account)
    ensures PendingIn(l + [r], d) ==
            if HasRequest(l, d) then PendingIn(l, d) else if r.delegator == d then r.action.amount else 0
  {
    if l == [] {
      assert l + [r] == [r];
    } else {
      assert (l + [r])[1..] == l[1..] + [r];
      assert l[0] in l && l == [l[0]] + l[1..];
      PendingInAppend(l[1..], r, d);
    }
  }

  lemma {:induction false} PendingInIs(l: seq<Request>, r: Request)
    requires OneRequestEach(l) && r in l
    ensures PendingIn(l, r.delegator) == r.action.amount
  {
    if l[0] != r {
      assert l == [l[0]] + l[1..];
      PendingInIs(l[1..], r);
      var i :| 0 <= i < |l| && l[i] == r;
    }
  }

  lemma {:induction false} DropRequestAt(l: seq<Request>, d: Account, i: nat)
    requires i < |l| && l[i].delegator == d
    requires forall k | 0 <= k < i :: l[k].delegator != d
    ensures DropRequest(l, d) == l[..i] + l[i + 1..]
    ensures PendingIn(l, d) == l[i].action.amount
  {
    if i > 0 {
      DropRequestAt(l[1..], d, i - 1);
      assert l[1..][..i - 1] == l[1..i];
      assert l[..i] == [l[0]] + l[1..i];
    }
  }

  /** The position of the request of `d`, if there is one. */
  method PositionOf(l: seq<Request>, d: Account) returns (position: Option<nat>)
    ensures position.None? <==> !HasRequest(l, d)
    ensures position.Some? ==> position.value < |l| && l[position.value].delegator == d
    ensures position.Some? ==> forall k | 0 <= k < position.value :: l[k].delegator != d
  {
    for i := 0 to |l|
      invariant forall k | 0 <= k < i :: l[k].delegator != d
    {
      if l[i].delegator == d {
        assert l[i] in l;
        return Some(i);
      }
    }
    return None;
  }
}
