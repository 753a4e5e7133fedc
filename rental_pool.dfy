/**
 * The resource rental pool exercised by tests/e2e/resourceRentalPool.spec.ts, kept at the
 * level of its observable counters: rentals are either available (ready to hand out) or
 * borrowed (handed out), the size is their sum and never exceeds the replica maximum.
 * Signing an agreement with a provider is a parameter: it succeeds, is aborted or times out.
 */
module RentalPools {
  import opened Wrappers

  type RentalId = nat

  datatype SignOutcome = Signed | SignAborted | SignTimedOut

  datatype PoolError =
    | AgreementAborted     // "The signing of the agreement has been aborted"
    | AgreementTimeout     // "Could not sign any agreement in time"
    | NotBorrowed(rental: RentalId)

  /** `acquire` either hands out a rental, waits for a release (the pool is full) or fails. */
  datatype AcquireResult = Acquired(rental: RentalId) | MustWait | AcquireFailed(error: PoolError)

  predicate Distinct(s: seq<RentalId>)
  {
    forall i, j :: 0 <= i < j < |s| ==> s[i] != s[j]
  }

  function ErrorMessage(e: PoolError): string
  {
    match e
    case AgreementAborted => "The signing of the agreement has been aborted"
    case AgreementTimeout => "Could not sign any agreement in time"
    case NotBorrowed(_) => "The resource rental is not borrowed from this pool"
  }

  /** The two signing failures are told apart by their messages. */
  lemma SigningFailuresDistinct()
    ensures ErrorMessage(AgreementAborted) != ErrorMessage(AgreementTimeout)
  {
    assert ErrorMessage(AgreementAborted) == "The signing of the agreement has been aborted";
    assert ErrorMessage(AgreementTimeout) == "Could not sign any agreement in time";
  }

  /** Moving one element between two disjoint sets keeps them disjoint and keeps their total. */
  lemma MoveKeepsTotal(from: set<RentalId>, to: set<RentalId>, x: RentalId)
    requires x in from && from !! to
    ensures (from - {x}) !! (to + {x})
    ensures |from - {x}| + |to + {x}| == |from| + |to|
  {
    assert x !in to;
  }

  lemma DisjointUnionSize(a: set<RentalId>, b: set<RentalId>)
    requires a !! b
    ensures |a + b| == |a| + |b|
  {
  }

  /** The element drained next is not among those already destroyed. */
  lemma FreshInDrained(d0: seq<RentalId>, d: seq<RentalId>, all: set<RentalId>, remaining: set<RentalId>, x: RentalId)
    requires x in remaining && remaining <= all && |d0| <= |d| && d[..|d0|] == d0
    requires forall k :: 0 <= k < |d0| ==> d0[k] !in all
    requires forall k :: |d0| <= k < |d| ==> d[k] !in remaining
    ensures forall k :: 0 <= k < |d| ==> d[k] != x
  {
    forall k | 0 <= k < |d|
      ensures d[k] != x
    {
      if k < |d0| {
        assert d[k] == d0[k];
      }
    }
  }

  /** One drain step: `x` is destroyed after the ones before it. */
  lemma AppendDrained(d0: seq<RentalId>, d: seq<RentalId>, all: set<RentalId>, remaining: set<RentalId>, x: RentalId)
    requires x in remaining && remaining <= all && |d0| <= |d| && d[..|d0|] == d0
    requires forall k :: |d0| <= k < |d| ==> d[k] in all && d[k] !in remaining
    requires forall y :: y in all && y !in remaining ==> y in d[|d0|..]
    requires Distinct(d) && forall k :: 0 <= k < |d| ==> d[k] != x
    ensures (d + [x])[..|d0|] == d0
    ensures forall k :: |d0| <= k < |d| + 1 ==> (d + [x])[k] in all && (d + [x])[k] !in remaining - {x}
    ensures forall y :: y in all && y !in remaining - {x} ==> y in (d + [x])[|d0|..]
    ensures Distinct(d + [x])
  {
    var r := d + [x];
    assert r[..|d0|] == d[..|d0|];
    assert r[|d0|..] == d[|d0|..] + [x];
  }

  /**
   * The destruction loop of `drainAndClear`: every rental of `all` is appended once to the
   * rentals destroyed before, `d0`.
   */
  method DestroyAll(d0: seq<RentalId>, all: set<RentalId>, bound: RentalId) returns (d: seq<RentalId>)
    requires Distinct(d0) && forall k :: 0 <= k < |d0| ==> d0[k] !in all && d0[k] < bound
    requires forall r :: r in all ==> r < bound
    ensures |d| == |d0| + |all| && d[..|d0|] == d0
    ensures forall r :: r in all <==> r in d[|d0|..]
    ensures forall k :: 0 <= k < |d| ==> d[k] < bound
    ensures Distinct(d)
  {
    var remaining := all;
    d := d0;
    while remaining != {}
      invariant remaining <= all
      invariant |d| == |d0| + |all| - |remaining|
      invariant d[..|d0|] == d0
      invariant forall k :: |d0| <= k < |d| ==> d[k] in all && d[k] !in remaining
      invariant forall r :: r in all && r !in remaining ==> r in d[|d0|..]
      invariant forall k :: 0 <= k < |d| ==> d[k] < bound
      invariant Distinct(d)
      decreases |remaining|
    {
      var x :| x in remaining;
      FreshInDrained(d0, d, all, remaining, x);
      AppendDrained(d0, d, all, remaining, x);
      d := d + [x];
      remaining := remaining - {x};
    }
    forall r | r in d[|d0|..]
      ensures r in all
    {
      var k :| 0 <= k < |d[|d0|..]| && d[|d0|..][k] == r;
      assert d[|d0| + k] == r;
    }
  }

  /** The number of signing attempts that succeed. */
  function CountSigned(signs: seq<SignOutcome>): nat
  {
    if |signs| == 0 then 0
    else CountSigned(signs[..|signs| - 1]) + (if signs[|signs| - 1] == Signed then 1 else 0)
  }

  lemma {:induction false} CountSignedPrefix(signs: seq<SignOutcome>, i: nat)
    requires i <= |signs|
    ensures CountSigned(signs[..i]) <= CountSigned(signs)
    decreases |signs| - i
  {
    if i < |signs| {
      var n := |signs| - 1;
      assert signs[..n][..i] == signs[..i];
      CountSignedPrefix(signs[..n], i);
    } else {
      assert signs[..i] == signs;
    }
  }

  class ResourceRentalPool {
    const minSize: nat
    const maxSize: nat
    var available: set<RentalId>
    var borrowed: set<RentalId>
    /** The rentals destroyed so far, in order (the "destroyed" events). */
    var destroyed: seq<RentalId>
    /** Identities not yet used by any rental. */
    var nextId: RentalId

    ghost predicate Valid()
      reads this
    {
      minSize <= maxSize &&
      available !! borrowed &&
      |available| + |borrowed| <= maxSize &&
      (forall r :: r in available ==> r < nextId) &&
      (forall r :: r in borrowed ==> r < nextId) &&
      (forall i :: 0 <= i < |destroyed| ==> destroyed[i] < nextId && destroyed[i] !in available && destroyed[i] !in borrowed) &&
      Distinct(destroyed)
    }

    constructor (minSize: nat, maxSize: nat)
      requires minSize <= maxSize
      ensures Valid()
      ensures this.minSize == minSize && this.maxSize == maxSize
      ensures available == {} && borrowed == {} && destroyed == [] && nextId == 0
    {
      this.minSize := minSize;
      this.maxSize := maxSize;
      available := {};
      borrowed := {};
      destroyed := [];
      nextId := 0;
    }

    function GetAvailableSize(): (n: nat)
      reads this
      ensures n == |available|
    {
      |available|
    }

    function GetBorrowedSize(): (n: nat)
      reads this
      ensures n == |borrowed|
    {
      |borrowed|
    }

    function GetSize(): (n: nat)
      requires Valid()
      reads this
      ensures n == |available + borrowed| && n <= maxSize
    {
      DisjointUnionSize(available, borrowed);
      |available| + |borrowed|
    }

    /** A fresh rental, once its agreement is signed; it joins `target`. */
    method Rent() returns (r: RentalId)
      requires Valid() && GetSize() < maxSize
      modifies this
      ensures r == old(nextId) && nextId == r + 1
      ensures available == old(available) && borrowed == old(borrowed) && destroyed == old(destroyed)
      ensures r !in available && r !in borrowed && forall i :: 0 <= i < |destroyed| ==> destroyed[i] != r
      ensures Valid()
    {
      r := nextId;
      nextId := nextId + 1;
    }

    /**
     * `acquire`: an available rental is handed out first; otherwise a new one is rented
     * while the pool is below its maximum, and a full pool waits for a release.
     */
    method Acquire(sign: SignOutcome) returns (r: AcquireResult)
      requires Valid()
      modifies this
      ensures Valid()
      ensures destroyed == old(destroyed)
      ensures old(available) != {} ==>
                r.Acquired? && r.rental in old(available) &&
                available == old(available) - {r.rental} && borrowed == old(borrowed) + {r.rental}
      ensures old(available) == {} && old(GetSize()) < maxSize && sign == Signed ==>
                r == Acquired(old(nextId)) && available == {} && borrowed == old(borrowed) + {r.rental}
      ensures old(available) == {} && old(GetSize()) < maxSize && sign == SignAborted ==>
                r == AcquireFailed(AgreementAborted) && available == old(available) && borrowed == old(borrowed)
      ensures old(available) == {} && old(GetSize()) < maxSize && sign == SignTimedOut ==>
                r == AcquireFailed(AgreementTimeout) && available == old(available) && borrowed == old(borrowed)
      ensures old(available) == {} && old(GetSize()) == maxSize ==>
                r == MustWait && available == old(available) && borrowed == old(borrowed)
      ensures r.Acquired? ==> r.rental in borrowed && GetSize() == old(GetSize()) + (if old(available) == {} then 1 else 0)
    {
      if available != {} {
        var x :| x in available;
        Lend(x);
        return Acquired(x);
      }
      if |available| + |borrowed| == maxSize {
        return MustWait;
      }
      match sign
      case SignAborted =>
        r := AcquireFailed(AgreementAborted);
      case SignTimedOut =>
        r := AcquireFailed(AgreementTimeout);
      case Signed =>
        var x := RentBorrowed();
        r := Acquired(x);
    }

    /** An available rental is handed out. */
    method Lend(x: RentalId)
      requires Valid() && x in available
      modifies this
      ensures Valid()
      ensures available == old(available) - {x} && borrowed == old(borrowed) + {x}
      ensures destroyed == old(destroyed) && nextId == old(nextId)
      ensures GetSize() == old(GetSize())
    {
      MoveKeepsTotal(available, borrowed, x);
      available := available - {x};
      borrowed := borrowed + {x};
    }

    /** A newly signed rental is handed out at once. */
    method RentBorrowed() returns (x: RentalId)
      requires Valid() && GetSize() < maxSize
      modifies this
      ensures Valid()
      ensures x == old(nextId) && available == old(available) && borrowed == old(borrowed) + {x}
      ensures destroyed == old(destroyed)
      ensures GetSize() == old(GetSize()) + 1
    {
      x := Rent();
      borrowed := borrowed + {x};
    }

    /** `release`: a borrowed rental becomes available again; the size does not change. */
    method Release(rental: RentalId) returns (r: Outcome<PoolError>)
      requires Valid()
      modifies this
      ensures Valid()
      ensures destroyed == old(destroyed) && nextId == old(nextId)
      ensures rental in old(borrowed) ==> r == Pass && borrowed == old(borrowed) - {rental} && available == old(available) + {rental}
      ensures rental !in old(borrowed) ==> r == Fail(NotBorrowed(rental)) && borrowed == old(borrowed) && available == old(available)
      ensures GetSize() == old(GetSize())
    {
      if rental !in borrowed {
        return Fail(NotBorrowed(rental));
      }
      MoveKeepsTotal(borrowed, available, rental);
      borrowed := borrowed - {rental};
      available := available + {rental};
      r := Pass;
    }

    /** `destroy`: a borrowed rental is terminated and leaves the pool for good. */
    method Destroy(rental: RentalId) returns (r: Outcome<PoolError>)
      requires Valid()
      modifies this
      ensures Valid()
      ensures available == old(available) && nextId == old(nextId)
      ensures rental in old(borrowed) ==> r == Pass && borrowed == old(borrowed) - {rental} && destroyed == old(destroyed) + [rental]
      ensures rental !in old(borrowed) ==> r == Fail(NotBorrowed(rental)) && borrowed == old(borrowed) && destroyed == old(destroyed)
    {
      if rental !in borrowed {
        return Fail(NotBorrowed(rental));
      }
      borrowed := borrowed - {rental};
      destroyed := destroyed + [rental];
      r := Pass;
    }

    /** `drainAndClear`: every rental, available or borrowed, is destroyed exactly once. */
    method DrainAndClear()
      requires Valid()
      modifies this
      ensures Valid()
      ensures available == {} && borrowed == {} && nextId == old(nextId)
      ensures |destroyed| == |old(destroyed)| + old(GetSize())
      ensures destroyed[..|old(destroyed)|] == old(destroyed)
      ensures forall r :: r in old(available) || r in old(borrowed) <==> r in destroyed[|old(destroyed)|..]
    {
      DisjointUnionSize(available, borrowed);
      var d := DestroyAll(destroyed, available + borrowed, nextId);
      destroyed := d;
      available := {};
      borrowed := {};
    }

    /**
     * `ready`: rentals are signed, one per outcome, until the pool holds its minimum; it
     * succeeds exactly when the minimum is reached.
     */
    method Ready(signs: seq<SignOutcome>) returns (r: Outcome<PoolError>)
      requires Valid()
      modifies this
      ensures Valid()
      ensures borrowed == old(borrowed) && destroyed == old(destroyed) && old(available) <= available
      ensures r.Pass? <==> GetSize() >= minSize
      ensures old(GetSize()) >= minSize ==> available == old(available)
      ensures r.Pass? && old(GetSize()) <= minSize ==> GetSize() == minSize
      ensures old(GetSize()) <= minSize ==>
                GetSize() == (if old(GetSize()) + CountSigned(signs) < minSize then old(GetSize()) + CountSigned(signs) else minSize)
    {
      var i := 0;
      while i < |signs| && |available| + |borrowed| < minSize
        invariant 0 <= i <= |signs|
        invariant Valid()
        invariant borrowed == old(borrowed) && destroyed == old(destroyed) && old(available) <= available
        invariant old(GetSize()) >= minSize ==> available == old(available)
        invariant old(GetSize()) <= minSize ==> GetSize() <= minSize
        invariant old(GetSize()) <= minSize ==> GetSize() == old(GetSize()) + CountSigned(signs[..i])
        decreases |signs| - i
      {
        assert signs[..i + 1][..i] == signs[..i];
        if signs[i] == Signed {
          var x := Rent();
          available := available + {x};
        }
        i := i + 1;
      }
      CountSignedPrefix(signs, i);
      if i == |signs| {
        assert signs[..i] == signs;
      }
      if |available| + |borrowed| < minSize {
        r := Fail(if i > 0 && signs[i - 1] == SignAborted then AgreementAborted else AgreementTimeout);
      } else {
        r := Pass;
      }
    }
  }

  /** A replicas-1 pool: the first acquire leaves one borrowed and none available. */
  method FirstAcquire() returns (size: nat, availableSize: nat, borrowedSize: nat)
    ensures size == 1 && availableSize == 0 && borrowedSize == 1
  {
    var pool := new ResourceRentalPool(1, 1);
    var rental := pool.Acquire(Signed);
    size, availableSize, borrowedSize := pool.GetSize(), pool.GetAvailableSize(), pool.GetBorrowedSize();
  }

  /**
   * A replicas-2 pool made ready holds two available rentals; each acquire moves one to
   * borrowed and each release moves it back, the size staying 2. The steps record
   * (size, available, borrowed) after ready, two acquires and two releases.
   */
  method ReadyThenBorrowAndReturn() returns (steps: seq<(nat, nat, nat)>)
    ensures steps == [(2, 2, 0), (2, 1, 1), (2, 0, 2), (2, 1, 1), (2, 2, 0)]
  {
    var pool := new ResourceRentalPool(2, 2);
    var ready := pool.Ready([Signed, Signed]);
    assert CountSigned([Signed, Signed]) == 2 by {
      assert [Signed, Signed][..1] == [Signed];
      assert [Signed][..0] == [];
    }
    steps := [(pool.GetSize(), pool.GetAvailableSize(), pool.GetBorrowedSize())];
    assert steps == [(2, 2, 0)];
    var a1 := pool.Acquire(Signed);
    steps := steps + [(pool.GetSize(), pool.GetAvailableSize(), pool.GetBorrowedSize())];
    assert steps == [(2, 2, 0), (2, 1, 1)];
    var a2 := pool.Acquire(Signed);
    steps := steps + [(pool.GetSize(), pool.GetAvailableSize(), pool.GetBorrowedSize())];
    assert steps == [(2, 2, 0), (2, 1, 1), (2, 0, 2)];
    assert a1.rental in pool.borrowed;
    var back1 := pool.Release(a1.rental);
    steps := steps + [(pool.GetSize(), pool.GetAvailableSize(), pool.GetBorrowedSize())];
    assert steps == [(2, 2, 0), (2, 1, 1), (2, 0, 2), (2, 1, 1)];
    assert a2.rental in pool.borrowed;
    var back2 := pool.Release(a2.rental);
    steps := steps + [(pool.GetSize(), pool.GetAvailableSize(), pool.GetBorrowedSize())];
  }

  /** A released rental is what the next acquire hands out. */
  method ReleaseThenReuse() returns (first: AcquireResult, second: AcquireResult)
    ensures first.Acquired? && second == first
  {
    var pool := new ResourceRentalPool(1, 1);
    first := pool.Acquire(Signed);
    var released := pool.Release(first.rental);
    second := pool.Acquire(SignTimedOut);
  }

  /** Released rentals are still destroyed by drainAndClear, each once. */
  method ReleaseThenDrain() returns (destroyed: seq<RentalId>, r1: RentalId, r2: RentalId)
    ensures r1 != r2 && |destroyed| == 2 && r1 in destroyed && r2 in destroyed
  {
    var pool := new ResourceRentalPool(2, 2);
    var a1 := pool.Acquire(Signed);
    var a2 := pool.Acquire(Signed);
    r1, r2 := a1.rental, a2.rental;
    var x := pool.Release(r1);
    var y := pool.Release(r2);
    pool.DrainAndClear();
    destroyed := pool.destroyed;
  }

  /** A destroy followed by drainAndClear: both succeed, and a second drain changes nothing. */
  method DestroyThenDrain() returns (destroyedOnce: Outcome<PoolError>, before: seq<RentalId>, after: seq<RentalId>)
    ensures destroyedOnce == Pass && before == after && |after| == 1
  {
    var pool := new ResourceRentalPool(1, 1);
    var a := pool.Acquire(Signed);
    destroyedOnce := pool.Destroy(a.rental);
    pool.DrainAndClear();
    before := pool.destroyed;
    pool.DrainAndClear();
    after := pool.destroyed;
  }

  /**
   * Many acquirers of a pool with replicas {min: 1, max}: the size observed after each
   * acquisition never exceeds the maximum, and reaches it once there are enough acquirers.
   */
  method AcquireMany(maxSize: nat, acquirers: nat) returns (sizes: seq<nat>)
    requires 1 <= maxSize
    ensures |sizes| == (if acquirers < maxSize then acquirers else maxSize)
    ensures forall k :: 0 <= k < |sizes| ==> sizes[k] <= maxSize
    ensures acquirers >= maxSize ==> sizes[|sizes| - 1] == maxSize
  {
    var pool := new ResourceRentalPool(1, maxSize);
    sizes := [];
    var i := 0;
    while i < acquirers
      invariant i <= acquirers
      invariant pool.Valid() && pool.maxSize == maxSize && pool.available == {}
      invariant pool.GetSize() == |sizes| && |sizes| <= maxSize
      invariant |sizes| == (if i < maxSize then i else maxSize)
      invariant forall k :: 0 <= k < |sizes| ==> sizes[k] == k + 1
      decreases acquirers - i
    {
      var r := pool.Acquire(Signed);
      if r.Acquired? {
        sizes := sizes + [pool.GetSize()];
      }
      i := i + 1;
    }
  }
}
