/** The visitor pool of the server: acquiring a visitor (`RandomVisitor`) and one tick of
    the rotation sweep (`RotateVisitors`). Fetching a fresh visitor context is an outcome
    handed in (`Some` on success, `None` on failure), and so is the index `rand.IntN` draws. */
module Visitors {
  import opened Base
  import opened Models

  /** The state `RandomVisitor` reads and writes: the pool and the fault counter. */
  datatype Pool = Pool(visitors: seq<Visitor>, faultCount: int)

  /** A fetch is tried while the pool is below its maximum and fewer than twice that many
      fetches have failed. */
  predicate CanFetch(p: Pool, max: int) {
    |p.visitors| < max && p.faultCount < 2 * max
  }

  /** The state every acquire keeps: a pool within its maximum (or empty), a fault counter
      between 0 and twice the maximum, and only visitors whose id can be read. */
  predicate Bounded(p: Pool, max: int) {
    && (|p.visitors| <= max || p.visitors == [])
    && 0 <= p.faultCount
    && (p.faultCount <= 2 * max || p.faultCount == 0)
    && forall i :: 0 <= i < |p.visitors| ==> HasClient(p.visitors[i])
  }

  datatype Acquired = Acquired(pool: Pool, result: Result<Visitor>)

  /** What a draw `pick` from `rand.IntN(len)` can be. */
  predicate ValidPick(p: Pool, pick: nat) {
    |p.visitors| > 0 ==> pick < |p.visitors|
  }

  /** `RandomVisitor`: when a fetch may be tried and succeeds, the new visitor is appended
      and returned (reading its id for the log panics when it has no client object); when
      it fails the counter goes up; otherwise, or after a failure, a random existing
      visitor is returned, and `rand.IntN(0)` panics on an empty pool. */
  function Acquire(p: Pool, max: int, fetched: Option<Visitor>, pick: nat): (a: Acquired)
    requires ValidPick(p, pick)
    ensures a.pool.faultCount == p.faultCount || a.pool.faultCount == p.faultCount + 1
    ensures a.pool.faultCount == p.faultCount + 1 <==> CanFetch(p, max) && fetched.None?
    ensures a.pool.visitors != p.visitors ==>
              && CanFetch(p, max) && fetched.Some?
              && a.pool.visitors == p.visitors + [fetched.value]
              && a.result == Ok(fetched.value)
    ensures a.pool.faultCount != p.faultCount ==> a.pool.visitors == p.visitors
    ensures a.result.Ok? ==> a.result.value in a.pool.visitors
    ensures a.result.Panic? ==> a.pool.visitors == p.visitors
    ensures a.result.Panic? <==>
              (CanFetch(p, max) && fetched.Some? && !HasClient(fetched.value)) ||
              (p.visitors == [] && !(CanFetch(p, max) && fetched.Some?))
  {
    if CanFetch(p, max) && fetched.Some? then
      if HasClient(fetched.value) then
        Acquired(Pool(p.visitors + [fetched.value], p.faultCount), Ok(fetched.value))
      else
        Acquired(p, Panic("interface conversion: client context is not a map"))
    else
      var q := if CanFetch(p, max) then Pool(p.visitors, p.faultCount + 1) else p;
      if q.visitors == [] then Acquired(q, Panic("invalid argument to IntN"))
      else Acquired(q, Ok(q.visitors[pick]))
  }

  /** An acquire keeps the pool bounded. */
  lemma AcquireKeepsBounded(p: Pool, max: int, fetched: Option<Visitor>, pick: nat)
    requires ValidPick(p, pick) && Bounded(p, max)
    ensures Bounded(Acquire(p, max, fetched, pick).pool, max)
  {
    var a := Acquire(p, max, fetched, pick);
    if a.pool.visitors != p.visitors {
      assert forall i :: 0 <= i < |p.visitors| ==> a.pool.visitors[i] == p.visitors[i];
    }
  }

  // ---------------------------------------------------------------- many acquires

  /** The pool after a run of acquires, one fetch outcome per call (consumed only by calls
      that try a fetch). The returned visitor does not affect the pool, so no draws appear. */
  function Replay(p: Pool, max: int, fetches: seq<Option<Visitor>>): Pool
    decreases |fetches|
  {
    if fetches == [] then p
    else
      var pick := 0;
      Replay(Acquire(p, max, fetches[0], pick).pool, max, fetches[1..])
  }

  /** How many of those calls try a fetch. */
  function FetchAttempts(p: Pool, max: int, fetches: seq<Option<Visitor>>): nat
    decreases |fetches|
  {
    if fetches == [] then 0
    else
      (if CanFetch(p, max) then 1 else 0) + FetchAttempts(Acquire(p, max, fetches[0], 0).pool, max, fetches[1..])
  }

  /** Calls that try a fetch and do not panic: each one grows the pool or the counter. */
  function CountedAttempts(p: Pool, max: int, fetches: seq<Option<Visitor>>): nat
    decreases |fetches|
  {
    if fetches == [] then 0
    else
      var counted := CanFetch(p, max) && !(fetches[0].Some? && !HasClient(fetches[0].value));
      (if counted then 1 else 0) + CountedAttempts(Acquire(p, max, fetches[0], 0).pool, max, fetches[1..])
  }

  /** The fault counter never goes down, and the pool only grows at its end. */
  lemma {:induction false} ReplayMonotone(p: Pool, max: int, fetches: seq<Option<Visitor>>)
    ensures var q := Replay(p, max, fetches);
            q.faultCount >= p.faultCount && |q.visitors| >= |p.visitors| && q.visitors[..|p.visitors|] == p.visitors
    decreases |fetches|
  {
    if fetches != [] {
      var a := Acquire(p, max, fetches[0], 0);
      ReplayMonotone(a.pool, max, fetches[1..]);
      var q := Replay(p, max, fetches);
      assert q.visitors[..|p.visitors|] == q.visitors[..|a.pool.visitors|][..|p.visitors|];
    }
  }

  /** Any run of acquires keeps the pool within its maximum and the counter within twice it. */
  lemma {:induction false} ReplayKeepsBounded(p: Pool, max: int, fetches: seq<Option<Visitor>>)
    requires Bounded(p, max)
    ensures Bounded(Replay(p, max, fetches), max)
    decreases |fetches|
  {
    if fetches != [] {
      AcquireKeepsBounded(p, max, fetches[0], 0);
      ReplayKeepsBounded(Acquire(p, max, fetches[0], 0).pool, max, fetches[1..]);
    }
  }

  /** Once `2·max` fetches have failed, no acquire fetches again and the pool stays fixed. */
  lemma {:induction false} ExhaustedStopsFetching(p: Pool, max: int, fetches: seq<Option<Visitor>>)
    requires p.faultCount >= 2 * max
    ensures FetchAttempts(p, max, fetches) == 0
    ensures Replay(p, max, fetches) == p
    decreases |fetches|
  {
    if fetches != [] {
      ExhaustedStopsFetching(p, max, fetches[1..]);
    }
  }

  /** Over any run, the fetches that do not panic number at most the free places in the
      pool plus the failures still allowed. */
  lemma {:induction false} AttemptsBounded(p: Pool, max: int, fetches: seq<Option<Visitor>>)
    requires Bounded(p, max)
    ensures CountedAttempts(p, max, fetches) <=
              (if |p.visitors| < max then max - |p.visitors| else 0) +
              (if p.faultCount < 2 * max then 2 * max - p.faultCount else 0)
    decreases |fetches|
  {
    if fetches != [] {
      AcquireKeepsBounded(p, max, fetches[0], 0);
      AttemptsBounded(Acquire(p, max, fetches[0], 0).pool, max, fetches[1..]);
    }
  }

  // ---------------------------------------------------------------- rotation

  /** The pool after a sweep; `clock[i]` is the time at which slot `i`'s expiry is checked
      (each check reads the clock afresh, after the fetches for earlier slots). An expired
      slot takes its fetched visitor when the fetch succeeds and keeps the old one when it
      fails; other slots are untouched. */
  function Rotated(visitors: seq<Visitor>, clock: seq<int>, fetches: seq<Option<Visitor>>): (r: seq<Visitor>)
    requires |clock| == |visitors| && |fetches| == |visitors|
    ensures |r| == |visitors|
  {
    seq(|visitors|, i requires 0 <= i < |visitors| =>
      if IsExpired(visitors[i], clock[i]) && fetches[i].Some? then fetches[i].value else visitors[i])
  }

  /** The sweep panics at an expired slot whose visitor, or whose fetched replacement, has no
      client object: the sweep reads the id of both for its log. */
  predicate SweepPanicsAt(visitors: seq<Visitor>, clock: seq<int>, fetches: seq<Option<Visitor>>, i: nat)
    requires |clock| == |visitors| && |fetches| == |visitors| && i < |visitors|
  {
    IsExpired(visitors[i], clock[i]) &&
      (!HasClient(visitors[i]) || (fetches[i].Some? && !HasClient(fetches[i].value)))
  }

  /** A sweep of a pool of readable visitors, whose successful fetches are readable and
      created no earlier than their slot's check, leaves no refetched slot expired at its
      check, and every slot readable. */
  lemma RotatedFresh(visitors: seq<Visitor>, clock: seq<int>, fetches: seq<Option<Visitor>>)
    requires |clock| == |visitors| && |fetches| == |visitors|
    requires forall i :: 0 <= i < |fetches| && fetches[i].Some? ==>
               fetches[i].value.createdAt >= clock[i] && HasClient(fetches[i].value)
    requires forall i :: 0 <= i < |visitors| ==> HasClient(visitors[i])
    ensures var r := Rotated(visitors, clock, fetches);
            && (forall i :: 0 <= i < |r| ==> HasClient(r[i]))
            && (forall i :: 0 <= i < |r| && IsExpired(r[i], clock[i]) ==> fetches[i].None? && r[i] == visitors[i])
  {
  }

  /** The pool state and its operations; `maxVisitorCount` is `Cfg.MaxVisitorCount`. */
  class VisitorPool {
    const maxVisitorCount: int
    var visitors: seq<Visitor>
    var faultCount: int

    function State(): Pool
      reads this
    {
      Pool(visitors, faultCount)
    }

    constructor (maxVisitorCount: int)
      ensures this.maxVisitorCount == maxVisitorCount
      ensures visitors == [] && faultCount == 0
      ensures Bounded(State(), maxVisitorCount)
    {
      this.maxVisitorCount := maxVisitorCount;
      visitors := [];
      faultCount := 0;
    }

    /** `RandomVisitor`; `fetched` is what the fetch would give, `pick` what `rand.IntN` draws. */
    method RandomVisitor(fetched: Option<Visitor>, pick: nat) returns (r: Result<Visitor>)
      requires ValidPick(State(), pick)
      modifies this
      ensures State() == Acquire(old(State()), maxVisitorCount, fetched, pick).pool
      ensures r == Acquire(old(State()), maxVisitorCount, fetched, pick).result
    {
      if |visitors| < maxVisitorCount && faultCount < maxVisitorCount * 2 {
        if fetched.Some? {
          var visitor := fetched.value;
          if !HasClient(visitor) {
            return Panic("interface conversion: client context is not a map");
          }
          var id := VisitorID(visitor);
          visitors := visitors + [visitor];
          return Ok(visitor);
        }
        faultCount := faultCount + 1;
      }
      if |visitors| == 0 {
        return Panic("invalid argument to IntN");
      }
      r := Ok(visitors[pick]);
    }

    /** One tick of `RotateVisitors`; `clock[i]` is the time at which slot `i`'s expiry is
        checked and `fetches[i]` what fetching a replacement for it would give (asked for
        only when the slot has expired). Without a panic the pool becomes `Rotated`; a
        panic stops the sweep at the first slot where `SweepPanicsAt` holds, that slot
        already overwritten when it was the replacement that lacked a client. */
    method Sweep(clock: seq<int>, fetches: seq<Option<Visitor>>) returns (panicked: bool)
      requires |clock| == |visitors| && |fetches| == |visitors|
      modifies this
      ensures faultCount == old(faultCount) && |visitors| == |old(visitors)|
      ensures panicked <==> exists i :: 0 <= i < |old(visitors)| && SweepPanicsAt(old(visitors), clock, fetches, i)
      ensures !panicked ==> visitors == Rotated(old(visitors), clock, fetches)
      ensures forall i :: 0 <= i < |visitors| ==>
                visitors[i] == old(visitors)[i] || visitors[i] == Rotated(old(visitors), clock, fetches)[i]
    {
      if |visitors| == 0 {
        return false;
      }
      ghost var start := visitors;
      for i := 0 to |visitors|
        invariant |visitors| == |start| && faultCount == old(faultCount)
        invariant forall j :: 0 <= j < i ==> !SweepPanicsAt(start, clock, fetches, j)
        invariant visitors[..i] == Rotated(start, clock, fetches)[..i]
        invariant visitors[i..] == start[i..]
      {
        var visitor := visitors[i];
        if IsExpired(visitor, clock[i]) {
          if !HasClient(visitor) {
            assert SweepPanicsAt(start, clock, fetches, i);
            return true;
          }
          var id := VisitorID(visitor);
          if fetches[i].Some? {
            var newVisitor := fetches[i].value;
            visitors := visitors[i := newVisitor];
            if !HasClient(newVisitor) {
              assert SweepPanicsAt(start, clock, fetches, i);
              return true;
            }
          }
        }
        assert visitors[..i + 1] == visitors[..i] + [visitors[i]];
      }
      assert visitors == visitors[..|visitors|];
      return false;
    }
  }
}
