/**
 Cyclic stream-id allocation (StreamManager.allocateStreamId): 32-bit ids, 0 never used.
 */
module StreamIds {

  import opened Options

  const MAX_ID := 0xffff_ffff

  predicate IsId(id: int) {
    1 <= id <= MAX_ID
  }

  /** The id k places after `id` in cyclic order. */
  function After(id: int, k: nat): (r: int)
    requires IsId(id)
    ensures IsId(r)
  {
    (id - 1 + k) % MAX_ID + 1
  }

  /** The first k ids from `next` on are all in use. */
  ghost predicate AllUsed(used: set<int>, next: int, k: nat)
    requires IsId(next)
  {
    forall j :: 0 <= j < k ==> After(next, j) in used
  }

  /** `id` is the first free id from `next` on, after k used ones. */
  ghost predicate FirstFree(used: set<int>, next: int, id: int, k: nat)
    requires IsId(next)
  {
    k < MAX_ID && AllUsed(used, next, k) && id == After(next, k) && id !in used
  }

  lemma AfterStep(id: int, k: nat)
    requires IsId(id)
    ensures After(id, k + 1) == if After(id, k) >= MAX_ID then 1 else After(id, k) + 1
    ensures After(id, 0) == id && After(id, MAX_ID) == id
  {
    var m := id - 1 + k;
    assert m == MAX_ID * (m / MAX_ID) + m % MAX_ID;
    if m % MAX_ID + 1 == MAX_ID {
      assert m + 1 == MAX_ID * (m / MAX_ID + 1);
    } else {
      assert m + 1 == MAX_ID * (m / MAX_ID) + (m % MAX_ID + 1);
    }
  }

  /** Every id is at some distance below MAX_ID from every other. */
  lemma Reach(from: int, id: int)
    requires IsId(from) && IsId(id)
    ensures var k := if from <= id then id - from else id - from + MAX_ID;
            0 <= k < MAX_ID && After(from, k) == id
  {
  }

  /** A full cycle of used ids is every id. */
  lemma FullCycle(used: set<int>, next: int)
    requires IsId(next)
    ensures AllUsed(used, next, MAX_ID) <==> forall id :: IsId(id) ==> id in used
  {
    if AllUsed(used, next, MAX_ID) {
      forall id | IsId(id)
        ensures id in used
      {
        Reach(next, id);
        var k := if next <= id then id - next else id - next + MAX_ID;
        assert After(next, k) in used;
      }
    }
  }

  /** The first free id is unique. */
  lemma FirstFreeUnique(used: set<int>, next: int, id: int, k: nat, id': int, k': nat)
    requires IsId(next) && FirstFree(used, next, id, k) && FirstFree(used, next, id', k')
    ensures id == id' && k == k'
  {
  }

  /** How many used ids stand before the first free one, if there is a free one. */
  function Scan(used: set<int>, next: int, k: nat): (r: Option<nat>)
    requires IsId(next) && k <= MAX_ID && AllUsed(used, next, k)
    ensures r.Some? ==> FirstFree(used, next, After(next, r.value), r.value)
    ensures r.None? ==> AllUsed(used, next, MAX_ID)
    decreases MAX_ID - k
  {
    if k == MAX_ID then None
    else if After(next, k) !in used then Some(k)
    else Scan(used, next, k + 1)
  }

  /** No id is found exactly when every id is in use; and the one found is the first free one. */
  lemma ScanIsFirstFree(used: set<int>, next: int, id: int, k: nat)
    requires IsId(next)
    ensures Scan(used, next, 0).None? <==> forall i :: IsId(i) ==> i in used
    ensures FirstFree(used, next, id, k) <==> Scan(used, next, 0) == Some(k) && id == After(next, k)
  {
    FullCycle(used, next);
    if FirstFree(used, next, id, k) && Scan(used, next, 0).Some? {
      var j := Scan(used, next, 0).value;
      FirstFreeUnique(used, next, id, k, After(next, j), j);
    }
  }

  // ---------------------------------------------------------------------------
  // Fresh ids before the first wrap-around
  // ---------------------------------------------------------------------------

  // The table's keys and the next id to try.
  datatype Ids = Ids(used: set<int>, next: int)

  datatype Op = Allocate | Close(id: int)

  predicate Valid(m: Ids) {
    IsId(m.next)
  }

  /** One operation, and the id it gave out, if any. */
  function Apply(m: Ids, op: Op): (r: (Ids, Option<int>))
    requires Valid(m)
    ensures Valid(r.0)
  {
    match op
    case Close(id) => (m.(used := m.used - {id}), None)
    case Allocate =>
      match Scan(m.used, m.next, 0)
      case None => (m, None)
      case Some(k) =>
        var id := After(m.next, k);
        (Ids(m.used + {id}, After(m.next, k + 1)), Some(id))
  }

  /** The ids given out by a run, in order. */
  function GivenOut(m: Ids, ops: seq<Op>): seq<int>
    requires Valid(m)
    decreases |ops|
  {
    if ops == [] then []
    else
      var (m', id) := Apply(m, ops[0]);
      (if id.Some? then [id.value] else []) + GivenOut(m', ops[1..])
  }

  function Allocations(ops: seq<Op>): nat {
    if ops == [] then 0 else (if ops[0].Allocate? then 1 else 0) + Allocations(ops[1..])
  }

  /** Only ids below `next` have ever been given out. */
  predicate NotWrapped(m: Ids) {
    forall id :: id in m.used ==> 1 <= id < m.next
  }

  /** A closed id is free again, an allocated one is not, and no other changes. */
  lemma OnlyItsOwn(m: Ids, op: Op)
    requires Valid(m)
    ensures var (m', given) := Apply(m, op);
            && (op.Close? ==>
                  given.None? && op.id !in m'.used && forall id :: id != op.id ==> (id in m'.used <==> id in m.used))
            && (op.Allocate? && given.Some? ==>
                  given.value !in m.used && given.value in m'.used
                  && forall id :: id != given.value ==> (id in m'.used <==> id in m.used))
            && (op.Allocate? ==> (given.None? <==> forall id :: IsId(id) ==> id in m.used))
  {
    ScanIsFirstFree(m.used, m.next, m.next, 0);
  }

  lemma FreshNext(m: Ids)
    requires Valid(m) && NotWrapped(m)
    ensures Scan(m.used, m.next, 0) == Some(0) && After(m.next, 0) == m.next
  {
    AfterStep(m.next, 0);
  }

  /**
   Before the wrap-around the k-th allocation returns k, whatever is closed in between: no
   id comes twice.
   */
  lemma {:induction false} FreshIds(m: Ids, ops: seq<Op>)
    requires Valid(m) && NotWrapped(m) && m.next + Allocations(ops) <= MAX_ID + 1
    ensures GivenOut(m, ops) == seq(Allocations(ops), i requires 0 <= i => m.next + i)
    decreases |ops|
  {
    if ops != [] {
      var (m', id) := Apply(m, ops[0]);
      FreshNext(m);
      AfterStep(m.next, 0);
      if m'.next == m.next || m'.next == m.next + 1 {
        FreshIds(m', ops[1..]);
      } else {
        NoMoreAllocations(m', ops[1..]);
      }
    }
  }

  lemma {:induction false} NoMoreAllocations(m: Ids, ops: seq<Op>)
    requires Valid(m) && Allocations(ops) == 0
    ensures GivenOut(m, ops) == []
    decreases |ops|
  {
    if ops != [] {
      NoMoreAllocations(Apply(m, ops[0]).0, ops[1..]);
    }
  }

  /** From a fresh manager: 1, 2, 3, ... up to the last id. */
  lemma FromFreshManager(ops: seq<Op>)
    requires Allocations(ops) <= MAX_ID
    ensures GivenOut(Ids({}, 1), ops) == seq(Allocations(ops), i requires 0 <= i => 1 + i)
  {
    FreshIds(Ids({}, 1), ops);
  }
}
