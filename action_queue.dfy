/** The deferred action queue of src/game/action.cpp: a fixed pool of
    slots, the occupied ones threaded into a singly linked list in
    ascending order of scheduled time. `QState` is the pool as a value,
    with the list's slot numbers from the head as `order`; the class
    `Queue` holds the pool in an array and relinks it in place, and each
    of its methods is proved to produce a function of its old state. */
module ActionQueue {
  import opened Objects

  /** kActionQueueLength. */
  const QueueLength: nat := 120

  /** A slot of the pool. `occupied` stands for the non-null action
      pointer; `next` is the number of the next slot in the list, -1 for
      the end. */
  datatype Slot = Slot(
    occupied: bool, actionNum: int, actionToDo: int, scheduledTime: int, next: int,
    subject: Ref, subjectNum: int, subjectId: int,
    direct: Ref, directNum: int, directId: int, offset: Point)

  /** A slot as reset_action_queue leaves it, and as a popped slot is left. */
  const FreeSlot := Slot(false, -1, 0, -1, -1, NullRef, -1, -1, NullRef, -1, -1, Point(0, 0))

  /** What queue_action is asked to store. */
  datatype Request = Request(
    actionNum: int, actionToDo: int, delay: int,
    subject: Ref, subjectNum: int, subjectId: int,
    direct: Ref, directNum: int, directId: int, offset: Point)

  /** The pool, the head's slot number (-1 when the list is empty), and the
      slot numbers in list order. */
  datatype QState = QState(slots: seq<Slot>, first: int, order: seq<nat>)

  // ---------------------------------------------------------------------
  // The invariant

  predicate InPool(order: seq<nat>) {
    forall k :: 0 <= k < |order| ==> order[k] < QueueLength
  }

  predicate Distinct(order: seq<nat>) {
    forall a, b :: 0 <= a < b < |order| ==> order[a] != order[b]
  }

  /** A slot is in the list exactly when it is occupied, and a slot that is
      not in the list is fully cleared. */
  predicate Occupancy(slots: seq<Slot>, order: seq<nat>) {
    (forall i :: 0 <= i < |slots| ==> (slots[i].occupied <==> i in order))
    && (forall i :: 0 <= i < |slots| && !slots[i].occupied ==> slots[i] == FreeSlot)
  }

  function HeadOf(order: seq<nat>): int {
    if |order| == 0 then -1 else order[0]
  }

  function NextOf(order: seq<nat>, k: nat): int {
    if k + 1 < |order| then order[k + 1] else -1
  }

  /** The head and the next links thread the slots in `order`. */
  predicate Linked(slots: seq<Slot>, first: int, order: seq<nat>)
    requires |slots| == QueueLength && InPool(order)
  {
    first == HeadOf(order)
    && forall k {:trigger slots[order[k]]} :: 0 <= k < |order| ==> slots[order[k]].next == NextOf(order, k)
  }

  predicate Sorted(slots: seq<Slot>, order: seq<nat>)
    requires |slots| == QueueLength && InPool(order)
  {
    forall a, b {:trigger slots[order[a]], slots[order[b]]} :: 0 <= a < b < |order| ==>
      slots[order[a]].scheduledTime <= slots[order[b]].scheduledTime
  }

  predicate QValid(q: QState) {
    |q.slots| == QueueLength && InPool(q.order) && Distinct(q.order)
    && Occupancy(q.slots, q.order) && Linked(q.slots, q.first, q.order) && Sorted(q.slots, q.order)
  }

  /** The slot numbers met by following `steps` next links from `cur`,
      stopping at -1. */
  function Follow(slots: seq<Slot>, cur: int, steps: nat): seq<int>
    decreases steps
  {
    if steps == 0 || cur < 0 || cur >= |slots| then [] else [cur] + Follow(slots, slots[cur].next, steps - 1)
  }

  /** Where following `steps` next links from `cur` ends. */
  function Reach(slots: seq<Slot>, cur: int, steps: nat): int
    decreases steps
  {
    if steps == 0 || cur < 0 || cur >= |slots| then cur else Reach(slots, slots[cur].next, steps - 1)
  }

  /** The list is acyclic and holds exactly the slots of `order`: from the
      head, |order| links visit them in order and end at -1. */
  lemma ListIsOrder(q: QState)
    requires QValid(q)
    ensures Follow(q.slots, q.first, |q.order|) == q.order
    ensures Reach(q.slots, q.first, |q.order|) == -1
  {
    if |q.order| > 0 {
      FollowFrom(q.slots, q.order, 0);
    }
  }

  lemma {:induction false} FollowFrom(slots: seq<Slot>, order: seq<nat>, k: nat)
    requires |slots| == QueueLength && InPool(order) && k < |order|
    requires forall j {:trigger slots[order[j]]} :: 0 <= j < |order| ==> slots[order[j]].next == NextOf(order, j)
    ensures Follow(slots, order[k], |order| - k) == order[k..]
    ensures Reach(slots, order[k], |order| - k) == -1
    decreases |order| - k
  {
    var cur := order[k];
    assert slots[cur].next == NextOf(order, k);
    if k + 1 < |order| {
      FollowFrom(slots, order, k + 1);
      assert order[k..] == [cur] + order[k + 1..];
    } else {
      assert Follow(slots, -1, 0) == [];
    }
  }

  // ---------------------------------------------------------------------
  // reset_action_queue

  /** The pool after reset_action_queue: every slot free, the list empty. */
  function QReset(): (q: QState)
    ensures QValid(q) && q.first == -1 && q.order == []
    ensures |q.slots| == QueueLength && forall i :: 0 <= i < |q.slots| ==> q.slots[i] == FreeSlot
  {
    QState(seq(QueueLength, _ => FreeSlot), -1, [])
  }

  // ---------------------------------------------------------------------
  // queue_action

  /** The free slot queue_action takes: the lowest-numbered one, or the
      pool length when every slot is occupied. */
  function FirstFree(slots: seq<Slot>): (n: nat)
    ensures n <= |slots|
    ensures n < |slots| ==> !slots[n].occupied
    ensures forall j :: 0 <= j < n ==> slots[j].occupied
  {
    FirstFreeFrom(slots, 0)
  }

  function FirstFreeFrom(slots: seq<Slot>, n: nat): (r: nat)
    requires n <= |slots|
    ensures n <= r <= |slots|
    ensures r < |slots| ==> !slots[r].occupied
    ensures forall j :: n <= j < r ==> slots[j].occupied
    decreases |slots| - n
  {
    if n == |slots| || !slots[n].occupied then n else FirstFreeFrom(slots, n + 1)
  }

  /** The outcome of the free-slot scan as the source writes it. */
  datatype Scan = Scan(index: nat, readsPastEnd: bool)

  /** The scan as written: its loop condition reads the action pointer of
      slot `n` before testing `n` against the pool length, so when every
      slot is occupied it reads the slot one past the end before it
      stops. */
  function ScanAsWritten(slots: seq<Slot>, n: nat): (r: Scan)
    requires n <= |slots|
    decreases |slots| - n
  {
    if n == |slots| then Scan(n, true)
    else if slots[n].occupied then ScanAsWritten(slots, n + 1)
    else Scan(n, false)
  }

  /** The scan as written finds the same slot as FirstFree, and reads past
      the end of the pool exactly when every slot is occupied. */
  lemma {:induction false} ScanReadsPastEndWhenFull(slots: seq<Slot>, n: nat)
    requires n <= |slots|
    ensures ScanAsWritten(slots, n).index == FirstFreeFrom(slots, n)
    ensures ScanAsWritten(slots, n).readsPastEnd <==> forall j :: n <= j < |slots| ==> slots[j].occupied
    decreases |slots| - n
  {
    if n < |slots| && slots[n].occupied {
      ScanReadsPastEndWhenFull(slots, n + 1);
    }
  }

  /** The first list position whose slot is scheduled at or after
      `delay`, or the list length: the new entry goes there. */
  function InsertPos(q: QState, delay: int): (k: nat)
    requires |q.slots| == QueueLength && InPool(q.order)
    ensures k <= |q.order|
    ensures forall j {:trigger q.slots[q.order[j]]} :: 0 <= j < k ==> q.slots[q.order[j]].scheduledTime < delay
    ensures k < |q.order| ==> q.slots[q.order[k]].scheduledTime >= delay
  {
    InsertPosFrom(q.slots, q.order, delay, 0)
  }

  function InsertPosFrom(slots: seq<Slot>, order: seq<nat>, delay: int, p: nat): (k: nat)
    requires |slots| == QueueLength && InPool(order) && p <= |order|
    requires forall j {:trigger slots[order[j]]} :: 0 <= j < p ==> slots[order[j]].scheduledTime < delay
    ensures p <= k <= |order|
    ensures forall j {:trigger slots[order[j]]} :: 0 <= j < k ==> slots[order[j]].scheduledTime < delay
    ensures k < |order| ==> slots[order[k]].scheduledTime >= delay
    decreases |order| - p
  {
    if p == |order| || slots[order[p]].scheduledTime >= delay then p
    else InsertPosFrom(slots, order, delay, p + 1)
  }

  /** `o` with `n` inserted at position `k`. */
  function InsertAt(o: seq<nat>, k: nat, n: nat): (o': seq<nat>)
    requires k <= |o|
    ensures |o'| == |o| + 1 && o'[k] == n
    ensures forall j :: 0 <= j < k ==> o'[j] == o[j]
    ensures forall j :: k < j < |o'| ==> o'[j] == o[j - 1]
  {
    o[..k] + [n] + o[k..]
  }

  /** The slot a request fills, linked to `next`. */
  function Filled(req: Request, next: int): Slot {
    Slot(true, req.actionNum, req.actionToDo, req.delay, next,
         req.subject, req.subjectNum, req.subjectId, req.direct, req.directNum, req.directId, req.offset)
  }

  /** queue_action: nothing changes when every slot is occupied; otherwise
      the first free slot is filled and linked in after the last entry
      scheduled strictly before the request's delay (taking the successor
      of the entry before it, or the old head). */
  function QInsert(q: QState, req: Request): QState
    requires QValid(q)
  {
    var n := FirstFree(q.slots);
    if n == |q.slots| then q
    else
      var k := InsertPos(q, req.delay);
      if k > 0 then
        var prev := q.order[k - 1];
        var s := q.slots[n := Filled(req, q.slots[prev].next)];
        QState(s[prev := s[prev].(next := n)], q.first, InsertAt(q.order, k, n))
      else
        QState(q.slots[n := Filled(req, q.first)], n, InsertAt(q.order, 0, n))
  }

  /** What insertion does to the list: when a slot is free, the first free
      slot holds the request and enters the list after every entry
      scheduled before the delay and before every other entry, equal
      times included; at most one other slot, its predecessor, changes,
      and only in its link. When no slot is free nothing changes. */
  lemma InsertPlacement(q: QState, req: Request)
    requires QValid(q)
    ensures var n := FirstFree(q.slots);
            var q' := QInsert(q, req);
            (n == QueueLength ==> q' == q)
            && (n < QueueLength ==>
                  var k := InsertPos(q, req.delay);
                  q'.order == InsertAt(q.order, k, n)
                  && q'.slots[n] == Filled(req, NextOf(q'.order, k))
                  && (forall j {:trigger q.slots[q.order[j]]} :: 0 <= j < k ==> q.slots[q.order[j]].scheduledTime < req.delay)
                  && (forall j {:trigger q.slots[q.order[j]]} :: k <= j < |q.order| ==> q.slots[q.order[j]].scheduledTime >= req.delay)
                  && (forall i :: 0 <= i < QueueLength && i != n && (k == 0 || i != q.order[k - 1]) ==>
                        q'.slots[i] == q.slots[i])
                  && (k > 0 ==> q'.slots[q.order[k - 1]] == q.slots[q.order[k - 1]].(next := n)))
  {
    var n := FirstFree(q.slots);
    if n < QueueLength {
      InsertSplit(q, req.delay);
      InsertSlots(q, req);
    }
  }

  /** Every entry from the insertion point on is due no sooner than the
      new one, since the list is sorted. */
  lemma InsertSplit(q: QState, delay: int)
    requires QValid(q)
    ensures var k := InsertPos(q, delay);
            forall j {:trigger q.slots[q.order[j]]} :: k <= j < |q.order| ==> q.slots[q.order[j]].scheduledTime >= delay
  {
    var k := InsertPos(q, delay);
    forall j | k <= j < |q.order|
      ensures q.slots[q.order[j]].scheduledTime >= delay
    {
      assert j == k || q.slots[q.order[k]].scheduledTime <= q.slots[q.order[j]].scheduledTime;
    }
  }

  /** Insertion writes the free slot and the predecessor's link and no
      other slot. */
  lemma InsertSlots(q: QState, req: Request)
    requires QValid(q) && FirstFree(q.slots) < QueueLength
    ensures var n := FirstFree(q.slots);
            var q' := QInsert(q, req);
            var k := InsertPos(q, req.delay);
            q'.order == InsertAt(q.order, k, n)
            && q'.slots[n] == Filled(req, NextOf(q'.order, k))
            && (forall i :: 0 <= i < QueueLength && i != n && (k == 0 || i != q.order[k - 1]) ==>
                  q'.slots[i] == q.slots[i])
            && (k > 0 ==> q'.slots[q.order[k - 1]] == q.slots[q.order[k - 1]].(next := n))
  {
    var n := FirstFree(q.slots);
    var k := InsertPos(q, req.delay);
    assert n !in q.order;
    if k > 0 {
      assert q.order[k - 1] != n;
      assert q.slots[q.order[k - 1]].next == NextOf(q.order, k - 1);
    }
  }

  /** Following the link of the entry at position `p` reaches the next
      position. */
  lemma LinkStep(q: QState, p: nat)
    requires QValid(q) && p < |q.order|
    ensures q.slots[q.order[p]].next == NextOf(q.order, p)
  {
  }

  /** What queue_action's walk and free-slot scan determine: the slot the
      new entry is linked after is on the list and is not the free slot,
      and the insertion is the one those two choose. */
  lemma InsertShape(q: QState, req: Request, n: nat, p: nat, prev: int)
    requires QValid(q) && n == FirstFree(q.slots) < |q.slots| && p == InsertPos(q, req.delay)
    requires prev == if p == 0 then -1 else q.order[p - 1]
    ensures prev == -1 || (0 <= prev < |q.slots| && prev != n)
    ensures prev == -1 ==> QInsert(q, req) == QState(q.slots[n := Filled(req, q.first)], n, InsertAt(q.order, p, n))
    ensures prev != -1 ==>
              QInsert(q, req)
              == (var s := q.slots[n := Filled(req, q.slots[prev].next)];
                  QState(s[prev := s[prev].(next := n)], q.first, InsertAt(q.order, p, n)))
  {
    if p > 0 {
      assert q.slots[prev].occupied;
    }
  }

  /** Insertion keeps the queue well formed: the list stays acyclic, holds
      exactly the occupied slots and stays sorted. */
  lemma InsertValid(q: QState, req: Request)
    requires QValid(q)
    ensures QValid(QInsert(q, req))
  {
    if FirstFree(q.slots) < QueueLength {
      InsertKeepsOccupancy(q, req);
      InsertKeepsLinks(q, req);
      InsertKeepsOrder(q, req);
    }
  }

  lemma InsertKeepsOccupancy(q: QState, req: Request)
    requires QValid(q) && FirstFree(q.slots) < QueueLength
    ensures var q' := QInsert(q, req);
            |q'.slots| == QueueLength && InPool(q'.order) && Distinct(q'.order) && Occupancy(q'.slots, q'.order)
  {
    var n := FirstFree(q.slots);
    var k := InsertPos(q, req.delay);
    var q' := QInsert(q, req);
    InsertSlots(q, req);
    assert n !in q.order;
    InsertDistinct(q.order, k, n);
    InsertOthersKept(q, req);
    InsertOccupancy(q.slots, q'.slots, q.order, k, n);
  }

  /** Apart from the slot it fills, insertion changes no slot's occupancy
      and leaves free slots as they were. */
  lemma InsertOthersKept(q: QState, req: Request)
    requires QValid(q) && FirstFree(q.slots) < QueueLength
    ensures var n := FirstFree(q.slots);
            var q' := QInsert(q, req);
            forall i :: 0 <= i < QueueLength && i != n ==>
              q'.slots[i].occupied == q.slots[i].occupied
              && (!q.slots[i].occupied ==> q'.slots[i] == q.slots[i])
  {
    var n := FirstFree(q.slots);
    var k := InsertPos(q, req.delay);
    var q' := QInsert(q, req);
    InsertSlots(q, req);
    forall i | 0 <= i < QueueLength && i != n
      ensures q'.slots[i].occupied == q.slots[i].occupied
      ensures !q.slots[i].occupied ==> q'.slots[i] == q.slots[i]
    {
      if k > 0 && i == q.order[k - 1] {
        assert q.slots[i].occupied;
      }
    }
  }

  lemma InsertKeepsLinks(q: QState, req: Request)
    requires QValid(q) && FirstFree(q.slots) < QueueLength
    ensures var q' := QInsert(q, req);
            |q'.slots| == QueueLength && InPool(q'.order) && Linked(q'.slots, q'.first, q'.order)
  {
    InsertSlots(q, req);
    var n := FirstFree(q.slots);
    var k := InsertPos(q, req.delay);
    var q' := QInsert(q, req);
    var o := q.order;
    assert n !in o;
    assert k > 0 ==> q.slots[o[k - 1]].next == NextOf(o, k - 1);
    InsertLinked(q.slots, q'.slots, q.first, q'.first, o, k, n);
  }

  lemma InsertKeepsOrder(q: QState, req: Request)
    requires QValid(q) && FirstFree(q.slots) < QueueLength
    ensures var q' := QInsert(q, req);
            |q'.slots| == QueueLength && InPool(q'.order) && Sorted(q'.slots, q'.order)
  {
    InsertPlacement(q, req);
    var n := FirstFree(q.slots);
    var k := InsertPos(q, req.delay);
    var q' := QInsert(q, req);
    var o := q.order;
    assert n !in o;
    forall j | 0 <= j < |o|
      ensures q'.slots[o[j]].scheduledTime == q.slots[o[j]].scheduledTime
    {
      assert o[j] != n;
    }
    InsertSorted(q.slots, q'.slots, o, k, n, req.delay);
  }

  lemma InsertOccupancy(s: seq<Slot>, s': seq<Slot>, o: seq<nat>, k: nat, n: nat)
    requires |s| == QueueLength && |s'| == QueueLength && k <= |o| && n < QueueLength
    requires Occupancy(s, o) && s'[n].occupied
    requires forall i :: 0 <= i < QueueLength && i != n ==> s'[i].occupied == s[i].occupied
    requires forall i :: 0 <= i < QueueLength && i != n && !s[i].occupied ==> s'[i] == s[i]
    ensures Occupancy(s', InsertAt(o, k, n))
  {
    forall i | 0 <= i < QueueLength
      ensures s'[i].occupied <==> i in InsertAt(o, k, n)
    {
      if i != n {
        InsertMembers(o, k, n, i);
      }
    }
  }

  lemma InsertMembers(o: seq<nat>, k: nat, n: nat, i: nat)
    requires k <= |o| && i != n
    ensures i in InsertAt(o, k, n) <==> i in o
  {
    assert InsertAt(o, k, n) == o[..k] + [n] + o[k..];
    assert o == o[..k] + o[k..];
  }

  lemma InsertDistinct(o: seq<nat>, k: nat, n: nat)
    requires k <= |o| && Distinct(o) && n !in o
    ensures Distinct(InsertAt(o, k, n))
  {
    var o' := InsertAt(o, k, n);
    forall a, b | 0 <= a < b < |o'|
      ensures o'[a] != o'[b]
    {
      if a < k && b < k { assert o'[a] == o[a] && o'[b] == o[b]; }
      else if a < k && b == k { assert o'[a] == o[a]; }
      else if a < k { assert o'[a] == o[a] && o'[b] == o[b - 1]; }
      else if a == k { assert o'[b] == o[b - 1]; }
      else { assert o'[a] == o[a - 1] && o'[b] == o[b - 1]; }
    }
  }

  /** The links after insertion: the new slot takes over its
      predecessor's link (or the old head) and the predecessor (or the
      head) points to it. */
  lemma InsertLinked(s: seq<Slot>, s': seq<Slot>, first: int, first': int, o: seq<nat>, k: nat, n: nat)
    requires |s| == QueueLength && |s'| == QueueLength && InPool(o) && Distinct(o)
    requires n < QueueLength && n !in o && k <= |o|
    requires Linked(s, first, o)
    requires s'[n].next == (if k == 0 then first else s[o[k - 1]].next)
    requires k > 0 ==> s'[o[k - 1]].next == n
    requires forall i :: 0 <= i < QueueLength && i != n && (k == 0 || i != o[k - 1]) ==> s'[i].next == s[i].next
    requires first' == (if k == 0 then n else first)
    ensures InPool(InsertAt(o, k, n)) && Linked(s', first', InsertAt(o, k, n))
  {
    var o' := InsertAt(o, k, n);
    forall j | 0 <= j < |o'|
      ensures s'[o'[j]].next == NextOf(o', j)
    {
      if j + 1 < k {
        assert o[j] != o[k - 1];
        assert s[o[j]].next == NextOf(o, j);
      } else if j + 1 == k {
      } else if j == k {
        if k > 0 {
          assert s[o[k - 1]].next == NextOf(o, k - 1);
        }
      } else {
        assert k > 0 ==> o[j - 1] != o[k - 1];
        assert s[o[j - 1]].next == NextOf(o, j - 1);
      }
    }
  }

  /** The times after insertion: the new entry sits between the earlier
      and the later ones. */
  lemma InsertSorted(s: seq<Slot>, s': seq<Slot>, o: seq<nat>, k: nat, n: nat, t: int)
    requires |s| == QueueLength && |s'| == QueueLength && InPool(o)
    requires n < QueueLength && n !in o && k <= |o|
    requires Sorted(s, o)
    requires forall j {:trigger s[o[j]]} :: 0 <= j < k ==> s[o[j]].scheduledTime < t
    requires forall j {:trigger s[o[j]]} :: k <= j < |o| ==> s[o[j]].scheduledTime >= t
    requires s'[n].scheduledTime == t
    requires forall j {:trigger s'[o[j]]} :: 0 <= j < |o| ==> s'[o[j]].scheduledTime == s[o[j]].scheduledTime
    ensures InPool(InsertAt(o, k, n)) && Sorted(s', InsertAt(o, k, n))
  {
    var o' := InsertAt(o, k, n);
    forall a, b | 0 <= a < b < |o'|
      ensures s'[o'[a]].scheduledTime <= s'[o'[b]].scheduledTime
    {
      if a < k && b < k { assert o'[a] == o[a] && o'[b] == o[b]; }
      else if a < k && b == k { assert o'[a] == o[a]; }
      else if a < k { assert o'[a] == o[a] && o'[b] == o[b - 1]; }
      else if a == k { assert o'[b] == o[b - 1]; }
      else { assert o'[a] == o[a - 1] && o'[b] == o[b - 1]; }
    }
  }

  // ---------------------------------------------------------------------
  // execute_action_queue: the decrement and the pop

  function Decremented(s: Slot, units: int): Slot {
    if s.occupied then s.(scheduledTime := s.scheduledTime - units) else s
  }

  /** Every occupied slot's scheduled time goes down by `units`. */
  function QDecrement(q: QState, units: int): QState {
    QState(seq(|q.slots|, i requires 0 <= i < |q.slots| => Decremented(q.slots[i], units)), q.first, q.order)
  }

  /** The uniform decrement keeps the queue well formed (and hence
      sorted), keeps the list, and moves every entry by the same amount. */
  lemma DecrementValid(q: QState, units: int)
    requires QValid(q)
    ensures QValid(QDecrement(q, units))
    ensures QDecrement(q, units).order == q.order && QDecrement(q, units).first == q.first
    ensures forall k :: 0 <= k < |q.order| ==>
              QDecrement(q, units).slots[q.order[k]].scheduledTime == q.slots[q.order[k]].scheduledTime - units
  {
    var q' := QDecrement(q, units);
    forall k | 0 <= k < |q.order|
      ensures q'.slots[q.order[k]] == q.slots[q.order[k]].(scheduledTime := q.slots[q.order[k]].scheduledTime - units)
    {
      assert q.slots[q.order[k]].occupied;
    }
  }

  /** The head is cleared and unlinked, and its successor becomes the
      head. */
  function QPop(q: QState): QState
    requires QValid(q) && |q.order| > 0
  {
    var h := q.order[0];
    QState(q.slots[h := FreeSlot], q.slots[h].next, q.order[1..])
  }

  /** Popping keeps the queue well formed and drops exactly the head. */
  lemma PopValid(q: QState)
    requires QValid(q) && |q.order| > 0
    ensures QValid(QPop(q)) && QPop(q).order == q.order[1..]
    ensures QPop(q).slots[q.order[0]] == FreeSlot
    ensures forall i :: 0 <= i < QueueLength && i != q.order[0] ==> QPop(q).slots[i] == q.slots[i]
  {
    PopOccupancy(q);
    PopLinked(q);
  }

  lemma PopOccupancy(q: QState)
    requires QValid(q) && |q.order| > 0
    ensures Occupancy(q.slots[q.order[0] := FreeSlot], q.order[1..])
  {
    var h := q.order[0];
    var s := q.slots[h := FreeSlot];
    forall i | 0 <= i < QueueLength
      ensures s[i].occupied <==> i in q.order[1..]
    {
      assert q.order == [h] + q.order[1..];
      if i in q.order[1..] {
        var j :| 0 <= j < |q.order[1..]| && q.order[1..][j] == i;
        assert q.order[j + 1] == i;
      }
    }
  }

  lemma PopLinked(q: QState)
    requires QValid(q) && |q.order| > 0
    ensures Linked(q.slots[q.order[0] := FreeSlot], q.slots[q.order[0]].next, q.order[1..])
  {
    var h := q.order[0];
    var s := q.slots[h := FreeSlot];
    var o := q.order[1..];
    assert q.slots[h].next == NextOf(q.order, 0);
    forall k | 0 <= k < |o|
      ensures s[o[k]].next == NextOf(o, k)
    {
      assert q.order[k + 1] != h;
      assert q.slots[q.order[k + 1]].next == NextOf(q.order, k + 1);
    }
  }

  /** The number of entries that are due (scheduled at or before zero). */
  function DueCount(slots: seq<Slot>, order: seq<nat>): nat
    requires |slots| == QueueLength && InPool(order)
  {
    if |order| == 0 then 0
    else (if slots[order[0]].scheduledTime <= 0 then 1 else 0) + DueCount(slots, order[1..])
  }

  function Due(q: QState): nat
    requires QValid(q)
  {
    DueCount(q.slots, q.order)
  }

  /** Popping a due head leaves one fewer due entry. */
  lemma PopDue(q: QState)
    requires QValid(q) && |q.order| > 0 && q.slots[q.order[0]].scheduledTime <= 0
    ensures Due(QPop(q)) + 1 == Due(q)
  {
    PopValid(q);
    DueCountFrame(q.slots, QPop(q).slots, q.order[1..]);
  }

  lemma {:induction false} DueCountFrame(s: seq<Slot>, s': seq<Slot>, order: seq<nat>)
    requires |s| == QueueLength && |s'| == QueueLength && InPool(order)
    requires forall k {:trigger s[order[k]]} :: 0 <= k < |order| ==> s[order[k]].scheduledTime == s'[order[k]].scheduledTime
    ensures DueCount(s, order) == DueCount(s', order)
  {
    if |order| > 0 {
      DueCountFrame(s, s', order[1..]);
    }
  }

  /** Inserting an entry that is not due, with every other entry's time
      unchanged, leaves the number of due entries as it was. */
  lemma {:induction false} DueInsertAt(s: seq<Slot>, s': seq<Slot>, o: seq<nat>, k: nat, n: nat)
    requires |s| == QueueLength && |s'| == QueueLength && InPool(o) && n < QueueLength && k <= |o|
    requires s'[n].scheduledTime > 0
    requires forall j {:trigger s[o[j]]} :: 0 <= j < |o| ==> s[o[j]].scheduledTime == s'[o[j]].scheduledTime
    ensures InPool(InsertAt(o, k, n)) && DueCount(s', InsertAt(o, k, n)) == DueCount(s, o)
    decreases k
  {
    var o' := InsertAt(o, k, n);
    if k == 0 {
      assert o'[1..] == o;
      DueCountFrame(s, s', o);
    } else {
      assert o'[1..] == InsertAt(o[1..], k - 1, n);
      DueInsertAt(s, s', o[1..], k - 1, n);
    }
  }

  /** Queueing a request with a positive delay adds no due entry. */
  lemma InsertNotDue(q: QState, req: Request)
    requires QValid(q) && req.delay > 0
    ensures QValid(QInsert(q, req)) && Due(QInsert(q, req)) == Due(q)
  {
    InsertValid(q, req);
    var n := FirstFree(q.slots);
    if n < QueueLength {
      InsertSlots(q, req);
      var k := InsertPos(q, req.delay);
      var q' := QInsert(q, req);
      var o := q.order;
      assert n !in o;
      forall j | 0 <= j < |o|
        ensures q.slots[o[j]].scheduledTime == q'.slots[o[j]].scheduledTime
      {
        assert o[j] != n;
      }
      DueInsertAt(q.slots, q'.slots, o, k, n);
    }
  }

  /** A request with a positive delay queued while a due entry is at the
      head goes behind it: the head being fired stays the head. */
  lemma InsertBehindDueHead(q: QState, req: Request)
    requires QValid(q) && |q.order| > 0 && q.slots[q.order[0]].scheduledTime <= 0 < req.delay
    ensures QInsert(q, req).first == q.first
    ensures |QInsert(q, req).order| > 0 && QInsert(q, req).order[0] == q.order[0]
    ensures QInsert(q, req).slots[q.order[0]].scheduledTime == q.slots[q.order[0]].scheduledTime
  {
    InsertPlacement(q, req);
    var n := FirstFree(q.slots);
    if n < QueueLength {
      assert InsertPos(q, req.delay) > 0;
    }
  }

  /** When nothing is due at the head of a sorted queue, nothing is due
      anywhere in it. */
  lemma NoneDueBehindHead(q: QState)
    requires QValid(q)
    requires |q.order| == 0 || q.slots[q.order[0]].scheduledTime > 0
    ensures forall k {:trigger q.slots[q.order[k]]} :: 0 <= k < |q.order| ==> q.slots[q.order[k]].scheduledTime > 0
  {
    forall k | 0 < k < |q.order|
      ensures q.slots[q.order[k]].scheduledTime > 0
    {
      assert q.slots[q.order[0]].scheduledTime <= q.slots[q.order[k]].scheduledTime;
    }
  }

  // ---------------------------------------------------------------------
  // Slices within the action table

  /** A slice of `actionToDo` records from `actionNum` lies within a table
      of `n` records. */
  predicate SliceIn(actionNum: int, actionToDo: int, n: nat) {
    0 <= actionNum && 0 <= actionToDo && actionNum + actionToDo <= n
  }

  /** Every occupied slot names a slice of a table of `n` records. */
  predicate SlotsInRange(q: QState, n: nat) {
    forall i :: 0 <= i < |q.slots| && q.slots[i].occupied ==> SliceIn(q.slots[i].actionNum, q.slots[i].actionToDo, n)
  }

  lemma InsertInRange(q: QState, req: Request, n: nat)
    requires QValid(q) && SlotsInRange(q, n) && SliceIn(req.actionNum, req.actionToDo, n)
    ensures SlotsInRange(QInsert(q, req), n)
  {
    InsertPlacement(q, req);
  }

  lemma PopInRange(q: QState, n: nat)
    requires QValid(q) && |q.order| > 0 && SlotsInRange(q, n)
    ensures SlotsInRange(QPop(q), n)
  {
  }

  lemma DecrementInRange(q: QState, units: int, n: nat)
    requires SlotsInRange(q, n)
    ensures SlotsInRange(QDecrement(q, units), n)
  {
  }

  // ---------------------------------------------------------------------
  // The pool in place

  class Queue {
    var slots: array<Slot>
    var first: int
    ghost var order: seq<nat>

    ghost function Model(): QState
      reads this, slots
    {
      QState(slots[..], first, order)
    }

    ghost predicate Valid()
      reads this, slots
    {
      QValid(Model())
    }

    constructor()
      ensures Valid() && Model() == QReset() && fresh(slots)
    {
      slots := new Slot[0];
      first := -1;
      order := [];
      new;
      Reset();
    }

    /** reset_action_queue: a new pool, every slot cleared. */
    method Reset()
      modifies this
      ensures Valid() && Model() == QReset() && fresh(slots)
    {
      var a := new Slot[QueueLength];
      for i := 0 to QueueLength
        invariant forall j :: 0 <= j < i ==> a[j] == FreeSlot
      {
        a[i] := FreeSlot;
      }
      slots := a;
      first := -1;
      order := [];
      assert slots[..] == QReset().slots;
    }

    /** The free-slot scan of queue_action, testing the bound before it
        reads a slot. */
    method FreeSlotNumber() returns (n: nat)
      requires Valid()
      ensures n == FirstFree(slots[..])
    {
      n := 0;
      while n < slots.Length && slots[n].occupied
        invariant 0 <= n <= slots.Length
        invariant FirstFreeFrom(slots[..], n) == FirstFree(slots[..])
        decreases slots.Length - n
      {
        n := n + 1;
      }
    }

    /** The list walk of queue_action: the last entry scheduled strictly
        before `delay` (-1 when there is none) and its list position plus
        one. */
    method Predecessor(delay: int) returns (prev: int, ghost p: nat)
      requires Valid()
      ensures p == InsertPos(Model(), delay)
      ensures prev == if p == 0 then -1 else order[p - 1]
    {
      ghost var q := Model();
      prev := -1;
      var cur := first;
      p := 0;
      while cur != -1 && slots[cur].scheduledTime < delay
        invariant 0 <= p <= |q.order|
        invariant cur == (if p < |q.order| then q.order[p] else -1)
        invariant prev == (if p == 0 then -1 else q.order[p - 1])
        invariant forall j {:trigger q.slots[q.order[j]]} :: 0 <= j < p ==> q.slots[q.order[j]].scheduledTime < delay
        invariant InsertPosFrom(q.slots, q.order, delay, p) == InsertPos(q, delay)
        decreases |q.order| - p
      {
        LinkStep(q, p);
        prev := cur;
        cur := slots[cur].next;
        p := p + 1;
      }
    }

    /** queue_action. The list walk reads only slots on the list, so it is
        done here before the free slot is filled rather than after. */
    method QueueAction(req: Request)
      requires Valid()
      modifies this, slots
      ensures slots == old(slots) && Valid() && Model() == QInsert(old(Model()), req)
    {
      ghost var q := Model();
      var n := FreeSlotNumber();
      if n == slots.Length {
        return;
      }
      var prev, p := Predecessor(req.delay);
      InsertShape(q, req, n, p, prev);
      Link(req, n, prev);
      order := InsertAt(order, p, n);
      InsertValid(q, req);
    }

    /** The filling and linking step of queue_action: slot `n` takes the
        request and is linked in after `prev`, or at the head when `prev`
        is -1. */
    method Link(req: Request, n: nat, prev: int)
      requires n < slots.Length && (prev == -1 || (0 <= prev < slots.Length && prev != n))
      modifies this`first, slots
      ensures prev == -1 ==> first == n && slots[..] == old(slots[..])[n := Filled(req, old(first))]
      ensures prev != -1 ==>
                first == old(first)
                && slots[..] == (var s := old(slots[..])[n := Filled(req, old(slots[prev].next))];
                                 s[prev := s[prev].(next := n)])
    {
      if prev != -1 {
        slots[n] := Filled(req, slots[prev].next);
        slots[prev] := slots[prev].(next := n);
      } else {
        slots[n] := Filled(req, first);
        first := n;
      }
    }

    /** The decrement loop of execute_action_queue. */
    method Decrement(units: int)
      requires Valid()
      modifies slots
      ensures Valid() && Model() == QDecrement(old(Model()), units)
    {
      ghost var q := Model();
      for i := 0 to slots.Length
        invariant forall j :: 0 <= j < i ==> slots[j] == Decremented(q.slots[j], units)
        invariant forall j :: i <= j < slots.Length ==> slots[j] == q.slots[j]
      {
        if slots[i].occupied {
          slots[i] := slots[i].(scheduledTime := slots[i].scheduledTime - units);
        }
      }
      assert slots[..] == QDecrement(q, units).slots;
      DecrementValid(q, units);
    }

    /** The head is cleared, its successor becomes the head, and its link
      is cleared. */
    method PopHead()
      requires Valid() && first != -1
      modifies this, slots
      ensures slots == old(slots) && Valid() && Model() == QPop(old(Model()))
    {
      ghost var q := Model();
      var head := first;
      first := slots[head].next;
      slots[head] := FreeSlot;
      order := order[1..];
      assert Model() == QPop(q);
      PopValid(q);
    }
  }
}
