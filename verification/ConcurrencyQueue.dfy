/**
 The queue that gates production executions (`ConcurrencyQueue`): a capacity counter that may go
 negative, and the executions that wait for a slot in the order in which they arrived.
 */
module ConcurrencyQueues {
  import opened Wrappers

  /** A waiting execution; `ticket` stands for the `resolve` function of its promise. */
  datatype Item = Item(executionId: string, ticket: nat)

  datatype Queue = Queue(capacity: int, waiting: seq<Item>)

  /** Whether the caller of `enqueue` may go on at once. */
  function Enqueued(q: Queue, item: Item): (r: (Queue, bool)) {
    if q.capacity - 1 < 0 then (Queue(q.capacity - 1, q.waiting + [item]), false)
    else (Queue(q.capacity - 1, q.waiting), true)
  }

  /** Lets the longest waiting execution go on; the result names its ticket. */
  function NextResolved(q: Queue): (r: (Queue, Option<nat>)) {
    if q.waiting == [] then (q, None)
    else (q.(waiting := q.waiting[1..]), Some(q.waiting[0].ticket))
  }

  function Dequeued(q: Queue): (r: (Queue, Option<nat>)) {
    NextResolved(q.(capacity := q.capacity + 1))
  }

  function IndexOf(items: seq<Item>, executionId: string): (r: nat)
    ensures r <= |items|
    ensures forall i :: 0 <= i < r ==> items[i].executionId != executionId
    ensures r < |items| ==> items[r].executionId == executionId
  {
    if items == [] || items[0].executionId == executionId then 0
    else 1 + IndexOf(items[1..], executionId)
  }

  function Without(items: seq<Item>, i: nat): seq<Item>
    requires i < |items|
  {
    items[..i] + items[i + 1..]
  }

  function Removed(q: Queue, executionId: string): (r: (Queue, Option<nat>)) {
    var i := IndexOf(q.waiting, executionId);
    if i == |q.waiting| then (q, None)
    else NextResolved(Queue(q.capacity + 1, Without(q.waiting, i)))
  }

  predicate Has(q: Queue, executionId: string) {
    exists i :: 0 <= i < |q.waiting| && q.waiting[i].executionId == executionId
  }

  /** The execution at `i` is the first one with this id. */
  predicate FirstAt(items: seq<Item>, executionId: string, i: nat) {
    i < |items| && items[i].executionId == executionId && forall j | 0 <= j < i :: items[j].executionId != executionId
  }

  /**
   A removal takes out the first execution with this id, wherever it is queued. Of the others the one in front is let
   through, and the rest go on waiting in their order. If there is none, nothing changes.
   */
  lemma RemovalExactly(q: Queue, executionId: string)
    ensures var w := q.waiting;
      var (r, next) := Removed(q, executionId);
      && (forall i: nat | FirstAt(w, executionId, i) ::
            && r.capacity == q.capacity + 1
            && next == (if |w| == 1 then None else Some(w[if i == 0 then 1 else 0].ticket))
            && |r.waiting| == (if |w| == 1 then 0 else |w| - 2)
            && (forall j | 0 <= j < |r.waiting| :: r.waiting[j] == w[if j + 1 < i then j + 1 else j + 2]))
      && ((forall i | 0 <= i < |w| :: w[i].executionId != executionId) ==> r == q && next.None?)
  {
    var w := q.waiting;
    var i := IndexOf(w, executionId);
    if i < |w| {
      assert FirstAt(w, executionId, i);
      forall k: nat | FirstAt(w, executionId, k) ensures k == i {}
      var rest := Without(w, i);
      assert forall j | 0 <= j < |rest| :: rest[j] == w[if j < i then j else j + 1];
    }
  }

  /** So whoever is removed is neither queued nor let through afterwards. */
  lemma RemovedIsGone(q: Queue, executionId: string, i: nat)
    requires FirstAt(q.waiting, executionId, i)
    requires forall a, b | 0 <= a < b < |q.waiting| :: q.waiting[a].ticket != q.waiting[b].ticket
    ensures var (r, next) := Removed(q, executionId);
      next != Some(q.waiting[i].ticket) && forall j | 0 <= j < |r.waiting| :: r.waiting[j].ticket != q.waiting[i].ticket
  {
    RemovalExactly(q, executionId);
  }

  // ---------- the queue together with the executions it has let through ----------

  datatype Load = Load(queue: Queue, running: set<nat>)

  datatype Op = Arrive(item: Item) | Finish(ticket: nat) | RemoveQueued(executionId: string)

  function Admit(r: (Queue, Option<nat>), running: set<nat>): Load {
    Load(r.0, if r.1.Some? then running + {r.1.value} else running)
  }

  predicate Tickets(l: Load) {
    && (forall i, j :: 0 <= i < j < |l.queue.waiting| ==> l.queue.waiting[i].ticket != l.queue.waiting[j].ticket)
    && (forall i :: 0 <= i < |l.queue.waiting| ==> l.queue.waiting[i].ticket !in l.running)
  }

  predicate Known(l: Load, ticket: nat) {
    ticket in l.running || exists i :: 0 <= i < |l.queue.waiting| && l.queue.waiting[i].ticket == ticket
  }

  /** An arrival uses a ticket of its own; only an execution that was let through can finish. */
  function Step(l: Load, op: Op): Load {
    match op
    case Arrive(item) =>
      if Known(l, item.ticket) then l
      else
        var (q, now) := Enqueued(l.queue, item);
        Load(q, if now then l.running + {item.ticket} else l.running)
    case Finish(t) => if t !in l.running then l else Admit(Dequeued(l.queue), l.running - {t})
    case RemoveQueued(id) => Admit(Removed(l.queue, id), l.running)
  }

  function After(l: Load, ops: seq<Op>): Load
    decreases |ops|
  {
    if ops == [] then l else After(Step(l, ops[0]), ops[1..])
  }

  /** Every slot is free, in use, or promised to a waiting execution; nobody waits beside a free slot. */
  predicate Conserved(l: Load, limit: nat) {
    && Tickets(l)
    && l.queue.capacity + |l.running| + |l.queue.waiting| == limit
    && (l.queue.waiting != [] ==> |l.running| >= limit)
  }

  /** Passing a free slot on: `l` has one slot more than it accounts for. */
  lemma AdmitNextConserves(l: Load, limit: nat)
    requires Tickets(l)
    requires l.queue.capacity + |l.running| + |l.queue.waiting| == limit
    requires |l.queue.waiting| >= 2 ==> |l.running| + 1 >= limit
    ensures Conserved(Admit(NextResolved(l.queue), l.running), limit)
  {
    if l.queue.waiting != [] {
      assert l.queue.waiting[0].ticket !in l.running;
      var m := Admit(NextResolved(l.queue), l.running);
      assert |m.running| == |l.running| + 1;
      assert forall j :: 0 <= j < |m.queue.waiting| ==> m.queue.waiting[j] == l.queue.waiting[j + 1];
    }
  }

  lemma RemovalKeepsTickets(l: Load, i: nat)
    requires Tickets(l) && i < |l.queue.waiting|
    ensures Tickets(l.(queue := l.queue.(waiting := Without(l.queue.waiting, i))))
  {
    var rest := Without(l.queue.waiting, i);
    assert forall j :: 0 <= j < |rest| ==> rest[j] == l.queue.waiting[if j < i then j else j + 1];
  }

  lemma ArrivalConserves(l: Load, item: Item, limit: nat)
    requires Conserved(l, limit) && !Known(l, item.ticket)
    ensures Conserved(Step(l, Arrive(item)), limit)
  {
    var now := Step(l, Arrive(item));
    if l.queue.capacity > 0 {
      assert |now.running| == |l.running| + 1;
    } else {
      assert forall i | 0 <= i < |l.queue.waiting| :: now.queue.waiting[i] == l.queue.waiting[i];
    }
  }

  lemma FinishConserves(l: Load, t: nat, limit: nat)
    requires Conserved(l, limit) && t in l.running
    ensures Conserved(Step(l, Finish(t)), limit)
  {
    assert |l.running - {t}| == |l.running| - 1;
    AdmitNextConserves(Load(l.queue.(capacity := l.queue.capacity + 1), l.running - {t}), limit);
  }

  lemma RemovalConserves(l: Load, id: string, limit: nat)
    requires Conserved(l, limit)
    ensures Conserved(Step(l, RemoveQueued(id)), limit)
  {
    var i := IndexOf(l.queue.waiting, id);
    if i < |l.queue.waiting| {
      RemovalKeepsTickets(l, i);
      AdmitNextConserves(Load(Queue(l.queue.capacity + 1, Without(l.queue.waiting, i)), l.running), limit);
    }
  }

  lemma ConservedStep(l: Load, op: Op, limit: nat)
    requires Conserved(l, limit)
    ensures Conserved(Step(l, op), limit)
  {
    match op
    case Arrive(item) =>
      if !Known(l, item.ticket) {
        ArrivalConserves(l, item, limit);
      }
    case Finish(t) =>
      if t in l.running {
        FinishConserves(l, t, limit);
      }
    case RemoveQueued(id) => RemovalConserves(l, id, limit);
  }

  /** Conservation holds in every run, whatever is removed from the queue. */
  lemma {:induction false} AlwaysConserved(l: Load, ops: seq<Op>, limit: nat)
    requires Conserved(l, limit)
    ensures Conserved(After(l, ops), limit)
    decreases |ops|
  {
    if ops != [] {
      ConservedStep(l, ops[0], limit);
      AlwaysConserved(Step(l, ops[0]), ops[1..], limit);
    }
  }

  /** The removal takes an execution out of a queue in which another one waits. */
  predicate RemovesBesideOthers(l: Load, op: Op) {
    op.RemoveQueued? && Has(l.queue, op.executionId) && |l.queue.waiting| >= 2
  }

  predicate NoneRemovesBesideOthers(l: Load, ops: seq<Op>)
    decreases |ops|
  {
    ops == [] || (!RemovesBesideOthers(l, ops[0]) && NoneRemovesBesideOthers(Step(l, ops[0]), ops[1..]))
  }

  predicate WithinLimit(l: Load, ops: seq<Op>, limit: nat)
    decreases |ops|
  {
    |l.running| <= limit && (ops == [] || WithinLimit(Step(l, ops[0]), ops[1..], limit))
  }

  lemma LimitOnRemoval(l: Load, id: string, limit: nat)
    requires Conserved(l, limit) && |l.running| <= limit
    ensures |Step(l, RemoveQueued(id)).running| <= limit <==> !RemovesBesideOthers(l, RemoveQueued(id))
  {
    var w := l.queue.waiting;
    var i := IndexOf(w, id);
    if i < |w| {
      assert w[i].executionId == id;
      if |w| >= 2 {
        assert Without(w, i)[0] == w[if 0 < i then 0 else 1];
        assert Without(w, i)[0].ticket !in l.running;
      } else {
        assert Without(w, i) == [];
      }
    }
  }

  lemma LimitStep(l: Load, op: Op, limit: nat)
    requires Conserved(l, limit) && |l.running| <= limit
    ensures |Step(l, op).running| <= limit <==> !RemovesBesideOthers(l, op)
  {
    if op.RemoveQueued? {
      LimitOnRemoval(l, op.executionId, limit);
    } else if op.Finish? && op.ticket in l.running {
      assert |l.running - {op.ticket}| == |l.running| - 1;
    }
  }

  /**
   The limit is respected throughout a run exactly when no execution is removed from the queue
   while another one is queued: such a removal lets the next one through although no slot is free.
   */
  lemma {:induction false} LimitRespectedExactly(l: Load, ops: seq<Op>, limit: nat)
    requires Conserved(l, limit) && |l.running| <= limit
    ensures WithinLimit(l, ops, limit) <==> NoneRemovesBesideOthers(l, ops)
    decreases |ops|
  {
    if ops != [] {
      LimitStep(l, ops[0], limit);
      ConservedStep(l, ops[0], limit);
      if |Step(l, ops[0]).running| <= limit {
        LimitRespectedExactly(Step(l, ops[0]), ops[1..], limit);
      }
    }
  }

  /** One slot, one running and two queued executions: removing the first queued one starts the second. */
  lemma RemoveExceedsLimit()
    ensures var l := Load(Queue(-2, [Item("b", 2), Item("c", 3)]), {1});
      && Conserved(l, 1) && |l.running| <= 1
      && Step(l, RemoveQueued("b")).running == {1, 3}
  {
    var q := Queue(-2, [Item("b", 2), Item("c", 3)]);
    assert IndexOf(q.waiting, "b") == 0;
    assert Without(q.waiting, 0) == [Item("c", 3)];
  }

  // ---------- order ----------

  /** As long as `a` waits, `b` has not been let through and is not ahead of `a`. */
  predicate Ahead(l: Load, a: nat, b: nat) {
    forall i :: 0 <= i < |l.queue.waiting| && l.queue.waiting[i].ticket == a ==>
      && b !in l.running
      && forall j :: 0 <= j <= i ==> l.queue.waiting[j].ticket != b
  }

  lemma AheadStep(l: Load, op: Op, limit: nat, a: nat, b: nat)
    requires Conserved(l, limit) && Ahead(l, a, b) && a != b
    requires exists i :: 0 <= i < |l.queue.waiting| && l.queue.waiting[i].ticket == a
    ensures Ahead(Step(l, op), a, b)
  {
    if op.RemoveQueued? {
      var w := l.queue.waiting;
      var i := IndexOf(w, op.executionId);
      if i < |w| {
        var rest := Without(w, i);
        assert forall j :: 0 <= j < |rest| ==> rest[j] == w[if j < i then j else j + 1];
      }
    }
  }

  predicate WaitsThroughout(l: Load, ops: seq<Op>, a: nat)
    decreases |ops|
  {
    && (exists i :: 0 <= i < |l.queue.waiting| && l.queue.waiting[i].ticket == a)
    && (ops == [] || WaitsThroughout(Step(l, ops[0]), ops[1..], a))
  }

  /** First come, first served: nobody behind a waiting execution is let through before it. */
  lemma {:induction false} NobodyOvertakes(l: Load, ops: seq<Op>, limit: nat, a: nat, b: nat)
    requires Conserved(l, limit) && Ahead(l, a, b) && a != b
    requires WaitsThroughout(l, ops, a)
    ensures b !in After(l, ops).running
    decreases |ops|
  {
    if ops != [] {
      AheadStep(l, ops[0], limit, a, b);
      ConservedStep(l, ops[0], limit);
      NobodyOvertakes(Step(l, ops[0]), ops[1..], limit, a, b);
    }
  }

  // ---------- emptying the queue ----------

  /** The ids in the order in which they are first met, each once. */
  function Ids(items: seq<Item>): seq<string> {
    if items == [] then []
    else
      var before, id := Ids(items[..|items| - 1]), items[|items| - 1].executionId;
      if id in before then before else before + [id]
  }

  /** Removing the ids one after the other; the tickets that were let through meanwhile. */
  function Drained(q: Queue, ids: seq<string>): (Queue, seq<nat>)
    decreases |ids|
  {
    if ids == [] then (q, [])
    else
      var (next, ticket) := Removed(q, ids[0]);
      var (last, more) := Drained(next, ids[1..]);
      (last, (if ticket.Some? then [ticket.value] else []) + more)
  }

  /** How many of the ids are still queued when it is their turn. */
  function Hits(q: Queue, ids: seq<string>): nat
    decreases |ids|
  {
    if ids == [] then 0
    else (if IndexOf(q.waiting, ids[0]) < |q.waiting| then 1 else 0) + Hits(Removed(q, ids[0]).0, ids[1..])
  }

  /** Each hit takes one execution out and lets another one through, as long as there is one. */
  lemma {:induction false} DrainedLength(q: Queue, ids: seq<string>)
    ensures |Drained(q, ids).0.waiting| == if |q.waiting| >= 2 * Hits(q, ids) then |q.waiting| - 2 * Hits(q, ids) else 0
    ensures Drained(q, ids).0.capacity == q.capacity + Hits(q, ids)
    ensures Hits(q, ids) <= |ids|
    decreases |ids|
  {
    if ids != [] {
      DrainedLength(Removed(q, ids[0]).0, ids[1..]);
    }
  }

  /**
   Emptying the queue leaves nobody waiting exactly when the ids that are found at their turn are at least half as many
   as the executions; so never when the executions are more than twice as many as their ids.
   */
  lemma DrainEmptiesExactly(q: Queue)
    ensures Drained(q, Ids(q.waiting)).0.waiting == [] <==> |q.waiting| <= 2 * Hits(q, Ids(q.waiting))
    ensures |q.waiting| > 2 * |Ids(q.waiting)| ==> Drained(q, Ids(q.waiting)).0.waiting != []
  {
    DrainedLength(q, Ids(q.waiting));
  }

  lemma {:induction false} FirstIdIsQueued(items: seq<Item>)
    requires items != []
    ensures Ids(items) != [] && Ids(items)[0] == items[0].executionId && IndexOf(items, Ids(items)[0]) == 0
    decreases |items|
  {
    var n := |items| - 1;
    if n == 0 {
      assert items[..0] == [];
    } else {
      FirstIdIsQueued(items[..n]);
    }
  }

  predicate DistinctIds(items: seq<Item>) {
    forall i, j | 0 <= i < j < |items| :: items[i].executionId != items[j].executionId
  }

  lemma {:induction false} IdsOfDistinct(items: seq<Item>)
    requires DistinctIds(items)
    ensures |Ids(items)| == |items| && forall i | 0 <= i < |items| :: Ids(items)[i] == items[i].executionId
    decreases |items|
  {
    if items != [] {
      var n := |items| - 1;
      IdsOfDistinct(items[..n]);
      assert forall i | 0 <= i < n :: items[..n][i] == items[i];
    }
  }

  /** Every second one. */
  function LetThrough(items: seq<Item>): seq<nat>
    decreases |items|
  {
    if |items| < 2 then [] else [items[1].ticket] + LetThrough(items[2..])
  }

  lemma DrainMisses(q: Queue, ids: seq<string>)
    requires ids != [] && IndexOf(q.waiting, ids[0]) == |q.waiting|
    ensures Drained(q, ids) == Drained(q, ids[1..])
  {
    var rest := Drained(q, ids[1..]);
    assert [] + rest.1 == rest.1;
  }

  /** The first execution is removed and the one behind it let through. */
  lemma RemovalTakesTwo(q: Queue)
    requires |q.waiting| >= 2
    ensures Removed(q, q.waiting[0].executionId) == (Queue(q.capacity + 1, q.waiting[2..]), Some(q.waiting[1].ticket))
  {
    var w := q.waiting;
    assert Without(w, 0) == w[1..];
    assert w[1..][1..] == w[2..];
  }

  lemma DrainTakesTwo(q: Queue, ids: seq<string>)
    requires ids != [] && |q.waiting| >= 2 && q.waiting[0].executionId == ids[0]
    ensures var (last, more) := Drained(Queue(q.capacity + 1, q.waiting[2..]), ids[1..]);
      Drained(q, ids) == (last, [q.waiting[1].ticket] + more)
  {
    RemovalTakesTwo(q);
  }

  lemma DrainTakesLast(q: Queue, id: string)
    requires |q.waiting| == 1 && q.waiting[0].executionId == id
    ensures Drained(q, [id]) == (Queue(q.capacity + 1, []), [])
  {
    assert IndexOf(q.waiting, id) == 0;
    assert Without(q.waiting, 0) == [];
    assert [id][1..] == [];
    assert Drained(Queue(q.capacity + 1, []), []) == (Queue(q.capacity + 1, []), []);
  }

  lemma {:induction false} DrainInOrder(q: Queue, ids: seq<string>)
    requires DistinctIds(q.waiting) && |ids| == |q.waiting|
    requires forall i | 0 <= i < |ids| :: ids[i] == q.waiting[i].executionId
    ensures Drained(q, ids) == (Queue(q.capacity + (|ids| + 1) / 2, []), LetThrough(q.waiting))
    decreases |ids|
  {
    var w := q.waiting;
    if |w| == 1 {
      assert ids == [ids[0]];
      DrainTakesLast(q, ids[0]);
    } else if |w| >= 2 {
      var next := Queue(q.capacity + 1, w[2..]);
      DrainTakesTwo(q, ids);
      assert IndexOf(w[2..], ids[1]) == |w[2..]| by {
        assert forall i | 0 <= i < |w[2..]| :: w[2..][i] == w[i + 2];
      }
      DrainMisses(next, ids[1..]);
      assert ids[1..][1..] == ids[2..];
      DrainInOrder(next, ids[2..]);
    }
  }

  /**
   With every execution queued once the queue is emptied, but only every second one is taken out of it:
   the others are let through.
   */
  lemma DrainLetsEverySecondThrough(q: Queue)
    requires DistinctIds(q.waiting)
    ensures Drained(q, Ids(q.waiting)) == (Queue(q.capacity + (|q.waiting| + 1) / 2, []), LetThrough(q.waiting))
  {
    IdsOfDistinct(q.waiting);
    DrainInOrder(q, Ids(q.waiting));
  }

  lemma IdsOfThree(a: Item, b: Item)
    requires a.executionId != b.executionId
    ensures Ids([a, b, Item(a.executionId, 3)]) == [a.executionId, b.executionId]
  {
    var all := [a, b, Item(a.executionId, 3)];
    assert all[..2] == [a, b] && [a, b][..1] == [a] && [a][..0] == [];
    assert Ids([a]) == [a.executionId];
    assert Ids([a, b]) == [a.executionId, b.executionId];
  }

  /** An execution that is queued twice can stay behind. */
  lemma DrainCanLeaveOne()
    ensures var q := Queue(-3, [Item("b", 1), Item("c", 2), Item("b", 3)]);
      Drained(q, Ids(q.waiting)) == (Queue(-2, [Item("b", 3)]), [2])
  {
    var b, c, again := Item("b", 1), Item("c", 2), Item("b", 3);
    var q, left := Queue(-3, [b, c, again]), Queue(-2, [again]);
    IdsOfThree(b, c);
    var ids := ["b", "c"];
    assert q.waiting[2..] == [again] && ids[1..] == ["c"] && ["c"][1..] == [];
    DrainTakesTwo(q, ids);
    DrainMisses(left, ["c"]);
    assert [c.ticket] + [] == [2];
  }

  // ---------- the class ----------

  class ConcurrencyQueue {
    var capacity: int
    var queue: seq<Item>

    ghost function Contents(): Queue
      reads this
    {
      Queue(capacity, queue)
    }

    constructor (limit: nat)
      ensures Contents() == Queue(limit, [])
    {
      capacity, queue := limit, [];
    }

    method Enqueue(executionId: string, ticket: nat) returns (admitted: bool)
      modifies this
      ensures (Contents(), admitted) == Enqueued(old(Contents()), Item(executionId, ticket))
    {
      capacity := capacity - 1;
      if capacity < 0 {
        queue := queue + [Item(executionId, ticket)];
        return false;
      }
      return true;
    }

    method Dequeue() returns (next: Option<nat>)
      modifies this
      ensures (Contents(), next) == Dequeued(old(Contents()))
    {
      capacity := capacity + 1;
      next := ResolveNext();
    }

    method Remove(executionId: string) returns (next: Option<nat>)
      modifies this
      ensures (Contents(), next) == Removed(old(Contents()), executionId)
    {
      next := None;
      var index := IndexOf(queue, executionId);
      if index < |queue| {
        queue := queue[..index] + queue[index + 1..];
        capacity := capacity + 1;
        next := ResolveNext();
      }
    }

    method GetAll() returns (ids: seq<string>)
      ensures ids == Ids(queue)
    {
      ids := [];
      for i := 0 to |queue|
        invariant ids == Ids(queue[..i])
      {
        assert queue[..i + 1][..i] == queue[..i];
        if queue[i].executionId !in ids {
          ids := ids + [queue[i].executionId];
        }
      }
      assert queue[..|queue|] == queue;
    }

    method ResolveNext() returns (next: Option<nat>)
      modifies this
      ensures (Contents(), next) == NextResolved(old(Contents()))
    {
      if queue == [] {
        return None;
      }
      next := Some(queue[0].ticket);
      queue := queue[1..];
    }
  }
}
