/**
 The in-memory table of runs (`ActiveExecutions`): adding and resuming executions under the
 concurrency limit, settling them, and removing them when their settle handler runs.

 The object that one call of `add` creates, which the settle handler keeps holding after the table
 entry was overwritten, is known by a generation number. The parts of `add` before and after its
 last `await` are separate steps, because other calls run in between.
 */
module ActiveExecutions {
  import opened Wrappers
  import CQ = ConcurrencyQueues

  datatype Status = New | Running | Waiting | Success | Error | Canceled | Crashed | Unknown

  datatype Mode = Webhook | Trigger | Chat | Evaluation | Manual | Retry | Integrated | Internal | Cli | ErrorMode

  /** One object of the table; `settled` is its post-execute promise, `handled` that its handler ran. */
  datatype Run = Run(
    executionId: string,
    status: Status,
    startedAt: int,
    response: Option<nat>,
    workflowExecution: Option<nat>,
    settled: bool,
    handled: bool,
    holdsSlot: bool)

  datatype Stage = Queued | Ready(holdsSlot: bool)

  /** A call of `add` that waits for capacity or for the database. */
  datatype Add = Add(executionId: string, resumes: bool, stage: Stage)

  /** `gated` says whether the production queue exists and the concurrency control is enabled. */
  datatype Table = Table(
    active: map<string, nat>,
    runs: map<nat, Run>,
    adds: map<nat, Add>,
    responseModes: map<string, nat>,
    queue: CQ.Queue,
    gated: bool)

  function Empty(limit: nat, gated: bool): Table {
    Table(map[], map[], map[], map[], CQ.Queue(limit, []), gated)
  }

  // ---------- operations ----------

  /** The modes that go through the production queue; evaluation runs are gated elsewhere. */
  predicate NeedsSlot(mode: Mode) {
    mode == Webhook || mode == Trigger || mode == Chat
  }

  predicate Fresh(t: Table, g: nat) {
    g !in t.adds && g !in t.runs
  }

  function WithQueue(t: Table, r: (CQ.Queue, Option<nat>)): Table {
    if r.1.Some? && r.1.value in t.adds then
      t.(queue := r.0, adds := t.adds[r.1.value := t.adds[r.1.value].(stage := Ready(true))])
    else
      t.(queue := r.0)
  }

  function Released(t: Table, holdsSlot: bool): Table {
    if holdsSlot && t.gated then WithQueue(t, CQ.Dequeued(t.queue)) else t
  }

  /** `add` up to the point where it waits for capacity or for the database. */
  function BeginAdd(t: Table, g: nat, executionId: string, resumes: bool, mode: Mode): Table {
    if !Fresh(t, g) then t
    else if !t.gated || !NeedsSlot(mode) then t.(adds := t.adds[g := Add(executionId, resumes, Ready(false))])
    else
      var (q, now) := CQ.Enqueued(t.queue, CQ.Item(executionId, g));
      t.(queue := q, adds := t.adds[g := Add(executionId, resumes, if now then Ready(true) else Queued)])
  }

  predicate CanEnd(t: Table, g: nat) {
    g in t.adds && t.adds[g].stage.Ready?
  }

  predicate Linked(t: Table) {
    forall id :: id in t.active ==> t.active[id] in t.runs && t.runs[t.active[id]].executionId == id
  }

  /** The object that a resuming `add` puts in the place of the suspended one. */
  function NewRun(t: Table, g: nat, now: int): Run
    requires CanEnd(t, g) && Linked(t)
  {
    var id := t.adds[g].executionId;
    if id in t.active then
      var previous := t.runs[t.active[id]];
      Run(id, Running, previous.startedAt, previous.response, None, false, false, t.adds[g].stage.holdsSlot)
    else
      Run(id, Running, now, None, None, false, false, t.adds[g].stage.holdsSlot)
  }

  /** The database accepted: the run enters the table. */
  function CommitAdd(t: Table, g: nat, now: int): Table
    requires Linked(t)
  {
    if !CanEnd(t, g) then t
    else
      t.(adds := t.adds - {g},
         runs := t.runs[g := NewRun(t, g, now)],
         active := t.active[t.adds[g].executionId := g])
  }

  /** The database refused, or failed: the slot goes back and nothing else changes. */
  function AbortAdd(t: Table, g: nat): Table {
    if !CanEnd(t, g) then t
    else Released(t.(adds := t.adds - {g}), t.adds[g].stage.holdsSlot)
  }

  predicate Has(t: Table, id: string) { id in t.active }

  /** The assignments that the methods of the class make to an object of the table. */
  datatype Change =
    | ToStatus(status: Status)
    | ToSettled
    | ToResponse(response: nat)
    | ToWorkflow(workflowExecution: nat)

  /** A settled promise stays settled. */
  function Changed(r: Run, c: Change): Run {
    match c
    case ToStatus(status) => r.(status := status)
    case ToSettled => r.(settled := true)
    case ToResponse(response) => r.(response := Some(response))
    case ToWorkflow(w) => r.(workflowExecution := Some(w))
  }

  function Assign(t: Table, id: string, c: Change): Table
    requires Linked(t)
  {
    if id !in t.active then t
    else t.(runs := t.runs[t.active[id] := Changed(t.runs[t.active[id]], c)])
  }

  function WithResponseMode(t: Table, id: string, responseMode: nat): Table {
    t.(responseModes := t.responseModes[id := responseMode])
  }

  function Dropped(t: Table, ids: set<string>): Table {
    t.(active := t.active - ids, responseModes := t.responseModes - ids)
  }

  function Stop(t: Table, id: string): Table
    requires Linked(t)
  {
    if id !in t.active then t
    else if t.runs[t.active[id]].status == Waiting then Dropped(t, {id})
    else Assign(t, id, ToSettled)
  }

  predicate Pending(t: Table, g: nat) {
    g in t.runs && t.runs[g].settled && !t.runs[g].handled
  }

  function MarkHandled(t: Table, g: nat): Table
    requires g in t.runs
  {
    t.(runs := t.runs[g := t.runs[g].(handled := true, holdsSlot := false)])
  }

  function ForgetWorkflow(t: Table, g: nat): Table
    requires g in t.runs
  {
    t.(runs := t.runs[g := t.runs[g].(workflowExecution := None)])
  }

  /** The `finally` handler of the promise of generation `g`. */
  function Handle(t: Table, g: nat): Table {
    if !Pending(t, g) then t
    else
      var u := Released(MarkHandled(t, g), t.runs[g].holdsSlot);
      if t.runs[g].status == Waiting then ForgetWorkflow(u, g)
      else Dropped(u, {t.runs[g].executionId})
  }

  /** A queued execution is stopped before it got a slot; its `add` never goes on. */
  function CancelQueued(t: Table, id: string): Table {
    if !t.gated then t else WithQueue(t, CQ.Removed(t.queue, id))
  }

  /** Several queued executions, one after the other. */
  function CancelAll(t: Table, ids: seq<string>): Table
    decreases |ids|
  {
    if ids == [] then t else CancelAll(CancelQueued(t, ids[0]), ids[1..])
  }

  /** `removeAll`: nothing while the gate is disabled, else every execution that is queued now. */
  function RemoveAll(t: Table): Table {
    if !t.gated then t else CancelAll(t, CQ.Ids(t.queue.waiting))
  }

  predicate Shed(t: Table, id: string)
    requires Linked(t)
  {
    id in t.active && (t.runs[t.active[id]].status == Waiting || t.runs[t.active[id]].status == New)
  }

  predicate Suspended(t: Table, id: string)
    requires Linked(t)
  {
    id in t.active && t.runs[t.active[id]].status == Waiting
  }

  function SuspendedAmong(t: Table, ids: set<string>): set<string>
    requires Linked(t)
  {
    set id | id in ids && Suspended(t, id)
  }

  function ShedAmong(t: Table, ids: set<string>): set<string>
    requires Linked(t)
  {
    set id | id in ids && Shed(t, id)
  }

  function CancelledAmong(t: Table, ids: set<string>): set<nat>
    requires Linked(t)
  {
    set id | id in ids && id in t.active && !Suspended(t, id) :: t.active[id]
  }

  function SettleAll(runs: map<nat, Run>, gs: set<nat>): map<nat, Run> {
    map g | g in runs :: if g in gs then runs[g].(settled := true) else runs[g]
  }

  /** The first pass of `shutdown`, as far as it concerns the entries in `ids`. */
  function ShutdownOf(t: Table, ids: set<string>, regular: bool, cancelAll: bool): Table
    requires Linked(t)
  {
    var u := if regular then t.(gated := false) else t;
    if regular && cancelAll then
      Dropped(u, SuspendedAmong(t, ids)).(runs := SettleAll(t.runs, CancelledAmong(t, ids)))
    else
      u.(active := t.active - ShedAmong(t, ids))
  }

  /** All of it. */
  function Shutdown(t: Table, regular: bool, cancelAll: bool): Table
    requires Linked(t)
  {
    ShutdownOf(t, t.active.Keys, regular, cancelAll)
  }

  // ---------- one process, any sequence of operations ----------

  datatype Op =
    | OpBeginAdd(g: nat, executionId: string, resumes: bool, mode: Mode)
    | OpCommitAdd(g: nat, now: int)
    | OpAbortAdd(g: nat)
    | OpAssign(executionId: string, change: Change)
    | OpSetResponseMode(executionId: string, responseMode: nat)
    | OpStop(executionId: string)
    | OpHandle(g: nat)
    | OpCancelQueued(executionId: string)
    | OpShutdown(regular: bool, cancelAll: bool)
    | OpRemoveAll

  function Step(t: Table, op: Op): Table
    requires Linked(t)
  {
    match op
    case OpBeginAdd(g, id, resumes, mode) => BeginAdd(t, g, id, resumes, mode)
    case OpCommitAdd(g, now) => CommitAdd(t, g, now)
    case OpAbortAdd(g) => AbortAdd(t, g)
    case OpAssign(id, c) => Assign(t, id, c)
    case OpSetResponseMode(id, m) => WithResponseMode(t, id, m)
    case OpStop(id) => Stop(t, id)
    case OpHandle(g) => Handle(t, g)
    case OpCancelQueued(id) => CancelQueued(t, id)
    case OpShutdown(regular, cancelAll) => Shutdown(t, regular, cancelAll)
    case OpRemoveAll => RemoveAll(t)
  }

  /** Everybody in the waiting list is an `add` of this table that has no slot yet. */
  predicate Backed(adds: map<nat, Add>, items: seq<CQ.Item>) {
    && (forall i :: 0 <= i < |items| ==> items[i].ticket in adds && adds[items[i].ticket].stage == Queued)
    && (forall i, j :: 0 <= i < j < |items| ==> items[i].ticket != items[j].ticket)
  }

  predicate HandledRunsAreDone(t: Table) {
    forall g :: g in t.runs && t.runs[g].handled ==> t.runs[g].settled && !t.runs[g].holdsSlot
  }

  /** What holds in every reachable table. */
  predicate WellFormed(t: Table) {
    && Linked(t)
    && t.adds.Keys !! t.runs.Keys
    && Backed(t.adds, t.queue.waiting)
    && HandledRunsAreDone(t)
  }

  lemma PassingOnKeepsBacked(t: Table, q: CQ.Queue)
    requires Backed(t.adds, q.waiting)
    ensures var u := WithQueue(t, CQ.NextResolved(q));
      Backed(u.adds, u.queue.waiting) && u.adds.Keys == t.adds.Keys
  {
    if q.waiting != [] {
      assert forall j :: 0 <= j < |q.waiting[1..]| ==> q.waiting[1..][j] == q.waiting[j + 1];
    }
  }

  lemma RemovalKeepsBacked(adds: map<nat, Add>, items: seq<CQ.Item>, i: nat)
    requires Backed(adds, items) && i < |items|
    ensures Backed(adds, CQ.Without(items, i))
  {
    var rest := CQ.Without(items, i);
    assert forall j :: 0 <= j < |rest| ==> rest[j] == items[if j < i then j else j + 1];
  }

  lemma NewAddKeepsBacked(adds: map<nat, Add>, items: seq<CQ.Item>, g: nat, add: Add)
    requires Backed(adds, items) && g !in adds
    ensures Backed(adds[g := add], items)
    ensures add.stage == Queued ==> Backed(adds[g := add], items + [CQ.Item(add.executionId, g)])
  {
  }

  lemma BeginAddKeepsWellFormed(t: Table, g: nat, id: string, resumes: bool, mode: Mode)
    requires WellFormed(t)
    ensures WellFormed(BeginAdd(t, g, id, resumes, mode))
  {
    if Fresh(t, g) {
      NewAddKeepsBacked(t.adds, t.queue.waiting, g, BeginAdd(t, g, id, resumes, mode).adds[g]);
    }
  }

  lemma CommitAddKeepsWellFormed(t: Table, g: nat, now: int)
    requires WellFormed(t)
    ensures WellFormed(CommitAdd(t, g, now))
  {
  }

  lemma ReleaseKeepsWellFormed(t: Table, holdsSlot: bool)
    requires WellFormed(t)
    ensures var u := Released(t, holdsSlot);
      WellFormed(u) && u.runs == t.runs && u.active == t.active
  {
    PassingOnKeepsBacked(t, t.queue.(capacity := t.queue.capacity + 1));
  }

  lemma AbortAddKeepsWellFormed(t: Table, g: nat)
    requires WellFormed(t)
    ensures WellFormed(AbortAdd(t, g))
  {
    if CanEnd(t, g) {
      ReleaseKeepsWellFormed(t.(adds := t.adds - {g}), t.adds[g].stage.holdsSlot);
    }
  }

  lemma MarkHandledKeepsWellFormed(t: Table, g: nat)
    requires WellFormed(t) && Pending(t, g)
    ensures WellFormed(MarkHandled(t, g))
  {
  }

  lemma ForgetKeepsWellFormed(t: Table, g: nat)
    requires WellFormed(t) && g in t.runs
    ensures WellFormed(ForgetWorkflow(t, g))
  {
  }

  lemma DroppedKeepsWellFormed(t: Table, ids: set<string>)
    requires WellFormed(t)
    ensures WellFormed(Dropped(t, ids))
  {
  }

  lemma HandleKeepsWellFormed(t: Table, g: nat)
    requires WellFormed(t)
    ensures WellFormed(Handle(t, g))
  {
    if Pending(t, g) {
      MarkHandledKeepsWellFormed(t, g);
      ReleaseKeepsWellFormed(MarkHandled(t, g), t.runs[g].holdsSlot);
      var u := Released(MarkHandled(t, g), t.runs[g].holdsSlot);
      ForgetKeepsWellFormed(u, g);
      DroppedKeepsWellFormed(u, {t.runs[g].executionId});
    }
  }

  lemma PassingOnKeepsWellFormed(t: Table, q: CQ.Queue)
    requires WellFormed(t) && Backed(t.adds, q.waiting)
    ensures WellFormed(WithQueue(t, CQ.NextResolved(q)))
  {
    PassingOnKeepsBacked(t, q);
  }

  lemma CancelKeepsWellFormed(t: Table, id: string)
    requires WellFormed(t)
    ensures WellFormed(CancelQueued(t, id))
  {
    var i := CQ.IndexOf(t.queue.waiting, id);
    if i < |t.queue.waiting| {
      RemovalKeepsBacked(t.adds, t.queue.waiting, i);
      PassingOnKeepsWellFormed(t, CQ.Queue(t.queue.capacity + 1, CQ.Without(t.queue.waiting, i)));
    } else {
      assert WithQueue(t, CQ.Removed(t.queue, id)) == t;
    }
  }

  /** Only adds without a slot are concerned by a removal. */
  lemma CancelTouchesAdds(t: Table, id: string)
    ensures var u := CancelQueued(t, id);
      && u.runs == t.runs && u.active == t.active && u.responseModes == t.responseModes && u.gated == t.gated
      && SameAdds(t.adds, u.adds)
  {
  }

  predicate SameAdds(a: map<nat, Add>, b: map<nat, Add>) {
    a.Keys == b.Keys && forall g | g in a :: b[g].executionId == a[g].executionId && b[g].resumes == a[g].resumes
  }

  lemma {:induction false} CancelAllKeepsWellFormed(t: Table, ids: seq<string>)
    requires WellFormed(t)
    ensures var u := CancelAll(t, ids);
      && WellFormed(u)
      && u.runs == t.runs && u.active == t.active && u.responseModes == t.responseModes && u.gated == t.gated
      && SameAdds(t.adds, u.adds)
    decreases |ids|
  {
    if ids != [] {
      CancelKeepsWellFormed(t, ids[0]);
      CancelTouchesAdds(t, ids[0]);
      CancelAllKeepsWellFormed(CancelQueued(t, ids[0]), ids[1..]);
    }
  }

  lemma RemoveAllKeepsWellFormed(t: Table)
    requires WellFormed(t)
    ensures var u := RemoveAll(t);
      && WellFormed(u)
      && u.runs == t.runs && u.active == t.active && u.responseModes == t.responseModes && u.gated == t.gated
      && SameAdds(t.adds, u.adds)
  {
    if t.gated {
      CancelAllKeepsWellFormed(t, CQ.Ids(t.queue.waiting));
    }
  }

  /** The operations that neither take nor return a slot and create no run. */
  predicate KeepsSlots(op: Op) {
    !op.OpBeginAdd? && !op.OpCommitAdd? && !op.OpAbortAdd? && !op.OpHandle? && !op.OpCancelQueued? && !op.OpRemoveAll?
  }

  predicate SameSlots(t: Table, u: Table) {
    && u.adds == t.adds && u.queue == t.queue && u.runs.Keys == t.runs.Keys
    && (forall g :: g in t.runs ==>
          && u.runs[g].executionId == t.runs[g].executionId
          && u.runs[g].holdsSlot == t.runs[g].holdsSlot
          && u.runs[g].handled == t.runs[g].handled
          && u.runs[g].startedAt == t.runs[g].startedAt
          && (t.runs[g].settled ==> u.runs[g].settled))
  }

  predicate OnlyFewerActive(t: Table, u: Table) {
    u.active.Keys <= t.active.Keys && forall id :: id in u.active ==> u.active[id] == t.active[id]
  }

  lemma ShutdownKeepsSlots(t: Table, regular: bool, cancelAll: bool)
    requires Linked(t)
    ensures SameSlots(t, Shutdown(t, regular, cancelAll)) && OnlyFewerActive(t, Shutdown(t, regular, cancelAll))
  {
  }

  lemma ChangedKeeps(r: Run, c: Change)
    ensures var n := Changed(r, c);
      && n.executionId == r.executionId && n.holdsSlot == r.holdsSlot && n.handled == r.handled
      && n.startedAt == r.startedAt && (r.settled ==> n.settled)
  {
  }

  lemma AssignKeepsSlots(t: Table, id: string, c: Change)
    requires Linked(t)
    ensures SameSlots(t, Assign(t, id, c)) && OnlyFewerActive(t, Assign(t, id, c))
  {
    if id in t.active {
      ChangedKeeps(t.runs[t.active[id]], c);
    }
  }

  lemma OtherOperationsKeepSlots(t: Table, op: Op)
    requires Linked(t) && KeepsSlots(op)
    ensures SameSlots(t, Step(t, op)) && OnlyFewerActive(t, Step(t, op))
  {
    match op
    case OpShutdown(regular, cancelAll) => ShutdownKeepsSlots(t, regular, cancelAll);
    case OpAssign(id, c) => AssignKeepsSlots(t, id, c);
    case OpStop(id) => AssignKeepsSlots(t, id, ToSettled);
    case _ =>
  }

  lemma WellFormedStep(t: Table, op: Op)
    requires WellFormed(t)
    ensures WellFormed(Step(t, op))
  {
    match op
    case OpBeginAdd(g, id, resumes, mode) => BeginAddKeepsWellFormed(t, g, id, resumes, mode);
    case OpCommitAdd(g, now) => CommitAddKeepsWellFormed(t, g, now);
    case OpAbortAdd(g) => AbortAddKeepsWellFormed(t, g);
    case OpHandle(g) => HandleKeepsWellFormed(t, g);
    case OpCancelQueued(id) => CancelKeepsWellFormed(t, id);
    case OpRemoveAll => RemoveAllKeepsWellFormed(t);
    case _ =>
      OtherOperationsKeepSlots(t, op);
  }

  function After(t: Table, ops: seq<Op>): Table
    requires WellFormed(t)
    decreases |ops|
  {
    if ops == [] then t
    else
      WellFormedStep(t, ops[0]);
      After(Step(t, ops[0]), ops[1..])
  }

  // ---------- capacity ----------

  /** The slots in use: each belongs to one unfinished `add` or to one run, never to both. */
  function Held(t: Table): set<nat> {
    (set g | g in t.adds && t.adds[g].stage == Ready(true)) + (set g | g in t.runs && t.runs[g].holdsSlot)
  }

  function LoadOf(t: Table): CQ.Load {
    CQ.Load(t.queue, Held(t))
  }

  /** What an operation means for the queue: an arrival, a departure, a removal, or nothing. */
  function QueueOps(t: Table, op: Op): seq<CQ.Op> {
    match op
    case OpBeginAdd(g, id, _, mode) => if Fresh(t, g) && NeedsSlot(mode) then [CQ.Arrive(CQ.Item(id, g))] else []
    case OpAbortAdd(g) => if g in t.adds && t.adds[g].stage == Ready(true) then [CQ.Finish(g)] else []
    case OpHandle(g) => if Pending(t, g) && t.runs[g].holdsSlot then [CQ.Finish(g)] else []
    case OpCancelQueued(id) => [CQ.RemoveQueued(id)]
    case OpRemoveAll => Removals(CQ.Ids(t.queue.waiting))
    case _ => []
  }

  function Removals(ids: seq<string>): seq<CQ.Op> {
    if ids == [] then [] else [CQ.RemoveQueued(ids[0])] + Removals(ids[1..])
  }

  lemma AfterOne(l: CQ.Load, op: CQ.Op)
    ensures CQ.After(l, [op]) == CQ.Step(l, op)
  {
    assert CQ.After(l, [op]) == CQ.After(CQ.Step(l, op), [op][1..]);
  }

  lemma PassingOnAdmits(t: Table, q: CQ.Queue)
    requires Backed(t.adds, q.waiting) && t.adds.Keys !! t.runs.Keys
    ensures LoadOf(WithQueue(t, CQ.NextResolved(q))) == CQ.Admit(CQ.NextResolved(q), Held(t))
  {
    var r := CQ.NextResolved(q);
    if r.1.Some? {
      assert r.1.value == q.waiting[0].ticket;
      assert Held(WithQueue(t, r)) == Held(t) + {r.1.value};
    } else {
      assert Held(WithQueue(t, r)) == Held(t);
    }
  }

  lemma BeginAddArrives(t: Table, g: nat, id: string, resumes: bool, mode: Mode)
    requires WellFormed(t) && t.gated
    ensures LoadOf(BeginAdd(t, g, id, resumes, mode)) == CQ.After(LoadOf(t), QueueOps(t, OpBeginAdd(g, id, resumes, mode)))
  {
    var u := BeginAdd(t, g, id, resumes, mode);
    if Fresh(t, g) && NeedsSlot(mode) {
      AfterOne(LoadOf(t), CQ.Arrive(CQ.Item(id, g)));
      if CQ.Enqueued(t.queue, CQ.Item(id, g)).1 {
        assert Held(u) == Held(t) + {g};
      } else {
        assert Held(u) == Held(t);
      }
    } else {
      assert Held(u) == Held(t);
    }
  }

  lemma AbortAddFinishes(t: Table, g: nat)
    requires WellFormed(t) && t.gated
    ensures LoadOf(AbortAdd(t, g)) == CQ.After(LoadOf(t), QueueOps(t, OpAbortAdd(g)))
  {
    if CanEnd(t, g) {
      var u := t.(adds := t.adds - {g});
      if t.adds[g].stage.holdsSlot {
        assert Held(u) == Held(t) - {g};
        PassingOnAdmits(u, t.queue.(capacity := t.queue.capacity + 1));
        AfterOne(LoadOf(t), CQ.Finish(g));
      } else {
        assert Held(u) == Held(t);
      }
    }
  }

  lemma HeldOnceHandled(t: Table, g: nat)
    requires WellFormed(t) && Pending(t, g)
    ensures Held(MarkHandled(t, g)) == if t.runs[g].holdsSlot then Held(t) - {g} else Held(t)
    ensures MarkHandled(t, g).adds.Keys !! MarkHandled(t, g).runs.Keys
  {
  }

  lemma HeldWithoutWorkflow(t: Table, g: nat)
    requires g in t.runs
    ensures Held(ForgetWorkflow(t, g)) == Held(t)
  {
  }

  lemma HandleFinishes(t: Table, g: nat)
    requires WellFormed(t) && t.gated
    ensures LoadOf(Handle(t, g)) == CQ.After(LoadOf(t), QueueOps(t, OpHandle(g)))
  {
    if Pending(t, g) {
      HeldOnceHandled(t, g);
      var u := MarkHandled(t, g);
      var v := Released(u, t.runs[g].holdsSlot);
      assert v.runs == u.runs && LoadOf(v) == CQ.After(LoadOf(t), QueueOps(t, OpHandle(g))) by {
        if t.runs[g].holdsSlot {
          PassingOnAdmits(u, t.queue.(capacity := t.queue.capacity + 1));
          AfterOne(LoadOf(t), CQ.Finish(g));
        }
      }
      HeldWithoutWorkflow(v, g);
    }
  }

  lemma CancelRemoves(t: Table, id: string)
    requires WellFormed(t) && t.gated
    ensures LoadOf(CancelQueued(t, id)) == CQ.After(LoadOf(t), QueueOps(t, OpCancelQueued(id)))
  {
    AfterOne(LoadOf(t), CQ.RemoveQueued(id));
    var i := CQ.IndexOf(t.queue.waiting, id);
    if i < |t.queue.waiting| {
      RemovalKeepsBacked(t.adds, t.queue.waiting, i);
      PassingOnAdmits(t, CQ.Queue(t.queue.capacity + 1, CQ.Without(t.queue.waiting, i)));
    }
  }

  lemma {:induction false} CancelAllRemoves(t: Table, ids: seq<string>)
    requires WellFormed(t) && t.gated
    ensures LoadOf(CancelAll(t, ids)) == CQ.After(LoadOf(t), Removals(ids))
    decreases |ids|
  {
    if ids != [] {
      var op := CQ.RemoveQueued(ids[0]);
      CancelKeepsWellFormed(t, ids[0]);
      CancelTouchesAdds(t, ids[0]);
      CancelRemoves(t, ids[0]);
      AfterOne(LoadOf(t), op);
      CancelAllRemoves(CancelQueued(t, ids[0]), ids[1..]);
      assert ([op] + Removals(ids[1..]))[1..] == Removals(ids[1..]);
    }
  }

  /** While the gate is enabled the table does to the queue exactly what `QueueOps` says. */
  lemma StepDrivesQueue(t: Table, op: Op)
    requires WellFormed(t) && t.gated && Step(t, op).gated
    ensures LoadOf(Step(t, op)) == CQ.After(LoadOf(t), QueueOps(t, op))
  {
    match op
    case OpBeginAdd(g, id, resumes, mode) => BeginAddArrives(t, g, id, resumes, mode);
    case OpCommitAdd(g, now) => assert Held(Step(t, op)) == Held(t);
    case OpAbortAdd(g) => AbortAddFinishes(t, g);
    case OpHandle(g) => HandleFinishes(t, g);
    case OpCancelQueued(id) => CancelRemoves(t, id);
    case OpRemoveAll => CancelAllRemoves(t, CQ.Ids(t.queue.waiting));
    case _ =>
      OtherOperationsKeepSlots(t, op);
      assert Held(Step(t, op)) == Held(t);
  }

  predicate CapacityConserved(t: Table, limit: nat) {
    t.gated ==> CQ.Conserved(LoadOf(t), limit)
  }

  lemma GateNeverReopens(t: Table, op: Op)
    requires WellFormed(t) && Step(t, op).gated
    ensures t.gated
  {
    if op.OpRemoveAll? {
      RemoveAllKeepsWellFormed(t);
    }
  }

  /**
   In every reachable table, until the gate is disabled, free slots, used slots and waiting
   executions add up to the limit, and nobody waits beside a free slot.
   */
  lemma {:induction false} CapacityAlwaysConserved(t: Table, ops: seq<Op>, limit: nat)
    requires WellFormed(t) && CapacityConserved(t, limit)
    ensures CapacityConserved(After(t, ops), limit)
    decreases |ops|
  {
    if ops != [] {
      WellFormedStep(t, ops[0]);
      if Step(t, ops[0]).gated {
        GateNeverReopens(t, ops[0]);
        StepDrivesQueue(t, ops[0]);
        CQ.AlwaysConserved(LoadOf(t), QueueOps(t, ops[0]), limit);
      }
      CapacityAlwaysConserved(Step(t, ops[0]), ops[1..], limit);
    }
  }

  lemma OthersKeepRun(t: Table, op: Op, g: nat)
    requires WellFormed(t) && g in t.runs && !KeepsSlots(op) && !op.OpHandle?
    ensures g in Step(t, op).runs && Step(t, op).runs[g] == t.runs[g]
  {
    if op.OpRemoveAll? {
      RemoveAllKeepsWellFormed(t);
    }
  }

  /** A run gives its slot back in its own settle handler and at no other moment. */
  lemma SlotReturnedOnlyByHandler(t: Table, op: Op, g: nat)
    requires WellFormed(t) && g in t.runs
    ensures g in Step(t, op).runs
    ensures t.runs[g].holdsSlot && !Step(t, op).runs[g].holdsSlot
      <==> t.runs[g].holdsSlot && op == OpHandle(g) && t.runs[g].settled
    ensures !t.runs[g].holdsSlot ==> !Step(t, op).runs[g].holdsSlot
    ensures t.runs[g].handled ==> Step(t, op).runs[g].handled
  {
    if KeepsSlots(op) {
      OtherOperationsKeepSlots(t, op);
    } else if op.OpHandle? {
      if Pending(t, op.g) {
        HandleEffect(t, op.g);
      }
    } else {
      OthersKeepRun(t, op, g);
    }
  }

  lemma AddAndRemove(adds: map<nat, Add>, g: nat, add: Add)
    requires g !in adds
    ensures adds[g := add] - {g} == adds
  {
  }

  /** An `add` that did not have to wait and is refused leaves the table as it was. */
  lemma FailedAddRestoresTable(t: Table, g: nat, id: string, resumes: bool, mode: Mode, limit: nat)
    requires WellFormed(t) && CapacityConserved(t, limit) && Fresh(t, g)
    requires CanEnd(BeginAdd(t, g, id, resumes, mode), g)
    ensures AbortAdd(BeginAdd(t, g, id, resumes, mode), g) == t
  {
    if t.gated && NeedsSlot(mode) {
      assert t.queue.capacity > 0 && t.queue.waiting == [];
      AddAndRemove(t.adds, g, Add(id, resumes, Ready(true)));
    } else {
      AddAndRemove(t.adds, g, Add(id, resumes, Ready(false)));
    }
  }

  predicate NothingCancelledInQueue(ops: seq<Op>) {
    forall op | op in ops :: !op.OpCancelQueued? && !op.OpRemoveAll?
  }

  lemma NoQueueRemoval(t: Table, op: Op)
    requires !op.OpCancelQueued? && !op.OpRemoveAll?
    ensures CQ.NoneRemovesBesideOthers(LoadOf(t), QueueOps(t, op))
  {
    var ops := QueueOps(t, op);
    if ops != [] {
      assert ops[1..] == [];
    }
  }

  lemma WithinAtEnd(l: CQ.Load, ops: seq<CQ.Op>, limit: nat)
    requires CQ.WithinLimit(l, ops, limit)
    ensures |CQ.After(l, ops).running| <= limit
    decreases |ops|
  {
    if ops != [] {
      WithinAtEnd(CQ.Step(l, ops[0]), ops[1..], limit);
    }
  }

  /** As long as no queued execution is cancelled, no more runs hold a slot than there are slots. */
  lemma {:induction false} HeldWithinLimit(t: Table, ops: seq<Op>, limit: nat)
    requires WellFormed(t) && CapacityConserved(t, limit)
    requires t.gated ==> |Held(t)| <= limit
    requires NothingCancelledInQueue(ops)
    ensures After(t, ops).gated ==> |Held(After(t, ops))| <= limit
    decreases |ops|
  {
    if ops != [] {
      assert ops[0] in ops;
      WellFormedStep(t, ops[0]);
      var u := Step(t, ops[0]);
      if u.gated {
        GateNeverReopens(t, ops[0]);
        StepDrivesQueue(t, ops[0]);
        CQ.AlwaysConserved(LoadOf(t), QueueOps(t, ops[0]), limit);
        NoQueueRemoval(t, ops[0]);
        CQ.LimitRespectedExactly(LoadOf(t), QueueOps(t, ops[0]), limit);
        WithinAtEnd(LoadOf(t), QueueOps(t, ops[0]), limit);
      }
      HeldWithinLimit(u, ops[1..], limit);
    }
  }

  // ---------- shutdown ----------

  /** The run still has something to do: it has not settled, or its handler will remove the entry. */
  predicate Unfinished(t: Table, g: nat) {
    g in t.runs && !t.runs[g].handled && (!t.runs[g].settled || t.runs[g].status != Waiting)
  }

  /** A run with something to do is the one that the table shows, if it shows any. */
  predicate Owned(t: Table) {
    forall g | g in t.runs :: Unfinished(t, g) && t.runs[g].executionId in t.active ==> t.active[t.runs[g].executionId] == g
  }

  /** An entry outlives its handler only while its execution is suspended. */
  predicate Tidy(t: Table)
    requires Linked(t)
  {
    forall id :: id in t.active && t.runs[t.active[id]].handled ==> t.runs[t.active[id]].status == Waiting
  }

  function SuspendedIds(t: Table): set<string>
    requires Linked(t)
  {
    set id | id in t.active && Suspended(t, id)
  }

  predicate OnlyHandlers(ops: seq<Op>) {
    forall op | op in ops :: op.OpHandle?
  }

  /** Every entry has settled, and its handler is still among the ones to come if it is pending. */
  predicate HandlersCover(t: Table, ops: seq<Op>)
    requires Linked(t)
  {
    forall id | id in t.active ::
      t.runs[t.active[id]].settled && (Pending(t, t.active[id]) ==> OpHandle(t.active[id]) in ops)
  }

  /** What the handler does to the runs and to the table, apart from passing its slot on. */
  lemma HandleEffect(t: Table, g: nat)
    requires WellFormed(t) && Pending(t, g)
    ensures var u := Handle(t, g);
      var r := t.runs[g];
      var done := r.(handled := true, holdsSlot := false);
      && u.runs == t.runs[g := if r.status == Waiting then done.(workflowExecution := None) else done]
      && u.active == (if r.status == Waiting then t.active else t.active - {r.executionId})
  {
    MarkHandledKeepsWellFormed(t, g);
    ReleaseKeepsWellFormed(MarkHandled(t, g), t.runs[g].holdsSlot);
  }

  lemma HandleKeepsOwned(t: Table, g: nat)
    requires WellFormed(t) && Owned(t) && Tidy(t)
    ensures var u := Handle(t, g);
      WellFormed(u) && Owned(u) && Tidy(u) && OnlyFewerActive(t, u)
  {
    HandleKeepsWellFormed(t, g);
    if Pending(t, g) {
      HandleEffect(t, g);
      var u := Handle(t, g);
      forall h | h in u.runs && Unfinished(u, h) && u.runs[h].executionId in u.active
        ensures u.active[u.runs[h].executionId] == h
      {
        assert Unfinished(t, h);
      }
    }
  }

  lemma HandleKeepsSuspended(t: Table, g: nat)
    requires WellFormed(t) && Owned(t)
    ensures WellFormed(Handle(t, g)) && SuspendedIds(Handle(t, g)) == SuspendedIds(t)
  {
    HandleKeepsWellFormed(t, g);
    if Pending(t, g) {
      HandleEffect(t, g);
      var u := Handle(t, g);
      forall id | id in t.active ensures id in SuspendedIds(u) <==> id in SuspendedIds(t) {
        assert Unfinished(t, g) && t.runs[g].executionId == id ==> t.active[id] == g;
      }
    }
  }

  lemma HandleOne(t: Table, g: nat)
    requires WellFormed(t) && Owned(t) && Tidy(t)
    ensures var u := Handle(t, g);
      WellFormed(u) && Owned(u) && Tidy(u) && SuspendedIds(u) == SuspendedIds(t)
      && OnlyFewerActive(t, u)
      && u.runs.Keys == t.runs.Keys
      && (forall h | h in t.runs :: u.runs[h].settled == t.runs[h].settled)
      && (forall h | h in t.runs :: u.runs[h].handled == (t.runs[h].handled || (h == g && Pending(t, g))))
  {
    HandleKeepsOwned(t, g);
    HandleKeepsSuspended(t, g);
    if Pending(t, g) {
      HandleEffect(t, g);
    }
  }

  /** Once every entry has settled, running the handlers leaves exactly the suspended executions. */
  lemma {:induction false} HandlersLeaveSuspended(t: Table, ops: seq<Op>)
    requires WellFormed(t) && Owned(t) && Tidy(t)
    requires OnlyHandlers(ops) && HandlersCover(t, ops)
    ensures After(t, ops).active.Keys == SuspendedIds(t)
    decreases |ops|
  {
    if ops == [] {
    } else {
      assert ops[0] in ops;
      HandleOne(t, ops[0].g);
      var u := Step(t, ops[0]);
      forall id | id in u.active && Pending(u, u.active[id]) ensures OpHandle(u.active[id]) in ops[1..] {
        assert OpHandle(u.active[id]) in ops;
        assert OpHandle(u.active[id]) != ops[0];
      }
      HandlersLeaveSuspended(u, ops[1..]);
    }
  }

  lemma ShutdownKeepsInvariants(t: Table, regular: bool, cancelAll: bool)
    requires WellFormed(t) && Owned(t) && Tidy(t)
    ensures var u := Shutdown(t, regular, cancelAll); WellFormed(u) && Owned(u) && Tidy(u)
  {
    ShutdownKeepsSlots(t, regular, cancelAll);
  }

  /** Shutting down with `cancelAll`: after the pending handlers the table is empty. */
  lemma ShutdownCancellingEmptiesTable(t: Table, ops: seq<Op>)
    requires WellFormed(t) && Owned(t) && Tidy(t) && OnlyHandlers(ops)
    requires var u := Shutdown(t, true, true);
      forall g | g in u.runs && Pending(u, g) :: OpHandle(g) in ops
    ensures var u := Shutdown(t, true, true);
      WellFormed(u) && After(u, ops).active == map[]
  {
    var u := Shutdown(t, true, true);
    ShutdownKeepsInvariants(t, true, true);
    assert SuspendedIds(u) == {};
    HandlersLeaveSuspended(u, ops);
  }

  /** Without it exactly the entries that are neither waiting nor new survive the first pass. */
  lemma ShutdownWaitsForRunning(t: Table, regular: bool, cancelAll: bool)
    requires Linked(t) && !(regular && cancelAll)
    ensures var u := Shutdown(t, regular, cancelAll);
      && u.runs == t.runs
      && forall id :: id in u.active <==>
           id in t.active && t.runs[t.active[id]].status != Waiting && t.runs[t.active[id]].status != New
  {
  }

  lemma {:induction false} CancelAllDrains(t: Table, ids: seq<string>)
    requires t.gated
    ensures CancelAll(t, ids).queue == CQ.Drained(t.queue, ids).0
    decreases |ids|
  {
    if ids != [] {
      CancelTouchesAdds(t, ids[0]);
      CancelAllDrains(CancelQueued(t, ids[0]), ids[1..]);
    }
  }

  /** With each of `tickets` let through. */
  function Admitted(adds: map<nat, Add>, tickets: seq<nat>): map<nat, Add> {
    map g | g in adds :: if g in tickets then adds[g].(stage := Ready(true)) else adds[g]
  }

  lemma {:induction false} CancelAllAdmits(t: Table, ids: seq<string>)
    requires t.gated
    ensures CancelAll(t, ids).adds == Admitted(t.adds, CQ.Drained(t.queue, ids).1)
    decreases |ids|
  {
    if ids != [] {
      CancelTouchesAdds(t, ids[0]);
      CancelAllAdmits(CancelQueued(t, ids[0]), ids[1..]);
    }
  }

  /**
   While the gate is enabled, `removeAll` empties a queue in which every execution is queued once: every second
   one gets a slot and goes on, the others are taken out, and their adds never go on.
   */
  lemma RemoveAllEmptiesQueue(t: Table)
    requires t.gated && CQ.DistinctIds(t.queue.waiting)
    ensures var u := RemoveAll(t);
      && u.queue == CQ.Queue(t.queue.capacity + (|t.queue.waiting| + 1) / 2, [])
      && u.adds == Admitted(t.adds, CQ.LetThrough(t.queue.waiting))
  {
    CancelAllDrains(t, CQ.Ids(t.queue.waiting));
    CancelAllAdmits(t, CQ.Ids(t.queue.waiting));
    CQ.DrainLetsEverySecondThrough(t.queue);
  }

  /**
   In `shutdown` it comes after the gate was disabled: whatever is queued stays queued, no add goes on, and
   emptying the queue changes something exactly when it comes before and somebody is queued.
   */
  lemma ShutdownLeavesQueue(t: Table, cancelAll: bool)
    requires WellFormed(t) && t.gated
    ensures var u := Shutdown(t, true, cancelAll);
      && RemoveAll(u) == u && u.queue == t.queue && u.adds == t.adds
      && (RemoveAll(t).queue == t.queue <==> t.queue.waiting == [])
  {
    CancelAllDrains(t, CQ.Ids(t.queue.waiting));
    FirstIdHits(t.queue);
  }

  lemma FirstIdHits(q: CQ.Queue)
    ensures CQ.Drained(q, CQ.Ids(q.waiting)).0.capacity == q.capacity <==> q.waiting == []
    ensures q.waiting == [] ==> CQ.Drained(q, CQ.Ids(q.waiting)).0 == q
  {
    var ids := CQ.Ids(q.waiting);
    CQ.DrainedLength(q, ids);
    if q.waiting != [] {
      CQ.FirstIdIsQueued(q.waiting);
    }
  }

  // ---------- what single operations change ----------

  /** The modes that have no limit, and evaluation runs, which reserve their capacity elsewhere. */
  predicate NeverWaits(mode: Mode) {
    mode in {Evaluation, ErrorMode, Integrated, Cli, Internal, Manual, Retry}
  }

  /**
   A new add is recorded under its generation. With the gate enabled and no slot free, it has to wait at the end of the
   queue, unless its mode never waits; with a slot free it takes it; otherwise it goes on without one.
   */
  lemma NewAddExactly(t: Table, g: nat, id: string, resumes: bool, mode: Mode)
    requires g !in t.adds && g !in t.runs
    ensures var u := BeginAdd(t, g, id, resumes, mode);
      var limited := t.gated && !NeverWaits(mode);
      var stage := if limited && t.queue.capacity <= 0 then Queued else Ready(limited);
      && u.adds == t.adds[g := Add(id, resumes, stage)]
      && u.queue.capacity == (if limited then t.queue.capacity - 1 else t.queue.capacity)
      && u.queue.waiting == (if stage == Queued then t.queue.waiting + [CQ.Item(id, g)] else t.queue.waiting)
      && u.runs == t.runs && u.active == t.active && u.responseModes == t.responseModes && u.gated == t.gated
  {
  }

  /** An assignment changes one field of the shown run, and nothing of any other. */
  lemma AssignedExactly(t: Table, id: string, c: Change)
    requires Linked(t) && id in t.active
    ensures var u := Assign(t, id, c);
      var g := t.active[id];
      var before, after := t.runs[g], u.runs[g];
      && after.executionId == before.executionId && after.startedAt == before.startedAt
      && after.handled == before.handled && after.holdsSlot == before.holdsSlot
      && after.status == (if c.ToStatus? then c.status else before.status)
      && after.settled == (c.ToSettled? || before.settled)
      && after.response == (if c.ToResponse? then Some(c.response) else before.response)
      && after.workflowExecution == (if c.ToWorkflow? then Some(c.workflowExecution) else before.workflowExecution)
      && (forall h | h != g :: (h in u.runs <==> h in t.runs) && (h in t.runs ==> u.runs[h] == t.runs[h]))
      && u.active == t.active && u.adds == t.adds && u.queue == t.queue && u.responseModes == t.responseModes
  {
  }

  /** A response mode is kept until the entry is dropped by its handler or by stopping a suspended execution; a plain shutdown keeps it. */
  lemma ResponseModesExactly(t: Table, id: string, mode: nat, regular: bool, cancelAll: bool)
    requires Linked(t) && !(regular && cancelAll)
    ensures var u := WithResponseMode(t, id, mode);
      && id in u.responseModes && u.responseModes[id] == mode
      && (forall x | x != id :: (x in u.responseModes <==> x in t.responseModes) && (x in t.responseModes ==> u.responseModes[x] == t.responseModes[x]))
      && u.runs == t.runs && u.active == t.active
    ensures var v := Stop(t, id); id in t.active && t.runs[t.active[id]].status == Waiting ==> id !in v.responseModes && id !in v.active
    ensures Shutdown(t, regular, cancelAll).responseModes == t.responseModes
  {
  }

  /** Whoever is queued when the gate is disabled stays queued, whatever follows. */
  lemma {:induction false} ThrottledStayQueued(t: Table, ops: seq<Op>, g: nat)
    requires WellFormed(t) && !t.gated && g in t.adds && t.adds[g].stage == Queued
    ensures var u := After(t, ops);
      !u.gated && u.queue == t.queue && g in u.adds && u.adds[g] == t.adds[g]
    decreases |ops|
  {
    if ops != [] {
      WellFormedStep(t, ops[0]);
      ThrottledStep(t, ops[0], g);
      ThrottledStayQueued(Step(t, ops[0]), ops[1..], g);
    }
  }

  lemma ThrottledStep(t: Table, op: Op, g: nat)
    requires WellFormed(t) && !t.gated && g in t.adds && t.adds[g].stage == Queued
    ensures var u := Step(t, op);
      !u.gated && u.queue == t.queue && g in u.adds && u.adds[g] == t.adds[g]
  {
    if KeepsSlots(op) {
      OtherOperationsKeepSlots(t, op);
    }
  }

  // ---------- what an accepted add shows ----------

  /**
   An accepted add, fresh or resuming, shows a running, unsettled run under its execution's id, with the slot it has
   reserved. A resuming one takes over start time and response promise and nothing else. All other
   entries, runs and adds stay.
   */
  lemma AcceptedAddShowsRunningRun(t: Table, g: nat, now: int)
    requires Linked(t) && CanEnd(t, g)
    ensures var u := CommitAdd(t, g, now);
      var id := t.adds[g].executionId;
      && id in u.active && u.active[id] == g && g in u.runs
      && var r := u.runs[g];
      && r.executionId == id && r.status == Running && !r.settled && !r.handled
      && r.workflowExecution.None? && r.holdsSlot == t.adds[g].stage.holdsSlot
      && (id in t.active ==> r.startedAt == t.runs[t.active[id]].startedAt && r.response == t.runs[t.active[id]].response)
      && (id !in t.active ==> r.startedAt == now && r.response.None?)
      && g !in u.adds && (forall h | h != g :: (h in u.adds <==> h in t.adds) && (h in t.adds ==> u.adds[h] == t.adds[h]))
      && (forall x | x != id :: (x in u.active <==> x in t.active) && (x in t.active ==> u.active[x] == t.active[x]))
      && (forall h | h != g :: (h in u.runs <==> h in t.runs) && (h in t.runs ==> u.runs[h] == t.runs[h]))
      && u.queue == t.queue && u.responseModes == t.responseModes && u.gated == t.gated
  {
  }

  predicate IsRunning(t: Table, g: nat, id: string)
    requires Linked(t)
  {
    id in t.active && t.active[id] == g && t.runs[g].executionId == id && t.runs[g].status == Running && !t.runs[g].settled
  }

  // ---------- settling by id ----------

  predicate IsShown(t: Table, g: nat, id: string) {
    id in t.active && t.active[id] == g
  }

  /** The operation takes away the entry of `id`, or puts another run in its place. */
  predicate Displaces(t: Table, op: Op, id: string)
    requires Linked(t) && id in t.active
  {
    match op
    case OpCommitAdd(h, _) => CanEnd(t, h) && t.adds[h].executionId == id
    case OpStop(x) => x == id && Suspended(t, id)
    case OpHandle(h) => Pending(t, h) && t.runs[h].executionId == id && t.runs[h].status != Waiting
    case OpShutdown(regular, cancelAll) => if regular && cancelAll then Suspended(t, id) else Shed(t, id)
    case _ => false
  }

  lemma SlotOpsKeepShown(t: Table, op: Op, g: nat, id: string)
    requires WellFormed(t) && IsShown(t, g, id)
    requires op.OpBeginAdd? || op.OpAbortAdd? || op.OpCancelQueued? || op.OpRemoveAll?
    ensures IsShown(Step(t, op), g, id)
  {
    match op
    case OpAbortAdd(h) =>
      if CanEnd(t, h) {
        ReleaseKeepsWellFormed(t.(adds := t.adds - {h}), t.adds[h].stage.holdsSlot);
      }
    case OpCancelQueued(x) => CancelTouchesAdds(t, x);
    case OpRemoveAll => RemoveAllKeepsWellFormed(t);
    case _ =>
  }

  lemma DisplacedStep(t: Table, op: Op, g: nat, id: string)
    requires WellFormed(t) && IsShown(t, g, id)
    ensures WellFormed(Step(t, op)) && (IsShown(Step(t, op), g, id) <==> !Displaces(t, op, id))
  {
    WellFormedStep(t, op);
    if op.OpHandle? {
      if Pending(t, op.g) {
        HandleEffect(t, op.g);
      }
    } else if op.OpBeginAdd? || op.OpAbortAdd? || op.OpCancelQueued? || op.OpRemoveAll? {
      SlotOpsKeepShown(t, op, g, id);
    }
  }

  /** No entry shows the run. */
  predicate Forgotten(t: Table, g: nat) {
    g in t.runs && forall id | id in t.active :: t.active[id] != g
  }

  predicate SameHold(t: Table, u: Table, g: nat)
    requires g in t.runs
  {
    && g in u.runs && u.runs[g].settled == t.runs[g].settled
    && u.runs[g].handled == t.runs[g].handled && u.runs[g].holdsSlot == t.runs[g].holdsSlot
  }

  lemma HandleForgets(t: Table, h: nat, g: nat)
    requires WellFormed(t) && Forgotten(t, g)
    ensures Forgotten(Handle(t, h), g)
    ensures !t.runs[g].settled ==> SameHold(t, Handle(t, h), g)
  {
    if Pending(t, h) {
      HandleEffect(t, h);
    }
  }

  lemma AddForgets(t: Table, op: Op, g: nat)
    requires WellFormed(t) && Forgotten(t, g) && (op.OpBeginAdd? || op.OpCommitAdd? || op.OpAbortAdd?)
    ensures Forgotten(Step(t, op), g) && SameHold(t, Step(t, op), g)
  {
    if op.OpAbortAdd? && CanEnd(t, op.g) {
      ReleaseKeepsWellFormed(t.(adds := t.adds - {op.g}), t.adds[op.g].stage.holdsSlot);
    }
  }

  lemma RemovalForgets(t: Table, op: Op, g: nat)
    requires WellFormed(t) && Forgotten(t, g) && (op.OpCancelQueued? || op.OpRemoveAll?)
    ensures Forgotten(Step(t, op), g) && SameHold(t, Step(t, op), g)
  {
    if op.OpRemoveAll? {
      RemoveAllKeepsWellFormed(t);
    } else {
      CancelTouchesAdds(t, op.executionId);
    }
  }

  lemma ShutdownForgets(t: Table, regular: bool, cancelAll: bool, g: nat)
    requires WellFormed(t) && Forgotten(t, g)
    ensures Forgotten(Shutdown(t, regular, cancelAll), g) && SameHold(t, Shutdown(t, regular, cancelAll), g)
  {
  }

  lemma ForgottenStep(t: Table, op: Op, g: nat)
    requires WellFormed(t) && Forgotten(t, g)
    ensures WellFormed(Step(t, op)) && Forgotten(Step(t, op), g)
    ensures !t.runs[g].settled ==> SameHold(t, Step(t, op), g)
  {
    WellFormedStep(t, op);
    match op
    case OpBeginAdd(_, _, _, _) => AddForgets(t, op, g);
    case OpCommitAdd(_, _) => AddForgets(t, op, g);
    case OpAbortAdd(_) => AddForgets(t, op, g);
    case OpHandle(h) => HandleForgets(t, h, g);
    case OpCancelQueued(_) => RemovalForgets(t, op, g);
    case OpRemoveAll => RemovalForgets(t, op, g);
    case OpShutdown(regular, cancelAll) => ShutdownForgets(t, regular, cancelAll, g);
    case _ =>
  }

  /** An unsettled run that no entry shows is never settled by anything that follows, and its slot never comes back. */
  lemma {:induction false} ForgottenForGood(t: Table, ops: seq<Op>, g: nat)
    requires WellFormed(t) && Forgotten(t, g)
    ensures WellFormed(After(t, ops)) && Forgotten(After(t, ops), g)
    ensures !t.runs[g].settled ==> SameHold(t, After(t, ops), g)
    decreases |ops|
  {
    if ops != [] {
      ForgottenStep(t, ops[0], g);
      ForgottenForGood(Step(t, ops[0]), ops[1..], g);
    }
  }

  ghost predicate NeverDisplaced(t: Table, ops: seq<Op>, g: nat, id: string)
    requires WellFormed(t) && IsShown(t, g, id)
    decreases |ops|
  {
    ops == [] ||
    (!Displaces(t, ops[0], id) && (DisplacedStep(t, ops[0], g, id); NeverDisplaced(Step(t, ops[0]), ops[1..], g, id)))
  }

  lemma {:induction false} ShownExactly(t: Table, ops: seq<Op>, g: nat, id: string)
    requires WellFormed(t) && IsShown(t, g, id)
    ensures WellFormed(After(t, ops))
    ensures IsShown(After(t, ops), g, id) <==> NeverDisplaced(t, ops, g, id)
    ensures !NeverDisplaced(t, ops, g, id) ==> Forgotten(After(t, ops), g)
    decreases |ops|
  {
    if ops != [] {
      DisplacedStep(t, ops[0], g, id);
      var u := Step(t, ops[0]);
      if Displaces(t, ops[0], id) {
        DisplacedIsForgotten(t, ops[0], g, id);
        ForgottenForGood(u, ops[1..], g);
      } else {
        ShownExactly(u, ops[1..], g, id);
      }
    }
  }

  lemma DisplacedIsForgotten(t: Table, op: Op, g: nat, id: string)
    requires WellFormed(t) && IsShown(t, g, id) && Displaces(t, op, id)
    ensures WellFormed(Step(t, op)) && Forgotten(Step(t, op), g)
  {
    DisplacedStep(t, op, g, id);
    if op.OpHandle? {
      HandleEffect(t, op.g);
    }
  }

  /**
   Finalizing looks its run up by id. Whatever happens between the moment at which a run was shown and its own
   finalizing, it is settled by that exactly when it was settled before or its entry was not taken
   away and not replaced in between, as by an accepted resume; and otherwise it is never settled, never
   handled, and keeps its slot whatever follows.
   */
  lemma FinalizeSettlesOwnRunExactly(t: Table, ops: seq<Op>, later: seq<Op>, g: nat, id: string)
    requires WellFormed(t) && IsShown(t, g, id)
    ensures WellFormed(After(t, ops))
    ensures var u := After(t, ops);
      var v := Assign(u, id, ToSettled);
      && g in u.runs && g in v.runs && WellFormed(v)
      && (v.runs[g].settled <==> u.runs[g].settled || NeverDisplaced(t, ops, g, id))
      && (!v.runs[g].settled ==> SameHold(u, After(v, later), g))
  {
    ShownExactly(t, ops, g, id);
    var u := After(t, ops);
    var v := Assign(u, id, ToSettled);
    WellFormedStep(u, OpAssign(id, ToSettled));
    if !NeverDisplaced(t, ops, g, id) {
      ForgottenStep(u, OpAssign(id, ToSettled), g);
      ForgottenForGood(v, later, g);
    }
  }

  // ---------- adds that were cancelled in the queue ----------

  /** The add waits for a slot, and is not in the queue any more. */
  predicate Stranded(t: Table, g: nat) {
    && g in t.adds && t.adds[g].stage == Queued
    && (forall i | 0 <= i < |t.queue.waiting| :: t.queue.waiting[i].ticket != g)
  }

  /** Cancelling an execution in the queue strands its first add and no other that was queued. */
  lemma CancelledIsStranded(t: Table, id: string, i: nat)
    requires WellFormed(t) && t.gated && CQ.FirstAt(t.queue.waiting, id, i)
    ensures Stranded(CancelQueued(t, id), t.queue.waiting[i].ticket)
    ensures forall j | 0 <= j < |t.queue.waiting| && j != i :: !Stranded(CancelQueued(t, id), t.queue.waiting[j].ticket)
  {
    var w := t.queue.waiting;
    CQ.RemovalExactly(t.queue, id);
    CQ.RemovedIsGone(t.queue, id, i);
    CancelTouchesAdds(t, id);
    var u := CancelQueued(t, id);
    forall j | 0 <= j < |w| && j != i ensures !Stranded(u, w[j].ticket) {
      var first := if i == 0 then 1 else 0;
      if j == first {
        assert u.adds[w[j].ticket].stage == Ready(true);
      } else {
        var k := if j < i then j - 1 else j - 2;
        assert u.queue.waiting[k] == w[j];
      }
    }
  }

  lemma PassingOnKeepsStranded(t: Table, r: (CQ.Queue, Option<nat>), g: nat)
    requires Stranded(t, g)
    requires forall i | 0 <= i < |r.0.waiting| :: r.0.waiting[i].ticket != g
    requires r.1 != Some(g)
    ensures Stranded(WithQueue(t, r), g)
  {
  }

  lemma ReleaseKeepsStranded(t: Table, holdsSlot: bool, g: nat)
    requires Stranded(t, g)
    ensures Stranded(Released(t, holdsSlot), g)
  {
    if holdsSlot && t.gated {
      PassingOnKeepsStranded(t, CQ.Dequeued(t.queue), g);
    }
  }

  lemma CancelKeepsStranded(t: Table, id: string, g: nat)
    requires Stranded(t, g)
    ensures Stranded(CancelQueued(t, id), g)
  {
    CQ.RemovalExactly(t.queue, id);
    var i := CQ.IndexOf(t.queue.waiting, id);
    if i < |t.queue.waiting| {
      assert CQ.FirstAt(t.queue.waiting, id, i);
    }
    if t.gated {
      PassingOnKeepsStranded(t, CQ.Removed(t.queue, id), g);
    }
  }

  lemma {:induction false} CancelAllKeepsStranded(t: Table, ids: seq<string>, g: nat)
    requires Stranded(t, g)
    ensures Stranded(CancelAll(t, ids), g)
    decreases |ids|
  {
    if ids != [] {
      CancelKeepsStranded(t, ids[0], g);
      CancelAllKeepsStranded(CancelQueued(t, ids[0]), ids[1..], g);
    }
  }

  lemma StrandedStep(t: Table, op: Op, g: nat)
    requires WellFormed(t) && Stranded(t, g)
    ensures WellFormed(Step(t, op)) && Stranded(Step(t, op), g)
  {
    WellFormedStep(t, op);
    match op
    case OpBeginAdd(h, id, resumes, mode) =>
    case OpAbortAdd(h) =>
      if CanEnd(t, h) {
        ReleaseKeepsStranded(t.(adds := t.adds - {h}), t.adds[h].stage.holdsSlot, g);
      }
    case OpHandle(h) =>
      if Pending(t, h) {
        ReleaseKeepsStranded(MarkHandled(t, h), t.runs[h].holdsSlot, g);
      }
    case OpCancelQueued(id) => CancelKeepsStranded(t, id, g);
    case OpRemoveAll =>
      if t.gated {
        CancelAllKeepsStranded(t, CQ.Ids(t.queue.waiting), g);
      }
    case _ =>
  }

  /** The add of a cancelled execution never goes on, whatever follows: it can neither be accepted nor refused. */
  lemma {:induction false} StrandedForGood(t: Table, ops: seq<Op>, g: nat)
    requires WellFormed(t) && Stranded(t, g)
    ensures WellFormed(After(t, ops)) && Stranded(After(t, ops), g) && !CanEnd(After(t, ops), g)
    decreases |ops|
  {
    if ops != [] {
      StrandedStep(t, ops[0], g);
      StrandedForGood(Step(t, ops[0]), ops[1..], g);
    }
  }

  // ---------- the class ----------

  /** Nothing has to be done for an execution that is not in the table; some methods report it. */
  class Service {
    var activeExecutions: map<string, nat>
    var runs: map<nat, Run>
    var adds: map<nat, Add>
    var responseModes: map<string, nat>
    var isEnabled: bool
    const queue: CQ.ConcurrencyQueue

    ghost function Contents(): Table
      reads this, queue
    {
      Table(activeExecutions, runs, adds, responseModes, queue.Contents(), isEnabled)
    }

    ghost predicate Valid()
      reads this, queue
    {
      WellFormed(Contents())
    }

    constructor (limit: nat, gated: bool)
      ensures Valid() && fresh(queue)
      ensures Contents() == Empty(limit, gated)
    {
      activeExecutions, runs, adds, responseModes := map[], map[], map[], map[];
      isEnabled := gated;
      queue := new CQ.ConcurrencyQueue(limit);
    }

    method StartAdd(g: nat, executionId: string, resumes: bool, mode: Mode)
      requires Valid() && Fresh(Contents(), g)
      modifies this, queue
      ensures Valid() && Contents() == BeginAdd(old(Contents()), g, executionId, resumes, mode)
    {
      BeginAddKeepsWellFormed(Contents(), g, executionId, resumes, mode);
      if isEnabled && NeedsSlot(mode) {
        var admitted := queue.Enqueue(executionId, g);
        adds := adds[g := Add(executionId, resumes, if admitted then Ready(true) else Queued)];
      } else {
        adds := adds[g := Add(executionId, resumes, Ready(false))];
      }
    }

    /** The rest of `add`, once capacity is there and the database has answered. */
    method FinishAdd(g: nat, accepted: bool, now: int) returns (added: Option<string>)
      requires Valid() && CanEnd(Contents(), g)
      modifies this, queue
      ensures Valid()
      ensures Contents() == if accepted then CommitAdd(old(Contents()), g, now) else AbortAdd(old(Contents()), g)
      ensures added == if accepted then Some(old(adds[g].executionId)) else None
    {
      CommitAddKeepsWellFormed(Contents(), g, now);
      AbortAddKeepsWellFormed(Contents(), g);
      var add := adds[g];
      adds := adds - {g};
      if !accepted {
        Release(add.stage.holdsSlot);
        return None;
      }
      var startedAt, response := now, None;
      if add.executionId in activeExecutions {
        var resuming := runs[activeExecutions[add.executionId]];
        startedAt, response := resuming.startedAt, resuming.response;
      }
      runs := runs[g := Run(add.executionId, Running, startedAt, response, None, false, false, add.stage.holdsSlot)];
      activeExecutions := activeExecutions[add.executionId := g];
      return Some(add.executionId);
    }

    /** `ConcurrencyCapacityReservation.release`: returns the slot and lets the next `add` go on. */
    method Release(holdsSlot: bool)
      modifies this`adds, queue
      ensures Contents() == Released(old(Contents()), holdsSlot)
    {
      if holdsSlot && isEnabled {
        var next := queue.Dequeue();
        LetThrough(next);
      }
    }

    method LetThrough(next: Option<nat>)
      modifies this`adds
      ensures adds == if next.Some? && next.value in old(adds)
                      then old(adds)[next.value := old(adds)[next.value].(stage := Ready(true))] else old(adds)
    {
      if next.Some? && next.value in adds {
        adds := adds[next.value := adds[next.value].(stage := Ready(true))];
      }
    }

    method Modify(executionId: string, change: Change) returns (found: bool)
      requires Valid()
      modifies this`runs
      ensures Valid() && Contents() == Assign(old(Contents()), executionId, change)
      ensures found <==> executionId in activeExecutions
    {
      WellFormedStep(Contents(), OpAssign(executionId, change));
      found := executionId in activeExecutions;
      if found {
        var g := activeExecutions[executionId];
        runs := runs[g := Changed(runs[g], change)];
      }
    }

    method SetStatus(executionId: string, status: Status) returns (found: bool)
      requires Valid()
      modifies this`runs
      ensures Valid() && Contents() == Assign(old(Contents()), executionId, ToStatus(status))
      ensures found <==> executionId in activeExecutions
    {
      found := Modify(executionId, ToStatus(status));
    }

    method FinalizeExecution(executionId: string)
      requires Valid()
      modifies this`runs
      ensures Valid() && Contents() == Assign(old(Contents()), executionId, ToSettled)
    {
      var _ := Modify(executionId, ToSettled);
    }

    method StopExecution(executionId: string)
      requires Valid()
      modifies this`runs, this`activeExecutions, this`responseModes
      ensures Valid() && Contents() == Stop(old(Contents()), executionId)
    {
      WellFormedStep(Contents(), OpStop(executionId));
      if executionId !in activeExecutions {
        return;
      }
      if runs[activeExecutions[executionId]].status == Waiting {
        activeExecutions := activeExecutions - {executionId};
        responseModes := responseModes - {executionId};
      } else {
        var _ := Modify(executionId, ToSettled);
      }
    }

    /** The `finally` handler attached to the promise of generation `g`; a promise runs it once. */
    method HandleSettled(g: nat)
      requires Valid() && Pending(Contents(), g)
      modifies this, queue
      ensures Valid() && Contents() == Handle(old(Contents()), g)
    {
      HandleKeepsWellFormed(Contents(), g);
      var run := runs[g];
      runs := runs[g := run.(handled := true, holdsSlot := false)];
      Release(run.holdsSlot);
      if run.status == Waiting {
        runs := runs[g := runs[g].(workflowExecution := None)];
      } else {
        activeExecutions := activeExecutions - {run.executionId};
        responseModes := responseModes - {run.executionId};
      }
    }

    /** The body of the loop in `shutdown`. */
    method ShutdownEntry(executionId: string, regular: bool, cancelAll: bool, ghost before: Table, ghost visited: set<string>)
      requires Valid() && WellFormed(before)
      requires executionId in before.active && executionId !in visited
      requires Contents() == ShutdownOf(before, visited, regular, cancelAll)
      modifies this`runs, this`activeExecutions, this`responseModes
      ensures Valid() && Contents() == ShutdownOf(before, visited + {executionId}, regular, cancelAll)
    {
      ShutdownOfKeepsWellFormed(before, visited + {executionId}, regular, cancelAll);
      if regular && cancelAll {
        CancelOneMore(before, visited, executionId);
        StopExecution(executionId);
      } else {
        ShedOneMore(before, visited, executionId, regular, cancelAll);
        var status := runs[activeExecutions[executionId]].status;
        if status == Waiting || status == New {
          activeExecutions := activeExecutions - {executionId};
        }
      }
    }

    /** `shutdown` up to the point where it waits; the entries are visited in any order. */
    method BeginShutdown(regular: bool, cancelAll: bool)
      requires Valid()
      modifies this, queue
      ensures Valid() && Contents() == RemoveAll(Shutdown(old(Contents()), regular, cancelAll))
    {
      ghost var before := Contents();
      DisableGate(regular);
      ShutdownOfNothing(before, regular, cancelAll);
      ShutdownEntries(regular, cancelAll, before);
      EmptyQueue();
    }

    /** `concurrencyControl.removeAll`, as far as it concerns the queue. */
    method EmptyQueue()
      requires Valid()
      modifies this`adds, queue
      ensures Valid() && Contents() == RemoveAll(old(Contents()))
    {
      RemoveAllKeepsWellFormed(Contents());
      if !isEnabled {
        return;
      }
      ghost var whole := RemoveAll(Contents());
      var ids := queue.GetAll();
      assert ids[0..] == ids;
      for i := 0 to |ids|
        invariant isEnabled && CancelAll(Contents(), ids[i..]) == whole
      {
        assert ids[i..][1..] == ids[i + 1..];
        CancelOne(ids[i]);
      }
    }

    method CancelOne(executionId: string)
      modifies this`adds, queue
      ensures Contents() == CancelQueued(old(Contents()), executionId)
    {
      if isEnabled {
        var next := queue.Remove(executionId);
        LetThrough(next);
      }
    }

    /** `concurrencyControl.disable`, in regular mode. */
    method DisableGate(regular: bool)
      requires Valid()
      modifies this`isEnabled
      ensures Valid() && Contents() == if regular then old(Contents()).(gated := false) else old(Contents())
    {
      if regular {
        isEnabled := false;
      }
    }

    method ShutdownEntries(regular: bool, cancelAll: bool, ghost before: Table)
      requires Valid() && WellFormed(before)
      requires Contents() == ShutdownOf(before, {}, regular, cancelAll)
      requires activeExecutions == before.active
      modifies this`runs, this`activeExecutions, this`responseModes
      ensures Valid() && Contents() == Shutdown(before, regular, cancelAll)
    {
      var ids := activeExecutions.Keys;
      ghost var visited: set<string> := {};
      while ids != {}
        invariant visited <= before.active.Keys && ids <= before.active.Keys
        invariant forall id | id in before.active :: id in ids <==> id !in visited
        invariant Valid()
        invariant Contents() == ShutdownOf(before, visited, regular, cancelAll)
        decreases |ids|
      {
        var executionId :| executionId in ids;
        ShutdownEntry(executionId, regular, cancelAll, before, visited);
        ids := ids - {executionId};
        visited := visited + {executionId};
      }
      assert visited == before.active.Keys;
    }
  }

  lemma ShutdownOfKeepsWellFormed(t: Table, ids: set<string>, regular: bool, cancelAll: bool)
    requires WellFormed(t)
    ensures WellFormed(ShutdownOf(t, ids, regular, cancelAll))
  {
  }

  lemma CancelSuspended(t: Table, visited: set<string>, id: string)
    requires WellFormed(t) && id in t.active && id !in visited && Suspended(t, id)
    ensures var u := ShutdownOf(t, visited, true, true);
      ShutdownOf(t, visited + {id}, true, true) == Dropped(u, {id})
  {
    var u := ShutdownOf(t, visited, true, true);
    var v := ShutdownOf(t, visited + {id}, true, true);
    assert SuspendedAmong(t, visited + {id}) == SuspendedAmong(t, visited) + {id};
    assert CancelledAmong(t, visited + {id}) == CancelledAmong(t, visited);
    assert v.active == u.active - {id};
    assert v.responseModes == u.responseModes - {id};
  }

  lemma SettleOneMore(runs: map<nat, Run>, gs: set<nat>, g: nat)
    requires g in runs
    ensures SettleAll(runs, gs + {g}) == SettleAll(runs, gs)[g := SettleAll(runs, gs)[g].(settled := true)]
  {
  }

  lemma CancelActive(t: Table, visited: set<string>, id: string)
    requires WellFormed(t) && id in t.active && id !in visited && !Suspended(t, id)
    ensures var u := ShutdownOf(t, visited, true, true);
      var g := t.active[id];
      g in u.runs && ShutdownOf(t, visited + {id}, true, true) == u.(runs := u.runs[g := u.runs[g].(settled := true)])
  {
    assert SuspendedAmong(t, visited + {id}) == SuspendedAmong(t, visited);
    assert CancelledAmong(t, visited + {id}) == CancelledAmong(t, visited) + {t.active[id]};
    SettleOneMore(t.runs, CancelledAmong(t, visited), t.active[id]);
  }

  /** Visiting one more entry of the table during `shutdown`, when everything is cancelled. */
  lemma CancelOneMore(t: Table, visited: set<string>, id: string)
    requires WellFormed(t) && id in t.active && id !in visited
    ensures var u := ShutdownOf(t, visited, true, true);
      Linked(u) && ShutdownOf(t, visited + {id}, true, true) == Stop(u, id)
  {
    var u := ShutdownOf(t, visited, true, true);
    ShutdownOfKeepsWellFormed(t, visited, true, true);
    assert id in u.active && u.active[id] == t.active[id];
    assert u.runs[t.active[id]].status == t.runs[t.active[id]].status;
    if Suspended(t, id) {
      CancelSuspended(t, visited, id);
    } else {
      CancelActive(t, visited, id);
    }
  }

  /** And when only waiting and new entries are removed. */
  lemma ShedOneMore(t: Table, visited: set<string>, id: string, regular: bool, cancelAll: bool)
    requires WellFormed(t) && id in t.active && id !in visited && !(regular && cancelAll)
    ensures var u := ShutdownOf(t, visited, regular, cancelAll);
      && id in u.active && u.runs == t.runs && u.active[id] == t.active[id]
      && ShutdownOf(t, visited + {id}, regular, cancelAll) == (if Shed(t, id) then u.(active := u.active - {id}) else u)
  {
    var u := ShutdownOf(t, visited, regular, cancelAll);
    var v := ShutdownOf(t, visited + {id}, regular, cancelAll);
    assert ShedAmong(t, visited + {id}) == ShedAmong(t, visited) + (if Shed(t, id) then {id} else {});
    assert v.active == if Shed(t, id) then u.active - {id} else u.active;
  }

  lemma ShutdownOfNothing(t: Table, regular: bool, cancelAll: bool)
    requires Linked(t)
    ensures ShutdownOf(t, {}, regular, cancelAll) == if regular then t.(gated := false) else t
  {
    assert SuspendedAmong(t, {}) == {} && ShedAmong(t, {}) == {} && CancelledAmong(t, {}) == {};
    assert SettleAll(t.runs, {}) == t.runs;
    assert t.active - {} == t.active && t.responseModes - {} == t.responseModes;
  }
}
