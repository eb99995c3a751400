/**
 Several processes, each with its own table of runs, sharing the execution rows of one database.

 A resume is decided by a conditional update of the row: it succeeds only while the row is
 `waiting`. A run suspends itself in one step that makes the row `waiting`, the in-memory status
 `waiting` and settles the promise. Everything else interleaves freely.
 */
module Cluster {
  import opened Wrappers
  import opened ActiveExecutions

  /** All that matters of a row's status is whether it is `waiting`. */
  datatype Row = RowWaiting | RowNotWaiting

  datatype State = State(rows: map<string, Row>, procs: map<nat, Table>)

  datatype Event =
    | Create(p: nat, g: nat, executionId: string, mode: Mode)
    | BeginResume(p: nat, g: nat, executionId: string, mode: Mode)
    | FinishAdd(p: nat, g: nat, databaseOk: bool, now: int)
    | Suspend(p: nat, executionId: string)
    | CancelWait(executionId: string)
    | Local(p: nat, op: Op)

  /** The table invariants together with: a run that has not settled is not `waiting` in memory. */
  predicate Good(t: Table) {
    && WellFormed(t) && Owned(t) && Tidy(t)
    && forall g | g in t.runs :: !t.runs[g].settled ==> t.runs[g].status != Waiting
  }

  /**
   The operations of one process that do not touch the database. A run reports its status only
   until it settles, and reports `waiting` only as part of suspending.
   */
  predicate IsLocal(t: Table, op: Op)
    requires Linked(t)
  {
    match op
    case OpBeginAdd(_, _, _, _) => false
    case OpCommitAdd(_, _) => false
    case OpAbortAdd(_) => false
    case OpAssign(id, ToStatus(status)) =>
      status != Waiting && (id in t.active ==> !t.runs[t.active[id]].settled)
    case _ => true
  }

  function SuspendRun(t: Table, id: string): Table
    requires Linked(t)
  {
    Assign(Assign(t, id, ToStatus(Waiting)), id, ToSettled)
  }

  predicate RowIsWaiting(s: State, id: string) {
    id in s.rows && s.rows[id] == RowWaiting
  }

  /** The database's answer to an `add`: a resume needs the row to be `waiting`. */
  predicate Accepted(s: State, a: Add, databaseOk: bool) {
    databaseOk && (a.resumes ==> RowIsWaiting(s, a.executionId))
  }

  predicate AllGood(s: State) {
    forall p | p in s.procs :: Good(s.procs[p])
  }

  /** One step; an event that is not possible leaves the state as it is. */
  function Step(s: State, e: Event): State
    requires AllGood(s)
  {
    match e
    case Create(p, g, id, mode) =>
      if p !in s.procs || id in s.rows || !Fresh(s.procs[p], g) then s
      else State(s.rows[id := RowNotWaiting], s.procs[p := BeginAdd(s.procs[p], g, id, false, mode)])
    case BeginResume(p, g, id, mode) =>
      if p !in s.procs then s else s.(procs := s.procs[p := BeginAdd(s.procs[p], g, id, true, mode)])
    case FinishAdd(p, g, ok, now) =>
      if p !in s.procs || !CanEnd(s.procs[p], g) then s
      else
        var a := s.procs[p].adds[g];
        if Accepted(s, a, ok) then
          State(s.rows[a.executionId := RowNotWaiting], s.procs[p := CommitAdd(s.procs[p], g, now)])
        else
          s.(procs := s.procs[p := AbortAdd(s.procs[p], g)])
    case Suspend(p, id) =>
      if p !in s.procs || id !in s.procs[p].active || s.procs[p].runs[s.procs[p].active[id]].settled then s
      else State(s.rows[id := RowWaiting], s.procs[p := SuspendRun(s.procs[p], id)])
    case CancelWait(id) =>
      if RowIsWaiting(s, id) then s.(rows := s.rows[id := RowNotWaiting]) else s
    case Local(p, op) =>
      if p !in s.procs || !IsLocal(s.procs[p], op) then s
      else s.(procs := s.procs[p := ActiveExecutions.Step(s.procs[p], op)])
  }

  // ---------- the invariant ----------

  /** Generation `g` stands for the execution: an unfinished run of it, or its creation in progress. */
  predicate Claims(t: Table, g: nat, id: string) {
    || (Unfinished(t, g) && t.runs[g].executionId == id)
    || (g in t.adds && !t.adds[g].resumes && t.adds[g].executionId == id)
  }

  predicate ClaimsIn(s: State, p: nat, g: nat, id: string) {
    p in s.procs && Claims(s.procs[p], g, id)
  }

  /** Whoever claims an execution keeps its row from being resumed, and is alone. */
  ghost predicate Inv(s: State) {
    && AllGood(s)
    && (forall p, g, id :: ClaimsIn(s, p, g, id) ==> id in s.rows && s.rows[id] == RowNotWaiting)
    && (forall p, g, q, h, id :: ClaimsIn(s, p, g, id) && ClaimsIn(s, q, h, id) ==> p == q && g == h)
  }

  // ---------- how tables and rows may change ----------

  ghost predicate Shrinks(t: Table, u: Table) {
    forall g, id :: Claims(u, g, id) ==> Claims(t, g, id)
  }

  /** A table that claims less, with the rows unchanged, keeps the invariant. */
  lemma ShrinkingKeepsInv(s: State, p: nat, u: Table)
    requires Inv(s) && p in s.procs && Good(u) && Shrinks(s.procs[p], u)
    ensures Inv(s.(procs := s.procs[p := u]))
  {
    var n := s.(procs := s.procs[p := u]);
    forall q, g, id | ClaimsIn(n, q, g, id) ensures ClaimsIn(s, q, g, id) {
    }
  }

  /** So does one more claim on an execution that nobody else claims. */
  lemma ClaimingKeepsInv(s: State, p: nat, u: Table, g: nat, id: string)
    requires Inv(s) && p in s.procs && Good(u)
    requires forall h, i :: Claims(u, h, i) ==> Claims(s.procs[p], h, i) || (h == g && i == id)
    requires forall q, h :: ClaimsIn(s, q, h, id) ==> q == p && h == g
    ensures Inv(State(s.rows[id := RowNotWaiting], s.procs[p := u]))
  {
    var n := State(s.rows[id := RowNotWaiting], s.procs[p := u]);
    forall q, h, i | ClaimsIn(n, q, h, i)
      ensures ClaimsIn(s, q, h, i) || (q == p && h == g && i == id)
    {
    }
  }

  /** The row of an unclaimed execution may change freely. */
  lemma UnclaimedRowKeepsInv(s: State, id: string, r: Row)
    requires Inv(s)
    requires forall q, h :: !ClaimsIn(s, q, h, id)
    ensures Inv(s.(rows := s.rows[id := r]))
  {
    var n := s.(rows := s.rows[id := r]);
    forall q, h, i | ClaimsIn(n, q, h, i) ensures ClaimsIn(s, q, h, i) {
    }
  }

  lemma SlotChangesKeepGood(t: Table, u: Table)
    requires Good(t) && WellFormed(u)
    requires u.runs == t.runs && u.active == t.active
    ensures Good(u)
  {
  }

  lemma BeginResumeKeeps(t: Table, g: nat, id: string, mode: Mode)
    requires Good(t)
    ensures var u := BeginAdd(t, g, id, true, mode); Good(u) && Shrinks(t, u)
  {
    var u := BeginAdd(t, g, id, true, mode);
    BeginAddKeepsWellFormed(t, g, id, true, mode);
    SlotChangesKeepGood(t, u);
  }

  lemma ReleaseKeepsAdds(t: Table, holdsSlot: bool)
    ensures var u := Released(t, holdsSlot);
      && u.adds.Keys == t.adds.Keys && u.runs == t.runs && u.active == t.active
      && forall g | g in t.adds :: u.adds[g].resumes == t.adds[g].resumes && u.adds[g].executionId == t.adds[g].executionId
  {
  }

  lemma AbortKeeps(t: Table, g: nat)
    requires Good(t)
    ensures var u := AbortAdd(t, g); Good(u) && Shrinks(t, u)
  {
    AbortAddKeepsWellFormed(t, g);
    if CanEnd(t, g) {
      ReleaseKeepsAdds(t.(adds := t.adds - {g}), t.adds[g].stage.holdsSlot);
    }
    SlotChangesKeepGood(t, AbortAdd(t, g));
  }

  lemma HandleKeeps(t: Table, g: nat)
    requires Good(t)
    ensures var u := Handle(t, g); Good(u) && Shrinks(t, u)
  {
    HandleOne(t, g);
    if Pending(t, g) {
      HandleEffect(t, g);
      ReleaseKeepsAdds(MarkHandled(t, g), t.runs[g].holdsSlot);
    }
  }

  lemma CancelQueuedKeeps(t: Table, id: string)
    requires Good(t)
    ensures var u := CancelQueued(t, id); Good(u) && Shrinks(t, u)
  {
    CancelKeepsWellFormed(t, id);
    SlotChangesKeepGood(t, CancelQueued(t, id));
  }

  lemma RemoveAllKeeps(t: Table)
    requires Good(t)
    ensures var u := RemoveAll(t); Good(u) && Shrinks(t, u)
  {
    RemoveAllKeepsWellFormed(t);
    SlotChangesKeepGood(t, RemoveAll(t));
  }

  lemma AssignKeeps(t: Table, id: string, c: Change)
    requires Good(t) && IsLocal(t, OpAssign(id, c))
    ensures var u := Assign(t, id, c); Good(u) && Shrinks(t, u)
  {
    AssignKeepsSlots(t, id, c);
    WellFormedStep(t, OpAssign(id, c));
  }

  lemma DropKeeps(t: Table, ids: set<string>)
    requires Good(t)
    ensures Good(Dropped(t, ids)) && Shrinks(t, Dropped(t, ids))
  {
    DroppedKeepsWellFormed(t, ids);
  }

  lemma ShutdownKeeps(t: Table, regular: bool, cancelAll: bool)
    requires Good(t)
    ensures var u := Shutdown(t, regular, cancelAll); Good(u) && Shrinks(t, u)
  {
    ShutdownKeepsInvariants(t, regular, cancelAll);
    ShutdownKeepsSlots(t, regular, cancelAll);
  }

  lemma LocalKeeps(t: Table, op: Op)
    requires Good(t) && IsLocal(t, op)
    ensures var u := ActiveExecutions.Step(t, op); Good(u) && Shrinks(t, u)
  {
    match op
    case OpAssign(id, c) => AssignKeeps(t, id, c);
    case OpSetResponseMode(_, _) =>
    case OpStop(id) =>
      AssignKeeps(t, id, ToSettled);
      DropKeeps(t, {id});
    case OpHandle(g) => HandleKeeps(t, g);
    case OpCancelQueued(id) => CancelQueuedKeeps(t, id);
    case OpShutdown(regular, cancelAll) => ShutdownKeeps(t, regular, cancelAll);
    case OpRemoveAll => RemoveAllKeeps(t);
  }

  lemma CommitKeepsGood(t: Table, g: nat, now: int)
    requires Good(t) && CanEnd(t, g)
    requires forall h | Unfinished(t, h) :: t.runs[h].executionId != t.adds[g].executionId
    ensures var u := CommitAdd(t, g, now);
      Good(u) && forall h, i :: Claims(u, h, i) ==> Claims(t, h, i) || (h == g && i == t.adds[g].executionId)
  {
    CommitAddKeepsWellFormed(t, g, now);
  }

  lemma CommitKeepsInv(s: State, p: nat, g: nat, now: int)
    requires Inv(s) && p in s.procs && CanEnd(s.procs[p], g)
    requires Accepted(s, s.procs[p].adds[g], true)
    ensures Inv(Step(s, FinishAdd(p, g, true, now)))
  {
    var t := s.procs[p];
    var id := t.adds[g].executionId;
    forall q, h | ClaimsIn(s, q, h, id) ensures q == p && h == g {
      if !t.adds[g].resumes { assert ClaimsIn(s, p, g, id); }
    }
    forall h | Unfinished(t, h) ensures t.runs[h].executionId != id {
      assert ClaimsIn(s, p, h, t.runs[h].executionId);
    }
    CommitKeepsGood(t, g, now);
    ClaimingKeepsInv(s, p, CommitAdd(t, g, now), g, id);
  }

  lemma SuspendKeepsGood(t: Table, id: string)
    requires Good(t) && id in t.active && !t.runs[t.active[id]].settled
    ensures var u := SuspendRun(t, id);
      Good(u) && Shrinks(t, u) && !Unfinished(u, t.active[id]) && u.adds == t.adds
  {
    AssignKeepsSlots(t, id, ToStatus(Waiting));
    WellFormedStep(t, OpAssign(id, ToStatus(Waiting)));
    var m := Assign(t, id, ToStatus(Waiting));
    AssignKeepsSlots(m, id, ToSettled);
    WellFormedStep(m, OpAssign(id, ToSettled));
  }

  lemma SuspendKeepsInv(s: State, p: nat, id: string)
    requires Inv(s) && p in s.procs && id in s.procs[p].active && !s.procs[p].runs[s.procs[p].active[id]].settled
    ensures Inv(Step(s, Suspend(p, id)))
  {
    var t := s.procs[p];
    var g := t.active[id];
    var u := SuspendRun(t, id);
    SuspendKeepsGood(t, id);
    ShrinkingKeepsInv(s, p, u);
    var m := s.(procs := s.procs[p := u]);
    assert ClaimsIn(s, p, g, id);
    forall q, h ensures !ClaimsIn(m, q, h, id) {
      if ClaimsIn(m, q, h, id) {
        assert ClaimsIn(s, q, h, id);
      }
    }
    UnclaimedRowKeepsInv(m, id, RowWaiting);
  }

  lemma CreateKeepsInv(s: State, p: nat, g: nat, id: string, mode: Mode)
    requires Inv(s) && p in s.procs && id !in s.rows && Fresh(s.procs[p], g)
    ensures Inv(Step(s, Create(p, g, id, mode)))
  {
    var t := s.procs[p];
    var u := BeginAdd(t, g, id, false, mode);
    BeginAddKeepsWellFormed(t, g, id, false, mode);
    SlotChangesKeepGood(t, u);
    ClaimingKeepsInv(s, p, u, g, id);
  }

  lemma CancelWaitKeepsInv(s: State, id: string)
    requires Inv(s)
    ensures Inv(Step(s, CancelWait(id)))
  {
    if RowIsWaiting(s, id) {
      UnclaimedRowKeepsInv(s, id, RowNotWaiting);
    }
  }

  lemma InvStep(s: State, e: Event)
    requires Inv(s)
    ensures Inv(Step(s, e))
  {
    match e
    case Create(p, g, id, mode) =>
      if Step(s, e) != s { CreateKeepsInv(s, p, g, id, mode); }
    case BeginResume(p, g, id, mode) =>
      if p in s.procs {
        BeginResumeKeeps(s.procs[p], g, id, mode);
        ShrinkingKeepsInv(s, p, BeginAdd(s.procs[p], g, id, true, mode));
      }
    case FinishAdd(p, g, ok, now) =>
      if p in s.procs && CanEnd(s.procs[p], g) {
        if Accepted(s, s.procs[p].adds[g], ok) {
          CommitKeepsInv(s, p, g, now);
        } else {
          AbortKeeps(s.procs[p], g);
          ShrinkingKeepsInv(s, p, AbortAdd(s.procs[p], g));
        }
      }
    case Suspend(p, id) =>
      if p in s.procs && id in s.procs[p].active && !s.procs[p].runs[s.procs[p].active[id]].settled {
        SuspendKeepsInv(s, p, id);
      }
    case CancelWait(id) => CancelWaitKeepsInv(s, id);
    case Local(p, op) =>
      if p in s.procs && IsLocal(s.procs[p], op) {
        LocalKeeps(s.procs[p], op);
        ShrinkingKeepsInv(s, p, ActiveExecutions.Step(s.procs[p], op));
      }
  }

  // ---------- runs ----------

  ghost function After(s: State, events: seq<Event>): State
    requires Inv(s)
    decreases |events|
  {
    if events == [] then s
    else
      InvStep(s, events[0]);
      After(Step(s, events[0]), events[1..])
  }

  /** Processes that have just started; rows may be left over from earlier processes. */
  predicate Initial(s: State) {
    forall p | p in s.procs ::
      s.procs[p].active == map[] && s.procs[p].runs == map[] && s.procs[p].adds == map[] && s.procs[p].queue.waiting == []
  }

  lemma InitialInv(s: State)
    requires Initial(s)
    ensures Inv(s)
  {
  }

  lemma {:induction false} InvAlways(s: State, events: seq<Event>)
    requires Inv(s)
    ensures Inv(After(s, events))
    decreases |events|
  {
    if events != [] {
      InvStep(s, events[0]);
      InvAlways(Step(s, events[0]), events[1..]);
    }
  }

  /** The process runs the execution: it has a run of it that has not settled. */
  predicate Holds(s: State, p: nat, id: string) {
    p in s.procs && exists g | g in s.procs[p].runs :: s.procs[p].runs[g].executionId == id && !s.procs[p].runs[g].settled
  }

  /** At most one process runs an execution, and nobody can resume it meanwhile. */
  lemma AtMostOneHolder(s: State, events: seq<Event>, p: nat, q: nat, id: string)
    requires Initial(s)
    ensures Inv(s)
    ensures var t := After(s, events);
      && (Holds(t, p, id) ==> !RowIsWaiting(t, id))
      && (Holds(t, p, id) && Holds(t, q, id) ==> p == q)
  {
    InitialInv(s);
    InvAlways(s, events);
    var t := After(s, events);
    if Holds(t, p, id) {
      var g :| g in t.procs[p].runs && t.procs[p].runs[g].executionId == id && !t.procs[p].runs[g].settled;
      assert ClaimsIn(t, p, g, id);
      if Holds(t, q, id) {
        var h :| h in t.procs[q].runs && t.procs[q].runs[h].executionId == id && !t.procs[q].runs[h].settled;
        assert ClaimsIn(t, q, h, id);
      }
    }
  }

  /** The settle handler of an earlier run never removes the entry of a later one. */
  lemma HandlerSparesLaterRuns(s: State, events: seq<Event>, p: nat, g: nat)
    requires Initial(s)
    ensures Inv(s)
    ensures var t := After(s, events);
      p in t.procs && Pending(t.procs[p], g) ==>
        var id := t.procs[p].runs[g].executionId;
        var u := Handle(t.procs[p], g);
        && (id in t.procs[p].active && t.procs[p].active[id] != g ==> id in u.active && u.active[id] == t.procs[p].active[id])
        && (forall other | other in t.procs[p].active && other != id :: other in u.active && u.active[other] == t.procs[p].active[other])
  {
    InitialInv(s);
    InvAlways(s, events);
    var t := After(s, events);
    if p in t.procs && Pending(t.procs[p], g) {
      HandleEffect(t.procs[p], g);
    }
  }

  // ---------- suspend/resume cycles ----------

  /** Anything but finalizing, stopping, shutting down, or attaching another response promise. */
  predicate SparesEntry(e: Event, p: nat, id: string) {
    e.Local? && e.p == p ==>
      && e.op != OpAssign(id, ToSettled)
      && e.op != OpStop(id)
      && !e.op.OpShutdown?
      && !(e.op.OpAssign? && e.op.executionId == id && e.op.change.ToResponse?)
  }

  /** The entry shows a run that has not settled, or one that is suspended. */
  predicate Cycling(t: Table, id: string)
    requires Linked(t)
  {
    id in t.active && (!t.runs[t.active[id]].settled || t.runs[t.active[id]].status == Waiting)
  }

  predicate SameEntry(t: Table, u: Table, id: string)
    requires Linked(t) && Linked(u)
  {
    && id in t.active && id in u.active
    && u.runs[u.active[id]].startedAt == t.runs[t.active[id]].startedAt
    && u.runs[u.active[id]].response == t.runs[t.active[id]].response
  }

  lemma LocalKeepsCycling(t: Table, op: Op, id: string, p: nat)
    requires Good(t) && Cycling(t, id) && IsLocal(t, op) && SparesEntry(Local(p, op), p, id)
    ensures var u := ActiveExecutions.Step(t, op);
      WellFormed(u) && Cycling(u, id) && SameEntry(t, u, id)
  {
    WellFormedStep(t, op);
    match op
    case OpRemoveAll => RemoveAllKeepsWellFormed(t);
    case OpHandle(g) =>
      if Pending(t, g) {
        HandleEffect(t, g);
        if t.runs[g].executionId == id && t.runs[g].status != Waiting {
          assert Unfinished(t, g);
        }
      }
    case _ =>
  }

  lemma CommitKeepsCycling(t: Table, g: nat, now: int, id: string)
    requires Good(t) && Cycling(t, id) && CanEnd(t, g)
    ensures var u := CommitAdd(t, g, now); Linked(u) && Cycling(u, id) && SameEntry(t, u, id)
  {
  }

  lemma BeginAddKeepsCycling(t: Table, g: nat, other: string, resumes: bool, mode: Mode, id: string)
    requires Good(t) && Cycling(t, id)
    ensures var u := BeginAdd(t, g, other, resumes, mode); Linked(u) && Cycling(u, id) && SameEntry(t, u, id)
  {
  }

  lemma AbortKeepsCycling(t: Table, g: nat, id: string)
    requires Good(t) && Cycling(t, id)
    ensures var u := AbortAdd(t, g); Linked(u) && Cycling(u, id) && SameEntry(t, u, id)
  {
    if CanEnd(t, g) {
      ReleaseKeepsAdds(t.(adds := t.adds - {g}), t.adds[g].stage.holdsSlot);
    }
  }

  lemma SuspendKeepsCycling(t: Table, other: string, id: string)
    requires Good(t) && Cycling(t, id)
    ensures var u := SuspendRun(t, other); Linked(u) && Cycling(u, id) && SameEntry(t, u, id)
  {
  }

  /** What one event can do to the table of a process. */
  predicate Moves(e: Event, t: Table, u: Table)
    requires Good(t)
  {
    match e
    case Create(_, g, id, mode) => u == BeginAdd(t, g, id, false, mode)
    case BeginResume(_, g, id, mode) => u == BeginAdd(t, g, id, true, mode)
    case FinishAdd(_, g, _, now) => CanEnd(t, g) && (u == CommitAdd(t, g, now) || u == AbortAdd(t, g))
    case Suspend(_, id) => u == SuspendRun(t, id)
    case CancelWait(_) => false
    case Local(_, op) => IsLocal(t, op) && u == ActiveExecutions.Step(t, op)
  }

  lemma StepMoves(s: State, e: Event, p: nat)
    requires AllGood(s) && p in s.procs
    ensures var n := Step(s, e);
      p in n.procs && (n.procs[p] == s.procs[p] || (!e.CancelWait? && e.p == p && Moves(e, s.procs[p], n.procs[p])))
  {
  }

  lemma MoveKeepsCycling(e: Event, t: Table, u: Table, p: nat, id: string)
    requires Good(t) && Cycling(t, id) && Moves(e, t, u) && SparesEntry(e, p, id)
    requires e.Local? ==> e.p == p
    ensures Linked(u) && Cycling(u, id) && SameEntry(t, u, id)
  {
    match e
    case Create(_, g, other, mode) => BeginAddKeepsCycling(t, g, other, false, mode, id);
    case BeginResume(_, g, other, mode) => BeginAddKeepsCycling(t, g, other, true, mode, id);
    case FinishAdd(_, g, _, now) =>
      CommitKeepsCycling(t, g, now, id);
      AbortKeepsCycling(t, g, id);
    case Suspend(_, other) => SuspendKeepsCycling(t, other, id);
    case Local(_, op) => LocalKeepsCycling(t, op, id, p);
  }

  lemma CycleStep(s: State, e: Event, p: nat, id: string)
    requires Inv(s) && p in s.procs && Cycling(s.procs[p], id) && SparesEntry(e, p, id)
    ensures var n := Step(s, e);
      && p in n.procs && Linked(n.procs[p]) && Cycling(n.procs[p], id)
      && SameEntry(s.procs[p], n.procs[p], id)
  {
    var t, u := s.procs[p], Step(s, e).procs[p];
    StepMoves(s, e, p);
    if u != t {
      MoveKeepsCycling(e, t, u, p, id);
    }
  }

  /**
   Through any number of suspend/resume cycles, in this process or with another one in between, the
   entry stays in the table with the first start time and the response promise attached to it.
   */
  lemma {:induction false} CyclesKeepEntry(s: State, events: seq<Event>, p: nat, id: string)
    requires Inv(s) && p in s.procs && Cycling(s.procs[p], id)
    requires forall e | e in events :: SparesEntry(e, p, id)
    ensures var n := After(s, events);
      && p in n.procs && Linked(n.procs[p]) && Cycling(n.procs[p], id)
      && SameEntry(s.procs[p], n.procs[p], id)
    decreases |events|
  {
    if events != [] {
      assert events[0] in events;
      CycleStep(s, events[0], p, id);
      InvStep(s, events[0]);
      CyclesKeepEntry(Step(s, events[0]), events[1..], p, id);
    }
  }

  /** A resume that the database accepts puts a running entry in place, in whichever process. */
  lemma AcceptedResumeRuns(s: State, p: nat, g: nat, now: int)
    requires Inv(s) && p in s.procs && CanEnd(s.procs[p], g)
    ensures var id := s.procs[p].adds[g].executionId;
      var resumes := s.procs[p].adds[g].resumes;
      var n := Step(s, FinishAdd(p, g, true, now));
      && p in n.procs
      && (resumes && !RowIsWaiting(s, id) ==> n.rows == s.rows && n.procs[p].active == s.procs[p].active
                                              && n.procs[p].runs == s.procs[p].runs)
      && (resumes && RowIsWaiting(s, id) ==> Holds(n, p, id) && !RowIsWaiting(n, id)
                                              && id in n.procs[p].active && n.procs[p].active[id] == g && g in n.procs[p].runs
                                              && n.procs[p].runs[g].status == Running
                                              && (forall q :: !Holds(s, q, id)))
  {
    var t := s.procs[p];
    var id := t.adds[g].executionId;
    ReleaseKeepsAdds(t.(adds := t.adds - {g}), t.adds[g].stage.holdsSlot);
    if t.adds[g].resumes && RowIsWaiting(s, id) {
      var n := Step(s, FinishAdd(p, g, true, now));
      assert g in n.procs[p].runs && n.procs[p].runs[g].executionId == id && !n.procs[p].runs[g].settled;
      forall q ensures !Holds(s, q, id) {
        if Holds(s, q, id) {
          var h :| h in s.procs[q].runs && s.procs[q].runs[h].executionId == id && !s.procs[q].runs[h].settled;
          assert ClaimsIn(s, q, h, id);
        }
      }
    }
  }

  // ---------- answers of the database ----------

  /** The execution suspends itself in process `p`. */
  predicate Suspends(s: State, p: nat, id: string, e: Event)
    requires AllGood(s)
  {
    && e == Suspend(p, id) && p in s.procs
    && id in s.procs[p].active && !s.procs[p].runs[s.procs[p].active[id]].settled
  }

  /** A refused add, because the database fails or the row to resume is not `waiting`, changes no row, no entry and no run. */
  lemma RefusedAddChangesNothing(s: State, p: nat, g: nat, ok: bool, now: int)
    requires Inv(s) && p in s.procs && CanEnd(s.procs[p], g)
    requires !ok || (s.procs[p].adds[g].resumes && !RowIsWaiting(s, s.procs[p].adds[g].executionId))
    ensures var n := Step(s, FinishAdd(p, g, ok, now));
      && n.rows == s.rows && p in n.procs && g !in n.procs[p].adds
      && n.procs[p].active == s.procs[p].active && n.procs[p].runs == s.procs[p].runs
      && (forall q | q != p :: (q in n.procs <==> q in s.procs) && (q in s.procs ==> n.procs[q] == s.procs[q]))
  {
    var t := s.procs[p];
    ReleaseKeepsAdds(t.(adds := t.adds - {g}), t.adds[g].stage.holdsSlot);
  }

  /** Creating an execution writes its row, which cannot be resumed, and begins an add that needs no row to be waiting. */
  lemma CreatedRowIsNotWaiting(s: State, p: nat, g: nat, id: string, mode: Mode)
    requires AllGood(s) && p in s.procs && id !in s.rows && g !in s.procs[p].adds && g !in s.procs[p].runs
    ensures var n := Step(s, Create(p, g, id, mode));
      && n.rows == s.rows[id := RowNotWaiting]
      && p in n.procs && g in n.procs[p].adds && n.procs[p].adds[g].executionId == id && !n.procs[p].adds[g].resumes
  {
  }

  /** A wait that a user cancels is over for all processes; nothing else changes. */
  lemma CancelledWaitIsOver(s: State, id: string)
    requires AllGood(s)
    ensures var n := Step(s, CancelWait(id));
      && n.procs == s.procs && !RowIsWaiting(n, id)
      && (forall x | x != id :: (x in n.rows <==> x in s.rows) && (x in s.rows ==> n.rows[x] == s.rows[x]))
  {
  }

  /** Suspending makes the row waiting and the shown run waiting and settled, and changes no other row. */
  lemma SuspendedExactly(s: State, p: nat, id: string)
    requires Inv(s) && Suspends(s, p, id, Suspend(p, id))
    ensures var n := Step(s, Suspend(p, id));
      && n.rows == s.rows[id := RowWaiting] && p in n.procs && n.procs[p].active == s.procs[p].active
      && var g := s.procs[p].active[id];
      g in n.procs[p].runs && n.procs[p].runs[g].status == Waiting && n.procs[p].runs[g].settled && n.procs[p].runs[g].handled == s.procs[p].runs[g].handled
  {
  }

  // ---------- one event, seen from one process ----------

  /** The event happens in the process. */
  predicate At(e: Event, p: nat) {
    !e.CancelWait? && e.p == p
  }

  lemma ElsewhereKeepsTable(s: State, e: Event, p: nat)
    requires AllGood(s) && p in s.procs && !At(e, p)
    ensures var n := Step(s, e); p in n.procs && n.procs[p] == s.procs[p]
  {
  }

  lemma BeginMakes(s: State, e: Event, p: nat)
    requires AllGood(s) && p in s.procs && At(e, p) && (e.Create? || e.BeginResume?)
    ensures var n := Step(s, e);
      && p in n.procs
      && (n.procs[p] == s.procs[p] || n.procs[p] == BeginAdd(s.procs[p], e.g, e.executionId, e.BeginResume?, e.mode))
  {
  }

  // ---------- running executions ----------

  /** The operation neither ends the run of `id` nor gives it another status; a shutdown may happen, if it does not cancel. */
  predicate LetsRun(op: Op, id: string) {
    match op
    case OpAssign(x, c) => x == id ==> !c.ToStatus? && !c.ToSettled?
    case OpStop(x) => x != id
    case OpShutdown(regular, cancelAll) => !(regular && cancelAll)
    case _ => true
  }

  predicate LetsRunOn(e: Event, p: nat, id: string) {
    e != Suspend(p, id) && (e.Local? && e.p == p ==> LetsRun(e.op, id))
  }

  lemma HandleKeepsRunning(t: Table, h: nat, g: nat, id: string)
    requires Good(t) && IsRunning(t, g, id)
    ensures Good(Handle(t, h)) && IsRunning(Handle(t, h), g, id)
  {
    HandleKeeps(t, h);
    if Pending(t, h) {
      HandleEffect(t, h);
      if t.runs[h].executionId == id && t.runs[h].status != Waiting {
        assert Unfinished(t, h);
      }
    }
  }

  lemma LocalKeepsRunning(t: Table, op: Op, g: nat, id: string)
    requires Good(t) && IsRunning(t, g, id) && IsLocal(t, op) && LetsRun(op, id)
    ensures Good(ActiveExecutions.Step(t, op)) && IsRunning(ActiveExecutions.Step(t, op), g, id)
  {
    LocalKeeps(t, op);
    match op
    case OpHandle(h) => HandleKeepsRunning(t, h, g, id);
    case OpShutdown(regular, cancelAll) => ShutdownWaitsForRunning(t, regular, cancelAll);
    case OpCancelQueued(x) => CancelTouchesAdds(t, x);
    case OpRemoveAll => RemoveAllKeepsWellFormed(t);
    case _ =>
  }

  lemma FinishKeepsRunning(s: State, p: nat, h: nat, ok: bool, now: int, g: nat, id: string)
    requires Inv(s) && p in s.procs && CanEnd(s.procs[p], h) && IsRunning(s.procs[p], g, id)
    ensures var n := Step(s, FinishAdd(p, h, ok, now));
      p in n.procs && Linked(n.procs[p]) && IsRunning(n.procs[p], g, id)
  {
    var t := s.procs[p];
    var a := t.adds[h];
    assert ClaimsIn(s, p, g, id);
    assert !a.resumes ==> ClaimsIn(s, p, h, a.executionId);
    ReleaseKeepsAdds(t.(adds := t.adds - {h}), a.stage.holdsSlot);
  }

  lemma BeginKeepsRunning(t: Table, h: nat, other: string, resumes: bool, mode: Mode, g: nat, id: string)
    requires Good(t) && IsRunning(t, g, id)
    ensures var u := BeginAdd(t, h, other, resumes, mode); Linked(u) && IsRunning(u, g, id)
  {
  }

  lemma SuspendKeepsRunning(t: Table, other: string, g: nat, id: string)
    requires Good(t) && IsRunning(t, g, id) && other != id
    ensures var u := SuspendRun(t, other); Linked(u) && IsRunning(u, g, id)
  {
  }

  lemma RunningStep(s: State, e: Event, p: nat, g: nat, id: string)
    requires Inv(s) && p in s.procs && IsRunning(s.procs[p], g, id) && LetsRunOn(e, p, id)
    ensures var n := Step(s, e); p in n.procs && Linked(n.procs[p]) && IsRunning(n.procs[p], g, id)
  {
    var t := s.procs[p];
    if !At(e, p) {
      ElsewhereKeepsTable(s, e, p);
    } else {
      match e
      case Create(_, h, other, mode) =>
        BeginMakes(s, e, p);
        BeginKeepsRunning(t, h, other, false, mode, g, id);
      case BeginResume(_, h, other, mode) =>
        BeginMakes(s, e, p);
        BeginKeepsRunning(t, h, other, true, mode, g, id);
      case FinishAdd(_, h, ok, now) =>
        if CanEnd(t, h) {
          FinishKeepsRunning(s, p, h, ok, now, g, id);
        }
      case Suspend(_, other) => SuspendKeepsRunning(t, other, g, id);
      case Local(_, op) =>
        if IsLocal(t, op) {
          LocalKeepsRunning(t, op, g, id);
        }
    }
  }

  /**
   A run that an accepted add has put in place stays shown, and `running`, through everything that other processes and
   this one do, shutdowns without cancellation included, until it suspends itself, settles or is stopped.
   */
  lemma {:induction false} RunningStaysShown(s: State, events: seq<Event>, p: nat, g: nat, id: string)
    requires Inv(s) && p in s.procs && IsRunning(s.procs[p], g, id)
    requires forall e | e in events :: LetsRunOn(e, p, id)
    ensures var n := After(s, events); p in n.procs && Linked(n.procs[p]) && IsRunning(n.procs[p], g, id)
    decreases |events|
  {
    if events != [] {
      assert events[0] in events;
      RunningStep(s, events[0], p, g, id);
      InvStep(s, events[0]);
      RunningStaysShown(Step(s, events[0]), events[1..], p, g, id);
    }
  }

  // ---------- suspensions after a shutdown ----------

  /** A suspension in process `p` comes to its end there: an accepted resume, a stop, or a shutdown. */
  predicate EndsSuspension(s: State, p: nat, id: string, e: Event)
    requires AllGood(s)
  {
    match e
    case FinishAdd(q, g, ok, _) =>
      q == p && p in s.procs && CanEnd(s.procs[p], g) && s.procs[p].adds[g].executionId == id && Accepted(s, s.procs[p].adds[g], ok)
    case Local(q, op) => q == p && (op == OpStop(id) || op.OpShutdown?)
    case _ => false
  }

  /** Whether the table shows the execution as suspended. */
  predicate Shows(t: Table, id: string)
    requires Linked(t)
  {
    id in SuspendedIds(t)
  }

  lemma BeginKeepsSuspended(t: Table, g: nat, other: string, resumes: bool, mode: Mode, id: string)
    requires Good(t)
    ensures var u := BeginAdd(t, g, other, resumes, mode); Linked(u) && (Shows(u, id) <==> Shows(t, id))
  {
  }

  lemma CommitChangesSuspended(t: Table, g: nat, now: int, id: string)
    requires Good(t) && CanEnd(t, g)
    ensures var u := CommitAdd(t, g, now);
      Linked(u) && (Shows(u, id) <==> Shows(t, id) && t.adds[g].executionId != id)
  {
  }

  lemma AbortKeepsSuspended(t: Table, g: nat, id: string)
    requires Good(t) && CanEnd(t, g)
    ensures var u := AbortAdd(t, g); Linked(u) && (Shows(u, id) <==> Shows(t, id))
  {
    ReleaseKeepsAdds(t.(adds := t.adds - {g}), t.adds[g].stage.holdsSlot);
  }

  lemma SuspendChangesSuspended(t: Table, other: string, id: string)
    requires Good(t) && other in t.active
    ensures var u := SuspendRun(t, other); Linked(u) && (Shows(u, id) <==> Shows(t, id) || id == other)
  {
  }

  lemma LocalKeepsSuspended(t: Table, op: Op, id: string)
    requires Good(t) && IsLocal(t, op) && op != OpStop(id) && !op.OpShutdown?
    ensures var u := ActiveExecutions.Step(t, op);
      Linked(u) && (Shows(u, id) <==> Shows(t, id))
  {
    WellFormedStep(t, op);
    match op
    case OpHandle(g) => HandleKeepsSuspended(t, g);
    case OpRemoveAll => RemoveAllKeepsWellFormed(t);
    case OpCancelQueued(x) => CancelTouchesAdds(t, x);
    case _ =>
  }

  lemma LocalEndsSuspension(t: Table, op: Op, id: string)
    requires Good(t) && (op == OpStop(id) || op.OpShutdown?)
    ensures var u := ActiveExecutions.Step(t, op); Linked(u) && !Shows(u, id)
  {
    WellFormedStep(t, op);
  }

  lemma FinishChangesSuspended(s: State, p: nat, g: nat, ok: bool, now: int, id: string)
    requires Inv(s) && p in s.procs && CanEnd(s.procs[p], g)
    ensures var e := FinishAdd(p, g, ok, now);
      var n := Step(s, e);
      p in n.procs && Linked(n.procs[p]) && (Shows(n.procs[p], id) <==> Shows(s.procs[p], id) && !EndsSuspension(s, p, id, e))
  {
    CommitChangesSuspended(s.procs[p], g, now, id);
    AbortKeepsSuspended(s.procs[p], g, id);
  }

  lemma LocalChangesSuspended(s: State, p: nat, op: Op, id: string)
    requires Inv(s) && p in s.procs && IsLocal(s.procs[p], op)
    ensures var n := Step(s, Local(p, op));
      && p in n.procs && Linked(n.procs[p])
      && (Shows(n.procs[p], id) <==> Shows(s.procs[p], id) && !EndsSuspension(s, p, id, Local(p, op)))
  {
    if op == OpStop(id) || op.OpShutdown? {
      LocalEndsSuspension(s.procs[p], op, id);
    } else {
      LocalKeepsSuspended(s.procs[p], op, id);
    }
  }

  /** The suspended executions of a process after one more event. */
  lemma SuspendedStep(s: State, e: Event, p: nat, id: string)
    requires Inv(s) && p in s.procs
    ensures var n := Step(s, e);
      && p in n.procs && Linked(n.procs[p])
      && (Shows(n.procs[p], id) <==> Suspends(s, p, id, e) || (Shows(s.procs[p], id) && !EndsSuspension(s, p, id, e)))
  {
    var t := s.procs[p];
    if !At(e, p) {
      ElsewhereKeepsTable(s, e, p);
    } else {
      match e
      case Create(_, g, other, mode) =>
        BeginMakes(s, e, p);
        BeginKeepsSuspended(t, g, other, false, mode, id);
      case BeginResume(_, g, other, mode) =>
        BeginMakes(s, e, p);
        BeginKeepsSuspended(t, g, other, true, mode, id);
      case FinishAdd(_, g, ok, now) =>
        if CanEnd(t, g) {
          FinishChangesSuspended(s, p, g, ok, now, id);
        }
      case Suspend(_, other) =>
        if Suspends(s, p, other, e) {
          SuspendChangesSuspended(t, other, id);
        }
      case Local(_, op) =>
        if IsLocal(t, op) {
          LocalChangesSuspended(s, p, op, id);
        }
    }
  }

  ghost predicate EndsLater(s: State, p: nat, id: string, events: seq<Event>)
    requires Inv(s)
    decreases |events|
  {
    InvStepIf(s, events);
    events != [] && (EndsSuspension(s, p, id, events[0]) || EndsLater(Step(s, events[0]), p, id, events[1..]))
  }

  lemma InvStepIf(s: State, events: seq<Event>)
    requires Inv(s)
    ensures events != [] ==> Inv(Step(s, events[0]))
  {
    if events != [] {
      InvStep(s, events[0]);
    }
  }

  /** The execution suspends itself in the process, and that suspension has no end there afterwards. */
  ghost predicate StaysSuspended(s: State, p: nat, id: string, events: seq<Event>)
    requires Inv(s)
    decreases |events|
  {
    InvStepIf(s, events);
    events != [] &&
    ((Suspends(s, p, id, events[0]) && !EndsLater(Step(s, events[0]), p, id, events[1..]))
     || StaysSuspended(Step(s, events[0]), p, id, events[1..]))
  }

  lemma {:induction false} SuspendedAfter(s: State, p: nat, id: string, events: seq<Event>)
    requires Inv(s) && p in s.procs
    ensures var n := After(s, events);
      && Inv(n) && p in n.procs
      && (Shows(n.procs[p], id) <==> (Shows(s.procs[p], id) && !EndsLater(s, p, id, events)) || StaysSuspended(s, p, id, events))
    decreases |events|
  {
    if events != [] {
      InvStep(s, events[0]);
      SuspendedStep(s, events[0], p, id);
      SuspendedAfter(Step(s, events[0]), p, id, events[1..]);
    }
  }

  predicate AllHandled(t: Table)
    requires Linked(t)
  {
    forall id | id in t.active :: t.runs[t.active[id]].settled && !Pending(t, t.active[id])
  }

  /**
   The wait of `shutdown`, whatever happens after its first pass, in this process and in others, adds that go on
   included: once every shown run has settled and been handled, the table shows exactly the executions that have
   suspended themselves since without an accepted resume, a stop or a further shutdown in this process afterwards. So it
   becomes empty exactly when there is no such suspension.
   */
  lemma ShutdownEndsExactly(s: State, p: nat, regular: bool, cancelAll: bool, events: seq<Event>)
    requires Inv(s) && p in s.procs
    ensures var m := Step(s, Local(p, OpShutdown(regular, cancelAll)));
      && Inv(m)
      && var n := After(m, events);
      && p in n.procs && Inv(n)
      && (AllHandled(n.procs[p]) ==>
            && (forall id :: id in n.procs[p].active <==> StaysSuspended(m, p, id, events))
            && (n.procs[p].active == map[] <==> forall id :: !StaysSuspended(m, p, id, events)))
  {
    var e := Local(p, OpShutdown(regular, cancelAll));
    InvStep(s, e);
    SuspendedStep(s, e, p, "");
    var m := Step(s, e);
    SuspendedAfter(m, p, "", events);
    var n := After(m, events);
    forall id ensures Shows(n.procs[p], id) <==> StaysSuspended(m, p, id, events) {
      SuspendedStep(s, e, p, id);
      SuspendedAfter(m, p, id, events);
    }
    if AllHandled(n.procs[p]) {
      HandledTableShowsSuspended(n.procs[p]);
    }
  }

  /** Then an entry is there only because its execution is suspended. */
  lemma HandledTableShowsSuspended(t: Table)
    requires Good(t) && AllHandled(t)
    ensures forall id :: id in t.active <==> Shows(t, id)
    ensures t.active == map[] <==> forall id :: !Shows(t, id)
  {
    assert t.active == map[] <==> forall id :: id !in t.active;
  }

  /** A process with one execution, whose run has the given status. */
  function Alone(gated: bool, status: Status, settled: bool, handled: bool): Table {
    Empty(1, gated).(active := map["e" := 1], runs := map[1 := Run("e", status, 5, None, None, settled, handled, false)])
  }

  lemma AloneStarts()
    ensures var s := State(map[], map[0 := Empty(1, true)]);
      && Inv(s)
      && After(s, [Create(0, 1, "e", Manual), FinishAdd(0, 1, true, 5)])
         == State(map["e" := RowNotWaiting], map[0 := Alone(true, Running, false, false)])
  {
    var s := State(map[], map[0 := Empty(1, true)]);
    InitialInv(s);
    var a, b := Create(0, 1, "e", Manual), FinishAdd(0, 1, true, 5);
    var t := Empty(1, true).(adds := map[1 := Add("e", false, Ready(false))]);
    assert BeginAdd(Empty(1, true), 1, "e", false, Manual) == t;
    assert CommitAdd(t, 1, 5) == Alone(true, Running, false, false);
    AfterTwo(s, a, b);
  }

  lemma AloneShutsDown(r: State)
    requires r == State(map["e" := RowNotWaiting], map[0 := Alone(true, Running, false, false)]) && Inv(r)
    ensures var m := Step(r, Local(0, OpShutdown(true, false)));
      Inv(m) && m == State(map["e" := RowNotWaiting], map[0 := Alone(false, Running, false, false)])
  {
    var t := Alone(true, Running, false, false);
    InvStep(r, Local(0, OpShutdown(true, false)));
    ShutdownWaitsForRunning(t, true, false);
    assert Shutdown(t, true, false).active == t.active;
    assert Shutdown(t, true, false) == Alone(false, Running, false, false);
  }

  lemma AloneSettles()
    ensures var t := Alone(false, Running, false, false);
      Linked(t) && SuspendRun(t, "e") == Alone(false, Waiting, true, false)
  {
  }

  lemma AloneIsHandled()
    ensures Handle(Alone(false, Waiting, true, false), 1) == Alone(false, Waiting, true, true)
  {
    var t := Alone(false, Waiting, true, false);
    assert Released(MarkHandled(t, 1), false) == MarkHandled(t, 1);
    assert ForgetWorkflow(MarkHandled(t, 1), 1).runs == Alone(false, Waiting, true, true).runs;
  }

  lemma AloneSuspends(m: State)
    requires m == State(map["e" := RowNotWaiting], map[0 := Alone(false, Running, false, false)]) && Inv(m)
    ensures After(m, [Suspend(0, "e"), Local(0, OpHandle(1))])
            == State(map["e" := RowWaiting], map[0 := Alone(false, Waiting, true, true)])
  {
    AloneSettles();
    AloneIsHandled();
    AfterTwo(m, Suspend(0, "e"), Local(0, OpHandle(1)));
    InvStep(m, Suspend(0, "e"));
    var n := Step(m, Suspend(0, "e"));
    assert n == State(map["e" := RowWaiting], map[0 := Alone(false, Waiting, true, false)]);
    assert Step(n, Local(0, OpHandle(1))).procs == map[0 := Alone(false, Waiting, true, true)];
  }

  /** An execution that runs during the shutdown and then suspends itself: its entry stays, with nothing left to wait for. */
  lemma SuspendingKeepsShutdownWaiting()
    ensures var s := State(map[], map[0 := Empty(1, true)]);
      && Initial(s) && Inv(s)
      && var r := After(s, [Create(0, 1, "e", Manual), FinishAdd(0, 1, true, 5)]);
      && Inv(r) && 0 in r.procs
      && var m := Step(r, Local(0, OpShutdown(true, false)));
      && Inv(m)
      && var n := After(m, [Suspend(0, "e"), Local(0, OpHandle(1))]);
      && 0 in n.procs && "e" in n.procs[0].active && Inv(n) && AllHandled(n.procs[0])
  {
    var s := State(map[], map[0 := Empty(1, true)]);
    AloneStarts();
    var start := [Create(0, 1, "e", Manual), FinishAdd(0, 1, true, 5)];
    InvAlways(s, start);
    AloneShutsDown(After(s, start));
    var m := Step(After(s, start), Local(0, OpShutdown(true, false)));
    AloneSuspends(m);
    InvAlways(m, [Suspend(0, "e"), Local(0, OpHandle(1))]);
  }

  lemma AfterTwo(s: State, a: Event, b: Event)
    requires Inv(s)
    ensures Inv(Step(s, a)) && After(s, [a, b]) == Step(Step(s, a), b)
  {
    InvStep(s, a);
    InvStep(Step(s, a), b);
    assert [b][1..] == [] && [a, b][1..] == [b];
    assert After(Step(s, a), [b]) == After(Step(Step(s, a), b), [b][1..]);
    assert After(s, [a, b]) == After(Step(s, a), [a, b][1..]);
  }
}
