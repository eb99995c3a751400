/**
 The protocol by which finished sub-workflows resume the execution that is waiting for them
 (`WaitTracker.resumeParentExecution` and `updateParentExecutionWithChildResults`).

 One database row (the parent) is shared by any number of actors. An actor is one call of
 `resumeParentExecution` on behalf of a child, or one firing of the parent's own wait timer.
 Every database access is one atomic step, and steps of different actors interleave freely.
 */
module ParentResume {
  import opened Powers
  import opened Wrappers

  const MAX_PARENT_RESUME_ATTEMPTS: nat := 3

  // ---------- state ----------

  /** Success is the only status whose row has `finished` set. */
  datatype Status = Waiting | Running | Success | Ended

  /** The input of a stack entry: what the parent itself put there, or the output of a child. */
  datatype Data = Original(period: nat) | Output(child: nat)

  datatype Entry = Entry(data: Data, resumeError: Option<nat>, subExecution: Option<nat>)

  datatype Row = Row(status: Status, stack: seq<Entry>)

  /** How a child's post-execute promise resolved. */
  datatype Outcome =
    | NoRun
    | StillWaiting
    | Completed(failed: bool, hasData: bool)

  datatype Kind = Child(outcome: Outcome) | Timer

  datatype Ending =
    | NothingToDo
    | Resumed(stack: seq<Entry>)
    | AlreadyResuming
    | Refused
    | GaveUp

  datatype Phase =
    | Executing
    | Updating(attempt: nat)
    | Patching(attempt: nat, snapshot: seq<Entry>)
    | Starting(attempt: nat)
    | Resuming(attempt: nat, snapshot: seq<Entry>)
    | Done(ending: Ending)

  /** `period` is the waiting period in which the actor first read the row. */
  datatype Actor = Actor(kind: Kind, phase: Phase, period: nat)

  /** `waits` counts how often the row entered `waiting`, `cancels` how often a user ended a wait. */
  datatype State = State(row: Row, actors: map<nat, Actor>, waits: nat, cancels: nat)

  /** A parent that has just started waiting for the first time; nobody has reacted yet. */
  predicate Initial(s: State) {
    && s.row.status == Waiting
    && s.row.stack != []
    && s.row.stack[0] == Entry(Original(1), None, None)
    && s.actors == map[]
    && s.waits == 1
    && s.cancels == 0
  }

  // ---------- steps ----------

  datatype Event =
    | Spawn(actor: nat, kind: Kind)
    | ChildSettles(actor: nat)
    | ReadParent(actor: nat)
    | WriteParent(actor: nat)
    | ReadForResume(actor: nat)
    | ConditionalUpdate(actor: nat)
    | Fails(actor: nat, retryable: bool)
    | ParentSuspends(stack: seq<Entry>)
    | ParentEnds(success: bool)
    | Cancelled

  /** A child with an error or an output has something to write on the parent. */
  predicate HasPayload(k: Kind) {
    k.Child? && k.outcome.Completed? && (k.outcome.failed || k.outcome.hasData)
  }

  /** What the child's result does to the first entry of the stack it read. */
  function Patch(stack: seq<Entry>, child: nat, outcome: Outcome): seq<Entry>
    requires stack != []
  {
    if outcome.Completed? && outcome.failed then
      stack[0 := stack[0].(resumeError := Some(child), subExecution := Some(child))]
    else if outcome.Completed? && outcome.hasData then
      stack[0 := stack[0].(data := Output(child))]
    else
      stack
  }

  function FirstPhase(k: Kind): Phase {
    match k
    case Timer => Starting(1)
    case Child(_) => Executing
  }

  /** After the promise settles: stop, go straight to resuming, or patch first. */
  function SettledPhase(k: Kind): Phase {
    if k.Timer? || !k.outcome.Completed? then Done(NothingToDo)
    else if HasPayload(k) then Updating(1)
    else Starting(1)
  }

  function MaxAttempts(k: Kind): nat {
    if k.Timer? then 1 else MAX_PARENT_RESUME_ATTEMPTS
  }

  function RetryPhase(a: Actor, retryable: bool): Phase {
    match a.phase
    case Updating(n) => if retryable && n < MaxAttempts(a.kind) then Updating(n + 1) else Done(GaveUp)
    case Patching(n, _) => if retryable && n < MaxAttempts(a.kind) then Updating(n + 1) else Done(GaveUp)
    case Starting(n) => if retryable && n < MaxAttempts(a.kind) then Starting(n + 1) else Done(GaveUp)
    case Resuming(n, _) => if retryable && n < MaxAttempts(a.kind) then Starting(n + 1) else Done(GaveUp)
    case _ => a.phase
  }

  function To(s: State, c: nat, phase: Phase): State
    requires c in s.actors
  {
    s.(actors := s.actors[c := s.actors[c].(phase := phase)])
  }

  function ToIn(s: State, c: nat, phase: Phase): State
    requires c in s.actors
  {
    s.(actors := s.actors[c := s.actors[c].(phase := phase, period := s.waits)])
  }

  /** One step. An event that is not possible in `s` leaves `s` as it is. */
  function Step(s: State, e: Event): State {
    match e
    case Spawn(c, k) =>
      if c in s.actors then s else s.(actors := s.actors[c := Actor(k, FirstPhase(k), s.waits)])
    case ChildSettles(c) =>
      if c !in s.actors || !s.actors[c].phase.Executing? then s
      else To(s, c, SettledPhase(s.actors[c].kind))
    case ReadParent(c) =>
      if c !in s.actors || !s.actors[c].phase.Updating? then s
      else if s.row.status != Waiting || s.row.stack == [] then ToIn(s, c, Starting(1))
      else ToIn(s, c, Patching(s.actors[c].phase.attempt, s.row.stack))
    case WriteParent(c) =>
      if c !in s.actors || !s.actors[c].phase.Patching? || s.actors[c].kind.Timer?
         || s.actors[c].phase.snapshot == [] then s
      else
        var written := Patch(s.actors[c].phase.snapshot, c, s.actors[c].kind.outcome);
        To(s, c, Starting(1)).(row := s.row.(stack := written))
    case ReadForResume(c) =>
      if c !in s.actors || !s.actors[c].phase.Starting? then s
      else if s.row.status == Success then To(s, c, Done(Refused))
      else if HasPayload(s.actors[c].kind) then To(s, c, Resuming(s.actors[c].phase.attempt, s.row.stack))
      else ToIn(s, c, Resuming(s.actors[c].phase.attempt, s.row.stack))
    case ConditionalUpdate(c) =>
      if c !in s.actors || !s.actors[c].phase.Resuming? then s
      else if s.row.status != Waiting then To(s, c, Done(AlreadyResuming))
      else
        var stack := s.actors[c].phase.snapshot;
        To(s, c, Done(Resumed(stack))).(row := Row(Running, stack))
    case Fails(c, retryable) =>
      if c !in s.actors then s else To(s, c, RetryPhase(s.actors[c], retryable))
    case ParentSuspends(stack) =>
      if s.row.status != Running then s else s.(row := Row(Waiting, stack), waits := s.waits + 1)
    case ParentEnds(success) =>
      if s.row.status != Running then s
      else s.(row := s.row.(status := if success then Success else Ended))
    case Cancelled =>
      if s.row.status != Waiting then s
      else s.(row := s.row.(status := Ended), cancels := s.cancels + 1)
  }

  /** The state after a whole interleaving. */
  function After(s: State, events: seq<Event>): State
    decreases |events|
  {
    if events == [] then s else After(Step(s, events[0]), events[1..])
  }

  predicate WithoutSuspend(events: seq<Event>) {
    forall e | e in events :: !e.ParentSuspends?
  }

  // ---------- reading the row and putting a stack back ----------

  /** The actor reads the row, to patch it or to resume it. */
  predicate Reads(s: State, e: Event) {
    && (e.ReadParent? || e.ReadForResume?)
    && e.actor in s.actors
    && (if e.ReadParent? then
          s.actors[e.actor].phase.Updating? && s.row.status == Waiting && s.row.stack != []
        else
          s.actors[e.actor].phase.Starting? && s.row.status != Success)
  }

  predicate HoldsSnapshot(s: State, c: nat) {
    c in s.actors && (s.actors[c].phase.Patching? || s.actors[c].phase.Resuming?)
  }

  /** The event puts on the row a stack that its actor has read earlier. */
  predicate PutsBack(s: State, e: Event) {
    && (e.WriteParent? || e.ConditionalUpdate?)
    && e.actor in s.actors
    && (if e.WriteParent? then
          s.actors[e.actor].phase.Patching? && s.actors[e.actor].kind.Child? && s.actors[e.actor].phase.snapshot != []
        else
          s.actors[e.actor].phase.Resuming? && s.row.status == Waiting)
  }

  // ---------- who acts on the parent, and what one step does ----------

  function Resumers(s: State): set<nat> {
    set c | c in s.actors && s.actors[c].phase.Done? && s.actors[c].phase.ending.Resumed?
  }

  predicate HasResumed(s: State, c: nat) {
    c in s.actors && s.actors[c].phase.Done? && s.actors[c].phase.ending.Resumed?
  }

  /** The child has not ended: it has no run, or has only suspended itself. */
  predicate HasNotEnded(k: Kind) {
    k.Child? && (k.outcome.NoRun? || k.outcome.StillWaiting?)
  }

  predicate ActorsHaveEnded(s: State) {
    forall c | c in s.actors && HasNotEnded(s.actors[c].kind) :: s.actors[c].phase in {Executing, Done(NothingToDo), Done(GaveUp)}
  }

  lemma {:induction false} OnlyEndedChildrenAct(s: State, events: seq<Event>)
    requires ActorsHaveEnded(s)
    ensures ActorsHaveEnded(After(s, events))
    decreases |events|
  {
    if events != [] {
      OnlyEndedChildrenAct(Step(s, events[0]), events[1..]);
    }
  }

  /**
   In every interleaving, over any number of waits: whoever patches or resumes the parent, or has resumed it, is a
   timer or a child whose run has completed; a child without a run, or with one that is still waiting, stops at
   once when its promise settles, and no step of it changes the row.
   */
  lemma ChildThatHasNotEndedLeavesParentAlone(s: State, events: seq<Event>, c: nat)
    requires Initial(s) && c in After(s, events).actors
    ensures var t := After(s, events);
      var a := t.actors[c];
      && (a.phase.Updating? || a.phase.Patching? || a.phase.Starting? || a.phase.Resuming? || c in Resumers(t) ==>
            a.kind.Timer? || a.kind.outcome.Completed?)
      && (a.kind.Child? && !a.kind.outcome.Completed? ==>
            && (a.phase.Executing? ==> Step(t, ChildSettles(c)).actors[c].phase == Done(NothingToDo))
            && (forall e | ActsFor(e, c) :: Step(t, e).row == t.row))
  {
    OnlyEndedChildrenAct(s, events);
  }

  predicate ActsFor(e: Event, c: nat) {
    e in {ChildSettles(c), ReadParent(c), WriteParent(c), ReadForResume(c), ConditionalUpdate(c), Fails(c, true), Fails(c, false)}
  }

  /** A child that has completed first updates the parent if it has an error or an output, and else resumes it directly. */
  lemma CompletedChildGoesOn(s: State, c: nat, failed: bool, hasData: bool)
    requires c in s.actors && s.actors[c].phase.Executing? && s.actors[c].kind == Child(Completed(failed, hasData))
    ensures Step(s, ChildSettles(c)).actors[c].phase == if failed || hasData then Updating(1) else Starting(1)
  {
  }

  /** The patch records an error, or else the output, on the first entry; all other fields and entries stay. */
  lemma PatchChangesFirstEntryOnly(stack: seq<Entry>, child: nat, failed: bool, hasData: bool)
    requires stack != []
    ensures var r := Patch(stack, child, Completed(failed, hasData));
      && |r| == |stack| && r[1..] == stack[1..]
      && r[0].resumeError == (if failed then Some(child) else stack[0].resumeError)
      && r[0].subExecution == (if failed then Some(child) else stack[0].subExecution)
      && r[0].data == (if !failed && hasData then Output(child) else stack[0].data)
  {
  }

  /** The rest of the stack is the same on the row, in everything that actors hold and in everything restarted with. */
  predicate TailIs(s: State, tail: seq<Entry>) {
    && s.row.stack != [] && s.row.stack[1..] == tail
    && (forall c | c in s.actors && HoldsSnapshot(s, c) ::
          s.actors[c].phase.snapshot != [] && s.actors[c].phase.snapshot[1..] == tail)
    && (forall c | c in s.actors && HasResumed(s, c) ::
          s.actors[c].phase.ending.stack != [] && s.actors[c].phase.ending.stack[1..] == tail)
  }

  lemma TailIsStep(s: State, e: Event, tail: seq<Entry>)
    requires TailIs(s, tail) && !e.ParentSuspends?
    ensures TailIs(Step(s, e), tail)
  {
    if e.WriteParent? && PutsBack(s, e) {
      var k := s.actors[e.actor].kind;
      if k.outcome.Completed? {
        PatchChangesFirstEntryOnly(s.actors[e.actor].phase.snapshot, e.actor, k.outcome.failed, k.outcome.hasData);
      }
    }
  }

  /** In every interleaving of one wait, the entries behind the first are never lost or changed. */
  lemma {:induction false} RestOfStackIsKept(s: State, events: seq<Event>, tail: seq<Entry>)
    requires TailIs(s, tail) && WithoutSuspend(events)
    ensures TailIs(After(s, events), tail)
    decreases |events|
  {
    if events != [] {
      assert events[0] in events;
      TailIsStep(s, events[0], tail);
      RestOfStackIsKept(Step(s, events[0]), events[1..], tail);
    }
  }

  /**
   A step of a child that fails for a passing reason starts over twice, and the third failure is the last one; any
   other failure is the last one at once. The failure itself changes nothing on the row.
   */
  lemma FailuresStartOver(s: State, c: nat, retryable: bool)
    requires c in s.actors && s.actors[c].kind.Child?
    ensures var phase := s.actors[c].phase;
      var t := Step(s, Fails(c, retryable));
      var again := retryable && Attempt(phase) < 3;
      && t.row == s.row && c in t.actors
      && (phase.Updating? || phase.Patching? ==> t.actors[c].phase == if again then Updating(phase.attempt + 1) else Done(GaveUp))
      && (phase.Starting? || phase.Resuming? ==> t.actors[c].phase == if again then Starting(phase.attempt + 1) else Done(GaveUp))
  {
  }

  /** A child begins to run, a timer is due at once; nothing happens on the row. */
  lemma SpawnedBegins(s: State, c: nat, k: Kind)
    requires c !in s.actors
    ensures var t := Step(s, Spawn(c, k));
      && t.row == s.row && t.waits == s.waits && t.cancels == s.cancels
      && t.actors == s.actors[c := Actor(k, if k.Timer? then Starting(1) else Executing, s.waits)]
  {
  }

  /**
   What each access of an actor to the database leads to. Reading changes nothing on the row; whatever follows an
   update counts its attempts anew; a finished parent is not resumed any more, and one that is not waiting is read, but
   refused by the conditional update, which otherwise restarts it with what was read.
   */
  lemma AccessLeadsOn(s: State, c: nat)
    requires c in s.actors
    ensures var phase := s.actors[c].phase;
      var read, write, again, update := Step(s, ReadParent(c)), Step(s, WriteParent(c)), Step(s, ReadForResume(c)), Step(s, ConditionalUpdate(c));
      && read.row == s.row && again.row == s.row
      && (phase.Updating? ==>
            c in read.actors
            && read.actors[c].phase == (if s.row.status == Waiting && s.row.stack != [] then Patching(phase.attempt, s.row.stack) else Starting(1)))
      && (phase.Patching? && s.actors[c].kind.Child? && phase.snapshot != [] ==>
            && c in write.actors && write.actors[c].phase == Starting(1) && write.row.status == s.row.status
            && write.row.stack == Patch(phase.snapshot, c, s.actors[c].kind.outcome))
      && (phase.Starting? ==>
            c in again.actors
            && again.actors[c].phase == (if s.row.status == Success then Done(Refused) else Resuming(phase.attempt, s.row.stack)))
      && (phase.Resuming? ==>
            c in update.actors
            && update.actors[c].phase == (if s.row.status == Waiting then Done(Resumed(phase.snapshot)) else Done(AlreadyResuming))
            && update.row == (if s.row.status == Waiting then Row(Running, phase.snapshot) else s.row))
  {
  }

  /** Nobody else's access or failure touches an actor, and only accesses, suspensions, ends and cancellations touch the row. */
  lemma OthersAreUntouched(s: State, e: Event, c: nat)
    requires c in s.actors && !ActsFor(e, c)
    ensures c in Step(s, e).actors && Step(s, e).actors[c] == s.actors[c]
  {
  }

  /** The parent suspends itself or ends only while it runs, and is cancelled only while it waits. */
  lemma ParentMoves(s: State, stack: seq<Entry>)
    ensures Step(s, ParentSuspends(stack)) ==
      if s.row.status == Running then s.(row := Row(Waiting, stack), waits := s.waits + 1) else s
    ensures var t := Step(s, ParentEnds(true)); t.row == (if s.row.status == Running then Row(Success, s.row.stack) else s.row)
    ensures var t := Step(s, ParentEnds(false)); t.row == (if s.row.status == Running then Row(Ended, s.row.stack) else s.row)
    ensures var t := Step(s, Cancelled);
      if s.row.status == Waiting then t.row == Row(Ended, s.row.stack) && t.cancels == s.cancels + 1 else t == s
  {
  }

  /**
   A completed child that nobody disturbs resumes its waiting parent: with its error or its output on the first entry,
   if it has one, and with the stack as it is otherwise.
   */
  lemma UndisturbedChildResumesParent(s: State, c: nat, failed: bool, hasData: bool)
    requires c in s.actors && s.actors[c].phase.Executing? && s.actors[c].kind == Child(Completed(failed, hasData))
    requires s.row.status == Waiting && s.row.stack != []
    ensures var first := s.row.stack[0];
      var head := if failed then Entry(first.data, Some(c), Some(c))
                  else if hasData then Entry(Output(c), first.resumeError, first.subExecution) else first;
      var settled := Step(s, ChildSettles(c));
      var updated := if failed || hasData then Step(Step(settled, ReadParent(c)), WriteParent(c)) else settled;
      var t := Step(Step(updated, ReadForResume(c)), ConditionalUpdate(c));
      t.row == Row(Running, [head] + s.row.stack[1..]) && c in t.actors && t.actors[c].phase == Done(Resumed(t.row.stack))
  {
    var r := Patch(s.row.stack, c, Completed(failed, hasData));
    assert r == [r[0]] + s.row.stack[1..];
  }

  /** The timer of the parent itself has no second attempt. */
  lemma TimerFailsForGood(s: State, c: nat, retryable: bool)
    requires c in s.actors && s.actors[c].kind.Timer? && (s.actors[c].phase.Starting? || s.actors[c].phase.Resuming?)
    requires Attempt(s.actors[c].phase) >= 1
    ensures Step(s, Fails(c, retryable)).actors[c].phase == Done(GaveUp)
  {
  }

  // ---------- at most one resume per waiting period ----------

  /** Every wait is either still going on, was cancelled, or was ended by exactly one resume. */
  predicate WaitsAccounted(s: State) {
    |Resumers(s)| + s.cancels + (if s.row.status == Waiting then 1 else 0) == s.waits
  }

  /** Only a conditional update that goes through makes another resumer. */
  lemma ResumersStep(s: State, e: Event, c: nat)
    ensures HasResumed(Step(s, e), c) <==> HasResumed(s, c) || (e == ConditionalUpdate(c) && Wins(s, c))
  {
  }

  predicate Wins(s: State, c: nat) {
    c in s.actors && s.actors[c].phase.Resuming? && s.row.status == Waiting
  }

  lemma WaitsAccountedStep(s: State, e: Event)
    requires WaitsAccounted(s)
    ensures WaitsAccounted(Step(s, e))
  {
    var t := Step(s, e);
    forall c ensures c in Resumers(t) <==> c in Resumers(s) || (e == ConditionalUpdate(c) && Wins(s, c)) {
      ResumersStep(s, e, c);
    }
    if e.ConditionalUpdate? && Wins(s, e.actor) {
      assert Resumers(t) == Resumers(s) + {e.actor};
    } else {
      assert Resumers(t) == Resumers(s);
    }
  }

  /**
   For any number of actors and any interleaving, successful resumes never exceed the number of
   times the parent entered `waiting`, and every wait that is over was ended exactly once.
   */
  lemma {:induction false} ResumesNeverExceedWaits(s: State, events: seq<Event>)
    requires WaitsAccounted(s)
    ensures var t := After(s, events);
      WaitsAccounted(t) && |Resumers(t)| <= t.waits
    decreases |events|
  {
    if events != [] {
      WaitsAccountedStep(s, events[0]);
      ResumesNeverExceedWaits(Step(s, events[0]), events[1..]);
    }
  }

  // ---------- a row that is no longer waiting ----------

  predicate NobodyPatching(s: State) {
    forall c | c in s.actors :: !s.actors[c].phase.Patching?
  }

  /** Whoever first reads the row after the wait is over changes nothing on it. */
  lemma {:induction false} EndedWaitIsLeftAlone(s: State, events: seq<Event>)
    requires s.row.status != Waiting && NobodyPatching(s) && WithoutSuspend(events)
    ensures var t := After(s, events);
      && t.row.stack == s.row.stack && t.row.status != Waiting
      && Resumers(t) == Resumers(s)
    decreases |events|
  {
    if events != [] {
      assert events[0] in events;
      var u := Step(s, events[0]);
      assert Resumers(u) == Resumers(s);
      EndedWaitIsLeftAlone(u, events[1..]);
    }
  }

  // ---------- retries ----------

  /** The number of the attempt in progress; 1 when there is none. */
  function Attempt(p: Phase): nat {
    if p.Updating? || p.Patching? || p.Starting? || p.Resuming? then p.attempt else 1
  }

  predicate AttemptsWithinLimit(s: State) {
    forall c | c in s.actors :: 1 <= Attempt(s.actors[c].phase) <= MaxAttempts(s.actors[c].kind)
  }

  lemma AttemptsWithinLimitStep(s: State, e: Event)
    requires AttemptsWithinLimit(s)
    ensures AttemptsWithinLimit(Step(s, e))
  {
    var t := Step(s, e);
    forall c | c in t.actors ensures 1 <= Attempt(t.actors[c].phase) <= MaxAttempts(t.actors[c].kind) {
      if c in s.actors && t.actors[c] != s.actors[c] {
        assert t.actors[c].kind == s.actors[c].kind;
      }
    }
  }

  /** No step of any actor is attempted more often than the retry limit allows. */
  lemma {:induction false} AttemptsStayWithinLimit(s: State, events: seq<Event>)
    requires AttemptsWithinLimit(s)
    ensures AttemptsWithinLimit(After(s, events))
    decreases |events|
  {
    if events != [] {
      AttemptsWithinLimitStep(s, events[0]);
      AttemptsStayWithinLimit(Step(s, events[0]), events[1..]);
    }
  }

  datatype Try = Succeeds | FailsRetryable | FailsForGood

  /**
   `withRetry`: `operation(k)` is what the k-th attempt does. The result says whether the last
   attempt made succeeded, how many attempts were made and how long was slept in between.
   */
  method WithRetry(operation: nat -> Try, maxAttempts: nat) returns (ok: bool, attempts: nat, slept: nat)
    ensures 1 <= attempts && (attempts <= maxAttempts || attempts == 1)
    ensures forall k: nat :: 1 <= k < attempts ==> operation(k) == FailsRetryable
    ensures ok <==> operation(attempts) == Succeeds
    ensures !ok ==> operation(attempts) == FailsForGood || attempts >= maxAttempts
    ensures slept == 100 * (Pow2(attempts - 1) - 1)
  {
    attempts, slept := 1, 0;
    while true
      invariant 1 <= attempts && (attempts <= maxAttempts || attempts == 1)
      invariant forall k: nat :: 1 <= k < attempts ==> operation(k) == FailsRetryable
      invariant slept == 100 * (Pow2(attempts - 1) - 1)
      decreases maxAttempts - attempts
    {
      var outcome := operation(attempts);
      if outcome == Succeeds {
        return true, attempts, slept;
      }
      if attempts >= maxAttempts || outcome == FailsForGood {
        return false, attempts, slept;
      }
      slept := slept + 100 * Pow2(attempts - 1);
      attempts := attempts + 1;
    }
  }

  // ---------- what the parent restarts with ----------

  predicate Settled(s: State, c: nat) {
    c in s.actors && s.actors[c].kind.Child? && s.actors[c].kind.outcome.Completed? && !s.actors[c].phase.Executing?
  }

  /** The entry carries the error or the output of a child that has completed. */
  predicate Patched(s: State, h: Entry) {
    || (h.resumeError.Some? && Settled(s, h.resumeError.value) && s.actors[h.resumeError.value].kind.outcome.failed)
    || (h.data.Output? && Settled(s, h.data.child) && s.actors[h.data.child].kind.outcome.hasData)
  }

  /** A child that has updated the row in an earlier waiting period acts to resume this one. */
  predicate Late(s: State, e: Event) {
    && (e.ReadForResume? || e.ConditionalUpdate?)
    && e.actor in s.actors
    && HasPayload(s.actors[e.actor].kind)
    && s.row.status == Waiting
    && s.actors[e.actor].period != s.waits
  }

  /** No actor is late, and the parent never starts to wait with an empty stack. */
  predicate InPeriod(s: State, events: seq<Event>)
    decreases |events|
  {
    events == [] ||
    (!Late(s, events[0]) && (events[0].ParentSuspends? ==> events[0].stack != [])
     && InPeriod(Step(s, events[0]), events[1..]))
  }

  /** The child has finished its update and may now try to resume the parent. */
  predicate HasUpdated(a: Actor) {
    HasPayload(a.kind) && (a.phase.Starting? || a.phase.Resuming?)
  }

  predicate SnapshotsUsable(s: State) {
    && s.row.stack != []
    && (forall c | c in s.actors :: s.actors[c].period <= s.waits)
    && (forall c | c in s.actors && (s.actors[c].phase.Updating? || s.actors[c].phase.Patching?) :: HasPayload(s.actors[c].kind))
    && (forall c | c in s.actors && (s.actors[c].phase.Patching? || s.actors[c].phase.Resuming?) :: s.actors[c].phase.snapshot != [])
    && (forall c | c in Resumers(s) :: s.actors[c].phase.ending.stack != [])
  }

  /** While the parent waits, everything a child that has updated can see carries a child's result. */
  predicate HeadsPatched(s: State)
    requires SnapshotsUsable(s)
  {
    && (forall c | c in s.actors && s.row.status == Waiting && s.actors[c].period == s.waits && HasUpdated(s.actors[c]) ::
          && Patched(s, s.row.stack[0])
          && (s.actors[c].phase.Resuming? ==> Patched(s, s.actors[c].phase.snapshot[0])))
    && (forall c | c in Resumers(s) && HasPayload(s.actors[c].kind) :: Patched(s, s.actors[c].phase.ending.stack[0]))
  }

  lemma SnapshotsUsableStep(s: State, e: Event)
    requires SnapshotsUsable(s)
    requires e.ParentSuspends? ==> e.stack != []
    ensures SnapshotsUsable(Step(s, e))
  {
  }

  /** Nothing un-completes a child, so an entry that carries a child's result keeps doing so. */
  lemma PatchedIsStable(s: State, e: Event, h: Entry)
    requires Patched(s, h)
    ensures Patched(Step(s, e), h)
  {
  }

  lemma PatchPatches(s: State, c: nat, stack: seq<Entry>)
    requires stack != []
    requires Settled(s, c) && HasPayload(s.actors[c].kind)
    ensures Patched(s, Patch(stack, c, s.actors[c].kind.outcome)[0])
  {
  }

  lemma HeadsPatchedStep(s: State, e: Event)
    requires SnapshotsUsable(s) && HeadsPatched(s)
    requires !Late(s, e) && (e.ParentSuspends? ==> e.stack != [])
    ensures SnapshotsUsable(Step(s, e)) && HeadsPatched(Step(s, e))
  {
    SnapshotsUsableStep(s, e);
    forall h | Patched(s, h) ensures Patched(Step(s, e), h) { PatchedIsStable(s, e, h); }
    if e.WriteParent? && e.actor in s.actors && s.actors[e.actor].phase.Patching? && s.actors[e.actor].kind.Child? {
      PatchPatches(s, e.actor, s.actors[e.actor].phase.snapshot);
    }
  }

  lemma {:induction false} HeadsPatchedAfter(s: State, events: seq<Event>)
    requires SnapshotsUsable(s) && HeadsPatched(s)
    requires InPeriod(s, events)
    ensures SnapshotsUsable(After(s, events)) && HeadsPatched(After(s, events))
    decreases |events|
  {
    if events != [] {
      HeadsPatchedStep(s, events[0]);
      HeadsPatchedAfter(Step(s, events[0]), events[1..]);
    }
  }

  /**
   In every interleaving in which no actor is late, a parent resumed by a child that had something
   to report restarts with an entry carrying the output or the error of a completed child.
   */
  lemma ResumedHeadCarriesChildResult(s: State, events: seq<Event>, c: nat)
    requires Initial(s) && InPeriod(s, events)
    requires var t := After(s, events); c in Resumers(t) && HasPayload(t.actors[c].kind)
    ensures var t := After(s, events);
      var stack := t.actors[c].phase.ending.stack;
      stack != [] && Patched(t, stack[0])
  {
    HeadsPatchedAfter(s, events);
  }

  predicate FirstPeriod(s: State) {
    s.waits == 1 && forall c | c in s.actors :: s.actors[c].period == 1
  }

  lemma {:induction false} FirstPeriodHasNoLateActor(s: State, events: seq<Event>)
    requires FirstPeriod(s) && WithoutSuspend(events)
    ensures InPeriod(s, events) && FirstPeriod(After(s, events))
    decreases |events|
  {
    if events != [] {
      assert events[0] in events;
      FirstPeriodHasNoLateActor(Step(s, events[0]), events[1..]);
    }
  }

  /** Within one waiting period no assumption on the schedule is left. */
  lemma ResumedHeadWithinOnePeriod(s: State, events: seq<Event>, c: nat)
    requires Initial(s) && WithoutSuspend(events)
    requires var t := After(s, events); c in Resumers(t) && HasPayload(t.actors[c].kind)
    ensures var t := After(s, events);
      var stack := t.actors[c].phase.ending.stack;
      stack != [] && Patched(t, stack[0]) && stack[0] != s.row.stack[0]
  {
    FirstPeriodHasNoLateActor(s, events);
    ResumedHeadCarriesChildResult(s, events, c);
  }

  // ---------- what the parent restarts with, over any number of waits ----------

  /** What the parent itself puts on its stack. */
  predicate Plain(h: Entry) {
    h.data.Original? && h.resumeError.None?
  }

  predicate PlainSuspends(events: seq<Event>) {
    forall e | e in events && e.ParentSuspends? :: e.stack != [] && Plain(e.stack[0])
  }

  /** Whether a child has written on the stack since the parent put it there: for the row, and for what each actor read. */
  datatype Touch = Touch(row: bool, snapshots: set<nat>)

  function NextTouch(s: State, u: Touch, e: Event): Touch {
    if e.WriteParent? && PutsBack(s, e) then u.(row := true)
    else if e.ConditionalUpdate? && PutsBack(s, e) then u.(row := e.actor in u.snapshots)
    else if e.ParentSuspends? && s.row.status == Running then u.(row := false)
    else if Reads(s, e) then u.(snapshots := if u.row then u.snapshots + {e.actor} else u.snapshots - {e.actor})
    else u
  }

  function Touched(s: State, u: Touch, events: seq<Event>): Touch
    decreases |events|
  {
    if events == [] then u else Touched(Step(s, events[0]), NextTouch(s, u, events[0]), events[1..])
  }

  predicate HeadIs(s: State, touched: bool, stack: seq<Entry>) {
    stack != [] && if touched then Patched(s, stack[0]) else Plain(stack[0])
  }

  predicate TouchRight(s: State, u: Touch) {
    && HeadIs(s, u.row, s.row.stack)
    && (forall c | c in s.actors && (s.actors[c].phase.Updating? || s.actors[c].phase.Patching?) :: HasPayload(s.actors[c].kind))
    && (forall c | c in s.actors && HoldsSnapshot(s, c) :: HeadIs(s, c in u.snapshots, s.actors[c].phase.snapshot))
    && (forall c | c in s.actors && HasResumed(s, c) :: HeadIs(s, c in u.snapshots, s.actors[c].phase.ending.stack))
  }

  lemma HeadStaysRight(s: State, e: Event, touched: bool, stack: seq<Entry>)
    requires HeadIs(s, touched, stack)
    ensures HeadIs(Step(s, e), touched, stack)
  {
    if touched {
      PatchedIsStable(s, e, stack[0]);
    }
  }

  lemma TouchRightRow(s: State, u: Touch, e: Event)
    requires TouchRight(s, u)
    requires e.ParentSuspends? ==> e.stack != [] && Plain(e.stack[0])
    ensures HeadIs(Step(s, e), NextTouch(s, u, e).row, Step(s, e).row.stack)
  {
    HeadStaysRight(s, e, u.row, s.row.stack);
    if e.WriteParent? && PutsBack(s, e) {
      PatchPatches(s, e.actor, s.actors[e.actor].phase.snapshot);
      PatchedIsStable(s, e, Step(s, e).row.stack[0]);
    } else if e.ConditionalUpdate? && PutsBack(s, e) {
      HeadStaysRight(s, e, e.actor in u.snapshots, s.actors[e.actor].phase.snapshot);
    }
  }

  predicate TouchRightOf(s: State, u: Touch, c: nat)
    requires c in s.actors
  {
    && (HoldsSnapshot(s, c) ==> HeadIs(s, c in u.snapshots, s.actors[c].phase.snapshot))
    && (HasResumed(s, c) ==> HeadIs(s, c in u.snapshots, s.actors[c].phase.ending.stack))
  }

  lemma TouchRightActor(s: State, u: Touch, e: Event, c: nat)
    requires TouchRight(s, u) && c in Step(s, e).actors
    ensures TouchRightOf(Step(s, e), NextTouch(s, u, e), c)
  {
    HeadStaysRight(s, e, u.row, s.row.stack);
    if HoldsSnapshot(s, c) {
      HeadStaysRight(s, e, c in u.snapshots, s.actors[c].phase.snapshot);
    } else if HasResumed(s, c) {
      HeadStaysRight(s, e, c in u.snapshots, s.actors[c].phase.ending.stack);
    }
  }

  lemma PatchersHavePayload(s: State, e: Event)
    requires forall c | c in s.actors && (s.actors[c].phase.Updating? || s.actors[c].phase.Patching?) :: HasPayload(s.actors[c].kind)
    ensures var t := Step(s, e);
      forall c | c in t.actors && (t.actors[c].phase.Updating? || t.actors[c].phase.Patching?) :: HasPayload(t.actors[c].kind)
  {
  }

  lemma {:induction false} TouchRightAfter(s: State, u: Touch, events: seq<Event>)
    requires TouchRight(s, u) && PlainSuspends(events)
    ensures TouchRight(After(s, events), Touched(s, u, events))
    decreases |events|
  {
    if events != [] {
      var e := events[0];
      assert e in events;
      TouchRightRow(s, u, e);
      PatchersHavePayload(s, e);
      forall c | c in Step(s, e).actors ensures TouchRightOf(Step(s, e), NextTouch(s, u, e), c) {
        TouchRightActor(s, u, e, c);
      }
      assert PlainSuspends(events[1..]);
      TouchRightAfter(Step(s, e), NextTouch(s, u, e), events[1..]);
    }
  }

  /**
   In every interleaving, over any number of waits and whoever resumes, timers included: the parent restarts
   with a head that carries a completed child's result exactly when, by the time the resumer last read the
   row, a child had written on that stack since the parent put it there. Otherwise the head is the parent's own.
   */
  lemma RestartsPatchedExactly(s: State, events: seq<Event>, c: nat)
    requires Initial(s) && PlainSuspends(events) && c in Resumers(After(s, events))
    ensures var t := After(s, events);
      var stack := t.actors[c].phase.ending.stack;
      var touched := c in Touched(s, Touch(false, {}), events).snapshots;
      && stack != []
      && (Patched(t, stack[0]) <==> touched)
      && (Plain(stack[0]) <==> !touched)
  {
    TouchRightAfter(s, Touch(false, {}), events);
    assert HasResumed(After(s, events), c);
  }

  // ---------- every child finished ----------

  /** The row is in its first wait, or somebody has already seen that this wait is over. */
  predicate EndingsJustified(s: State) {
    && s.waits == 1
    && (forall c | c in s.actors && s.actors[c].phase == Done(NothingToDo) ::
          s.actors[c].kind.Timer? || !s.actors[c].kind.outcome.Completed?)
    && (forall c | c in s.actors && (s.actors[c].phase == Done(AlreadyResuming) || s.actors[c].phase == Done(Refused)) ::
          s.row.status != Waiting)
  }

  lemma {:induction false} EndingsJustifiedAfter(s: State, events: seq<Event>)
    requires EndingsJustified(s) && WithoutSuspend(events)
    ensures EndingsJustified(After(s, events))
    decreases |events|
  {
    if events != [] {
      assert events[0] in events;
      EndingsJustifiedAfter(Step(s, events[0]), events[1..]);
    }
  }

  /**
   Once one child that completed has reached its end without running out of attempts, whatever the others
   are doing, the wait is over: the parent was resumed exactly once, unless a user cancelled it.
   */
  lemma EndedChildMeansResumedOnce(s: State, events: seq<Event>, c: nat)
    requires Initial(s) && WithoutSuspend(events)
    requires var t := After(s, events);
      && c in t.actors && t.actors[c].kind.Child? && t.actors[c].kind.outcome.Completed?
      && t.actors[c].phase.Done? && t.actors[c].phase.ending != GaveUp
    ensures var t := After(s, events);
      && t.row.status != Waiting
      && |Resumers(t)| + t.cancels == 1
      && (t.cancels == 0 ==> |Resumers(t)| == 1)
  {
    var t := After(s, events);
    EndingsJustifiedAfter(s, events);
    assert Resumers(s) == {};
    ResumesNeverExceedWaits(s, events);
    assert t.actors[c].phase.ending.Resumed? ==> c in Resumers(t);
  }

  // ---------- is a child's error ever lost? ----------

  predicate HasError(stack: seq<Entry>) {
    stack != [] && stack[0].resumeError.Some?
  }

  predicate IsFailedChild(k: Kind) {
    k.Child? && k.outcome.Completed? && k.outcome.failed
  }

  /** A failed child writes its error on the row. */
  predicate RecordsError(s: State, e: Event) {
    e.WriteParent? && PutsBack(s, e) && IsFailedChild(s.actors[e.actor].kind)
  }

  predicate NoneRecordsError(s: State, events: seq<Event>)
    decreases |events|
  {
    events == [] || (!RecordsError(s, events[0]) && NoneRecordsError(Step(s, events[0]), events[1..]))
  }

  /** The actors that have read the row since, after one more event. */
  function Updated(s: State, upToDate: set<nat>, e: Event): set<nat> {
    if Reads(s, e) then upToDate + {e.actor} else upToDate
  }

  /** Somebody who has not read the row since puts back what was read before, and it is no failed child's own write. */
  predicate PutsBackStale(s: State, upToDate: set<nat>, e: Event) {
    PutsBack(s, e) && e.actor !in upToDate && !RecordsError(s, e)
  }

  predicate NonePutsBackStale(s: State, upToDate: set<nat>, events: seq<Event>)
    decreases |events|
  {
    events == [] ||
    (!PutsBackStale(s, upToDate, events[0]) && NonePutsBackStale(Step(s, events[0]), Updated(s, upToDate, events[0]), events[1..]))
  }

  /** The error is on the row now and after each of the events. */
  predicate ErrorStays(s: State, events: seq<Event>)
    decreases |events|
  {
    HasError(s.row.stack) && (events == [] || ErrorStays(Step(s, events[0]), events[1..]))
  }

  predicate ErrorFree(s: State) {
    !HasError(s.row.stack) && forall c | c in s.actors && HoldsSnapshot(s, c) :: !HasError(s.actors[c].phase.snapshot)
  }

  lemma {:induction false} ErrorFreeUntilRecorded(s: State, events: seq<Event>)
    requires ErrorFree(s) && WithoutSuspend(events) && NoneRecordsError(s, events)
    ensures ErrorFree(After(s, events))
    decreases |events|
  {
    if events != [] {
      assert events[0] in events;
      ErrorFreeUntilRecorded(Step(s, events[0]), events[1..]);
    }
  }

  /** Exactly the actors that have read the row since the error was recorded have seen it. */
  predicate SeenBy(s: State, upToDate: set<nat>) {
    forall c | c in s.actors && HoldsSnapshot(s, c) :: HasError(s.actors[c].phase.snapshot) <==> c in upToDate
  }

  lemma ErrorStaysStep(s: State, upToDate: set<nat>, e: Event)
    requires HasError(s.row.stack) && SeenBy(s, upToDate) && !e.ParentSuspends?
    ensures HasError(Step(s, e).row.stack) <==> !PutsBackStale(s, upToDate, e)
    ensures SeenBy(Step(s, e), Updated(s, upToDate, e))
  {
  }

  lemma {:induction false} ErrorStaysAfter(s: State, upToDate: set<nat>, events: seq<Event>)
    requires HasError(s.row.stack) && SeenBy(s, upToDate) && WithoutSuspend(events)
    ensures ErrorStays(s, events) <==> NonePutsBackStale(s, upToDate, events)
    decreases |events|
  {
    if events != [] {
      assert events[0] in events;
      ErrorStaysStep(s, upToDate, events[0]);
      if HasError(Step(s, events[0]).row.stack) {
        ErrorStaysAfter(Step(s, events[0]), Updated(s, upToDate, events[0]), events[1..]);
      }
    }
  }

  /**
   The first error that a child records, by the event `e`, stays on the parent throughout the rest of the wait
   and on into the resumed run exactly when every actor that puts a stack back later has read the row after
   `e`, unless it is a failed child that writes its own error.
   */
  lemma ErrorStaysExactly(s: State, before: seq<Event>, e: Event, events: seq<Event>)
    requires Initial(s) && WithoutSuspend(before) && WithoutSuspend(events)
    requires NoneRecordsError(s, before) && RecordsError(After(s, before), e)
    ensures var m := Step(After(s, before), e);
      HasError(m.row.stack) && (ErrorStays(m, events) <==> NonePutsBackStale(m, {}, events))
  {
    ErrorFreeUntilRecorded(s, before);
    ErrorStaysAfter(Step(After(s, before), e), {}, events);
  }

  /** Every actor that puts a stack back finds the row's stack as it read it. */
  predicate Serial(s: State, events: seq<Event>)
    decreases |events|
  {
    events == [] ||
    ((PutsBack(s, events[0]) ==> s.actors[events[0].actor].phase.snapshot == s.row.stack)
     && Serial(Step(s, events[0]), events[1..]))
  }

  /** Nobody puts a stack back between another actor's read and the stack that this one puts back. */
  predicate Exclusive(s: State, current: set<nat>, events: seq<Event>)
    decreases |events|
  {
    events == [] ||
    ((PutsBack(s, events[0]) ==> events[0].actor in current)
     && Exclusive(Step(s, events[0]), if PutsBack(s, events[0]) then {} else Updated(s, current, events[0]), events[1..]))
  }

  /** Such schedules are serial. */
  lemma {:induction false} ExclusiveIsSerial(s: State, current: set<nat>, events: seq<Event>)
    requires forall c | c in s.actors && HoldsSnapshot(s, c) && c in current :: s.actors[c].phase.snapshot == s.row.stack
    requires WithoutSuspend(events) && Exclusive(s, current, events)
    ensures Serial(s, events)
    decreases |events|
  {
    if events != [] {
      assert events[0] in events;
      var next := if PutsBack(s, events[0]) then {} else Updated(s, current, events[0]);
      ExclusiveIsSerial(Step(s, events[0]), next, events[1..]);
    }
  }

  /** Children that do not overlap never mask an error, whichever order they finish in. */
  lemma {:induction false} SerialKeepsErrors(s: State, events: seq<Event>)
    requires HasError(s.row.stack) && WithoutSuspend(events) && Serial(s, events)
    ensures ErrorStays(s, events)
    decreases |events|
  {
    if events != [] {
      assert events[0] in events;
      SerialKeepsErrors(Step(s, events[0]), events[1..]);
    }
  }

  /** While the parent waits, a failed child that has updated has left an error on the row. */
  predicate FailuresRecorded(s: State) {
    && s.row.stack != []
    && (forall c | c in s.actors && (s.actors[c].phase.Updating? || s.actors[c].phase.Patching?) :: HasPayload(s.actors[c].kind))
    && (s.row.status == Waiting ==>
          forall c | c in s.actors && IsFailedChild(s.actors[c].kind) && HasUpdated(s.actors[c]) :: HasError(s.row.stack))
  }

  lemma FailuresRecordedStep(s: State, e: Event)
    requires FailuresRecorded(s) && !e.ParentSuspends?
    requires PutsBack(s, e) ==> s.actors[e.actor].phase.snapshot == s.row.stack
    ensures FailuresRecorded(Step(s, e))
  {
  }

  /**
   The contract of the sequential case: once a failed child has updated the waiting parent, the
   parent's entry carries an error.
   */
  lemma {:induction false} SerialRecordsFailures(s: State, events: seq<Event>)
    requires FailuresRecorded(s) && WithoutSuspend(events) && Serial(s, events)
    ensures FailuresRecorded(After(s, events))
    decreases |events|
  {
    if events != [] {
      assert events[0] in events;
      FailuresRecordedStep(s, events[0]);
      SerialRecordsFailures(Step(s, events[0]), events[1..]);
    }
  }

  // ---------- schedules that break the contract when steps do overlap ----------

  const START := State(Row(Waiting, [Entry(Original(1), None, None)]), map[], 1, 0)

  const FAILED_CHILD := Child(Completed(true, false))

  const SUCCESSFUL_CHILD := Child(Completed(false, true))

  const BOTH_SETTLED: seq<Event> :=
    [Spawn(0, FAILED_CHILD), Spawn(1, SUCCESSFUL_CHILD), ChildSettles(0), ChildSettles(1)]

  /** Child 1 reads the row before child 0 records its error, and writes after it. */
  const READ_THEN_FAILURE: seq<Event> := BOTH_SETTLED + [ReadParent(1), ReadParent(0), WriteParent(0)]

  const STALE_WRITE: seq<Event> := [WriteParent(1), ReadForResume(1), ConditionalUpdate(1)]

  /** Child 0 records its error between the read and the update with which child 1 resumes. */
  const RESUME_READ_THEN_FAILURE: seq<Event> :=
    BOTH_SETTLED + [ReadParent(1), WriteParent(1), ReadForResume(1), ReadParent(0), WriteParent(0)]

  const STALE_RESUME: seq<Event> := [ConditionalUpdate(1)]

  /** Child 1 resumes a later wait of the parent than the one it reported to. */
  const LATE_RESUME: seq<Event> :=
    [Spawn(0, SUCCESSFUL_CHILD), Spawn(1, SUCCESSFUL_CHILD), ChildSettles(0), ChildSettles(1),
     ReadParent(0), WriteParent(0), ReadParent(1), WriteParent(1), ReadForResume(0), ConditionalUpdate(0),
     ParentSuspends([Entry(Original(2), None, None)]), ReadForResume(1), ConditionalUpdate(1)]

  /** Unfolds `After` over as many events as there are states given. */
  lemma {:induction false} AfterAlong(events: seq<Event>, states: seq<State>)
    requires |states| == |events| + 1
    requires forall i :: 0 <= i < |events| ==> states[i + 1] == Step(states[i], events[i])
    ensures After(states[0], events) == states[|events|]
    decreases |events|
  {
    if events != [] {
      AfterAlong(events[1..], states[1..]);
    }
  }

  /** The parent restarts without the error although the failed child had recorded it. */
  lemma StaleWriteMasksError()
    ensures Initial(START) && WithoutSuspend(READ_THEN_FAILURE + STALE_WRITE)
    ensures var m := After(START, READ_THEN_FAILURE);
      var t := After(m, STALE_WRITE);
      && HasError(m.row.stack)
      && 1 in t.actors && t.actors[1].phase == Done(Resumed(t.row.stack)) && !HasError(t.row.stack)
  {
    var e := READ_THEN_FAILURE;
    var s1 := Step(START, e[0]); var s2 := Step(s1, e[1]); var s3 := Step(s2, e[2]); var s4 := Step(s3, e[3]);
    var s5 := Step(s4, e[4]); var s6 := Step(s5, e[5]); var s7 := Step(s6, e[6]);
    AfterAlong(e, [START, s1, s2, s3, s4, s5, s6, s7]);
    var s8 := Step(s7, STALE_WRITE[0]); var s9 := Step(s8, STALE_WRITE[1]); var s10 := Step(s9, STALE_WRITE[2]);
    AfterAlong(STALE_WRITE, [s7, s8, s9, s10]);
  }

  lemma StaleResumeMasksError()
    ensures Initial(START) && WithoutSuspend(RESUME_READ_THEN_FAILURE + STALE_RESUME)
    ensures var m := After(START, RESUME_READ_THEN_FAILURE);
      var t := After(m, STALE_RESUME);
      && HasError(m.row.stack)
      && 1 in t.actors && t.actors[1].phase == Done(Resumed(t.row.stack)) && !HasError(t.row.stack)
  {
    var e := RESUME_READ_THEN_FAILURE;
    var s1 := Step(START, e[0]); var s2 := Step(s1, e[1]); var s3 := Step(s2, e[2]); var s4 := Step(s3, e[3]);
    var s5 := Step(s4, e[4]); var s6 := Step(s5, e[5]); var s7 := Step(s6, e[6]); var s8 := Step(s7, e[7]);
    var s9 := Step(s8, e[8]);
    AfterAlong(e, [START, s1, s2, s3, s4, s5, s6, s7, s8, s9]);
    AfterAlong(STALE_RESUME, [s9, Step(s9, STALE_RESUME[0])]);
  }

  /** Without the restriction to one period a child can resume the parent with an untouched head. */
  lemma LateActorResumesUnpatchedHead()
    ensures Initial(START)
    ensures var t := After(START, LATE_RESUME);
      && 1 in t.actors && HasPayload(t.actors[1].kind)
      && t.actors[1].phase == Done(Resumed([Entry(Original(2), None, None)]))
      && !Patched(t, Entry(Original(2), None, None))
  {
    var e := LATE_RESUME;
    var s1 := Step(START, e[0]); var s2 := Step(s1, e[1]); var s3 := Step(s2, e[2]); var s4 := Step(s3, e[3]);
    var s5 := Step(s4, e[4]); var s6 := Step(s5, e[5]); var s7 := Step(s6, e[6]); var s8 := Step(s7, e[7]);
    var s9 := Step(s8, e[8]); var s10 := Step(s9, e[9]); var s11 := Step(s10, e[10]); var s12 := Step(s11, e[11]);
    AfterAlong(e, [START, s1, s2, s3, s4, s5, s6, s7, s8, s9, s10, s11, s12, Step(s12, e[12])]);
  }
}
