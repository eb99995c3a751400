/**
 Retrying failed activations (`queuedActivations`): one entry per workflow, timers that re-arm
 themselves after each failure, and everything else that may happen while a retry is under way.
 */
module ActivationRetry {
  import opened Powers
  import opened Wrappers

  /** `WORKFLOW_REACTIVATE_INITIAL_TIMEOUT` and `WORKFLOW_REACTIVATE_MAX_TIMEOUT`, in milliseconds. */
  const INITIAL: nat := 1000
  const MAX: nat := 24 * 60 * 60 * 1000

  datatype Entry = Entry(lastTimeout: nat, timer: nat)

  datatype Timer = Timer(workflowId: string, delay: nat)

  /** `live` holds the armed timers, `flights` the retries under way, under the id of the timer that began them. */
  datatype State = State(queue: map<string, Entry>, live: map<nat, Timer>, flights: map<nat, string>, next: nat)

  const START := State(map[], map[], map[], 0)

  datatype Event =
    | Enqueue(workflowId: string)
    | Remove(workflowId: string)
    | RemoveAll
    | Fire(timer: nat)
    | Fail(retry: nat, workflowId: string, isolate: bool)
    | Finish(retry: nat, workflowId: string)

  // ---------- the steps ----------

  function Removed(s: State, w: string): State {
    if w in s.queue then s.(live := s.live - {s.queue[w].timer}, queue := s.queue - {w}) else s
  }

  function Armed(s: State, w: string, delay: nat): State {
    s.(queue := s.queue[w := Entry(delay, s.next)], live := s.live[s.next := Timer(w, delay)], next := s.next + 1)
  }

  /** Without the entries of `ws`, and without their timers. */
  function Without(s: State, ws: set<string>): State {
    s.(live := s.live - (set w | w in s.queue && w in ws :: s.queue[w].timer), queue := s.queue - ws)
  }

  /** The delay after one more failure. */
  function Longer(lastTimeout: nat, isolate: bool): nat {
    if !isolate && lastTimeout < MAX then (if lastTimeout * 2 < MAX then lastTimeout * 2 else MAX) else lastTimeout
  }

  predicate Enabled(s: State, e: Event) {
    match e
    case Fire(t) => t in s.live
    case Fail(r, w, _) => r in s.flights && s.flights[r] == w
    case Finish(r, w) => r in s.flights && s.flights[r] == w
    case _ => true
  }

  /** A retry that fails after its entry is gone dies without another timer. */
  function Step(s: State, e: Event): State
    requires Enabled(s, e)
  {
    match e
    case Enqueue(w) => Armed(Removed(s, w), w, INITIAL)
    case Remove(w) => Removed(s, w)
    case RemoveAll => Without(s, s.queue.Keys)
    case Fire(t) => s.(live := s.live - {t}, flights := s.flights[t := s.live[t].workflowId])
    case Fail(r, w, isolate) =>
      var landed := s.(flights := s.flights - {r});
      if w in s.queue then Armed(landed, w, Longer(s.queue[w].lastTimeout, isolate)) else landed
    case Finish(r, w) => s.(flights := s.flights - {r})
  }

  lemma RemoveOneMore(s: State, done: set<string>, w: string)
    requires w in s.queue && w !in done
    ensures Removed(Without(s, done), w) == Without(s, done + {w})
  {
    var a, b := Removed(Without(s, done), w), Without(s, done + {w});
    assert a.queue == b.queue;
    assert a.live == b.live;
  }

  /** Removing all entries disarms exactly the timers they know; retries under way go on. */
  lemma AllRemovedExactly(s: State)
    ensures var n := Step(s, RemoveAll);
      && n.queue == map[] && n.flights == s.flights && n.next == s.next
      && (forall t :: t in n.live <==> t in s.live && !exists w | w in s.queue :: s.queue[w].timer == t)
      && (forall t | t in n.live :: n.live[t] == s.live[t])
  {
  }

  /** Removing one entry disarms the timer it knows and changes no other entry or timer. */
  lemma RemovedExactly(s: State, w: string)
    ensures var n := Step(s, Remove(w));
      && (forall x :: x in n.queue <==> x in s.queue && x != w) && (forall x | x in n.queue :: n.queue[x] == s.queue[x])
      && (forall t :: t in n.live <==> t in s.live && !(w in s.queue && s.queue[w].timer == t))
      && (forall t | t in n.live :: n.live[t] == s.live[t])
      && n.flights == s.flights
  {
  }

  /** Queuing a workflow leaves it with one new timer of one second, and touches nothing of other workflows. */
  lemma QueuedExactly(s: State, w: string)
    requires forall t | t in s.live :: t < s.next
    ensures var n := Step(s, Enqueue(w));
      && w in n.queue && n.queue[w] == Entry(1000, s.next) && s.next in n.live && n.live[s.next] == Timer(w, 1000)
      && (forall x | x != w :: (x in n.queue <==> x in s.queue) && (x in n.queue ==> n.queue[x] == s.queue[x]))
      && (forall t | t != s.next :: t in n.live <==> t in s.live && !(w in s.queue && s.queue[w].timer == t))
      && (forall t | t in n.live && t != s.next :: n.live[t] == s.live[t])
      && n.flights == s.flights
  {
  }

  /** A timer that goes off is no longer armed and its retry is under way; the entry stays. */
  lemma FiredExactly(s: State, t: nat)
    requires t in s.live
    ensures var n := Step(s, Fire(t));
      && n.queue == s.queue && n.next == s.next
      && n.flights == s.flights[t := s.live[t].workflowId]
      && (forall x :: x in n.live <==> x in s.live && x != t) && (forall x | x in n.live :: n.live[x] == s.live[x])
  {
  }

  /** A retry that ends without an error is over, and changes neither entries nor timers. */
  lemma FinishedExactly(s: State, r: nat, w: string)
    requires r in s.flights && s.flights[r] == w
    ensures var n := Step(s, Finish(r, w));
      && n.queue == s.queue && n.live == s.live && n.next == s.next
      && r !in n.flights && (forall x | x != r :: (x in n.flights <==> x in s.flights) && (x in s.flights ==> n.flights[x] == s.flights[x]))
  {
  }

  /**
   A failed retry is over. With an entry, the workflow gets one new timer, with the delay doubled up to a day, or the same
   delay after an isolate error; without one nothing is armed. No other timer or entry changes.
   */
  lemma FailedExactly(s: State, r: nat, w: string, isolate: bool)
    requires r in s.flights && s.flights[r] == w && s.next !in s.live
    ensures var n := Step(s, Fail(r, w, isolate));
      && r !in n.flights
      && (forall x | x in s.live :: x in n.live && n.live[x] == s.live[x])
      && (forall x | x != w :: (x in n.queue <==> x in s.queue) && (x in s.queue ==> n.queue[x] == s.queue[x]))
      && (w !in s.queue ==> n.live == s.live && n.queue == s.queue)
      && (w in s.queue ==>
            var last := s.queue[w].lastTimeout;
            var delay := if isolate || last >= 86400000 then last else if last > 43200000 then 86400000 else 2 * last;
            n.live == s.live[s.next := Timer(w, delay)] && w in n.queue && n.queue[w] == Entry(delay, s.next))
  {
  }

  // ---------- runs ----------

  predicate Possible(events: seq<Event>)
    decreases |events|, 0
  {
    events == [] ||
    var before := events[..|events| - 1];
    Possible(before) && Enabled(After(before), events[|events| - 1])
  }

  function After(events: seq<Event>): State
    requires Possible(events)
    decreases |events|, 1
  {
    if events == [] then START
    else Step(After(events[..|events| - 1]), events[|events| - 1])
  }

  lemma {:induction false} PrefixPossible(events: seq<Event>, i: nat)
    requires Possible(events) && i <= |events|
    ensures Possible(events[..i])
    decreases |events|
  {
    if i < |events| {
      var before := events[..|events| - 1];
      assert before[..i] == events[..i];
      PrefixPossible(before, i);
    } else {
      assert events[..i] == events;
    }
  }

  /** Ids are used once, and an entry's timer belongs to its workflow. */
  predicate Tidy(s: State) {
    && (forall t | t in s.live :: t < s.next && t !in s.flights)
    && (forall r | r in s.flights :: r < s.next)
    && (forall w | w in s.queue :: EntryOk(s, w))
  }

  predicate EntryOk(s: State, w: string)
    requires w in s.queue
  {
    var entry := s.queue[w];
    && entry.timer < s.next
    && (entry.timer in s.live ==> s.live[entry.timer] == Timer(w, entry.lastTimeout))
    && (entry.timer in s.flights ==> s.flights[entry.timer] == w)
  }

  lemma TidyStep(s: State, e: Event)
    requires Tidy(s) && Enabled(s, e)
    ensures Tidy(Step(s, e))
  {
    var now := Step(s, e);
    forall w | w in now.queue ensures EntryOk(now, w) {
      assert w in s.queue ==> EntryOk(s, w);
    }
  }

  lemma {:induction false} AlwaysTidy(events: seq<Event>)
    requires Possible(events)
    ensures Tidy(After(events))
    decreases |events|
  {
    if events != [] {
      var before := events[..|events| - 1];
      AlwaysTidy(before);
      TidyStep(After(before), events[|events| - 1]);
    }
  }

  // ---------- the delay ----------

  function Backoff(k: nat): nat {
    if INITIAL * Pow2(k) < MAX then INITIAL * Pow2(k) else MAX
  }

  /** Failures of the workflow since it was queued, isolate errors not counted. */
  function Failures(events: seq<Event>, w: string): nat {
    if events == [] then 0
    else
      var e := events[|events| - 1];
      if e == Enqueue(w) then 0
      else
        var before := Failures(events[..|events| - 1], w);
        if e.Fail? && e.workflowId == w && !e.isolate then before + 1 else before
  }

  /**
   In every run, whatever else happens: a queued workflow's delay is one second doubled once per counted
   failure, up to one day, and its timer, if armed, was armed with that delay.
   */
  lemma {:induction false} DelayIsBackoff(events: seq<Event>, w: string)
    requires Possible(events) && w in After(events).queue
    ensures var entry := After(events).queue[w];
      && entry.lastTimeout == Backoff(Failures(events, w))
      && (entry.timer in After(events).live ==> After(events).live[entry.timer] == Timer(w, Backoff(Failures(events, w))))
    decreases |events|
  {
    AlwaysTidy(events);
    assert EntryOk(After(events), w);
    var before := events[..|events| - 1];
    var e := events[|events| - 1];
    if e != Enqueue(w) {
      DelayIsBackoff(before, w);
    }
  }

  /** More failures never shorten the delay, and it stays between one second and one day. */
  lemma BackoffGrows(j: nat, k: nat)
    requires j <= k
    ensures 1000 <= Backoff(j) <= Backoff(k) <= 86400000
    ensures Backoff(j) < 86400000 && j < k ==> Backoff(j) < Backoff(k)
    ensures Backoff(k) == 86400000 || Backoff(k) == 1000 * Pow2(k)
  {
    Pow2Grows(j, k);
    if j < k {
      Pow2Grows(j, k - 1);
    }
  }

  // ---------- how many retries ----------

  /** The armed timers and the retries under way of a workflow. */
  function Retries(s: State, w: string): set<nat> {
    (set t | t in s.live && s.live[t].workflowId == w) + Flying(s, w)
  }

  function Flying(s: State, w: string): set<nat> {
    set r | r in s.flights && s.flights[r] == w
  }

  predicate AtMostOne(s: State, w: string) {
    forall a, b | a in Retries(s, w) && b in Retries(s, w) :: a == b
  }

  /** No event queues the workflow while one of its retries is under way. */
  predicate NoEnqueueInFlight(events: seq<Event>, w: string)
    requires Possible(events)
  {
    forall i | 0 <= i < |events| :: EnqueueOk(events, w, i)
  }

  predicate EnqueueOk(events: seq<Event>, w: string, i: nat)
    requires Possible(events) && i < |events|
  {
    PrefixPossible(events, i);
    events[i] == Enqueue(w) ==> Flying(After(events[..i]), w) == {}
  }

  /** Besides, every armed timer of the workflow is the one its entry knows. */
  predicate Single(s: State, w: string) {
    && AtMostOne(s, w)
    && (forall t | t in s.live && s.live[t].workflowId == w :: w in s.queue && s.queue[w].timer == t)
  }

  lemma FailKeepsSingle(s: State, r: nat, w: string, isolate: bool)
    requires Tidy(s) && Single(s, w) && r in s.flights && s.flights[r] == w
    ensures Single(Step(s, Fail(r, w, isolate)), w)
  {
    var now := Step(s, Fail(r, w, isolate));
    assert r in Retries(s, w);
    assert Retries(s, w) == {r};
    assert (set t | t in s.live && s.live[t].workflowId == w) <= Retries(s, w) - {r};
    assert Flying(now, w) <= Flying(s, w) - {r};
    assert Retries(now, w) <= Retries(s, w) - {r} + {s.next};
    forall t | t in now.live && now.live[t].workflowId == w ensures w in now.queue && now.queue[w].timer == t {
      assert t in Retries(now, w);
      assert w !in s.queue ==> now.live == s.live;
    }
  }

  lemma EnqueueKeepsSingle(s: State, w: string)
    requires Tidy(s) && Single(s, w) && Flying(s, w) == {}
    ensures Single(Step(s, Enqueue(w)), w)
  {
    var now := Step(s, Enqueue(w));
    assert Retries(s, w) <= if w in s.queue then {s.queue[w].timer} else {};
    assert Retries(now, w) <= {s.next};
  }

  /** Everything else only takes retries of `w` away, or moves one from its timer into the air. */
  lemma OthersKeepSingle(s: State, e: Event, w: string)
    requires Tidy(s) && Enabled(s, e) && Single(s, w)
    requires e != Enqueue(w) && !(e.Fail? && e.workflowId == w)
    ensures Single(Step(s, e), w)
  {
    var now := Step(s, e);
    if (e.Enqueue? || e.Remove?) && e.workflowId in s.queue {
      assert EntryOk(s, e.workflowId);
    }
    forall q | q in Retries(now, w) ensures q in Retries(s, w) {}
  }

  lemma SingleStep(s: State, e: Event, w: string)
    requires Tidy(s) && Enabled(s, e) && Single(s, w)
    requires e == Enqueue(w) ==> Flying(s, w) == {}
    ensures Single(Step(s, e), w)
  {
    if e == Enqueue(w) {
      EnqueueKeepsSingle(s, w);
    } else if e.Fail? && e.workflowId == w {
      FailKeepsSingle(s, e.retry, w, e.isolate);
    } else {
      OthersKeepSingle(s, e, w);
    }
  }

  lemma {:induction false} SingleAlways(events: seq<Event>, w: string)
    requires Possible(events) && NoEnqueueInFlight(events, w)
    ensures Single(After(events), w)
    decreases |events|
  {
    if events != [] {
      var n := |events| - 1;
      var before := events[..n];
      forall i | 0 <= i < n ensures EnqueueOk(before, w, i) {
        assert EnqueueOk(events, w, i);
        assert before[..i] == events[..i];
      }
      SingleAlways(before, w);
      AlwaysTidy(before);
      assert EnqueueOk(events, w, n);
      SingleStep(After(before), events[n], w);
    }
  }

  predicate AtMostOneThroughout(events: seq<Event>, w: string)
    requires Possible(events)
  {
    forall i | 0 <= i <= |events| :: AtMostOneAt(events, w, i)
  }

  predicate AtMostOneAt(events: seq<Event>, w: string, i: nat)
    requires Possible(events) && i <= |events|
  {
    PrefixPossible(events, i);
    AtMostOne(After(events[..i]), w)
  }

  lemma NeverTwo(events: seq<Event>, w: string)
    requires Possible(events) && NoEnqueueInFlight(events, w)
    ensures AtMostOneThroughout(events, w)
  {
    forall i | 0 <= i <= |events| ensures AtMostOneAt(events, w, i) {
      PrefixPossible(events, i);
      forall j | 0 <= j < i ensures EnqueueOk(events[..i], w, j) {
        assert EnqueueOk(events, w, j);
        assert events[..i][..j] == events[..j];
      }
      SingleAlways(events[..i], w);
    }
  }

  lemma EnqueueAddsOne(s: State, w: string)
    requires Tidy(s) && AtMostOne(Step(s, Enqueue(w)), w)
    ensures Flying(s, w) == {}
  {
    var now := Step(s, Enqueue(w));
    assert s.next in Retries(now, w) && Flying(s, w) <= Retries(now, w);
    assert forall r | r in Flying(s, w) :: r == s.next;
  }

  lemma TwoAfterEnqueueInFlight(events: seq<Event>, w: string, i: nat)
    requires Possible(events) && i < |events|
    requires AtMostOneAt(events, w, i + 1)
    ensures EnqueueOk(events, w, i)
  {
    PrefixPossible(events, i);
    PrefixPossible(events, i + 1);
    assert events[..i + 1][..i] == events[..i];
    if events[i] == Enqueue(w) {
      AlwaysTidy(events[..i]);
      EnqueueAddsOne(After(events[..i]), w);
    }
  }

  /**
   A workflow has at most one retry, armed or under way, throughout a run exactly when it is never queued
   while a retry is under way.
   */
  lemma AtMostOneExactly(events: seq<Event>, w: string)
    requires Possible(events)
    ensures AtMostOneThroughout(events, w) <==> NoEnqueueInFlight(events, w)
  {
    if NoEnqueueInFlight(events, w) {
      NeverTwo(events, w);
    }
    if AtMostOneThroughout(events, w) {
      forall i | 0 <= i < |events| ensures EnqueueOk(events, w, i) {
        assert AtMostOneAt(events, w, i + 1);
        TwoAfterEnqueueInFlight(events, w, i);
      }
    }
  }

  /** Then removing the workflow leaves no timer of it behind. */
  lemma RemovalIsComplete(events: seq<Event>, w: string)
    requires Possible(events) && NoEnqueueInFlight(events, w)
    ensures forall t | t in Step(After(events), Remove(w)).live :: Step(After(events), Remove(w)).live[t].workflowId != w
  {
    SingleAlways(events, w);
  }

  // ---------- it keeps trying ----------

  /** No retry of the workflow has ended without an error since it was queued. */
  predicate NoneFinished(events: seq<Event>, w: string) {
    if events == [] then true
    else
      var e := events[|events| - 1];
      if e == Enqueue(w) then true
      else !(e.Finish? && e.workflowId == w) && NoneFinished(events[..|events| - 1], w)
  }

  predicate Trying(s: State, w: string)
    requires w in s.queue
  {
    s.queue[w].timer in Retries(s, w)
  }

  lemma TryingStep(s: State, e: Event, w: string)
    requires Tidy(s) && Enabled(s, e) && w in s.queue && Trying(s, w) && w in Step(s, e).queue
    requires !(e.Finish? && e.workflowId == w)
    ensures Trying(Step(s, e), w)
  {
    assert EntryOk(s, w);
    if (e.Enqueue? || e.Remove?) && e.workflowId in s.queue {
      assert EntryOk(s, e.workflowId);
    }
  }

  /** As long as the workflow is queued and no retry has ended well, one more retry is armed or under way. */
  lemma {:induction false} QueuedKeepsTrying(events: seq<Event>, w: string)
    requires Possible(events) && NoneFinished(events, w) && w in After(events).queue
    ensures Trying(After(events), w)
    decreases |events|
  {
    var before := events[..|events| - 1];
    var e := events[|events| - 1];
    AlwaysTidy(before);
    if e != Enqueue(w) {
      QueuedKeepsTrying(before, w);
      TryingStep(After(before), e, w);
    }
  }

  // ---------- queued again during a retry ----------

  /** Queued again while a retry is under way that then fails: two timers, and removal clears only one. */
  lemma QueuedAgainLeavesATimer(w: string)
    ensures var events := [Enqueue(w), Fire(0), Enqueue(w), Fail(0, w, false), Remove(w)];
      && Possible(events)
      && Possible(events[..4]) && After(events[..4]).live == map[1 := Timer(w, 1000), 2 := Timer(w, 2000)]
      && After(events).queue == map[] && After(events).live == map[1 := Timer(w, 1000)]
  {
    var events := [Enqueue(w), Fire(0), Enqueue(w), Fail(0, w, false), Remove(w)];
    assert events[..0] == [] && Possible(events[..0]);
    assert events[..1][..0] == events[..0] && events[..2][..1] == events[..1] && events[..3][..2] == events[..2];
    assert events[..4][..3] == events[..3] && events[..5][..4] == events[..4] && events[..5] == events;
    assert Possible(events[..1]) && After(events[..1]) == State(map[w := Entry(1000, 0)], map[0 := Timer(w, 1000)], map[], 1);
    assert Possible(events[..2]) && After(events[..2]) == State(map[w := Entry(1000, 0)], map[], map[0 := w], 1);
    assert Possible(events[..3]) && After(events[..3]) == State(map[w := Entry(1000, 1)], map[1 := Timer(w, 1000)], map[0 := w], 2);
    assert Possible(events[..4]);
    assert After(events[..4]) == State(map[w := Entry(2000, 2)], map[1 := Timer(w, 1000), 2 := Timer(w, 2000)], map[], 3);
  }

  // ---------- the manager ----------

  class ActivationManager {
    var queuedActivations: map<string, Entry>
    var live: map<nat, Timer>
    var flights: map<nat, string>
    var next: nat

    ghost function Now(): State
      reads this
    {
      State(queuedActivations, live, flights, next)
    }

    constructor ()
      ensures Now() == START
    {
      queuedActivations, live, flights, next := map[], map[], map[], 0;
    }

    method SetTimeout(w: string, delay: nat) returns (timer: nat)
      modifies this`live, this`next
      ensures timer == old(next) && next == old(next) + 1 && live == old(live)[timer := Timer(w, delay)]
    {
      timer := next;
      live := live[timer := Timer(w, delay)];
      next := next + 1;
    }

    method AddQueuedWorkflowActivation(w: string)
      modifies this
      ensures Now() == Step(old(Now()), Enqueue(w))
    {
      RemoveQueuedWorkflowActivation(w);
      var timer := SetTimeout(w, INITIAL);
      queuedActivations := queuedActivations[w := Entry(INITIAL, timer)];
    }

    method RemoveQueuedWorkflowActivation(w: string)
      modifies this`queuedActivations, this`live
      ensures Now() == Removed(old(Now()), w)
    {
      if w in queuedActivations {
        live := live - {queuedActivations[w].timer};
        queuedActivations := queuedActivations - {w};
      }
    }

    method RemoveAllQueuedWorkflowActivations()
      modifies this`queuedActivations, this`live
      ensures Now() == Step(old(Now()), RemoveAll)
    {
      ghost var start, done := Now(), {};
      var todo := queuedActivations.Keys;
      assert Without(start, done) == start;
      while todo != {}
        invariant done <= start.queue.Keys && todo <= start.queue.Keys
        invariant forall w | w in start.queue :: w in todo <==> w !in done
        invariant Now() == Without(start, done)
        decreases |todo|
      {
        var w :| w in todo;
        RemoveOneMore(start, done, w);
        RemoveQueuedWorkflowActivation(w);
        todo, done := todo - {w}, done + {w};
      }
      assert done == start.queue.Keys;
    }

    /** The timer goes off and the retry begins. */
    method BeginRetry(timer: nat)
      requires timer in live
      modifies this
      ensures Now() == Step(old(Now()), Fire(timer))
    {
      flights := flights[timer := live[timer].workflowId];
      live := live - {timer};
    }

    /** The `catch` of the retry; without an entry it throws itself. */
    method RetryFailed(retry: nat, isolate: bool) returns (r: Result<(), string>)
      requires retry in flights
      modifies this
      ensures Now() == Step(old(Now()), Fail(retry, old(flights[retry]), isolate))
      ensures r.Err? <==> old(flights[retry]) !in old(queuedActivations)
    {
      var w := flights[retry];
      flights := flights - {retry};
      if w !in queuedActivations {
        return Err(w);
      }
      var lastTimeout := queuedActivations[w].lastTimeout;
      if !isolate && lastTimeout < MAX {
        lastTimeout := if lastTimeout * 2 < MAX then lastTimeout * 2 else MAX;
      }
      var timer := SetTimeout(w, lastTimeout);
      queuedActivations := queuedActivations[w := Entry(lastTimeout, timer)];
      r := Ok(());
    }

    /** The retry ends without an error; `add` has removed the entry before, unless it had nothing to do. */
    method RetryEnded(retry: nat)
      requires retry in flights
      modifies this`flights
      ensures Now() == Step(old(Now()), Finish(retry, old(flights[retry])))
    {
      flights := flights - {retry};
    }
  }
}
