/**
 The timers of waiting executions (`WaitTracker`): a poll arms one timer per execution that it does not
 know yet, and entries go when an execution is started or stopped, but not when tracking stops.
 */
module WaitTimers {
  /** A wait of an execution: the how-many-th of all, and the instant at which it ends. */
  datatype Wait = Wait(number: nat, till: int)

  /** An armed timer: it goes off at the end of the wait. */
  datatype Timer = Timer(executionId: string, wait: Wait)

  /** A row that the poll finds. */
  datatype Found = Found(executionId: string, wait: Wait)

  /** `waiting` maps executions to their timers; `tracking` says that `mainTimer` was ever set. */
  datatype State = State(waiting: map<string, nat>, live: map<nat, Timer>, next: nat, tracking: bool)

  const START := State(map[], map[], 0, false)

  datatype Event =
    | Track
    | Poll(found: seq<Found>)
    | Fire(timer: nat)
    | StartExecution(executionId: string)
    | StopExecution(executionId: string)
    | StopTracking

  // ---------- the steps ----------

  function Seen(s: State, f: Found): State {
    if f.executionId in s.waiting then s
    else
      s.(waiting := s.waiting[f.executionId := s.next], live := s.live[s.next := Timer(f.executionId, f.wait)],
         next := s.next + 1)
  }

  function SeenAll(s: State, found: seq<Found>): State
    decreases |found|
  {
    if found == [] then s else SeenAll(Seen(s, found[0]), found[1..])
  }

  function Started(s: State, id: string): State {
    s.(waiting := s.waiting - {id})
  }

  /** Without the timers of the entries in `ids`. */
  function Cleared(s: State, ids: set<string>): State {
    s.(live := s.live - (set id | id in ids && id in s.waiting :: s.waiting[id]))
  }

  predicate Enabled(s: State, e: Event) {
    e.Fire? ==> e.timer in s.live
  }

  function Step(s: State, e: Event): State
    requires Enabled(s, e)
  {
    match e
    case Track => s.(tracking := true)
    case Poll(found) => SeenAll(s, found)
    case Fire(t) => Started(s.(live := s.live - {t}), s.live[t].executionId)
    case StartExecution(id) => Started(s, id)
    case StopExecution(id) => if id in s.waiting then Started(Cleared(s, {id}), id) else s
    case StopTracking => if s.tracking then Cleared(s, s.waiting.Keys) else s
  }

  predicate Possible(s: State, events: seq<Event>)
    decreases |events|
  {
    events == [] || (Enabled(s, events[0]) && Possible(Step(s, events[0]), events[1..]))
  }

  function After(s: State, events: seq<Event>): State
    requires Possible(s, events)
    decreases |events|
  {
    if events == [] then s else After(Step(s, events[0]), events[1..])
  }

  /** The timers of `s` but for one are armed in `n`, as they were, and no others. */
  ghost predicate OnlyLost(s: State, n: State, t: nat) {
    && (forall x :: x in n.live <==> x in s.live && x != t)
    && (forall x | x in n.live :: n.live[x] == s.live[x])
  }

  ghost predicate OnlyForgotten(s: State, n: State, id: string) {
    && (forall x :: x in n.waiting <==> x in s.waiting && x != id)
    && (forall x | x in n.waiting :: n.waiting[x] == s.waiting[x])
  }

  /** Stopping a known execution disarms its timer and forgets it, and touches no other; starting one leaves the timer armed. */
  lemma StoppedIsDisarmed(s: State, id: string)
    ensures var n := Step(s, StopExecution(id));
      if id in s.waiting then OnlyLost(s, n, s.waiting[id]) && OnlyForgotten(s, n, id) else n == s
    ensures var n := Step(s, StartExecution(id)); n.live == s.live && OnlyForgotten(s, n, id)
  {
  }

  /** A timer that goes off is gone, and so is the entry of its execution. */
  lemma FiredIsGone(s: State, t: nat)
    requires t in s.live
    ensures var n := Step(s, Fire(t)); OnlyLost(s, n, t) && OnlyForgotten(s, n, s.live[t].executionId)
  {
  }

  /** Stopping to track disarms exactly the timers that entries know, if tracking ever began, and forgets nothing. */
  lemma StoppedTrackingDisarms(s: State)
    ensures var n := Step(s, StopTracking);
      && n.waiting == s.waiting
      && (forall t :: t in n.live <==> t in s.live && !(s.tracking && exists id | id in s.waiting :: s.waiting[id] == t))
      && (forall t | t in n.live :: n.live[t] == s.live[t])
  {
  }

  // ---------- is every known execution armed? ----------

  /** An entry's timer has not been used for anything else. */
  predicate EntryOk(s: State, id: string)
    requires id in s.waiting
  {
    s.waiting[id] < s.next && (s.waiting[id] in s.live ==> s.live[s.waiting[id]].executionId == id)
  }

  predicate Tidy(s: State) {
    && (forall t | t in s.live :: t < s.next)
    && (forall id | id in s.waiting :: EntryOk(s, id))
    && (forall a, b | a in s.waiting && b in s.waiting && s.waiting[a] == s.waiting[b] :: a == b)
  }

  predicate Armed(s: State, id: string) {
    id in s.waiting ==> s.waiting[id] in s.live
  }

  /** The timer was armed for the wait of a row that the poll found. */
  predicate ArmedBy(s: State, id: string, found: seq<Found>)
    requires id in s.waiting && s.waiting[id] in s.live
  {
    exists f | f in found :: f.executionId == id && s.live[s.waiting[id]] == Timer(id, f.wait)
  }

  /** Every execution that the tracker knows will be started in time. */
  predicate AllArmed(s: State) {
    forall id | id in s.waiting :: Armed(s, id)
  }

  lemma {:induction false} PollArms(s: State, found: seq<Found>, id: string)
    requires Tidy(s)
    ensures var n := SeenAll(s, found);
      && Tidy(n) && n.tracking == s.tracking
      && (id in n.waiting <==> id in s.waiting || exists f | f in found :: f.executionId == id)
      && (id in s.waiting ==> n.waiting[id] == s.waiting[id] && (s.waiting[id] in n.live <==> s.waiting[id] in s.live))
      && (id in n.waiting && id !in s.waiting ==> Armed(n, id) && ArmedBy(n, id, found))
      && (id in s.waiting && Armed(s, id) ==> n.live[n.waiting[id]] == s.live[s.waiting[id]])
    decreases |found|
  {
    if found != [] {
      var f, rest := found[0], found[1..];
      assert found == [f] + rest;
      var m := Seen(s, f);
      SeenKeepsTidy(s, f);
      PollArms(m, rest, id);
      assert f.executionId == id ==> f in found;
    }
  }

  lemma SeenKeepsTidy(s: State, f: Found)
    requires Tidy(s)
    ensures Tidy(Seen(s, f))
  {
    var n := Seen(s, f);
    forall id | id in n.waiting ensures EntryOk(n, id) {
      assert id in s.waiting ==> EntryOk(s, id);
    }
    forall a, b | a in n.waiting && b in n.waiting && n.waiting[a] == n.waiting[b] ensures a == b {
      assert a in s.waiting ==> EntryOk(s, a);
      assert b in s.waiting ==> EntryOk(s, b);
    }
  }

  lemma TidyStep(s: State, e: Event)
    requires Tidy(s) && Enabled(s, e)
    ensures Tidy(Step(s, e))
  {
    if e.Poll? {
      PollArms(s, e.found, "");
    } else {
      var n := Step(s, e);
      forall id | id in n.waiting ensures EntryOk(n, id) {
        assert EntryOk(s, id);
      }
    }
  }

  /** Tracking stops while executions are known. */
  predicate Abandons(s: State, e: Event) {
    e.StopTracking? && s.tracking && s.waiting != map[]
  }

  predicate NeverAbandons(s: State, events: seq<Event>)
    requires Possible(s, events)
    decreases |events|
  {
    events == [] || (!Abandons(s, events[0]) && NeverAbandons(Step(s, events[0]), events[1..]))
  }

  predicate AllArmedThroughout(s: State, events: seq<Event>)
    requires Possible(s, events)
    decreases |events|
  {
    AllArmed(s) && (events == [] || AllArmedThroughout(Step(s, events[0]), events[1..]))
  }

  lemma AllArmedStep(s: State, e: Event)
    requires Tidy(s) && AllArmed(s) && Enabled(s, e)
    ensures AllArmed(Step(s, e)) <==> !Abandons(s, e)
  {
    var n := Step(s, e);
    if Abandons(s, e) {
      var id :| id in s.waiting;
      assert !Armed(n, id);
    } else {
      forall id | id in n.waiting ensures Armed(n, id) {
        if e.Poll? {
          PollArms(s, e.found, id);
        }
        if id in s.waiting {
          assert EntryOk(s, id) && Armed(s, id);
        }
      }
    }
  }

  /** Every known execution keeps its timer throughout a run exactly when tracking never stops while one is known. */
  lemma {:induction false} AllArmedExactly(s: State, events: seq<Event>)
    requires Tidy(s) && AllArmed(s) && Possible(s, events)
    ensures AllArmedThroughout(s, events) <==> NeverAbandons(s, events)
    decreases |events|
  {
    if events != [] {
      AllArmedStep(s, events[0]);
      TidyStep(s, events[0]);
      if AllArmed(Step(s, events[0])) {
        AllArmedExactly(Step(s, events[0]), events[1..]);
      }
    }
  }

  lemma {:induction false} StaysArmed(s: State, events: seq<Event>)
    requires Tidy(s) && AllArmed(s) && Possible(s, events) && NeverAbandons(s, events)
    ensures Tidy(After(s, events)) && AllArmed(After(s, events))
    decreases |events|
  {
    if events != [] {
      AllArmedStep(s, events[0]);
      TidyStep(s, events[0]);
      StaysArmed(Step(s, events[0]), events[1..]);
    }
  }

  /**
   Then every execution that a poll finds has an armed timer afterwards, whatever went before: the one it had,
   or one for the wait that the poll found.
   */
  lemma PolledExecutionsAreArmed(events: seq<Event>, found: seq<Found>, f: Found)
    requires Possible(START, events) && NeverAbandons(START, events) && f in found
    ensures var s := After(START, events);
      var n := Step(s, Poll(found));
      var id := f.executionId;
      && id in n.waiting && n.waiting[id] in n.live && n.live[n.waiting[id]].executionId == id
      && (if id in s.waiting then s.waiting[id] in s.live && n.live[n.waiting[id]] == s.live[s.waiting[id]]
          else ArmedBy(n, id, found))
  {
    StaysArmed(START, events);
    var s := After(START, events);
    PollArms(s, found, f.executionId);
    assert EntryOk(Step(s, Poll(found)), f.executionId);
    assert f.executionId in s.waiting ==> Armed(s, f.executionId);
  }

  // ---------- what an abandoned execution can hope for ----------

  /** The tracker knows the execution, but no timer of it is armed. */
  predicate Abandoned(s: State, id: string) {
    id in s.waiting && forall t | t in s.live :: s.live[t].executionId != id
  }

  predicate NeitherStartedNorStopped(events: seq<Event>, id: string) {
    forall e | e in events :: e != StartExecution(id) && e != StopExecution(id)
  }

  lemma {:induction false} PollSkips(s: State, found: seq<Found>, id: string)
    requires Abandoned(s, id)
    ensures Abandoned(SeenAll(s, found), id)
    decreases |found|
  {
    if found != [] {
      PollSkips(Seen(s, found[0]), found[1..], id);
    }
  }

  /**
   However often this process polls and tracks again, an abandoned execution is never armed again, unless
   something else starts or stops it.
   */
  lemma {:induction false} AbandonedForGood(s: State, events: seq<Event>, id: string)
    requires Possible(s, events) && Abandoned(s, id) && NeitherStartedNorStopped(events, id)
    ensures Abandoned(After(s, events), id)
    decreases |events|
  {
    if events != [] {
      var e := events[0];
      assert e in events;
      if e.Poll? {
        PollSkips(s, e.found, id);
      }
      assert forall x | x in events[1..] :: x in events;
      AbandonedForGood(Step(s, e), events[1..], id);
    }
  }

  /** Stepping down abandons an execution whose only timer is the one of its entry. */
  lemma SteppingDownAbandons(id: string, wait: Wait)
    ensures var events := [Track, Poll([Found(id, wait)]), StopTracking];
      Possible(START, events) && Abandoned(After(START, events), id)
  {
    var found := [Found(id, wait)];
    var s1 := Step(START, Track);
    var s2 := State(map[id := 0], map[0 := Timer(id, wait)], 1, true);
    assert Seen(s1, found[0]) == s2 && SeenAll(s2, found[1..]) == s2;
    assert Step(s1, Poll(found)) == s2;
    AfterThree(START, Track, Poll(found), StopTracking);
  }

  lemma AfterThree(s: State, a: Event, b: Event, c: Event)
    requires Enabled(s, a) && Enabled(Step(s, a), b) && Enabled(Step(Step(s, a), b), c)
    ensures Possible(s, [a, b, c]) && After(s, [a, b, c]) == Step(Step(Step(s, a), b), c)
  {
    var last := Step(Step(Step(s, a), b), c);
    assert [c][1..] == [] && [b, c][1..] == [c] && [a, b, c][1..] == [b, c];
    assert Possible(last, []);
    assert Possible(Step(Step(s, a), b), [c]) && After(Step(Step(s, a), b), [c]) == last;
    assert Possible(Step(s, a), [b, c]) && After(Step(s, a), [b, c]) == last;
  }

  // ---------- does a timer end the wait it was armed for? ----------

  /** The tracker together with the rows: `rows` holds the current wait of each waiting execution. */
  datatype World = World(tracker: State, rows: map<string, Wait>, waits: nat)

  const NEW_WORLD := World(START, map[], 0)

  /**
   A wait begins; a wait is ended by something else that resumes or cancels the execution; a timer goes off and
   resumes its execution if that is waiting; the tracker does something.
   */
  datatype Change =
    | WaitBegins(executionId: string, till: int)
    | WaitEnds(executionId: string)
    | GoesOff(timer: nat)
    | Tracker(event: Event)

  /** A poll finds rows as they are. */
  predicate CanChange(w: World, c: Change) {
    match c
    case WaitBegins(id, _) => id !in w.rows
    case WaitEnds(id) => id in w.rows
    case GoesOff(t) => t in w.tracker.live
    case Tracker(e) =>
      Enabled(w.tracker, e) && (e.Poll? ==> forall f | f in e.found :: f.executionId in w.rows && w.rows[f.executionId] == f.wait)
  }

  function Changed(w: World, c: Change): World
    requires CanChange(w, c)
  {
    match c
    case WaitBegins(id, till) => w.(rows := w.rows[id := Wait(w.waits, till)], waits := w.waits + 1)
    case WaitEnds(id) => w.(rows := w.rows - {id})
    case GoesOff(t) => w.(tracker := Step(w.tracker, Fire(t)), rows := w.rows - {w.tracker.live[t].executionId})
    case Tracker(e) => w.(tracker := Step(w.tracker, e))
  }

  predicate CanRun(w: World, changes: seq<Change>)
    decreases |changes|
  {
    changes == [] || (CanChange(w, changes[0]) && CanRun(Changed(w, changes[0]), changes[1..]))
  }

  function AllChanged(w: World, changes: seq<Change>): World
    requires CanRun(w, changes)
    decreases |changes|
  {
    if changes == [] then w else AllChanged(Changed(w, changes[0]), changes[1..])
  }

  predicate TimerOfOldWait(w: World, t: nat) {
    && t in w.tracker.live
    && var timer := w.tracker.live[t];
    timer.executionId in w.rows && w.rows[timer.executionId] != timer.wait
  }

  /** A timer that goes off finds its execution in the wait for which it was armed, or not waiting at all. */
  predicate TimersMatch(w: World) {
    forall t | t in w.tracker.live :: !TimerOfOldWait(w, t)
  }

  predicate TimersMatchThroughout(w: World, changes: seq<Change>)
    requires CanRun(w, changes)
    decreases |changes|
  {
    TimersMatch(w) && (changes == [] || TimersMatchThroughout(Changed(w, changes[0]), changes[1..]))
  }

  predicate HasTimer(s: State, id: string) {
    exists t | t in s.live :: s.live[t].executionId == id
  }

  /** The execution waits again while a timer for an earlier wait is still armed. */
  predicate WaitsTooEarly(w: World, c: Change) {
    c.WaitBegins? && HasTimer(w.tracker, c.executionId)
  }

  predicate NoneWaitsTooEarly(w: World, changes: seq<Change>)
    requires CanRun(w, changes)
    decreases |changes|
  {
    changes == [] || (!WaitsTooEarly(w, changes[0]) && NoneWaitsTooEarly(Changed(w, changes[0]), changes[1..]))
  }

  predicate Numbered(w: World) {
    forall t | t in w.tracker.live :: w.tracker.live[t].wait.number < w.waits
  }

  lemma {:induction false} PollMatches(w: World, found: seq<Found>)
    requires Tidy(w.tracker) && Numbered(w) && TimersMatch(w)
    requires forall f | f in found :: f.executionId in w.rows && w.rows[f.executionId] == f.wait && f.wait.number < w.waits
    ensures var n := w.(tracker := SeenAll(w.tracker, found)); Numbered(n) && TimersMatch(n)
    decreases |found|
  {
    if found != [] {
      assert found[0] in found;
      SeenKeepsTidy(w.tracker, found[0]);
      PollMatches(w.(tracker := Seen(w.tracker, found[0])), found[1..]);
    }
  }

  predicate RowsNumbered(w: World) {
    forall id | id in w.rows :: w.rows[id].number < w.waits
  }

  lemma MatchStep(w: World, c: Change)
    requires Tidy(w.tracker) && Numbered(w) && RowsNumbered(w) && TimersMatch(w) && CanChange(w, c)
    ensures var n := Changed(w, c);
      && Tidy(n.tracker) && Numbered(n) && RowsNumbered(n)
      && (TimersMatch(n) <==> !WaitsTooEarly(w, c))
  {
    var n := Changed(w, c);
    match c
    case WaitBegins(id, _) =>
      if HasTimer(w.tracker, id) {
        var t :| t in w.tracker.live && w.tracker.live[t].executionId == id;
        assert TimerOfOldWait(n, t);
      } else {
        forall t | t in n.tracker.live ensures !TimerOfOldWait(n, t) {
          assert !TimerOfOldWait(w, t);
        }
      }
    case WaitEnds(id) =>
      forall t | t in n.tracker.live ensures !TimerOfOldWait(n, t) {
        assert !TimerOfOldWait(w, t);
      }
    case GoesOff(timer) =>
      TidyStep(w.tracker, Fire(timer));
      forall t | t in n.tracker.live ensures !TimerOfOldWait(n, t) {
        assert !TimerOfOldWait(w, t);
      }
    case Tracker(e) =>
      TidyStep(w.tracker, e);
      if e.Poll? {
        PollMatches(w, e.found);
      } else {
        forall t | t in n.tracker.live ensures !TimerOfOldWait(n, t) {
          assert !TimerOfOldWait(w, t);
        }
      }
  }

  /**
   Throughout a run, no timer is armed for an earlier wait than the one its execution is in, exactly when no
   execution starts to wait again while a timer of it is still armed.
   */
  lemma {:induction false} TimersMatchExactly(w: World, changes: seq<Change>)
    requires Tidy(w.tracker) && Numbered(w) && RowsNumbered(w) && TimersMatch(w) && CanRun(w, changes)
    ensures TimersMatchThroughout(w, changes) <==> NoneWaitsTooEarly(w, changes)
    decreases |changes|
  {
    if changes != [] {
      MatchStep(w, changes[0]);
      if TimersMatch(Changed(w, changes[0])) {
        TimersMatchExactly(Changed(w, changes[0]), changes[1..]);
      }
    }
  }

  predicate NoneAbandons(w: World, changes: seq<Change>)
    requires CanRun(w, changes)
    decreases |changes|
  {
    changes == [] ||
    (!(changes[0].Tracker? && Abandons(w.tracker, changes[0].event)) && NoneAbandons(Changed(w, changes[0]), changes[1..]))
  }

  predicate InTime(w: World) {
    Tidy(w.tracker) && AllArmed(w.tracker) && Numbered(w) && RowsNumbered(w) && TimersMatch(w)
  }

  lemma {:induction false} StaysInTime(w: World, changes: seq<Change>)
    requires InTime(w) && CanRun(w, changes) && NoneWaitsTooEarly(w, changes) && NoneAbandons(w, changes)
    ensures InTime(AllChanged(w, changes))
    decreases |changes|
  {
    if changes != [] {
      MatchStep(w, changes[0]);
      if changes[0].Tracker? {
        AllArmedStep(w.tracker, changes[0].event);
      } else if changes[0].GoesOff? {
        AllArmedStep(w.tracker, Fire(changes[0].timer));
      }
      StaysInTime(Changed(w, changes[0]), changes[1..]);
    }
  }

  /**
   In every run in which tracking never stops and no execution waits again too early: after a poll, every
   execution it found has a timer that is armed for the end of its current wait.
   */
  lemma PolledInTime(changes: seq<Change>, found: seq<Found>, f: Found)
    requires CanRun(NEW_WORLD, changes) && NoneWaitsTooEarly(NEW_WORLD, changes) && NoneAbandons(NEW_WORLD, changes)
    requires CanChange(AllChanged(NEW_WORLD, changes), Tracker(Poll(found))) && f in found
    ensures var w := AllChanged(NEW_WORLD, changes);
      var s := Step(w.tracker, Poll(found));
      && f.executionId in s.waiting && s.waiting[f.executionId] in s.live
      && s.live[s.waiting[f.executionId]] == Timer(f.executionId, w.rows[f.executionId])
  {
    StaysInTime(NEW_WORLD, changes);
    var w := AllChanged(NEW_WORLD, changes);
    MatchStep(w, Tracker(Poll(found)));
    PollArms(w.tracker, found, f.executionId);
    var s := Step(w.tracker, Poll(found));
    assert f.executionId in w.tracker.waiting ==> Armed(w.tracker, f.executionId);
    assert EntryOk(s, f.executionId);
    assert !TimerOfOldWait(Changed(w, Tracker(Poll(found))), s.waiting[f.executionId]);
  }

  /** The run of the next lemma, up to the moment at which the timer goes off. */
  function LeftTimerRun(id: string, soon: int, late: int): seq<Change> {
    [WaitBegins(id, soon), Tracker(Poll([Found(id, Wait(0, soon))])), WaitEnds(id), WaitBegins(id, late)]
  }

  /**
   A wait that is ended by something else leaves its timer, which goes off during the next wait and ends that one
   although it is to last longer.
   */
  lemma LeftTimerEndsNextWait(id: string, soon: int, late: int)
    requires soon < late
    ensures var run := LeftTimerRun(id, soon, late);
      && CanRun(NEW_WORLD, run)
      && var w := AllChanged(NEW_WORLD, run);
      && w.rows == map[id := Wait(1, late)]
      && 0 in w.tracker.live && w.tracker.live[0] == Timer(id, Wait(0, soon)) && w.tracker.live[0].wait.till < w.rows[id].till
      && CanChange(w, GoesOff(0)) && id !in Changed(w, GoesOff(0)).rows
  {
    var f := Found(id, Wait(0, soon));
    var w1 := World(START, map[id := Wait(0, soon)], 1);
    var s := State(map[id := 0], map[0 := Timer(id, f.wait)], 1, false);
    var w2, w3, w4 := World(s, map[id := f.wait], 1), World(s, map[], 1), World(s, map[id := Wait(1, late)], 2);
    var c1, c2, c3, c4 := WaitBegins(id, soon), Tracker(Poll([f])), WaitEnds(id), WaitBegins(id, late);
    assert Seen(START, f) == s && SeenAll(s, [f][1..]) == s && SeenAll(START, [f]) == s;
    assert Changed(NEW_WORLD, c1) == w1 && Changed(w1, c2) == w2 && Changed(w2, c3) == w3 && Changed(w3, c4) == w4;
    assert [c4][1..] == [] && [c3, c4][1..] == [c4] && [c2, c3, c4][1..] == [c3, c4] && [c1, c2, c3, c4][1..] == [c2, c3, c4];
    assert CanRun(w4, []) && AllChanged(w4, []) == w4;
    assert CanRun(w3, [c4]) && AllChanged(w3, [c4]) == w4;
    assert CanRun(w2, [c3, c4]) && AllChanged(w2, [c3, c4]) == w4;
    assert CanRun(w1, [c2, c3, c4]) && AllChanged(w1, [c2, c3, c4]) == w4;
  }

  // ---------- the class ----------

  class WaitTracker {
    var waitingExecutions: map<string, nat>
    var live: map<nat, Timer>
    var next: nat
    var mainTimer: bool

    ghost function Now(): State
      reads this
    {
      State(waitingExecutions, live, next, mainTimer)
    }

    constructor ()
      ensures Now() == START
    {
      waitingExecutions, live, next, mainTimer := map[], map[], 0, false;
    }

    method GetWaitingExecutions(found: seq<Found>)
      modifies this
      ensures Now() == Step(old(Now()), Poll(found))
    {
      ghost var whole := SeenAll(Now(), found);
      assert found[0..] == found;
      for i := 0 to |found|
        invariant SeenAll(Now(), found[i..]) == whole
      {
        assert found[i..][1..] == found[i + 1..];
        var f := found[i];
        if f.executionId !in waitingExecutions {
          waitingExecutions := waitingExecutions[f.executionId := next];
          live := live[next := Timer(f.executionId, f.wait)];
          next := next + 1;
        }
      }
    }

    method Stop(executionId: string)
      modifies this
      ensures Now() == Step(old(Now()), StopExecution(executionId))
    {
      if executionId !in waitingExecutions {
        return;
      }
      ghost var before := Now();
      live := live - {waitingExecutions[executionId]};
      assert live == Cleared(before, {executionId}).live;
      waitingExecutions := waitingExecutions - {executionId};
    }

    /** The timer goes off; `startExecution` first forgets the execution. */
    method GoOff(timer: nat)
      requires timer in live
      modifies this
      ensures Now() == Step(old(Now()), Fire(timer))
    {
      var executionId := live[timer].executionId;
      live := live - {timer};
      waitingExecutions := waitingExecutions - {executionId};
    }

    /** Clears the timers one by one, in any order, and keeps the entries. */
    method StopTracking()
      modifies this`live
      ensures Now() == Step(old(Now()), Event.StopTracking)
    {
      if !mainTimer {
        return;
      }
      ghost var start, done := Now(), {};
      assert Cleared(start, done).live == start.live;
      var todo := waitingExecutions.Keys;
      while todo != {}
        invariant done <= start.waiting.Keys && todo <= start.waiting.Keys
        invariant forall id | id in start.waiting :: id in todo <==> id !in done
        invariant Now() == Cleared(start, done)
        decreases |todo|
      {
        var id :| id in todo;
        ClearOneMore(start, done, id);
        live := live - {waitingExecutions[id]};
        todo, done := todo - {id}, done + {id};
      }
      assert done == start.waiting.Keys;
    }
  }

  lemma ClearOneMore(s: State, done: set<string>, id: string)
    requires id in s.waiting
    ensures Cleared(s, done + {id}).live == Cleared(s, done).live - {s.waiting[id]}
  {
  }
}
