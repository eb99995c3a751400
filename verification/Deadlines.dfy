/**
 Deadlines and stop timers: the deadline of a main workflow, its way down through nested
 sub-workflows, and the stop timer of an execution that is suspended and resumed. Instants are in
 milliseconds, timeouts in seconds; `None` stands for no deadline, that is, for infinity.
 */
module Deadlines {
  import opened Wrappers

  /** `EXECUTIONS_TIMEOUT` and `EXECUTIONS_TIMEOUT_MAX`. */
  datatype Config = Config(timeout: real, maxTimeout: real)

  function Min(a: real, b: real): real {
    if a <= b then a else b
  }

  function Max(a: real, b: real): real {
    if a >= b then a else b
  }

  // ---------- one workflow ----------

  /** `determineWorkflowDeadline`, for sub-workflows: a maximum that is not positive does not clamp. */
  function SubDeadline(start: real, own: Option<real>, cfg: Config): Option<real> {
    if own.Some? then
      if own.value <= 0.0 then None else Some(start + Clamped(own.value, cfg) * 1000.0)
    else if cfg.timeout > 0.0 then Some(start + Clamped(cfg.timeout, cfg) * 1000.0)
    else None
  }

  function Clamped(timeout: real, cfg: Config): real {
    if cfg.maxTimeout > 0.0 then Min(timeout, cfg.maxTimeout) else timeout
  }

  /** The workflow's own timeout, else the configured one. */
  function Wanted(own: Option<real>, cfg: Config): real {
    if own.Some? then own.value else cfg.timeout
  }

  /** The timeout that counts for a main workflow: a maximum that is not positive switches it off. */
  function Allowed(own: Option<real>, cfg: Config): Option<real> {
    var t := Wanted(own, cfg);
    if t > 0.0 && cfg.maxTimeout > 0.0 then Some(Min(t, cfg.maxTimeout)) else None
  }

  /**
   The computation in `runMainProcess`. It agrees with the one for sub-workflows exactly when there is
   a positive maximum or no positive timeout.
   */
  method MainDeadline(now: real, own: Option<real>, cfg: Config) returns (workflowTimeout: real, deadline: Option<real>)
    ensures deadline ==
      var wanted := if own.Some? then own.value else cfg.timeout;
      if wanted <= 0.0 || cfg.maxTimeout <= 0.0 then None
      else Some(now + 1000.0 * if wanted <= cfg.maxTimeout then wanted else cfg.maxTimeout)
    ensures deadline == SubDeadline(now, own, cfg) <==> cfg.maxTimeout > 0.0 || Wanted(own, cfg) <= 0.0
    ensures Allowed(own, cfg) == if workflowTimeout > 0.0 then Some(workflowTimeout) else None
    ensures deadline == MainDeadlineOf(now, own, cfg)
  {
    workflowTimeout := if own.Some? then own.value else cfg.timeout;
    if workflowTimeout > 0.0 {
      workflowTimeout := Min(workflowTimeout, cfg.maxTimeout);
    }
    deadline := if workflowTimeout <= 0.0 then None else Some(now + workflowTimeout * 1000.0);
  }

  function MainDeadlineOf(now: real, own: Option<real>, cfg: Config): Option<real> {
    match Allowed(own, cfg)
    case Some(t) => Some(now + t * 1000.0)
    case None => None
  }

  // ---------- nested sub-workflows ----------

  /** A call of a sub-workflow; nobody waits for a detached one. */
  datatype Call = Call(start: real, own: Option<real>, detached: bool)

  /** `resolveSubworkflowDeadline`. */
  function Resolve(sub: Option<real>, parent: Option<real>, detached: bool): Option<real> {
    if detached then sub
    else if parent.Some? && sub.Some? then Some(Min(parent.value, sub.value))
    else if parent.Some? then parent
    else sub
  }

  /** The deadline in force at the bottom of a chain of calls. */
  function Down(root: Option<real>, calls: seq<Call>, cfg: Config): Option<real> {
    if calls == [] then root
    else
      var c := calls[|calls| - 1];
      Resolve(SubDeadline(c.start, c.own, cfg), Down(root, calls[..|calls| - 1], cfg), c.detached)
  }

  /** `a` is not after `b`. */
  predicate NotLater(a: Option<real>, b: Option<real>) {
    b.Some? ==> a.Some? && a.value <= b.value
  }

  predicate IsEarliest(d: Option<real>, all: seq<Option<real>>) {
    && (d.Some? ==> d in all)
    && (forall x | x in all :: NotLater(d, x))
  }

  /** The deadlines that count at the bottom: those of the calls since the last detached one, with the root if there is none. */
  function Counting(root: Option<real>, calls: seq<Call>, cfg: Config): seq<Option<real>> {
    if calls == [] then [root]
    else
      var c := calls[|calls| - 1];
      (if c.detached then [] else Counting(root, calls[..|calls| - 1], cfg)) + [SubDeadline(c.start, c.own, cfg)]
  }

  /** The deadline at any depth is the earliest of all deadlines that count. */
  lemma {:induction false} DeadlineIsEarliest(root: Option<real>, calls: seq<Call>, cfg: Config)
    ensures IsEarliest(Down(root, calls, cfg), Counting(root, calls, cfg))
    decreases |calls|
  {
    if calls != [] {
      var c := calls[|calls| - 1];
      var up := calls[..|calls| - 1];
      DeadlineIsEarliest(root, up, cfg);
      var own := SubDeadline(c.start, c.own, cfg);
      assert own in Counting(root, calls, cfg);
      forall x | x in Counting(root, calls, cfg) ensures NotLater(Down(root, calls, cfg), x) {
        assert !c.detached ==> x == own || NotLater(Down(root, up, cfg), x);
      }
    }
  }

  predicate Awaited(calls: seq<Call>) {
    forall i | 0 <= i < |calls| :: !calls[i].detached
  }

  /** Further awaited calls, however deep, never put the deadline off. */
  lemma {:induction false} AwaitedCallsNeverPutOff(root: Option<real>, calls: seq<Call>, deeper: seq<Call>, cfg: Config)
    requires Awaited(deeper)
    ensures NotLater(Down(root, calls + deeper, cfg), Down(root, calls, cfg))
    decreases |deeper|
  {
    if deeper == [] {
      assert calls + deeper == calls;
    } else {
      var n := |deeper| - 1;
      assert (calls + deeper)[..|calls| + n] == calls + deeper[..n];
      AwaitedCallsNeverPutOff(root, calls, deeper[..n], cfg);
    }
  }

  /** Nothing above a detached call matters below it. */
  lemma {:induction false} DetachedCallForgets(root: Option<real>, other: Option<real>, above: seq<Call>, otherAbove: seq<Call>, c: Call, deeper: seq<Call>, cfg: Config)
    requires c.detached
    ensures Down(root, above + [c] + deeper, cfg) == Down(other, otherAbove + [c] + deeper, cfg)
    decreases |deeper|
  {
    var a, b := above + [c] + deeper, otherAbove + [c] + deeper;
    if deeper != [] {
      var n := |deeper| - 1;
      assert a[..|a| - 1] == above + [c] + deeper[..n] && b[..|b| - 1] == otherAbove + [c] + deeper[..n];
      DetachedCallForgets(root, other, above, otherAbove, c, deeper[..n], cfg);
    }
  }

  // ---------- suspended and resumed executions ----------

  /** A stretch between two waits: when the deadline is computed, the row is set running, and the timer armed. */
  datatype Period = Period(deadlineAt: real, runningAt: real, armedAt: real)

  predicate InOrder(p: Period) {
    p.deadlineAt <= p.runningAt <= p.armedAt
  }

  /** What one stretch sets up; `stopAt` is the instant at which the execution is stopped. */
  datatype Times = Times(startedAt: real, softAt: Option<real>, stopAt: Option<real>)

  /** `startedAt` is stored once; a resumed execution brings the stored one along. */
  function Stretch(stored: Option<real>, p: Period, resumed: bool, own: Option<real>, cfg: Config): Times {
    var startedAt := if stored.Some? then stored.value else p.runningAt;
    var known := if resumed then stored else None;
    Times(startedAt, MainDeadlineOf(p.deadlineAt, own, cfg), StopInstant(p.armedAt, known, own, cfg))
  }

  function StopInstant(now: real, startedAt: Option<real>, own: Option<real>, cfg: Config): Option<real> {
    match Allowed(own, cfg)
    case None => None
    case Some(t) =>
      Some(now + if startedAt.Some? then Max(t * 1000.0 - (now - startedAt.value), 0.0) else t * 1000.0)
  }

  function Stretches(stored: Option<real>, periods: seq<Period>, resumed: bool, own: Option<real>, cfg: Config): (r: seq<Times>)
    ensures |r| == |periods|
    decreases |periods|
  {
    if periods == [] then []
    else
      var t := Stretch(stored, periods[0], resumed, own, cfg);
      [t] + Stretches(Some(t.startedAt), periods[1..], true, own, cfg)
  }

  lemma {:induction false} ResumedStretch(startedAt: real, periods: seq<Period>, own: Option<real>, cfg: Config, i: nat)
    requires i < |periods|
    ensures var t := Stretches(Some(startedAt), periods, true, own, cfg)[i];
      && t.startedAt == startedAt
      && t.stopAt == match Allowed(own, cfg)
           case None => None
           case Some(limit) => Some(Max(periods[i].armedAt, startedAt + limit * 1000.0))
    decreases |periods|
  {
    if i > 0 {
      ResumedStretch(startedAt, periods[1..], own, cfg, i - 1);
    }
  }

  /**
   However often an execution is suspended, each time it resumes it is stopped at the first start plus
   the timeout, or at once when that has passed; and its start time stays the first one.
   */
  lemma SuspensionNeverMovesTheLimit(stored: Option<real>, periods: seq<Period>, own: Option<real>, cfg: Config, i: nat)
    requires 0 < i < |periods|
    ensures var all := Stretches(stored, periods, false, own, cfg);
      var first := all[0].startedAt;
      && first == (if stored.Some? then stored.value else periods[0].runningAt)
      && all[i].startedAt == first
      && all[i].stopAt == match Allowed(own, cfg)
           case None => None
           case Some(limit) => Some(Max(periods[i].armedAt, first + limit * 1000.0))
  {
    var t := Stretch(stored, periods[0], false, own, cfg);
    ResumedStretch(t.startedAt, periods[1..], own, cfg, i - 1);
  }

  /**
   The soft deadline does start anew: in the first stretch it comes no later than the stop, in a resumed one
   it comes before the stop only if the whole timeout passes while the execution is being set up.
   */
  lemma SoftDeadlineAndStop(stored: Option<real>, periods: seq<Period>, own: Option<real>, cfg: Config, i: nat)
    requires i < |periods| && Allowed(own, cfg).Some?
    requires forall j | 0 <= j < |periods| :: InOrder(periods[j])
    requires forall j, k | 0 <= j < k < |periods| :: periods[j].armedAt <= periods[k].deadlineAt
    requires stored.Some? ==> stored.value <= periods[0].runningAt
    ensures var t := Stretches(stored, periods, false, own, cfg)[i];
      var limit := Allowed(own, cfg).value * 1000.0;
      && t.softAt == Some(periods[i].deadlineAt + limit) && t.stopAt.Some?
      && (i == 0 ==> t.softAt.value <= t.stopAt.value)
      && (i > 0 ==> (t.softAt.value < t.stopAt.value <==> periods[i].deadlineAt + limit < periods[i].armedAt))
  {
    SoftOf(stored, periods, false, own, cfg, i);
    if i > 0 {
      SuspensionNeverMovesTheLimit(stored, periods, own, cfg, i);
      assert periods[0].runningAt <= periods[0].armedAt <= periods[i].deadlineAt;
    }
  }

  lemma {:induction false} SoftOf(stored: Option<real>, periods: seq<Period>, resumed: bool, own: Option<real>, cfg: Config, i: nat)
    requires i < |periods|
    ensures Stretches(stored, periods, resumed, own, cfg)[i].softAt == MainDeadlineOf(periods[i].deadlineAt, own, cfg)
    decreases |periods|
  {
    if i > 0 {
      SoftOf(Some(Stretch(stored, periods[0], resumed, own, cfg).startedAt), periods[1..], true, own, cfg, i - 1);
    }
  }

  /**
   The first stretch, from the timeouts themselves: the stop comes one timeout after the timer was armed, whatever start
   time is stored, and there is none if the timeout or the maximum is not positive.
   */
  lemma FirstStop(stored: Option<real>, periods: seq<Period>, own: Option<real>, cfg: Config)
    requires periods != []
    ensures var first := Stretches(stored, periods, false, own, cfg)[0];
      var wanted := if own.Some? then own.value else cfg.timeout;
      && first.stopAt ==
           (if wanted <= 0.0 || cfg.maxTimeout <= 0.0 then None
            else Some(periods[0].armedAt + 1000.0 * if wanted <= cfg.maxTimeout then wanted else cfg.maxTimeout))
      && first.startedAt == (if stored.Some? then stored.value else periods[0].runningAt)
  {
  }

  /** A sub-workflow's own deadline, from the timeouts themselves; its maximum counts only if it is positive. */
  lemma SubDeadlineCounts(start: real, own: Option<real>, cfg: Config)
    ensures var wanted := if own.Some? then own.value else cfg.timeout;
      SubDeadline(start, own, cfg) ==
        if wanted <= 0.0 then None
        else if cfg.maxTimeout > 0.0 && cfg.maxTimeout < wanted then Some(start + 1000.0 * cfg.maxTimeout)
        else Some(start + 1000.0 * wanted)
  {
  }

  // ---------- the steps of `runMainProcess` ----------

  class Execution {
    /** The row's column. */
    var startedAt: Option<real>
    var softAt: Option<real>
    var stopAt: Option<real>

    constructor ()
      ensures startedAt == None && softAt == None && stopAt == None
    {
      startedAt, softAt, stopAt := None, None, None;
    }

    /** `data.startedAt` is what `WaitTracker` read before; a first run has none. */
    method RunMainProcess(p: Period, resumed: bool, own: Option<real>, cfg: Config)
      modifies this
      ensures startedAt.Some?
      ensures Times(startedAt.value, softAt, stopAt) == Stretch(old(startedAt), p, resumed, own, cfg)
    {
      var dataStartedAt := if resumed then startedAt else None;
      var workflowTimeout: real;
      workflowTimeout, softAt := MainDeadline(p.deadlineAt, own, cfg);
      startedAt := Some(if startedAt.Some? then startedAt.value else p.runningAt);
      stopAt := None;
      if workflowTimeout > 0.0 {
        var timeout := Min(workflowTimeout, cfg.maxTimeout) * 1000.0;
        if dataStartedAt.Some? {
          timeout := Max(timeout - (p.armedAt - dataStartedAt.value), 0.0);
        }
        if timeout == 0.0 {
          stopAt := Some(p.armedAt);
        } else {
          stopAt := Some(p.armedAt + timeout);
        }
      }
    }
  }
}
