/**
 Registering the webhooks of a workflow (`addWebhooks`, `storeWebhook`, `clearWebhooks`): one table
 keyed by path and method is shared by all workflows, every step can fail, and the other workflows
 go on registering and removing their own rows in between.
 */
module Webhooks {
  import opened Wrappers

  /** The columns `webhookPath` and `method`, the primary key. */
  type Key = (string, string)

  datatype Row = Row(workflowId: string, node: string)

  type Rows = map<Key, Row>

  /** A webhook of the workflow with the id of its node. */
  datatype Hook = Hook(node: string, nodeId: string, path: string, httpMethod: string)

  datatype Activation = Init | Create | Update | Activate | Manual | LeadershipChange

  /** `QueryFailed` is the database's, `PathTaken` says that the path is another workflow's. */
  datatype Error = QueryFailed | PathTaken(node: string) | Other(message: string)

  // ---------- other workflows ----------

  /** Another workflow writes or removes a row. */
  datatype Change = Change(key: Key, row: Option<Row>)

  function WithChange(rows: Rows, c: Change): Rows {
    if c.row.Some? then rows[c.key := c.row.value] else rows - {c.key}
  }

  /** Others never touch the rows of `wf` and never write rows for it. */
  predicate Foreign(rows: Rows, wf: string, c: Change) {
    && (c.key in rows ==> rows[c.key].workflowId != wf)
    && (c.row.Some? ==> c.row.value.workflowId != wf)
  }

  function Meddle(rows: Rows, wf: string, changes: seq<Change>): Rows
    decreases |changes|
  {
    if changes == [] then rows
    else Meddle(if Foreign(rows, wf, changes[0]) then WithChange(rows, changes[0]) else rows, wf, changes[1..])
  }

  // ---------- one webhook ----------

  /** Drops one slash in front and one at the end. */
  function Normalised(path: string): string {
    var p := if |path| > 0 && path[0] == '/' then path[1..] else path;
    if |p| > 0 && p[|p| - 1] == '/' then p[..|p| - 1] else p
  }

  function KeyOf(h: Hook): Key {
    (Normalised(h.path), h.httpMethod)
  }

  /** What others do, and what fails, while one webhook is registered. */
  datatype Luck = Luck(
    before: seq<Change>,
    insert: Option<Error>,
    between: seq<Change>,
    find: Option<Error>,
    refresh: Option<Error>,
    create: Option<Error>
  )

  /** `storeWebhook`. */
  function Store(rows: Rows, wf: string, h: Hook, luck: Luck): (Rows, Option<Error>) {
    var key, row := KeyOf(h), Row(wf, h.node);
    var seen := Meddle(rows, wf, luck.before);
    if luck.insert.None? && key !in seen then (seen[key := row], None)
    else
      var error := if luck.insert.Some? then luck.insert.value else QueryFailed;
      var now := Meddle(seen, wf, luck.between);
      if luck.find.Some? then (now, luck.find)
      else if key !in now then (now, Some(error))
      else if now[key].workflowId != wf then (now, Some(PathTaken(h.node)))
      else if luck.refresh.Some? then (now, luck.refresh)
      else (now[key := row], None)
  }

  /** `storeWebhook`, then `createWebhookIfNotExists`. */
  function Register(rows: Rows, wf: string, h: Hook, luck: Luck): (Rows, Option<Error>) {
    var (now, error) := Store(rows, wf, h, luck);
    (now, if error.Some? then error else luck.create)
  }

  // ---------- the whole workflow ----------

  datatype Cleanup = Cleanup(before: seq<Change>, fails: bool)

  function WithoutOwn(rows: Rows, wf: string): Rows {
    map k | k in rows && rows[k].workflowId != wf :: rows[k]
  }

  function Clear(rows: Rows, wf: string, cleanup: Cleanup): Rows {
    var now := Meddle(rows, wf, cleanup.before);
    if cleanup.fails then now else WithoutOwn(now, wf)
  }

  predicate Lenient(mode: Activation) {
    mode.Init? || mode.LeadershipChange?
  }

  function Reported(h: Hook, error: Error): Error {
    if error.QueryFailed? then PathTaken(h.node) else error
  }

  function Selected(hooks: seq<Hook>, nodeIds: Option<set<string>>): seq<Hook> {
    if hooks == [] then []
    else
      (if nodeIds.None? || hooks[0].nodeId in nodeIds.value then [hooks[0]] else []) + Selected(hooks[1..], nodeIds)
  }

  /** The loop; no error means that it came to its end. */
  function AddAll(rows: Rows, wf: string, mode: Activation, hooks: seq<Hook>, luck: seq<Luck>, cleanup: Cleanup): (Rows, Option<Error>)
    requires |luck| == |hooks|
    decreases |hooks|
  {
    if hooks == [] then (rows, None)
    else
      var (now, error) := Register(rows, wf, hooks[0], luck[0]);
      if error.None? || (Lenient(mode) && error.value.QueryFailed?) then AddAll(now, wf, mode, hooks[1..], luck[1..], cleanup)
      else (Clear(now, wf, cleanup), Some(Reported(hooks[0], error.value)))
  }

  // ---------- who owns what ----------

  function RowOf(rows: Rows, key: Key): Option<Row> {
    if key in rows then Some(rows[key]) else None
  }

  function Own(rows: Rows, wf: string, key: Key): Option<Row> {
    if key in rows && rows[key].workflowId == wf then Some(rows[key]) else None
  }

  function Others(rows: Rows, wf: string, key: Key): Option<Row> {
    if key in rows && rows[key].workflowId != wf then Some(rows[key]) else None
  }

  predicate Mentions(changes: seq<Change>, key: Key) {
    exists i | 0 <= i < |changes| :: changes[i].key == key
  }

  predicate Busy(luck: Luck, key: Key) {
    Mentions(luck.before, key) || Mentions(luck.between, key)
  }

  lemma {:induction false} MeddleKeepsOwn(rows: Rows, wf: string, changes: seq<Change>, key: Key)
    ensures Own(Meddle(rows, wf, changes), wf, key) == Own(rows, wf, key)
    ensures !Mentions(changes, key) ==> RowOf(Meddle(rows, wf, changes), key) == RowOf(rows, key)
    decreases |changes|
  {
    if changes != [] {
      var next := if Foreign(rows, wf, changes[0]) then WithChange(rows, changes[0]) else rows;
      MeddleKeepsOwn(next, wf, changes[1..], key);
      if Mentions(changes[1..], key) {
        var i :| 0 <= i < |changes[1..]| && changes[1..][i].key == key;
        assert changes[i + 1].key == key;
      }
      if !Mentions(changes, key) {
        assert changes[0].key != key;
      }
    }
  }

  lemma RegisterKeepsOthers(rows: Rows, wf: string, h: Hook, luck: Luck, key: Key)
    requires !Busy(luck, key)
    ensures Others(Register(rows, wf, h, luck).0, wf, key) == Others(rows, wf, key)
  {
    var seen := Meddle(rows, wf, luck.before);
    MeddleKeepsOwn(rows, wf, luck.before, key);
    MeddleKeepsOwn(seen, wf, luck.between, key);
  }

  /**
   In every mode, whatever fails and whenever the cleanup runs: a row of another workflow changes only
   if the other workflows change it themselves.
   */
  lemma {:induction false} OthersKeepTheirRows(rows: Rows, wf: string, mode: Activation, hooks: seq<Hook>, luck: seq<Luck>, cleanup: Cleanup, key: Key)
    requires |luck| == |hooks|
    requires forall i | 0 <= i < |luck| :: !Busy(luck[i], key)
    requires !Mentions(cleanup.before, key)
    ensures Others(AddAll(rows, wf, mode, hooks, luck, cleanup).0, wf, key) == Others(rows, wf, key)
    decreases |hooks|
  {
    if hooks != [] {
      var now := Register(rows, wf, hooks[0], luck[0]).0;
      RegisterKeepsOthers(rows, wf, hooks[0], luck[0], key);
      MeddleKeepsOwn(now, wf, cleanup.before, key);
      OthersKeepTheirRows(now, wf, mode, hooks[1..], luck[1..], cleanup, key);
    }
  }

  /** The last webhook with the key decides about the row. */
  function LastFor(hooks: seq<Hook>, key: Key): Option<Hook> {
    if hooks == [] then None
    else
      var later := LastFor(hooks[1..], key);
      if later.Some? then later else if KeyOf(hooks[0]) == key then Some(hooks[0]) else None
  }

  /** Some database error is ignored on the way. */
  predicate Ignores(rows: Rows, wf: string, mode: Activation, hooks: seq<Hook>, luck: seq<Luck>)
    requires |luck| == |hooks|
    decreases |hooks|
  {
    hooks != [] &&
    var (now, error) := Register(rows, wf, hooks[0], luck[0]);
    if error.None? then Ignores(now, wf, mode, hooks[1..], luck[1..])
    else Lenient(mode) && error.value.QueryFailed?
  }

  lemma RegisterOwns(rows: Rows, wf: string, h: Hook, luck: Luck, key: Key)
    requires Register(rows, wf, h, luck).1.None?
    ensures Own(Register(rows, wf, h, luck).0, wf, key) ==
      if KeyOf(h) == key then Some(Row(wf, h.node)) else Own(rows, wf, key)
  {
    var seen := Meddle(rows, wf, luck.before);
    MeddleKeepsOwn(rows, wf, luck.before, key);
    MeddleKeepsOwn(seen, wf, luck.between, key);
  }

  /** Without ignored errors, success means that every webhook has its row, and nothing else was gained or lost. */
  lemma {:induction false} SuccessOwnsAll(rows: Rows, wf: string, mode: Activation, hooks: seq<Hook>, luck: seq<Luck>, cleanup: Cleanup, key: Key)
    requires |luck| == |hooks|
    requires AddAll(rows, wf, mode, hooks, luck, cleanup).1.None?
    requires !Ignores(rows, wf, mode, hooks, luck)
    ensures Own(AddAll(rows, wf, mode, hooks, luck, cleanup).0, wf, key) ==
      match LastFor(hooks, key) case Some(h) => Some(Row(wf, h.node)) case None => Own(rows, wf, key)
    decreases |hooks|
  {
    if hooks != [] {
      var now := Register(rows, wf, hooks[0], luck[0]).0;
      RegisterOwns(rows, wf, hooks[0], luck[0], key);
      SuccessOwnsAll(now, wf, mode, hooks[1..], luck[1..], cleanup, key);
    }
  }

  /** The last webhook with the key that `storeWebhook` accepted. */
  function LastStored(rows: Rows, wf: string, hooks: seq<Hook>, luck: seq<Luck>, key: Key): Option<Hook>
    requires |luck| == |hooks|
    decreases |hooks|
  {
    if hooks == [] then None
    else
      var later := LastStored(Register(rows, wf, hooks[0], luck[0]).0, wf, hooks[1..], luck[1..], key);
      if later.Some? then later
      else if KeyOf(hooks[0]) == key && Store(rows, wf, hooks[0], luck[0]).1.None? then Some(hooks[0])
      else None
  }

  lemma StoreOwns(rows: Rows, wf: string, h: Hook, luck: Luck, key: Key)
    ensures Own(Store(rows, wf, h, luck).0, wf, key) ==
      if KeyOf(h) == key && Store(rows, wf, h, luck).1.None? then Some(Row(wf, h.node)) else Own(rows, wf, key)
  {
    var seen := Meddle(rows, wf, luck.before);
    MeddleKeepsOwn(rows, wf, luck.before, key);
    MeddleKeepsOwn(seen, wf, luck.between, key);
  }

  /**
   In every mode, whatever is ignored: once the loop has come to its end, a key has the row of the last
   webhook that was stored under it, and otherwise the row that it had before.
   */
  lemma {:induction false} SuccessOwnsWhatWasStored(rows: Rows, wf: string, mode: Activation, hooks: seq<Hook>, luck: seq<Luck>, cleanup: Cleanup, key: Key)
    requires |luck| == |hooks|
    requires AddAll(rows, wf, mode, hooks, luck, cleanup).1.None?
    ensures Own(AddAll(rows, wf, mode, hooks, luck, cleanup).0, wf, key) ==
      match LastStored(rows, wf, hooks, luck, key) case Some(h) => Some(Row(wf, h.node)) case None => Own(rows, wf, key)
    decreases |hooks|
  {
    if hooks != [] {
      var now := Register(rows, wf, hooks[0], luck[0]).0;
      StoreOwns(rows, wf, hooks[0], luck[0], key);
      SuccessOwnsWhatWasStored(now, wf, mode, hooks[1..], luck[1..], cleanup, key);
    }
  }

  lemma {:induction false} StrictModesIgnoreNothing(rows: Rows, wf: string, mode: Activation, hooks: seq<Hook>, luck: seq<Luck>)
    requires |luck| == |hooks| && !Lenient(mode)
    ensures !Ignores(rows, wf, mode, hooks, luck)
    decreases |hooks|
  {
    if hooks != [] {
      StrictModesIgnoreNothing(Register(rows, wf, hooks[0], luck[0]).0, wf, mode, hooks[1..], luck[1..]);
    }
  }

  lemma {:induction false} LastForIsOneOfThem(hooks: seq<Hook>, j: nat)
    requires j < |hooks|
    ensures var last := LastFor(hooks, KeyOf(hooks[j]));
      last.Some? && last.value in hooks && KeyOf(last.value) == KeyOf(hooks[j])
    decreases |hooks|
  {
    if LastFor(hooks[1..], KeyOf(hooks[j])).Some? {
      LastForIsLater(hooks[1..], KeyOf(hooks[j]));
    } else if j > 0 {
      LastForIsOneOfThem(hooks[1..], j - 1);
    }
  }

  lemma {:induction false} LastForIsLater(hooks: seq<Hook>, key: Key)
    requires LastFor(hooks, key).Some?
    ensures LastFor(hooks, key).value in hooks && KeyOf(LastFor(hooks, key).value) == key
    decreases |hooks|
  {
    if LastFor(hooks[1..], key).Some? {
      LastForIsLater(hooks[1..], key);
    }
  }

  lemma {:induction false} ThrownAfterCleanup(rows: Rows, wf: string, mode: Activation, hooks: seq<Hook>, luck: seq<Luck>, cleanup: Cleanup, key: Key)
    requires |luck| == |hooks|
    requires AddAll(rows, wf, mode, hooks, luck, cleanup).1.Some? && !cleanup.fails
    ensures Own(AddAll(rows, wf, mode, hooks, luck, cleanup).0, wf, key).None?
    decreases |hooks|
  {
    var (now, error) := Register(rows, wf, hooks[0], luck[0]);
    if error.None? || (Lenient(mode) && error.value.QueryFailed?) {
      ThrownAfterCleanup(now, wf, mode, hooks[1..], luck[1..], cleanup, key);
    }
  }

  // ---------- addWebhooks ----------

  /** What the caller sees: `false` without webhooks, `true`, or an error. */
  function Add(rows: Rows, wf: string, mode: Activation, hooks: seq<Hook>, nodeIds: Option<set<string>>, luck: seq<Luck>, cleanup: Cleanup): (Rows, Result<bool, Error>)
    requires |luck| == |Selected(hooks, nodeIds)|
  {
    var chosen := Selected(hooks, nodeIds);
    if chosen == [] then (rows, Ok(false))
    else
      var (now, error) := AddAll(rows, wf, mode, chosen, luck, cleanup);
      (now, if error.Some? then Err(error.value) else Ok(true))
  }

  lemma {:induction false} SelectedExactly(hooks: seq<Hook>, nodeIds: Option<set<string>>, h: Hook)
    ensures h in Selected(hooks, nodeIds) <==> h in hooks && (nodeIds.None? || h.nodeId in nodeIds.value)
    decreases |hooks|
  {
    if hooks != [] {
      SelectedExactly(hooks[1..], nodeIds, h);
      assert hooks == [hooks[0]] + hooks[1..];
    }
  }

  /**
   All or nothing. `false` means that nothing was selected and nothing changed; `true` outside of the
   two lenient modes means that every selected path and method is owned by the workflow; an error after a
   successful cleanup means that the workflow owns nothing at all.
   */
  lemma AllOrNothing(rows: Rows, wf: string, mode: Activation, hooks: seq<Hook>, nodeIds: Option<set<string>>, luck: seq<Luck>, cleanup: Cleanup)
    requires |luck| == |Selected(hooks, nodeIds)|
    ensures var (now, r) := Add(rows, wf, mode, hooks, nodeIds, luck, cleanup);
      && (r == Ok(false) <==> forall h | h in hooks :: nodeIds.Some? && h.nodeId !in nodeIds.value)
      && (r == Ok(false) ==> now == rows)
      && (r == Ok(true) && !Lenient(mode) ==>
            forall h | h in hooks && (nodeIds.None? || h.nodeId in nodeIds.value) :: Own(now, wf, KeyOf(h)).Some?)
      && (r.Err? && !cleanup.fails ==> forall key | key in now :: now[key].workflowId != wf)
  {
    var chosen := Selected(hooks, nodeIds);
    var (now, r) := Add(rows, wf, mode, hooks, nodeIds, luck, cleanup);
    if chosen == [] {
      forall h | h in hooks ensures nodeIds.Some? && h.nodeId !in nodeIds.value {
        SelectedExactly(hooks, nodeIds, h);
      }
    } else {
      SelectedExactly(hooks, nodeIds, chosen[0]);
    }
    if r == Ok(true) && !Lenient(mode) {
      StrictModesIgnoreNothing(rows, wf, mode, chosen, luck);
      forall h | h in hooks && (nodeIds.None? || h.nodeId in nodeIds.value) ensures Own(now, wf, KeyOf(h)).Some? {
        SelectedExactly(hooks, nodeIds, h);
        var j :| 0 <= j < |chosen| && chosen[j] == h;
        LastForIsOneOfThem(chosen, j);
        SuccessOwnsAll(rows, wf, mode, chosen, luck, cleanup, KeyOf(h));
      }
    }
    if r.Err? && !cleanup.fails {
      forall key | key in now ensures now[key].workflowId != wf {
        ThrownAfterCleanup(rows, wf, mode, chosen, luck, cleanup, key);
      }
    }
  }

  /** The key was owned before, or a webhook was stored under it. */
  predicate OwnedOrStored(rows: Rows, wf: string, hooks: seq<Hook>, luck: seq<Luck>, key: Key)
    requires |luck| == |hooks|
  {
    Own(rows, wf, key).Some? || LastStored(rows, wf, hooks, luck, key).Some?
  }

  /**
   What `true` is worth in any mode, the two lenient ones included: every selected path and method is owned
   exactly when each of them was owned before or one of its webhooks was stored.
   */
  lemma TrueOwnsExactly(rows: Rows, wf: string, mode: Activation, hooks: seq<Hook>, nodeIds: Option<set<string>>, luck: seq<Luck>, cleanup: Cleanup)
    requires |luck| == |Selected(hooks, nodeIds)|
    requires Add(rows, wf, mode, hooks, nodeIds, luck, cleanup).1 == Ok(true)
    ensures var now := Add(rows, wf, mode, hooks, nodeIds, luck, cleanup).0;
      var chosen := Selected(hooks, nodeIds);
      && (forall h | h in chosen :: Own(now, wf, KeyOf(h)).Some? <==> OwnedOrStored(rows, wf, chosen, luck, KeyOf(h)))
      && ((forall h | h in chosen :: Own(now, wf, KeyOf(h)).Some?) <==>
          forall h | h in chosen :: OwnedOrStored(rows, wf, chosen, luck, KeyOf(h)))
  {
    var now := Add(rows, wf, mode, hooks, nodeIds, luck, cleanup).0;
    var chosen := Selected(hooks, nodeIds);
    forall h | h in chosen ensures Own(now, wf, KeyOf(h)).Some? <==> OwnedOrStored(rows, wf, chosen, luck, KeyOf(h)) {
      SuccessOwnsWhatWasStored(rows, wf, mode, chosen, luck, cleanup, KeyOf(h));
    }
  }

  /** `path` is `m` with at most one slash added in front and at most one at the end. */
  predicate Slashed(path: string, m: string) {
    var starts, ends := m != "" && m[0] == '/', m != "" && m[|m| - 1] == '/';
    || (path == m && !starts && !ends)
    || (path == "/" + m && !ends)
    || (path == m + "/" && !starts)
    || path == "/" + m + "/"
  }

  /** Normalising takes exactly these slashes away. */
  lemma NormalisedExactly(path: string, m: string)
    ensures Normalised(path) == m <==> Slashed(path, m)
  {
    if Slashed(path, m) {
      assert ("/" + m)[1..] == m;
      assert (m + "/")[..|m|] == m;
      assert ("/" + m + "/")[1..] == m + "/";
    }
    if Normalised(path) == m {
      var p := if |path| > 0 && path[0] == '/' then path[1..] else path;
      assert path == p || path == "/" + p;
      assert p == m || p == m + "/";
    }
  }

  /**
   After `true` outside of the two lenient modes, every selected webhook has its row under its method and its path
   without one slash at either end.
   */
  lemma SelectedPathsAreOwned(rows: Rows, wf: string, mode: Activation, hooks: seq<Hook>, nodeIds: Option<set<string>>, luck: seq<Luck>, cleanup: Cleanup, h: Hook, path: string)
    requires |luck| == |Selected(hooks, nodeIds)|
    requires Add(rows, wf, mode, hooks, nodeIds, luck, cleanup).1 == Ok(true)
    requires mode != Init && mode != LeadershipChange
    requires h in hooks && (nodeIds.None? || h.nodeId in nodeIds.value) && Slashed(h.path, path)
    ensures var now := Add(rows, wf, mode, hooks, nodeIds, luck, cleanup).0;
      (path, h.httpMethod) in now && now[(path, h.httpMethod)].workflowId == wf
  {
    AllOrNothing(rows, wf, mode, hooks, nodeIds, luck, cleanup);
    NormalisedExactly(h.path, path);
    assert Own(Add(rows, wf, mode, hooks, nodeIds, luck, cleanup).0, wf, KeyOf(h)).Some?;
  }

  // ---------- which errors are thrown ----------

  /**
   What comes of one webhook when nobody interferes. Its insert fails by itself or because the key is taken; then the
   row that is found decides: none, and the insert's own error counts; another workflow's, and the path is taken; its
   own, and it is refreshed. Only after that does node code create the webhook outside, and may fail.
   */
  lemma OneWebhookExactly(rows: Rows, wf: string, h: Hook, luck: Luck, path: string)
    requires luck.before == [] && luck.between == [] && Slashed(h.path, path)
    ensures var key := (path, h.httpMethod);
      var (now, error) := Register(rows, wf, h, luck);
      var inserted := luck.insert.None? && key !in rows;
      var own := key in rows && rows[key].workflowId == wf;
      if inserted || (luck.find.None? && own && luck.refresh.None?) then now == rows[key := Row(wf, h.node)] && error == luck.create
      else
        now == rows && error ==
          if luck.find.Some? then luck.find
          else if key !in rows then luck.insert
          else if !own then Some(PathTaken(h.node))
          else luck.refresh
  {
    NormalisedExactly(h.path, path);
  }

  /**
   The first failing webhook decides: on start-up and on a change of leadership a failed query is passed over and the
   others go on; any other failure clears the workflow's rows, ends the loop and is thrown, a failed query as a taken path.
   */
  lemma FirstFailureDecides(rows: Rows, wf: string, mode: Activation, h: Hook, rest: seq<Hook>, luck: Luck, more: seq<Luck>, cleanup: Cleanup)
    requires |more| == |rest|
    ensures var (now, error) := Register(rows, wf, h, luck);
      var passes := error.None? || (error.value.QueryFailed? && (mode == Init || mode == LeadershipChange));
      AddAll(rows, wf, mode, [h] + rest, [luck] + more, cleanup) ==
        if passes then AddAll(now, wf, mode, rest, more, cleanup)
        else (Clear(now, wf, cleanup), Some(if error.value.QueryFailed? then PathTaken(h.node) else error.value))
  {
    assert ([h] + rest)[1..] == rest && ([luck] + more)[1..] == more;
  }

  /** The cleanup removes every row of the workflow and no other, or nothing if it fails. */
  lemma ClearedExactly(rows: Rows, wf: string, fails: bool, key: Key)
    ensures var now := Clear(rows, wf, Cleanup([], fails));
      && (key in now <==> key in rows && (fails || rows[key].workflowId != wf))
      && (key in now ==> now[key] == rows[key])
  {
  }

  // ---------- without faults and without others ----------

  predicate Calm(luck: Luck) {
    && luck.before == [] && luck.between == []
    && luck.insert.None? && luck.find.None? && luck.refresh.None? && luck.create.None?
  }

  predicate Taken(rows: Rows, wf: string, h: Hook) {
    KeyOf(h) in rows && rows[KeyOf(h)].workflowId != wf
  }

  function FirstTaken(rows: Rows, wf: string, hooks: seq<Hook>): Option<Hook> {
    if hooks == [] then None
    else if Taken(rows, wf, hooks[0]) then Some(hooks[0])
    else FirstTaken(rows, wf, hooks[1..])
  }

  lemma {:induction false} FirstTakenDependsOnOthers(rows: Rows, now: Rows, wf: string, hooks: seq<Hook>)
    requires forall h | h in hooks :: Taken(rows, wf, h) == Taken(now, wf, h)
    ensures FirstTaken(rows, wf, hooks) == FirstTaken(now, wf, hooks)
    decreases |hooks|
  {
    if hooks != [] {
      FirstTakenDependsOnOthers(rows, now, wf, hooks[1..]);
    }
  }

  /**
   In every mode: registration goes through exactly when no selected path is another workflow's, and
   otherwise the first such webhook is the one reported.
   */
  lemma {:induction false} CalmFailsExactlyWhenTaken(rows: Rows, wf: string, mode: Activation, hooks: seq<Hook>, luck: seq<Luck>, cleanup: Cleanup)
    requires |luck| == |hooks|
    requires forall i | 0 <= i < |luck| :: Calm(luck[i])
    ensures AddAll(rows, wf, mode, hooks, luck, cleanup).1 ==
      match FirstTaken(rows, wf, hooks) case Some(h) => Some(PathTaken(h.node)) case None => None
    decreases |hooks|
  {
    if hooks != [] {
      var (now, error) := Register(rows, wf, hooks[0], luck[0]);
      assert error.Some? <==> Taken(rows, wf, hooks[0]);
      CalmFailsExactlyWhenTaken(now, wf, mode, hooks[1..], luck[1..], cleanup);
      if error.None? {
        FirstTakenDependsOnOthers(rows, now, wf, hooks[1..]);
      }
    }
  }

  /** On start-up a failing insert is ignored: the call says `true`, and the path is not registered. */
  lemma StartUpCanMissAWebhook()
    ensures var h := Hook("hook", "id", "path", "GET");
      var luck := Luck([], Some(QueryFailed), [], None, None, None);
      Add(map[], "wf", Init, [h], None, [luck], Cleanup([], false)) == (map[], Ok(true))
  {
    var h := Hook("hook", "id", "path", "GET");
    var luck := Luck([], Some(QueryFailed), [], None, None, None);
    assert Selected([h], None) == [h] + Selected([], None);
    assert Store(map[], "wf", h, luck) == (map[], Some(QueryFailed));
    assert [h][1..] == [] && [luck][1..] == [];
    assert AddAll(map[], "wf", Init, [], [], Cleanup([], false)) == (map[], None);
  }

  // ---------- the table ----------

  class WebhookTable {
    var rows: Rows

    constructor ()
      ensures rows == map[]
    {
      rows := map[];
    }

    method StoreWebhook(wf: string, h: Hook, luck: Luck) returns (error: Option<Error>)
      modifies this
      ensures (rows, error) == Store(old(rows), wf, h, luck)
    {
      var key := KeyOf(h);
      rows := Meddle(rows, wf, luck.before);
      if luck.insert.None? && key !in rows {
        rows := rows[key := Row(wf, h.node)];
        return None;
      }
      error := Some(if luck.insert.Some? then luck.insert.value else QueryFailed);
      rows := Meddle(rows, wf, luck.between);
      if luck.find.Some? {
        return luck.find;
      }
      if key !in rows {
        return;
      }
      if rows[key].workflowId != wf {
        return Some(PathTaken(h.node));
      }
      if luck.refresh.Some? {
        return luck.refresh;
      }
      rows := rows[key := Row(wf, h.node)];
      error := None;
    }

    /** Deletes the rows of the workflow one by one. */
    method ClearWebhooks(wf: string, cleanup: Cleanup)
      modifies this
      ensures rows == Clear(old(rows), wf, cleanup)
    {
      rows := Meddle(rows, wf, cleanup.before);
      if cleanup.fails {
        return;
      }
      ghost var found := rows;
      var todo := set k | k in rows && rows[k].workflowId == wf;
      while todo != {}
        invariant forall k | k in todo :: k in found && found[k].workflowId == wf
        invariant forall k :: k in rows <==> k in found && (found[k].workflowId != wf || k in todo)
        invariant forall k | k in rows :: rows[k] == found[k]
        decreases |todo|
      {
        var k :| k in todo;
        rows := rows - {k};
        todo := todo - {k};
      }
      assert rows == WithoutOwn(found, wf);
    }

    /** `storeWebhook`, then `createWebhookIfNotExists`, which runs node code. */
    method RegisterWebhook(wf: string, h: Hook, luck: Luck) returns (error: Option<Error>)
      modifies this
      ensures (rows, error) == Register(old(rows), wf, h, luck)
    {
      error := StoreWebhook(wf, h, luck);
      if error.None? {
        error := luck.create;
      }
    }

    method AddWebhooks(wf: string, mode: Activation, hooks: seq<Hook>, nodeIds: Option<set<string>>, luck: seq<Luck>, cleanup: Cleanup)
      returns (r: Result<bool, Error>)
      requires |luck| == |Selected(hooks, nodeIds)|
      modifies this
      ensures (rows, r) == Add(old(rows), wf, mode, hooks, nodeIds, luck, cleanup)
    {
      var webhooks := Selected(hooks, nodeIds);
      if |webhooks| == 0 {
        return Ok(false);
      }
      ghost var whole := AddAll(rows, wf, mode, webhooks, luck, cleanup);
      assert webhooks[0..] == webhooks && luck[0..] == luck;
      for i := 0 to |webhooks|
        invariant whole == AddAll(rows, wf, mode, webhooks[i..], luck[i..], cleanup)
      {
        AddAllNext(rows, wf, mode, webhooks, luck, cleanup, i);
        var error := RegisterWebhook(wf, webhooks[i], luck[i]);
        if error.Some? && !(Lenient(mode) && error.value.QueryFailed?) {
          ClearWebhooks(wf, cleanup);
          return Err(Reported(webhooks[i], error.value));
        }
      }
      r := Ok(true);
    }
  }

  lemma AddAllNext(rows: Rows, wf: string, mode: Activation, hooks: seq<Hook>, luck: seq<Luck>, cleanup: Cleanup, i: nat)
    requires |luck| == |hooks| && i < |hooks|
    ensures var (now, error) := Register(rows, wf, hooks[i], luck[i]);
      AddAll(rows, wf, mode, hooks[i..], luck[i..], cleanup) ==
        if error.None? || (Lenient(mode) && error.value.QueryFailed?) then AddAll(now, wf, mode, hooks[i + 1..], luck[i + 1..], cleanup)
        else (Clear(now, wf, cleanup), Some(Reported(hooks[i], error.value)))
  {
    assert hooks[i..][1..] == hooks[i + 1..] && luck[i..][1..] == luck[i + 1..];
  }
}
