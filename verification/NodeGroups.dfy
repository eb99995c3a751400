/**
 The basic checks of `validateWorkflowNodeGroups`: unique group ids and names, known nodes, and no
 node in two groups, found out by one walk with two sets and a map.
 */
module NodeGroups {
  import opened Wrappers

  datatype Group = Group(id: string, name: string, nodeIds: seq<string>)

  datatype Problem =
    | DuplicateId(id: string)
    | DuplicateName(name: string)
    | UnknownNode(group: string, nodeId: string)
    | SharedNode(nodeId: string, first: string, second: string)

  // ---------- the rules ----------

  /** A mention of a node: the walk meets these in order. */
  datatype Mention = Mention(nodeId: string, group: string)

  function MentionsOf(g: Group): (r: seq<Mention>)
    ensures |r| == |g.nodeIds|
    ensures forall k | 0 <= k < |r| :: r[k] == Mention(g.nodeIds[k], g.name)
  {
    seq(|g.nodeIds|, k requires 0 <= k < |g.nodeIds| => Mention(g.nodeIds[k], g.name))
  }

  function Mentions(groups: seq<Group>): seq<Mention> {
    if groups == [] then []
    else Mentions(groups[..|groups| - 1]) + MentionsOf(groups[|groups| - 1])
  }

  predicate UniqueIds(groups: seq<Group>) {
    forall i, j | 0 <= i < j < |groups| :: groups[i].id != groups[j].id
  }

  predicate UniqueNames(groups: seq<Group>) {
    forall i, j | 0 <= i < j < |groups| :: groups[i].name != groups[j].name
  }

  /** A node without an id cannot be referenced. */
  predicate Known(nodes: seq<string>, ms: seq<Mention>) {
    forall p | 0 <= p < |ms| :: ms[p].nodeId in nodes && ms[p].nodeId != ""
  }

  /** A node is mentioned again only after mentions under the empty group name. */
  predicate Repeatable(ms: seq<Mention>) {
    forall p, q | 0 <= p < q < |ms| :: ms[p].nodeId == ms[q].nodeId ==> ms[p].group == ""
  }

  predicate Accepted(nodes: seq<string>, groups: seq<Group>) {
    && UniqueIds(groups) && UniqueNames(groups)
    && Known(nodes, Mentions(groups)) && Repeatable(Mentions(groups))
  }

  /** The problem is there. */
  ghost predicate Present(nodes: seq<string>, groups: seq<Group>, p: Problem) {
    match p
    case DuplicateId(id) => exists i, j :: 0 <= i < j < |groups| && groups[i].id == groups[j].id == id
    case DuplicateName(name) => exists i, j :: 0 <= i < j < |groups| && groups[i].name == groups[j].name == name
    case UnknownNode(group, nodeId) => Mention(nodeId, group) in Mentions(groups) && (nodeId !in nodes || nodeId == "")
    case SharedNode(nodeId, first, second) =>
      exists i, j :: 0 <= i < j < |Mentions(groups)| && Mentions(groups)[i] == Mention(nodeId, first)
        && Mentions(groups)[j] == Mention(nodeId, second) && first != ""
  }

  // ---------- the walk ----------

  /** The group name stored for a node after the mentions `ms`. */
  function LastGroup(ms: seq<Mention>, nodeId: string): Option<string> {
    if ms == [] then None
    else if ms[|ms| - 1].nodeId == nodeId then Some(ms[|ms| - 1].group)
    else LastGroup(ms[..|ms| - 1], nodeId)
  }

  ghost predicate Stores(nodeToGroup: map<string, string>, ms: seq<Mention>) {
    forall nodeId :: LastGroup(ms, nodeId) == if nodeId in nodeToGroup then Some(nodeToGroup[nodeId]) else None
  }

  lemma {:induction false} LastGroupIsLast(ms: seq<Mention>, nodeId: string) returns (p: nat)
    requires LastGroup(ms, nodeId).Some?
    ensures p < |ms| && ms[p] == Mention(nodeId, LastGroup(ms, nodeId).value)
    ensures forall k | p < k < |ms| :: ms[k].nodeId != nodeId
    decreases |ms|
  {
    if ms[|ms| - 1].nodeId == nodeId {
      p := |ms| - 1;
    } else {
      p := LastGroupIsLast(ms[..|ms| - 1], nodeId);
    }
  }

  lemma {:induction false} NoLastGroup(ms: seq<Mention>, nodeId: string)
    requires LastGroup(ms, nodeId).None?
    ensures forall k | 0 <= k < |ms| :: ms[k].nodeId != nodeId
    decreases |ms|
  {
    if ms != [] {
      NoLastGroup(ms[..|ms| - 1], nodeId);
    }
  }

  /** Looking only at the latest mention is enough. */
  lemma RepeatableNext(ms: seq<Mention>, m: Mention)
    requires Repeatable(ms)
    requires LastGroup(ms, m.nodeId).None? || LastGroup(ms, m.nodeId) == Some("")
    ensures Repeatable(ms + [m])
  {
    if LastGroup(ms, m.nodeId).None? {
      NoLastGroup(ms, m.nodeId);
    } else {
      var last := LastGroupIsLast(ms, m.nodeId);
    }
  }

  lemma StoresNext(nodeToGroup: map<string, string>, ms: seq<Mention>, m: Mention)
    requires Stores(nodeToGroup, ms)
    ensures Stores(nodeToGroup[m.nodeId := m.group], ms + [m])
  {
    assert (ms + [m])[..|ms|] == ms;
  }

  lemma {:induction false} MentionsPrefix(groups: seq<Group>, g: nat)
    requires g <= |groups|
    ensures Mentions(groups[..g]) <= Mentions(groups)
    decreases |groups|
  {
    if g == |groups| {
      assert groups[..g] == groups;
    } else {
      var shorter := groups[..|groups| - 1];
      assert shorter[..g] == groups[..g];
      MentionsPrefix(shorter, g);
    }
  }

  /** The walk up to mention `k` of group `g`. */
  function Before(groups: seq<Group>, g: nat, k: nat): seq<Mention>
    requires g < |groups| && k <= |groups[g].nodeIds|
  {
    Mentions(groups[..g]) + MentionsOf(groups[g])[..k]
  }

  lemma BeforeIsPrefix(groups: seq<Group>, g: nat, k: nat)
    requires g < |groups| && k <= |groups[g].nodeIds|
    ensures Before(groups, g, k) <= Mentions(groups)
    ensures k < |groups[g].nodeIds| ==>
      Before(groups, g, k + 1) == Before(groups, g, k) + [Mention(groups[g].nodeIds[k], groups[g].name)]
    ensures k == |groups[g].nodeIds| ==> Before(groups, g, k) == Mentions(groups[..g + 1])
  {
    MentionsPrefix(groups, g + 1);
    assert groups[..g + 1][..g] == groups[..g];
  }

  predicate SeenIds(ids: set<string>, groups: seq<Group>) {
    && (forall i | 0 <= i < |groups| :: groups[i].id in ids)
    && (forall id | id in ids :: exists i :: 0 <= i < |groups| && groups[i].id == id)
  }

  predicate SeenNames(names: set<string>, groups: seq<Group>) {
    && (forall i | 0 <= i < |groups| :: groups[i].name in names)
    && (forall n | n in names :: exists i :: 0 <= i < |groups| && groups[i].name == n)
  }

  lemma NextId(ids: set<string>, nodes: seq<string>, groups: seq<Group>, g: nat)
    requires g < |groups| && SeenIds(ids, groups[..g]) && UniqueIds(groups[..g])
    ensures groups[g].id in ids ==> Present(nodes, groups, DuplicateId(groups[g].id))
    ensures groups[g].id !in ids ==> SeenIds(ids + {groups[g].id}, groups[..g + 1]) && UniqueIds(groups[..g + 1])
  {
    if groups[g].id in ids {
      var i :| 0 <= i < g && groups[..g][i].id == groups[g].id;
      assert groups[i].id == groups[g].id;
    } else {
      var next := groups[..g + 1];
      forall id | id in ids ensures exists i :: 0 <= i < |next| && next[i].id == id {
        var i :| 0 <= i < g && groups[..g][i].id == id;
        assert next[i].id == id;
      }
      assert next[g] == groups[g];
      forall i, j | 0 <= i < j < |next| ensures next[i].id != next[j].id {
        assert groups[..g][i].id in ids;
        assert j < g ==> groups[..g][i].id != groups[..g][j].id;
      }
    }
  }

  lemma NextName(names: set<string>, nodes: seq<string>, groups: seq<Group>, g: nat)
    requires g < |groups| && SeenNames(names, groups[..g]) && UniqueNames(groups[..g])
    ensures groups[g].name in names ==> Present(nodes, groups, DuplicateName(groups[g].name))
    ensures groups[g].name !in names ==>
      SeenNames(names + {groups[g].name}, groups[..g + 1]) && UniqueNames(groups[..g + 1])
  {
    if groups[g].name in names {
      var i :| 0 <= i < g && groups[..g][i].name == groups[g].name;
      assert groups[i].name == groups[g].name;
    } else {
      var next := groups[..g + 1];
      forall n | n in names ensures exists i :: 0 <= i < |next| && next[i].name == n {
        var i :| 0 <= i < g && groups[..g][i].name == n;
        assert next[i].name == n;
      }
      assert next[g] == groups[g];
      forall i, j | 0 <= i < j < |next| ensures next[i].name != next[j].name {
        assert groups[..g][i].name in names;
        assert j < g ==> groups[..g][i].name != groups[..g][j].name;
      }
    }
  }

  /** The mentions of one group. */
  method CheckMentions(nodes: seq<string>, groups: seq<Group>, g: nat, stored: map<string, string>)
    returns (r: Result<map<string, string>, Problem>)
    requires g < |groups|
    requires Stores(stored, Mentions(groups[..g]))
    requires Known(nodes, Mentions(groups[..g])) && Repeatable(Mentions(groups[..g]))
    ensures r.Ok? ==> Stores(r.value, Mentions(groups[..g + 1]))
    ensures r.Ok? ==> Known(nodes, Mentions(groups[..g + 1])) && Repeatable(Mentions(groups[..g + 1]))
    ensures r.Err? ==> Present(nodes, groups, r.error)
  {
    var group := groups[g];
    var nodeToGroup := stored;
    assert Before(groups, g, 0) == Mentions(groups[..g]);
    for k := 0 to |group.nodeIds|
      invariant Stores(nodeToGroup, Before(groups, g, k))
      invariant Known(nodes, Before(groups, g, k)) && Repeatable(Before(groups, g, k))
    {
      var nodeId := group.nodeIds[k];
      ghost var done, here := Before(groups, g, k), Mention(nodeId, group.name);
      BeforeIsPrefix(groups, g, k);
      BeforeIsPrefix(groups, g, k + 1);
      assert Mentions(groups)[|done|] == here;
      if nodeId !in nodes || nodeId == "" {
        return Err(UnknownNode(group.name, nodeId));
      }
      if nodeId in nodeToGroup && nodeToGroup[nodeId] != "" {
        ghost var p := LastGroupIsLast(done, nodeId);
        assert Mentions(groups)[p] == done[p];
        return Err(SharedNode(nodeId, nodeToGroup[nodeId], group.name));
      }
      RepeatableNext(done, here);
      StoresNext(nodeToGroup, done, here);
      nodeToGroup := nodeToGroup[nodeId := group.name];
    }
    BeforeIsPrefix(groups, g, |group.nodeIds|);
    r := Ok(nodeToGroup);
  }

  /** The problem is in the first group that breaks a rule. */
  ghost predicate FirstPresent(nodes: seq<string>, groups: seq<Group>, p: Problem) {
    exists g | 0 <= g < |groups| ::
      Accepted(nodes, groups[..g]) && Present(nodes, groups[..g + 1], p)
  }

  /** What the sets and the map hold after some groups. */
  datatype Seen = Seen(ids: set<string>, names: set<string>, nodeToGroup: map<string, string>)

  ghost predicate Walked(nodes: seq<string>, groups: seq<Group>, seen: Seen) {
    && Accepted(nodes, groups)
    && SeenIds(seen.ids, groups) && SeenNames(seen.names, groups)
    && Stores(seen.nodeToGroup, Mentions(groups))
  }

  /** The body of the outer loop, for the last of `groups`. */
  method CheckGroup(nodes: seq<string>, groups: seq<Group>, seen: Seen) returns (r: Result<Seen, Problem>)
    requires groups != [] && Walked(nodes, groups[..|groups| - 1], seen)
    ensures r.Ok? ==> Walked(nodes, groups, r.value)
    ensures r.Err? ==> Present(nodes, groups, r.error)
  {
    var g := |groups| - 1;
    var group := groups[g];
    assert groups[..g + 1] == groups;
    NextId(seen.ids, nodes, groups, g);
    if group.id in seen.ids {
      return Err(DuplicateId(group.id));
    }
    NextName(seen.names, nodes, groups, g);
    if group.name in seen.names {
      return Err(DuplicateName(group.name));
    }
    var next := CheckMentions(nodes, groups, g, seen.nodeToGroup);
    if next.Err? {
      return Err(next.error);
    }
    r := Ok(Seen(seen.ids + {group.id}, seen.names + {group.name}, next.value));
  }

  /** Accepts exactly the groups that follow the rules, and reports a problem of the first that does not. */
  method Validate(nodes: seq<string>, nodeGroups: Option<seq<Group>>) returns (r: Result<(), Problem>)
    ensures r.Ok? <==> nodeGroups.None? || Accepted(nodes, nodeGroups.value)
    ensures r.Err? ==> nodeGroups.Some? && FirstPresent(nodes, nodeGroups.value, r.error)
  {
    if nodeGroups.None? || nodeGroups.value == [] {
      return Ok(());
    }
    var groups := nodeGroups.value;
    var seen := Seen({}, {}, map[]);
    for g := 0 to |groups|
      invariant Walked(nodes, groups[..g], seen)
    {
      var upTo := groups[..g + 1];
      assert upTo[..g] == groups[..g];
      var next := CheckGroup(nodes, upTo, seen);
      if next.Err? {
        FirstPresentIsNotAccepted(nodes, groups, g, next.error);
        return Err(next.error);
      }
      seen := next.value;
    }
    assert groups[..|groups|] == groups;
    r := Ok(());
  }

  lemma AcceptedPrefix(nodes: seq<string>, groups: seq<Group>, g: nat)
    requires g <= |groups| && Accepted(nodes, groups)
    ensures Accepted(nodes, groups[..g])
  {
    var upTo := groups[..g];
    MentionsPrefix(groups, g);
    assert forall i | 0 <= i < |upTo| :: upTo[i] == groups[i];
    assert forall q | 0 <= q < |Mentions(upTo)| :: Mentions(upTo)[q] == Mentions(groups)[q];
  }

  lemma FirstPresentIsNotAccepted(nodes: seq<string>, groups: seq<Group>, g: nat, p: Problem)
    requires g < |groups| && Accepted(nodes, groups[..g]) && Present(nodes, groups[..g + 1], p)
    ensures !Accepted(nodes, groups) && FirstPresent(nodes, groups, p)
  {
    PresentIsNotAccepted(nodes, groups[..g + 1], p);
    if Accepted(nodes, groups) {
      AcceptedPrefix(nodes, groups, g + 1);
    }
  }

  lemma PresentIsNotAccepted(nodes: seq<string>, groups: seq<Group>, p: Problem)
    requires Present(nodes, groups, p)
    ensures !Accepted(nodes, groups)
  {
    if p.UnknownNode? {
      var k :| 0 <= k < |Mentions(groups)| && Mentions(groups)[k] == Mention(p.nodeId, p.group);
    }
  }

  // ---------- what the documentation promises ----------

  /** Each node belongs to at most one group, and is listed there once. */
  predicate OneGroupEach(groups: seq<Group>) {
    && (forall i | 0 <= i < |groups| :: Distinct(groups[i].nodeIds))
    && (forall i, j | 0 <= i < j < |groups| :: Disjoint(groups[i].nodeIds, groups[j].nodeIds))
  }

  predicate Distinct(s: seq<string>) {
    forall p, q | 0 <= p < q < |s| :: s[p] != s[q]
  }

  predicate Disjoint(a: seq<string>, b: seq<string>) {
    forall x | x in a :: x !in b
  }

  lemma {:induction false} MentionedMeansListed(groups: seq<Group>, p: nat) returns (i: nat)
    requires p < |Mentions(groups)|
    ensures i < |groups| && Mentions(groups)[p].nodeId in groups[i].nodeIds
    ensures Mentions(groups)[p].group == groups[i].name
    decreases |groups|
  {
    var shorter := groups[..|groups| - 1];
    if p < |Mentions(shorter)| {
      i := MentionedMeansListed(shorter, p);
    } else {
      i := |groups| - 1;
    }
  }

  lemma {:induction false} ListedMeansMentioned(groups: seq<Group>, i: nat, nodeId: string)
    requires i < |groups| && nodeId in groups[i].nodeIds
    ensures Mention(nodeId, groups[i].name) in Mentions(groups)
    decreases |groups|
  {
    var n := |groups| - 1;
    if i < n {
      ListedMeansMentioned(groups[..n], i, nodeId);
    } else {
      var k :| 0 <= k < |groups[n].nodeIds| && groups[n].nodeIds[k] == nodeId;
      assert MentionsOf(groups[n])[k] == Mention(nodeId, groups[n].name);
    }
  }

  /** Group names of mentions are group names. */
  lemma {:induction false} RepeatableIsOneGroupEach(groups: seq<Group>)
    requires forall i | 0 <= i < |groups| :: groups[i].name != ""
    ensures Repeatable(Mentions(groups)) <==> OneGroupEach(groups)
    decreases |groups|
  {
    if groups != [] {
      var n := |groups| - 1;
      var shorter, last := groups[..n], groups[n];
      RepeatableIsOneGroupEach(shorter);
      var a, b := Mentions(shorter), MentionsOf(last);
      if Repeatable(Mentions(groups)) {
        RepeatableSplits(a, b);
        forall p, q | 0 <= p < q < |last.nodeIds| ensures last.nodeIds[p] != last.nodeIds[q] {
          assert b[p].nodeId == last.nodeIds[p] && b[q].nodeId == last.nodeIds[q];
        }
        forall i | 0 <= i < n ensures Disjoint(groups[i].nodeIds, last.nodeIds) {
          forall x | x in groups[i].nodeIds ensures x !in last.nodeIds {
            ListedMeansMentioned(shorter, i, x);
            NotIn(a, b, last, x, groups[i].name);
          }
        }
      }
      if OneGroupEach(groups) {
        forall i, j | 0 <= i < j < |shorter| ensures Disjoint(shorter[i].nodeIds, shorter[j].nodeIds) {
          assert shorter[i] == groups[i] && shorter[j] == groups[j];
        }
        forall p, q | 0 <= p < q < |a + b| ensures (a + b)[p].nodeId != (a + b)[q].nodeId || (a + b)[p].group == "" {
          if p < |a| <= q {
            var i := MentionedMeansListed(shorter, p);
            assert Disjoint(groups[i].nodeIds, last.nodeIds);
          } else if |a| <= p {
            assert Distinct(last.nodeIds);
          }
        }
      }
    }
  }

  lemma RepeatableSplits(a: seq<Mention>, b: seq<Mention>)
    requires Repeatable(a + b)
    ensures Repeatable(a) && Repeatable(b)
    ensures forall p, q | 0 <= p < |a| && 0 <= q < |b| :: a[p].nodeId == b[q].nodeId ==> a[p].group == ""
  {
    forall p, q | 0 <= p < q < |a| ensures a[p].nodeId == a[q].nodeId ==> a[p].group == "" {
      assert (a + b)[p] == a[p] && (a + b)[q] == a[q];
    }
    forall p, q | 0 <= p < q < |b| ensures b[p].nodeId == b[q].nodeId ==> b[p].group == "" {
      assert (a + b)[|a| + p] == b[p] && (a + b)[|a| + q] == b[q];
    }
    forall p, q | 0 <= p < |a| && 0 <= q < |b| ensures a[p].nodeId == b[q].nodeId ==> a[p].group == "" {
      assert (a + b)[p] == a[p] && (a + b)[|a| + q] == b[q];
    }
  }

  lemma NotIn(a: seq<Mention>, b: seq<Mention>, last: Group, x: string, name: string)
    requires b == MentionsOf(last) && Mention(x, name) in a && name != ""
    requires forall p, q | 0 <= p < |a| && 0 <= q < |b| :: a[p].nodeId == b[q].nodeId ==> a[p].group == ""
    ensures x !in last.nodeIds
  {
    var p :| 0 <= p < |a| && a[p] == Mention(x, name);
    forall q | 0 <= q < |last.nodeIds| ensures last.nodeIds[q] != x {
      assert b[q].nodeId == last.nodeIds[q];
    }
  }

  /** With non-empty group names, the checks accept exactly what the documentation says. */
  lemma NamedGroupsFollowTheDocumentation(nodes: seq<string>, groups: seq<Group>)
    requires forall i | 0 <= i < |groups| :: groups[i].name != ""
    ensures Accepted(nodes, groups) <==>
      && UniqueIds(groups) && UniqueNames(groups) && OneGroupEach(groups)
      && (forall i, x | 0 <= i < |groups| && x in groups[i].nodeIds :: x in nodes && x != "")
  {
    RepeatableIsOneGroupEach(groups);
    if Known(nodes, Mentions(groups)) {
      forall i, x | 0 <= i < |groups| && x in groups[i].nodeIds ensures x in nodes && x != "" {
        ListedMeansMentioned(groups, i, x);
      }
    }
    if forall i, x | 0 <= i < |groups| && x in groups[i].nodeIds :: x in nodes && x != "" {
      forall p | 0 <= p < |Mentions(groups)| ensures Mentions(groups)[p].nodeId in nodes && Mentions(groups)[p].nodeId != "" {
        var i := MentionedMeansListed(groups, p);
      }
    }
  }

  /** A node of a group with the empty name may be in a second group as well. */
  lemma EmptyNameSharesNodes()
    ensures var groups := [Group("1", "", ["n"]), Group("2", "b", ["n"])];
      Accepted(["n"], groups) && !OneGroupEach(groups)
  {
    var first, second := Group("1", "", ["n"]), Group("2", "b", ["n"]);
    var groups := [first, second];
    assert groups[..1] == [first] && [first][..0] == [];
    assert MentionsOf(first) == [Mention("n", "")] && MentionsOf(second) == [Mention("n", "b")];
    assert Mentions([first]) == [] + MentionsOf(first);
    assert Mentions(groups) == [Mention("n", ""), Mention("n", "b")];
    assert "n" in first.nodeIds && "n" in second.nodeIds;
    assert !Disjoint(groups[0].nodeIds, groups[1].nodeIds);
  }
}
