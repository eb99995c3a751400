/**
 Repairing references to credentials (`replaceInvalidCredentials`): old-style references by name and
 references whose id is gone are replaced by what the database holds, through two caches.
 */
module InvalidCredentials {
  import opened Wrappers

  /** A node's reference; `Managed` ones have no database record, `Missing` stands for null and undefined. */
  datatype Cred =
    | Missing
    | Managed
    | Legacy(name: string)
    | Ref(id: Option<string>, name: string)

  /** One entry of a node's `credentials` object. */
  datatype Slot = Slot(ctype: string, cred: Cred)

  datatype Node = Node(disabled: bool, credentials: Option<seq<Slot>>)

  /** A credential row, known by its id; `shared` says whether it is shared with the project at hand. */
  datatype CredRow = CredRow(name: string, ctype: string, shared: bool)

  type Db = map<string, CredRow>

  /** The database and the property names that are never looked up. */
  datatype World = World(db: Db, unsafeTypes: set<string>)

  // ---------- database queries ----------

  function FindById(w: World, ctype: string, id: string): Option<Cred> {
    if id in w.db && w.db[id].ctype == ctype then Some(Ref(Some(id), w.db[id].name)) else None
  }

  function NamedIds(w: World, ctype: string, name: string): set<string> {
    set id | id in w.db && w.db[id] == CredRow(name, ctype, true)
  }

  lemma OnlyElement(ids: set<string>, a: string, b: string)
    requires |ids| == 1 && a in ids && b in ids
    ensures a == b
  {
    assert |ids - {a}| == 0;
  }

  /** The query by name counts only if it has a single result. */
  ghost function FindByName(w: World, ctype: string, name: string): (r: Option<Cred>)
    ensures r.Some? ==> r.value.Ref? && r.value.id.Some? && r.value.name == name
    ensures r.Some? ==> r.value.id.value in NamedIds(w, ctype, name) && FindById(w, ctype, r.value.id.value) == r
  {
    if |NamedIds(w, ctype, name)| == 1 then
      var id :| id in NamedIds(w, ctype, name);
      Some(Ref(Some(id), name))
    else None
  }

  // ---------- the pass ----------

  datatype Cache = Cache(byName: map<(string, string), Cred>, byId: map<(string, string), Cred>)

  const EMPTY := Cache(map[], map[])

  predicate IsOld(cred: Cred) {
    cred.Legacy? || (cred.Ref? && cred.id.None?)
  }

  predicate Active(w: World, s: Slot) {
    s.ctype !in w.unsafeTypes && (s.cred.Legacy? || s.cred.Ref?)
  }

  /** What happens to one reference, and to the caches. */
  ghost function Visit(w: World, cache: Cache, s: Slot): (Cache, Cred) {
    if !Active(w, s) then (cache, s.cred)
    else if IsOld(s.cred) then
      var key := (s.ctype, s.cred.name);
      if key in cache.byName then (cache, cache.byName[key])
      else
        match FindByName(w, s.ctype, s.cred.name)
        case Some(c) => (cache.(byName := cache.byName[key := c]), c)
        case None => (cache.(byName := cache.byName[key := Ref(None, s.cred.name)]), s.cred)
    else
      var key := (s.ctype, s.cred.id.value);
      if key in cache.byId then (cache, cache.byId[key])
      else
        match FindById(w, s.ctype, s.cred.id.value)
        case Some(c) => (cache.(byId := cache.byId[key := c]), c)
        case None =>
          match FindByName(w, s.ctype, s.cred.name)
          case Some(c) => (cache.(byId := cache.byId[(s.ctype, c.id.value) := c]), c)
          case None => (cache.(byId := cache.byId[key := s.cred]), s.cred)
  }

  ghost function PassSlots(w: World, cache: Cache, slots: seq<Slot>): (r: (Cache, seq<Slot>))
    ensures |r.1| == |slots|
    decreases |slots|
  {
    if slots == [] then (cache, [])
    else
      var (after, cred) := Visit(w, cache, slots[0]);
      var (last, rest) := PassSlots(w, after, slots[1..]);
      (last, [Slot(slots[0].ctype, cred)] + rest)
  }

  predicate Skipped(n: Node) {
    n.credentials.None? || n.disabled
  }

  ghost function PassNodes(w: World, cache: Cache, nodes: seq<Node>): (r: (Cache, seq<Node>))
    ensures |r.1| == |nodes|
    decreases |nodes|
  {
    if nodes == [] then (cache, [])
    else if Skipped(nodes[0]) then
      var (last, rest) := PassNodes(w, cache, nodes[1..]);
      (last, [nodes[0]] + rest)
    else
      var (after, slots) := PassSlots(w, cache, nodes[0].credentials.value);
      var (last, rest) := PassNodes(w, after, nodes[1..]);
      (last, [nodes[0].(credentials := Some(slots))] + rest)
  }

  ghost function Pass(w: World, nodes: seq<Node>): seq<Node> {
    PassNodes(w, EMPTY, nodes).1
  }

  // ---------- nodes and references ----------

  /** All references of enabled nodes, in the order of the two loops. */
  function SlotsOf(nodes: seq<Node>): seq<Slot> {
    if nodes == [] then []
    else (if Skipped(nodes[0]) then [] else nodes[0].credentials.value) + SlotsOf(nodes[1..])
  }

  lemma {:induction false} PassSlotsOfSum(w: World, cache: Cache, a: seq<Slot>, b: seq<Slot>)
    ensures var (mid, outA) := PassSlots(w, cache, a);
      var (last, outB) := PassSlots(w, mid, b);
      PassSlots(w, cache, a + b) == (last, outA + outB)
    decreases |a|
  {
    if a == [] {
      assert a + b == b;
      var r := PassSlots(w, cache, b);
      assert [] + r.1 == r.1;
    } else {
      assert (a + b)[1..] == a[1..] + b;
      var (after, cred) := Visit(w, cache, a[0]);
      PassSlotsOfSum(w, after, a[1..], b);
      var (mid, rest) := PassSlots(w, after, a[1..]);
      var outB := PassSlots(w, mid, b).1;
      var first := [Slot(a[0].ctype, cred)];
      assert first + (rest + outB) == (first + rest) + outB;
    }
  }

  /** The pass over the nodes is one pass over all their references. */
  lemma {:induction false} PassNodesIsPassSlots(w: World, cache: Cache, nodes: seq<Node>)
    ensures var (last, out) := PassNodes(w, cache, nodes);
      (last, SlotsOf(out)) == PassSlots(w, cache, SlotsOf(nodes))
    ensures var out := PassNodes(w, cache, nodes).1;
      forall i :: 0 <= i < |nodes| ==>
        if Skipped(nodes[i]) then out[i] == nodes[i]
        else !Skipped(out[i]) && |out[i].credentials.value| == |nodes[i].credentials.value|
    decreases |nodes|
  {
    if nodes != [] {
      var out := PassNodes(w, cache, nodes).1;
      if Skipped(nodes[0]) {
        PassNodesIsPassSlots(w, cache, nodes[1..]);
        assert out == [nodes[0]] + out[1..];
        assert SlotsOf(out) == SlotsOf(out[1..]) && SlotsOf(nodes) == SlotsOf(nodes[1..]);
      } else {
        var (after, slots) := PassSlots(w, cache, nodes[0].credentials.value);
        PassNodesIsPassSlots(w, after, nodes[1..]);
        PassSlotsOfSum(w, cache, nodes[0].credentials.value, SlotsOf(nodes[1..]));
        assert out == [nodes[0].(credentials := Some(slots))] + out[1..];
      }
    }
  }

  // ---------- what the caches know ----------

  /** Resolving a reference on its own: its id if the database has it, else its name if that is unique. */
  ghost function Independent(w: World, s: Slot): Cred {
    if !Active(w, s) then s.cred
    else
      var byId := if IsOld(s.cred) then None else FindById(w, s.ctype, s.cred.id.value);
      var byName := FindByName(w, s.ctype, s.cred.name);
      if byId.Some? then byId.value else if byName.Some? then byName.value else s.cred
  }

  /** The string `n` and the object without id and with name `n` mean the same. */
  function Meaning(c: Cred): Cred {
    if c.Legacy? then Ref(None, c.name) else c
  }

  /** The reference has an id of its type that is gone, and its name does not help either. */
  ghost predicate Stuck(w: World, s: Slot, ctype: string, id: string) {
    && Active(w, s) && s.ctype == ctype && s.cred.Ref? && s.cred.id == Some(id)
    && FindById(w, ctype, id).None? && FindByName(w, ctype, s.cred.name).None?
  }

  /** The first such reference. */
  ghost function FirstStuck(w: World, slots: seq<Slot>, ctype: string, id: string): (r: Option<Cred>)
    ensures r.Some? ==> r.value.Ref? && r.value.id == Some(id)
  {
    if slots == [] then None
    else
      var before := FirstStuck(w, slots[..|slots| - 1], ctype, id);
      var s := slots[|slots| - 1];
      if before.Some? then before
      else if Stuck(w, s, ctype, id) then Some(s.cred)
      else None
  }

  /** What the cache by name may hold for a key. */
  ghost predicate KnowsName(w: World, cache: Cache, t: string, n: string) {
    (t, n) in cache.byName ==>
      cache.byName[(t, n)] == match FindByName(w, t, n) case Some(c) => c case None => Ref(None, n)
  }

  /** What the cache by id may hold for a key, and what it must hold. */
  ghost predicate KnowsId(w: World, seen: seq<Slot>, cache: Cache, t: string, id: string) {
    var answer := if FindById(w, t, id).Some? then FindById(w, t, id) else FirstStuck(w, seen, t, id);
    if (t, id) in cache.byId then answer == Some(cache.byId[(t, id)])
    else FindById(w, t, id).None? ==> answer.None?
  }

  ghost predicate CacheKnows(w: World, seen: seq<Slot>, cache: Cache) {
    && (forall t, n :: KnowsName(w, cache, t, n))
    && (forall t, id :: KnowsId(w, seen, cache, t, id))
  }

  lemma FirstStuckNext(w: World, seen: seq<Slot>, s: Slot, ctype: string, id: string)
    ensures FirstStuck(w, seen + [s], ctype, id) ==
      if FirstStuck(w, seen, ctype, id).Some? then FirstStuck(w, seen, ctype, id)
      else if Stuck(w, s, ctype, id) then Some(s.cred) else None
  {
    assert (seen + [s])[..|seen|] == seen;
  }

  lemma VisitKeepsName(w: World, cache: Cache, s: Slot, t: string, n: string)
    requires KnowsName(w, cache, t, n)
    ensures KnowsName(w, Visit(w, cache, s).0, t, n)
  {
  }

  lemma VisitKeepsId(w: World, seen: seq<Slot>, cache: Cache, s: Slot, t: string, id: string)
    requires KnowsId(w, seen, cache, t, id)
    ensures KnowsId(w, seen + [s], Visit(w, cache, s).0, t, id)
  {
    FirstStuckNext(w, seen, s, t, id);
  }

  lemma VisitKeepsKnowledge(w: World, seen: seq<Slot>, cache: Cache, s: Slot)
    requires CacheKnows(w, seen, cache)
    ensures CacheKnows(w, seen + [s], Visit(w, cache, s).0)
  {
    forall t, n ensures KnowsName(w, Visit(w, cache, s).0, t, n) {
      VisitKeepsName(w, cache, s, t, n);
    }
    forall t, id ensures KnowsId(w, seen + [s], Visit(w, cache, s).0, t, id) {
      VisitKeepsId(w, seen, cache, s, t, id);
    }
  }

  /** The id is missing and an earlier reference to it was stuck; the cache answers with that one. */
  ghost predicate Overtaken(w: World, seen: seq<Slot>, s: Slot) {
    && Active(w, s) && !IsOld(s.cred)
    && FindById(w, s.ctype, s.cred.id.value).None?
    && FirstStuck(w, seen, s.ctype, s.cred.id.value).Some?
  }

  lemma VisitMeans(w: World, seen: seq<Slot>, cache: Cache, s: Slot)
    requires CacheKnows(w, seen, cache)
    ensures Meaning(Visit(w, cache, s).1) ==
      if Overtaken(w, seen, s) then FirstStuck(w, seen, s.ctype, s.cred.id.value).value
      else Meaning(Independent(w, s))
  {
    if Active(w, s) {
      if IsOld(s.cred) {
        assert KnowsName(w, cache, s.ctype, s.cred.name);
      } else {
        assert KnowsId(w, seen, cache, s.ctype, s.cred.id.value);
      }
    }
  }

  // ---------- when the cached pass equals independent resolution ----------

  /** The output at `j` means what resolving reference `j` on its own would give. */
  ghost predicate SameAsIndependent(w: World, slots: seq<Slot>, out: seq<Slot>)
    requires |out| == |slots|
  {
    forall j | 0 <= j < |slots| ::
      out[j].ctype == slots[j].ctype && Meaning(out[j].cred) == Meaning(Independent(w, slots[j]))
  }

  /** References to the same missing id that come after a stuck one repeat it, name included. */
  ghost predicate ConsistentNames(w: World, slots: seq<Slot>) {
    forall i, j, t, id | 0 <= i < j < |slots| && Stuck(w, slots[i], t, id)
      && Active(w, slots[j]) && slots[j].ctype == t && slots[j].cred.Ref? && slots[j].cred.id == Some(id) ::
      slots[j].cred == slots[i].cred
  }

  /** The output at each position, given everything before it. */
  lemma {:induction false} PassMeans(w: World, seen: seq<Slot>, cache: Cache, slots: seq<Slot>, j: nat)
    requires CacheKnows(w, seen, cache) && j < |slots|
    ensures var out := PassSlots(w, cache, slots).1;
      && out[j].ctype == slots[j].ctype
      && Meaning(out[j].cred) ==
           if Overtaken(w, seen + slots[..j], slots[j]) then FirstStuck(w, seen + slots[..j], slots[j].ctype, slots[j].cred.id.value).value
           else Meaning(Independent(w, slots[j]))
    decreases |slots|
  {
    VisitMeans(w, seen, cache, slots[0]);
    if j == 0 {
      assert seen + slots[..0] == seen;
    } else {
      VisitKeepsKnowledge(w, seen, cache, slots[0]);
      PassMeans(w, seen + [slots[0]], Visit(w, cache, slots[0]).0, slots[1..], j - 1);
      assert (seen + [slots[0]]) + slots[1..][..j - 1] == seen + slots[..j];
    }
  }

  lemma {:induction false} FirstStuckIsStuck(w: World, slots: seq<Slot>, t: string, id: string) returns (i: nat)
    requires FirstStuck(w, slots, t, id).Some?
    ensures i < |slots| && Stuck(w, slots[i], t, id) && slots[i].cred == FirstStuck(w, slots, t, id).value
    decreases |slots|
  {
    var n := |slots| - 1;
    if FirstStuck(w, slots[..n], t, id).Some? {
      i := FirstStuckIsStuck(w, slots[..n], t, id);
    } else {
      i := n;
    }
  }

  lemma {:induction false} StuckMeansFirstStuck(w: World, slots: seq<Slot>, t: string, id: string, i: nat)
    requires i < |slots| && Stuck(w, slots[i], t, id)
    ensures FirstStuck(w, slots, t, id).Some?
    decreases |slots|
  {
    var n := |slots| - 1;
    if i < n {
      StuckMeansFirstStuck(w, slots[..n], t, id, i);
    }
  }

  /** A reference that an earlier stuck one overtakes comes out right only if it is the same reference. */
  lemma OvertakenIsRightWhenEqual(w: World, seen: seq<Slot>, s: Slot)
    requires Overtaken(w, seen, s)
    ensures var first := FirstStuck(w, seen, s.ctype, s.cred.id.value).value;
      first == Meaning(Independent(w, s)) <==> s.cred == first
  {
    var i := FirstStuckIsStuck(w, seen, s.ctype, s.cred.id.value);
  }

  /**
   The cached pass equals resolving every reference independently exactly when references to the
   same missing id are consistent.
   */
  lemma CachedEqualsIndependentExactly(w: World, nodes: seq<Node>)
    ensures var slots := SlotsOf(nodes);
      var out := SlotsOf(Pass(w, nodes));
      |out| == |slots| && (SameAsIndependent(w, slots, out) <==> ConsistentNames(w, slots))
  {
    var slots := SlotsOf(nodes);
    PassNodesIsPassSlots(w, EMPTY, nodes);
    var out := PassSlots(w, EMPTY, slots).1;
    assert CacheKnows(w, [], EMPTY);
    if SameAsIndependent(w, slots, out) {
      forall i, j, t, id | 0 <= i < j < |slots| && Stuck(w, slots[i], t, id)
        && Active(w, slots[j]) && slots[j].ctype == t && slots[j].cred.Ref? && slots[j].cred.id == Some(id)
        ensures slots[j].cred == slots[i].cred
      {
        RightMeansFirst(w, slots, out, i, t, id);
        RightMeansFirst(w, slots, out, j, t, id);
        StuckMeansFirstStuck(w, slots[..j], t, id, i);
        SameFirstStuck(w, slots, i, j, t, id);
      }
    }
    if ConsistentNames(w, slots) {
      forall j | 0 <= j < |slots|
        ensures out[j].ctype == slots[j].ctype && Meaning(out[j].cred) == Meaning(Independent(w, slots[j]))
      {
        PassMeans(w, [], EMPTY, slots, j);
        assert [] + slots[..j] == slots[..j];
        if Overtaken(w, slots[..j], slots[j]) {
          var i := FirstStuckIsStuck(w, slots[..j], slots[j].ctype, slots[j].cred.id.value);
          assert slots[..j][i] == slots[i];
          OvertakenIsRightWhenEqual(w, slots[..j], slots[j]);
        }
      }
    }
  }

  /** If the output is right, every reference to a missing id repeats the first stuck one. */
  lemma RightMeansFirst(w: World, slots: seq<Slot>, out: seq<Slot>, j: nat, t: string, id: string)
    requires out == PassSlots(w, EMPTY, slots).1 && SameAsIndependent(w, slots, out)
    requires j < |slots| && Active(w, slots[j]) && slots[j].ctype == t && slots[j].cred.Ref? && slots[j].cred.id == Some(id)
    requires FindById(w, t, id).None?
    ensures var first := FirstStuck(w, slots[..j], t, id); first.Some? ==> first.value == slots[j].cred
  {
    PassMeans(w, [], EMPTY, slots, j);
    assert [] + slots[..j] == slots[..j];
    if Overtaken(w, slots[..j], slots[j]) {
      OvertakenIsRightWhenEqual(w, slots[..j], slots[j]);
    }
  }

  /** The first stuck reference seen at `j` is the one seen at `i`, or the reference at `i` itself. */
  lemma {:induction false} SameFirstStuck(w: World, slots: seq<Slot>, i: nat, j: nat, t: string, id: string)
    requires i < j <= |slots| && Stuck(w, slots[i], t, id)
    ensures FirstStuck(w, slots[..j], t, id) ==
      if FirstStuck(w, slots[..i], t, id).Some? then FirstStuck(w, slots[..i], t, id) else Some(slots[i].cred)
    decreases j
  {
    assert slots[..j][..j - 1] == slots[..j - 1];
    if i < j - 1 {
      SameFirstStuck(w, slots, i, j - 1, t, id);
    }
  }

  // ---------- the output, read off the database ----------

  /** The row is the only one with this type and name that is shared with the project. */
  predicate OnlyRow(w: World, ctype: string, name: string, id: string) {
    && id in w.db && w.db[id].ctype == ctype && w.db[id].name == name && w.db[id].shared
    && forall x | x in w.db && w.db[x].ctype == ctype && w.db[x].name == name && w.db[x].shared :: x == id
  }

  lemma ByNameIsOnlyRow(w: World, ctype: string, name: string, id: string)
    ensures FindByName(w, ctype, name) == Some(Ref(Some(id), name)) <==> OnlyRow(w, ctype, name, id)
  {
    var ids := NamedIds(w, ctype, name);
    if OnlyRow(w, ctype, name, id) {
      assert ids == {id};
    }
    if FindByName(w, ctype, name) == Some(Ref(Some(id), name)) {
      forall x | x in w.db && w.db[x].ctype == ctype && w.db[x].name == name && w.db[x].shared ensures x == id {
        assert w.db[x] == CredRow(name, ctype, true);
        OnlyElement(ids, x, id);
      }
    }
  }

  /** A reference by name, as a string or as an object without id. */
  ghost predicate RightByName(w: World, ctype: string, name: string, before: Cred, after: Cred) {
    && (forall id :: after == Ref(Some(id), name) <==> OnlyRow(w, ctype, name, id))
    && (after == before || after == Ref(None, name) || (after.Ref? && after.id.Some? && OnlyRow(w, ctype, name, after.id.value)))
  }

  /** All references of `all` to this id of this type are the same. */
  predicate OneReference(all: seq<Slot>, s: Slot, id: string) {
    forall x | x in all && x.ctype == s.ctype && x.cred.Ref? && x.cred.id == Some(id) :: x.cred == s.cred
  }

  /** What the pass may make of one reference of an enabled node, by the rows and the references `all` of the input. */
  ghost predicate RightByRows(w: World, all: seq<Slot>, s: Slot, after: Slot) {
    && after.ctype == s.ctype
    && (s.ctype in w.unsafeTypes ==> after.cred == s.cred)
    && (s.ctype !in w.unsafeTypes ==>
          match s.cred
          case Missing => after.cred == s.cred
          case Managed => after.cred == s.cred
          case Legacy(name) => RightByName(w, s.ctype, name, s.cred, after.cred)
          case Ref(None, name) => RightByName(w, s.ctype, name, s.cred, after.cred)
          case Ref(Some(id), name) =>
            if id in w.db && w.db[id].ctype == s.ctype then after.cred == Ref(Some(id), w.db[id].name)
            else
              && after.cred.Ref? && after.cred.id.Some?
              && ((after.cred.id.value == id && after in all)
                  || (after.cred.name == name && OnlyRow(w, s.ctype, name, after.cred.id.value)))
              && (OneReference(all, s, id) ==>
                    (after.cred == s.cred || after.cred.name == name) &&
                    forall x :: after.cred == Ref(Some(x), name) && x != id <==> OnlyRow(w, s.ctype, name, x)))
  }

  lemma NameAnswer(w: World, cache: Cache, s: Slot)
    requires Active(w, s) && IsOld(s.cred) && KnowsName(w, cache, s.ctype, s.cred.name)
    ensures RightByName(w, s.ctype, s.cred.name, s.cred, Visit(w, cache, s).1)
  {
    forall id ensures FindByName(w, s.ctype, s.cred.name) == Some(Ref(Some(id), s.cred.name)) <==> OnlyRow(w, s.ctype, s.cred.name, id) {
      ByNameIsOnlyRow(w, s.ctype, s.cred.name, id);
    }
  }

  lemma MissingIdAnswer(w: World, seen: seq<Slot>, cache: Cache, all: seq<Slot>, s: Slot)
    requires CacheKnows(w, seen, cache) && (forall x | x in seen :: x in all) && s in all
    requires Active(w, s) && !IsOld(s.cred) && FindById(w, s.ctype, s.cred.id.value).None?
    ensures RightByRows(w, all, s, Slot(s.ctype, Visit(w, cache, s).1))
  {
    var id, name := s.cred.id.value, s.cred.name;
    assert KnowsId(w, seen, cache, s.ctype, id);
    forall x ensures FindByName(w, s.ctype, name) == Some(Ref(Some(x), name)) <==> OnlyRow(w, s.ctype, name, x) {
      ByNameIsOnlyRow(w, s.ctype, name, x);
    }
    if FirstStuck(w, seen, s.ctype, id).Some? {
      var i := FirstStuckIsStuck(w, seen, s.ctype, id);
      assert seen[i] in all;
    }
  }

  lemma VisitIsRightByRows(w: World, seen: seq<Slot>, cache: Cache, all: seq<Slot>, s: Slot)
    requires CacheKnows(w, seen, cache) && (forall x | x in seen :: x in all) && s in all
    ensures RightByRows(w, all, s, Slot(s.ctype, Visit(w, cache, s).1))
  {
    if Active(w, s) {
      if IsOld(s.cred) {
        assert KnowsName(w, cache, s.ctype, s.cred.name);
        NameAnswer(w, cache, s);
      } else if FindById(w, s.ctype, s.cred.id.value).None? {
        MissingIdAnswer(w, seen, cache, all, s);
      } else {
        assert KnowsId(w, seen, cache, s.ctype, s.cred.id.value);
      }
    }
  }

  lemma {:induction false} SlotsAreRightByRows(w: World, seen: seq<Slot>, cache: Cache, all: seq<Slot>, slots: seq<Slot>)
    requires CacheKnows(w, seen, cache) && (forall x | x in seen :: x in all) && (forall x | x in slots :: x in all)
    ensures var (last, out) := PassSlots(w, cache, slots);
      CacheKnows(w, seen + slots, last) && forall j | 0 <= j < |slots| :: RightByRows(w, all, slots[j], out[j])
    decreases |slots|
  {
    if slots == [] {
      assert seen + slots == seen;
    } else {
      assert slots[0] in slots;
      VisitIsRightByRows(w, seen, cache, all, slots[0]);
      VisitKeepsKnowledge(w, seen, cache, slots[0]);
      SlotsAreRightByRows(w, seen + [slots[0]], Visit(w, cache, slots[0]).0, all, slots[1..]);
      assert (seen + [slots[0]]) + slots[1..] == seen + slots;
    }
  }

  ghost predicate NodeIsRightByRows(w: World, all: seq<Slot>, n: Node, after: Node) {
    if n.disabled || n.credentials.None? then after == n
    else
      && !after.disabled && after.credentials.Some? && |after.credentials.value| == |n.credentials.value|
      && forall j | 0 <= j < |n.credentials.value| :: RightByRows(w, all, n.credentials.value[j], after.credentials.value[j])
  }

  lemma {:induction false} NodesAreRightByRows(w: World, seen: seq<Slot>, cache: Cache, all: seq<Slot>, nodes: seq<Node>)
    requires CacheKnows(w, seen, cache) && (forall x | x in seen :: x in all) && (forall x | x in SlotsOf(nodes) :: x in all)
    ensures var out := PassNodes(w, cache, nodes).1;
      forall i | 0 <= i < |nodes| :: NodeIsRightByRows(w, all, nodes[i], out[i])
    decreases |nodes|
  {
    if nodes != [] {
      assert forall x | x in SlotsOf(nodes[1..]) :: x in SlotsOf(nodes);
      if Skipped(nodes[0]) {
        NodesAreRightByRows(w, seen, cache, all, nodes[1..]);
      } else {
        var slots := nodes[0].credentials.value;
        assert forall x | x in slots :: x in SlotsOf(nodes);
        SlotsAreRightByRows(w, seen, cache, all, slots);
        NodesAreRightByRows(w, seen + slots, PassSlots(w, cache, slots).0, all, nodes[1..]);
      }
    }
  }

  /**
   Every reference of the output, from the rows of the database: by name it becomes the only row that the project
   shares under its type and name, by id it gets the name of its row; a missing id, if all references to it are the same,
   becomes the only row under its name or stays; managed, missing and unsafe references and those of disabled
   nodes stay.
   */
  lemma OutputIsRightByRows(w: World, nodes: seq<Node>)
    ensures var out := Pass(w, nodes);
      |out| == |nodes| && forall i | 0 <= i < |nodes| :: NodeIsRightByRows(w, SlotsOf(nodes), nodes[i], out[i])
  {
    assert CacheKnows(w, [], EMPTY);
    NodesAreRightByRows(w, [], EMPTY, SlotsOf(nodes), nodes);
  }

  /**
   What keeps the database from being asked again: nothing is forgotten, and after a visit the name, or the id unless
   only the name led to a row, is in a cache, so that a second visit finds the answer there.
   */
  lemma VisitRemembers(w: World, cache: Cache, s: Slot)
    requires Active(w, s)
    ensures var (after, answer) := Visit(w, cache, s);
      && cache.byName.Keys <= after.byName.Keys && cache.byId.Keys <= after.byId.Keys
      && (IsOld(s.cred) ==> (s.ctype, s.cred.name) in after.byName)
      && (!IsOld(s.cred) && ((s.ctype, s.cred.id.value) in cache.byId || FindById(w, s.ctype, s.cred.id.value).Some?) ==>
            (s.ctype, s.cred.id.value) in after.byId && after.byId[(s.ctype, s.cred.id.value)] == answer)
      && (!IsOld(s.cred) && (s.ctype, s.cred.id.value) !in after.byId ==>
            answer.Ref? && answer.id.Some? && (s.ctype, answer.id.value) in after.byId)
  {
  }

  // ---------- names that lead nowhere ----------

  /** The slot refers to the name without an id, and is looked up. */
  predicate Names(w: World, s: Slot, ctype: string, name: string) {
    && s.ctype == ctype && s.ctype !in w.unsafeTypes
    && (s.cred == Legacy(name) || s.cred == Ref(None, name))
  }

  predicate NamedBefore(w: World, seen: seq<Slot>, ctype: string, name: string) {
    exists i | 0 <= i < |seen| :: Names(w, seen[i], ctype, name)
  }

  predicate KnowsSeen(w: World, seen: seq<Slot>, cache: Cache, ctype: string, name: string) {
    (ctype, name) in cache.byName <==> NamedBefore(w, seen, ctype, name)
  }

  lemma VisitKeepsSeen(w: World, seen: seq<Slot>, cache: Cache, s: Slot, ctype: string, name: string)
    requires KnowsSeen(w, seen, cache, ctype, name)
    ensures KnowsSeen(w, seen + [s], Visit(w, cache, s).0, ctype, name)
  {
    var more := seen + [s];
    if NamedBefore(w, seen, ctype, name) {
      var i :| 0 <= i < |seen| && Names(w, seen[i], ctype, name);
      assert Names(w, more[i], ctype, name);
    }
    assert Names(w, s, ctype, name) ==> Names(w, more[|seen|], ctype, name);
  }

  /**
   A name that leads to no single row: its first reference stays as it is, string or object, and every later one becomes
   the object without id.
   */
  lemma {:induction false} RepeatedNamesBecomeObjects(w: World, seen: seq<Slot>, cache: Cache, slots: seq<Slot>, j: nat, name: string)
    requires CacheKnows(w, seen, cache) && (forall t, n :: KnowsSeen(w, seen, cache, t, n))
    requires j < |slots| && Names(w, slots[j], slots[j].ctype, name) && forall id :: !OnlyRow(w, slots[j].ctype, name, id)
    ensures PassSlots(w, cache, slots).1[j].cred ==
      if NamedBefore(w, seen + slots[..j], slots[j].ctype, name) then Ref(None, name) else slots[j].cred
    decreases |slots|
  {
    if j == 0 {
      var t := slots[0].ctype;
      assert seen + slots[..0] == seen;
      assert KnowsName(w, cache, t, name) && KnowsSeen(w, seen, cache, t, name);
      if FindByName(w, t, name).Some? {
        ByNameIsOnlyRow(w, t, name, FindByName(w, t, name).value.id.value);
      }
    } else {
      var after := Visit(w, cache, slots[0]).0;
      VisitKeepsKnowledge(w, seen, cache, slots[0]);
      forall t, n ensures KnowsSeen(w, seen + [slots[0]], after, t, n) {
        VisitKeepsSeen(w, seen, cache, slots[0], t, n);
      }
      RepeatedNamesBecomeObjects(w, seen + [slots[0]], after, slots[1..], j - 1, name);
      assert (seen + [slots[0]]) + slots[1..][..j - 1] == seen + slots[..j];
    }
  }

  /** From the start of the pass. */
  lemma UnresolvedNameExactly(w: World, nodes: seq<Node>, j: nat, name: string)
    requires var slots := SlotsOf(nodes);
      j < |slots| && Names(w, slots[j], slots[j].ctype, name) && forall id :: !OnlyRow(w, slots[j].ctype, name, id)
    ensures var slots, out := SlotsOf(nodes), SlotsOf(Pass(w, nodes));
      && |out| == |slots|
      && out[j].cred == if NamedBefore(w, slots[..j], slots[j].ctype, name) then Ref(None, name) else slots[j].cred
  {
    var slots := SlotsOf(nodes);
    PassNodesIsPassSlots(w, EMPTY, nodes);
    assert CacheKnows(w, [], EMPTY);
    assert forall t, n :: KnowsSeen(w, [], EMPTY, t, n);
    RepeatedNamesBecomeObjects(w, [], EMPTY, slots, j, name);
    assert [] + slots[..j] == slots[..j];
  }

  // ---------- repeating the pass ----------

  /**
   The first pass stands behind `seen` with cache `c1`, a second one behind its output `done` with
   cache `c2`: the second has met the same stuck ids first, and no name that the first has not met.
   */
  ghost predicate Twins(w: World, seen: seq<Slot>, c1: Cache, done: seq<Slot>, c2: Cache) {
    && CacheKnows(w, seen, c1) && CacheKnows(w, done, c2)
    && (forall t, id :: SameStuck(w, seen, done, t, id))
    && c2.byName.Keys <= c1.byName.Keys
  }

  ghost predicate SameStuck(w: World, seen: seq<Slot>, done: seq<Slot>, t: string, id: string) {
    FirstStuck(w, seen, t, id) == FirstStuck(w, done, t, id)
  }

  /** What the first pass leaves at a reference, the second pass leaves there too. */
  lemma SecondVisitChangesNothing(w: World, seen: seq<Slot>, c1: Cache, done: seq<Slot>, c2: Cache, s: Slot)
    requires Twins(w, seen, c1, done, c2)
    ensures var o := Slot(s.ctype, Visit(w, c1, s).1);
      Visit(w, c2, o).1 == o.cred
  {
    if Active(w, s) {
      var o := Slot(s.ctype, Visit(w, c1, s).1);
      if IsOld(s.cred) {
        assert KnowsName(w, c1, s.ctype, s.cred.name);
      } else {
        assert KnowsId(w, seen, c1, s.ctype, s.cred.id.value);
      }
      if IsOld(o.cred) {
        assert KnowsName(w, c2, o.ctype, o.cred.name);
      } else {
        assert KnowsId(w, done, c2, o.ctype, o.cred.id.value);
        assert SameStuck(w, seen, done, o.ctype, o.cred.id.value);
      }
    }
  }

  lemma VisitKeepsSameStuck(w: World, seen: seq<Slot>, c1: Cache, done: seq<Slot>, s: Slot, t: string, id: string)
    requires CacheKnows(w, seen, c1) && SameStuck(w, seen, done, t, id)
    ensures SameStuck(w, seen + [s], done + [Slot(s.ctype, Visit(w, c1, s).1)], t, id)
  {
    var o := Slot(s.ctype, Visit(w, c1, s).1);
    FirstStuckNext(w, seen, s, t, id);
    FirstStuckNext(w, done, o, t, id);
    if Active(w, s) {
      if IsOld(s.cred) {
        assert KnowsName(w, c1, s.ctype, s.cred.name);
      } else {
        assert KnowsId(w, seen, c1, s.ctype, s.cred.id.value);
      }
    }
  }

  /** Unresolved names of the output come from the same names in the input. */
  lemma VisitKeepsNames(w: World, seen: seq<Slot>, c1: Cache, c2: Cache, s: Slot)
    requires CacheKnows(w, seen, c1) && c2.byName.Keys <= c1.byName.Keys
    ensures Visit(w, c2, Slot(s.ctype, Visit(w, c1, s).1)).0.byName.Keys <= Visit(w, c1, s).0.byName.Keys
  {
    if Active(w, s) {
      if IsOld(s.cred) {
        assert KnowsName(w, c1, s.ctype, s.cred.name);
      } else {
        assert KnowsId(w, seen, c1, s.ctype, s.cred.id.value);
      }
    }
  }

  lemma {:induction false} SecondPassChangesNothing(w: World, seen: seq<Slot>, c1: Cache, done: seq<Slot>, c2: Cache, slots: seq<Slot>)
    requires Twins(w, seen, c1, done, c2)
    ensures var out := PassSlots(w, c1, slots).1;
      PassSlots(w, c2, out).1 == out
    decreases |slots|
  {
    if slots != [] {
      var s := slots[0];
      var (n1, cred) := Visit(w, c1, s);
      var o := Slot(s.ctype, cred);
      var n2 := Visit(w, c2, o).0;
      var out := PassSlots(w, c1, slots).1;
      var rest := PassSlots(w, n1, slots[1..]).1;
      assert out[0] == o && out[1..] == rest;
      SecondVisitChangesNothing(w, seen, c1, done, c2, s);
      VisitKeepsKnowledge(w, seen, c1, s);
      VisitKeepsKnowledge(w, done, c2, o);
      VisitKeepsNames(w, seen, c1, c2, s);
      forall t, id ensures SameStuck(w, seen + [s], done + [o], t, id) {
        VisitKeepsSameStuck(w, seen, c1, done, s, t, id);
      }
      SecondPassChangesNothing(w, seen + [s], n1, done + [o], n2, slots[1..]);
    }
  }

  /** Nodes with the same skipped nodes and as many references, and equal references, are equal. */
  lemma {:induction false} SameSlotsSameNodes(a: seq<Node>, b: seq<Node>)
    requires |a| == |b| && SlotsOf(a) == SlotsOf(b)
    requires forall i | 0 <= i < |a| ::
      if Skipped(a[i]) then b[i] == a[i]
      else !Skipped(b[i]) && |b[i].credentials.value| == |a[i].credentials.value|
    ensures a == b
  {
    if a != [] {
      if !Skipped(a[0]) {
        var n := |a[0].credentials.value|;
        assert SlotsOf(a)[..n] == a[0].credentials.value && SlotsOf(b)[..n] == b[0].credentials.value;
        assert SlotsOf(a)[n..] == SlotsOf(a[1..]) && SlotsOf(b)[n..] == SlotsOf(b[1..]);
      } else {
        assert SlotsOf(a) == SlotsOf(a[1..]) && SlotsOf(b) == SlotsOf(b[1..]);
      }
      SameSlotsSameNodes(a[1..], b[1..]);
      assert a[0] == b[0];
      assert a == [a[0]] + a[1..] && b == [b[0]] + b[1..];
    }
  }

  /** Running the pass twice equals running it once, for every workflow. */
  lemma PassIsIdempotent(w: World, nodes: seq<Node>)
    ensures Pass(w, Pass(w, nodes)) == Pass(w, nodes)
  {
    var once := Pass(w, nodes);
    PassNodesIsPassSlots(w, EMPTY, nodes);
    PassNodesIsPassSlots(w, EMPTY, once);
    assert Twins(w, [], EMPTY, [], EMPTY);
    SecondPassChangesNothing(w, [], EMPTY, [], EMPTY, SlotsOf(nodes));
    SameSlotsSameNodes(once, Pass(w, once));
  }

  // ---------- names that disagree ----------

  /** Two references to the same missing id: only the second one's name leads to a credential. */
  lemma InconsistentNamesGoWrong()
    ensures var w := World(map["new" := CredRow("mine", "api", true)], {});
      var first := Slot("api", Ref(Some("gone"), "other"));
      var second := Slot("api", Ref(Some("gone"), "mine"));
      var node := Node(false, Some([first, second]));
      && Independent(w, second) == Ref(Some("new"), "mine")
      && Pass(w, [node]) == [Node(false, Some([first, Slot("api", first.cred)]))]
  {
    var w := World(map["new" := CredRow("mine", "api", true)], {});
    var first := Slot("api", Ref(Some("gone"), "other"));
    var second := Slot("api", Ref(Some("gone"), "mine"));
    assert NamedIds(w, "api", "mine") == {"new"} && NamedIds(w, "api", "other") == {};
    var (after, c1) := Visit(w, EMPTY, first);
    var (last, c2) := Visit(w, after, second);
    assert c1 == first.cred && c2 == first.cred;
    assert [first, second][1..] == [second] && [second][1..] == [];
    var one := [second];
    assert PassSlots(w, last, one[1..]) == (last, []);
    var rest := PassSlots(w, after, one);
    assert rest == (last, [Slot("api", c2)] + []);
    var out := [Slot("api", c1)] + rest.1;
    assert PassSlots(w, EMPTY, [first, second]) == (last, out);
    var node := Node(false, Some([first, second]));
    assert [node][1..] == [];
    assert Pass(w, [node]) == [node.(credentials := Some(out))] + [];
    assert out == [first, Slot("api", first.cred)];
    assert FindByName(w, "api", "mine") == Some(Ref(Some("new"), "mine"));
  }

  // ---------- the loops ----------

  method QueryByName(w: World, ctype: string, name: string) returns (r: Option<Cred>)
    ensures r == FindByName(w, ctype, name)
  {
    var ids := NamedIds(w, ctype, name);
    if |ids| != 1 {
      return None;
    }
    var id :| id in ids;
    r := Some(Ref(Some(id), name));
    OnlyElement(ids, id, FindByName(w, ctype, name).value.id.value);
  }

  ghost function Prepended(out: seq<Slot>, r: (Cache, seq<Slot>)): (Cache, seq<Slot>) {
    (r.0, out + r.1)
  }

  lemma PrependNext(w: World, cache: Cache, slots: seq<Slot>, out: seq<Slot>, j: nat)
    requires j < |slots|
    ensures var (after, cred) := Visit(w, cache, slots[j]);
      Prepended(out, PassSlots(w, cache, slots[j..])) ==
      Prepended(out + [Slot(slots[j].ctype, cred)], PassSlots(w, after, slots[j + 1..]))
  {
    assert slots[j..][1..] == slots[j + 1..];
    var (after, cred) := Visit(w, cache, slots[j]);
    var first, rest := [Slot(slots[j].ctype, cred)], PassSlots(w, after, slots[j + 1..]).1;
    assert out + (first + rest) == (out + first) + rest;
  }

  ghost function RepairedNode(w: World, cache: Cache, n: Node): (Cache, Node) {
    if Skipped(n) then (cache, n)
    else
      var (after, slots) := PassSlots(w, cache, n.credentials.value);
      (after, n.(credentials := Some(slots)))
  }

  /** What the pass has made of the nodes so far, and what it will make of the others. */
  ghost function DoneAndToDo(w: World, cache: Cache, nodes: seq<Node>, i: nat): seq<Node>
    requires i <= |nodes|
  {
    nodes[..i] + PassNodes(w, cache, nodes[i..]).1
  }

  lemma PassNext(w: World, cache: Cache, nodes: seq<Node>, i: nat)
    requires i < |nodes|
    ensures var (after, n) := RepairedNode(w, cache, nodes[i]);
      DoneAndToDo(w, after, nodes[i := n], i + 1) == DoneAndToDo(w, cache, nodes, i)
  {
    var (after, n) := RepairedNode(w, cache, nodes[i]);
    var rest := PassNodes(w, after, nodes[i + 1..]).1;
    assert nodes[i..][1..] == nodes[i + 1..];
    assert nodes[i := n][i + 1..] == nodes[i + 1..];
    assert PassNodes(w, cache, nodes[i..]).1 == [n] + rest;
    assert nodes[i := n][..i + 1] == nodes[..i] + [n];
    assert nodes[..i] + ([n] + rest) == (nodes[..i] + [n]) + rest;
  }

  class Workflow {
    var nodes: seq<Node>
    var byName: map<(string, string), Cred>
    var byId: map<(string, string), Cred>

    ghost function Caches(): Cache
      reads this
    {
      Cache(byName, byId)
    }

    constructor (nodes: seq<Node>)
      ensures this.nodes == nodes && Caches() == EMPTY
    {
      this.nodes := nodes;
      byName, byId := map[], map[];
    }

    /** A reference by name. */
    method RepairOld(w: World, s: Slot) returns (cred: Cred)
      requires Active(w, s) && IsOld(s.cred)
      modifies this`byName
      ensures (Caches(), cred) == Visit(w, old(Caches()), s)
    {
      var key := (s.ctype, s.cred.name);
      if key in byName {
        return byName[key];
      }
      var found := QueryByName(w, s.ctype, s.cred.name);
      if found.Some? {
        byName := byName[key := found.value];
        return found.value;
      }
      byName := byName[key := Ref(None, s.cred.name)];
      cred := s.cred;
    }

    /** A reference by id. */
    method RepairById(w: World, s: Slot) returns (cred: Cred)
      requires Active(w, s) && !IsOld(s.cred)
      modifies this`byId
      ensures (Caches(), cred) == Visit(w, old(Caches()), s)
    {
      var key := (s.ctype, s.cred.id.value);
      if key in byId {
        return byId[key];
      }
      var found := FindById(w, s.ctype, s.cred.id.value);
      if found.Some? {
        byId := byId[key := found.value];
        return found.value;
      }
      found := QueryByName(w, s.ctype, s.cred.name);
      if found.Some? {
        byId := byId[(s.ctype, found.value.id.value) := found.value];
        return found.value;
      }
      byId := byId[key := s.cred];
      cred := s.cred;
    }

    method Repair(w: World, s: Slot) returns (cred: Cred)
      modifies this`byName, this`byId
      ensures (Caches(), cred) == Visit(w, old(Caches()), s)
    {
      if !Active(w, s) {
        return s.cred;
      }
      if IsOld(s.cred) {
        cred := RepairOld(w, s);
      } else {
        cred := RepairById(w, s);
      }
    }

    /** The inner loop, over the references of one node. */
    method RepairSlots(w: World, slots: seq<Slot>) returns (out: seq<Slot>)
      modifies this`byName, this`byId
      ensures (Caches(), out) == PassSlots(w, old(Caches()), slots)
    {
      out := [];
      ghost var whole := PassSlots(w, Caches(), slots);
      var j := 0;
      assert slots[0..] == slots && [] + whole.1 == whole.1;
      while j < |slots|
        invariant |out| == j <= |slots|
        invariant Prepended(out, PassSlots(w, Caches(), slots[j..])) == whole
      {
        PrependNext(w, Caches(), slots, out, j);
        var cred := Repair(w, slots[j]);
        out := out + [Slot(slots[j].ctype, cred)];
        j := j + 1;
      }
      assert slots[j..] == [] && out + [] == out;
    }

    /** The whole function: afterwards the nodes are what one pass makes of them. */
    method ReplaceInvalidCredentials(w: World)
      modifies this
      ensures nodes == Pass(w, old(nodes))
    {
      byName, byId := map[], map[];
      ghost var whole := Pass(w, nodes);
      assert nodes[0..] == nodes && whole == DoneAndToDo(w, Caches(), nodes, 0);
      var i := 0;
      while i < |nodes|
        invariant i <= |nodes|
        invariant whole == DoneAndToDo(w, Caches(), nodes, i)
      {
        PassNext(w, Caches(), nodes, i);
        if nodes[i].credentials.Some? && !nodes[i].disabled {
          var slots := RepairSlots(w, nodes[i].credentials.value);
          nodes := nodes[i := nodes[i].(credentials := Some(slots))];
        } else {
          assert nodes[i := nodes[i]] == nodes;
        }
        i := i + 1;
      }
      assert nodes[i..] == [] && nodes[..i] == nodes;
    }
  }
}
