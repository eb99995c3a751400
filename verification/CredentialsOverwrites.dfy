/**
 Overwrites of credential fields (`CredentialsOverwrites`): values that an administrator sets per
 credential type and that types inherit from the types they extend.

 `setPlainData` flattens the inherited values into the map it is given, through a memo of types it
 has already seen. The memo can leave entries only partly flattened; reading through `get`, which
 looks at all ancestors again, is not affected.
 */
module CredentialsOverwrites {
  import opened Wrappers
  import opened CredentialTypes

  /** A field value; anything but a string is compared by identity. */
  datatype Value = Null | Undefined | Text(text: string) | Other(identity: nat)

  type Fields = map<string, Value>

  /** The overwrite data: for some credential types, some fields. */
  type Store = map<string, Fields>

  // ---------- what overwriting means ----------

  /** The definition to agree with: the value of a field is the one set on the nearest type. */
  function Nearest(h: Hierarchy, ghost c: Certificate, s: Store, t: string, field: string): Option<Value>
    requires Certifies(c, h) && SingleParent(h)
    decreases c.rank(t)
  {
    if t in s && field in s[t] then Some(s[t][field])
    else if Extends(h, t) == [] then None
    else Nearest(h, c, s, Extends(h, t)[0], field)
  }

  /** Whether the type or one of its ancestors has an entry at all. */
  predicate Overwritten(h: Hierarchy, ghost c: Certificate, s: Store, t: string)
    requires Certifies(c, h)
  {
    t in s || exists a | a in ParentTypes(h, c, t) :: a in s
  }

  /** Every field has the value of the definition. */
  predicate Agrees(h: Hierarchy, ghost c: Certificate, s: Store, t: string, f: Fields)
    requires Certifies(c, h) && SingleParent(h)
  {
    forall k | k in f :: Nearest(h, c, s, t, k) == Some(f[k])
  }

  /** And every field that the definition knows is there. */
  ghost predicate Complete(h: Hierarchy, c: Certificate, s: Store, t: string, f: Fields)
    requires Certifies(c, h) && SingleParent(h)
  {
    Agrees(h, c, s, t, f) && forall k :: Nearest(h, c, s, t, k).Some? ==> k in f
  }

  // ---------- get ----------

  function Reversed(types: seq<string>): seq<string> {
    if types == [] then [] else Reversed(types[1..]) + [types[0]]
  }

  /** The entries of those types that have one. */
  function EntriesOf(types: seq<string>, s: Store): seq<Fields> {
    if types == [] then []
    else (if types[0] in s then [s[types[0]]] else []) + EntriesOf(types[1..], s)
  }

  /** `Object.assign` of all entries onto an empty object, in order. */
  function Merged(entries: seq<Fields>): Fields {
    if entries == [] then map[] else Merged(entries[..|entries| - 1]) + entries[|entries| - 1]
  }

  function Get(h: Hierarchy, ghost c: Certificate, s: Store, name: string): Option<Fields>
    requires Certifies(c, h)
  {
    var entries := EntriesOf(Reversed([name] + ParentTypes(h, c, name)), s);
    if entries == [] then None else Some(Merged(entries))
  }

  /** The value of a field on the first type of the list that sets it. */
  function FirstHit(types: seq<string>, s: Store, field: string): Option<Value> {
    if types == [] then None
    else if types[0] in s && field in s[types[0]] then Some(s[types[0]][field])
    else FirstHit(types[1..], s, field)
  }

  lemma {:induction false} EntriesOfSum(a: seq<string>, b: seq<string>, s: Store)
    ensures EntriesOf(a + b, s) == EntriesOf(a, s) + EntriesOf(b, s)
  {
    if a == [] {
      assert a + b == b;
    } else {
      assert (a + b)[1..] == a[1..] + b;
      EntriesOfSum(a[1..], b, s);
    }
  }

  /** Merging in reverse order makes the first type of the list win. */
  lemma {:induction false} MergedReverse(types: seq<string>, s: Store, field: string)
    ensures var m := Merged(EntriesOf(Reversed(types), s));
      FirstHit(types, s, field) == if field in m then Some(m[field]) else None
  {
    if types != [] {
      MergedReverse(types[1..], s, field);
      var above := EntriesOf(Reversed(types[1..]), s);
      EntriesOfSum(Reversed(types[1..]), [types[0]], s);
      var own := EntriesOf([types[0]], s);
      assert [types[0]][1..] == [];
      if own != [] {
        assert own == [s[types[0]]];
        assert (above + own)[..|above + own| - 1] == above;
      } else {
        assert above + own == above;
      }
    }
  }

  lemma {:induction false} EntriesExist(types: seq<string>, s: Store)
    ensures EntriesOf(Reversed(types), s) == [] <==> forall t | t in types :: t !in s
  {
    if types != [] {
      EntriesExist(types[1..], s);
      EntriesOfSum(Reversed(types[1..]), [types[0]], s);
      assert [types[0]][1..] == [];
      assert types == [types[0]] + types[1..];
    }
  }

  lemma {:induction false} FirstHitOfSum(a: seq<string>, b: seq<string>, s: Store, field: string)
    ensures FirstHit(a + b, s, field) == if FirstHit(a, s, field).Some? then FirstHit(a, s, field) else FirstHit(b, s, field)
  {
    if a == [] {
      assert a + b == b;
    } else {
      assert (a + b)[1..] == a[1..] + b;
      FirstHitOfSum(a[1..], b, s, field);
    }
  }

  lemma {:induction false} NoHit(types: seq<string>, all: seq<string>, s: Store, field: string)
    requires FirstHit(all, s, field).None? && forall t | t in types :: t in all
    ensures FirstHit(types, s, field).None?
  {
    if types != [] {
      MissesEverywhere(all, s, field, types[0]);
      NoHit(types[1..], all, s, field);
    }
  }

  lemma {:induction false} MissesEverywhere(all: seq<string>, s: Store, field: string, t: string)
    requires FirstHit(all, s, field).None? && t in all
    ensures !(t in s && field in s[t])
  {
    if all[0] != t {
      MissesEverywhere(all[1..], s, field, t);
    }
  }

  /** The repetitions in the list of parent types do not matter: the nearest ancestor wins. */
  lemma {:induction false} FirstHitIsNearest(h: Hierarchy, c: Certificate, s: Store, t: string, field: string)
    requires Certifies(c, h) && SingleParent(h)
    ensures FirstHit([t] + ParentTypes(h, c, t), s, field) == Nearest(h, c, s, t, field)
    decreases c.rank(t)
  {
    var all := ParentTypes(h, c, t);
    FirstHitOfSum([t], all, s, field);
    assert [t][1..] == [];
    if Extends(h, t) != [] {
      var p := Extends(h, t)[0];
      var above := ParentTypes(h, c, p);
      var tail := ParentTypesOfChild(h, c, t);
      FirstHitIsNearest(h, c, s, p, field);
      FirstHitOfSum([p] + above, tail, s, field);
      if FirstHit([p] + above, s, field).None? {
        NoHit(tail, [p] + above, s, field);
      }
    }
  }

  /** In any hierarchy, `get` takes each field from the first type of its list that sets it. */
  lemma GetIsFirstHit(h: Hierarchy, c: Certificate, s: Store, name: string, field: string)
    requires Certifies(c, h)
    ensures var hit := FirstHit([name] + ParentTypes(h, c, name), s, field);
      match Get(h, c, s, name)
      case None => hit.None?
      case Some(m) => hit == if field in m then Some(m[field]) else None
  {
    MergedReverse([name] + ParentTypes(h, c, name), s, field);
  }

  /** `get` returns exactly the fields of the definition, and nothing when no type has an entry. */
  lemma GetIsNearest(h: Hierarchy, c: Certificate, s: Store, name: string)
    requires Certifies(c, h) && SingleParent(h)
    ensures Get(h, c, s, name).Some? <==> Overwritten(h, c, s, name)
    ensures Get(h, c, s, name).Some? ==> Complete(h, c, s, name, Get(h, c, s, name).value)
  {
    var all := [name] + ParentTypes(h, c, name);
    EntriesExist(all, s);
    forall k ensures
        var m := Merged(EntriesOf(Reversed(all), s));
        Nearest(h, c, s, name, k) == if k in m then Some(m[k]) else None
    {
      MergedReverse(all, s, k);
      FirstHitIsNearest(h, c, s, name, k);
    }
  }

  // ---------- getOverwrites and its memo ----------

  function Entry(s: Store, t: string): Option<Fields> {
    if t in s then Some(s[t]) else None
  }

  /** The result of `getOverwrites`, and the memo afterwards. `known` are the recognized types. */
  function Resolve(h: Hierarchy, ghost c: Certificate, known: set<string>, s: Store, memo: seq<string>, t: string)
    : (Option<Fields>, seq<string>)
    requires Certifies(c, h)
    decreases c.rank(t), 1, 0
  {
    if t in memo then (Entry(s, t), memo)
    else if t !in known then (None, memo)
    else if t !in h then (Entry(s, t), memo + [t])
    else
      var (inherited, after) := Inherit(h, c, known, s, memo, h[t], map[], c.rank(t));
      (Some(if t in s then inherited + s[t] else inherited), after + [t])
  }

  /** The loop over the extended types: later ones override earlier ones. */
  function Inherit(h: Hierarchy, ghost c: Certificate, known: set<string>, s: Store, memo: seq<string>, types: seq<string>,
                   acc: Fields, ghost bound: nat): (Fields, seq<string>)
    requires Certifies(c, h) && Below(c, types, bound)
    decreases bound, 0, |types|
  {
    if types == [] then (acc, memo)
    else
      assert types[0] in types;
      var (r, after) := Resolve(h, c, known, s, memo, types[0]);
      Inherit(h, c, known, s, after, types[1..], if r.Some? then acc + r.value else acc, bound)
  }

  /** The loop of `setPlainData` over the types that have an entry. */
  function FlattenFrom(h: Hierarchy, ghost c: Certificate, known: set<string>, s: Store, memo: seq<string>, types: seq<string>)
    : (Store, seq<string>)
    requires Certifies(c, h)
    decreases |types|
  {
    if types == [] then (s, memo)
    else
      var (r, after) := Resolve(h, c, known, s, memo, types[0]);
      FlattenFrom(h, c, known, if r.Some? && r.value != map[] then s[types[0] := r.value] else s, after, types[1..])
  }

  function Flatten(h: Hierarchy, ghost c: Certificate, known: set<string>, raw: Store, types: seq<string>): Store
    requires Certifies(c, h)
  {
    FlattenFrom(h, c, known, raw, [], types).0
  }

  // ---------- flattening keeps the meaning ----------

  predicate Includes(f: Fields, g: Fields) {
    forall k | k in g :: k in f && f[k] == g[k]
  }

  /** raw <= stored <= fully resolved, entry by entry. */
  predicate Flattened(h: Hierarchy, ghost c: Certificate, raw: Store, s: Store)
    requires Certifies(c, h) && SingleParent(h)
  {
    s.Keys == raw.Keys && forall t | t in raw :: Includes(s[t], raw[t]) && Agrees(h, c, raw, t, s[t])
  }

  lemma {:induction false} NearestUnchanged(h: Hierarchy, c: Certificate, raw: Store, s: Store, t: string, field: string)
    requires Certifies(c, h) && SingleParent(h) && Flattened(h, c, raw, s)
    ensures Nearest(h, c, s, t, field) == Nearest(h, c, raw, t, field)
    decreases c.rank(t)
  {
    if !(t in s && field in s[t]) && Extends(h, t) != [] {
      NearestUnchanged(h, c, raw, s, Extends(h, t)[0], field);
    }
  }

  /** `get` gives the same answer on a flattened map as on the raw one. */
  lemma GetUnchanged(h: Hierarchy, c: Certificate, raw: Store, s: Store, name: string)
    requires Certifies(c, h) && SingleParent(h) && Flattened(h, c, raw, s)
    ensures Get(h, c, s, name) == Get(h, c, raw, name)
  {
    GetIsNearest(h, c, s, name);
    GetIsNearest(h, c, raw, name);
    if Get(h, c, raw, name).Some? {
      var a, b := Get(h, c, s, name).value, Get(h, c, raw, name).value;
      forall k ensures k in a <==> k in b
        ensures k in a ==> a[k] == b[k]
      {
        NearestUnchanged(h, c, raw, s, name, k);
      }
      assert a == b;
    }
  }

  /** Whatever the memo, `getOverwrites` adds only what the definition says and loses no own field. */
  lemma {:induction false} ResolveAgrees(h: Hierarchy, c: Certificate, known: set<string>, raw: Store, s: Store, memo: seq<string>, t: string)
    requires Certifies(c, h) && SingleParent(h) && Flattened(h, c, raw, s)
    ensures var r := Resolve(h, c, known, s, memo, t).0;
      r.Some? ==> Agrees(h, c, raw, t, r.value) && (t in s ==> Includes(r.value, s[t]))
    decreases c.rank(t)
  {
    if t !in memo && t in known && t in h && h[t] != [] {
      var p := h[t][0];
      ResolveAgrees(h, c, known, raw, s, memo, p);
      InheritOne(h, c, known, s, memo, t);
    }
  }

  lemma InheritOne(h: Hierarchy, c: Certificate, known: set<string>, s: Store, memo: seq<string>, t: string)
    requires Certifies(c, h) && SingleParent(h) && t in h && h[t] != []
    ensures var (r, after) := Resolve(h, c, known, s, memo, h[t][0]);
      Inherit(h, c, known, s, memo, h[t], map[], c.rank(t)) == (if r.Some? then r.value else map[], after)
  {
    assert h[t][1..] == [];
    var r := Resolve(h, c, known, s, memo, h[t][0]).0;
    if r.Some? { assert map[] + r.value == r.value; }
  }

  /** For any order of the types and any memo, `setPlainData` keeps the invariant. */
  lemma {:induction false} FlattenFromKeeps(h: Hierarchy, c: Certificate, known: set<string>, raw: Store, s: Store, memo: seq<string>, types: seq<string>)
    requires Certifies(c, h) && SingleParent(h) && Flattened(h, c, raw, s)
    requires forall t | t in types :: t in raw
    ensures Flattened(h, c, raw, FlattenFrom(h, c, known, s, memo, types).0)
    decreases |types|
  {
    if types != [] {
      assert types[0] in types;
      var (r, after) := Resolve(h, c, known, s, memo, types[0]);
      ResolveAgrees(h, c, known, raw, s, memo, types[0]);
      var u := if r.Some? && r.value != map[] then s[types[0] := r.value] else s;
      assert u.Keys == raw.Keys;
      FlattenFromKeeps(h, c, known, raw, u, after, types[1..]);
    }
  }

  /** After `setPlainData`, `get` is the definition over the raw map, in whatever order it worked. */
  lemma FlattenKeepsMeaning(h: Hierarchy, c: Certificate, known: set<string>, raw: Store, types: seq<string>, name: string)
    requires Certifies(c, h) && SingleParent(h)
    requires forall t | t in types :: t in raw
    ensures var s := Flatten(h, c, known, raw, types);
      && Flattened(h, c, raw, s)
      && Get(h, c, s, name) == Get(h, c, raw, name)
      && (Get(h, c, s, name).Some? <==> Overwritten(h, c, raw, name))
      && (Get(h, c, s, name).Some? ==> Complete(h, c, raw, name, Get(h, c, s, name).value))
  {
    forall t, k | t in raw && k in raw[t] ensures Nearest(h, c, raw, t, k) == Some(raw[t][k]) {
    }
    FlattenFromKeeps(h, c, known, raw, raw, [], types);
    GetUnchanged(h, c, raw, Flatten(h, c, known, raw, types), name);
    GetIsNearest(h, c, raw, name);
  }

  /** Saving the flattened map and loading it again, once for each of the orders. */
  function Reloaded(h: Hierarchy, ghost c: Certificate, known: set<string>, s: Store, orders: seq<seq<string>>): Store
    requires Certifies(c, h)
    decreases |orders|
  {
    if orders == [] then s else Reloaded(h, c, known, Flatten(h, c, known, s, orders[0]), orders[1..])
  }

  /** However often the map is saved and reloaded, `get` stays the same for every type. */
  lemma {:induction false} ReloadKeepsGet(h: Hierarchy, c: Certificate, known: set<string>, s: Store, orders: seq<seq<string>>, name: string)
    requires Certifies(c, h) && SingleParent(h)
    requires forall types | types in orders :: forall t | t in types :: t in s
    ensures Get(h, c, Reloaded(h, c, known, s, orders), name) == Get(h, c, s, name)
    decreases |orders|
  {
    if orders != [] {
      assert orders[0] in orders;
      FlattenKeepsMeaning(h, c, known, s, orders[0], name);
      var u := Flatten(h, c, known, s, orders[0]);
      assert u.Keys == s.Keys;
      forall types | types in orders[1..] ensures forall t | t in types :: t in u {
        assert types in orders;
      }
      ReloadKeepsGet(h, c, known, u, orders[1..], name);
    }
  }

  // ---------- what flattening achieves, and what it does not ----------

  function OrEmpty(r: Option<Fields>): Fields {
    if r.Some? then r.value else map[]
  }

  lemma {:induction false} OnlyListedTypesChange(h: Hierarchy, c: Certificate, known: set<string>, s: Store, memo: seq<string>, types: seq<string>, t: string)
    requires Certifies(c, h) && t !in types && t in s
    ensures var u := FlattenFrom(h, c, known, s, memo, types).0; t in u && u[t] == s[t]
    decreases |types|
  {
    if types != [] {
      var (r, after) := Resolve(h, c, known, s, memo, types[0]);
      assert types[0] in types;
      OnlyListedTypesChange(h, c, known, if r.Some? && r.value != map[] then s[types[0] := r.value] else s, after, types[1..], t);
    }
  }

  // ---------- which fields a resolution has ----------

  /** The value of the field in the result, if there is one. */
  function FieldOf(r: Option<Fields>, field: string): Option<Value> {
    if r.Some? && field in r.value then Some(r.value[field]) else None
  }

  /**
   The types that `getOverwrites` reads from the map, the one that wins first: the type, then its parents
   from the last to the first. A memoised type is not followed any further, an unrecognized one not read.
   */
  function ReadBy(h: Hierarchy, ghost c: Certificate, known: set<string>, s: Store, memo: seq<string>, t: string): seq<string>
    requires Certifies(c, h)
    decreases c.rank(t), 1, 0
  {
    if t in memo then [t]
    else if t !in known then []
    else if t !in h then [t]
    else [t] + ReadByAll(h, c, known, s, memo, h[t], c.rank(t))
  }

  function ReadByAll(h: Hierarchy, ghost c: Certificate, known: set<string>, s: Store, memo: seq<string>, types: seq<string>, ghost bound: nat): seq<string>
    requires Certifies(c, h) && Below(c, types, bound)
    decreases bound, 0, |types|
  {
    if types == [] then []
    else
      assert types[0] in types;
      ReadByAll(h, c, known, s, Resolve(h, c, known, s, memo, types[0]).1, types[1..], bound)
      + ReadBy(h, c, known, s, memo, types[0])
  }

  /**
   In any acyclic hierarchy and under any memo, `getOverwrites` returns each field from the first type
   of that list that sets it, and no other field.
   */
  lemma {:induction false} ResolveReads(h: Hierarchy, c: Certificate, known: set<string>, s: Store, memo: seq<string>, t: string, field: string)
    requires Certifies(c, h)
    ensures FieldOf(Resolve(h, c, known, s, memo, t).0, field) == FirstHit(ReadBy(h, c, known, s, memo, t), s, field)
    decreases c.rank(t), 1, 0
  {
    assert [t][1..] == [];
    if t !in memo && t in known && t in h {
      InheritReads(h, c, known, s, memo, h[t], map[], c.rank(t), field);
      FirstHitOfSum([t], ReadByAll(h, c, known, s, memo, h[t], c.rank(t)), s, field);
    }
  }

  lemma {:induction false} InheritReads(h: Hierarchy, c: Certificate, known: set<string>, s: Store, memo: seq<string>, types: seq<string>, acc: Fields, bound: nat, field: string)
    requires Certifies(c, h) && Below(c, types, bound)
    ensures var hit := FirstHit(ReadByAll(h, c, known, s, memo, types, bound), s, field);
      FieldOf(Some(Inherit(h, c, known, s, memo, types, acc, bound).0), field) == if hit.Some? then hit else FieldOf(Some(acc), field)
    decreases bound, 0, |types|
  {
    if types != [] {
      assert types[0] in types;
      var (r, after) := Resolve(h, c, known, s, memo, types[0]);
      ResolveReads(h, c, known, s, memo, types[0], field);
      InheritReads(h, c, known, s, after, types[1..], if r.Some? then acc + r.value else acc, bound, field);
      FirstHitOfSum(ReadByAll(h, c, known, s, after, types[1..], bound), ReadBy(h, c, known, s, memo, types[0]), s, field);
    }
  }

  // ---------- when the two lookups agree ----------

  /** What is read and memoised does not depend on the overwrite data. */
  lemma {:induction false} ReadsIgnoreStore(h: Hierarchy, c: Certificate, known: set<string>, s: Store, u: Store, memo: seq<string>, t: string)
    requires Certifies(c, h)
    ensures ReadBy(h, c, known, s, memo, t) == ReadBy(h, c, known, u, memo, t)
    ensures Resolve(h, c, known, s, memo, t).1 == Resolve(h, c, known, u, memo, t).1
    decreases c.rank(t), 1, 0
  {
    if t !in memo && t in known && t in h {
      ReadsAllIgnoreStore(h, c, known, s, u, memo, h[t], map[], map[], c.rank(t));
    }
  }

  lemma {:induction false} ReadsAllIgnoreStore(h: Hierarchy, c: Certificate, known: set<string>, s: Store, u: Store, memo: seq<string>, types: seq<string>, acc: Fields, other: Fields, bound: nat)
    requires Certifies(c, h) && Below(c, types, bound)
    ensures ReadByAll(h, c, known, s, memo, types, bound) == ReadByAll(h, c, known, u, memo, types, bound)
    ensures Inherit(h, c, known, s, memo, types, acc, bound).1 == Inherit(h, c, known, u, memo, types, other, bound).1
    decreases bound, 0, |types|
  {
    if types != [] {
      assert types[0] in types;
      ReadsIgnoreStore(h, c, known, s, u, memo, types[0]);
      var (r, after) := Resolve(h, c, known, s, memo, types[0]);
      var q := Resolve(h, c, known, u, memo, types[0]).0;
      ReadsAllIgnoreStore(h, c, known, s, u, after, types[1..],
        if r.Some? then acc + r.value else acc, if q.Some? then other + q.value else other, bound);
    }
  }

  /** The list without repetitions, in the order of first occurrences. */
  function Firsts(types: seq<string>): seq<string> {
    if types == [] then []
    else
      var before, last := Firsts(types[..|types| - 1]), types[|types| - 1];
      if last in before then before else before + [last]
  }

  predicate NoRepetition(types: seq<string>) {
    forall i, j | 0 <= i < j < |types| :: types[i] != types[j]
  }

  /** Only first occurrences matter. */
  lemma {:induction false} FirstsHit(types: seq<string>, s: Store, field: string)
    ensures NoRepetition(Firsts(types)) && FirstHit(Firsts(types), s, field) == FirstHit(types, s, field)
    decreases |types|
  {
    if types != [] {
      var before, last := types[..|types| - 1], types[|types| - 1];
      FirstsHit(before, s, field);
      assert types == before + [last];
      FirstHitOfSum(before, [last], s, field);
      FirstHitOfSum(Firsts(before), [last], s, field);
      assert [last][1..] == [];
      if last in Firsts(before) && FirstHit(Firsts(before), s, field).None? {
        MissesEverywhere(Firsts(before), s, field, last);
      }
    }
  }

  /** Two lists in different orders are told apart by some overwrite data. */
  lemma {:induction false} TellApart(a: seq<string>, b: seq<string>) returns (s: Store)
    requires NoRepetition(a) && NoRepetition(b) && a != b
    ensures FirstHit(a, s, "k") != FirstHit(b, s, "k")
    ensures forall t | t in s :: t in a || t in b
    decreases |a|
  {
    if a == [] {
      s := map[b[0] := map["k" := Text("1")]];
    } else if b == [] {
      s := map[a[0] := map["k" := Text("1")]];
    } else if a[0] != b[0] {
      s := map[a[0] := map["k" := Text("1")], b[0] := map["k" := Text("2")]];
      assert FirstHit(a, s, "k") == Some(Text("1")) && FirstHit(b, s, "k") == Some(Text("2"));
    } else {
      assert a == [a[0]] + a[1..] && b == [b[0]] + b[1..];
      s := TellApart(a[1..], b[1..]);
      assert a[0] !in a[1..] && b[0] !in b[1..];
    }
  }

  /** For the type and the field, `getOverwrites` and `get` have the same value, or both none. */
  ghost predicate SameField(h: Hierarchy, c: Certificate, known: set<string>, s: Store, memo: seq<string>, t: string, field: string)
    requires Certifies(c, h)
  {
    FieldOf(Resolve(h, c, known, s, memo, t).0, field) == FieldOf(Get(h, c, s, t), field)
  }

  lemma SameFieldWhenSameHit(h: Hierarchy, c: Certificate, known: set<string>, s: Store, memo: seq<string>, t: string, field: string)
    requires Certifies(c, h)
    ensures SameField(h, c, known, s, memo, t, field) <==>
      FirstHit(Firsts(ReadBy(h, c, known, map[], memo, t)), s, field) == FirstHit(Firsts([t] + ParentTypes(h, c, t)), s, field)
  {
    ResolveReads(h, c, known, s, memo, t, field);
    GetIsFirstHit(h, c, s, t, field);
    ReadsIgnoreStore(h, c, known, s, map[], memo, t);
    FirstsHit(ReadBy(h, c, known, s, memo, t), s, field);
    FirstsHit([t] + ParentTypes(h, c, t), s, field);
  }

  /**
   `getOverwrites` and `get` agree on a type, whatever the overwrite data, exactly when the types that the one
   reads and the list of the other have the same order of first occurrences.
   */
  lemma LookupsAgreeExactly(h: Hierarchy, c: Certificate, known: set<string>, memo: seq<string>, t: string)
    requires Certifies(c, h)
    ensures (forall s, field :: SameField(h, c, known, s, memo, t, field)) <==>
      Firsts(ReadBy(h, c, known, map[], memo, t)) == Firsts([t] + ParentTypes(h, c, t))
  {
    var a, b := Firsts(ReadBy(h, c, known, map[], memo, t)), Firsts([t] + ParentTypes(h, c, t));
    if a == b {
      forall s, field ensures SameField(h, c, known, s, memo, t, field) {
        SameFieldWhenSameHit(h, c, known, s, memo, t, field);
      }
    } else {
      FirstsHit(ReadBy(h, c, known, map[], memo, t), map[], "k");
      FirstsHit([t] + ParentTypes(h, c, t), map[], "k");
      var s := TellApart(a, b);
      SameFieldWhenSameHit(h, c, known, s, memo, t, "k");
      assert !SameField(h, c, known, s, memo, t, "k");
    }
  }

  // ---------- which entries are complete ----------

  /** Everything from `u` up to `t` is recognized. */
  predicate Touches(h: Hierarchy, ghost c: Certificate, known: set<string>, u: string, t: string)
    requires Certifies(c, h) && SingleParent(h)
    decreases c.rank(u)
  {
    u in known && (u == t || (Extends(h, u) != [] && Touches(h, c, known, Extends(h, u)[0], t)))
  }

  /** After the types `done` were visited, the memo holds what they touched. */
  predicate Memoised(h: Hierarchy, ghost c: Certificate, known: set<string>, done: seq<string>, t: string)
    requires Certifies(c, h) && SingleParent(h)
  {
    exists i | 0 <= i < |done| :: Touches(h, c, known, done[i], t)
  }

  /** The types whose raw fields the entry of `t` has after the types `done` were visited, nearest first. */
  function EntryReads(h: Hierarchy, ghost c: Certificate, known: set<string>, done: seq<string>, t: string): seq<string>
    requires Certifies(c, h) && SingleParent(h)
    decreases |done|, c.rank(t), 0
  {
    if done == [] then [t]
    else
      var before := done[..|done| - 1];
      if done[|done| - 1] == t && t in known then VisitReads(h, c, known, before, t)
      else EntryReads(h, c, known, before, t)
  }

  /** The types whose raw fields a visit of `t` after `done` finds. */
  function VisitReads(h: Hierarchy, ghost c: Certificate, known: set<string>, done: seq<string>, t: string): seq<string>
    requires Certifies(c, h) && SingleParent(h)
    decreases |done|, c.rank(t), 1
  {
    if Memoised(h, c, known, done, t) then EntryReads(h, c, known, done, t)
    else if t !in known then []
    else if Extends(h, t) == [] then [t]
    else [t] + VisitReads(h, c, known, done, Extends(h, t)[0])
  }

  /** The memo and every entry are what the order of the visits says. */
  ghost predicate Visited(h: Hierarchy, c: Certificate, known: set<string>, raw: Store, s: Store, memo: seq<string>, done: seq<string>)
    requires Certifies(c, h) && SingleParent(h)
  {
    && s.Keys == raw.Keys
    && (forall t :: t in memo <==> Memoised(h, c, known, done, t))
    && (forall t, k :: FieldOf(Entry(s, t), k) == FirstHit(EntryReads(h, c, known, done, t), raw, k))
  }

  lemma {:induction false} TouchesFurther(h: Hierarchy, c: Certificate, known: set<string>, u: string, t: string, further: string)
    requires Certifies(c, h) && SingleParent(h) && Touches(h, c, known, u, t) && Touches(h, c, known, t, further)
    ensures Touches(h, c, known, u, further)
    decreases c.rank(u)
  {
    if u != t {
      TouchesFurther(h, c, known, Extends(h, u)[0], t, further);
    }
  }

  /** The memo grows by what the visited type touches. */
  lemma {:induction false} ResolveMemoises(h: Hierarchy, c: Certificate, known: set<string>, s: Store, memo: seq<string>, t: string, x: string)
    requires Certifies(c, h) && SingleParent(h)
    requires forall u, v | u in memo && Touches(h, c, known, u, v) :: v in memo
    ensures x in Resolve(h, c, known, s, memo, t).1 <==> x in memo || Touches(h, c, known, t, x)
    decreases c.rank(t)
  {
    if t !in memo && t in known && Extends(h, t) != [] {
      InheritOne(h, c, known, s, memo, t);
      ResolveMemoises(h, c, known, s, memo, h[t][0], x);
    }
  }

  lemma {:induction false} UnvisitedKeepsRaw(h: Hierarchy, c: Certificate, known: set<string>, done: seq<string>, t: string)
    requires Certifies(c, h) && SingleParent(h) && t !in done
    ensures EntryReads(h, c, known, done, t) == [t]
    decreases |done|
  {
    if done != [] {
      UnvisitedKeepsRaw(h, c, known, done[..|done| - 1], t);
    }
  }

  lemma SingleParentReads(h: Hierarchy, c: Certificate, known: set<string>, s: Store, memo: seq<string>, t: string)
    requires Certifies(c, h) && SingleParent(h) && t !in memo && t in known
    ensures ReadBy(h, c, known, s, memo, t) ==
      [t] + if Extends(h, t) == [] then [] else ReadBy(h, c, known, s, memo, Extends(h, t)[0])
  {
    if Extends(h, t) != [] {
      var own := ReadBy(h, c, known, s, memo, h[t][0]);
      assert h[t][1..] == [] && [] + own == own;
      assert ReadByAll(h, c, known, s, Resolve(h, c, known, s, memo, h[t][0]).1, h[t][1..], c.rank(t)) == [];
      assert ReadByAll(h, c, known, s, memo, h[t], c.rank(t)) == own;
    }
  }

  lemma VisitedIsMemoised(h: Hierarchy, c: Certificate, known: set<string>, done: seq<string>, t: string)
    requires Certifies(c, h) && SingleParent(h) && t in done && t in known
    ensures Memoised(h, c, known, done, t)
  {
    var i :| 0 <= i < |done| && done[i] == t;
    assert Touches(h, c, known, done[i], t);
  }

  /** A visit finds the raw fields that the order of the visits says. */
  lemma {:induction false} VisitFinds(h: Hierarchy, c: Certificate, known: set<string>, raw: Store, s: Store, memo: seq<string>, done: seq<string>, t: string, field: string)
    requires Certifies(c, h) && SingleParent(h) && Visited(h, c, known, raw, s, memo, done)
    ensures FirstHit(ReadBy(h, c, known, s, memo, t), s, field) == FirstHit(VisitReads(h, c, known, done, t), raw, field)
    decreases c.rank(t)
  {
    assert [t][1..] == [];
    assert FirstHit([t], s, field) == FieldOf(Entry(s, t), field);
    if t !in memo && t in known {
      if t in done {
        VisitedIsMemoised(h, c, known, done, t);
      }
      UnvisitedKeepsRaw(h, c, known, done, t);
      SingleParentReads(h, c, known, s, memo, t);
      if Extends(h, t) != [] {
        var p := Extends(h, t)[0];
        VisitFinds(h, c, known, raw, s, memo, done, p, field);
        FirstHitOfSum([t], ReadBy(h, c, known, s, memo, p), s, field);
        FirstHitOfSum([t], VisitReads(h, c, known, done, p), raw, field);
      }
    }
  }

  /** The map after one visit. */
  function StoreAfter(s: Store, t: string, r: Option<Fields>): Store {
    if r.Some? && r.value != map[] then s[t := r.value] else s
  }

  lemma OneMoreReads(h: Hierarchy, c: Certificate, known: set<string>, done: seq<string>, t: string, x: string)
    requires Certifies(c, h) && SingleParent(h)
    ensures EntryReads(h, c, known, done + [t], x) ==
      if x == t && t in known then VisitReads(h, c, known, done, t) else EntryReads(h, c, known, done, x)
    ensures Memoised(h, c, known, done + [t], x) <==> Memoised(h, c, known, done, x) || Touches(h, c, known, t, x)
  {
    var more := done + [t];
    assert more[..|more| - 1] == done;
    if Memoised(h, c, known, done, x) {
      var i :| 0 <= i < |done| && Touches(h, c, known, done[i], x);
      assert more[i] == done[i];
    }
    if Touches(h, c, known, t, x) {
      assert more[|done|] == t;
    }
  }

  lemma MemoAfterVisit(h: Hierarchy, c: Certificate, known: set<string>, raw: Store, s: Store, memo: seq<string>, done: seq<string>, t: string, x: string)
    requires Certifies(c, h) && SingleParent(h) && Visited(h, c, known, raw, s, memo, done)
    ensures x in Resolve(h, c, known, s, memo, t).1 <==> Memoised(h, c, known, done + [t], x)
  {
    forall u, v | u in memo && Touches(h, c, known, u, v) ensures v in memo {
      var i :| 0 <= i < |done| && Touches(h, c, known, done[i], u);
      TouchesFurther(h, c, known, done[i], u, v);
    }
    ResolveMemoises(h, c, known, s, memo, t, x);
    OneMoreReads(h, c, known, done, t, x);
  }

  lemma EntryAfterVisit(h: Hierarchy, c: Certificate, known: set<string>, raw: Store, s: Store, memo: seq<string>, done: seq<string>, t: string, x: string, field: string)
    requires Certifies(c, h) && SingleParent(h) && Visited(h, c, known, raw, s, memo, done) && t in raw
    ensures var u := StoreAfter(s, t, Resolve(h, c, known, s, memo, t).0);
      FieldOf(Entry(u, x), field) == FirstHit(EntryReads(h, c, known, done + [t], x), raw, field)
  {
    OneMoreReads(h, c, known, done, t, x);
    if x == t && t in known {
      ResolveReads(h, c, known, s, memo, t, field);
      VisitFinds(h, c, known, raw, s, memo, done, t, field);
      VisitKeepsOwn(h, c, known, s, memo, t);
    } else if x == t {
      UnknownIsNotMemoised(h, c, known, done, t);
    }
  }

  lemma VisitKeepsOwn(h: Hierarchy, c: Certificate, known: set<string>, s: Store, memo: seq<string>, t: string)
    requires Certifies(c, h) && t in s && t in known
    ensures var r := Resolve(h, c, known, s, memo, t).0; r.Some? && forall k | k in s[t] :: k in r.value
  {
  }

  lemma {:induction false} TouchedIsKnown(h: Hierarchy, c: Certificate, known: set<string>, u: string, t: string)
    requires Certifies(c, h) && SingleParent(h) && Touches(h, c, known, u, t)
    ensures t in known
    decreases c.rank(u)
  {
    if u != t {
      TouchedIsKnown(h, c, known, Extends(h, u)[0], t);
    }
  }

  lemma UnknownIsNotMemoised(h: Hierarchy, c: Certificate, known: set<string>, done: seq<string>, t: string)
    requires Certifies(c, h) && SingleParent(h) && t !in known
    ensures !Memoised(h, c, known, done, t)
  {
    if Memoised(h, c, known, done, t) {
      var i :| 0 <= i < |done| && Touches(h, c, known, done[i], t);
      TouchedIsKnown(h, c, known, done[i], t);
    }
  }

  lemma {:induction false} FlattenFromVisits(h: Hierarchy, c: Certificate, known: set<string>, raw: Store, s: Store, memo: seq<string>, done: seq<string>, types: seq<string>)
    requires Certifies(c, h) && SingleParent(h) && Visited(h, c, known, raw, s, memo, done)
    requires forall t | t in types :: t in raw
    ensures var (u, after) := FlattenFrom(h, c, known, s, memo, types);
      Visited(h, c, known, raw, u, after, done + types)
    decreases |types|
  {
    if types == [] {
      assert done + types == done;
    } else {
      var t := types[0];
      assert t in types;
      var (r, after) := Resolve(h, c, known, s, memo, t);
      var u := StoreAfter(s, t, r);
      forall x ensures x in after <==> Memoised(h, c, known, done + [t], x) {
        MemoAfterVisit(h, c, known, raw, s, memo, done, t, x);
      }
      forall x, k ensures FieldOf(Entry(u, x), k) == FirstHit(EntryReads(h, c, known, done + [t], x), raw, k) {
        EntryAfterVisit(h, c, known, raw, s, memo, done, t, x, k);
      }
      assert u.Keys == raw.Keys;
      assert (done + [t]) + types[1..] == done + types;
      FlattenFromVisits(h, c, known, raw, u, after, done + [t], types[1..]);
    }
  }

  /** For any order of the keys: every entry that `setPlainData` leaves has exactly the raw fields of the types it reads. */
  lemma FlattenedEntryReads(h: Hierarchy, c: Certificate, known: set<string>, raw: Store, types: seq<string>, t: string, field: string)
    requires Certifies(c, h) && SingleParent(h)
    requires forall x | x in types :: x in raw
    ensures FieldOf(Entry(Flatten(h, c, known, raw, types), t), field) == FirstHit(EntryReads(h, c, known, types, t), raw, field)
  {
    forall x, k ensures FieldOf(Entry(raw, x), k) == FirstHit(EntryReads(h, c, known, [], x), raw, k) {
      assert [x][1..] == [];
    }
    assert Visited(h, c, known, raw, raw, [], []);
    FlattenFromVisits(h, c, known, raw, raw, [], [], types);
    assert [] + types == types;
  }

  /** The type and its ancestors. */
  function Line(h: Hierarchy, ghost c: Certificate, t: string): seq<string>
    requires Certifies(c, h) && SingleParent(h)
  {
    [t] + Chain(h, c, t)
  }

  lemma {:induction false} ReadsStartLine(h: Hierarchy, c: Certificate, known: set<string>, done: seq<string>, t: string)
    requires Certifies(c, h) && SingleParent(h)
    ensures EntryReads(h, c, known, done, t) <= Line(h, c, t)
    ensures VisitReads(h, c, known, done, t) <= Line(h, c, t)
    decreases |done|, c.rank(t)
  {
    if done != [] {
      ReadsStartLine(h, c, known, done[..|done| - 1], t);
    }
    if Extends(h, t) != [] {
      ReadsStartLine(h, c, known, done, Extends(h, t)[0]);
    }
  }

  predicate SetsIn(types: seq<string>, s: Store, field: string) {
    exists i | 0 <= i < |types| :: types[i] in s && field in s[types[i]]
  }

  lemma SetsInSplit(types: seq<string>, s: Store, field: string)
    requires types != []
    ensures SetsIn(types, s, field) <==> (types[0] in s && field in s[types[0]]) || SetsIn(types[1..], s, field)
  {
    var rest := types[1..];
    if SetsIn(rest, s, field) {
      var i :| 0 <= i < |rest| && rest[i] in s && field in s[rest[i]];
      assert types[i + 1] == rest[i];
    }
    if SetsIn(types, s, field) {
      var i :| 0 <= i < |types| && types[i] in s && field in s[types[i]];
      assert i > 0 ==> rest[i - 1] == types[i];
    }
  }

  lemma {:induction false} HitExactly(types: seq<string>, s: Store, field: string)
    ensures FirstHit(types, s, field).Some? <==> SetsIn(types, s, field)
  {
    if types != [] {
      SetsInSplit(types, s, field);
      HitExactly(types[1..], s, field);
    }
  }

  lemma {:induction false} NearestOnLine(h: Hierarchy, c: Certificate, s: Store, t: string, field: string)
    requires Certifies(c, h) && SingleParent(h)
    ensures Nearest(h, c, s, t, field) == FirstHit(Line(h, c, t), s, field)
    decreases c.rank(t)
  {
    assert Line(h, c, t)[1..] == Chain(h, c, t);
    if Extends(h, t) != [] {
      NearestOnLine(h, c, s, Extends(h, t)[0], field);
    }
  }

  /** Every field that is set beyond the first `n` types is set on one of these as well. */
  predicate NothingBeyond(line: seq<string>, n: nat, raw: Store)
    requires n <= |line|
  {
    forall j | n <= j < |line| && line[j] in raw :: forall k | k in raw[line[j]] :: SetsIn(line[..n], raw, k)
  }

  lemma EntryFields(h: Hierarchy, c: Certificate, known: set<string>, raw: Store, types: seq<string>, t: string, k: string)
    requires Certifies(c, h) && SingleParent(h) && t in raw
    requires forall x | x in types :: x in raw
    ensures var s := Flatten(h, c, known, raw, types);
      t in s && (k in s[t] <==> SetsIn(EntryReads(h, c, known, types, t), raw, k))
    ensures Nearest(h, c, raw, t, k).Some? <==> SetsIn(Line(h, c, t), raw, k)
  {
    FlattenKeepsMeaning(h, c, known, raw, types, t);
    FlattenedEntryReads(h, c, known, raw, types, t, k);
    HitExactly(EntryReads(h, c, known, types, t), raw, k);
    NearestOnLine(h, c, raw, t, k);
    HitExactly(Line(h, c, t), raw, k);
  }

  lemma CompleteByFields(h: Hierarchy, c: Certificate, raw: Store, t: string, f: Fields, line: seq<string>, n: nat)
    requires Certifies(c, h) && SingleParent(h) && Agrees(h, c, raw, t, f) && n <= |line|
    requires forall k :: k in f <==> SetsIn(line[..n], raw, k)
    requires forall k :: Nearest(h, c, raw, t, k).Some? <==> SetsIn(line, raw, k)
    ensures Complete(h, c, raw, t, f) <==> NothingBeyond(line, n, raw)
  {
    CompleteOnLine(line, n, raw);
    if NothingBeyond(line, n, raw) {
      forall k | Nearest(h, c, raw, t, k).Some? ensures k in f {
        assert SetsIn(line, raw, k);
      }
    }
    if Complete(h, c, raw, t, f) {
      forall k | SetsIn(line, raw, k) ensures SetsIn(line[..n], raw, k) {
        assert Nearest(h, c, raw, t, k).Some? && k in f;
      }
    }
  }

  /**
   The entry of a type is complete exactly when no field is set only on ancestors beyond the point up to which
   the order of the keys made `setPlainData` read.
   */
  lemma EntryIsCompleteExactly(h: Hierarchy, c: Certificate, known: set<string>, raw: Store, types: seq<string>, t: string)
    requires Certifies(c, h) && SingleParent(h) && t in raw
    requires forall x | x in types :: x in raw
    ensures var s := Flatten(h, c, known, raw, types);
      var line := Line(h, c, t);
      var n := |EntryReads(h, c, known, types, t)|;
      && t in s && n <= |line| && EntryReads(h, c, known, types, t) == line[..n]
      && (Complete(h, c, raw, t, s[t]) <==> NothingBeyond(line, n, raw))
  {
    var s := Flatten(h, c, known, raw, types);
    var line := Line(h, c, t);
    var read := EntryReads(h, c, known, types, t);
    ReadsStartLine(h, c, known, types, t);
    assert line[..|read|] == read;
    FlattenKeepsMeaning(h, c, known, raw, types, t);
    forall k ensures k in s[t] <==> SetsIn(read, raw, k) {
      EntryFields(h, c, known, raw, types, t, k);
    }
    forall k ensures Nearest(h, c, raw, t, k).Some? <==> SetsIn(line, raw, k) {
      EntryFields(h, c, known, raw, types, t, k);
    }
    CompleteByFields(h, c, raw, t, s[t], line, |read|);
  }

  lemma CompleteOnLine(line: seq<string>, n: nat, raw: Store)
    requires n <= |line|
    ensures (forall k | SetsIn(line, raw, k) :: SetsIn(line[..n], raw, k)) <==> NothingBeyond(line, n, raw)
  {
    if NothingBeyond(line, n, raw) {
      forall k | SetsIn(line, raw, k) ensures SetsIn(line[..n], raw, k) {
        var i :| 0 <= i < |line| && line[i] in raw && k in raw[line[i]];
        if i < n {
          assert line[..n][i] == line[i];
        }
      }
    }
    if forall k | SetsIn(line, raw, k) :: SetsIn(line[..n], raw, k) {
      forall j | n <= j < |line| && line[j] in raw ensures forall k | k in raw[line[j]] :: SetsIn(line[..n], raw, k) {
        forall k | k in raw[line[j]] ensures SetsIn(line[..n], raw, k) {
          assert SetsIn(line, raw, k);
        }
      }
    }
  }

  /**
   Under any memo, a resolution is complete exactly when every field that is set on the type or an ancestor
   is also in the entry of some type that the resolution reads.
   */
  lemma ResolveIsCompleteExactly(h: Hierarchy, c: Certificate, known: set<string>, raw: Store, s: Store, memo: seq<string>, t: string)
    requires Certifies(c, h) && SingleParent(h) && Flattened(h, c, raw, s)
    ensures Complete(h, c, raw, t, OrEmpty(Resolve(h, c, known, s, memo, t).0)) <==>
      forall k | SetsIn(Line(h, c, t), raw, k) :: SetsIn(ReadBy(h, c, known, s, memo, t), s, k)
  {
    var f := OrEmpty(Resolve(h, c, known, s, memo, t).0);
    ResolveAgrees(h, c, known, raw, s, memo, t);
    forall k ensures k in f <==> SetsIn(ReadBy(h, c, known, s, memo, t), s, k)
      ensures Nearest(h, c, raw, t, k).Some? <==> SetsIn(Line(h, c, t), raw, k)
    {
      ResolveReads(h, c, known, s, memo, t, k);
      HitExactly(ReadBy(h, c, known, s, memo, t), s, k);
      NearestOnLine(h, c, raw, t, k);
      HitExactly(Line(h, c, t), raw, k);
    }
  }

  const SHEET: Hierarchy := map["sheets" := ["google"], "google" := ["oauth"]]

  function SheetRank(t: string): nat {
    if t == "sheets" then 2 else if t == "google" then 1 else 0
  }

  const SHEET_DATA: Store :=
    map["sheets" := map["a" := Text("1")], "google" := map["b" := Text("2")], "oauth" := map["c" := Text("3")]]

  const SHEET_TYPES: set<string> := {"sheets", "google", "oauth"}

  lemma SheetResolvesAll(c: Certificate) returns (r: Fields)
    requires c == Certificate(SheetRank, 1) && Certifies(c, SHEET)
    ensures Resolve(SHEET, c, SHEET_TYPES, SHEET_DATA, [], "sheets") == (Some(r), ["oauth", "google", "sheets"])
    ensures r != map[]
  {
    InheritOne(SHEET, c, SHEET_TYPES, SHEET_DATA, [], "sheets");
    InheritOne(SHEET, c, SHEET_TYPES, SHEET_DATA, [], "google");
    var (some, memo) := Resolve(SHEET, c, SHEET_TYPES, SHEET_DATA, [], "sheets");
    r := some.value;
    assert memo == ["oauth", "google", "sheets"];
    assert "a" in r;
  }

  lemma SheetGoogleStays(c: Certificate)
    requires c == Certificate(SheetRank, 1) && Certifies(c, SHEET)
    ensures var types := ["sheets", "google", "oauth"];
      var s := Flatten(SHEET, c, SHEET_TYPES, SHEET_DATA, types);
      "google" in s && s["google"] == SHEET_DATA["google"]
  {
    var memo := ["oauth", "google", "sheets"];
    var types := ["sheets", "google", "oauth"];
    var r := SheetResolvesAll(c);
    var u := SHEET_DATA["sheets" := r];
    assert Resolve(SHEET, c, SHEET_TYPES, u, memo, "google") == (Some(u["google"]), memo);
    assert types[1..] == ["google", "oauth"] && types[1..][1..] == ["oauth"];
    OnlyListedTypesChange(SHEET, c, SHEET_TYPES, u["google" := u["google"]], memo, ["oauth"], "google");
  }

  /** Memoised while its child was resolved, `google` is never completed: it lacks the field of `oauth`. */
  lemma EntryCanStayPartial()
    ensures var c := Certificate(SheetRank, 1);
      && Certifies(c, SHEET) && SingleParent(SHEET)
      && var s := Flatten(SHEET, c, SHEET_TYPES, SHEET_DATA, ["sheets", "google", "oauth"]);
         "google" in s && "c" !in s["google"] && Nearest(SHEET, c, SHEET_DATA, "google", "c") == Some(Text("3"))
  {
    SheetGoogleStays(Certificate(SheetRank, 1));
  }

  const TWO_PARENTS: Hierarchy := map["x" := ["a", "b"]]

  const TWO_PARENTS_DATA: Store :=
    map["x" := map["own" := Text("0")], "a" := map["k" := Text("1")], "b" := map["k" := Text("2")]]

  function TwoRank(t: string): nat {
    if t == "x" then 1 else 0
  }

  lemma TwoParentsFlattened(c: Certificate)
    requires c == Certificate(TwoRank, 2) && Certifies(c, TWO_PARENTS)
    ensures Flatten(TWO_PARENTS, c, {"x", "a", "b"}, TWO_PARENTS_DATA, ["x"]) ==
      TWO_PARENTS_DATA["x" := map["k" := Text("2"), "own" := Text("0")]]
  {
    var h, raw, known := TWO_PARENTS, TWO_PARENTS_DATA, {"x", "a", "b"};
    assert [] + ["a"] == ["a"] && ["a"] + ["b"] == ["a", "b"];
    assert Resolve(h, c, known, raw, [], "a") == (Some(raw["a"]), ["a"]);
    assert Resolve(h, c, known, raw, ["a"], "b") == (Some(raw["b"]), ["a", "b"]);
    assert h["x"][1..] == ["b"] && h["x"][1..][1..] == [];
    var inherited := Inherit(h, c, known, raw, [], h["x"], map[], 1).0;
    assert inherited == map[] + raw["a"] + raw["b"];
    assert inherited + raw["x"] == map["k" := Text("2"), "own" := Text("0")];
    assert "k" in inherited + raw["x"];
    assert ["x"][1..] == [];
  }

  lemma TwoParentsListed(c: Certificate) returns (tail: seq<string>)
    requires Certifies(c, TWO_PARENTS) && c == Certificate(TwoRank, 2)
    ensures ["x"] + ParentTypes(TWO_PARENTS, c, "x") == ["x", "a", "b"] + tail
  {
    tail := WalkStartsWithPending(TWO_PARENTS, c, 1, ["a", "b"]);
  }

  lemma FirstParentHits(tail: seq<string>, s: Store)
    requires "x" in s && "a" in s && "k" in s["a"]
    ensures FirstHit(["x", "a", "b"] + tail, s, "k") == Some(if "k" in s["x"] then s["x"]["k"] else s["a"]["k"])
  {
    var list := ["x", "a", "b"] + tail;
    assert list[0] == "x" && list[1..][0] == "a";
  }

  /** With several parents the two lookups disagree: `get` prefers the first, `getOverwrites` the last. */
  lemma SeveralParentsDisagree()
    ensures var c := Certificate(TwoRank, 2);
      && Certifies(c, TWO_PARENTS)
      && var before := Get(TWO_PARENTS, c, TWO_PARENTS_DATA, "x");
         var s := Flatten(TWO_PARENTS, c, {"x", "a", "b"}, TWO_PARENTS_DATA, ["x"]);
         var after := Get(TWO_PARENTS, c, s, "x");
      && before.Some? && "k" in before.value && before.value["k"] == Text("1")
      && after.Some? && "k" in after.value && after.value["k"] == Text("2")
  {
    var c := Certificate(TwoRank, 2);
    TwoParentsFlattened(c);
    var tail := TwoParentsListed(c);
    var s := TWO_PARENTS_DATA["x" := map["k" := Text("2"), "own" := Text("0")]];
    FirstParentHits(tail, TWO_PARENTS_DATA);
    FirstParentHits(tail, s);
    GetIsFirstHit(TWO_PARENTS, c, TWO_PARENTS_DATA, "x", "k");
    GetIsFirstHit(TWO_PARENTS, c, s, "x", "k");
  }

  // ---------- applyOverwrite ----------

  predicate IsEmpty(v: Value) {
    v == Null || v == Undefined || v == Text("")
  }

  function Stored(data: Fields, k: string): Value {
    if k in data then data[k] else Undefined
  }

  /** Some overwritten field holds a value of the user's own. */
  predicate Customised(overwrites: Fields, data: Fields) {
    exists k | k in overwrites :: !IsEmpty(Stored(data, k)) && Stored(data, k) != overwrites[k]
  }

  /** The empty fields among `keys` take the overwritten value. */
  function FilledAt(overwrites: Fields, data: Fields, keys: set<string>): Fields
    requires keys <= overwrites.Keys
  {
    map k | k in data.Keys + keys ::
      if k in keys && IsEmpty(Stored(data, k)) then overwrites[k] else data[k]
  }

  function Filled(overwrites: Fields, data: Fields): Fields {
    FilledAt(overwrites, data, overwrites.Keys)
  }

  lemma FillOneMore(overwrites: Fields, data: Fields, keys: set<string>, k: string)
    requires keys <= overwrites.Keys && k in overwrites && k !in keys
    ensures var r := FilledAt(overwrites, data, keys);
      && Stored(r, k) == Stored(data, k)
      && FilledAt(overwrites, data, keys + {k}) == if IsEmpty(Stored(r, k)) then r[k := overwrites[k]] else r
  {
  }

  function Applied(overwrites: Option<Fields>, skip: bool, data: Fields): Fields {
    if overwrites.None? || (skip && Customised(overwrites.value, data)) then data
    else Filled(overwrites.value, data)
  }

  /** Overwriting twice is overwriting once. */
  lemma ApplyIsIdempotent(overwrites: Option<Fields>, skip: bool, data: Fields)
    ensures Applied(overwrites, skip, Applied(overwrites, skip, data)) == Applied(overwrites, skip, data)
  {
    if overwrites.Some? && !(skip && Customised(overwrites.value, data)) {
      var o := overwrites.value;
      var r := Filled(o, data);
      assert Filled(o, r) == r;
      if skip {
        assert forall k | k in o :: Stored(r, k) == (if IsEmpty(Stored(data, k)) then o[k] else data[k]);
      }
    }
  }

  /** Some stored field differs from the value that the nearest type sets for it. */
  predicate CustomisedAt(h: Hierarchy, ghost c: Certificate, raw: Store, name: string, data: Fields)
    requires Certifies(c, h) && SingleParent(h)
  {
    exists q | q in data ::
      !IsEmpty(data[q]) && Nearest(h, c, raw, name, q).Some? && Nearest(h, c, raw, name, q).value != data[q]
  }

  lemma CustomisedIsAt(h: Hierarchy, c: Certificate, raw: Store, name: string, overwrites: Fields, data: Fields)
    requires Certifies(c, h) && SingleParent(h) && Complete(h, c, raw, name, overwrites)
    ensures Customised(overwrites, data) <==> CustomisedAt(h, c, raw, name, data)
  {
    if Customised(overwrites, data) {
      var k :| k in overwrites && !IsEmpty(Stored(data, k)) && Stored(data, k) != overwrites[k];
      assert k in data;
    }
    if CustomisedAt(h, c, raw, name, data) {
      var q :| q in data && !IsEmpty(data[q]) && Nearest(h, c, raw, name, q).Some? && Nearest(h, c, raw, name, q).value != data[q];
      assert q in overwrites;
    }
  }

  /**
   Seen from the raw overwrite map: a non-empty field never changes, an empty field gets the value
   of the nearest type that sets it, other fields stay, and a customised credential of a skip-list
   type is left alone.
   */
  lemma ApplyFollowsNearest(h: Hierarchy, c: Certificate, known: set<string>, raw: Store, types: seq<string>,
                            name: string, skip: bool, data: Fields, k: string)
    requires Certifies(c, h) && SingleParent(h)
    requires forall t | t in types :: t in raw
    ensures var overwrites := Get(h, c, Flatten(h, c, known, raw, types), name);
      var r := Applied(overwrites, skip, data);
      && (!IsEmpty(Stored(data, k)) ==> Stored(r, k) == Stored(data, k))
      && (Nearest(h, c, raw, name, k).None? ==> Stored(r, k) == Stored(data, k) && (k in r <==> k in data))
      && ((skip ==> !CustomisedAt(h, c, raw, name, data)) && IsEmpty(Stored(data, k)) && Nearest(h, c, raw, name, k).Some? ==>
            k in r && r[k] == Nearest(h, c, raw, name, k).value)
      && (skip && CustomisedAt(h, c, raw, name, data) ==> r == data)
  {
    FlattenKeepsMeaning(h, c, known, raw, types, name);
    var overwrites := Get(h, c, Flatten(h, c, known, raw, types), name);
    if overwrites.None? {
      NothingOverwritten(h, c, raw, name, k);
    } else {
      CustomisedIsAt(h, c, raw, name, overwrites.value, data);
    }
  }

  /** The user has not set the field: it is missing, null, undefined or the empty string. */
  predicate Unset(data: Fields, k: string) {
    k in data ==> data[k].Null? || data[k].Undefined? || (data[k].Text? && data[k].text == [])
  }

  /**
   The same law without the notions of the code: for a type that is not on the skip list, a field that the user has not set takes
   the value of the nearest type that sets it, and every other field stays; for one on the list this holds
   if the user has set no overwritten field to another value, and otherwise nothing changes.
   */
  lemma ApplyFillsUnsetFields(h: Hierarchy, c: Certificate, known: set<string>, raw: Store, types: seq<string>,
                              name: string, skip: bool, data: Fields, k: string)
    requires Certifies(c, h) && SingleParent(h)
    requires forall t | t in types :: t in raw
    ensures var r := Applied(Get(h, c, Flatten(h, c, known, raw, types), name), skip, data);
      var ownValue := exists q | q in data :: !Unset(data, q) && Nearest(h, c, raw, name, q).Some? && Nearest(h, c, raw, name, q).value != data[q];
      if skip && ownValue then r == data
      else
        && (Unset(data, k) && Nearest(h, c, raw, name, k).Some? ==> k in r && r[k] == Nearest(h, c, raw, name, k).value)
        && (!Unset(data, k) || Nearest(h, c, raw, name, k).None? ==> (k in r <==> k in data) && (k in r ==> r[k] == data[k]))
  {
    assert forall q :: Unset(data, q) <==> IsEmpty(Stored(data, q));
    ApplyFollowsNearest(h, c, known, raw, types, name, skip, data, k);
  }

  lemma NothingOverwritten(h: Hierarchy, c: Certificate, s: Store, t: string, k: string)
    requires Certifies(c, h) && SingleParent(h) && !Overwritten(h, c, s, t)
    ensures Nearest(h, c, s, t, k).None?
  {
    var all := [t] + ParentTypes(h, c, t);
    FirstHitIsNearest(h, c, s, t, k);
    if FirstHit(all, s, k).Some? {
      HitIsSomewhere(all, s, k);
    }
  }

  lemma HitIsSomewhere(types: seq<string>, s: Store, field: string)
    requires FirstHit(types, s, field).Some?
    ensures exists t | t in types :: t in s
  {
    if types[0] in s {
    } else {
      HitIsSomewhere(types[1..], s, field);
    }
  }

  // ---------- the class ----------

  class Service {
    const hierarchy: Hierarchy
    const recognized: set<string>
    ghost const acyclic: Certificate
    var overwriteData: Store
    var resolvedTypes: seq<string>

    ghost predicate Valid() {
      Certifies(acyclic, hierarchy)
    }

    constructor (hierarchy: Hierarchy, recognized: set<string>, ghost acyclic: Certificate)
      requires Certifies(acyclic, hierarchy)
      ensures Valid() && this.hierarchy == hierarchy && this.recognized == recognized && this.acyclic == acyclic
      ensures overwriteData == map[] && resolvedTypes == []
    {
      this.hierarchy, this.recognized, this.acyclic := hierarchy, recognized, acyclic;
      overwriteData, resolvedTypes := map[], [];
    }

    method GetOverwrites(t: string) returns (r: Option<Fields>)
      requires Valid()
      modifies this`resolvedTypes
      ensures (r, resolvedTypes) == Resolve(hierarchy, acyclic, recognized, overwriteData, old(resolvedTypes), t)
      decreases acyclic.rank(t)
    {
      if t in resolvedTypes {
        return Entry(overwriteData, t);
      }
      if t !in recognized {
        return None;
      }
      if t !in hierarchy {
        resolvedTypes := resolvedTypes + [t];
        return Entry(overwriteData, t);
      }
      var parents := hierarchy[t];
      var overwrites: Fields := map[];
      ghost var bound := acyclic.rank(t);
      ghost var result := Inherit(hierarchy, acyclic, recognized, overwriteData, resolvedTypes, parents, map[], bound);
      var i := 0;
      while i < |parents|
        invariant 0 <= i <= |parents| && Below(acyclic, parents[i..], bound)
        invariant result == Inherit(hierarchy, acyclic, recognized, overwriteData, resolvedTypes, parents[i..], overwrites, bound)
      {
        assert parents[i] in parents;
        assert parents[i..][0] == parents[i] && parents[i..][1..] == parents[i + 1..];
        var inherited := GetOverwrites(parents[i]);
        if inherited.Some? {
          overwrites := overwrites + inherited.value;
        }
        i := i + 1;
      }
      if t in overwriteData {
        overwrites := overwrites + overwriteData[t];
      }
      resolvedTypes := resolvedTypes + [t];
      return Some(overwrites);
    }

    /** `types` lists the keys of the new data in the order in which they are enumerated. */
    method SetPlainData(data: Store, types: seq<string>)
      requires Valid() && forall t :: t in types <==> t in data
      modifies this
      ensures overwriteData == Flatten(hierarchy, acyclic, recognized, data, types)
    {
      resolvedTypes := [];
      overwriteData := data;
      var i := 0;
      assert types[0..] == types;
      while i < |types|
        invariant 0 <= i <= |types|
        invariant Flatten(hierarchy, acyclic, recognized, data, types)
               == FlattenFrom(hierarchy, acyclic, recognized, overwriteData, resolvedTypes, types[i..]).0
      {
        assert types[i..][0] == types[i] && types[i..][1..] == types[i + 1..];
        var overwrites := GetOverwrites(types[i]);
        if overwrites.Some? && overwrites.value != map[] {
          overwriteData := overwriteData[types[i] := overwrites.value];
        }
        i := i + 1;
      }
    }

    method ApplyOverwrite(t: string, data: Fields, skipTypes: seq<string>) returns (r: Fields)
      requires Valid()
      ensures r == Applied(Get(hierarchy, acyclic, overwriteData, t), t in skipTypes, data)
    {
      var found := Get(hierarchy, acyclic, overwriteData, t);
      if found.None? {
        return data;
      }
      var overwrites := found.value;
      if t in skipTypes && Customised(overwrites, data) {
        return data;
      }
      r := FillEmptyFields(overwrites, data);
    }
  }

  lemma FillNext(overwrites: Fields, data: Fields, todo: set<string>, k: string)
    requires todo <= overwrites.Keys && k in todo
    ensures var r := FilledAt(overwrites, data, overwrites.Keys - todo);
      FilledAt(overwrites, data, overwrites.Keys - (todo - {k})) == if IsEmpty(Stored(r, k)) then r[k := overwrites[k]] else r
  {
    FillOneMore(overwrites, data, overwrites.Keys - todo, k);
    assert overwrites.Keys - (todo - {k}) == overwrites.Keys - todo + {k};
  }

  /** The loop of `applyOverwrite`; the overwritten fields are visited in any order. */
  method FillEmptyFields(overwrites: Fields, data: Fields) returns (r: Fields)
    ensures r == Filled(overwrites, data)
  {
    r := data;
    var todo := overwrites.Keys;
    assert FilledAt(overwrites, data, overwrites.Keys - todo) == data;
    while todo != {}
      invariant todo <= overwrites.Keys
      invariant r == FilledAt(overwrites, data, overwrites.Keys - todo)
      decreases |todo|
    {
      var key :| key in todo;
      FillNext(overwrites, data, todo, key);
      if IsEmpty(Stored(r, key)) {
        r := r[key := overwrites[key]];
      }
      todo := todo - {key};
    }
    assert overwrites.Keys - todo == overwrites.Keys;
  }
}
