/**
 Inheritance between credential types (`CredentialTypes.getParentTypes`).

 `getParentTypes` appends to the list that it is walking through, so every type it appends is
 visited too and its own parent types are appended once more. On an acyclic hierarchy this ends,
 but ancestors turn up several times.
 */
module CredentialTypes {

  /** For each known type, the types it extends. */
  type Hierarchy = map<string, seq<string>>

  function Extends(h: Hierarchy, t: string): seq<string> {
    if t in h then h[t] else []
  }

  /** Why a hierarchy is acyclic: parents have smaller ranks. `fan` bounds the number of parents. */
  datatype Certificate = Certificate(rank: string -> nat, fan: nat)

  ghost predicate Certifies(c: Certificate, h: Hierarchy) {
    && (forall t | t in h :: |h[t]| <= c.fan)
    && (forall t | t in h :: forall p | p in h[t] :: c.rank(p) < c.rank(t))
  }

  // ---------- a bound for the walk ----------

  function Square(n: nat): nat { n * n }

  /** How many types the walk can visit on account of one type of rank `r`. */
  function Cap(fan: nat, r: nat): (cap: nat)
    ensures cap >= 1
  {
    if r == 0 then 1 else Cap(fan, r - 1) + fan * Square(Cap(fan, r - 1))
  }

  function Weight(c: Certificate, types: seq<string>): nat {
    if types == [] then 0 else Cap(c.fan, c.rank(types[0])) + Weight(c, types[1..])
  }

  predicate Below(c: Certificate, types: seq<string>, r: nat) {
    forall t | t in types :: c.rank(t) < r
  }

  lemma {:induction false} CapGrows(fan: nat, q: nat, r: nat)
    requires q <= r
    ensures Cap(fan, q) <= Cap(fan, r)
  {
    if q < r {
      CapGrows(fan, q, r - 1);
    }
  }

  lemma {:induction false} WeightOfSum(c: Certificate, a: seq<string>, b: seq<string>)
    ensures Weight(c, a + b) == Weight(c, a) + Weight(c, b)
  {
    if a == [] {
      assert a + b == b;
    } else {
      assert (a + b)[1..] == a[1..] + b;
      WeightOfSum(c, a[1..], b);
    }
  }

  lemma {:induction false} WeightBound(c: Certificate, types: seq<string>, r: nat)
    requires Below(c, types, r) && r > 0
    ensures |types| <= Weight(c, types) <= |types| * Cap(c.fan, r - 1)
  {
    if types != [] {
      assert types[0] in types;
      assert Below(c, types[1..], r);
      CapGrows(c.fan, c.rank(types[0]), r - 1);
      WeightBound(c, types[1..], r);
      Distribute(|types| - 1, 1, Cap(c.fan, r - 1));
    }
  }

  lemma Distribute(a: nat, b: nat, k: nat)
    ensures (a + b) * k == a * k + b * k
  {
  }

  lemma MulGrows(a: nat, b: nat, k: nat)
    requires a <= b
    ensures a * k <= b * k
  {
    Distribute(a, b - a, k);
  }

  lemma BelowIsPositive(c: Certificate, types: seq<string>, r: nat)
    requires Below(c, types, r)
    ensures types != [] ==> r > 0
  {
    if types != [] { assert types[0] in types; }
  }

  lemma Reassociate(a: nat, k: nat)
    ensures (a * k) * k == a * Square(k)
  {
  }

  /** The parent types of a type weigh less than the type itself. */
  lemma ParentsWeighLess(c: Certificate, t: string, types: seq<string>)
    requires Below(c, types, c.rank(t))
    requires c.rank(t) > 0 ==> |types| <= c.fan * Cap(c.fan, c.rank(t) - 1)
    ensures Weight(c, types) < Cap(c.fan, c.rank(t))
  {
    if c.rank(t) == 0 {
      BelowIsPositive(c, types, c.rank(t));
    } else {
      var k := Cap(c.fan, c.rank(t) - 1);
      WeightBound(c, types, c.rank(t));
      var most := c.fan * k;
      MulGrows(|types|, most, k);
      Reassociate(c.fan, k);
      assert Weight(c, types) <= c.fan * Square(k);
    }
  }

  // ---------- the walk ----------

  /**
   What a walk that starts with the list `pending` ends up with: each visited type appends its own
   parent types. `bound` exceeds the ranks of the pending types.
   */
  function Walk(h: Hierarchy, ghost c: Certificate, ghost bound: nat, pending: seq<string>): (all: seq<string>)
    requires Certifies(c, h) && Below(c, pending, bound)
    ensures Below(c, all, bound) && |all| <= Weight(c, pending)
    decreases bound, 0, Weight(c, pending)
  {
    if pending == [] then []
    else
      assert pending[0] in pending;
      var parents := ParentTypes(h, c, pending[0]);
      WeightOfSum(c, pending[1..], parents);
      ParentsWeighLess(c, pending[0], parents);
      [pending[0]] + Walk(h, c, bound, pending[1..] + parents)
  }

  function ParentTypes(h: Hierarchy, ghost c: Certificate, t: string): (all: seq<string>)
    requires Certifies(c, h)
    ensures Below(c, all, c.rank(t))
    ensures c.rank(t) > 0 ==> |all| <= c.fan * Cap(c.fan, c.rank(t) - 1)
    decreases c.rank(t), 1, 0
  {
    assert Below(c, Extends(h, t), c.rank(t));
    assert c.rank(t) > 0 ==> Weight(c, Extends(h, t)) <= c.fan * Cap(c.fan, c.rank(t) - 1) by {
      if c.rank(t) > 0 {
        WeightBound(c, Extends(h, t), c.rank(t));
        MulGrows(|Extends(h, t)|, c.fan, Cap(c.fan, c.rank(t) - 1));
      }
    }
    Walk(h, c, c.rank(t), Extends(h, t))
  }

  /** Visiting one type makes what is pending lighter. */
  lemma VisitOne(h: Hierarchy, c: Certificate, bound: nat, pending: seq<string>)
    requires Certifies(c, h) && Below(c, pending, bound) && pending != []
    ensures var next := pending[1..] + ParentTypes(h, c, pending[0]);
      && Below(c, next, bound) && Weight(c, next) < Weight(c, pending)
      && Walk(h, c, bound, pending) == [pending[0]] + Walk(h, c, bound, next)
  {
    assert pending[0] in pending;
    var parents := ParentTypes(h, c, pending[0]);
    WeightOfSum(c, pending[1..], parents);
    ParentsWeighLess(c, pending[0], parents);
  }

  lemma WalkOne(h: Hierarchy, c: Certificate, bound: nat, list: seq<string>, i: nat)
    requires Certifies(c, h) && Below(c, list, bound) && i < |list|
    ensures var more := ParentTypes(h, c, list[i]);
      && Below(c, list + more, bound)
      && Weight(c, (list + more)[i + 1..]) < Weight(c, list[i..])
      && list[..i] + Walk(h, c, bound, list[i..]) == (list + more)[..i + 1] + Walk(h, c, bound, (list + more)[i + 1..])
  {
    var more := ParentTypes(h, c, list[i]);
    assert list[i] in list;
    assert list[i..][0] == list[i];
    assert list[i..][1..] + more == (list + more)[i + 1..];
    assert (list + more)[..i + 1] == list[..i] + [list[i]];
    VisitOne(h, c, bound, list[i..]);
  }

  /** The loop: the list grows while it is walked through. */
  method GetParentTypes(h: Hierarchy, ghost c: Certificate, typeName: string) returns (parents: seq<string>)
    requires Certifies(c, h)
    ensures parents == ParentTypes(h, c, typeName)
    decreases c.rank(typeName)
  {
    parents := Extends(h, typeName);
    if |parents| == 0 {
      return;
    }
    ghost var bound := c.rank(typeName);
    var i := 0;
    assert parents[..0] + Walk(h, c, bound, parents[0..]) == Walk(h, c, bound, parents) by {
      assert parents[0..] == parents;
    }
    while i < |parents|
      invariant 0 <= i <= |parents| && Below(c, parents, bound)
      invariant ParentTypes(h, c, typeName) == parents[..i] + Walk(h, c, bound, parents[i..])
      decreases Weight(c, parents[i..])
    {
      WalkOne(h, c, bound, parents, i);
      assert parents[i] in parents;
      var more := GetParentTypes(h, c, parents[i]);
      parents := parents + more;
      i := i + 1;
    }
    assert parents[..i] + Walk(h, c, bound, parents[i..]) == parents;
  }

  // ---------- the result is the set of strict ancestors ----------

  /** Each type of the path extends the next one. */
  predicate Path(h: Hierarchy, p: seq<string>) {
    |p| >= 2 && forall i | 0 <= i < |p| - 1 :: p[i + 1] in Extends(h, p[i])
  }

  ghost predicate StrictAncestor(h: Hierarchy, a: string, t: string) {
    exists p :: Path(h, p) && p[0] == t && p[|p| - 1] == a
  }

  lemma DirectParent(h: Hierarchy, a: string, t: string)
    requires a in Extends(h, t)
    ensures StrictAncestor(h, a, t)
  {
    assert Path(h, [t, a]);
  }

  lemma FartherAncestor(h: Hierarchy, a: string, b: string, t: string)
    requires StrictAncestor(h, a, b) && StrictAncestor(h, b, t)
    ensures StrictAncestor(h, a, t)
  {
    var p :| Path(h, p) && p[0] == b && p[|p| - 1] == a;
    var q :| Path(h, q) && q[0] == t && q[|q| - 1] == b;
    var r := q + p[1..];
    forall i | 0 <= i < |r| - 1 ensures r[i + 1] in Extends(h, r[i]) {
      if i >= |q| - 1 {
        assert r[i + 1] == p[i + 1 - |q| + 1];
        assert r[i] == p[i - |q| + 1];
      }
    }
    assert Path(h, r);
  }

  /** A certificate rules out cycles: ancestors have smaller ranks, so no type is its own ancestor. */
  lemma {:induction false} AncestorsRankLower(h: Hierarchy, c: Certificate, p: seq<string>)
    requires Certifies(c, h) && Path(h, p)
    ensures c.rank(p[|p| - 1]) < c.rank(p[0])
    decreases |p|
  {
    assert p[1] in Extends(h, p[0]);
    if |p| > 2 {
      assert Path(h, p[1..]);
      AncestorsRankLower(h, c, p[1..]);
    }
  }

  /** The first step of the path leads to a direct parent. */
  lemma FirstStep(h: Hierarchy, a: string, t: string) returns (parent: string)
    requires StrictAncestor(h, a, t)
    ensures parent in Extends(h, t) && (a == parent || StrictAncestor(h, a, parent))
  {
    var p :| Path(h, p) && p[0] == t && p[|p| - 1] == a;
    parent := p[1];
    if |p| > 2 {
      assert Path(h, p[1..]);
    }
  }

  lemma {:induction false} WalkFindsAncestors(h: Hierarchy, c: Certificate, bound: nat, pending: seq<string>, a: string)
    requires Certifies(c, h) && Below(c, pending, bound)
    ensures a in Walk(h, c, bound, pending) <==> exists t | t in pending :: a == t || StrictAncestor(h, a, t)
    decreases bound, 0, Weight(c, pending)
  {
    if pending != [] {
      var first := pending[0];
      assert first in pending;
      var parents := ParentTypes(h, c, first);
      WeightOfSum(c, pending[1..], parents);
      ParentsWeighLess(c, first, parents);
      var rest := pending[1..] + parents;
      WalkFindsAncestors(h, c, bound, rest, a);
      forall b ensures b in parents <==> StrictAncestor(h, b, first) {
        ParentTypesAreAncestors(h, c, first, b);
      }
      if a in Walk(h, c, bound, pending) && a != first {
        var t :| t in rest && (a == t || StrictAncestor(h, a, t));
        if t in parents {
          if a != t { FartherAncestor(h, a, t, first); }
          assert StrictAncestor(h, a, first);
        } else {
          assert t in pending[1..];
          assert t in pending;
        }
      }
      if exists t | t in pending :: a == t || StrictAncestor(h, a, t) {
        var t :| t in pending && (a == t || StrictAncestor(h, a, t));
        if t == first {
          if a != t { assert a in parents; assert a in rest; }
        } else {
          assert t in pending[1..];
          assert t in rest;
        }
      }
    }
  }

  /** On an acyclic hierarchy the result holds exactly the types reachable by `extends`. */
  lemma {:induction false} ParentTypesAreAncestors(h: Hierarchy, c: Certificate, t: string, a: string)
    requires Certifies(c, h)
    ensures a in ParentTypes(h, c, t) <==> StrictAncestor(h, a, t)
    decreases c.rank(t), 1, 0
  {
    WalkFindsAncestors(h, c, c.rank(t), Extends(h, t), a);
    if StrictAncestor(h, a, t) {
      var p := FirstStep(h, a, t);
    }
    if exists p | p in Extends(h, t) :: a == p || StrictAncestor(h, a, p) {
      var p :| p in Extends(h, t) && (a == p || StrictAncestor(h, a, p));
      DirectParent(h, p, t);
      if a != p { FartherAncestor(h, a, p, t); }
    }
  }

  // ---------- single-parent hierarchies ----------

  predicate SingleParent(h: Hierarchy) {
    forall t | t in h :: |h[t]| <= 1
  }

  /** The strict ancestors of a type, nearest first. */
  function Chain(h: Hierarchy, ghost c: Certificate, t: string): seq<string>
    requires Certifies(c, h) && SingleParent(h)
    decreases c.rank(t)
  {
    if Extends(h, t) == [] then [] else [Extends(h, t)[0]] + Chain(h, c, Extends(h, t)[0])
  }

  lemma FirstThenRest(a: seq<string>, b: seq<string>, c: seq<string>)
    requires a != []
    ensures [a[0]] + ((a[1..] + b) + c) == a + (b + c)
  {
  }

  /** A walk first lists everything that was pending, in order. */
  lemma {:induction false} WalkStartsWithPending(h: Hierarchy, c: Certificate, bound: nat, pending: seq<string>) returns (tail: seq<string>)
    requires Certifies(c, h) && Below(c, pending, bound)
    ensures Walk(h, c, bound, pending) == pending + tail
    decreases bound, 0, Weight(c, pending)
  {
    if pending == [] {
      tail := [];
    } else {
      var parents := ParentTypes(h, c, pending[0]);
      VisitOne(h, c, bound, pending);
      var rest := WalkStartsWithPending(h, c, bound, pending[1..] + parents);
      tail := parents + rest;
      FirstThenRest(pending, parents, rest);
    }
  }

  /** With one parent `p` the list is `p`, then the list of `p`, then repetitions. */
  lemma ParentTypesOfChild(h: Hierarchy, c: Certificate, t: string) returns (tail: seq<string>)
    requires Certifies(c, h) && SingleParent(h) && Extends(h, t) != []
    ensures var p := Extends(h, t)[0];
      && c.rank(p) < c.rank(t)
      && ParentTypes(h, c, t) == [p] + ParentTypes(h, c, p) + tail
      && forall a | a in tail :: a in ParentTypes(h, c, p)
  {
    var p := Extends(h, t)[0];
    var bound := c.rank(t);
    var above := ParentTypes(h, c, p);
    assert Extends(h, t) == [p];
    assert [] + above == above;
    ParentsWeighLess(c, p, above);
    assert Weight(c, [p]) == Cap(c.fan, c.rank(p)) + Weight(c, []);
    assert Walk(h, c, bound, [p]) == [p] + Walk(h, c, bound, [p][1..] + above);
    tail := WalkStartsWithPending(h, c, bound, above);
    forall a | a in tail ensures a in above {
      assert a in above + tail;
      WalkFindsAncestors(h, c, bound, above, a);
      var b :| b in above && (a == b || StrictAncestor(h, a, b));
      ParentTypesAreAncestors(h, c, p, b);
      if a != b { FartherAncestor(h, a, b, p); }
      ParentTypesAreAncestors(h, c, p, a);
    }
  }

  function FirstIndex(list: seq<string>, x: string): (i: nat)
    requires x in list
    ensures i < |list| && list[i] == x
    ensures forall j :: 0 <= j < i ==> list[j] != x
  {
    if list[0] == x then 0 else 1 + FirstIndex(list[1..], x)
  }

  lemma FirstIndexIsUnique(list: seq<string>, x: string, i: nat)
    requires i < |list| && list[i] == x && forall j :: 0 <= j < i ==> list[j] != x
    ensures x in list && FirstIndex(list, x) == i
  {
  }

  lemma {:induction false} ChainIsListed(h: Hierarchy, c: Certificate, t: string)
    requires Certifies(c, h) && SingleParent(h)
    ensures forall a | a in Chain(h, c, t) :: a in ParentTypes(h, c, t) && c.rank(a) < c.rank(t)
    decreases c.rank(t)
  {
    if Extends(h, t) != [] {
      var p := Extends(h, t)[0];
      var tail := ParentTypesOfChild(h, c, t);
      ChainIsListed(h, c, p);
    }
  }

  lemma FirstIndexBelow(all: seq<string>, p: string, above: seq<string>, tail: seq<string>, x: string)
    requires all == [p] + above + tail && x in above && x != p
    ensures x in all && FirstIndex(all, x) == 1 + FirstIndex(above, x)
  {
    var k := FirstIndex(above, x);
    assert all[1 + k] == above[k];
    forall j | 0 <= j < 1 + k ensures all[j] != x {
      if j > 0 { assert all[j] == above[j - 1]; }
    }
    FirstIndexIsUnique(all, x, 1 + k);
  }

  lemma OrderExtends(all: seq<string>, p: string, above: seq<string>, tail: seq<string>, a: string, b: string)
    requires all == [p] + above + tail && b in above && b != p
    requires a == p || (a in above && a != p && FirstIndex(above, a) < FirstIndex(above, b))
    ensures a in all && b in all && FirstIndex(all, a) < FirstIndex(all, b)
  {
    FirstIndexBelow(all, p, above, tail, b);
    if a == p {
      FirstIndexIsUnique(all, p, 0);
    } else {
      FirstIndexBelow(all, p, above, tail, a);
    }
  }

  /** The first occurrences in `all` come in the order of `chain`. */
  predicate InOrderOf(chain: seq<string>, all: seq<string>) {
    forall i, j | 0 <= i < j < |chain| ::
      chain[i] in all && chain[j] in all && FirstIndex(all, chain[i]) < FirstIndex(all, chain[j])
  }

  lemma OneMoreInOrder(chain: seq<string>, all: seq<string>, p: string, above: seq<string>, tail: seq<string>)
    requires all == [p] + above + tail && InOrderOf(chain, above)
    requires forall a | a in chain :: a in above && a != p
    ensures InOrderOf([p] + chain, all)
  {
    var longer := [p] + chain;
    forall i, j | 0 <= i < j < |longer|
      ensures longer[i] in all && longer[j] in all && FirstIndex(all, longer[i]) < FirstIndex(all, longer[j])
    {
      assert longer[j] == chain[j - 1];
      assert i > 0 ==> longer[i] == chain[i - 1];
      OrderExtends(all, p, above, tail, longer[i], longer[j]);
    }
  }

  /** A nearer ancestor is listed first. */
  lemma {:induction false} NearerAncestorsFirst(h: Hierarchy, c: Certificate, t: string)
    requires Certifies(c, h) && SingleParent(h)
    ensures InOrderOf(Chain(h, c, t), ParentTypes(h, c, t))
    decreases c.rank(t)
  {
    if Extends(h, t) != [] {
      var p := Extends(h, t)[0];
      var tail := ParentTypesOfChild(h, c, t);
      ChainIsListed(h, c, p);
      NearerAncestorsFirst(h, c, p);
      OneMoreInOrder(Chain(h, c, p), ParentTypes(h, c, t), p, ParentTypes(h, c, p), tail);
    }
  }
}
