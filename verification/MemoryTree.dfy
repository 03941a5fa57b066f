/** The memory tree: leaves linked under group nodes, and the budgeted depth-first rebuilding of a context. */
module MemoryTree {
  import opened Common

  /** Ids are positions in insertion order, which is also the order of `created_at`. */
  datatype Node = Node(session: string, parent: Option<nat>, content: string)

  type Nodes = seq<Node>

  /** Every parent was created after its child: the measure that makes the expansion terminate. */
  ghost predicate Forest(ns: Nodes) {
    forall i :: 0 <= i < |ns| && ns[i].parent.Some? ==> i < ns[i].parent.value < |ns|
  }

  // ---------- growing the tree ----------

  function AddLeaf(ns: Nodes, session: string, content: string): Nodes {
    ns + [Node(session, None, content)]
  }

  /** Re-parent the existing ones among `ids`. */
  function Reparent(ns: Nodes, ids: seq<nat>, group: nat): (r: Nodes)
    ensures |r| == |ns|
    ensures forall i :: 0 <= i < |ns| ==> r[i] == if i in ids then ns[i].(parent := Some(group)) else ns[i]
  {
    if ids == [] then ns
    else
      var n := |ids| - 1;
      var r := Reparent(ns, ids[..n], group);
      assert ids == ids[..n] + [ids[n]];
      if ids[n] < |ns| then r[ids[n] := r[ids[n]].(parent := Some(group))] else r
  }

  function LinkToGroup(ns: Nodes, session: string, ids: seq<nat>): Nodes {
    Reparent(ns + [Node(session, None, "")], ids, |ns|)
  }

  datatype Step = Add(session: string, content: string) | Link(session: string, ids: seq<nat>)

  function Apply(ns: Nodes, s: Step): Nodes {
    match s
    case Add(session, content) => AddLeaf(ns, session, content)
    case Link(session, ids) => LinkToGroup(ns, session, ids)
  }

  function Run(ns: Nodes, steps: seq<Step>): Nodes {
    if steps == [] then ns else Apply(Run(ns, steps[..|steps| - 1]), steps[|steps| - 1])
  }

  /** No link names the id its own group is about to get. */
  predicate Preexisting(ns: Nodes, steps: seq<Step>) {
    steps == [] ||
    (var n := |steps| - 1;
     Preexisting(ns, steps[..n]) && (steps[n].Link? ==> |Run(ns, steps[..n])| !in steps[n].ids))
  }

  /** A link keeps the forest exactly when it does not name its own group. */
  lemma LinkKeepsForest(ns: Nodes, session: string, ids: seq<nat>)
    requires Forest(ns)
    ensures Forest(LinkToGroup(ns, session, ids)) <==> |ns| !in ids
  {
    var r := LinkToGroup(ns, session, ids);
    if |ns| in ids {
      assert r[|ns|].parent == Some(|ns|);
    }
  }

  /** Every run over pre-existing ids builds a forest. */
  lemma {:induction false} RunsBuildForests(steps: seq<Step>)
    requires Preexisting([], steps)
    ensures Forest(Run([], steps))
  {
    if steps != [] {
      var n := |steps| - 1;
      RunsBuildForests(steps[..n]);
      if steps[n].Link? {
        LinkKeepsForest(Run([], steps[..n]), steps[n].session, steps[n].ids);
      }
    }
  }

  // ---------- queries ----------

  /** Ids below k whose parent is p, in order. */
  function ChildrenBelow(ns: Nodes, p: nat, k: nat): (r: seq<nat>)
    requires k <= |ns|
    ensures |r| <= k
    ensures forall i: nat :: i in r <==> i < k && ns[i].parent == Some(p)
    ensures forall i, j :: 0 <= i < j < |r| ==> r[i] < r[j]
  {
    if k == 0 then []
    else
      var r := ChildrenBelow(ns, p, k - 1);
      if ns[k - 1].parent == Some(p) then
        assert forall i :: 0 <= i < |r| ==> r[i] in r;
        r + [k - 1]
      else r
  }

  function Children(ns: Nodes, p: nat): seq<nat> { ChildrenBelow(ns, p, |ns|) }

  function TopsBelow(ns: Nodes, session: string, k: nat): (r: seq<nat>)
    requires k <= |ns|
    ensures forall i: nat :: i in r <==> i < k && ns[i].parent == None && ns[i].session == session
    ensures forall i, j :: 0 <= i < j < |r| ==> r[i] < r[j]
  {
    if k == 0 then []
    else
      var r := TopsBelow(ns, session, k - 1);
      if ns[k - 1].parent == None && ns[k - 1].session == session then
        assert forall i :: 0 <= i < |r| ==> r[i] in r;
        r + [k - 1]
      else r
  }

  function Tops(ns: Nodes, session: string): seq<nat> { TopsBelow(ns, session, |ns|) }

  // ---------- the unbudgeted depth-first list ----------

  predicate Below(ids: seq<nat>, bound: nat) {
    forall k :: 0 <= k < |ids| ==> ids[k] < bound
  }

  /** Children come before their parent. */
  lemma ChildrenBelowParent(ns: Nodes, p: nat)
    requires Forest(ns)
    ensures Below(Children(ns, p), p) && Below(Children(ns, p), |ns|)
  {
    var cs := Children(ns, p);
    forall k | 0 <= k < |cs|
      ensures cs[k] < p && cs[k] < |ns|
    {
      assert cs[k] in cs;
    }
  }

  lemma TopsInRange(ns: Nodes, session: string)
    ensures Below(Tops(ns, session), |ns|)
  {
    var ts := Tops(ns, session);
    forall k | 0 <= k < |ts|
      ensures ts[k] < |ns|
    {
      assert ts[k] in ts;
    }
  }

  /** The content leaves below a node, depth first. */
  function Full(ns: Nodes, id: nat): seq<nat>
    requires Forest(ns) && id < |ns|
    decreases id, |ns| + 1
  {
    var cs := Children(ns, id);
    if cs == [] then if ns[id].content != "" then [id] else []
    else
      ChildrenBelowParent(ns, id);
      FullAll(ns, cs, id)
  }

  function FullAll(ns: Nodes, ids: seq<nat>, bound: nat): seq<nat>
    requires Forest(ns) && bound <= |ns| && Below(ids, bound)
    decreases bound, |ids|
  {
    if ids == [] then [] else Full(ns, ids[0]) + FullAll(ns, ids[1..], bound)
  }

  /** All content leaves of a session. */
  function FullContext(ns: Nodes, session: string): seq<nat>
    requires Forest(ns)
  {
    TopsInRange(ns, session);
    FullAll(ns, Tops(ns, session), |ns|)
  }

  // ---------- ancestry ----------

  predicate IsAncestor(ns: Nodes, a: nat, x: nat)
    requires Forest(ns) && x < |ns|
    decreases |ns| - x
  {
    a == x || (ns[x].parent.Some? && IsAncestor(ns, a, ns[x].parent.value))
  }

  function Root(ns: Nodes, x: nat): (r: nat)
    requires Forest(ns) && x < |ns|
    ensures r < |ns| && ns[r].parent == None && IsAncestor(ns, r, x)
    decreases |ns| - x
  {
    if ns[x].parent == None then x else Root(ns, ns[x].parent.value)
  }

  lemma {:induction false} AncestorsAbove(ns: Nodes, a: nat, x: nat)
    requires Forest(ns) && x < |ns| && IsAncestor(ns, a, x)
    ensures x <= a < |ns|
    decreases |ns| - x
  {
    if a != x { AncestorsAbove(ns, a, ns[x].parent.value); }
  }

  lemma {:induction false} AncestorsTransitive(ns: Nodes, a: nat, b: nat, x: nat)
    requires Forest(ns) && x < |ns| && b < |ns| && IsAncestor(ns, b, x) && IsAncestor(ns, a, b)
    ensures IsAncestor(ns, a, x)
    decreases |ns| - x
  {
    if b != x { AncestorsTransitive(ns, a, b, ns[x].parent.value); }
  }

  /** Two siblings never share a descendant. */
  lemma {:induction false} SiblingsApart(ns: Nodes, a: nat, b: nat, x: nat)
    requires Forest(ns) && x < |ns| && a < |ns| && b < |ns|
    requires IsAncestor(ns, a, x) && IsAncestor(ns, b, x) && ns[a].parent == ns[b].parent
    ensures a == b
    decreases |ns| - x
  {
    if a == x && b != x {
      AncestorsAbove(ns, b, ns[x].parent.value);
    } else if b == x && a != x {
      AncestorsAbove(ns, a, ns[x].parent.value);
    } else if a != x {
      SiblingsApart(ns, a, b, ns[x].parent.value);
    }
  }

  /** The child of a on the way down to x. */
  lemma {:induction false} StepDown(ns: Nodes, a: nat, x: nat) returns (c: nat)
    requires Forest(ns) && x < |ns| && IsAncestor(ns, a, x) && a != x
    ensures c < |ns| && ns[c].parent == Some(a) && IsAncestor(ns, c, x)
    decreases |ns| - x
  {
    var p := ns[x].parent.value;
    if p == a {
      c := x;
    } else {
      c := StepDown(ns, a, p);
      AncestorsTransitive(ns, c, p, x);
    }
  }

  predicate IsContentLeaf(ns: Nodes, x: nat) {
    x < |ns| && Children(ns, x) == [] && ns[x].content != ""
  }

  lemma NoChildNoDescendant(ns: Nodes, id: nat, x: nat)
    requires Forest(ns) && x < |ns| && IsAncestor(ns, id, x) && x != id
    ensures Children(ns, id) != []
  {
    var c := StepDown(ns, id, x);
    assert c in Children(ns, id);
  }

  /** Below a node, the depth-first list has exactly the content leaves that descend from it. */
  lemma {:induction false} FullMembers(ns: Nodes, id: nat, x: nat)
    requires Forest(ns) && id < |ns|
    ensures x in Full(ns, id) <==> IsContentLeaf(ns, x) && IsAncestor(ns, id, x)
    decreases id, |ns| + 1
  {
    var cs := Children(ns, id);
    if cs == [] {
      if x < |ns| && IsAncestor(ns, id, x) && x != id {
        NoChildNoDescendant(ns, id, x);
      }
    } else {
      ChildrenBelowParent(ns, id);
      FullAllMembers(ns, cs, id, x);
      if IsContentLeaf(ns, x) && IsAncestor(ns, id, x) {
        var c := StepDown(ns, id, x);
        assert c in cs;
      }
      if x in Full(ns, id) {
        var c :| c in cs && IsContentLeaf(ns, x) && IsAncestor(ns, c, x);
        AncestorsTransitive(ns, id, c, x);
      }
    }
  }

  lemma {:induction false} FullAllMembers(ns: Nodes, ids: seq<nat>, bound: nat, x: nat)
    requires Forest(ns) && bound <= |ns| && Below(ids, bound)
    ensures x in FullAll(ns, ids, bound) <==> IsContentLeaf(ns, x) && exists c :: c in ids && IsAncestor(ns, c, x)
    decreases bound, |ids|
  {
    if ids != [] {
      FullMembers(ns, ids[0], x);
      FullAllMembers(ns, ids[1..], bound, x);
      assert ids == [ids[0]] + ids[1..];
    }
  }

  ghost predicate Distinct(s: seq<nat>) {
    forall i, j :: 0 <= i < j < |s| ==> s[i] != s[j]
  }

  ghost predicate Siblings(ns: Nodes, ids: seq<nat>) {
    && Distinct(ids)
    && Below(ids, |ns|)
    && (forall i, j :: i in ids && j in ids ==> ns[i].parent == ns[j].parent)
  }

  lemma DistinctConcat(a: seq<nat>, b: seq<nat>)
    requires Distinct(a) && Distinct(b) && forall x :: x in a ==> x !in b
    ensures Distinct(a + b)
  {
    var s := a + b;
    forall i, j | 0 <= i < j < |s|
      ensures s[i] != s[j]
    {
      if i < |a| <= j {
        assert s[i] in a && s[j] in b;
      }
    }
  }

  /** No node appears twice. */
  lemma {:induction false} FullDistinct(ns: Nodes, id: nat)
    requires Forest(ns) && id < |ns|
    ensures Distinct(Full(ns, id))
    decreases id, |ns| + 1
  {
    var cs := Children(ns, id);
    if cs != [] {
      ChildrenBelowParent(ns, id);
      FullAllDistinct(ns, cs, id);
    }
  }

  lemma {:induction false} FullAllDistinct(ns: Nodes, ids: seq<nat>, bound: nat)
    requires Forest(ns) && bound <= |ns| && Below(ids, bound) && Siblings(ns, ids)
    ensures Distinct(FullAll(ns, ids, bound))
    decreases bound, |ids|
  {
    if ids != [] {
      var a, b := Full(ns, ids[0]), FullAll(ns, ids[1..], bound);
      FullDistinct(ns, ids[0]);
      FullAllDistinct(ns, ids[1..], bound);
      forall x | x in a
        ensures x !in b
      {
        FullMembers(ns, ids[0], x);
        FullAllMembers(ns, ids[1..], bound, x);
        if k :| 0 <= k < |ids[1..]| && IsAncestor(ns, ids[1..][k], x) {
          assert ids[1..][k] == ids[k + 1] != ids[0];
          SiblingsApart(ns, ids[0], ids[k + 1], x);
        }
      }
      DistinctConcat(a, b);
    }
  }

  /** A session's context lists, once each, exactly the content leaves whose root belongs to the session. */
  lemma FullContextMeaning(ns: Nodes, session: string)
    requires Forest(ns)
    ensures Distinct(FullContext(ns, session))
    ensures forall x :: x in FullContext(ns, session) <==>
      IsContentLeaf(ns, x) && ns[Root(ns, x)].session == session
  {
    var tops := Tops(ns, session);
    TopsInRange(ns, session);
    FullAllDistinct(ns, tops, |ns|);
    forall x
      ensures x in FullContext(ns, session) <==> IsContentLeaf(ns, x) && ns[Root(ns, x)].session == session
    {
      FullAllMembers(ns, tops, |ns|, x);
      if IsContentLeaf(ns, x) {
        if ns[Root(ns, x)].session == session {
          assert Root(ns, x) in tops;
        }
        if c :| c in tops && IsAncestor(ns, c, x) {
          SiblingsApart(ns, c, Root(ns, x), x);
        }
      }
    }
  }

  // ---------- the budget ----------

  /** Cost of a leaf: the length of what is put into the context. */
  function Cost(ns: Nodes, render: string -> string): nat -> nat {
    (id: nat) => if id < |ns| then |render(ns[id].content)| else 0
  }

  function Used(cost: nat -> nat, ids: seq<nat>): nat {
    if ids == [] then 0 else cost(ids[0]) + Used(cost, ids[1..])
  }

  /** Leaves are taken while the tokens used before them stay below the limit. */
  function Take(cost: nat -> nat, ids: seq<nat>, used: nat, limit: int): seq<nat> {
    if ids == [] || used >= limit then []
    else [ids[0]] + Take(cost, ids[1..], used + cost(ids[0]), limit)
  }

  lemma {:induction false} UsedAppend(cost: nat -> nat, a: seq<nat>, b: seq<nat>)
    ensures Used(cost, a + b) == Used(cost, a) + Used(cost, b)
  {
    if a == [] {
      assert a + b == b;
    } else {
      assert (a + b)[1..] == a[1..] + b;
      UsedAppend(cost, a[1..], b);
    }
  }

  lemma TakeCons(cost: nat -> nat, ids: seq<nat>, used: nat, limit: int)
    requires ids != [] && used < limit
    ensures Take(cost, ids, used, limit) == [ids[0]] + Take(cost, ids[1..], used + cost(ids[0]), limit)
    ensures Used(cost, Take(cost, ids, used, limit))
         == cost(ids[0]) + Used(cost, Take(cost, ids[1..], used + cost(ids[0]), limit))
  {
    var t1 := Take(cost, ids[1..], used + cost(ids[0]), limit);
    assert ([ids[0]] + t1)[1..] == t1;
  }

  lemma TakeConcat(cost: nat -> nat, a: seq<nat>, b: seq<nat>, used: nat, limit: int)
    requires a != [] && used < limit
    ensures Take(cost, a + b, used, limit) == [a[0]] + Take(cost, a[1..] + b, used + cost(a[0]), limit)
  {
    TakeCons(cost, a + b, used, limit);
    assert (a + b)[1..] == a[1..] + b;
  }

  lemma Regroup(x: seq<nat>, y: seq<nat>, z: seq<nat>)
    ensures x + (y + z) == (x + y) + z
  {}

  /** Expanding one list after another is expanding their concatenation. */
  lemma {:induction false} TakeAppend(cost: nat -> nat, a: seq<nat>, b: seq<nat>, used: nat, limit: int)
    ensures Take(cost, a + b, used, limit)
         == Take(cost, a, used, limit) + Take(cost, b, used + Used(cost, Take(cost, a, used, limit)), limit)
  {
    if a == [] {
      assert a + b == b;
    } else if used < limit {
      TakeAppend(cost, a[1..], b, used + cost(a[0]), limit);
      TakeOnward(cost, a, b, used, limit, Take(cost, a[1..], used + cost(a[0]), limit));
    } else {
      assert Take(cost, a, used, limit) == [] && Take(cost, a + b, used, limit) == [];
    }
  }

  lemma TakeOnward(cost: nat -> nat, a: seq<nat>, b: seq<nat>, used: nat, limit: int, t: seq<nat>)
    requires a != [] && used < limit && t == Take(cost, a[1..], used + cost(a[0]), limit)
    requires Take(cost, a[1..] + b, used + cost(a[0]), limit)
          == t + Take(cost, b, used + cost(a[0]) + Used(cost, t), limit)
    ensures Take(cost, a + b, used, limit)
         == Take(cost, a, used, limit) + Take(cost, b, used + Used(cost, Take(cost, a, used, limit)), limit)
  {
    var rest := Take(cost, b, used + cost(a[0]) + Used(cost, t), limit);
    TakeCons(cost, a, used, limit);
    calc {
      Take(cost, a + b, used, limit);
      { TakeConcat(cost, a, b, used, limit); }
      [a[0]] + (t + rest);
      { Regroup([a[0]], t, rest); }
      Take(cost, a, used, limit) + rest;
    }
  }

  /** What is taken is a prefix; the budget is overrun by less than the last leaf; a shorter prefix means the budget
      is spent. */
  lemma {:induction false} TakeBounds(cost: nat -> nat, ids: seq<nat>, used: nat, limit: int)
    ensures var t := Take(cost, ids, used, limit);
      && |t| <= |ids| && t == ids[..|t|]
      && (t != [] ==> used + Used(cost, t) < limit + cost(t[|t| - 1]))
      && (t != ids ==> used + Used(cost, t) >= limit)
  {
    if ids != [] && used < limit {
      var t1 := Take(cost, ids[1..], used + cost(ids[0]), limit);
      TakeBounds(cost, ids[1..], used + cost(ids[0]), limit);
      TakeCons(cost, ids, used, limit);
      var t := [ids[0]] + t1;
      assert t != ids ==> t1 != ids[1..];
      assert t[|t| - 1] == if t1 == [] then ids[0] else t1[|t1| - 1];
    }
  }

  // ---------- the rebuilt context ----------

  datatype Item = Leaf(id: nat, text: string) | Truncated

  function Items(ns: Nodes, render: string -> string, ids: seq<nat>): (r: seq<Item>)
    requires Below(ids, |ns|)
    ensures |r| == |ids|
    ensures forall k :: 0 <= k < |ids| ==> r[k] == Leaf(ids[k], render(ns[ids[k]].content))
  {
    seq(|ids|, k requires 0 <= k < |ids| => Leaf(ids[k], render(ns[ids[k]].content)))
  }

  lemma ItemsAppend(ns: Nodes, render: string -> string, a: seq<nat>, b: seq<nat>)
    requires Below(a, |ns|) && Below(b, |ns|)
    ensures Below(a + b, |ns|) && Items(ns, render, a + b) == Items(ns, render, a) + Items(ns, render, b)
  {}

  /** The first k of these nodes leave something of the budget. */
  predicate Unspent(ns: Nodes, cost: nat -> nat, tops: seq<nat>, k: nat, limit: int)
    requires Forest(ns) && Below(tops, |ns|) && k <= |tops|
  {
    assert Below(tops[..k], |ns|);
    Used(cost, Take(cost, FullAll(ns, tops[..k], |ns|), 0, limit)) < limit
  }

  /** The marker is added when the budget is spent before the last top-level node is reached. */
  predicate Marked(ns: Nodes, render: string -> string, session: string, limit: int)
    requires Forest(ns)
  {
    TopsInRange(ns, session);
    var tops := Tops(ns, session);
    tops != [] && !Unspent(ns, Cost(ns, render), tops, |tops| - 1, limit)
  }

  predicate Cut(ns: Nodes, render: string -> string, session: string, limit: int)
    requires Forest(ns)
  {
    Take(Cost(ns, render), FullContext(ns, session), 0, limit) != FullContext(ns, session)
  }

  lemma {:induction false} FullAllAppend(ns: Nodes, a: seq<nat>, b: seq<nat>, bound: nat)
    requires Forest(ns) && bound <= |ns| && Below(a, bound) && Below(b, bound)
    ensures FullAll(ns, a + b, bound) == FullAll(ns, a, bound) + FullAll(ns, b, bound)
  {
    if a == [] {
      assert a + b == b;
    } else {
      assert (a + b)[1..] == a[1..] + b;
      FullAllAppend(ns, a[1..], b, bound);
    }
  }

  /** The leaves of all top-level nodes but the last. */
  function Front(ns: Nodes, session: string): seq<nat>
    requires Forest(ns)
  {
    TopsInRange(ns, session);
    var tops := Tops(ns, session);
    if tops == [] then [] else FullAll(ns, tops[..|tops| - 1], |ns|)
  }

  /** The leaves of the last top-level node. */
  function Last(ns: Nodes, session: string): seq<nat>
    requires Forest(ns)
  {
    TopsInRange(ns, session);
    var tops := Tops(ns, session);
    if tops == [] then [] else Full(ns, tops[|tops| - 1])
  }

  lemma FrontAndLast(ns: Nodes, session: string)
    requires Forest(ns)
    ensures FullContext(ns, session) == Front(ns, session) + Last(ns, session)
  {
    TopsInRange(ns, session);
    var tops := Tops(ns, session);
    if tops != [] {
      FullAllPush(ns, tops, |tops| - 1, |ns|);
      assert tops[..|tops|] == tops;
    }
  }

  /** A budget spent on two lists in a row. */
  lemma CutOfTwo(cost: nat -> nat, front: seq<nat>, last: seq<nat>, limit: int)
    ensures var marked, whole := Used(cost, Take(cost, front, 0, limit)) >= limit,
                                 Take(cost, front + last, 0, limit) == front + last;
            && (!whole && !marked <==>
                Used(cost, front) < limit && Take(cost, last, Used(cost, front), limit) != last)
            && (whole && marked <==>
                last == [] && Used(cost, front) >= limit && Take(cost, front, 0, limit) == front)
  {
    var t := Take(cost, front, 0, limit);
    TakeAppend(cost, front, last, 0, limit);
    TakeBounds(cost, front, 0, limit);
    if t == front {
      AppendCancels(front, Take(cost, last, Used(cost, front), limit), last);
    } else {
      TakeWhole(cost, front, limit);
    }
    TakeBounds(cost, last, Used(cost, t), limit);
  }

  lemma AppendCancels(a: seq<nat>, b: seq<nat>, c: seq<nat>)
    ensures a + b == a + c <==> b == c
  {
    assert (a + b)[|a|..] == b && (a + c)[|a|..] == c;
  }

  /** What is not taken whole has spent the budget. */
  lemma TakeWhole(cost: nat -> nat, ids: seq<nat>, limit: int)
    requires Take(cost, ids, 0, limit) != ids
    ensures Used(cost, ids) >= limit
  {
    var t := Take(cost, ids, 0, limit);
    TakeBounds(cost, ids, 0, limit);
    assert t + ids[|t|..] == ids;
    UsedAppend(cost, t, ids[|t|..]);
  }

  /** The marker is no reliable sign. Something is cut and nothing marks it exactly when the leaves before the last
      top-level node leave part of the budget and the last node's own leaves do not fit into that. */
  lemma CutUnmarkedIff(ns: Nodes, render: string -> string, session: string, limit: int)
    requires Forest(ns)
    ensures var cost, front, last := Cost(ns, render), Front(ns, session), Last(ns, session);
            Cut(ns, render, session, limit) && !Marked(ns, render, session, limit) <==>
            Used(cost, front) < limit && Take(cost, last, Used(cost, front), limit) != last
  {
    FrontAndLast(ns, session);
    CutOfTwo(Cost(ns, render), Front(ns, session), Last(ns, session), limit);
    TopsInRange(ns, session);
  }

  /** The marker stands although nothing is cut exactly when the last top-level node has no leaves and those before it
      are all taken and spend the budget. */
  lemma MarkedUncutIff(ns: Nodes, render: string -> string, session: string, limit: int)
    requires Forest(ns)
    ensures var cost, front, last := Cost(ns, render), Front(ns, session), Last(ns, session);
            Marked(ns, render, session, limit) && !Cut(ns, render, session, limit) <==>
            Tops(ns, session) != [] && last == [] && Used(cost, front) >= limit && Take(cost, front, 0, limit) == front
  {
    FrontAndLast(ns, session);
    CutOfTwo(Cost(ns, render), Front(ns, session), Last(ns, session), limit);
    TopsInRange(ns, session);
  }

  /** Two leaves of one group. */
  const PAIR: Nodes := [Node("s", Some(2), "aaaa"), Node("s", Some(2), "bbbb"), Node("s", None, "")]

  lemma PairBuilt()
    ensures LinkToGroup(AddLeaf(AddLeaf([], "s", "aaaa"), "s", "bbbb"), "s", [0, 1]) == PAIR && Forest(PAIR)
  {
    assert AddLeaf(AddLeaf([], "s", "aaaa"), "s", "bbbb") == [Node("s", None, "aaaa"), Node("s", None, "bbbb")];
  }

  lemma PairChildren()
    ensures Children(PAIR, 2) == [0, 1]
  {
    assert ChildrenBelow(PAIR, 2, 0) == [];
    assert ChildrenBelow(PAIR, 2, 1) == [0];
    assert ChildrenBelow(PAIR, 2, 2) == [0, 1];
  }

  lemma PairTops()
    ensures Tops(PAIR, "s") == [2]
  {
    assert TopsBelow(PAIR, "s", 0) == [];
    assert TopsBelow(PAIR, "s", 1) == [];
    assert TopsBelow(PAIR, "s", 2) == [];
  }

  lemma PairQueries()
    ensures Forest(PAIR) && Children(PAIR, 2) == [0, 1] && Tops(PAIR, "s") == [2]
    ensures Full(PAIR, 0) == [0] && Full(PAIR, 1) == [1]
  {
    PairChildren();
    PairTops();
    LeafOnly(PAIR, 0);
    LeafOnly(PAIR, 1);
  }

  lemma PairFull()
    ensures Forest(PAIR) && FullContext(PAIR, "s") == [0, 1]
  {
    PairQueries();
    PairLeaves();
    assert Full(PAIR, 2) == [0, 1];
    FullAllOne(PAIR, 2, 3);
  }

  lemma FullAllOne(ns: Nodes, id: nat, bound: nat)
    requires Forest(ns) && id < bound <= |ns|
    ensures FullAll(ns, [id], bound) == Full(ns, id)
  {
    assert FullAll(ns, [id], bound) == Full(ns, id) + FullAll(ns, [], bound);
  }

  lemma PairLeaves()
    ensures Forest(PAIR) && FullAll(PAIR, [0, 1], 2) == [0, 1]
  {
    PairQueries();
    FullAllOne(PAIR, 1, 2);
    assert [0, 1][1..] == [1];
    assert FullAll(PAIR, [0, 1], 2) == [0] + [1];
  }

  /** The marker is no reliable sign: here the second of two leaves is cut, and nothing marks it. */
  lemma CutWithoutMarker()
    ensures var ns := LinkToGroup(AddLeaf(AddLeaf([], "s", "aaaa"), "s", "bbbb"), "s", [0, 1]);
      && Forest(ns)
      && FullContext(ns, "s") == [0, 1]
      && Take(Cost(ns, (x: string) => x), FullContext(ns, "s"), 0, 3) == [0]
      && !Marked(ns, (x: string) => x, "s", 3)
  {
    PairBuilt();
    PairFull();
    PairQueries();
    var cost := Cost(PAIR, (x: string) => x);
    assert cost(0) == 4;
    TakeCons(cost, [0, 1], 0, 3);
    assert [2][..0] == [];
  }

  /** A leaf and a group without children. */
  const SPARSE: Nodes := [Node("s", None, "aaaa"), Node("s", None, "")]

  lemma SparseTops()
    ensures LinkToGroup(AddLeaf([], "s", "aaaa"), "s", []) == SPARSE && Tops(SPARSE, "s") == [0, 1]
  {
    assert TopsBelow(SPARSE, "s", 0) == [];
    assert TopsBelow(SPARSE, "s", 1) == [0];
    assert TopsBelow(SPARSE, "s", 2) == [0, 1];
    assert AddLeaf([], "s", "aaaa") == [Node("s", None, "aaaa")];
  }

  lemma SparseFull()
    ensures Forest(SPARSE) && Full(SPARSE, 0) == [0] && Full(SPARSE, 1) == []
  {
    LeafOnly(SPARSE, 0);
    var cs := Children(SPARSE, 1);
    if cs != [] { HasMember(cs); }
  }

  /** And here the marker says that something was left out, although the one leaf there is has been taken. */
  lemma MarkerWithoutCut()
    ensures var ns := LinkToGroup(AddLeaf([], "s", "aaaa"), "s", []);
      && Forest(ns) && Marked(ns, (x: string) => x, "s", 3) && !Cut(ns, (x: string) => x, "s", 3)
  {
    SparseTops();
    SparseFull();
    var cost := Cost(SPARSE, (x: string) => x);
    assert [0, 1][..1] == [0];
    FullAllOne(SPARSE, 0, 2);
    TakeCons(cost, [0], 0, 3);
    assert Used(cost, [0]) == 4;
    MarkedUncutIff(SPARSE, (x: string) => x, "s", 3);
  }

  lemma LeafOnly(ns: Nodes, i: nat)
    requires Forest(ns) && i < |ns| && ns[i].content != "" && forall k :: 0 <= k < |ns| ==> ns[k].parent != Some(i)
    ensures Full(ns, i) == [i]
  {
    var cs := Children(ns, i);
    if cs != [] { HasMember(cs); }
  }

  // ---------- what the expansion has done so far ----------

  lemma StopTake(ns: Nodes, cost: nat -> nat, ids: seq<nat>, k: nat, bound: nat, used: nat, limit: int)
    requires Forest(ns) && bound <= |ns| && k <= |ids| && Below(ids, bound) && Below(ids[..k], bound)
    requires used + Used(cost, Take(cost, FullAll(ns, ids[..k], bound), used, limit)) >= limit
    ensures Take(cost, FullAll(ns, ids, bound), used, limit) == Take(cost, FullAll(ns, ids[..k], bound), used, limit)
  {
    FullAllSplit(ns, ids, k, bound);
    TakeAppend(cost, FullAll(ns, ids[..k], bound), FullAll(ns, ids[k..], bound), used, limit);
  }

  /** The context holds what the budget allowed of a list of leaves. */
  ghost predicate Holds(ns: Nodes, render: string -> string, cost: nat -> nat, leaves: seq<nat>, used0: nat, limit: int,
                        ctx0: seq<Item>, ctx: seq<Item>, tokens: nat)
  {
    var t := Take(cost, leaves, used0, limit);
    Below(t, |ns|) && ctx == ctx0 + Items(ns, render, t) && tokens == used0 + Used(cost, t)
  }

  lemma SpentHolds(ns: Nodes, render: string -> string, cost: nat -> nat, leaves: seq<nat>, limit: int,
                   ctx: seq<Item>, tokens: nat)
    requires tokens >= limit
    ensures Holds(ns, render, cost, leaves, tokens, limit, ctx, ctx, tokens)
  {
    assert ctx + Items(ns, render, []) == ctx;
  }

  lemma HoldsAppend(ns: Nodes, render: string -> string, cost: nat -> nat, a: seq<nat>, b: seq<nat>, used0: nat,
                    limit: int, ctx0: seq<Item>, ctx: seq<Item>, tokens: nat, ctx': seq<Item>, tokens': nat)
    requires Holds(ns, render, cost, a, used0, limit, ctx0, ctx, tokens)
    requires Holds(ns, render, cost, b, tokens, limit, ctx, ctx', tokens')
    ensures Holds(ns, render, cost, a + b, used0, limit, ctx0, ctx', tokens')
  {
    TakeAppend(cost, a, b, used0, limit);
    HoldsCombine(ns, render, cost, Take(cost, a, used0, limit), Take(cost, b, tokens, limit), a + b, used0, limit,
                 ctx0, ctx, tokens, ctx', tokens');
  }

  lemma HoldsCombine(ns: Nodes, render: string -> string, cost: nat -> nat, t: seq<nat>, t': seq<nat>, all: seq<nat>,
                     used0: nat, limit: int, ctx0: seq<Item>, ctx: seq<Item>, tokens: nat, ctx': seq<Item>,
                     tokens': nat)
    requires Below(t, |ns|) && ctx == ctx0 + Items(ns, render, t) && tokens == used0 + Used(cost, t)
    requires Below(t', |ns|) && ctx' == ctx + Items(ns, render, t') && tokens' == tokens + Used(cost, t')
    requires Take(cost, all, used0, limit) == t + t'
    ensures Holds(ns, render, cost, all, used0, limit, ctx0, ctx', tokens')
  {
    UsedAppend(cost, t, t');
    CombineItems(ns, render, t, t', ctx0, ctx, ctx');
  }

  /** The same for the first k nodes of a list. */
  ghost predicate Expanded(ns: Nodes, render: string -> string, cost: nat -> nat, ids: seq<nat>, k: nat, bound: nat,
                           used0: nat, limit: int, ctx0: seq<Item>, ctx: seq<Item>, tokens: nat)
    requires Forest(ns) && bound <= |ns| && Below(ids, bound) && k <= |ids|
  {
    assert Below(ids[..k], bound);
    Holds(ns, render, cost, FullAll(ns, ids[..k], bound), used0, limit, ctx0, ctx, tokens)
  }

  lemma CombineItems(ns: Nodes, render: string -> string, t: seq<nat>, t': seq<nat>, ctx0: seq<Item>, ctx: seq<Item>,
                     ctx': seq<Item>)
    requires Below(t, |ns|) && Below(t', |ns|)
    requires ctx == ctx0 + Items(ns, render, t) && ctx' == ctx + Items(ns, render, t')
    ensures Below(t + t', |ns|) && ctx' == ctx0 + Items(ns, render, t + t')
  {
    ItemsAppend(ns, render, t, t');
  }

  lemma ExpandedStep(ns: Nodes, render: string -> string, cost: nat -> nat, ids: seq<nat>, k: nat, bound: nat,
                     used0: nat, limit: int, ctx0: seq<Item>, ctx: seq<Item>, tokens: nat, ctx': seq<Item>,
                     tokens': nat)
    requires Forest(ns) && bound <= |ns| && Below(ids, bound) && k < |ids|
    requires Expanded(ns, render, cost, ids, k, bound, used0, limit, ctx0, ctx, tokens)
    requires Holds(ns, render, cost, Full(ns, ids[k]), tokens, limit, ctx, ctx', tokens')
    ensures Expanded(ns, render, cost, ids, k + 1, bound, used0, limit, ctx0, ctx', tokens')
  {
    FullAllPush(ns, ids, k, bound);
    HoldsAppend(ns, render, cost, FullAll(ns, ids[..k], bound), Full(ns, ids[k]), used0, limit, ctx0, ctx, tokens, ctx',
                tokens');
  }

  /** At the end of the list, or once the budget is spent, the whole list is accounted for. */
  lemma ExpandedDone(ns: Nodes, render: string -> string, cost: nat -> nat, ids: seq<nat>, k: nat, bound: nat,
                     used0: nat, limit: int, ctx0: seq<Item>, ctx: seq<Item>, tokens: nat)
    requires Forest(ns) && bound <= |ns| && Below(ids, bound) && k <= |ids|
    requires Expanded(ns, render, cost, ids, k, bound, used0, limit, ctx0, ctx, tokens)
    requires k == |ids| || tokens >= limit
    ensures Holds(ns, render, cost, FullAll(ns, ids, bound), used0, limit, ctx0, ctx, tokens)
  {
    if k == |ids| {
      assert ids[..k] == ids;
    } else {
      StopTake(ns, cost, ids, k, bound, used0, limit);
    }
  }

  lemma SpentIsNotUnspent(ns: Nodes, render: string -> string, cost: nat -> nat, tops: seq<nat>, k: nat, limit: int,
                          ctx: seq<Item>, tokens: nat)
    requires Forest(ns) && Below(tops, |ns|) && k <= |tops|
    requires Expanded(ns, render, cost, tops, k, |ns|, 0, limit, [], ctx, tokens)
    ensures tokens >= limit <==> !Unspent(ns, cost, tops, k, limit)
  {}

  // ---------- the tree object ----------

  /** The two lists the expansion appends to. */
  class ContextBuffer {
    var context: seq<Item>
    var tokens: nat

    constructor ()
      ensures context == [] && tokens == 0
    {
      context, tokens := [], 0;
    }
  }

  class MemoryTreeStore {
    var nodes: Nodes

    constructor ()
      ensures nodes == [] && Forest(nodes)
    {
      nodes := [];
    }

    method AddLeafNode(session: string, content: string) returns (id: nat)
      requires Forest(nodes)
      modifies this
      ensures Forest(nodes) && nodes == AddLeaf(old(nodes), session, content) && id == |old(nodes)|
    {
      id := |nodes|;
      nodes := nodes + [Node(session, None, content)];
    }

    method LinkLeaves(session: string, leafIds: seq<nat>) returns (group: nat)
      requires Forest(nodes)
      modifies this
      ensures nodes == LinkToGroup(old(nodes), session, leafIds) && group == |old(nodes)|
      ensures Forest(nodes) <==> group !in leafIds
    {
      LinkKeepsForest(nodes, session, leafIds);
      group := |nodes|;
      nodes := nodes + [Node(session, None, "")];
      ghost var created := nodes;
      var i := 0;
      while i < |leafIds|
        invariant 0 <= i <= |leafIds|
        invariant nodes == Reparent(created, leafIds[..i], group)
      {
        assert leafIds[..i + 1][..i] == leafIds[..i];
        if leafIds[i] < |nodes| {
          nodes := nodes[leafIds[i] := nodes[leafIds[i]].(parent := Some(group))];
        }
        i := i + 1;
      }
      assert leafIds[..|leafIds|] == leafIds;
    }

    /** The entry of one childless node. */
    method ExpandLeaf(id: nat, buffer: ContextBuffer, limit: int, render: string -> string)
      requires Forest(nodes) && id < |nodes| && Children(nodes, id) == [] && buffer.tokens < limit
      modifies buffer
      ensures var t := Full(nodes, id);
        && Take(Cost(nodes, render), t, old(buffer.tokens), limit) == t
        && Below(t, |nodes|)
        && buffer.context == old(buffer.context) + Items(nodes, render, t)
        && buffer.tokens == old(buffer.tokens) + Used(Cost(nodes, render), t)
    {
      if nodes[id].content != "" {
        var text := render(nodes[id].content);
        buffer.context := buffer.context + [Leaf(id, text)];
        buffer.tokens := buffer.tokens + |text|;
        TakeCons(Cost(nodes, render), [id], old(buffer.tokens), limit);
      }
    }

    method ExpandNode(id: nat, buffer: ContextBuffer, limit: int, render: string -> string)
      requires Forest(nodes) && id < |nodes|
      modifies buffer
      ensures Holds(nodes, render, Cost(nodes, render), Full(nodes, id), old(buffer.tokens), limit,
                    old(buffer.context), buffer.context, buffer.tokens)
      decreases id, 1
    {
      if buffer.tokens >= limit {
        SpentHolds(nodes, render, Cost(nodes, render), Full(nodes, id), limit, buffer.context, buffer.tokens);
        return;
      }
      var children := Children(nodes, id);
      if children == [] {
        ExpandLeaf(id, buffer, limit, render);
        return;
      }
      ChildrenBelowParent(nodes, id);
      ExpandChildren(id, children, buffer, limit, render);
    }

    method ExpandChildren(id: nat, children: seq<nat>, buffer: ContextBuffer, limit: int, render: string -> string)
      requires Forest(nodes) && id < |nodes| && Below(children, id)
      modifies buffer
      ensures Holds(nodes, render, Cost(nodes, render), FullAll(nodes, children, id), old(buffer.tokens), limit,
                    old(buffer.context), buffer.context, buffer.tokens)
      decreases id, 0
    {
      ghost var ns, cost := nodes, Cost(nodes, render);
      ghost var ctx0, used0 := buffer.context, buffer.tokens;
      var k := 0;
      while k < |children| && buffer.tokens < limit
        invariant 0 <= k <= |children|
        invariant Expanded(ns, render, cost, children, k, id, used0, limit, ctx0, buffer.context, buffer.tokens)
      {
        ghost var ctx, tokens := buffer.context, buffer.tokens;
        ExpandNode(children[k], buffer, limit, render);
        ExpandedStep(ns, render, cost, children, k, id, used0, limit, ctx0, ctx, tokens, buffer.context, buffer.tokens);
        k := k + 1;
      }
      ExpandedDone(ns, render, cost, children, k, id, used0, limit, ctx0, buffer.context, buffer.tokens);
    }

    /** The loop over the top-level nodes; it stops at the first one that finds the budget spent. */
    method ExpandTops(tops: seq<nat>, buffer: ContextBuffer, limit: int, render: string -> string) returns (cut: bool)
      requires Forest(nodes) && Below(tops, |nodes|) && buffer.context == [] && buffer.tokens == 0
      modifies buffer
      ensures Holds(nodes, render, Cost(nodes, render), FullAll(nodes, tops, |nodes|), 0, limit, [], buffer.context,
                    buffer.tokens)
      ensures cut <==> tops != [] && !Unspent(nodes, Cost(nodes, render), tops, |tops| - 1, limit)
    {
      var ns := nodes;
      ghost var cost := Cost(ns, render);
      var k := 0;
      while k < |tops|
        invariant 0 <= k <= |tops|
        invariant Expanded(ns, render, cost, tops, k, |ns|, 0, limit, [], buffer.context, buffer.tokens)
        invariant k > 0 ==> Unspent(ns, cost, tops, k - 1, limit)
      {
        SpentIsNotUnspent(ns, render, cost, tops, k, limit, buffer.context, buffer.tokens);
        if buffer.tokens >= limit {
          ExpandedDone(ns, render, cost, tops, k, |ns|, 0, limit, [], buffer.context, buffer.tokens);
          SpentEarly(ns, cost, tops, k, limit);
          return true;
        }
        ghost var ctx, tokens := buffer.context, buffer.tokens;
        ExpandNode(tops[k], buffer, limit, render);
        ExpandedStep(ns, render, cost, tops, k, |ns|, 0, limit, [], ctx, tokens, buffer.context, buffer.tokens);
        k := k + 1;
      }
      ExpandedDone(ns, render, cost, tops, k, |ns|, 0, limit, [], buffer.context, buffer.tokens);
      return false;
    }

    /** The context is the prefix of the full depth-first list that the budget allows, plus the marker. */
    method ReconstructContext(session: string, limit: int, render: string -> string) returns (context: seq<Item>)
      requires Forest(nodes)
      ensures var t := Take(Cost(nodes, render), FullContext(nodes, session), 0, limit);
        && Below(t, |nodes|)
        && context == Items(nodes, render, t) + (if Marked(nodes, render, session, limit) then [Truncated] else [])
    {
      var buffer := new ContextBuffer();
      var tops := Tops(nodes, session);
      TopsInRange(nodes, session);
      var cut := ExpandTops(tops, buffer, limit, render);
      ContextHolds(nodes, render, session, limit, buffer.context, buffer.tokens);
      context := buffer.context + (if cut then [Truncated] else []);
    }
  }

  lemma ContextHolds(ns: Nodes, render: string -> string, session: string, limit: int, ctx: seq<Item>, tokens: nat)
    requires Forest(ns) && Below(Tops(ns, session), |ns|)
    requires Holds(ns, render, Cost(ns, render), FullAll(ns, Tops(ns, session), |ns|), 0, limit, [], ctx, tokens)
    ensures var t := Take(Cost(ns, render), FullContext(ns, session), 0, limit);
      Below(t, |ns|) && ctx == Items(ns, render, t)
  {
    var t := Take(Cost(ns, render), FullContext(ns, session), 0, limit);
    assert [] + Items(ns, render, t) == Items(ns, render, t);
  }

  lemma FullAllSplit(ns: Nodes, ids: seq<nat>, k: nat, bound: nat)
    requires Forest(ns) && bound <= |ns| && k <= |ids| && Below(ids, bound)
    ensures Below(ids[..k], bound) && Below(ids[k..], bound)
    ensures FullAll(ns, ids, bound) == FullAll(ns, ids[..k], bound) + FullAll(ns, ids[k..], bound)
  {
    assert ids == ids[..k] + ids[k..];
    FullAllAppend(ns, ids[..k], ids[k..], bound);
  }

  lemma FullAllPush(ns: Nodes, ids: seq<nat>, k: nat, bound: nat)
    requires Forest(ns) && bound <= |ns| && k < |ids| && Below(ids, bound)
    ensures Below(ids[..k + 1], bound) && Below(ids[..k], bound) && ids[k] < bound
    ensures FullAll(ns, ids[..k + 1], bound) == FullAll(ns, ids[..k], bound) + Full(ns, ids[k])
  {
    assert ids[..k + 1] == ids[..k] + [ids[k]];
    assert ids[k] in ids;
    FullAllAppend(ns, ids[..k], [ids[k]], bound);
    assert FullAll(ns, [ids[k]], bound) == Full(ns, ids[k]) + [];
  }

  /** The budget, once spent, stays spent. */
  lemma SpentEarly(ns: Nodes, cost: nat -> nat, tops: seq<nat>, k: nat, limit: int)
    requires Forest(ns) && k < |tops| && Below(tops, |ns|) && !Unspent(ns, cost, tops, k, limit)
    ensures !Unspent(ns, cost, tops, |tops| - 1, limit)
  {
    var front := tops[..|tops| - 1];
    assert front[..k] == tops[..k];
    StopTake(ns, cost, front, k, |ns|, 0, limit);
  }
}
