/** Ordering runs so that each comes after its descendants, cycles tolerated.

    Modelled on src/orchestrator/api/app.py, `_topological_sort_children_first`.  */
module ChildrenFirst {
  import opened Common

  type Id = string

  datatype Run = Run(id: Id, parent: Option<Id>)

  predicate HasId(runs: seq<Run>, id: Id) {
    exists r :: r in runs && r.id == id
  }

  /** A parent that is itself among the runs. */
  predicate Edge(runs: seq<Run>, p: Id, c: Id) {
    HasId(runs, p) && Run(c, Some(p)) in runs
  }

  ghost predicate ReachesIn(runs: seq<Run>, p: Id, d: Id, n: nat)
    decreases n
  {
    if n == 0 then p == d else exists c :: Edge(runs, p, c) && ReachesIn(runs, c, d, n - 1)
  }

  ghost predicate Descends(runs: seq<Run>, p: Id, d: Id) {
    exists n: nat :: n > 0 && ReachesIn(runs, p, d, n)
  }

  lemma {:induction false} ReachesOn(runs: seq<Run>, p: Id, q: Id, d: Id, n: nat, m: nat)
    requires ReachesIn(runs, p, q, n) && ReachesIn(runs, q, d, m)
    ensures ReachesIn(runs, p, d, n + m)
    decreases n
  {
    if n > 0 {
      var c :| Edge(runs, p, c) && ReachesIn(runs, c, q, n - 1);
      ReachesOn(runs, c, q, d, n - 1, m);
      assert Edge(runs, p, c) && ReachesIn(runs, c, d, n + m - 1);
    }
  }

  lemma DescendsOn(runs: seq<Run>, p: Id, q: Id, d: Id)
    requires Descends(runs, p, q) && Descends(runs, q, d)
    ensures Descends(runs, p, d)
  {
    var n: nat :| n > 0 && ReachesIn(runs, p, q, n);
    var m: nat :| m > 0 && ReachesIn(runs, q, d, m);
    ReachesOn(runs, p, q, d, n, m);
    assert n + m > 0 && ReachesIn(runs, p, d, n + m);
  }

  lemma EdgeDescends(runs: seq<Run>, p: Id, c: Id)
    requires Edge(runs, p, c)
    ensures Descends(runs, p, c)
  {
    assert ReachesIn(runs, c, c, 0);
    assert ReachesIn(runs, p, c, 1);
  }

  // ---------------------------------------------------------------------------
  // What the walk keeps
  // ---------------------------------------------------------------------------

  function Ids(ordered: seq<Run>): set<Id> {
    set r | r in ordered :: r.id
  }

  /** All descendants of the k-th come before it. */
  ghost predicate After(runs: seq<Run>, ordered: seq<Run>, k: nat)
    requires k < |ordered|
  {
    forall d :: Descends(runs, ordered[k].id, d) ==> d in Ids(ordered[..k])
  }

  /** Exactly the runs on no cycle come after all their descendants. */
  ghost predicate Sorted(runs: seq<Run>, ordered: seq<Run>) {
    forall k :: 0 <= k < |ordered| ==> (After(runs, ordered, k) <==> !Descends(runs, ordered[k].id, ordered[k].id))
  }

  predicate DistinctIds(runs: seq<Run>) {
    forall j, k :: 0 <= j < k < |runs| ==> runs[j].id != runs[k].id
  }

  lemma {:induction false} AllFinished(
    runs: seq<Run>, finished: set<Id>, active: set<Id>, x: Id, from: Id, d: Id, n: nat)
    requires ReachesIn(runs, from, d, n)
    requires from in finished && Descends(runs, x, from)
    requires forall f, c :: f in finished && Edge(runs, f, c) ==> c in finished || c in active || c == x
    requires forall a :: a in active ==> Descends(runs, a, x)
    requires !Descends(runs, x, x)
    ensures d in finished
    decreases n
  {
    if n > 0 {
      var c :| Edge(runs, from, c) && ReachesIn(runs, c, d, n - 1);
      EdgeDescends(runs, from, c);
      DescendsOn(runs, x, from, c);
      if c in active { DescendsOn(runs, x, c, x); }
      AllFinished(runs, finished, active, x, c, d, n - 1);
    }
  }

  /** Of a run on no cycle whose children are all visited, all descendants are finished. */
  lemma DescendantsFinished(runs: seq<Run>, finished: set<Id>, active: set<Id>, x: Id, d: Id)
    requires !Descends(runs, x, x) && Descends(runs, x, d)
    requires forall f, c :: f in finished && Edge(runs, f, c) ==> c in finished || c in active || c == x
    requires forall c :: Edge(runs, x, c) ==> c in finished || c in active || c == x
    requires forall a :: a in active ==> Descends(runs, a, x)
    ensures d in finished
  {
    var m: nat :| m > 0 && ReachesIn(runs, x, d, m);
    var c :| Edge(runs, x, c) && ReachesIn(runs, c, d, m - 1);
    EdgeDescends(runs, x, c);
    if c in active { DescendsOn(runs, x, c, x); }
    AllFinished(runs, finished, active, x, c, d, m - 1);
  }

  lemma AfterInPrefix(runs: seq<Run>, ordered: seq<Run>, last: Run, k: nat)
    requires k < |ordered|
    ensures After(runs, ordered + [last], k) <==> After(runs, ordered, k)
  {
    assert (ordered + [last])[..k] == ordered[..k];
  }

  /** The run to be appended: its children are all visited. */
  lemma AppendKeepsSorted(runs: seq<Run>, ordered: seq<Run>, active: set<Id>, last: Run)
    requires Sorted(runs, ordered) && last.id !in Ids(ordered)
    requires forall f, c :: f in Ids(ordered) && Edge(runs, f, c) ==> c in Ids(ordered) || c in active || c == last.id
    requires forall c :: Edge(runs, last.id, c) ==> c in Ids(ordered) || c in active || c == last.id
    requires forall a :: a in active ==> Descends(runs, a, last.id)
    ensures Sorted(runs, ordered + [last])
  {
    var more, n, x := ordered + [last], |ordered|, last.id;
    assert more[..n] == ordered && more[n] == last;
    forall d | !Descends(runs, x, x) && Descends(runs, x, d) ensures d in Ids(ordered) {
      DescendantsFinished(runs, Ids(ordered), active, x, d);
    }
    assert After(runs, more, n) <==> !Descends(runs, x, x);
    forall k | 0 <= k < |more| ensures After(runs, more, k) <==> !Descends(runs, more[k].id, more[k].id) {
      if k < n { AfterInPrefix(runs, ordered, last, k); }
    }
  }

  lemma ActiveReach(runs: seq<Run>, active: set<Id>, id: Id, c: Id)
    requires Descends(runs, id, c) && forall a :: a in active ==> Descends(runs, a, id)
    ensures forall a :: a in active + {id} ==> Descends(runs, a, c)
  {
    forall a | a in active ensures Descends(runs, a, c) { DescendsOn(runs, a, id, c); }
  }

  predicate FirstIn(ids: seq<Id>, n: nat, s: set<Id>)
    requires n <= |ids|
  {
    forall k :: 0 <= k < n ==> ids[k] in s
  }

  lemma OneMoreIn(ids: seq<Id>, n: nat, s: set<Id>, t: set<Id>)
    requires n < |ids| && FirstIn(ids, n, s) && s <= t && ids[n] in t
    ensures FirstIn(ids, n + 1, t)
  {
  }

  predicate RunsIn(runs: seq<Run>, n: nat, s: set<Id>)
    requires n <= |runs|
  {
    forall k :: 0 <= k < n ==> runs[k].id in s
  }

  lemma OneMoreRunIn(runs: seq<Run>, n: nat, s: set<Id>, t: set<Id>)
    requires n < |runs| && RunsIn(runs, n, s) && s <= t && runs[n].id in t
    ensures RunsIn(runs, n + 1, t)
  {
  }

  lemma PrefixOfPrefix(a: seq<Run>, b: seq<Run>, c: seq<Run>)
    requires a <= b <= c
    ensures a <= c
  {
  }

  // ---------------------------------------------------------------------------
  // The walk
  // ---------------------------------------------------------------------------

  /** What the first two loops build. */
  ghost predicate Indexes(runs: seq<Run>, byId: map<Id, Run>, childrenOf: map<Id, seq<Id>>) {
    && (forall id :: id in byId <==> HasId(runs, id))
    && (forall id :: id in byId ==> byId[id] in runs && byId[id].id == id)
    && (forall id :: id in childrenOf <==> id in byId)
    && (forall p, c :: p in childrenOf ==> (c in childrenOf[p] <==> Edge(runs, p, c)))
  }

  class Walk {
    const byId: map<Id, Run>
    const childrenOf: map<Id, seq<Id>>
    var visited: set<Id>
    var ordered: seq<Run>

    constructor (byId: map<Id, Run>, childrenOf: map<Id, seq<Id>>)
      ensures this.byId == byId && this.childrenOf == childrenOf && visited == {} && ordered == []
    {
      this.byId, this.childrenOf, visited, ordered := byId, childrenOf, {}, [];
    }

    /** `active`: the runs whose visit is not over. */
    ghost predicate Valid(runs: seq<Run>, active: set<Id>)
      reads this
    {
      && Indexes(runs, byId, childrenOf)
      && visited == Ids(ordered) + active && Ids(ordered) !! active && visited <= byId.Keys
      && Known(byId, ordered) && DistinctIds(ordered)
      && (forall f, c :: f in Ids(ordered) && Edge(runs, f, c) ==> c in visited)
      && Sorted(runs, ordered)
    }

    method Visit(ghost runs: seq<Run>, ghost active: set<Id>, id: Id)
      requires Valid(runs, active) && id in byId
      requires forall a :: a in active ==> Descends(runs, a, id) || a == id
      modifies this
      ensures Valid(runs, active) && id in visited
      ensures old(visited) <= visited && old(ordered) <= ordered
      decreases byId.Keys - visited, 1, 0
    {
      if id in visited { return; }
      visited := visited + {id};
      VisitChildren(runs, active, id);
      Append(runs, active, id);
    }

    method VisitChildren(ghost runs: seq<Run>, ghost active: set<Id>, id: Id)
      requires Valid(runs, active + {id}) && id in byId && id !in active
      requires forall a :: a in active ==> Descends(runs, a, id)
      modifies this
      ensures Valid(runs, active + {id})
      ensures old(visited) <= visited && old(ordered) <= ordered
      ensures forall c :: Edge(runs, id, c) ==> c in visited
      decreases byId.Keys - visited, 2, 0
    {
      var children := childrenOf[id];
      var i := 0;
      while i < |children|
        invariant 0 <= i <= |children| && Valid(runs, active + {id})
        invariant old(visited) <= visited && old(ordered) <= ordered
        invariant FirstIn(children, i, visited)
      {
        ghost var sofar, before := visited, ordered;
        ChildIsKnown(runs, id, children[i]);
        ActiveReach(runs, active, id, children[i]);
        Visit(runs, active + {id}, children[i]);
        PrefixOfPrefix(old(ordered), before, ordered);
        OneMoreIn(children, i, sofar, visited);
        i := i + 1;
      }
      AllChildren(runs, id, children);
    }

    lemma AllChildren(runs: seq<Run>, id: Id, children: seq<Id>)
      requires Indexes(runs, byId, childrenOf) && id in childrenOf && children == childrenOf[id]
      requires FirstIn(children, |children|, visited)
      ensures forall c :: Edge(runs, id, c) ==> c in visited
    {
      assert forall c :: Edge(runs, id, c) ==> c in children;
    }

    lemma ChildIsKnown(runs: seq<Run>, id: Id, c: Id)
      requires Indexes(runs, byId, childrenOf) && id in childrenOf && c in childrenOf[id]
      ensures c in byId && Descends(runs, id, c)
    {
      EdgeDescends(runs, id, c);
      assert Run(c, Some(id)).id == c;
    }

    lemma Begin(runs: seq<Run>)
      requires Indexes(runs, byId, childrenOf) && visited == {} && ordered == []
      ensures Valid(runs, {})
    {
    }

    method VisitRoots(ghost runs: seq<Run>, roots: seq<Id>)
      requires Valid(runs, {}) && forall k :: 0 <= k < |roots| ==> roots[k] in byId
      modifies this
      ensures Valid(runs, {})
    {
      for i := 0 to |roots|
        invariant Valid(runs, {})
      {
        Visit(runs, {}, roots[i]);
      }
    }

    /** Any runs on cycles that the roots do not lead to. */
    method VisitRest(runs: seq<Run>)
      requires Valid(runs, {})
      modifies this
      ensures Valid(runs, {}) && RunsIn(runs, |runs|, visited)
    {
      for i := 0 to |runs|
        invariant Valid(runs, {}) && RunsIn(runs, i, visited)
      {
        ghost var sofar := visited;
        assert HasId(runs, runs[i].id);
        Visit(runs, {}, runs[i].id);
        OneMoreRunIn(runs, i, sofar, visited);
      }
    }

    lemma IsComplete(runs: seq<Run>)
      requires Valid(runs, {}) && RunsIn(runs, |runs|, visited)
      ensures DistinctIds(ordered) && Sorted(runs, ordered) && (forall r :: r in ordered ==> r in runs)
      ensures forall r :: r in runs ==> r.id in Ids(ordered)
    {
    }

    method Append(ghost runs: seq<Run>, ghost active: set<Id>, id: Id)
      requires Valid(runs, active + {id}) && id in byId && id !in active
      requires forall a :: a in active ==> Descends(runs, a, id)
      requires forall c :: Edge(runs, id, c) ==> c in visited
      modifies this`ordered
      ensures Valid(runs, active) && ordered == old(ordered) + [byId[id]]
    {
      AppendKeepsSorted(runs, ordered, active, byId[id]);
      AppendKeepsIds(ordered, byId[id]);
      AppendKeepsKnown(byId, ordered, byId[id]);
      ordered := ordered + [byId[id]];
    }
  }

  lemma AppendKeepsIds(ordered: seq<Run>, last: Run)
    requires DistinctIds(ordered) && last.id !in Ids(ordered)
    ensures Ids(ordered + [last]) == Ids(ordered) + {last.id} && DistinctIds(ordered + [last])
  {
    var more := ordered + [last];
    forall x
      ensures x in Ids(more) <==> x in Ids(ordered) || x == last.id
    {
      if k :| 0 <= k < |ordered| && ordered[k].id == x { assert more[k] == ordered[k]; }
      if x == last.id { assert more[|ordered|] == last; }
    }
  }

  /** Every run on the list is the one the index has for its id. */
  ghost predicate Known(byId: map<Id, Run>, ordered: seq<Run>) {
    forall k :: 0 <= k < |ordered| ==> ordered[k].id in byId && ordered[k] == byId[ordered[k].id]
  }

  lemma AppendKeepsKnown(byId: map<Id, Run>, ordered: seq<Run>, last: Run)
    requires Known(byId, ordered) && last.id in byId && byId[last.id] == last
    ensures Known(byId, ordered + [last])
  {
  }

  // ---------------------------------------------------------------------------
  // The index and the two rounds
  // ---------------------------------------------------------------------------

  /** The children of `p` among the first `n` runs, in their order. */
  function ChildrenAmong(runs: seq<Run>, n: nat, p: Id): seq<Id>
    requires n <= |runs|
  {
    if n == 0 then []
    else ChildrenAmong(runs, n - 1, p) + (if runs[n - 1].parent == Some(p) then [runs[n - 1].id] else [])
  }

  lemma {:induction false} ChildrenAmongAre(runs: seq<Run>, n: nat, p: Id, c: Id)
    requires n <= |runs|
    ensures c in ChildrenAmong(runs, n, p) <==> Run(c, Some(p)) in runs[..n]
  {
    if n > 0 {
      ChildrenAmongAre(runs, n - 1, p, c);
      assert runs[..n] == runs[..n - 1] + [runs[n - 1]];
    }
  }

  /** No run up to `n` has the same id as the k-th and comes later. */
  predicate LastOfItsId(runs: seq<Run>, k: nat, n: nat)
    requires k < n <= |runs|
  {
    forall j :: k < j < n ==> runs[j].id != runs[k].id
  }

  /** Every id has the last of the runs with it. */
  method IndexById(runs: seq<Run>) returns (byId: map<Id, Run>)
    ensures forall id :: id in byId <==> HasId(runs, id)
    ensures forall id :: id in byId ==> byId[id] in runs && byId[id].id == id
    ensures forall k :: 0 <= k < |runs| && LastOfItsId(runs, k, |runs|) ==>
      runs[k].id in byId && byId[runs[k].id] == runs[k]
  {
    byId := map[];
    for i := 0 to |runs|
      invariant forall k :: 0 <= k < i ==> runs[k].id in byId
      invariant forall id :: id in byId ==> byId[id] in runs && byId[id].id == id
      invariant forall k :: 0 <= k < i && LastOfItsId(runs, k, i) ==> byId[runs[k].id] == runs[k]
    {
      byId := byId[runs[i].id := runs[i]];
    }
  }

  /** Every run under its parent if that is there, and otherwise a root. */
  method IndexChildren(runs: seq<Run>, byId: map<Id, Run>) returns (childrenOf: map<Id, seq<Id>>, roots: seq<Id>)
    requires forall id :: id in byId <==> HasId(runs, id)
    requires forall id :: id in byId ==> byId[id] in runs && byId[id].id == id
    ensures forall p :: p in childrenOf <==> p in byId
    ensures forall p :: p in childrenOf ==> childrenOf[p] == ChildrenAmong(runs, |runs|, p)
    ensures forall k :: 0 <= k < |roots| ==> roots[k] in byId
  {
    childrenOf := map id | id in byId :: [];
    roots := [];
    for i := 0 to |runs|
      invariant forall p :: p in childrenOf <==> p in byId
      invariant forall p :: p in childrenOf ==> childrenOf[p] == ChildrenAmong(runs, i, p)
      invariant forall k :: 0 <= k < |roots| ==> roots[k] in byId
    {
      var r := runs[i];
      if r.parent.Some? && r.parent.value in byId {
        childrenOf := childrenOf[r.parent.value := childrenOf[r.parent.value] + [r.id]];
      } else {
        assert HasId(runs, r.id);
        roots := roots + [r.id];
      }
    }
  }

  lemma IndexIsRight(runs: seq<Run>, byId: map<Id, Run>, childrenOf: map<Id, seq<Id>>)
    requires forall id :: id in byId <==> HasId(runs, id)
    requires forall id :: id in byId ==> byId[id] in runs && byId[id].id == id
    requires forall p :: p in childrenOf <==> p in byId
    requires forall p :: p in childrenOf ==> childrenOf[p] == ChildrenAmong(runs, |runs|, p)
    ensures Indexes(runs, byId, childrenOf)
  {
    forall p, c | p in childrenOf ensures c in childrenOf[p] <==> Edge(runs, p, c) {
      ChildrenAmongAre(runs, |runs|, p, c);
      assert runs[..|runs|] == runs;
    }
  }

  /** One run of every id there is, taken from the input; exactly the runs that are on no
      parent cycle come after all their descendants. */
  method TopologicalSortChildrenFirst(runs: seq<Run>) returns (ordered: seq<Run>)
    ensures DistinctIds(ordered) && (forall r :: r in ordered ==> r in runs)
    ensures forall r :: r in runs ==> r.id in Ids(ordered)
    ensures Sorted(runs, ordered)
  {
    var byId := IndexById(runs);
    var childrenOf, roots := IndexChildren(runs, byId);
    IndexIsRight(runs, byId, childrenOf);
    var walk := new Walk(byId, childrenOf);
    walk.Begin(runs);
    walk.VisitRoots(runs, roots);
    walk.VisitRest(runs);
    ordered := walk.ordered;
    walk.IsComplete(runs);
  }

  // ---------------------------------------------------------------------------
  // Permutations
  // ---------------------------------------------------------------------------

  lemma {:induction false} CountOf(runs: seq<Run>, r: Run)
    requires DistinctIds(runs)
    ensures multiset(runs)[r] == if r in runs then 1 else 0
  {
    if runs != [] {
      CountOf(runs[1..], r);
      assert runs == [runs[0]] + runs[1..];
      assert multiset(runs) == multiset([runs[0]]) + multiset(runs[1..]);
    }
  }

  lemma PickTwo(runs: seq<Run>, j: nat, k: nat)
    requires j < k < |runs| && runs[j] == runs[k]
    ensures multiset(runs)[runs[j]] >= 2
  {
    assert runs == runs[..k] + runs[k..];
    assert multiset(runs) == multiset(runs[..k]) + multiset(runs[k..]);
    assert runs[j] in runs[..k] && runs[k] in runs[k..];
  }

  /** So the result is a permutation of the input exactly if the input's ids are distinct. */
  lemma PermutationExactly(runs: seq<Run>, ordered: seq<Run>)
    requires DistinctIds(ordered) && (forall r :: r in ordered ==> r in runs)
    requires forall r :: r in runs ==> r.id in Ids(ordered)
    ensures multiset(ordered) == multiset(runs) <==> DistinctIds(runs)
  {
    if DistinctIds(runs) {
      forall r ensures multiset(ordered)[r] == multiset(runs)[r] {
        CountOf(runs, r);
        CountOf(ordered, r);
        if r in runs {
          var o :| o in ordered && o.id == r.id;
          assert o in runs && o == r;
        }
      }
    }
    if multiset(ordered) == multiset(runs) {
      forall j, k | 0 <= j < k < |runs| ensures runs[j].id != runs[k].id {
        NoTwins(runs, ordered, j, k);
      }
    }
  }

  lemma NoTwins(runs: seq<Run>, ordered: seq<Run>, j: nat, k: nat)
    requires DistinctIds(ordered) && multiset(ordered) == multiset(runs) && j < k < |runs|
    ensures runs[j].id != runs[k].id
  {
    if runs[j] == runs[k] {
      PickTwo(runs, j, k);
      CountOf(ordered, runs[j]);
    } else {
      assert runs[j] in multiset(runs) && runs[k] in multiset(runs);
      assert runs[j] in ordered && runs[k] in ordered;
    }
  }
}
