/** Strongly connected components of the crate graph: tools/python/check_architecture.py. */
module Tarjan {
  import opened Reachability
  import opened Ordering

  /** Everything `visit` shares between its activations, as a value. */
  datatype Search = Search(
    indices: map<string, nat>,
    index: nat,
    stack: seq<string>,
    onStack: set<string>,
    components: seq<seq<string>>)

  ghost function Elements(s: seq<string>): set<string> {
    set x | x in s
  }

  // ---- The search invariant ----

  /** The stack lists its set in order of discovery; every index handed out is below `index`. */
  ghost predicate StackShape(s: Search) {
    && s.onStack == Elements(s.stack)
    && s.onStack <= s.indices.Keys
    && (forall x :: x in s.indices ==> s.indices[x] < s.index)
    && (forall i, j :: 0 <= i < j < |s.stack| ==> s.indices[s.stack[i]] < s.indices[s.stack[j]])
  }

  /** Nodes whose `visit` has returned have no undiscovered successor. */
  ghost predicate FinishedClosed(edges: Edges, gray: set<string>, s: Search) {
    forall x, y :: x in s.indices && x !in gray && (x, y) in edges ==> y in s.indices
  }

  /** An active node reaches everything stacked at or above it. */
  ghost predicate ActiveReach(edges: Edges, gray: set<string>, s: Search)
    requires s.onStack <= s.indices.Keys && gray <= s.onStack
  {
    forall g, y :: g in gray && y in s.onStack && s.indices[g] <= s.indices[y] ==> Reaches(edges, g, y)
  }

  ghost predicate ReachesActiveBelow(edges: Edges, gray: set<string>, s: Search, y: string)
    requires s.onStack <= s.indices.Keys && gray <= s.onStack && y in s.onStack
  {
    exists g :: g in gray && s.indices[g] <= s.indices[y] && Reaches(edges, y, g)
  }

  /** Every stacked node reaches an active node at or below it. */
  ghost predicate StackedReach(edges: Edges, gray: set<string>, s: Search)
    requires s.onStack <= s.indices.Keys && gray <= s.onStack
  {
    forall y {:trigger ReachesActiveBelow(edges, gray, s, y)} :: y in s.onStack ==>
      ReachesActiveBelow(edges, gray, s, y)
  }

  /** One emitted component is a full equivalence class of mutual reachability, sorted, without repeats. */
  ghost predicate IsClass(edges: Edges, component: seq<string>) {
    && component != []
    && Distinct(component)
    && Ascending(component)
    && forall x, y :: x in component ==> (y in component <==> Mutual(edges, x, y))
  }

  ghost predicate EmittedBy(components: seq<seq<string>>, limit: nat, y: string)
    requires limit <= |components|
  {
    exists j :: 0 <= j < limit && y in components[j]
  }

  /** An edge out of a component stays in it or goes to a component emitted earlier. */
  ghost predicate EarlierOrSame(edges: Edges, components: seq<seq<string>>) {
    forall i, x, y :: 0 <= i < |components| && x in components[i] && (x, y) in edges
      ==> EmittedBy(components, i + 1, y)
  }

  ghost predicate PairwiseDisjoint(components: seq<seq<string>>) {
    forall i, j, x :: 0 <= i < j < |components| && x in components[i] ==> x !in components[j]
  }

  /** `components` splits `done` into its classes, each listed before the components that lead to it. */
  ghost predicate Decomposes(edges: Edges, components: seq<seq<string>>, done: set<string>) {
    && (forall i :: 0 <= i < |components| ==> IsClass(edges, components[i]))
    && PairwiseDisjoint(components)
    && EarlierOrSame(edges, components)
    && (forall x :: x in done <==> EmittedBy(components, |components|, x))
  }

  ghost predicate Invariant(edges: Edges, gray: set<string>, s: Search) {
    && StackShape(s)
    && gray <= s.onStack
    && FinishedClosed(edges, gray, s)
    && ActiveReach(edges, gray, s)
    && StackedReach(edges, gray, s)
    && Decomposes(edges, s.components, s.indices.Keys - s.onStack)
  }

  // ---- What one activation adds ----

  ghost predicate Extends(before: Search, after: Search) {
    && before.indices.Keys <= after.indices.Keys
    && (forall x :: x in before.indices ==> after.indices[x] == before.indices[x])
    && before.index <= after.index
    && before.stack <= after.stack
    && before.components <= after.components
    && (forall x :: x in after.indices && x !in before.indices ==> before.index <= after.indices[x])
  }

  /** A low link is the index of a stacked node that `node` reaches. */
  ghost predicate LowWitness(edges: Edges, s: Search, node: string, low: nat) {
    exists y :: y in s.onStack && y in s.indices && s.indices[y] == low && Reaches(edges, node, y)
  }

  /** No edge from `x` into the stack below height `base` ends under `low`. */
  ghost predicate LowBounds(edges: Edges, s: Search, base: nat, x: string, low: nat)
    requires base <= |s.stack|
  {
    forall y :: y in s.stack[..base] && (x, y) in edges ==> y in s.indices && low <= s.indices[y]
  }

  ghost predicate AllLowBounds(edges: Edges, s: Search, base: nat, from: nat, low: nat)
    requires base <= from <= |s.stack|
  {
    forall i :: from <= i < |s.stack| ==> LowBounds(edges, s, base, s.stack[i], low)
  }

  /** What a finished `visit(node)` has established, from state `before` to state `after`. */
  ghost predicate Visited(edges: Edges, gray: set<string>, before: Search, node: string, after: Search, low: nat) {
    && Invariant(edges, gray, after)
    && Extends(before, after)
    && node in after.indices
    && (low < before.index ==> LowWitness(edges, after, node, low))
    && AllLowBounds(edges, after, |before.stack|, |before.stack|, low)
  }

  /** The state of `visit(node)` after it has handled the first `k` of its targets. */
  ghost predicate Exploring(edges: Edges, gray: set<string>, before: Search, node: string,
                            targets: seq<string>, k: nat, s: Search, low: nat) {
    && k <= |targets|
    && Invariant(edges, gray + {node}, s)
    && Extends(Discover(before, node), s)
    && low <= before.index
    && LowWitness(edges, s, node, low)
    && AllLowBounds(edges, s, |before.stack|, |before.stack| + 1, low)
    && (forall j :: 0 <= j < k ==> targets[j] in s.indices)
    && (forall j :: 0 <= j < k && targets[j] in before.stack ==> low <= s.indices[targets[j]])
  }

  function Discover(s: Search, node: string): Search {
    s.(indices := s.indices[node := s.index], index := s.index + 1,
       stack := s.stack + [node], onStack := s.onStack + {node})
  }

  lemma DiscoverKeepsShape(s: Search, node: string)
    requires StackShape(s) && node !in s.indices
    ensures StackShape(Discover(s, node))
    ensures Extends(s, Discover(s, node))
    ensures Discover(s, node).indices.Keys - Discover(s, node).onStack == s.indices.Keys - s.onStack
  {
  }

  lemma DiscoverKeepsActiveReach(edges: Edges, gray: set<string>, s: Search, node: string)
    requires StackShape(s) && gray <= s.onStack && ActiveReach(edges, gray, s) && node !in s.indices
    requires forall g :: g in gray ==> Reaches(edges, g, node)
    ensures ActiveReach(edges, gray + {node}, Discover(s, node))
  {
    var t := Discover(s, node);
    ReachesSelf(edges, node);
    hide Reaches;
    forall g, y | g in gray + {node} && y in t.onStack && t.indices[g] <= t.indices[y]
      ensures Reaches(edges, g, y)
    {
      if y != node {
        assert y in s.onStack && t.indices[y] == s.indices[y] < s.index;
        assert g in gray && t.indices[g] == s.indices[g];
      }
    }
  }

  lemma DiscoverKeepsStackedReach(edges: Edges, gray: set<string>, s: Search, node: string)
    requires StackShape(s) && gray <= s.onStack && StackedReach(edges, gray, s) && node !in s.indices
    ensures gray + {node} <= Discover(s, node).onStack <= Discover(s, node).indices.Keys
    ensures StackedReach(edges, gray + {node}, Discover(s, node))
  {
    var t := Discover(s, node);
    ReachesSelf(edges, node);
    hide Reaches;
    forall y | y in t.onStack
      ensures ReachesActiveBelow(edges, gray + {node}, t, y)
    {
      if y != node {
        assert ReachesActiveBelow(edges, gray, s, y);
      }
    }
  }

  lemma DiscoverKeepsInvariant(edges: Edges, gray: set<string>, s: Search, node: string)
    requires Invariant(edges, gray, s) && node !in s.indices
    requires forall g :: g in gray ==> Reaches(edges, g, node)
    ensures Invariant(edges, gray + {node}, Discover(s, node))
  {
    DiscoverKeepsShape(s, node);
    DiscoverKeepsActiveReach(edges, gray, s, node);
    DiscoverKeepsStackedReach(edges, gray, s, node);
    hide Reaches, Decomposes, ActiveReach, StackedReach, StackShape;
  }

  // ---- Returning without a component ----

  /** A node whose low link lies below its own index stays on the stack when its activation returns. */
  lemma RetireKeepsInvariant(edges: Edges, gray: set<string>, s: Search, node: string, low: nat)
    requires Invariant(edges, gray + {node}, s) && node !in gray
    requires forall y :: (node, y) in edges ==> y in s.indices
    requires LowWitness(edges, s, node, low) && low < s.indices[node]
    ensures Invariant(edges, gray, s)
  {
    hide Reaches, Decomposes, LowWitness, ReachesActiveBelow;
    forall y | y in s.onStack
      ensures ReachesActiveBelow(edges, gray, s, y)
    {
      RetireKeepsOne(edges, gray, s, node, low, y);
    }
  }

  lemma RetireKeepsOne(edges: Edges, gray: set<string>, s: Search, node: string, low: nat, y: string)
    requires StackShape(s) && gray + {node} <= s.onStack && node !in gray && y in s.onStack
    requires StackedReach(edges, gray + {node}, s)
    requires LowWitness(edges, s, node, low) && low < s.indices[node]
    ensures ReachesActiveBelow(edges, gray, s, y)
  {
    hide Reaches;
    assert ReachesActiveBelow(edges, gray + {node}, s, y);
    var g :| g in gray + {node} && s.indices[g] <= s.indices[y] && Reaches(edges, y, g);
    if g == node {
      var w :| w in s.onStack && w in s.indices && s.indices[w] == low && Reaches(edges, node, w);
      assert ReachesActiveBelow(edges, gray + {node}, s, w);
      var h :| h in gray + {node} && s.indices[h] <= s.indices[w] && Reaches(edges, w, h);
      ReachesTransitive(edges, y, node, w);
      ReachesTransitive(edges, y, w, h);
    }
  }

  // ---- Emitting a component ----

  /** The part of the stack from `node` upward, about to leave it as one component. */
  ghost predicate ReadyToEmit(edges: Edges, gray: set<string>, s: Search, k: nat, node: string) {
    && k < |s.stack| && s.stack[k] == node
    && Invariant(edges, gray + {node}, s)
    && gray <= Elements(s.stack[..k])
    && (forall y :: (node, y) in edges ==> y in s.indices)
    && (forall x, y :: x in s.stack[k..] && y in s.stack[..k] ==> (x, y) !in edges)
  }

  ghost function Portion(s: Search, k: nat): set<string>
    requires k <= |s.stack|
  {
    Elements(s.stack[k..])
  }

  ghost function Done(s: Search): set<string> {
    s.indices.Keys - s.onStack
  }

  lemma StackSplits(s: Search, k: nat)
    requires StackShape(s) && k <= |s.stack|
    ensures Portion(s, k) + Elements(s.stack[..k]) == s.onStack
    ensures Portion(s, k) !! Elements(s.stack[..k])
    ensures Distinct(s.stack)
  {
    assert s.stack == s.stack[..k] + s.stack[k..];
    assert forall i, j :: 0 <= i < k <= j < |s.stack| ==> s.stack[i] != s.stack[j];
  }

  lemma DoneClosed(edges: Edges, components: seq<seq<string>>, done: set<string>)
    requires Decomposes(edges, components, done)
    ensures Closed(edges, done)
  {
    forall x, y | x in done && (x, y) in edges
      ensures y in done
    {
      var i :| 0 <= i < |components| && x in components[i];
      assert EmittedBy(components, i + 1, y);
      assert EmittedBy(components, |components|, y);
    }
  }

  lemma PortionClosed(edges: Edges, gray: set<string>, s: Search, k: nat, node: string)
    requires ReadyToEmit(edges, gray, s, k, node)
    ensures Closed(edges, Portion(s, k) + Done(s))
  {
    hide Reaches, Decomposes, ActiveReach, StackedReach;
    DoneClosed(edges, s.components, Done(s));
    StackSplits(s, k);
    forall x, y | x in Portion(s, k) && (x, y) in edges
      ensures y in Portion(s, k) + Done(s)
    {
      assert x in s.stack[k..] && x !in Elements(s.stack[..k]);
      assert y in s.indices;
      assert y !in s.stack[..k];
    }
  }

  /** Every node above `node` is mutual with it. */
  lemma PortionMutual(edges: Edges, gray: set<string>, s: Search, k: nat, node: string, x: string)
    requires ReadyToEmit(edges, gray, s, k, node) && x in Portion(s, k)
    ensures Mutual(edges, node, x)
  {
    PortionClosed(edges, gray, s, k, node);
    StackSplits(s, k);
    hide Reaches, Decomposes, Closed;
    var j :| k <= j < |s.stack| && s.stack[j] == x;
    assert s.indices[node] <= s.indices[x];
    assert ReachesActiveBelow(edges, gray + {node}, s, x);
    var g :| g in gray + {node} && s.indices[g] <= s.indices[x] && Reaches(edges, x, g);
    ClosedReach(edges, Portion(s, k) + Done(s), x, g);
  }

  lemma PortionIsClass(edges: Edges, gray: set<string>, s: Search, k: nat, node: string, x: string, y: string)
    requires ReadyToEmit(edges, gray, s, k, node) && x in Portion(s, k)
    ensures y in Portion(s, k) <==> Mutual(edges, x, y)
  {
    PortionMutual(edges, gray, s, k, node, x);
    hide Reaches;
    if y in Portion(s, k) {
      PortionMutual(edges, gray, s, k, node, y);
      ReachesTransitive(edges, x, node, y);
      ReachesTransitive(edges, y, node, x);
    }
    if Mutual(edges, x, y) {
      PortionClosed(edges, gray, s, k, node);
      DoneClosed(edges, s.components, Done(s));
      StackSplits(s, k);
      hide Decomposes, Closed;
      ClosedReach(edges, Portion(s, k) + Done(s), x, y);
      if y in Done(s) {
        ClosedReach(edges, Done(s), y, x);
      }
    }
  }

  ghost function Emit(s: Search, k: nat, component: seq<string>): Search
    requires k <= |s.stack|
  {
    s.(stack := s.stack[..k], onStack := s.onStack - Portion(s, k),
       components := s.components + [component])
  }

  lemma EmittedGrows(edges: Edges, components: seq<seq<string>>, done: set<string>, component: seq<string>)
    requires Decomposes(edges, components, done) && IsClass(edges, component)
    requires done !! Elements(component)
    requires Closed(edges, done + Elements(component))
    ensures Decomposes(edges, components + [component], done + Elements(component))
  {
    hide Reaches, IsClass;
    var n, grown := |components|, components + [component];
    assert forall i :: 0 <= i < n ==> grown[i] == components[i];
    forall i: nat, y | i <= n && EmittedBy(components, i, y)
      ensures EmittedBy(grown, i, y)
    {
      var j :| 0 <= j < i && y in components[j];
      assert y in grown[j];
    }
    forall y | y in component
      ensures EmittedBy(grown, n + 1, y) && !EmittedBy(components, n, y)
    {
      assert y in grown[n];
    }
    forall i, x, y | 0 <= i < |grown| && x in grown[i] && (x, y) in edges
      ensures EmittedBy(grown, i + 1, y)
    {
      if i < n {
        assert EmittedBy(components, i + 1, y);
      } else if y in done {
        assert EmittedBy(components, n, y);
        var j :| 0 <= j < n && y in components[j];
        assert y in grown[j];
      }
    }
    forall i, j, x | 0 <= i < j < |grown| && x in grown[i]
      ensures x !in grown[j]
    {
      if j == n { assert EmittedBy(components, n, x); }
    }
    forall x
      ensures x in done + Elements(component) <==> EmittedBy(grown, n + 1, x)
    {
      if x in done { assert EmittedBy(components, n, x); }
      if EmittedBy(grown, n + 1, x) {
        var j :| 0 <= j < n + 1 && x in grown[j];
        if j < n { assert EmittedBy(components, n, x); }
      }
    }
  }

  lemma EmitKeepsStack(edges: Edges, gray: set<string>, s: Search, k: nat, node: string, component: seq<string>)
    requires ReadyToEmit(edges, gray, s, k, node) && Elements(component) == Portion(s, k)
    ensures StackShape(Emit(s, k, component))
    ensures gray <= Emit(s, k, component).onStack
    ensures FinishedClosed(edges, gray, Emit(s, k, component))
    ensures ActiveReach(edges, gray, Emit(s, k, component))
    ensures StackedReach(edges, gray, Emit(s, k, component))
    ensures Done(Emit(s, k, component)) == Done(s) + Portion(s, k)
  {
    var t := Emit(s, k, component);
    StackSplits(s, k);
    hide Reaches, Decomposes;
    assert t.onStack == Elements(s.stack[..k]);
    forall y | y in t.onStack
      ensures ReachesActiveBelow(edges, gray, t, y)
    {
      var i :| 0 <= i < k && s.stack[i] == y;
      assert ReachesActiveBelow(edges, gray + {node}, s, y);
      assert s.indices[s.stack[i]] < s.indices[s.stack[k]];
    }
  }

  lemma EmitKeepsInvariant(edges: Edges, gray: set<string>, s: Search, k: nat, node: string, component: seq<string>)
    requires ReadyToEmit(edges, gray, s, k, node)
    requires component != [] && Distinct(component) && Ascending(component) && Elements(component) == Portion(s, k)
    ensures Invariant(edges, gray, Emit(s, k, component))
  {
    EmitKeepsStack(edges, gray, s, k, node, component);
    StackSplits(s, k);
    PortionClosed(edges, gray, s, k, node);
    forall x, y | x in component
      ensures y in component <==> Mutual(edges, x, y)
    {
      assert x in Elements(component) && (y in component <==> y in Elements(component));
      PortionIsClass(edges, gray, s, k, node, x, y);
    }
    assert IsClass(edges, component);
    hide Reaches, IsClass, StackShape, ActiveReach, StackedReach, FinishedClosed;
    assert Portion(s, k) + Done(s) == Done(s) + Elements(component);
    EmittedGrows(edges, s.components, Done(s), component);
  }

  // ---- The search itself ----

  /** `graph` lists, for every endpoint of `edges`, its successors in some order. */
  ghost predicate Represents(graph: map<string, seq<string>>, edges: Edges) {
    && (forall x, y :: (x, y) in edges ==> x in graph && y in graph)
    && (forall x, y :: x in graph ==> ((x, y) in edges <==> y in graph[x]))
  }

  function Min(a: nat, b: nat): nat {
    if a <= b then a else b
  }

  /** The pop loop has taken everything above height `n` off `whole` and collected it. */
  ghost predicate Popped(whole: seq<string>, members: set<string>, n: nat,
                         stack: seq<string>, onStack: set<string>, component: seq<string>) {
    && n <= |whole|
    && stack == whole[..n]
    && onStack == members - Elements(whole[n..])
    && multiset(component) == multiset(whole[n..])
  }

  lemma PopStep(whole: seq<string>, members: set<string>, n: nat,
                stack: seq<string>, onStack: set<string>, component: seq<string>)
    requires Popped(whole, members, n, stack, onStack, component) && n > 0
    ensures |stack| == n && stack[n - 1] == whole[n - 1]
    ensures Popped(whole, members, n - 1, stack[..n - 1], onStack - {stack[n - 1]}, component + [stack[n - 1]])
  {
    var member := stack[n - 1];
    assert whole[n - 1..] == [member] + whole[n..];
    assert Elements(whole[n - 1..]) == {member} + Elements(whole[n..]);
  }

  lemma PopStart(whole: seq<string>, members: set<string>)
    ensures Popped(whole, members, |whole|, whole, members, [])
  {
    assert whole[..|whole|] == whole;
  }

  lemma PopEnd(whole: seq<string>, members: set<string>, n: nat,
               stack: seq<string>, onStack: set<string>, component: seq<string>)
    requires Popped(whole, members, n, stack, onStack, component)
    ensures n <= |whole| && stack == whole[..n] && onStack == members - Elements(whole[n..])
    ensures multiset(component) == multiset(whole[n..])
  {
  }

  lemma StackedOnce(s: Search, k: nat)
    requires k < |s.stack| && StackShape(s)
    ensures forall i :: k < i < |s.stack| ==> s.stack[i] != s.stack[k]
  {
  }

  // ---- One activation, target by target ----

  lemma ExploreStart(edges: Edges, gray: set<string>, before: Search, node: string, targets: seq<string>)
    requires Invariant(edges, gray, before) && node !in before.indices
    requires forall g :: g in gray ==> Reaches(edges, g, node)
    ensures Exploring(edges, gray, before, node, targets, 0, Discover(before, node), before.index)
  {
    hide Invariant;
    DiscoverKeepsInvariant(edges, gray, before, node);
    ReachesSelf(edges, node);
    assert StackShape(before) by { InvariantShape(edges, gray, before); }
    DiscoverKeepsShape(before, node);
    assert node in Discover(before, node).onStack;
  }

  lemma InvariantShape(edges: Edges, gray: set<string>, s: Search)
    requires Invariant(edges, gray, s)
    ensures StackShape(s) && gray <= s.onStack <= s.indices.Keys
  {
  }

  lemma StackedStays(edges: Edges, gray: set<string>, s: Search, t: Search, x: string)
    requires Invariant(edges, gray, s) && Invariant(edges, gray, t) && Extends(s, t) && x in s.onStack
    ensures x in t.onStack && x in t.indices && t.indices[x] == s.indices[x]
  {
    hide Reaches, ActiveReach, StackedReach, Decomposes, FinishedClosed;
    var i :| 0 <= i < |s.stack| && s.stack[i] == x;
    assert t.stack[i] == x;
  }

  lemma WitnessStays(edges: Edges, gray: set<string>, s: Search, t: Search, node: string, low: nat)
    requires Invariant(edges, gray, s) && Invariant(edges, gray, t) && Extends(s, t)
    requires LowWitness(edges, s, node, low)
    ensures LowWitness(edges, t, node, low)
  {
    hide Reaches, Invariant, Extends;
    var y :| y in s.onStack && y in s.indices && s.indices[y] == low && Reaches(edges, node, y);
    StackedStays(edges, gray, s, t, y);
  }

  lemma WitnessThrough(edges: Edges, s: Search, node: string, target: string, low: nat)
    requires (node, target) in edges && LowWitness(edges, s, target, low)
    ensures LowWitness(edges, s, node, low)
  {
    hide Reaches;
    var y :| y in s.onStack && y in s.indices && s.indices[y] == low && Reaches(edges, target, y);
    ReachesHop(edges, node, target);
    ReachesTransitive(edges, node, target, y);
  }

  /** Bounds survive a smaller low link and a nested activation, whose own part it bounded itself. */
  lemma BoundsAcross(edges: Edges, s: Search, t: Search, base: nat, low: nat, childLow: nat, newLow: nat)
    requires base < |s.stack| <= |t.stack| && s.stack <= t.stack && newLow <= low && newLow <= childLow
    requires forall x :: x in s.indices ==> x in t.indices && t.indices[x] == s.indices[x]
    requires AllLowBounds(edges, s, base, base + 1, low)
    requires AllLowBounds(edges, t, |s.stack|, |s.stack|, childLow)
    ensures AllLowBounds(edges, t, base, base + 1, newLow)
  {
    assert s.stack[..base] == t.stack[..base];
    forall i | base + 1 <= i < |t.stack|
      ensures LowBounds(edges, t, base, t.stack[i], newLow)
    {
      if i < |s.stack| {
        assert LowBounds(edges, s, base, s.stack[i], low);
      } else {
        assert LowBounds(edges, t, |s.stack|, t.stack[i], childLow);
        forall y | y in t.stack[..base]
          ensures y in t.stack[..|s.stack|]
        {
        }
      }
    }
  }

  lemma ExploreChild(edges: Edges, gray: set<string>, before: Search, node: string, targets: seq<string>, k: nat,
                     s: Search, low: nat, t: Search, childLow: nat)
    requires k < |targets| && (node, targets[k]) in edges && targets[k] !in s.indices
    requires StackShape(before)
    requires Exploring(edges, gray, before, node, targets, k, s, low)
    requires Visited(edges, gray + {node}, s, targets[k], t, childLow)
    ensures Exploring(edges, gray, before, node, targets, k + 1, t, Min(low, childLow))
  {
    hide Reaches, Invariant, LowWitness, LowBounds, AllLowBounds, StackShape;
    var newLow := Min(low, childLow);
    BoundsAcross(edges, s, t, |before.stack|, low, childLow, newLow);
    if childLow < low {
      WitnessThrough(edges, t, node, targets[k], childLow);
    } else {
      WitnessStays(edges, gray + {node}, s, t, node, low);
    }
    assert targets[k] !in before.stack by { NotYetStacked(before, Discover(before, node), s, targets[k]); }
  }

  lemma NotYetStacked(before: Search, discovered: Search, s: Search, target: string)
    requires StackShape(before) && before.indices.Keys <= discovered.indices.Keys && Extends(discovered, s)
    requires target !in s.indices
    ensures target !in before.stack
  {
    assert target in before.stack ==> target in Elements(before.stack);
  }
  lemma BoundsWeaken(edges: Edges, s: Search, base: nat, low: nat, newLow: nat)
    requires base < |s.stack| && newLow <= low
    requires AllLowBounds(edges, s, base, base + 1, low)
    ensures AllLowBounds(edges, s, base, base + 1, newLow)
  {
    forall i | base + 1 <= i < |s.stack|
      ensures LowBounds(edges, s, base, s.stack[i], newLow)
    {
      assert LowBounds(edges, s, base, s.stack[i], low);
    }
  }

  lemma ExploreStacked(edges: Edges, gray: set<string>, before: Search, node: string, targets: seq<string>, k: nat,
                       s: Search, low: nat)
    requires k < |targets| && (node, targets[k]) in edges && targets[k] in s.indices && targets[k] in s.onStack
    requires Exploring(edges, gray, before, node, targets, k, s, low)
    ensures Exploring(edges, gray, before, node, targets, k + 1, s, Min(low, s.indices[targets[k]]))
  {
    hide Reaches, Invariant, LowBounds, AllLowBounds, StackShape;
    var newLow := Min(low, s.indices[targets[k]]);
    BoundsWeaken(edges, s, |before.stack|, low, newLow);
    if newLow < low {
      ReachesHop(edges, node, targets[k]);
      assert LowWitness(edges, s, node, newLow);
    }
  }

  lemma PrefixStacked(prefix: seq<string>, s: Search)
    requires StackShape(s) && prefix <= s.stack
    ensures forall x :: x in prefix ==> x in s.onStack
  {
    forall i | 0 <= i < |prefix|
      ensures prefix[i] in s.onStack
    {
      assert s.stack[i] in Elements(s.stack);
    }
  }

  /** Every active node reaches each target of the innermost one. */
  lemma ActivesReachTarget(edges: Edges, gray: set<string>, node: string, target: string)
    requires forall g :: g in gray ==> Reaches(edges, g, node)
    requires (node, target) in edges
    ensures forall g :: g in gray + {node} ==> Reaches(edges, g, target)
  {
    hide Reaches;
    ReachesHop(edges, node, target);
    forall g | g in gray
      ensures Reaches(edges, g, target)
    {
      ReachesTransitive(edges, g, node, target);
    }
  }

  lemma VisitedFacts(edges: Edges, gray: set<string>, before: Search, node: string, after: Search, low: nat)
    requires Visited(edges, gray, before, node, after, low)
    ensures node in after.indices && before.indices.Keys <= after.indices.Keys
    ensures Invariant(edges, gray, after) && Extends(before, after)
  {
  }

  lemma ExploringFacts(edges: Edges, gray: set<string>, before: Search, node: string,
                       targets: seq<string>, k: nat, s: Search, low: nat)
    requires Exploring(edges, gray, before, node, targets, k, s, low)
    ensures Invariant(edges, gray + {node}, s) && node in s.indices && s.indices[node] == before.index
  {
  }

  lemma ExploreEmitted(edges: Edges, gray: set<string>, before: Search, node: string, targets: seq<string>, k: nat,
                       s: Search, low: nat)
    requires k < |targets| && targets[k] in s.indices && targets[k] !in s.onStack
    requires StackShape(before) && Exploring(edges, gray, before, node, targets, k, s, low)
    ensures Exploring(edges, gray, before, node, targets, k + 1, s, low)
  {
    hide Reaches, Invariant, LowBounds, AllLowBounds, LowWitness, StackShape, Extends;
    InvariantShape(edges, gray + {node}, s);
    StackExtends(before, node, s);
    PrefixStacked(before.stack, s);
  }

  lemma StackExtends(before: Search, node: string, s: Search)
    requires Extends(Discover(before, node), s)
    ensures before.stack <= s.stack
  {
  }

  /** All targets handled: the bound now covers the edges of `node` itself. */
  lemma ExploredBounds(edges: Edges, gray: set<string>, before: Search, node: string, targets: seq<string>,
                       s: Search, low: nat)
    requires Exploring(edges, gray, before, node, targets, |targets|, s, low)
    requires forall y :: (node, y) in edges ==> y in targets
    ensures AllLowBounds(edges, s, |before.stack|, |before.stack|, low)
    ensures |before.stack| < |s.stack| && s.stack[|before.stack|] == node && before.stack == s.stack[..|before.stack|]
    ensures forall y :: (node, y) in edges ==> y in s.indices
  {
    hide Reaches, Invariant, LowWitness;
    var base := |before.stack|;
    assert (before.stack + [node])[base] == node;
    forall i | base <= i < |s.stack|
      ensures LowBounds(edges, s, base, s.stack[i], low)
    {
      if i > base { assert LowBounds(edges, s, base, s.stack[i], low); }
    }
  }

  lemma FinishStacked(edges: Edges, gray: set<string>, before: Search, node: string, targets: seq<string>,
                      s: Search, low: nat)
    requires Invariant(edges, gray, before) && node !in before.indices
    requires Exploring(edges, gray, before, node, targets, |targets|, s, low)
    requires forall y :: (node, y) in edges ==> y in targets
    requires low != before.index
    ensures Visited(edges, gray, before, node, s, low)
  {
    hide Reaches, LowWitness, AllLowBounds, StackShape, Decomposes, ActiveReach, StackedReach, FinishedClosed;
    ExploredBounds(edges, gray, before, node, targets, s, low);
    assert node !in gray by { InvariantShape(edges, gray, before); }
    RetireKeepsInvariant(edges, gray, s, node, low);
  }

  lemma NoEdgeBelow(edges: Edges, s: Search, base: nat)
    requires StackShape(s) && base < |s.stack|
    requires AllLowBounds(edges, s, base, base, s.indices[s.stack[base]])
    ensures forall x, y :: x in s.stack[base..] && y in s.stack[..base] ==> (x, y) !in edges
  {
    forall x, y | x in s.stack[base..] && y in s.stack[..base]
      ensures (x, y) !in edges
    {
      var i :| base <= i < |s.stack| && s.stack[i] == x;
      var j :| 0 <= j < base && s.stack[j] == y;
      assert LowBounds(edges, s, base, s.stack[i], s.indices[s.stack[base]]);
      assert s.indices[s.stack[j]] < s.indices[s.stack[base]];
    }
  }

  lemma FinishReady(edges: Edges, gray: set<string>, before: Search, node: string, targets: seq<string>, s: Search)
    requires Invariant(edges, gray, before) && node !in before.indices
    requires Exploring(edges, gray, before, node, targets, |targets|, s, before.index)
    requires forall y :: (node, y) in edges ==> y in targets
    ensures |before.stack| < |s.stack| && s.stack[..|before.stack|] == before.stack
    ensures ReadyToEmit(edges, gray, s, |before.stack|, node)
  {
    ExploredBounds(edges, gray, before, node, targets, s, before.index);
    InvariantShape(edges, gray + {node}, s);
    InvariantShape(edges, gray, before);
    hide Reaches, Invariant, LowWitness, AllLowBounds;
    NoEdgeBelow(edges, s, |before.stack|);
  }

  lemma FinishEmitted(edges: Edges, gray: set<string>, before: Search, node: string, targets: seq<string>,
                      s: Search, popped: seq<string>)
    requires Invariant(edges, gray, before) && node !in before.indices
    requires Exploring(edges, gray, before, node, targets, |targets|, s, before.index)
    requires forall y :: (node, y) in edges ==> y in targets
    requires popped != [] && |before.stack| <= |s.stack| && multiset(popped) == multiset(s.stack[|before.stack|..])
    ensures Visited(edges, gray, before, node, Emit(s, |before.stack|, Sorted(popped)), before.index)
  {
    hide Reaches, Invariant, LowWitness, ReadyToEmit, Sorted, LowBounds, Exploring, Visited, Extends;
    hide Elements, Ascending, Distinct;
    var k := |before.stack|;
    FinishReady(edges, gray, before, node, targets, s);
    PoppedPortion(edges, gray, s, k, node, popped);
    EmitKeepsInvariant(edges, gray, s, k, node, Sorted(popped));
    EmittedIsVisited(edges, gray, before, node, targets, s, Sorted(popped));
  }

  lemma EmittedIsVisited(edges: Edges, gray: set<string>, before: Search, node: string, targets: seq<string>,
                         s: Search, component: seq<string>)
    requires node !in before.indices && Exploring(edges, gray, before, node, targets, |targets|, s, before.index)
    requires |before.stack| < |s.stack| && s.stack[..|before.stack|] == before.stack
    requires Invariant(edges, gray, Emit(s, |before.stack|, component))
    ensures Visited(edges, gray, before, node, Emit(s, |before.stack|, component), before.index)
  {
    hide Reaches, Invariant, LowWitness, LowBounds;
  }

  lemma PoppedPortion(edges: Edges, gray: set<string>, s: Search, k: nat, node: string, popped: seq<string>)
    requires ReadyToEmit(edges, gray, s, k, node)
    requires popped != [] && multiset(popped) == multiset(s.stack[k..])
    ensures Sorted(popped) != [] && Distinct(Sorted(popped)) && Ascending(Sorted(popped))
    ensures Elements(Sorted(popped)) == Portion(s, k)
  {
    assert Distinct(s.stack[k..]) by { StackSplits(s, k); }
    hide ReadyToEmit;
    DistinctRearranged(s.stack[k..], Sorted(popped));
    SameElements(s.stack[k..], Sorted(popped));
  }

  /** Low links other than those of nodes discovered since are untouched. */
  ghost predicate LinksKept(before: map<string, nat>, after: map<string, nat>) {
    forall x :: x in before ==> x in after && after[x] == before[x]
  }

  lemma LinksStart(before: map<string, nat>, node: string, low: nat)
    requires node !in before
    ensures LinksKept(before, before[node := low])
  {
  }

  lemma LinksJoin(before: map<string, nat>, middle: map<string, nat>, after: map<string, nat>, node: string)
    requires LinksKept(before, middle) && LinksKept(middle - {node}, after) && node !in before
    ensures LinksKept(before, after)
  {
    forall x | x in before
      ensures x in after && after[x] == before[x]
    {
      assert x in middle - {node};
    }
  }

  lemma Successors(graph: map<string, seq<string>>, edges: Edges, node: string)
    requires Represents(graph, edges) && node in graph
    ensures forall y :: (node, y) in edges <==> y in graph[node]
    ensures forall i :: 0 <= i < |graph[node]| ==> graph[node][i] in graph && (node, graph[node][i]) in edges
  {
    forall i | 0 <= i < |graph[node]|
      ensures graph[node][i] in graph && (node, graph[node][i]) in edges
    {
      assert graph[node][i] in graph[node];
    }
  }

  class Finder {
    const graph: map<string, seq<string>>
    ghost const edges: Edges
    var index: nat
    var indices: map<string, nat>
    var lowLinks: map<string, nat>
    var stack: seq<string>
    var onStack: set<string>
    var components: seq<seq<string>>

    ghost function Shared(): Search
      reads this
    {
      Search(indices, index, stack, onStack, components)
    }

    ghost predicate Valid()
      reads this
    {
      Represents(graph, edges) && lowLinks.Keys == indices.Keys && indices.Keys <= graph.Keys
    }

    constructor (graph: map<string, seq<string>>, ghost edges: Edges)
      requires Represents(graph, edges)
      ensures this.graph == graph && this.edges == edges
      ensures Valid() && Shared() == Search(map[], 0, [], {}, [])
      ensures Invariant(edges, {}, Shared())
    {
      this.graph, this.edges := graph, edges;
      index, indices, lowLinks, stack, onStack, components := 0, map[], map[], [], {}, [];
    }

    method PopThrough(node: string, ghost k: nat) returns (component: seq<string>)
      requires k < |stack| && stack[k] == node && StackShape(Shared())
      modifies this`stack, this`onStack
      ensures stack == old(stack)[..k]
      ensures onStack == old(onStack) - Portion(old(Shared()), k)
      ensures component != [] && multiset(component) == multiset(old(stack)[k..])
    {
      hide Popped, StackShape, Elements;
      component := [];
      ghost var whole, members := stack, onStack;
      StackedOnce(Shared(), k);
      assert Popped(whole, members, |whole|, stack, onStack, component) by { PopStart(whole, members); }
      while stack != []
        invariant k < |stack| <= |whole|
        invariant Popped(whole, members, |stack|, stack, onStack, component)
        decreases |stack|
      {
        PopStep(whole, members, |stack|, stack, onStack, component);
        var member := stack[|stack| - 1];
        stack := stack[..|stack| - 1];
        onStack := onStack - {member};
        component := component + [member];
        if member == node {
          PopEnd(whole, members, k, stack, onStack, component);
          return;
        }
      }
    }

    /** The outer loop over the sorted keys. */
    method Run(order: seq<string>) returns (found: seq<seq<string>>)
      requires Valid() && Invariant(edges, {}, Shared())
      requires forall x :: x in order <==> x in graph
      modifies this
      ensures found == components && Decomposes(edges, found, graph.Keys)
    {
      hide Invariant, Represents, Visited, Decomposes, Extends;
      for i := 0 to |order|
        invariant Valid() && Invariant(edges, {}, Shared())
        invariant Elements(order[..i]) <= indices.Keys
      {
        if order[i] !in indices {
          ghost var s := Shared();
          Visit(order[i], {});
          VisitedFacts(edges, {}, s, order[i], Shared(), lowLinks[order[i]]);
        }
        assert Elements(order[..i + 1]) == Elements(order[..i]) + {order[i]};
      }
      IdleInvariant(edges, Shared());
      TakeAll(order);
      assert indices.Keys == graph.Keys by {
        assert Elements(order) == graph.Keys;
      }
      found := components;
    }

    /** The body of the loop over the targets of `node`. */
    method Consider(node: string, target: string, ghost gray: set<string>, ghost before: Search,
                    ghost targets: seq<string>, ghost k: nat)
      requires Valid() && node in lowLinks && StackShape(before)
      requires Exploring(edges, gray, before, node, targets, k, Shared(), lowLinks[node])
      requires k < |targets| && targets[k] == target && target in graph && (node, target) in edges
      requires forall g :: g in gray ==> Reaches(edges, g, node)
      modifies this
      decreases graph.Keys - indices.Keys, 1
      ensures Valid() && node in lowLinks && old(indices).Keys <= indices.Keys
      ensures Exploring(edges, gray, before, node, targets, k + 1, Shared(), lowLinks[node])
      ensures LinksKept(old(lowLinks) - {node}, lowLinks)
    {
      hide Reaches, Invariant, Exploring, Visited, Represents, StackShape, Extends;
      ghost var s, low := Shared(), lowLinks[node];
      ExploringFacts(edges, gray, before, node, targets, k, s, low);
      if target !in indices {
        ActivesReachTarget(edges, gray, node, target);
        Visit(target, gray + {node});
        VisitedFacts(edges, gray + {node}, s, target, Shared(), lowLinks[target]);
        lowLinks := lowLinks[node := Min(lowLinks[node], lowLinks[target])];
        ExploreChild(edges, gray, before, node, targets, k, s, low, Shared(), lowLinks[target]);
      } else if target in onStack {
        lowLinks := lowLinks[node := Min(lowLinks[node], indices[target])];
        ExploreStacked(edges, gray, before, node, targets, k, s, low);
      } else {
        ExploreEmitted(edges, gray, before, node, targets, k, s, low);
      }
    }

    method Visit(node: string, ghost gray: set<string>)
      requires Valid() && Invariant(edges, gray, Shared()) && node in graph && node !in indices
      requires forall g :: g in gray ==> Reaches(edges, g, node)
      modifies this
      decreases graph.Keys - indices.Keys, 0
      ensures Valid() && node in lowLinks
      ensures Visited(edges, gray, old(Shared()), node, Shared(), lowLinks[node])
      ensures LinksKept(old(lowLinks), lowLinks)
    {
      hide Reaches, Invariant, Exploring, Visited, Represents, StackShape, Extends, LinksKept;
      ghost var before, links := Shared(), lowLinks;
      InvariantShape(edges, gray, before);
      ExploreStart(edges, gray, before, node, graph[node]);
      indices := indices[node := index];
      lowLinks := lowLinks[node := index];
      index := index + 1;
      stack := stack + [node];
      onStack := onStack + {node};

      var targets := graph[node];
      Successors(graph, edges, node);
      LinksStart(links, node, before.index);
      for k := 0 to |targets|
        invariant Valid() && node in lowLinks
        invariant node in indices && before.indices.Keys <= indices.Keys
        invariant Exploring(edges, gray, before, node, targets, k, Shared(), lowLinks[node])
        invariant LinksKept(links, lowLinks)
      {
        ghost var kept := lowLinks;
        Consider(node, targets[k], gray, before, targets, k);
        LinksJoin(links, kept, lowLinks, node);
      }

      if lowLinks[node] != indices[node] {
        ExploringFacts(edges, gray, before, node, targets, |targets|, Shared(), lowLinks[node]);
        FinishStacked(edges, gray, before, node, targets, Shared(), lowLinks[node]);
        return;
      }
      Close(node, gray, before, targets);
    }

    /** The end of `visit` for the root of a component. */
    method Close(node: string, ghost gray: set<string>, ghost before: Search, ghost targets: seq<string>)
      requires Valid() && Invariant(edges, gray, before) && node in indices && node !in before.indices
      requires lowLinks[node] == indices[node]
      requires Exploring(edges, gray, before, node, targets, |targets|, Shared(), lowLinks[node])
      requires forall y :: (node, y) in edges ==> y in targets
      modifies this`stack, this`onStack, this`components
      ensures Visited(edges, gray, before, node, Shared(), lowLinks[node])
    {
      hide Reaches, Invariant, Exploring, Visited, Represents, StackShape, Extends;
      ghost var s := Shared();
      ExploringFacts(edges, gray, before, node, targets, |targets|, s, lowLinks[node]);
      InvariantShape(edges, gray + {node}, s);
      FinishReady(edges, gray, before, node, targets, s);
      var component := PopThrough(node, |before.stack|);
      components := components + [Sorted(component)];
      FinishEmitted(edges, gray, before, node, targets, s, component);
    }
  }

  // ---- The two public functions ----

  ghost function EdgeSet(edges: seq<(string, string)>): Edges {
    set e | e in edges
  }

  ghost function Endpoints(edges: seq<(string, string)>): set<string> {
    if edges == [] then {}
    else
      var last := edges[|edges| - 1];
      Endpoints(edges[..|edges| - 1]) + {last.0, last.1}
  }

  lemma {:induction false} EndpointsCover(edges: seq<(string, string)>, e: (string, string))
    requires e in edges
    ensures e.0 in Endpoints(edges) && e.1 in Endpoints(edges)
  {
    if e != edges[|edges| - 1] {
      assert e in edges[..|edges| - 1];
      EndpointsCover(edges[..|edges| - 1], e);
    }
  }

  /** Listed nodes together with every endpoint of an edge. */
  ghost function Vertices(nodes: seq<string>, edges: seq<(string, string)>): set<string> {
    Elements(nodes) + Endpoints(edges)
  }

  /** The targets of the edges that leave `x`, in the order of the edges. */
  ghost function TargetsFrom(edges: seq<(string, string)>, x: string): seq<string> {
    if edges == [] then []
    else
      var last := edges[|edges| - 1];
      TargetsFrom(edges[..|edges| - 1], x) + if last.0 == x then [last.1] else []
  }

  /** The dictionary after the `setdefault` calls, with its keys in some order. */
  ghost predicate Adjacency(nodes: seq<string>, edges: seq<(string, string)>,
                            graph: map<string, seq<string>>, keys: seq<string>) {
    && graph.Keys == Vertices(nodes, edges)
    && (forall x :: x in graph ==> graph[x] == TargetsFrom(edges, x))
    && (forall x :: x in keys <==> x in graph)
  }

  lemma {:induction false} TargetsAreEdges(edges: seq<(string, string)>, x: string, y: string)
    ensures y in TargetsFrom(edges, x) <==> (x, y) in EdgeSet(edges)
  {
    if edges != [] {
      var rest, last := edges[..|edges| - 1], edges[|edges| - 1];
      TargetsAreEdges(rest, x, y);
      assert edges == rest + [last];
    }
  }

  lemma AdjacencyRepresents(nodes: seq<string>, edges: seq<(string, string)>, graph: map<string, seq<string>>,
                            keys: seq<string>)
    requires Adjacency(nodes, edges, graph, keys)
    ensures Represents(graph, EdgeSet(edges))
  {
    forall x, y
      ensures (x, y) in EdgeSet(edges) ==> x in graph && y in graph
      ensures x in graph ==> ((x, y) in EdgeSet(edges) <==> y in graph[x])
    {
      TargetsAreEdges(edges, x, y);
      if (x, y) in EdgeSet(edges) {
        EndpointsCover(edges, (x, y));
      }
    }
  }

  method AddNode(graph: map<string, seq<string>>, keys: seq<string>, node: string)
    returns (grown: map<string, seq<string>>, order: seq<string>)
    requires forall x :: x in keys <==> x in graph
    ensures grown.Keys == graph.Keys + {node}
    ensures forall x :: x in grown ==> grown[x] == if x in graph then graph[x] else []
    ensures forall x :: x in order <==> x in grown
  {
    grown, order := graph, keys;
    if node !in graph {
      grown, order := graph[node := []], keys + [node];
    }
  }

  method AddEdge(graph: map<string, seq<string>>, keys: seq<string>, e: (string, string))
    returns (grown: map<string, seq<string>>, order: seq<string>)
    requires forall x :: x in keys <==> x in graph
    ensures Appended(graph, e, grown) && forall x :: x in order <==> x in grown
  {
    hide Appended;
    var sourced, first := AddNode(graph, keys, e.0);
    var linked := sourced[e.0 := sourced[e.0] + [e.1]];
    assert linked.Keys == sourced.Keys;
    grown, order := AddNode(linked, first, e.1);
    AppendedSteps(graph, e, sourced, linked, grown);
  }

  lemma AppendedSteps(graph: map<string, seq<string>>, e: (string, string), sourced: map<string, seq<string>>,
                      linked: map<string, seq<string>>, grown: map<string, seq<string>>)
    requires sourced.Keys == graph.Keys + {e.0}
    requires forall x :: x in sourced ==> sourced[x] == if x in graph then graph[x] else []
    requires linked == sourced[e.0 := sourced[e.0] + [e.1]]
    requires grown.Keys == linked.Keys + {e.1}
    requires forall x :: x in grown ==> grown[x] == if x in linked then linked[x] else []
    ensures Appended(graph, e, grown)
  {
    assert grown[e.0] == linked[e.0] == sourced[e.0] + [e.1];
    forall x | x in grown && x != e.0
      ensures grown[x] == if x in graph then graph[x] else []
    {
      assert x in linked <==> x in sourced;
    }
  }

  ghost predicate Appended(was: map<string, seq<string>>, e: (string, string), graph: map<string, seq<string>>) {
    && graph.Keys == was.Keys + {e.0, e.1}
    && graph[e.0] == (if e.0 in was then was[e.0] else []) + [e.1]
    && forall x :: x in graph && x != e.0 ==> graph[x] == if x in was then was[x] else []
  }

  method BuildGraph(nodes: seq<string>, edges: seq<(string, string)>)
    returns (graph: map<string, seq<string>>, keys: seq<string>)
    ensures Adjacency(nodes, edges, graph, keys)
  {
    graph, keys := map[], [];
    for i := 0 to |nodes|
      invariant graph.Keys == Elements(nodes[..i])
      invariant forall x :: x in graph ==> graph[x] == []
      invariant forall x :: x in keys <==> x in graph
    {
      graph, keys := AddNode(graph, keys, nodes[i]);
      assert Elements(nodes[..i + 1]) == Elements(nodes[..i]) + {nodes[i]};
    }
    assert nodes[..|nodes|] == nodes && edges[..0] == [];
    hide TargetsFrom, Endpoints, Elements, Vertices, Appended;
    assert Adjacency(nodes, edges[..0], graph, keys) by { NoEdges(nodes, graph); }
    for i := 0 to |edges|
      invariant Adjacency(nodes, edges[..i], graph, keys)
    {
      ghost var was := graph;
      graph, keys := AddEdge(graph, keys, edges[i]);
      AdjacencyGrows(nodes, edges[..i], edges[i], was, graph);
      TakeNext(edges, i);
    }
    TakeAll(edges);
  }

  lemma NoEdges(nodes: seq<string>, graph: map<string, seq<string>>)
    requires forall x :: x in graph ==> graph[x] == []
    ensures (forall x :: x in graph ==> graph[x] == TargetsFrom([], x)) && Vertices(nodes, []) == Elements(nodes)
  {
  }

  lemma {:induction false} NoTargets(edges: seq<(string, string)>, x: string)
    requires x !in Endpoints(edges)
    ensures TargetsFrom(edges, x) == []
  {
    if edges != [] {
      NoTargets(edges[..|edges| - 1], x);
    }
  }

  lemma AdjacencyGrows(nodes: seq<string>, edges: seq<(string, string)>, e: (string, string),
                       was: map<string, seq<string>>, graph: map<string, seq<string>>)
    requires was.Keys == Vertices(nodes, edges) && forall x :: x in was ==> was[x] == TargetsFrom(edges, x)
    requires Appended(was, e, graph)
    ensures graph.Keys == Vertices(nodes, edges + [e])
    ensures forall x :: x in graph ==> graph[x] == TargetsFrom(edges + [e], x)
  {
    var grown := edges + [e];
    assert grown[..|grown| - 1] == edges;
    forall x | x in graph
      ensures graph[x] == TargetsFrom(grown, x)
    {
      if x !in was {
        NoTargets(edges, x);
      }
    }
  }

  method StronglyConnectedComponents(nodes: seq<string>, edges: seq<(string, string)>)
    returns (components: seq<seq<string>>)
    ensures Decomposes(EdgeSet(edges), components, Vertices(nodes, edges))
  {
    var graph, keys := BuildGraph(nodes, edges);
    AdjacencyRepresents(nodes, edges, graph, keys);
    var finder := new Finder(graph, EdgeSet(edges));
    var order := Sorted(keys);
    SameElements(keys, order);
    hide Decomposes, Represents, Vertices, EdgeSet, Invariant;
    components := finder.Run(order);
  }

  /** With no activation left the stack is empty, so every discovered node has been emitted. */
  lemma IdleInvariant(edges: Edges, s: Search)
    requires Invariant(edges, {}, s)
    ensures Decomposes(edges, s.components, s.indices.Keys)
  {
    hide Decomposes;
    assert forall y :: y in s.onStack ==> ReachesActiveBelow(edges, {}, s, y);
    assert s.onStack == {};
    assert s.indices.Keys - s.onStack == s.indices.Keys;
  }

  /** Two vertices share a component exactly when each reaches the other. */
  lemma SharedComponentIsMutual(edges: Edges, components: seq<seq<string>>, vertices: set<string>, x: string, y: string)
    requires Decomposes(edges, components, vertices) && x in vertices
    ensures (exists i :: 0 <= i < |components| && x in components[i] && y in components[i]) <==> Mutual(edges, x, y)
  {
    assert EmittedBy(components, |components|, x);
    var i :| 0 <= i < |components| && x in components[i];
    assert IsClass(edges, components[i]);
  }

  /** Every vertex is in exactly one component. */
  lemma ComponentsPartition(edges: Edges, components: seq<seq<string>>, vertices: set<string>, x: string)
    requires Decomposes(edges, components, vertices)
    ensures x in vertices <==> exists i :: 0 <= i < |components| && x in components[i]
    ensures forall i, j :: 0 <= i < |components| && 0 <= j < |components| && x in components[i] && x in components[j] ==> i == j
  {
    assert x in vertices <==> EmittedBy(components, |components|, x);
  }

  /** An edge between different components goes from a later one to an earlier one. */
  lemma ReverseTopological(edges: Edges, components: seq<seq<string>>, vertices: set<string>,
                           i: nat, j: nat, x: string, y: string)
    requires Decomposes(edges, components, vertices) && (x, y) in edges
    requires i < |components| && j < |components| && x in components[i] && y in components[j]
    ensures j <= i
  {
    assert EmittedBy(components, i + 1, y);
    var k :| 0 <= k < i + 1 && y in components[k];
    ComponentsPartition(edges, components, vertices, y);
  }

  predicate LoopsBack(edges: set<(string, string)>, c: seq<string>) {
    c != [] && (|c| > 1 || (c[0], c[0]) in edges)
  }

  /** A component is cyclic exactly when its members lie on a cycle. */
  lemma ComponentOnCycle(edges: Edges, c: seq<string>, x: string)
    requires IsClass(edges, c) && x in c
    ensures OnCycle(edges, x) <==> LoopsBack(edges, c)
  {
    CycleIsMutualOrLoop(edges, x);
    hide Reaches, OnCycle, Ascending;
    var i :| 0 <= i < |c| && c[i] == x;
    if |c| > 1 {
      var y := if i == 0 then c[1] else c[0];
      assert y != x && y in c;
      assert Mutual(edges, x, y);
    } else if exists y :: y != x && Mutual(edges, x, y) {
      var y :| y != x && Mutual(edges, x, y);
      assert y in c;
    }
  }

  function Cyclic(components: seq<seq<string>>, loops: set<string>): (kept: seq<seq<string>>)
    requires forall i :: 0 <= i < |components| ==> components[i] != []
  {
    if components == [] then []
    else
      var c := components[0];
      (if |c| > 1 || c[0] in loops then [c] else []) + Cyclic(components[1..], loops)
  }

  lemma {:induction false} CyclicKeeps(components: seq<seq<string>>, loops: set<string>, c: seq<string>)
    requires forall i :: 0 <= i < |components| ==> components[i] != []
    ensures c in Cyclic(components, loops) <==> c in components && (|c| > 1 || c[0] in loops)
  {
    if components != [] {
      CyclicKeeps(components[1..], loops, c);
    }
  }

  /** No component leads to one that is listed after it, not even through nodes that are not listed. */
  ghost predicate NeverAhead(edges: Edges, components: seq<seq<string>>) {
    forall i, j, x, y :: 0 <= i < j < |components| && x in components[i] && y in components[j] ==> !Reaches(edges, x, y)
  }

  /** An emitted component leads only to itself and to components emitted before it. */
  lemma EarlierNeverLeads(edges: Edges, components: seq<seq<string>>, vertices: set<string>,
                          i: nat, j: nat, x: string, y: string)
    requires Decomposes(edges, components, vertices) && i < j < |components| && x in components[i] && y in components[j]
    ensures !Reaches(edges, x, y)
  {
    hide Reaches, IsClass;
    var region := set z | z in vertices && EmittedBy(components, i + 1, z);
    forall z | EmittedBy(components, i + 1, z)
      ensures z in region
    {
      assert EmittedBy(components, |components|, z);
    }
    forall u, v | u in region && (u, v) in edges
      ensures v in region
    {
      var k :| 0 <= k < i + 1 && u in components[k];
      assert EmittedBy(components, k + 1, v);
    }
    assert EmittedBy(components, i + 1, x);
    if Reaches(edges, x, y) {
      ClosedReach(edges, region, x, y);
    }
  }

  /** What the filter keeps stays in the order in which it was emitted. */
  lemma {:induction false} CyclicKeepsOrder(components: seq<seq<string>>, loops: set<string>, i: nat, j: nat)
    requires forall k :: 0 <= k < |components| ==> components[k] != []
    requires i < j < |Cyclic(components, loops)|
    ensures exists p, q ::
      && 0 <= p < q < |components|
      && components[p] == Cyclic(components, loops)[i] && components[q] == Cyclic(components, loops)[j]
  {
    var c, rest, kept := components[0], components[1..], Cyclic(components, loops);
    var tail := Cyclic(rest, loops);
    var first := |kept| - |tail|;
    if i < first {
      assert kept[i] == components[0] && kept[j] == tail[j - 1] && kept[j] in tail;
      CyclicKeeps(rest, loops, kept[j]);
      var q :| 0 <= q < |rest| && rest[q] == kept[j];
      assert components[q + 1] == kept[j];
    } else {
      CyclicKeepsOrder(rest, loops, i - first, j - first);
      var p, q :| 0 <= p < q < |rest| && rest[p] == tail[i - first] && rest[q] == tail[j - first];
      assert components[p + 1] == kept[i] && components[q + 1] == kept[j];
    }
  }

  lemma CyclicInOrder(edges: Edges, components: seq<seq<string>>, vertices: set<string>, loops: set<string>)
    requires Decomposes(edges, components, vertices) && forall k :: 0 <= k < |components| ==> components[k] != []
    ensures PairwiseDisjoint(Cyclic(components, loops)) && NeverAhead(edges, Cyclic(components, loops))
  {
    hide Reaches, IsClass, Cyclic, Decomposes;
    var kept := Cyclic(components, loops);
    forall i, j, x, y | 0 <= i < j < |kept| && x in kept[i] && y in kept[j]
      ensures !Reaches(edges, x, y) && x !in kept[j]
    {
      CyclicKeepsOrder(components, loops, i, j);
      var p, q :| 0 <= p < q < |components| && components[p] == kept[i] && components[q] == kept[j];
      EarlierNeverLeads(edges, components, vertices, p, q, x, y);
      DisjointAt(edges, components, vertices, p, q, x);
    }
    forall i, j, x | 0 <= i < j < |kept| && x in kept[i]
      ensures x !in kept[j]
    {
      CyclicKeepsOrder(components, loops, i, j);
      var p, q :| 0 <= p < q < |components| && components[p] == kept[i] && components[q] == kept[j];
      DisjointAt(edges, components, vertices, p, q, x);
    }
  }

  lemma DisjointAt(edges: Edges, components: seq<seq<string>>, vertices: set<string>, p: nat, q: nat, x: string)
    requires Decomposes(edges, components, vertices) && p < q < |components| && x in components[p]
    ensures x !in components[q]
  {
  }

  /**
   * The returned components are the classes of nodes on a directed cycle, self-loops included, each once, and no class
   * before the ones it leads to.
   */
  method CyclicComponents(nodes: seq<string>, edges: seq<(string, string)>) returns (cyclic: seq<seq<string>>)
    ensures forall x :: (exists c :: c in cyclic && x in c) <==> OnCycle(EdgeSet(edges), x)
    ensures forall c :: c in cyclic ==> IsClass(EdgeSet(edges), c)
    ensures PairwiseDisjoint(cyclic) && NeverAhead(EdgeSet(edges), cyclic)
    ensures cyclic == [] <==> !exists x :: OnCycle(EdgeSet(edges), x)
  {
    hide Reaches, OnCycle, NeverAhead, PairwiseDisjoint;
    var loops := set e | e in edges && e.0 == e.1 :: e.0;
    var components := StronglyConnectedComponents(nodes, edges);
    cyclic := Cyclic(components, loops);
    CyclicInOrder(EdgeSet(edges), components, Vertices(nodes, edges), loops);
    forall c
      ensures c in cyclic <==> c in components && LoopsBack(EdgeSet(edges), c)
    {
      CyclicKeeps(components, loops, c);
      LoopSet(edges, loops, c);
    }
    CyclicIsExact(nodes, edges, components, cyclic);
  }

  lemma LoopSet(edges: seq<(string, string)>, loops: set<string>, c: seq<string>)
    requires loops == set e | e in edges && e.0 == e.1 :: e.0
    ensures c != [] ==> (c[0] in loops <==> (c[0], c[0]) in EdgeSet(edges))
  {
    if c != [] && (c[0], c[0]) in edges {
      var e := (c[0], c[0]);
      assert e in edges && e.0 == e.1;
    }
  }

  lemma CycleStaysInside(nodes: seq<string>, edges: seq<(string, string)>, x: string)
    requires OnCycle(EdgeSet(edges), x)
    ensures x in Vertices(nodes, edges)
  {
    var path :| |path| > 1 && IsPath(EdgeSet(edges), path, x, x);
    assert Hop(EdgeSet(edges), path, 0);
    EndpointsCover(edges, (path[0], path[1]));
  }

  lemma CyclicIsExact(nodes: seq<string>, edges: seq<(string, string)>,
                      components: seq<seq<string>>, cyclic: seq<seq<string>>)
    requires Decomposes(EdgeSet(edges), components, Vertices(nodes, edges))
    requires forall c :: c in cyclic <==> c in components && LoopsBack(EdgeSet(edges), c)
    ensures forall x :: (exists c :: c in cyclic && x in c) <==> OnCycle(EdgeSet(edges), x)
    ensures forall c :: c in cyclic ==> IsClass(EdgeSet(edges), c)
    ensures cyclic == [] <==> !exists x :: OnCycle(EdgeSet(edges), x)
  {
    hide OnCycle;
    forall x
      ensures (exists c :: c in cyclic && x in c) <==> OnCycle(EdgeSet(edges), x)
    {
      CyclicIsExactAt(nodes, edges, components, cyclic, x);
    }
    if cyclic != [] {
      var c := cyclic[0];
      assert c in cyclic && LoopsBack(EdgeSet(edges), c);
      assert c[0] in c;
      assert OnCycle(EdgeSet(edges), c[0]);
    }
  }

  lemma CyclicIsExactAt(nodes: seq<string>, edges: seq<(string, string)>,
                        components: seq<seq<string>>, cyclic: seq<seq<string>>, x: string)
    requires Decomposes(EdgeSet(edges), components, Vertices(nodes, edges))
    requires forall c :: c in cyclic <==> c in components && LoopsBack(EdgeSet(edges), c)
    ensures (exists c :: c in cyclic && x in c) <==> OnCycle(EdgeSet(edges), x)
  {
    hide OnCycle, LoopsBack;
    if c :| c in cyclic && x in c {
      ComponentOnCycle(EdgeSet(edges), c, x);
    }
    if OnCycle(EdgeSet(edges), x) {
      CycleStaysInside(nodes, edges, x);
      assert EmittedBy(components, |components|, x);
      var i :| 0 <= i < |components| && x in components[i];
      ComponentOnCycle(EdgeSet(edges), components[i], x);
    }
  }
}
