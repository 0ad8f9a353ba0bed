/** The two bounded breadth-first traversals: over an edge list, and level by level over
    database queries. Neither models its deadline. */
module Traversal {
  import opened Collections
  import opened Graph
  import opened Domain

  datatype Error = Required | LimitExceeded | NotFound

  datatype Found = Found(nodes: seq<string>, relationships: seq<Relationship>, depth: nat)

  /** No node precedes a nearer one. */
  ghost predicate NearestFirst(v: View, start: string, nodes: seq<string>) {
    forall i, j, d: nat :: 0 <= i < j < |nodes| && nodes[j] in v.Ball(start, d) ==> nodes[i] in v.Ball(start, d)
  }

  /** The greatest distance of a node in the ball of radius `d`. */
  function Reach(v: View, start: string, d: nat): nat {
    if d == 0 then 0 else if v.Ball(start, d) != v.Ball(start, d - 1) then d else Reach(v, start, d - 1)
  }

  function Min(a: int, b: int): int { if a < b then a else b }

  // ---------- over an edge list ----------

  /** Loop state: the visited set, the result so far, and the next frontier. */
  datatype Walk = Walk(seen: set<string>, nodes: seq<string>, relationships: seq<Relationship>, next: seq<string>)

  /** The result lists every visited node once. */
  predicate Tidy(nodes: seq<string>, seen: set<string>) {
    Distinct(nodes) && Elements(nodes) == seen
  }

  /** The nodes that the first `n` edges lead to from `id`. */
  function Leads(v: View, n: nat, id: string): set<string>
    requires n <= |v.edges|
  {
    set i | 0 <= i < n && v.Usable(v.edges[i]) && v.Source(v.edges[i]) == id :: v.Target(v.edges[i])
  }

  lemma LeadsStep(v: View, n: nat, id: string)
    requires n < |v.edges|
    ensures Leads(v, n + 1, id)
         == Leads(v, n, id) + (if v.Usable(v.edges[n]) && v.Source(v.edges[n]) == id then {v.Target(v.edges[n])}
                               else {})
  {
  }

  lemma LeadsAll(v: View, id: string)
    ensures Leads(v, |v.edges|, id) == v.Targets({id})
  {
    forall y | y in v.Targets({id}) ensures y in Leads(v, |v.edges|, id) {
      var e :| e in v.edges && v.Usable(e) && v.Source(e) == id && v.Target(e) == y;
      var i :| 0 <= i < |v.edges| && v.edges[i] == e;
    }
  }

  lemma LeadsWithin(v: View, n: nat, id: string)
    requires n <= |v.edges|
    ensures Leads(v, n, id) <= v.Targets({id})
  {
    forall y | y in Leads(v, n, id) ensures y in v.Targets({id}) {
      var i :| 0 <= i < n && v.Usable(v.edges[i]) && v.Source(v.edges[i]) == id && v.Target(v.edges[i]) == y;
      assert v.edges[i] in v.edges;
    }
  }

  lemma SnocTidy(nodes: seq<string>, seen: set<string>, x: string)
    requires Tidy(nodes, seen) && x !in seen
    ensures Tidy(nodes + [x], seen + {x})
  {
    assert Elements(nodes + [x]) == Elements(nodes) + {x};
  }

  /** Follows every edge that leaves `id`. Fails exactly when that would visit too many nodes. */
  method ExpandNode(v: View, id: string, limit: nat, w: Walk) returns (ok: bool, r: Walk, ghost added: seq<string>)
    requires Tidy(w.nodes, w.seen) && |w.seen| <= limit
    ensures ok <==> |w.seen + v.Targets({id})| <= limit
    ensures ok ==> Tidy(r.nodes, r.seen) && r.seen == w.seen + v.Targets({id})
    ensures ok ==> r.nodes == w.nodes + added && r.next == w.next + added
    ensures ok ==> r.relationships == w.relationships + Leaving(v, v.edges, {id})
  {
    hide Tidy, Leads, Leaving, View.Targets, Expanding;
    r, added := w, [];
    ExpandStart(v, id, w);
    for j := 0 to |v.edges|
      invariant Expanding(v, id, w, j, r, added) && |r.seen| <= limit
    {
      var e := v.edges[j];
      var to := v.Target(e);
      ExpandStep(v, id, w, j, r, added);
      if v.Usable(e) && v.Source(e) == id {
        r := r.(relationships := r.relationships + [e]);
        if to !in r.seen {
          if |r.seen| >= limit {
            ExpandWithin(v, id, w, j + 1, r.(seen := r.seen + {to}, nodes := r.nodes + [to], next := r.next + [to]),
                         added + [to]);
            return false, r, added;
          }
          r := r.(seen := r.seen + {to}, nodes := r.nodes + [to], next := r.next + [to]);
          added := added + [to];
        }
      }
    }
    ExpandDone(v, id, w, r, added);
    ok := true;
  }

  /** Invariant of the edge loop: `r` is `w` after following the first `j` edges from `id`. */
  ghost predicate Expanding(v: View, id: string, w: Walk, j: nat, r: Walk, added: seq<string>)
    requires j <= |v.edges|
  {
    && Tidy(r.nodes, r.seen) && r.seen == w.seen + Leads(v, j, id)
    && r.nodes == w.nodes + added && r.next == w.next + added
    && r.relationships == w.relationships + Leaving(v, v.edges[..j], {id})
  }

  lemma ExpandStart(v: View, id: string, w: Walk)
    requires Tidy(w.nodes, w.seen)
    ensures Expanding(v, id, w, 0, w, [])
  {
    hide Tidy, Leads, Leaving;
    LeadsNone(v, id);
  }

  /** Following edge `j`: skip it, record it, or record it and its new target. */
  lemma ExpandStep(v: View, id: string, w: Walk, j: nat, r: Walk, added: seq<string>)
    requires j < |v.edges| && Expanding(v, id, w, j, r, added)
    ensures var e, to := v.edges[j], v.Target(v.edges[j]);
            if !(v.Usable(e) && v.Source(e) == id) then Expanding(v, id, w, j + 1, r, added)
            else if to in r.seen then Expanding(v, id, w, j + 1, r.(relationships := r.relationships + [e]), added)
            else Expanding(v, id, w, j + 1, r.(relationships := r.relationships + [e], seen := r.seen + {to},
                           nodes := r.nodes + [to], next := r.next + [to]), added + [to])
  {
    hide Tidy, Leads, Leaving;
    var e, to := v.edges[j], v.Target(v.edges[j]);
    LeadsStep(v, j, id);
    LeavingStep(v, j, id);
    if v.Usable(e) && v.Source(e) == id && to !in r.seen {
      SnocTidy(r.nodes, r.seen, to);
    }
  }

  lemma ExpandWithin(v: View, id: string, w: Walk, j: nat, r: Walk, added: seq<string>)
    requires j <= |v.edges| && Expanding(v, id, w, j, r, added)
    ensures |r.seen| <= |w.seen + v.Targets({id})|
  {
    hide Tidy, Leads, Leaving, View.Targets;
    LeadsWithin(v, j, id);
    SubsetCount(r.seen, w.seen + v.Targets({id}));
  }

  lemma ExpandDone(v: View, id: string, w: Walk, r: Walk, added: seq<string>)
    requires Expanding(v, id, w, |v.edges|, r, added)
    ensures Tidy(r.nodes, r.seen) && r.seen == w.seen + v.Targets({id}) && r.nodes == w.nodes + added
    ensures r.next == w.next + added
    ensures r.relationships == w.relationships + Leaving(v, v.edges, {id})
  {
    hide Tidy, Leads, Leaving, View.Targets;
    LeadsAll(v, id);
    assert v.edges[..|v.edges|] == v.edges;
  }

  lemma LeadsNone(v: View, id: string)
    ensures Leads(v, 0, id) == {} && Leaving(v, v.edges[..0], {id}) == []
  {
  }

  lemma LeavingStep(v: View, j: nat, id: string)
    requires j < |v.edges|
    ensures Leaving(v, v.edges[..j + 1], {id})
         == Leaving(v, v.edges[..j], {id}) + (if v.Usable(v.edges[j]) && v.Source(v.edges[j]) == id then [v.edges[j]]
                                              else [])
  {
    assert v.edges[..j + 1][..j] == v.edges[..j];
  }

  /** Expands every node of the frontier. */
  method ExpandLevel(v: View, frontier: seq<string>, limit: nat, w: Walk) returns (ok: bool, r: Walk)
    requires Tidy(w.nodes, w.seen) && |w.seen| <= limit && w.next == []
    ensures ok <==> |w.seen + v.Targets(Elements(frontier))| <= limit
    ensures ok ==> Tidy(r.nodes, r.seen) && r.seen == w.seen + v.Targets(Elements(frontier))
                   && r.nodes == w.nodes + r.next
    ensures ok ==> r.relationships == w.relationships + LeavingEach(v, frontier)
  {
    hide Tidy, Leaving, LeavingEach, View.Targets, Elements;
    r := w;
    TargetsNone(v);
    for i := 0 to |frontier|
      invariant Tidy(r.nodes, r.seen) && r.seen == w.seen + v.Targets(Elements(frontier[..i])) && |r.seen| <= limit
      invariant r.nodes == w.nodes + r.next
      invariant r.relationships == w.relationships + LeavingEach(v, frontier[..i])
    {
      FrontierStep(v, frontier, i);
      var before := r;
      ghost var added;
      ok, r, added := ExpandNode(v, frontier[i], limit, r);
      if !ok {
        SubsetCount(before.seen + v.Targets({frontier[i]}), w.seen + v.Targets(Elements(frontier)));
        return;
      }
    }
    assert frontier[..|frontier|] == frontier;
    ok := true;
  }

  lemma TargetsNone(v: View)
    ensures v.Targets({}) == {} && Elements<string>([]) == {} && LeavingEach(v, []) == []
  {
  }

  lemma FrontierStep(v: View, frontier: seq<string>, i: nat)
    requires i < |frontier|
    ensures v.Targets(Elements(frontier[..i + 1])) == v.Targets(Elements(frontier[..i])) + v.Targets({frontier[i]})
    ensures v.Targets(Elements(frontier[..i + 1])) <= v.Targets(Elements(frontier))
    ensures LeavingEach(v, frontier[..i + 1]) == LeavingEach(v, frontier[..i]) + Leaving(v, v.edges, {frontier[i]})
  {
    hide Leaving;
    assert Elements(frontier[..i + 1]) == Elements(frontier[..i]) + {frontier[i]};
    assert frontier[..i + 1][..i] == frontier[..i];
  }

  // ---------- levels ----------

  /** After `level` levels: the ball is listed nearest first, and the frontier is the part of
      it at distance exactly `level`. */
  ghost predicate AtLevel(v: View, start: string, level: nat, nodes: seq<string>, frontier: seq<string>) {
    && Tidy(nodes, v.Ball(start, level)) && NearestFirst(v, start, nodes)
    && |frontier| <= |nodes| && nodes[|nodes| - |frontier|..] == frontier
    && Elements(nodes[..|nodes| - |frontier|]) == (if level == 0 then {} else v.Ball(start, level - 1))
  }

  lemma AtStart(v: View, start: string)
    ensures AtLevel(v, start, 0, [start], [start])
  {
    assert [start][..0] == [];
  }

  lemma TargetsUnion(v: View, s: set<string>, t: set<string>)
    ensures v.Targets(s + t) == v.Targets(s) + v.Targets(t)
  {
  }

  lemma ElementsConcat(a: seq<string>, b: seq<string>)
    ensures Elements(a + b) == Elements(a) + Elements(b)
  {
  }

  /** Expanding only the frontier reaches the whole next ball. */
  lemma FrontierSuffices(v: View, start: string, level: nat, nodes: seq<string>, frontier: seq<string>)
    requires AtLevel(v, start, level, nodes, frontier)
    ensures v.Ball(start, level) + v.Targets(Elements(frontier)) == v.Ball(start, level + 1)
  {
    hide View.Targets, NearestFirst, Distinct;
    var k := |nodes| - |frontier|;
    assert nodes == nodes[..k] + frontier;
    ElementsConcat(nodes[..k], frontier);
    TargetsUnion(v, Elements(nodes[..k]), Elements(frontier));
    TargetsNone(v);
  }

  lemma NextLevel(v: View, start: string, level: nat, nodes: seq<string>, frontier: seq<string>, next: seq<string>)
    requires AtLevel(v, start, level, nodes, frontier) && Tidy(nodes + next, v.Ball(start, level + 1))
    ensures AtLevel(v, start, level + 1, nodes + next, next)
  {
    hide View.Ball;
    assert (nodes + next)[..|nodes|] == nodes && (nodes + next)[|nodes|..] == next;
    forall i, j, d: nat | 0 <= i < j < |nodes + next| && (nodes + next)[j] in v.Ball(start, d)
      ensures (nodes + next)[i] in v.Ball(start, d)
    {
      if j >= |nodes| {
        assert (nodes + next)[j] !in Elements(nodes);
        if d <= level {
          BallMonotone(v, start, d, level);
        } else {
          BallMonotone(v, start, level + 1, d);
          assert (nodes + next)[i] in Elements(nodes + next);
        }
      }
    }
  }

  /** An empty frontier means the ball has stopped growing. */
  lemma EmptyFrontier(v: View, start: string, level: nat, nodes: seq<string>, d: nat)
    requires AtLevel(v, start, level, nodes, []) && level <= d
    ensures level >= 1 && v.Ball(start, d) == v.Ball(start, level) == v.Ball(start, level - 1)
    ensures d >= 1 && v.Ball(start, d - 1) == v.Ball(start, level - 1)
    ensures Reach(v, start, d) == Reach(v, start, level - 1)
  {
    hide View.Targets, NearestFirst, Distinct;
    assert nodes[..|nodes|] == nodes;
    BallFixed(v, start, level - 1, d);
    BallFixed(v, start, level - 1, d - 1);
    ReachFixed(v, start, level - 1, d);
  }

  lemma {:induction false} ReachFixed(v: View, start: string, level: nat, d: nat)
    requires level <= d && v.Targets(v.Ball(start, level)) <= v.Ball(start, level)
    ensures Reach(v, start, d) == Reach(v, start, level)
  {
    hide View.Targets;
    if level < d {
      ReachFixed(v, start, level, d - 1);
      BallFixed(v, start, level, d);
      BallFixed(v, start, level, d - 1);
    }
  }

  /** A non-empty frontier is at the greatest distance so far. */
  lemma FrontierReach(v: View, start: string, level: nat, nodes: seq<string>, frontier: seq<string>)
    requires AtLevel(v, start, level, nodes, frontier) && frontier != []
    ensures Reach(v, start, level) == level
  {
    hide View.Ball, NearestFirst;
    var n := |nodes| - 1;
    assert nodes[n] in Elements(nodes) && nodes[n] !in Elements(nodes[..|nodes| - |frontier|]);
  }

  lemma {:induction false} LeavingEachConcat(v: View, a: seq<string>, b: seq<string>)
    ensures LeavingEach(v, a + b) == LeavingEach(v, a) + LeavingEach(v, b)
  {
    hide Leaving;
    if b == [] {
      assert a + b == a;
    } else {
      var n := |b| - 1;
      assert (a + b)[..|a + b| - 1] == a + b[..n];
      LeavingEachConcat(v, a, b[..n]);
    }
  }

  // ---------- Traverse ----------

  /** The edges are listed source by source, for the sources at distance less than `depth`. */
  ghost predicate SourceBySource(v: View, start: string, depth: nat, r: Found)
    requires depth >= 1
  {
    exists k :: 0 <= k <= |r.nodes| && Elements(r.nodes[..k]) == v.Ball(start, depth - 1)
                && r.relationships == LeavingEach(v, r.nodes[..k])
  }

  ghost predicate IsTraversal(v: View, start: string, depth: nat, r: Found)
    requires depth >= 1
  {
    && Tidy(r.nodes, v.Ball(start, depth)) && NearestFirst(v, start, r.nodes)
    && SourceBySource(v, start, depth, r)
    && r.depth == Min(depth, Reach(v, start, depth) + 1)
  }

  /** Breadth-first traversal over an edge list. It returns exactly the ball, nearest first and
      without duplicates, and fails with the limit error exactly when a limit is out of
      bounds or the ball has more than `limit` nodes. */
  method Traverse(maxDepth: int, maxNodes: int, start: string, depth: int, limit: int, v: View)
    returns (r: Result<Found, Error>)
    ensures r == Err(Required) <==> v.org == "" || start == ""
    ensures v.org != "" && start != "" ==>
              (r == Err(LimitExceeded) <==>
               depth < 1 || depth > maxDepth || limit < 1 || limit > maxNodes || |v.Ball(start, depth)| > limit)
    ensures r.Err? ==> r.error != NotFound
    ensures r.Ok? ==> depth >= 1 && IsTraversal(v, start, depth, r.value)
  {
    hide View.Ball, View.Targets, Tidy, LeavingEach, Elements, Walking, IsTraversal;
    if v.org == "" || start == "" { return Err(Required); }
    if depth < 1 || depth > maxDepth || limit < 1 || limit > maxNodes { return Err(LimitExceeded); }
    var frontier := [start];
    var w := Walk({start}, [start], [], []);
    var level := 0;
    WalkStart(v, start);
    while level < depth && frontier != []
      invariant 0 <= level <= depth && Walking(v, start, level, w, frontier) && |w.seen| <= limit
      decreases depth - level
    {
      WalkTidy(v, start, level, w, frontier);
      ghost var before := w;
      var ok;
      ok, w := ExpandLevel(v, frontier, limit, w.(next := []));
      if !ok {
        WalkFails(v, start, level, before, frontier, limit, depth);
        return Err(LimitExceeded);
      }
      WalkStep(v, start, level, before, frontier, w);
      frontier := w.next;
      level := level + 1;
    }
    r := Ok(Found(w.nodes, w.relationships, level));
    WalkDone(v, start, depth, level, w, frontier);
  }

  /** Invariant of the traversal loop. */
  ghost predicate Walking(v: View, start: string, level: nat, w: Walk, frontier: seq<string>) {
    && AtLevel(v, start, level, w.nodes, frontier) && w.seen == v.Ball(start, level)
    && w.relationships == LeavingEach(v, w.nodes[..|w.nodes| - |frontier|])
    && (level >= 1 ==> Reach(v, start, level - 1) == level - 1)
  }

  lemma WalkStart(v: View, start: string)
    ensures Walking(v, start, 0, Walk({start}, [start], [], []), [start])
  {
    AtStart(v, start);
    assert [start][..0] == [];
  }

  lemma WalkTidy(v: View, start: string, level: nat, w: Walk, frontier: seq<string>)
    requires Walking(v, start, level, w, frontier)
    ensures Tidy(w.nodes, w.seen)
  {
    hide View.Ball, NearestFirst, LeavingEach;
  }

  lemma WalkFails(v: View, start: string, level: nat, w: Walk, frontier: seq<string>, limit: int, depth: nat)
    requires Walking(v, start, level, w, frontier) && |w.seen + v.Targets(Elements(frontier))| > limit && level < depth
    ensures |v.Ball(start, depth)| > limit
  {
    hide View.Ball, View.Targets, AtLevel, Elements, LeavingEach, Reach;
    FrontierSuffices(v, start, level, w.nodes, frontier);
    BallMonotone(v, start, level + 1, depth);
    SubsetCount(v.Ball(start, level + 1), v.Ball(start, depth));
  }

  lemma WalkStep(v: View, start: string, level: nat, w: Walk, frontier: seq<string>, w': Walk)
    requires Walking(v, start, level, w, frontier) && frontier != []
    requires Tidy(w'.nodes, w'.seen) && w'.seen == w.seen + v.Targets(Elements(frontier))
    requires w'.nodes == w.nodes + w'.next
    requires w'.relationships == w.relationships + LeavingEach(v, frontier)
    ensures Walking(v, start, level + 1, w', w'.next)
  {
    hide View.Ball, View.Targets, AtLevel, Elements, LeavingEach, Reach, Tidy, NearestFirst;
    FrontierSuffices(v, start, level, w.nodes, frontier);
    FrontierReach(v, start, level, w.nodes, frontier);
    LevelTidy(v, start, level, w.nodes, frontier);
    NextLevel(v, start, level, w.nodes, frontier, w'.next);
    var k := |w.nodes| - |frontier|;
    LeavingEachConcat(v, w.nodes[..k], frontier);
    assert w.nodes == w.nodes[..k] + frontier;
    assert w'.nodes[..|w.nodes|] == w.nodes;
  }

  lemma WalkDone(v: View, start: string, depth: nat, level: nat, w: Walk, frontier: seq<string>)
    requires 1 <= depth && level <= depth && (level == depth || frontier == []) && Walking(v, start, level, w, frontier)
    ensures IsTraversal(v, start, depth, Found(w.nodes, w.relationships, level)) && w.seen == v.Ball(start, depth)
  {
    hide View.Ball, View.Targets, AtLevel, Elements, LeavingEach, Reach, IsTraversal;
    if frontier == [] {
      EmptyFrontier(v, start, level, w.nodes, depth);
    }
    LevelTidy(v, start, level, w.nodes, frontier);
    TraversalDone(v, start, depth, level, frontier, Found(w.nodes, w.relationships, level));
  }

  lemma LevelTidy(v: View, start: string, level: nat, nodes: seq<string>, frontier: seq<string>)
    requires AtLevel(v, start, level, nodes, frontier)
    ensures Tidy(nodes, v.Ball(start, level)) && |frontier| <= |nodes| && nodes[|nodes| - |frontier|..] == frontier
    ensures NearestFirst(v, start, nodes)
  {
  }

  lemma TraversalDone(v: View, start: string, depth: nat, level: nat, frontier: seq<string>, r: Found)
    requires 1 <= depth && level <= depth && (level == depth || frontier == []) && r.depth == level
    requires AtLevel(v, start, level, r.nodes, frontier)
    requires r.relationships == LeavingEach(v, r.nodes[..|r.nodes| - |frontier|])
    requires level >= 1 ==> Reach(v, start, level - 1) == level - 1
    requires frontier == [] ==> level >= 1 && v.Ball(start, depth) == v.Ball(start, level)
                                && v.Ball(start, depth - 1) == v.Ball(start, level - 1)
                                && Reach(v, start, depth) == Reach(v, start, level - 1)
    ensures IsTraversal(v, start, depth, r)
  {
    hide View.Ball, Tidy, NearestFirst, LeavingEach;
    var k := |r.nodes| - |frontier|;
    assert Elements(r.nodes[..k]) == v.Ball(start, depth - 1);
    if frontier != [] {
      assert Reach(v, start, depth) >= depth - 1;
    }
  }

  // ---------- TraversePostgres ----------

  /** The query for one level: distinct targets of the frontier that were not visited, at
      most `cap` of them, in an arbitrary order. */
  method QueryLevel(v: View, frontier: seq<string>, visited: seq<string>, cap: nat) returns (rows: seq<string>)
    ensures Distinct(rows) && |rows| == Min(|v.Targets(Elements(frontier)) - Elements(visited)|, cap)
    ensures Elements(rows) <= v.Targets(Elements(frontier)) - Elements(visited)
  {
    hide View.Targets;
    var all := v.Targets(Elements(frontier)) - Elements(visited);
    var rest := all;
    rows := [];
    while rest != {} && |rows| < cap
      invariant Distinct(rows) && Elements(rows) == all - rest && rest <= all && |rows| <= cap
      invariant |rows| + |rest| == |all|
      decreases |rest|
    {
      var x :| x in rest;
      assert Elements(rows + [x]) == Elements(rows) + {x};
      assert all - (rest - {x}) == all - rest + {x};
      rows := rows + [x];
      rest := rest - {x};
    }
  }

  ghost predicate IsQueried(v: View, start: string, depth: nat, r: Found) {
    && Tidy(r.nodes, v.Ball(start, depth)) && NearestFirst(v, start, r.nodes)
    && r.relationships == Induced(v, v.edges, v.Ball(start, depth))
    && r.depth == Reach(v, start, depth)
  }

  /** Traversal by one query per level with a row limit. The limit never truncates silently:
      it returns exactly the ball and its induced subgraph, or fails exactly when the ball is
      too large. */
  method TraversePostgres(known: bool, start: string, depth: int, limit: int, v: View) returns (r: Result<Found, Error>)
    ensures r == Err(Required) <==> v.org == "" || start == ""
    ensures v.org != "" && start != "" ==>
              && (depth < 1 || limit < 1 ==> r == Err(LimitExceeded))
              && (depth >= 1 && limit >= 1 && !known ==> r == Err(NotFound))
              && (depth >= 1 && limit >= 1 && known ==>
                    (r.Err? <==> |v.Ball(start, depth)| > limit) && (r.Err? ==> r.error == LimitExceeded))
    ensures r.Ok? ==> depth >= 1 && IsQueried(v, start, depth, r.value)
  {
    hide View.Ball, View.Targets, Elements, Querying, Distinct, Induced, IsQueried;
    if v.org == "" || start == "" { return Err(Required); }
    if depth < 1 || limit < 1 { return Err(LimitExceeded); }
    if !known { return Err(NotFound); }
    var nodes, frontier := [start], [start];
    var level, deepest := 0, 0;
    QueryStart(v, start);
    while level < depth && frontier != []
      invariant 0 <= level <= depth && Querying(v, start, level, nodes, frontier, deepest) && |nodes| <= limit
      decreases depth - level
    {
      var remaining := limit - |nodes|;
      var next := QueryLevel(v, frontier, nodes, remaining + 1);
      if |next| > remaining {
        QueryFails(v, start, level, nodes, frontier, deepest, limit, depth, next);
        return Err(LimitExceeded);
      }
      QueryStep(v, start, level, nodes, frontier, deepest, next);
      if |next| > 0 {
        nodes := nodes + next;
        deepest := level + 1;
      }
      frontier := next;
      level := level + 1;
    }
    QueryDone(v, start, depth, level, nodes, frontier, deepest);
    r := Ok(Found(nodes, Induced(v, v.edges, Elements(nodes)), deepest));
  }

  /** Invariant of the query loop. */
  ghost predicate Querying(v: View, start: string, level: nat, nodes: seq<string>, frontier: seq<string>,
                           deepest: nat) {
    AtLevel(v, start, level, nodes, frontier) && deepest == Reach(v, start, level)
  }

  lemma QueryStart(v: View, start: string)
    ensures Querying(v, start, 0, [start], [start], 0)
  {
    AtStart(v, start);
  }

  lemma NextBall(v: View, start: string, level: nat, nodes: seq<string>, frontier: seq<string>)
    requires AtLevel(v, start, level, nodes, frontier)
    ensures v.Ball(start, level + 1) == Elements(nodes) + (v.Targets(Elements(frontier)) - Elements(nodes))
    ensures Distinct(nodes) && |v.Ball(start, level + 1)| == |nodes| + |v.Targets(Elements(frontier)) - Elements(nodes)|
  {
    hide View.Targets, View.Ball, NearestFirst;
    FrontierSuffices(v, start, level, nodes, frontier);
    DistinctCount(nodes);
  }

  lemma QueryFails(v: View, start: string, level: nat, nodes: seq<string>, frontier: seq<string>, deepest: nat,
                   limit: int, depth: nat, next: seq<string>)
    requires Querying(v, start, level, nodes, frontier, deepest) && level < depth && |nodes| <= limit
    requires |next| > limit - |nodes|
    requires |next| <= |v.Targets(Elements(frontier)) - Elements(nodes)|
    ensures |v.Ball(start, depth)| > limit
  {
    hide View.Targets, View.Ball, AtLevel, Reach, Elements;
    NextBall(v, start, level, nodes, frontier);
    BallMonotone(v, start, level + 1, depth);
    SubsetCount(v.Ball(start, level + 1), v.Ball(start, depth));
  }

  lemma QueryStep(v: View, start: string, level: nat, nodes: seq<string>, frontier: seq<string>, deepest: nat,
                  next: seq<string>)
    requires Querying(v, start, level, nodes, frontier, deepest) && Distinct(next)
    requires Elements(next) <= v.Targets(Elements(frontier)) - Elements(nodes)
    requires |next| == |v.Targets(Elements(frontier)) - Elements(nodes)|
    ensures Querying(v, start, level + 1, nodes + next, next, if next == [] then deepest else level + 1)
    ensures next == [] ==> nodes + next == nodes
  {
    hide View.Targets, View.Ball, AtLevel, Elements, Distinct;
    NextBall(v, start, level, nodes, frontier);
    DistinctCount(next);
    SubsetCount(Elements(next), v.Targets(Elements(frontier)) - Elements(nodes));
    AppendTidy(nodes, next);
    NextLevel(v, start, level, nodes, frontier, next);
    if next == [] {
      TargetsNone(v);
      LevelTidy(v, start, level, nodes, frontier);
      assert v.Ball(start, level + 1) == v.Ball(start, level);
    } else {
      FrontierReach(v, start, level + 1, nodes + next, next);
    }
  }

  lemma QueryDone(v: View, start: string, depth: nat, level: nat, nodes: seq<string>, frontier: seq<string>,
                  deepest: nat)
    requires 1 <= depth && level <= depth && (level == depth || frontier == [])
    requires Querying(v, start, level, nodes, frontier, deepest)
    ensures IsQueried(v, start, depth, Found(nodes, Induced(v, v.edges, Elements(nodes)), deepest))
    ensures |nodes| == |v.Ball(start, depth)|
  {
    hide View.Targets, View.Ball, AtLevel, Reach, Elements, NearestFirst, Induced, Distinct;
    LevelTidy(v, start, level, nodes, frontier);
    if frontier == [] {
      EmptyFrontier(v, start, level, nodes, depth);
      EmptyFrontier(v, start, level, nodes, level);
    }
    DistinctCount(nodes);
  }

  lemma AppendTidy(nodes: seq<string>, next: seq<string>)
    requires Distinct(nodes) && Distinct(next) && Elements(nodes) !! Elements(next)
    ensures Distinct(nodes + next) && Elements(nodes + next) == Elements(nodes) + Elements(next)
  {
    forall i, j | 0 <= i < j < |nodes + next| ensures (nodes + next)[i] != (nodes + next)[j] {
      if i < |nodes| <= j {
        assert nodes[i] in Elements(nodes) && next[j - |nodes|] in Elements(next);
      }
    }
  }

  // ---------- how the two relate ----------

  /** The traversal lists every relationship that leaves a node nearer than `depth`, exactly
      as often as the table does. */
  lemma TraversalEdges(v: View, start: string, depth: nat, r: Found)
    requires depth >= 1 && IsTraversal(v, start, depth, r)
    ensures multiset(r.relationships) == multiset(Leaving(v, v.edges, v.Ball(start, depth - 1)))
  {
    hide View.Ball, LeavingEach, Leaving, NearestFirst;
    var k :| 0 <= k <= |r.nodes| && Elements(r.nodes[..k]) == v.Ball(start, depth - 1)
             && r.relationships == LeavingEach(v, r.nodes[..k]);
    LeavingEachOnce(v, r.nodes[..k]);
  }

  /** The query traversal finds the same nodes. Its relationships are the traversal's plus those
      from a node at distance exactly `depth` to a visited node, and its depth leaves out the
      final empty level that the traversal counts. */
  lemma QueryRefinesTraversal(v: View, start: string, depth: nat, a: Found, b: Found)
    requires depth >= 1 && IsTraversal(v, start, depth, a) && IsQueried(v, start, depth, b)
    ensures Elements(a.nodes) == Elements(b.nodes) && |a.nodes| == |b.nodes|
    ensures forall e :: e in a.relationships ==> e in b.relationships
    ensures forall e :: e in b.relationships && e !in a.relationships <==>
                        v.Usable(e) && v.Target(e) in v.Ball(start, depth)
                        && v.Source(e) in v.Ball(start, depth) && v.Source(e) !in v.Ball(start, depth - 1)
    ensures a.depth == Min(depth, b.depth + 1)
  {
    DistinctCount(a.nodes);
    DistinctCount(b.nodes);
    TraversalEdges(v, start, depth, a);
    forall e: Relationship
      ensures e in a.relationships <==> v.Usable(e) && v.Source(e) in v.Ball(start, depth - 1)
      ensures e in b.relationships <==> v.Usable(e) && v.Source(e) in v.Ball(start, depth)
                                        && v.Target(e) in v.Ball(start, depth)
      ensures v.Usable(e) && v.Source(e) in v.Ball(start, depth - 1) ==>
                v.Target(e) in v.Ball(start, depth) && v.Source(e) in v.Ball(start, depth)
    {
      EdgeMembership(v, start, depth, a, b, e);
    }
    hide IsTraversal, IsQueried, View.Usable, View.Ball;
  }

  lemma EdgeMembership(v: View, start: string, depth: nat, a: Found, b: Found, e: Relationship)
    requires depth >= 1 && multiset(a.relationships) == multiset(Leaving(v, v.edges, v.Ball(start, depth - 1)))
    requires b.relationships == Induced(v, v.edges, v.Ball(start, depth))
    ensures e in a.relationships <==> v.Usable(e) && v.Source(e) in v.Ball(start, depth - 1)
    ensures e in b.relationships <==> v.Usable(e) && v.Source(e) in v.Ball(start, depth)
                                      && v.Target(e) in v.Ball(start, depth)
    ensures v.Usable(e) && v.Source(e) in v.Ball(start, depth - 1) ==>
              v.Target(e) in v.Ball(start, depth) && v.Source(e) in v.Ball(start, depth)
  {
    hide Leaving, Induced;
    LeavingMembers(v, v.edges, v.Ball(start, depth - 1), e);
    InducedMembers(v, v.edges, v.Ball(start, depth), e);
    assert e in a.relationships <==> e in multiset(a.relationships);
  }

  /** In terms of table rows: both traversals list a node exactly when a chain of at most `depth`
      ACTIVE rows of the organization leads to it. The first lists the ACTIVE rows of the
      organization that leave a node nearer than that, the second those between listed nodes. */
  lemma ResultsAreChains(v: View, start: string, depth: nat, a: Found, b: Found)
    requires depth >= 1 && IsTraversal(v, start, depth, a) && IsQueried(v, start, depth, b)
    ensures forall y :: y in a.nodes <==> exists rs :: |rs| <= depth && Route(v, rs, start, y)
    ensures forall y :: y in b.nodes <==> exists rs :: |rs| <= depth && Route(v, rs, start, y)
    ensures forall e :: e in a.relationships <==>
                        && e in v.edges && e.org == v.org && e.status == "ACTIVE"
                        && exists rs :: |rs| < depth && Route(v, rs, start, if v.reverse then e.to else e.from)
    ensures forall e :: e in b.relationships <==>
                        e in v.edges && e.org == v.org && e.status == "ACTIVE" && e.from in b.nodes && e.to in b.nodes
  {
    hide Route, View.Ball, LeavingEach, Leaving, NearestFirst, Induced, Elements;
    forall y: string
      ensures y in a.nodes <==> exists rs :: |rs| <= depth && Route(v, rs, start, y)
      ensures y in b.nodes <==> exists rs :: |rs| <= depth && Route(v, rs, start, y)
    {
      ListedInBall(a.nodes, v.Ball(start, depth), y);
      ListedInBall(b.nodes, v.Ball(start, depth), y);
      BallIsChains(v, start, depth, y);
    }
    forall e: Relationship
      ensures e in a.relationships <==>
              && e in v.edges && e.org == v.org && e.status == "ACTIVE"
              && exists rs :: |rs| < depth && Route(v, rs, start, if v.reverse then e.to else e.from)
      ensures e in b.relationships <==>
              e in v.edges && e.org == v.org && e.status == "ACTIVE" && e.from in b.nodes && e.to in b.nodes
    {
      RowsListed(v, start, depth, a, b, e);
    }
  }

  lemma ListedInBall(nodes: seq<string>, ball: set<string>, y: string)
    requires Tidy(nodes, ball)
    ensures y in nodes <==> y in ball
  {
  }

  lemma RowsListed(v: View, start: string, depth: nat, a: Found, b: Found, e: Relationship)
    requires depth >= 1 && IsTraversal(v, start, depth, a) && IsQueried(v, start, depth, b)
    ensures e in a.relationships <==>
            && e in v.edges && e.org == v.org && e.status == "ACTIVE"
            && exists rs :: |rs| < depth && Route(v, rs, start, if v.reverse then e.to else e.from)
    ensures e in b.relationships <==>
            e in v.edges && e.org == v.org && e.status == "ACTIVE" && e.from in b.nodes && e.to in b.nodes
  {
    hide Route, View.Ball, LeavingEach, Leaving, NearestFirst, Induced, Elements;
    var source := if v.reverse then e.to else e.from;
    TraversalEdges(v, start, depth, a);
    LeavingMembers(v, v.edges, v.Ball(start, depth - 1), e);
    assert e in a.relationships <==> e in multiset(a.relationships);
    BallIsChains(v, start, depth - 1, source);
    InducedMembers(v, v.edges, v.Ball(start, depth), e);
    ListedInBall(b.nodes, v.Ball(start, depth), e.from);
    ListedInBall(b.nodes, v.Ball(start, depth), e.to);
  }

  /** `y` is in the dependencies of `x` exactly when `x` is in the dependents of `y`. */
  lemma TraversalsAreDual(v: View, x: string, y: string, depth: nat, a: Found, b: Found)
    requires depth >= 1 && IsTraversal(v, x, depth, a) && IsTraversal(v.Flip(), y, depth, b)
    ensures y in a.nodes <==> x in b.nodes
  {
    BallsAreDual(v, x, y, depth);
    assert y in a.nodes <==> y in Elements(a.nodes);
    assert x in b.nodes <==> x in Elements(b.nodes);
  }
}
