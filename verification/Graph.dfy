/** The dependency graph and the balls that bounded traversals should compute. */
module Graph {
  import opened Collections

  datatype Relationship = Relationship(id: string, org: string, from: string, to: string, relType: string,
                                       status: string)

  /** A traversal direction over one organization's ACTIVE relationships. */
  datatype View = View(edges: seq<Relationship>, org: string, reverse: bool) {

    predicate Usable(e: Relationship) {
      e in edges && e.org == org && e.status == "ACTIVE"
    }

    function Source(e: Relationship): string {
      if reverse then e.to else e.from
    }

    function Target(e: Relationship): string {
      if reverse then e.from else e.to
    }

    function Flip(): View {
      View(edges, org, !reverse)
    }

    /** The nodes one step away from `nodes`. */
    function Targets(nodes: set<string>): set<string> {
      set e | e in edges && Usable(e) && Source(e) in nodes :: Target(e)
    }

    /** The nodes at most `d` steps away from `start`. */
    function Ball(start: string, d: nat): set<string> {
      if d == 0 then {start} else Ball(start, d - 1) + Targets(Ball(start, d - 1))
    }

    ghost predicate Step(x: string, y: string) {
      exists e :: Usable(e) && Source(e) == x && Target(e) == y
    }

    ghost predicate Path(p: seq<string>) {
      p != [] && forall i :: 0 <= i < |p| - 1 ==> Step(p[i], p[i + 1])
    }

    /** `y` can be reached from `x` along at most `d` relationships. */
    ghost predicate Within(x: string, y: string, d: nat) {
      exists p :: Path(p) && p[0] == x && p[|p| - 1] == y && |p| <= d + 1
    }
  }

  // ---------- balls ----------

  lemma {:induction false} BallMonotone(v: View, start: string, d: nat, e: nat)
    requires d <= e
    ensures v.Ball(start, d) <= v.Ball(start, e)
  {
    if d < e {
      BallMonotone(v, start, d, e - 1);
    }
  }

  /** Once a level adds nothing, no later level does. */
  lemma {:induction false} BallFixed(v: View, start: string, d: nat, e: nat)
    requires d <= e && v.Targets(v.Ball(start, d)) <= v.Ball(start, d)
    ensures v.Ball(start, e) == v.Ball(start, d)
  {
    hide View.Ball, View.Targets;
    if d < e {
      BallFixed(v, start, d, e - 1);
      NextBall(v, start, e - 1);
      assert v.Ball(start, d) + v.Targets(v.Ball(start, d)) == v.Ball(start, d);
    }
  }

  lemma NextBall(v: View, start: string, d: nat)
    ensures v.Ball(start, d + 1) == v.Ball(start, d) + v.Targets(v.Ball(start, d))
  {
  }

  /** A ball is the set of nodes reachable along bounded paths. */
  lemma {:induction false} BallIsWithin(v: View, start: string, d: nat, y: string)
    ensures y in v.Ball(start, d) <==> v.Within(start, y, d)
  {
    if y in v.Ball(start, d) {
      BallHasPath(v, start, d, y);
    }
    if v.Within(start, y, d) {
      var p :| v.Path(p) && p[0] == start && p[|p| - 1] == y && |p| <= d + 1;
      PathInBall(v, p);
      BallMonotone(v, start, |p| - 1, d);
    }
  }

  lemma WithinSelf(v: View, x: string)
    ensures v.Within(x, x, 0)
  {
    assert v.Path([x]);
  }

  lemma WithinStep(v: View, x: string, z: string, y: string, d: nat)
    requires v.Within(x, z, d) && (z == y || v.Step(z, y))
    ensures v.Within(x, y, d + 1)
  {
    hide View.Step;
    var p :| v.Path(p) && p[0] == x && p[|p| - 1] == z && |p| <= d + 1;
    if z != y {
      var q := p + [y];
      forall i | 0 <= i < |q| - 1 ensures v.Step(q[i], q[i + 1]) {
        assert i < |p| - 1 ==> q[i] == p[i] && q[i + 1] == p[i + 1];
      }
      assert v.Path(q);
    }
  }

  lemma StepInto(v: View, nodes: set<string>, y: string) returns (z: string)
    requires y in v.Targets(nodes)
    ensures z in nodes && v.Step(z, y)
  {
    var e :| e in v.edges && v.Usable(e) && v.Source(e) in nodes && v.Target(e) == y;
    z := v.Source(e);
  }

  lemma {:induction false} BallHasPath(v: View, start: string, d: nat, y: string)
    requires y in v.Ball(start, d)
    ensures v.Within(start, y, d)
  {
    hide View.Ball, View.Targets, View.Within, View.Step;
    if d == 0 {
      assert v.Ball(start, 0) == {start} by { NoBall(v, start); }
      WithinSelf(v, start);
    } else {
      NextBall(v, start, d - 1);
      var z := y;
      if y !in v.Ball(start, d - 1) {
        z := StepInto(v, v.Ball(start, d - 1), y);
      }
      BallHasPath(v, start, d - 1, z);
      WithinStep(v, start, z, y, d - 1);
    }
  }

  lemma NoBall(v: View, start: string)
    ensures v.Ball(start, 0) == {start}
  {
  }

  lemma {:induction false} PathInBall(v: View, p: seq<string>)
    requires v.Path(p)
    ensures p[|p| - 1] in v.Ball(p[0], |p| - 1)
  {
    var n := |p| - 1;
    if n > 0 {
      PathInBall(v, p[..n]);
      assert v.Step(p[n - 1], p[n]);
    }
  }

  lemma FlipWithin(v: View, x: string, y: string, d: nat)
    requires v.Within(x, y, d)
    ensures v.Flip().Within(y, x, d)
  {
    var p :| v.Path(p) && p[0] == x && p[|p| - 1] == y && |p| <= d + 1;
    var r := Reversed(p);
    forall i | 0 <= i < |r| - 1 ensures v.Flip().Step(r[i], r[i + 1]) {
      var j := |p| - 2 - i;
      assert v.Step(p[j], p[j + 1]);
      var e :| v.Usable(e) && v.Source(e) == p[j] && v.Target(e) == p[j + 1];
      assert v.Flip().Usable(e);
    }
    assert v.Flip().Path(r);
  }

  /** `y` is in the forward ball of `x` exactly when `x` is in the reverse ball of `y`. */
  lemma BallsAreDual(v: View, x: string, y: string, d: nat)
    ensures y in v.Ball(x, d) <==> x in v.Flip().Ball(y, d)
  {
    BallIsWithin(v, x, d, y);
    BallIsWithin(v.Flip(), y, d, x);
    assert v.Flip().Flip() == v;
    if v.Within(x, y, d) { FlipWithin(v, x, y, d); }
    if v.Flip().Within(y, x, d) { FlipWithin(v.Flip(), y, x, d); }
  }

  // ---------- balls and chains of table rows ----------

  /** `rs` leads from `x` to `y`: ACTIVE rows of the organization, each one leaving the node that
      the previous one enters; read backwards in a reverse view. */
  ghost predicate Route(v: View, rs: seq<Relationship>, x: string, y: string) {
    && (forall i :: 0 <= i < |rs| ==> rs[i] in v.edges && rs[i].org == v.org && rs[i].status == "ACTIVE")
    && (rs == [] ==> x == y)
    && (rs != [] && !v.reverse ==> rs[0].from == x && rs[|rs| - 1].to == y)
    && (rs != [] && v.reverse ==> rs[0].to == x && rs[|rs| - 1].from == y)
    && (forall i :: 0 <= i < |rs| - 1 ==> if v.reverse then rs[i].from == rs[i + 1].to else rs[i].to == rs[i + 1].from)
  }

  lemma RouteOn(v: View, rs: seq<Relationship>, x: string, z: string, e: Relationship)
    requires Route(v, rs, x, z) && v.Usable(e) && v.Source(e) == z
    ensures Route(v, rs + [e], x, v.Target(e))
  {
    var more := rs + [e];
    forall i | 0 <= i < |more| - 1
      ensures if v.reverse then more[i].from == more[i + 1].to else more[i].to == more[i + 1].from
    {
      if i < |rs| - 1 {
        assert more[i] == rs[i] && more[i + 1] == rs[i + 1];
      }
    }
  }

  lemma RouteBack(v: View, rs: seq<Relationship>, x: string, y: string)
    requires rs != [] && Route(v, rs, x, y)
    ensures var e := rs[|rs| - 1];
            v.Usable(e) && v.Target(e) == y && Route(v, rs[..|rs| - 1], x, v.Source(e))
  {
  }

  lemma {:induction false} BallHasChain(v: View, start: string, d: nat, y: string) returns (rs: seq<Relationship>)
    requires y in v.Ball(start, d)
    ensures |rs| <= d && Route(v, rs, start, y)
  {
    hide View.Ball, View.Targets, View.Usable, View.Source, View.Target, Route;
    if d == 0 {
      NoBall(v, start);
      rs := [];
      NoRows(v, start);
    } else {
      NextBall(v, start, d - 1);
      if y in v.Ball(start, d - 1) {
        rs := BallHasChain(v, start, d - 1, y);
      } else {
        var e := EdgeInto(v, v.Ball(start, d - 1), y);
        var before := BallHasChain(v, start, d - 1, v.Source(e));
        RouteOn(v, before, start, v.Source(e), e);
        rs := before + [e];
      }
    }
  }

  lemma NoRows(v: View, x: string)
    ensures Route(v, [], x, x)
  {
  }

  lemma EdgeInto(v: View, nodes: set<string>, y: string) returns (e: Relationship)
    requires y in v.Targets(nodes)
    ensures v.Usable(e) && v.Source(e) in nodes && v.Target(e) == y
  {
    e :| e in v.edges && v.Usable(e) && v.Source(e) in nodes && v.Target(e) == y;
  }

  lemma {:induction false} ChainInBall(v: View, rs: seq<Relationship>, start: string, y: string)
    requires Route(v, rs, start, y)
    ensures y in v.Ball(start, |rs|)
  {
    hide View.Ball, View.Targets, Route;
    if rs == [] {
      NoBall(v, start);
      assert start == y by { NowhereElse(v, start, y); }
    } else {
      var n := |rs| - 1;
      RouteBack(v, rs, start, y);
      ChainInBall(v, rs[..n], start, v.Source(rs[n]));
      NextBall(v, start, n);
      EdgeReaches(v, v.Ball(start, n), rs[n]);
    }
  }

  lemma NowhereElse(v: View, x: string, y: string)
    requires Route(v, [], x, y)
    ensures x == y
  {
  }

  lemma EdgeReaches(v: View, nodes: set<string>, e: Relationship)
    requires v.Usable(e) && v.Source(e) in nodes
    ensures v.Target(e) in v.Targets(nodes)
  {
  }

  /** A ball is what chains of at most `d` ACTIVE rows of the organization lead to: along `from`
      and `to` in a forward view, against them in a reverse one. */
  lemma BallIsChains(v: View, start: string, d: nat, y: string)
    ensures y in v.Ball(start, d) <==> exists rs :: |rs| <= d && Route(v, rs, start, y)
  {
    hide View.Ball, Route;
    if y in v.Ball(start, d) {
      var rs := BallHasChain(v, start, d, y);
    }
    if rs :| |rs| <= d && Route(v, rs, start, y) {
      ChainInBall(v, rs, start, y);
      BallMonotone(v, start, |rs|, d);
    }
  }

  // ---------- sequences of nodes and edges ----------

  predicate Distinct(nodes: seq<string>) {
    forall i, j :: 0 <= i < j < |nodes| ==> nodes[i] != nodes[j]
  }

  lemma {:induction false} DistinctCount(nodes: seq<string>)
    requires Distinct(nodes)
    ensures |Elements(nodes)| == |nodes|
  {
    if nodes != [] {
      var n := |nodes| - 1;
      DistinctCount(nodes[..n]);
      assert Elements(nodes) == Elements(nodes[..n]) + {nodes[n]};
    }
  }

  /** The edges of `edges`, in order, that leave a node of `nodes`. */
  function Leaving(v: View, edges: seq<Relationship>, nodes: set<string>): seq<Relationship> {
    if edges == [] then []
    else
      var e := edges[|edges| - 1];
      Leaving(v, edges[..|edges| - 1], nodes) + (if v.Usable(e) && v.Source(e) in nodes then [e] else [])
  }

  /** The edges that leave each of `nodes`, node by node. */
  function LeavingEach(v: View, nodes: seq<string>): seq<Relationship> {
    if nodes == [] then []
    else LeavingEach(v, nodes[..|nodes| - 1]) + Leaving(v, v.edges, {nodes[|nodes| - 1]})
  }

  lemma {:induction false} LeavingSplit(v: View, edges: seq<Relationship>, s: set<string>, x: string)
    requires x !in s
    ensures multiset(Leaving(v, edges, s + {x})) == multiset(Leaving(v, edges, s)) + multiset(Leaving(v, edges, {x}))
  {
    if edges != [] {
      LeavingSplit(v, edges[..|edges| - 1], s, x);
    }
  }

  /** Node by node, every edge that leaves a listed node appears exactly as often as in the table. */
  lemma {:induction false} LeavingEachOnce(v: View, nodes: seq<string>)
    requires Distinct(nodes)
    ensures multiset(LeavingEach(v, nodes)) == multiset(Leaving(v, v.edges, Elements(nodes)))
  {
    if nodes == [] {
      LeavingNone(v, v.edges);
      assert Elements(nodes) == {};
    } else {
      var n := |nodes| - 1;
      LeavingEachOnce(v, nodes[..n]);
      assert Elements(nodes) == Elements(nodes[..n]) + {nodes[n]};
      LeavingSplit(v, v.edges, Elements(nodes[..n]), nodes[n]);
    }
  }

  lemma {:induction false} LeavingNone(v: View, edges: seq<Relationship>)
    ensures Leaving(v, edges, {}) == []
  {
    if edges != [] {
      LeavingNone(v, edges[..|edges| - 1]);
    }
  }

  lemma {:induction false} LeavingMembers(v: View, edges: seq<Relationship>, nodes: set<string>, e: Relationship)
    ensures e in Leaving(v, edges, nodes) <==> e in edges && v.Usable(e) && v.Source(e) in nodes
  {
    if edges != [] {
      LeavingMembers(v, edges[..|edges| - 1], nodes, e);
    }
  }

  /** The edges of `edges`, in order, with both ends among `nodes`. */
  function Induced(v: View, edges: seq<Relationship>, nodes: set<string>): seq<Relationship> {
    if edges == [] then []
    else
      var e := edges[|edges| - 1];
      Induced(v, edges[..|edges| - 1], nodes) + (if v.Usable(e) && e.from in nodes && e.to in nodes then [e] else [])
  }

  lemma {:induction false} InducedMembers(v: View, edges: seq<Relationship>, nodes: set<string>, e: Relationship)
    ensures e in Induced(v, edges, nodes) <==> e in edges && v.Usable(e) && e.from in nodes && e.to in nodes
  {
    if edges != [] {
      InducedMembers(v, edges[..|edges| - 1], nodes, e);
    }
  }
}
