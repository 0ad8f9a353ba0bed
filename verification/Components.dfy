/** Canonical assets are the connected components of the identity evidence. */
module Components {
  import opened Collections
  import opened Domain
  import opened Tables
  import opened Reconcile
  import opened ReconcileInvariants
  import opened ReconcileSteps
  import opened ReconcileRuns

  /** A vertex of the evidence graph: a source identity or a strong identity value. */
  datatype Node = Src(source: SourceKey) | Val(strong: StrongKey)

  /** An accepted observation of source identity `k` carried the strong identity value `v`. */
  ghost predicate Evidence(t: Tables, k: SourceKey, v: StrongKey) {
    exists w :: w in t.observations && k == SourceKey(t.observations[w].org, t.observations[w].connector, w.external)
                && v in StrongRefs(t.observations[w].org, t.observations[w].hints)
  }

  ghost predicate Adjacent(t: Tables, x: Node, y: Node) {
    match (x, y)
    case (Src(k), Val(v)) => Evidence(t, k, v)
    case (Val(v), Src(k)) => Evidence(t, k, v)
    case _ => false
  }

  ghost predicate Path(t: Tables, p: seq<Node>) {
    p != [] && forall i :: 0 <= i < |p| - 1 ==> Adjacent(t, p[i], p[i + 1])
  }

  ghost predicate Connected(t: Tables, x: Node, y: Node) {
    exists p :: Path(t, p) && p[0] == x && p[|p| - 1] == y
  }

  /** Evidence is a stored hint under one of the seven strong keys, in the organization of the
      observation, whose trimmed text is neither empty nor the nil text. */
  lemma EvidenceIff(t: Tables, k: SourceKey, v: StrongKey)
    ensures Evidence(t, k, v) <==>
            exists w :: w in t.observations
                        && k == SourceKey(t.observations[w].org, t.observations[w].connector, w.external)
                        && v.org == t.observations[w].org && IsHint(t.observations[w].hints, v.key, v.value)
  {
    hide IsHint, StrongRefs;
    forall w | w in t.observations
      ensures v in StrongRefs(t.observations[w].org, t.observations[w].hints) <==>
              v.org == t.observations[w].org && IsHint(t.observations[w].hints, v.key, v.value)
    {
      RefIff(t.observations[w].org, t.observations[w].hints, v);
    }
  }

  predicate IsHint(hints: map<string, string>, key: string, value: string) {
    && (key == "cloud_id" || key == "kubernetes_uid" || key == "docker_container_id" || key == "vm_uuid"
        || key == "hardware_uuid" || key == "terraform_resource_id" || key == "external_cmdb_id")
    && key in hints && Resolution.TrimSpace(hints[key]) == value && value != "" && value != "<nil>"
  }

  lemma RefIff(org: string, hints: map<string, string>, v: StrongKey)
    ensures v in StrongRefs(org, hints) <==> v.org == org && IsHint(hints, v.key, v.value)
  {
    hide Resolution.StrongIdentities, Resolution.TrimSpace;
    Resolution.StrongIff(hints, v.key, v.value);
  }

  // ---------- connectedness is an equivalence that only grows ----------

  lemma ConnectedReflexive(t: Tables, x: Node)
    ensures Connected(t, x, x)
  {
    assert Path(t, [x]);
  }

  lemma ConnectedEdge(t: Tables, x: Node, y: Node)
    requires Adjacent(t, x, y)
    ensures Connected(t, x, y)
  {
    assert Path(t, [x, y]);
  }

  lemma ConnectedTransitive(t: Tables, x: Node, y: Node, z: Node)
    requires Connected(t, x, y) && Connected(t, y, z)
    ensures Connected(t, x, z)
  {
    hide Adjacent;
    var p :| Path(t, p) && p[0] == x && p[|p| - 1] == y;
    var q :| Path(t, q) && q[0] == y && q[|q| - 1] == z;
    var r := p + q[1..];
    forall i | 0 <= i < |r| - 1 ensures Adjacent(t, r[i], r[i + 1]) {
      if i < |p| - 1 {
        assert Adjacent(t, p[i], p[i + 1]);
      } else {
        assert Adjacent(t, q[i - |p| + 1], q[i - |p| + 2]);
      }
    }
    assert r[|r| - 1] == z;
  }

  lemma ConnectedSymmetric(t: Tables, x: Node, y: Node)
    requires Connected(t, x, y)
    ensures Connected(t, y, x)
  {
    var p :| Path(t, p) && p[0] == x && p[|p| - 1] == y;
    var r := Reversed(p);
    forall i | 0 <= i < |r| - 1 ensures Adjacent(t, r[i], r[i + 1]) {
      assert Adjacent(t, p[|p| - 2 - i], p[|p| - 2 - i + 1]);
    }
    assert Path(t, r);
  }

  lemma ConnectedMonotone(t: Tables, u: Tables, x: Node, y: Node)
    requires forall w :: w in t.observations ==> w in u.observations && u.observations[w] == t.observations[w]
    requires Connected(t, x, y)
    ensures Connected(u, x, y)
  {
    var p :| Path(t, p) && p[0] == x && p[|p| - 1] == y;
    forall i | 0 <= i < |p| - 1 ensures Adjacent(u, p[i], p[i + 1]) {
      AdjacentMonotone(t, u, p[i], p[i + 1]);
    }
    assert Path(u, p);
  }

  lemma AdjacentMonotone(t: Tables, u: Tables, x: Node, y: Node)
    requires forall w :: w in t.observations ==> w in u.observations && u.observations[w] == t.observations[w]
    requires Adjacent(t, x, y)
    ensures Adjacent(u, x, y)
  {
    var k, v := if x.Src? then x.source else y.source, if x.Val? then x.strong else y.strong;
    var w :| w in t.observations && k == SourceKey(t.observations[w].org, t.observations[w].connector, w.external)
             && v in StrongRefs(t.observations[w].org, t.observations[w].hints);
    assert w in u.observations;
  }

  // ---------- every binding is explained by evidence ----------

  /** Every source identity and every strong identity value is connected to the source
      identity that its asset was created for. */
  ghost predicate Rooted(t: Tables) {
    && (forall k :: k in t.sources ==> Connected(t, Src(k), Src(Root(t.sources[k].asset))))
    && (forall v :: v in t.strong ==> Connected(t, Val(v), Src(Root(t.strong[v]))))
  }

  /** If the asset was found through a strong value, that value is evidence for it. */
  lemma NewSourceRooted(p: Progress, s: Snapshot, o: Observation, q: Progress, x: Touch)
    requires Rooted(p.t) && Accepted(p, s, o, x, q) && TouchAsset(p.t, s, o) == Ok(x)
    ensures Connected(q.t, Src(SourceOf(s, o.external)), Src(Root(x.asset)))
  {
    hide Connected, Adjacent, StrongRefs, SetStatus, RecordClaims, NewClaimIds, HasConflict, BindStrong;
    var key := SourceOf(s, o.external);
    var refs := StrongRefs(s.org, o.hints);
    if key in p.t.sources {
      ConnectedMonotone(p.t, q.t, Src(key), Src(Root(x.asset)));
    } else if Hits(p.t.strong, refs) != {} {
      var v :| v in refs && v in p.t.strong && p.t.strong[v] == x.asset;
      ConnectedMonotone(p.t, q.t, Val(v), Src(Root(x.asset)));
      ObservedEvidence(p, s, o, q, x, v);
      ConnectedEdge(q.t, Src(key), Val(v));
      ConnectedTransitive(q.t, Src(key), Val(v), Src(Root(x.asset)));
    } else {
      assert Root(x.asset) == key;
      ConnectedReflexive(q.t, Src(key));
    }
  }

  lemma ObservedEvidence(p: Progress, s: Snapshot, o: Observation, q: Progress, x: Touch, v: StrongKey)
    requires Accepted(p, s, o, x, q) && v in StrongRefs(s.org, o.hints)
    ensures Adjacent(q.t, Src(SourceOf(s, o.external)), Val(v)) && Adjacent(q.t, Val(v), Src(SourceOf(s, o.external)))
  {
    var w := ObservationKey(s.id, o.external);
    assert w in q.t.observations && q.t.observations[w] == ObservationRow(s.org, s.connector, o.hints);
  }

  lemma SourcesRooted(p: Progress, s: Snapshot, o: Observation, q: Progress, x: Touch, k: SourceKey)
    requires Rooted(p.t) && Accepted(p, s, o, x, q) && k in q.t.sources
    requires Connected(q.t, Src(SourceOf(s, o.external)), Src(Root(x.asset)))
    ensures Connected(q.t, Src(k), Src(Root(q.t.sources[k].asset)))
  {
    hide Connected, StrongRefs, RecordClaims, NewClaimIds, BindStrong, HasConflict;
    if k != SourceOf(s, o.external) {
      ConnectedMonotone(p.t, q.t, Src(k), Src(Root(p.t.sources[k].asset)));
    }
  }

  lemma StrongRooted(p: Progress, s: Snapshot, o: Observation, q: Progress, x: Touch, v: StrongKey)
    requires Rooted(p.t) && Accepted(p, s, o, x, q) && v in q.t.strong
    requires Connected(q.t, Src(SourceOf(s, o.external)), Src(Root(x.asset)))
    ensures Connected(q.t, Val(v), Src(Root(q.t.strong[v])))
  {
    hide Connected, Adjacent, StrongRefs, RecordClaims, NewClaimIds, HasConflict;
    if v in p.t.strong {
      ConnectedMonotone(p.t, q.t, Val(v), Src(Root(p.t.strong[v])));
    } else {
      ObservedEvidence(p, s, o, q, x, v);
      ConnectedEdge(q.t, Val(v), Src(SourceOf(s, o.external)));
      ConnectedTransitive(q.t, Val(v), Src(SourceOf(s, o.external)), Src(Root(x.asset)));
    }
  }

  lemma ObserveRooted(p: Progress, s: Snapshot, o: Observation, q: Progress)
    requires Inv(p.t) && Rooted(p.t) && ObserveAsset(p, s, o) == Ok(q)
    ensures Rooted(q.t) && Inv(q.t)
  {
    hide Inv, Connected, ObserveAsset, TouchAsset, Accepted;
    var x := ObserveStep(p, s, o, q);
    NewSourceRooted(p, s, o, q, x);
    forall k | k in q.t.sources ensures Connected(q.t, Src(k), Src(Root(q.t.sources[k].asset))) {
      SourcesRooted(p, s, o, q, x, k);
    }
    forall v | v in q.t.strong ensures Connected(q.t, Val(v), Src(Root(q.t.strong[v]))) {
      StrongRooted(p, s, o, q, x, v);
    }
  }

  lemma InvBindings(t: Tables)
    requires Inv(t)
    ensures Bindings(t) && EvidenceAgrees(t)
  {
  }

  lemma {:induction false} ObserveAssetsRooted(t: Tables, s: Snapshot, n: nat, p: Progress)
    requires n <= |s.assets| && Inv(t) && Rooted(t) && ObserveAssets(t, s, n) == Ok(p)
    ensures Rooted(p.t) && Inv(p.t)
  {
    hide Inv, Rooted, ObserveAsset;
    if n > 0 {
      var before := ObserveAssets(t, s, n - 1).value;
      ObserveAssetsRooted(t, s, n - 1, before);
      ObserveRooted(before, s, s.assets[n - 1], p);
    }
  }

  /** Only asset observations touch bindings and evidence. */
  lemma RootedFrame(t: Tables, u: Tables)
    requires Rooted(t) && u.strong == t.strong && u.observations == t.observations
    requires u.sources.Keys == t.sources.Keys && forall k :: k in t.sources ==> u.sources[k].asset == t.sources[k].asset
    ensures Rooted(u)
  {
    hide Connected;
    forall k | k in u.sources ensures Connected(u, Src(k), Src(Root(u.sources[k].asset))) {
      ConnectedMonotone(t, u, Src(k), Src(Root(t.sources[k].asset)));
    }
    forall v | v in u.strong ensures Connected(u, Val(v), Src(Root(u.strong[v]))) {
      ConnectedMonotone(t, u, Val(v), Src(Root(t.strong[v])));
    }
  }

  lemma ApplyRooted(t: Tables, s: Snapshot, threshold: int, u: Progress)
    requires Inv(t) && Sealed(t) && Rooted(t) && Apply(t, s, threshold) == Ok(u)
    ensures Rooted(u.t)
  {
    hide Inv, Sealed, Rooted, Apply, ObserveAssets, ObserveRelationships, Mid, Listed, Provenance, Extends, RelTouched;
    var p, q := Stages(t, s, threshold, u);
    ObserveAssetsRooted(t, s, |s.assets|, p);
    RootedFrame(p.t, u.t);
  }

  lemma {:induction false} RunRooted(es: seq<Attempt>)
    ensures Rooted(Run(es))
  {
    if es != [] {
      hide Rooted, Apply, Inv, Sealed;
      var e, t := es[|es| - 1], Run(es[..|es| - 1]);
      RunRooted(es[..|es| - 1]);
      RunInv(es[..|es| - 1]);
      if Apply(t, e.snapshot, e.threshold).Ok? {
        ApplyRooted(t, e.snapshot, e.threshold, Apply(t, e.snapshot, e.threshold).value);
      }
    }
  }

  // ---------- evidence never joins two assets ----------

  /** The asset a vertex is bound to. */
  ghost function AssetOf(t: Tables, x: Node): Option<AssetId> {
    match x
    case Src(k) => if k in t.sources then Some(t.sources[k].asset) else None
    case Val(v) => if v in t.strong then Some(t.strong[v]) else None
  }

  lemma AdjacentSameAsset(t: Tables, x: Node, y: Node)
    requires EvidenceAgrees(t) && Adjacent(t, x, y)
    ensures AssetOf(t, x) == AssetOf(t, y)
  {
  }

  lemma {:induction false} PathSameAsset(t: Tables, p: seq<Node>)
    requires EvidenceAgrees(t) && Path(t, p)
    ensures AssetOf(t, p[0]) == AssetOf(t, p[|p| - 1])
  {
    hide Adjacent, AssetOf, EvidenceAgrees;
    var n := |p| - 1;
    if n > 0 {
      AdjacentSameAsset(t, p[n - 1], p[n]);
      PathSameAsset(t, p[..n]);
    }
  }

  /** In every reachable state two source identities are bound to the same asset exactly when
      a chain of shared strong identity values joins them. */
  lemma AssetsAreComponents(es: seq<Attempt>, j: SourceKey, k: SourceKey)
    requires j in Run(es).sources && k in Run(es).sources
    ensures Run(es).sources[j].asset == Run(es).sources[k].asset <==> Connected(Run(es), Src(j), Src(k))
  {
    hide Inv, Sealed, Adjacent, Run;
    var t := Run(es);
    RunInv(es);
    RunRooted(es);
    InvBindings(t);
    if t.sources[j].asset == t.sources[k].asset {
      ConnectedSymmetric(t, Src(k), Src(Root(t.sources[k].asset)));
      ConnectedTransitive(t, Src(j), Src(Root(t.sources[j].asset)), Src(k));
    }
    if Connected(t, Src(j), Src(k)) {
      var p :| Path(t, p) && p[0] == Src(j) && p[|p| - 1] == Src(k);
      PathSameAsset(t, p);
    }
  }

  /** A strong identity value is bound to an asset exactly when it is connected to a source
      identity of that asset. */
  lemma StrongValueJoins(es: seq<Attempt>, v: StrongKey, k: SourceKey)
    requires v in Run(es).strong && k in Run(es).sources
    ensures Run(es).strong[v] == Run(es).sources[k].asset <==> Connected(Run(es), Val(v), Src(k))
  {
    hide Inv, Sealed, Adjacent, Run;
    var t := Run(es);
    RunInv(es);
    RunRooted(es);
    InvBindings(t);
    if t.strong[v] == t.sources[k].asset {
      ConnectedSymmetric(t, Src(k), Src(Root(t.sources[k].asset)));
      ConnectedTransitive(t, Val(v), Src(Root(t.strong[v])), Src(k));
    }
    if Connected(t, Val(v), Src(k)) {
      var p :| Path(t, p) && p[0] == Val(v) && p[|p| - 1] == Src(k);
      PathSameAsset(t, p);
    }
  }

  // ---------- the evidence is that of the committed snapshots ----------

  /** The table has the row of the `i`-th observation of `s`, with its hints. */
  predicate HasRow(observations: map<ObservationKey, ObservationRow>, s: Snapshot, i: nat)
    requires i < |s.assets|
  {
    var w := ObservationKey(s.id, s.assets[i].external);
    w in observations && observations[w] == ObservationRow(s.org, s.connector, s.assets[i].hints)
  }

  /** `w` is the key of one of the first `n` observations of `s`. */
  predicate KeyAmong(s: Snapshot, n: nat, w: ObservationKey)
    requires n <= |s.assets|
  {
    exists i :: 0 <= i < n && w == ObservationKey(s.id, s.assets[i].external)
  }

  /** The rows are the old ones, unchanged, and those of the first `n` observations. */
  ghost predicate RowsObserved(t: Tables, s: Snapshot, n: nat, p: Tables)
    requires n <= |s.assets|
  {
    && (forall w :: w in t.observations ==> w in p.observations && p.observations[w] == t.observations[w])
    && (forall i :: 0 <= i < n ==> HasRow(p.observations, s, i))
    && (forall w :: w in p.observations && w !in t.observations ==> KeyAmong(s, n, w))
  }

  lemma AcceptedRow(p: Progress, s: Snapshot, n: nat, x: Touch, q: Progress)
    requires n < |s.assets| && Accepted(p, s, s.assets[n], x, q)
    ensures HasRow(q.t.observations, s, n)
    ensures forall w :: w in p.t.observations ==> w in q.t.observations && q.t.observations[w] == p.t.observations[w]
    ensures forall w :: w in q.t.observations ==>
                          w in p.t.observations || w == ObservationKey(s.id, s.assets[n].external)
    ensures forall i :: 0 <= i < n && HasRow(p.t.observations, s, i) ==> HasRow(q.t.observations, s, i)
  {
    hide StrongRefs, BindStrong, RecordClaims, NewClaimIds, HasConflict, Touched;
  }

  lemma RowsObservedStep(t: Tables, s: Snapshot, n: nat, b: Progress, x: Touch, p: Progress)
    requires n < |s.assets| && RowsObserved(t, s, n, b.t) && Accepted(b, s, s.assets[n], x, p)
    ensures RowsObserved(t, s, n + 1, p.t)
  {
    hide Accepted, HasRow;
    AcceptedRow(b, s, n, x, p);
    forall i | 0 <= i < n + 1 ensures HasRow(p.t.observations, s, i) {
      assert i < n ==> HasRow(b.t.observations, s, i);
    }
    forall w | w in p.t.observations && w !in t.observations ensures KeyAmong(s, n + 1, w) {
      if w in b.t.observations {
        var i :| 0 <= i < n && w == ObservationKey(s.id, s.assets[i].external);
      }
    }
  }

  lemma {:induction false} ObservedRows(t: Tables, s: Snapshot, n: nat, p: Progress)
    requires n <= |s.assets| && Inv(t) && ObserveAssets(t, s, n) == Ok(p)
    ensures Inv(p.t) && RowsObserved(t, s, n, p.t)
  {
    hide Inv, ObserveAsset, TouchAsset, Accepted;
    if n > 0 {
      hide RowsObserved;
      var b := ObserveAssets(t, s, n - 1).value;
      ObservedRows(t, s, n - 1, b);
      var x := ObserveStep(b, s, s.assets[n - 1], p);
      RowsObservedStep(t, s, n - 1, b, x, p);
    }
  }

  lemma ApplyRows(t: Tables, s: Snapshot, threshold: int, u: Progress)
    requires Inv(t) && Sealed(t) && Apply(t, s, threshold) == Ok(u)
    ensures RowsObserved(t, s, |s.assets|, u.t)
  {
    hide Inv, Sealed, Apply, ObserveAssets, ObserveRelationships, Mid, Provenance, Extends, Listed, RelTouched,
      RetractClaims, SettleAssets,
      Gone, RemovedRels, CountAbsences, CountRelAbsences;
    var p, q := Stages(t, s, threshold, u);
    ObservedRows(t, s, |s.assets|, p);
    assert u.t.observations == p.t.observations;
  }

  /** `w` is the key of an observation of a committed snapshot. */
  ghost predicate KeyInHistory(h: seq<Attempt>, w: ObservationKey) {
    exists j :: 0 <= j < |h| && KeyAmong(h[j].snapshot, |h[j].snapshot.assets|, w)
  }

  /** In every reachable state the observation table, which the evidence is read from, has
      exactly the observations of the committed snapshots, with their hints. */
  lemma {:induction false} EvidenceIsHistory(es: seq<Attempt>)
    ensures forall w :: w in Run(es).observations <==> KeyInHistory(History(es), w)
    ensures forall j, i :: 0 <= j < |History(es)| && 0 <= i < |History(es)[j].snapshot.assets| ==>
                             HasRow(Run(es).observations, History(es)[j].snapshot, i)
  {
    hide Apply, HasRow, KeyAmong;
    if es != [] {
      var e, before := es[|es| - 1], es[..|es| - 1];
      EvidenceIsHistory(before);
      if Apply(Run(before), e.snapshot, e.threshold).Ok? {
        hide Inv, Sealed;
        RunInv(before);
        ApplyRows(Run(before), e.snapshot, e.threshold, Apply(Run(before), e.snapshot, e.threshold).value);
        HistoryRows(Run(before), e, Run(es), History(before));
        assert History(es) == History(before) + [e];
      }
    }
  }

  lemma HistoryRows(t: Tables, e: Attempt, u: Tables, h: seq<Attempt>)
    requires RowsObserved(t, e.snapshot, |e.snapshot.assets|, u)
    requires forall w :: w in t.observations <==> KeyInHistory(h, w)
    requires forall j, i :: 0 <= j < |h| && 0 <= i < |h[j].snapshot.assets| ==> HasRow(t.observations, h[j].snapshot, i)
    ensures forall w :: w in u.observations <==> KeyInHistory(h + [e], w)
    ensures forall j, i :: 0 <= j < |h + [e]| && 0 <= i < |(h + [e])[j].snapshot.assets| ==>
                             HasRow(u.observations, (h + [e])[j].snapshot, i)
  {
    var s := e.snapshot;
    forall w ensures w in u.observations <==> KeyInHistory(h + [e], w) {
      KeySnoc(h, e, w);
      if KeyAmong(s, |s.assets|, w) {
        var i :| 0 <= i < |s.assets| && w == ObservationKey(s.id, s.assets[i].external);
        assert HasRow(u.observations, s, i);
      }
    }
    forall j, i | 0 <= j < |h + [e]| && 0 <= i < |(h + [e])[j].snapshot.assets|
      ensures HasRow(u.observations, (h + [e])[j].snapshot, i) {
      if j < |h| {
        assert HasRow(t.observations, h[j].snapshot, i);
      }
    }
  }

  lemma KeySnoc(h: seq<Attempt>, e: Attempt, w: ObservationKey)
    ensures KeyInHistory(h + [e], w) <==> KeyInHistory(h, w) || KeyAmong(e.snapshot, |e.snapshot.assets|, w)
  {
    hide KeyAmong;
    if KeyInHistory(h, w) {
      var j :| 0 <= j < |h| && KeyAmong(h[j].snapshot, |h[j].snapshot.assets|, w);
      assert (h + [e])[j] == h[j];
    }
    if KeyAmong(e.snapshot, |e.snapshot.assets|, w) {
      assert (h + [e])[|h|] == e;
    }
  }
}
