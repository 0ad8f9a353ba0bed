/** Which asset each observation of a snapshot resolves to, decided before it is applied. */
module ReconcileResolving {
  import opened Domain
  import opened Tables
  import opened Reconcile
  import opened ReconcileInvariants
  import opened ReconcileSteps
  import opened ReconcileMentions

  function RefsOf(s: Snapshot, i: nat): set<StrongKey>
    requires i < |s.assets|
  {
    StrongRefs(s.org, s.assets[i].hints)
  }

  /** Two observations of the snapshot carry a common strong identifier. */
  predicate Shares(s: Snapshot, i: nat, j: nat)
    requires i < |s.assets| && j < |s.assets|
  {
    exists v :: v in RefsOf(s, i) && v in RefsOf(s, j)
  }

  /** The assets that the `i`-th observation is evidence for: its candidates in the tables before
      the snapshot, and those of earlier observations that share a strong identifier with it. */
  ghost function Leads(t: Tables, s: Snapshot, i: nat): set<AssetId>
    requires i < |s.assets|
    decreases i, 0
  {
    Candidates(t, s, s.assets[i]) + set j | 0 <= j < i && Shares(s, i, j) :: Resolves(t, s, j)
  }

  /** The asset that the `i`-th observation resolves to. */
  ghost function Resolves(t: Tables, s: Snapshot, i: nat): AssetId
    requires i < |s.assets|
    decreases i, 1
  {
    if Leads(t, s, i) == {} then AssetId(s.org, s.connector, s.assets[i].external)
    else
      var a :| a in Leads(t, s, i);
      a
  }

  // ---------- the loop resolves as predicted ----------

  /** The first `n` observations are bound as predicted, and new strong bindings are theirs. */
  ghost predicate Predicted(t: Tables, s: Snapshot, n: nat, p: Progress)
    requires n <= |s.assets|
  {
    && (forall i :: 0 <= i < n ==> s.assets[i].external in p.bound
                                   && p.bound[s.assets[i].external] == Resolves(t, s, i))
    && (forall i, v :: 0 <= i < n && v in RefsOf(s, i) ==> v in p.t.strong && p.t.strong[v] == Resolves(t, s, i))
    && (forall v :: v in p.t.strong && v !in t.strong ==> exists i :: 0 <= i < n && v in RefsOf(s, i))
  }

  lemma KeyKept(t: Tables, s: Snapshot, n: nat, p: Progress)
    requires n < |s.assets| && Mid(t, s, n, p) && s.assets[n].external !in p.bound
    ensures SourceOf(s, s.assets[n].external) in p.t.sources <==> SourceOf(s, s.assets[n].external) in t.sources
  {
    hide Inv, Provenance, Listed;
  }

  /** A binding of a strong identifier of the next observation is one of its leads. */
  lemma BoundIsLead(t: Tables, s: Snapshot, n: nat, p: Progress, v: StrongKey)
    requires n < |s.assets| && Predicted(t, s, n, p) && Grown(t, p.t) && v in RefsOf(s, n) && v in p.t.strong
    ensures p.t.strong[v] in Leads(t, s, n)
  {
    hide StrongRefs, Resolves;
    if v in t.strong {
      assert t.strong[v] in Hits(t.strong, RefsOf(s, n));
    } else {
      var i :| 0 <= i < n && v in RefsOf(s, i);
      assert Shares(s, n, i);
    }
  }

  /** An earlier observation that shares an identifier with the next one is among its hits. */
  lemma SharedIsHit(t: Tables, s: Snapshot, n: nat, p: Progress, j: nat)
    requires j < n < |s.assets| && Predicted(t, s, n, p) && Shares(s, n, j)
    ensures Resolves(t, s, j) in Hits(p.t.strong, RefsOf(s, n))
  {
    hide StrongRefs, Resolves;
    var v :| v in RefsOf(s, n) && v in RefsOf(s, j);
    assert p.t.strong[v] in Hits(p.t.strong, RefsOf(s, n));
  }

  /** The candidates of the next observation in the loop are the leads predicted for it. */
  lemma CandidatesAreLeads(t: Tables, s: Snapshot, n: nat, p: Progress)
    requires n < |s.assets| && Mid(t, s, n, p) && Predicted(t, s, n, p) && s.assets[n].external !in p.bound
    ensures Candidates(p.t, s, s.assets[n]) == Leads(t, s, n)
  {
    hide Mid, StrongRefs, Resolves, Predicted, Bindings;
    MidGrown(t, s, n, p);
    KeyKept(t, s, n, p);
    var refs := RefsOf(s, n);
    forall a | a in Hits(p.t.strong, refs) ensures a in Leads(t, s, n) {
      var v :| v in refs && v in p.t.strong && p.t.strong[v] == a;
      BoundIsLead(t, s, n, p, v);
    }
    forall a | a in Leads(t, s, n) ensures a in Candidates(p.t, s, s.assets[n]) {
      if a in Hits(t.strong, refs) {
        var v :| v in refs && v in t.strong && t.strong[v] == a;
        assert p.t.strong[v] in Hits(p.t.strong, refs);
      } else if a !in Candidates(t, s, s.assets[n]) {
        var j :| 0 <= j < n && Shares(s, n, j) && a == Resolves(t, s, j);
        SharedIsHit(t, s, n, p, j);
      }
    }
  }

  /** An accepted observation is of the only candidate, or of a new asset if there is none. */
  lemma AcceptedCandidate(p: Progress, s: Snapshot, o: Observation, x: Touch, q: Progress)
    requires Accepted(p, s, o, x, q) && TouchAsset(p.t, s, o) == Ok(x)
    ensures forall a :: a in Candidates(p.t, s, o) ==> a == x.asset
    ensures Candidates(p.t, s, o) == {} ==> x.asset == AssetId(s.org, s.connector, o.external)
  {
    hide StrongRefs, RecordClaims, NewClaimIds, HasConflict, SetStatus;
    var refs := StrongRefs(s.org, o.hints);
    forall a | a in Hits(p.t.strong, refs) ensures a == x.asset {
      var v :| v in refs && v in p.t.strong && p.t.strong[v] == a;
      assert q.t.strong[v] == x.asset;
    }
  }

  lemma ResolvesTo(t: Tables, s: Snapshot, n: nat, p: Progress, x: Touch, q: Progress)
    requires n < |s.assets| && Mid(t, s, n, p) && Predicted(t, s, n, p)
    requires TouchAsset(p.t, s, s.assets[n]) == Ok(x) && Accepted(p, s, s.assets[n], x, q)
    ensures Resolves(t, s, n) == x.asset
  {
    hide Mid, Leads, Predicted, TouchAsset, Candidates;
    assert s.assets[n].external !in p.bound by { AcceptedBound(p, s, s.assets[n], x, q); }
    CandidatesAreLeads(t, s, n, p);
    AcceptedCandidate(p, s, s.assets[n], x, q);
  }

  lemma AcceptedBound(p: Progress, s: Snapshot, o: Observation, x: Touch, q: Progress)
    requires Accepted(p, s, o, x, q)
    ensures o.external !in p.bound && q.bound == p.bound[o.external := x.asset]
    ensures forall v :: v in StrongRefs(s.org, o.hints) ==> v in q.t.strong && q.t.strong[v] == x.asset
    ensures forall v :: v in p.t.strong ==> v in q.t.strong && q.t.strong[v] == p.t.strong[v]
    ensures forall v :: v in q.t.strong ==> v in p.t.strong || v in StrongRefs(s.org, o.hints)
  {
    hide StrongRefs, RecordClaims, NewClaimIds, HasConflict, Touched;
  }

  lemma PredictedStep(t: Tables, s: Snapshot, n: nat, p: Progress, x: Touch, q: Progress)
    requires n < |s.assets| && Mid(t, s, n, p) && Predicted(t, s, n, p)
    requires TouchAsset(p.t, s, s.assets[n]) == Ok(x) && Accepted(p, s, s.assets[n], x, q)
    ensures Predicted(t, s, n + 1, q)
  {
    hide Mid, Leads, TouchAsset, Accepted, Resolves, StrongRefs;
    ResolvesTo(t, s, n, p, x, q);
    AcceptedBound(p, s, s.assets[n], x, q);
    forall v | v in q.t.strong && v !in t.strong ensures exists i :: 0 <= i < n + 1 && v in RefsOf(s, i) {
      if v in p.t.strong {
        var i :| 0 <= i < n && v in RefsOf(s, i);
      } else {
        assert v in RefsOf(s, n);
      }
    }
  }

  /** Every accepted observation is bound to the asset predicted from the tables before. */
  lemma {:induction false} LoopResolves(t: Tables, s: Snapshot, n: nat, p: Progress)
    requires n <= |s.assets| && Inv(t) && Sealed(t) && s.id !in t.runs && ObserveAssets(t, s, n) == Ok(p)
    ensures Mid(t, s, n, p) && Predicted(t, s, n, p)
  {
    hide Inv, Mid, ObserveAsset, TouchAsset, Accepted, Sealed, Bindings, Grown, Predicted;
    ObserveAssetsMid(t, s, n, p);
    if n == 0 {
      NothingPredicted(t, s);
    } else {
      var b := ObserveAssets(t, s, n - 1).value;
      LoopResolves(t, s, n - 1, b);
      MidGrown(t, s, n - 1, b);
      var x := ObserveAccepted(b, s, s.assets[n - 1], p);
      PredictedStep(t, s, n - 1, b, x, p);
    }
  }

  lemma NothingPredicted(t: Tables, s: Snapshot)
    ensures Predicted(t, s, 0, Progress(t, map[], ZERO_SUMMARY))
  {
  }

  /** The same, for one observation. */
  lemma ResolvesAsBound(t: Tables, s: Snapshot, n: nat, p: Progress, i: nat)
    requires i < n <= |s.assets| && Inv(t) && Sealed(t) && s.id !in t.runs && ObserveAssets(t, s, n) == Ok(p)
    ensures s.assets[i].external in p.bound && p.bound[s.assets[i].external] == Resolves(t, s, i)
    ensures var k := SourceOf(s, s.assets[i].external); k in p.t.sources && p.t.sources[k].asset == Resolves(t, s, i)
  {
    hide Inv, Sealed, ObserveAssets, Resolves, Provenance, Extends, UnlistedKept;
    LoopResolves(t, s, n, p);
  }
}
