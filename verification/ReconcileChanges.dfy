/** Which change rows an accepted snapshot writes, and when the change counter counts them. */
module ReconcileChanges {
  import opened Collections
  import opened Domain
  import opened Tables
  import opened Reconcile
  import opened ReconcileInvariants
  import opened ReconcileSteps
  import opened ReconcileResolving
  import opened ReconcileSummary
  import opened ReconcileReturns
  import ClaimHistory

  // ---------- counting rows by kind ----------

  /** The assets that have a change row of this kind from the snapshot. */
  ghost function RowsOf(changes: set<Change>, s: Snapshot, kind: ChangeKind): set<AssetId> {
    set c | c in changes && c == ChangeOf(s, c.asset, kind) :: c.asset
  }

  function RowsFor(s: Snapshot, kind: ChangeKind, assets: set<AssetId>): set<Change> {
    set a | a in assets :: ChangeOf(s, a, kind)
  }

  lemma {:induction false} RowsForCount(s: Snapshot, kind: ChangeKind, assets: set<AssetId>)
    ensures |RowsFor(s, kind, assets)| == |assets|
    decreases |assets|
  {
    if assets == {} {
      assert RowsFor(s, kind, assets) == {};
    } else {
      var a :| a in assets;
      RowsForCount(s, kind, assets - {a});
      assert RowsFor(s, kind, assets) == RowsFor(s, kind, assets - {a}) + {ChangeOf(s, a, kind)};
    }
  }

  /** Every new row is a row of the snapshot, and no old one is. */
  ghost predicate Written(before: set<Change>, s: Snapshot, after: set<Change>) {
    && before <= after && (forall c :: c in before ==> c.snapshot != s.id)
    && (forall c :: c in after ==> c in before || c == ChangeOf(s, c.asset, c.kind))
  }

  function OfKind(changes: set<Change>, kind: ChangeKind): set<Change> {
    set c | c in changes && c.kind == kind
  }

  lemma KindCount(before: set<Change>, s: Snapshot, after: set<Change>, kind: ChangeKind)
    requires Written(before, s, after)
    ensures |OfKind(after - before, kind)| == |RowsOf(after, s, kind)|
  {
    RowsForCount(s, kind, RowsOf(after, s, kind));
    assert OfKind(after - before, kind) == RowsFor(s, kind, RowsOf(after, s, kind));
  }

  function Others(changes: set<Change>, kind: ChangeKind): set<Change> {
    set c | c in changes && c.kind != kind
  }

  lemma Peel(changes: set<Change>, kind: ChangeKind)
    ensures |changes| == |OfKind(changes, kind)| + |Others(changes, kind)|
    ensures forall k :: k != kind ==> OfKind(Others(changes, kind), k) == OfKind(changes, k)
  {
    assert changes == OfKind(changes, kind) + Others(changes, kind);
  }

  lemma KindSplit(changes: set<Change>)
    ensures |changes| == |OfKind(changes, AssetDiscovered)| + |OfKind(changes, AssetReturned)|
                         + |OfKind(changes, AssetMissing)|
                         + |OfKind(changes, SourceConflict)| + |OfKind(changes, RelationshipAdded)|
  {
    hide OfKind, Others;
    var c1 := Others(changes, AssetDiscovered);
    var c2 := Others(c1, AssetReturned);
    var c3 := Others(c2, AssetMissing);
    var c4 := Others(c3, SourceConflict);
    Peel(changes, AssetDiscovered);
    Peel(c1, AssetReturned);
    Peel(c2, AssetMissing);
    Peel(c3, SourceConflict);
    Peel(c4, RelationshipAdded);
    NoOthers(changes);
  }

  lemma NoOthers(changes: set<Change>)
    ensures Others(Others(Others(Others(Others(changes, AssetDiscovered), AssetReturned), AssetMissing),
                          SourceConflict), RelationshipAdded) == {}
  {
  }

  /** Row counts add up over the kinds. */
  lemma RowCount(before: set<Change>, s: Snapshot, after: set<Change>)
    requires Written(before, s, after)
    ensures |after| == |before| + |RowsOf(after, s, AssetDiscovered)| + |RowsOf(after, s, AssetReturned)|
                       + |RowsOf(after, s, AssetMissing)| + |RowsOf(after, s, SourceConflict)|
                       + |RowsOf(after, s, RelationshipAdded)|
  {
    hide RowsOf, OfKind;
    var added := after - before;
    assert after == before + added;
    KindSplit(added);
    KindCount(before, s, after, AssetDiscovered);
    KindCount(before, s, after, AssetReturned);
    KindCount(before, s, after, AssetMissing);
    KindCount(before, s, after, SourceConflict);
    KindCount(before, s, after, RelationshipAdded);
  }

  // ---------- conflicts ----------

  /** Two connectors hold different values for an attribute of the asset that the `i`-th
      observation resolves to: their last statement in the snapshot so far, or else their active
      claim before it. */
  ghost predicate FoundConflicting(t: Tables, s: Snapshot, i: nat)
    requires i < |s.assets|
  {
    ClaimHistory.Disagree(t, s, i + 1, Resolves(t, s, i))
  }

  /** The loop finds a conflict on the asset of an observation exactly when that is so. */
  lemma FoundConflictingIff(t: Tables, s: Snapshot, i: nat, p: Progress)
    requires i < |s.assets| && Inv(t) && Sealed(t) && s.id !in t.runs && ObserveAssets(t, s, i + 1) == Ok(p)
    ensures s.assets[i].external in p.bound && p.bound[s.assets[i].external] == Resolves(t, s, i)
    ensures FoundConflicting(t, s, i) <==> HasConflict(p.t.claims, s.org, p.bound[s.assets[i].external])
  {
    hide Inv, Sealed, ObserveAssets, HasConflict, ClaimHistory.Disagree, Resolves;
    ResolvesAsBound(t, s, i + 1, p, i);
    ClaimHistory.ConflictIffDisagree(t, s, i + 1, p, Resolves(t, s, i));
  }

  /** The first `n` observations that find their asset conflicting, and those assets. */
  ghost function ConflictsFound(t: Tables, s: Snapshot, n: nat): map<int, AssetId>
    requires n <= |s.assets|
  {
    map i | 0 <= i < n && FoundConflicting(t, s, i) :: Resolves(t, s, i)
  }

  lemma ConflictsFoundStep(t: Tables, s: Snapshot, n: nat)
    requires n < |s.assets|
    ensures n !in ConflictsFound(t, s, n)
    ensures ConflictsFound(t, s, n + 1)
         == if FoundConflicting(t, s, n) then ConflictsFound(t, s, n)[n := Resolves(t, s, n)]
            else ConflictsFound(t, s, n)
  {
    hide FoundConflicting, Resolves;
  }

  // ---------- rows of the observations ----------

  /** Rows and counters after the first `n` observations. */
  ghost predicate AssetRows(t: Tables, s: Snapshot, n: nat, p: Progress)
    requires n <= |s.assets|
  {
    && Written(t.changes, s, p.t.changes)
    && p.sum.changes == p.sum.created + p.sum.updated + p.sum.conflicting
    && |RowsOf(p.t.changes, s, AssetReturned)| == p.sum.updated
    && RowsOf(p.t.changes, s, SourceConflict) == ConflictsFound(t, s, n).Values
    && p.sum.conflicting == |ConflictsFound(t, s, n)|
    && RowsOf(p.t.changes, s, RelationshipAdded) == {}
  }

  lemma RowsAdd(changes: set<Change>, s: Snapshot, a: AssetId, kind: ChangeKind, other: ChangeKind)
    ensures RowsOf(changes + {ChangeOf(s, a, kind)}, s, other)
         == RowsOf(changes, s, other) + (if kind == other then {a} else {})
  {
  }

  function Adding(changes: set<Change>, add: bool, c: Change): set<Change> {
    changes + (if add then {c} else {})
  }

  lemma AddingRows(changes: set<Change>, s: Snapshot, add: bool, a: AssetId, kind: ChangeKind, other: ChangeKind)
    ensures RowsOf(Adding(changes, add, ChangeOf(s, a, kind)), s, other)
         == RowsOf(changes, s, other) + (if add && kind == other then {a} else {})
  {
    RowsAdd(changes, s, a, kind, other);
    assert Adding(changes, false, ChangeOf(s, a, kind)) == changes;
  }

  /** What an observation adds, kind by kind. */
  lemma ObservedRows(p: Progress, s: Snapshot, o: Observation, x: Touch, q: Progress, kind: ChangeKind)
    requires q == Observed(p, s, o, x, q.t.strong)
    ensures var conflict := HasConflict(q.t.claims, s.org, x.asset);
            RowsOf(q.t.changes, s, kind) == RowsOf(p.t.changes, s, kind)
            + (if (kind == AssetReturned && x.returned) || (kind == SourceConflict && conflict)
                  || (kind == AssetDiscovered && x.created)
               then {x.asset} else {})
  {
    hide RecordClaims, HasConflict, SetStatus, BindSource, RowsOf;
    var conflict := HasConflict(q.t.claims, s.org, x.asset);
    var first := Adding(p.t.changes, x.returned, ChangeOf(s, x.asset, AssetReturned));
    var second := Adding(first, conflict, ChangeOf(s, x.asset, SourceConflict));
    AddingRows(p.t.changes, s, x.returned, x.asset, AssetReturned, kind);
    AddingRows(first, s, conflict, x.asset, SourceConflict, kind);
    AddingRows(second, s, x.created, x.asset, AssetDiscovered, kind);
    assert q.t.changes == Adding(second, x.created, ChangeOf(s, x.asset, AssetDiscovered));
  }

  lemma ObservedCounters(p: Progress, s: Snapshot, o: Observation, x: Touch, q: Progress)
    requires q == Observed(p, s, o, x, q.t.strong)
    ensures var conflict := HasConflict(q.t.claims, s.org, x.asset);
            && q.sum.created == p.sum.created + Bit(x.created) && q.sum.updated == p.sum.updated + Bit(x.returned)
            && q.sum.conflicting == p.sum.conflicting + Bit(conflict)
            && q.sum.changes == p.sum.changes + Bit(x.returned) + Bit(conflict) + Bit(x.created)
    ensures q.bound == p.bound[o.external := x.asset]
  {
    hide RecordClaims, HasConflict, SetStatus, BindSource;
  }

  lemma ObservedWritten(before: set<Change>, p: Progress, s: Snapshot, o: Observation, x: Touch, q: Progress)
    requires q == Observed(p, s, o, x, q.t.strong) && Written(before, s, p.t.changes)
    ensures Written(before, s, q.t.changes)
  {
    hide RecordClaims, HasConflict, SetStatus, BindSource;
  }

  /** An asset is counted as returned once. */
  lemma ReturnedOnce(t: Tables, s: Snapshot, n: nat, p: Progress, x: Touch)
    requires n < |s.assets| && Mid(t, s, n, p) && ReturnRows(t, s, n, p, x.asset)
    requires TouchAsset(p.t, s, s.assets[n]) == Ok(x) && x.returned
    ensures x.asset !in RowsOf(p.t.changes, s, AssetReturned)
  {
    hide Mid, TouchAsset;
    TouchReturned(p.t, s, s.assets[n], x);
    if ChangeOf(s, x.asset, AssetReturned) in p.t.changes {
      SeenIsActive(t, s, n, p, x.asset);
    }
  }

  /** The returned rows stay as many as the counter says. */
  lemma ReturnedStep(t: Tables, s: Snapshot, n: nat, p: Progress, x: Touch, q: Progress)
    requires n < |s.assets| && Mid(t, s, n, p) && ReturnRows(t, s, n, p, x.asset)
    requires TouchAsset(p.t, s, s.assets[n]) == Ok(x) && q == Observed(p, s, s.assets[n], x, q.t.strong)
    ensures |RowsOf(q.t.changes, s, AssetReturned)| == |RowsOf(p.t.changes, s, AssetReturned)| + Bit(x.returned)
  {
    hide Mid, TouchAsset, Observed, HasConflict, RowsOf, ReturnRows;
    ObservedRows(p, s, s.assets[n], x, q, AssetReturned);
    if x.returned {
      ReturnedOnce(t, s, n, p, x);
    }
  }

  /** The conflict rows stay those of the observations that found a conflict. */
  lemma ConflictStep(t: Tables, s: Snapshot, n: nat, p: Progress, x: Touch, q: Progress)
    requires n < |s.assets| && Inv(t) && Sealed(t) && s.id !in t.runs
    requires ObserveAssets(t, s, n + 1) == Ok(q) && q == Observed(p, s, s.assets[n], x, q.t.strong)
    requires RowsOf(p.t.changes, s, SourceConflict) == ConflictsFound(t, s, n).Values
    ensures RowsOf(q.t.changes, s, SourceConflict) == ConflictsFound(t, s, n + 1).Values
    ensures |ConflictsFound(t, s, n + 1)| == |ConflictsFound(t, s, n)| + Bit(HasConflict(q.t.claims, s.org, x.asset))
  {
    hide Inv, Sealed, ObserveAssets, Observed, HasConflict, RowsOf, FoundConflicting, Resolves, ConflictsFound;
    ObservedCounters(p, s, s.assets[n], x, q);
    ObservedRows(p, s, s.assets[n], x, q, SourceConflict);
    FoundConflictingIff(t, s, n, q);
    ConflictsFoundStep(t, s, n);
    ValuesAdd(ConflictsFound(t, s, n), n, x.asset);
  }

  lemma AssetRowsStep(t: Tables, s: Snapshot, n: nat, p: Progress, x: Touch, q: Progress)
    requires n < |s.assets| && Inv(t) && Sealed(t) && s.id !in t.runs
    requires AssetRows(t, s, n, p) && Mid(t, s, n, p) && ReturnRows(t, s, n, p, x.asset)
    requires TouchAsset(p.t, s, s.assets[n]) == Ok(x) && ObserveAssets(t, s, n + 1) == Ok(q)
    requires q == Observed(p, s, s.assets[n], x, q.t.strong)
    ensures AssetRows(t, s, n + 1, q)
  {
    hide Inv, Sealed, Mid, TouchAsset, ObserveAssets, Observed, HasConflict, RowsOf, ConflictsFound, Written,
      ReturnRows;
    ObservedWritten(t.changes, p, s, s.assets[n], x, q);
    ObservedCounters(p, s, s.assets[n], x, q);
    ObservedRows(p, s, s.assets[n], x, q, RelationshipAdded);
    ReturnedStep(t, s, n, p, x, q);
    ConflictStep(t, s, n, p, x, q);
  }

  lemma ValuesAdd(m: map<int, AssetId>, n: int, a: AssetId)
    requires n !in m
    ensures m[n := a].Values == m.Values + {a} && |m[n := a]| == |m| + 1
  {
    assert m[n := a].Keys == m.Keys + {n} && |m[n := a].Keys| == |m.Keys| + 1;
    assert m[n := a] - {n} == m;
    ValuesWith(m[n := a], n);
  }

  lemma AssetRowsStart(t: Tables, s: Snapshot)
    requires Sealed(t) && s.id !in t.runs
    ensures AssetRows(t, s, 0, Progress(t, map[], ZERO_SUMMARY))
  {
    hide FoundConflicting, Resolves;
    assert forall c :: c in t.changes ==> c.snapshot != s.id;
    assert RowsOf(t.changes, s, AssetReturned) == {};
    assert RowsOf(t.changes, s, SourceConflict) == {};
    assert RowsOf(t.changes, s, RelationshipAdded) == {};
    assert ConflictsFound(t, s, 0) == map[];
  }

  lemma {:induction false} AssetRowsInv(t: Tables, s: Snapshot, n: nat, p: Progress)
    requires n <= |s.assets| && Inv(t) && Sealed(t) && s.id !in t.runs && ObserveAssets(t, s, n) == Ok(p)
    ensures AssetRows(t, s, n, p)
  {
    hide Inv, Sealed, Mid, ObserveAsset, TouchAsset, Observed, Accepted, BindStrong, AssetRows, ReturnRows, Bindings;
    if n == 0 {
      AssetRowsStart(t, s);
    } else {
      var b := ObserveAssets(t, s, n - 1).value;
      AssetRowsInv(t, s, n - 1, b);
      ObserveAssetsMid(t, s, n - 1, b);
      MidBase(t, s, n - 1, b);
      var x := ObserveFacts(b, s, s.assets[n - 1], p);
      AcceptedStrong(b, s, s.assets[n - 1], x, p);
      ReturnsInv(t, s, n - 1, b, x.asset);
      AssetRowsStep(t, s, n - 1, b, x, p);
    }
  }

  // ---------- rows of the relationships ----------

  /** The relationships that the first `n` observed ones stand for. */
  function Targets(bound: map<string, AssetId>, s: Snapshot, n: nat): set<RelationshipId>
    requires n <= |s.relationships|
  {
    set i | 0 <= i < n && s.relationships[i].from in bound && s.relationships[i].to in bound ::
      RelationshipId(s.org, bound[s.relationships[i].from], bound[s.relationships[i].to], s.relationships[i].relType)
  }

  function Froms(rs: set<RelationshipId>): set<AssetId> {
    set r | r in rs :: r.from
  }

  lemma TargetsStep(bound: map<string, AssetId>, s: Snapshot, n: nat)
    requires n < |s.relationships| && s.relationships[n].from in bound && s.relationships[n].to in bound
    ensures Targets(bound, s, n + 1)
         == Targets(bound, s, n) + {RelationshipId(s.org, bound[s.relationships[n].from], bound[s.relationships[n].to],
                                                   s.relationships[n].relType)}
  {
  }

  /** Rows and counters after the first `n` relationships. */
  ghost predicate RelRows(p: Progress, s: Snapshot, n: nat, q: Progress)
    requires n <= |s.relationships|
  {
    && q.bound == p.bound && q.t.relationships.Keys == p.t.relationships.Keys + Targets(p.bound, s, n)
    && q.sum.changes - p.sum.changes == q.sum.relationshipsCreated - p.sum.relationshipsCreated
    && p.t.changes <= q.t.changes
    && (forall c :: c in q.t.changes ==> c in p.t.changes || c == ChangeOf(s, c.asset, RelationshipAdded))
    && RowsOf(q.t.changes, s, RelationshipAdded)
       == RowsOf(p.t.changes, s, RelationshipAdded) + Froms(Targets(p.bound, s, n) - p.t.relationships.Keys)
  }

  lemma RelRowsStep(p: Progress, s: Snapshot, n: nat, b: Progress, q: Progress)
    requires n < |s.relationships| && RelRows(p, s, n, b) && ObserveRelationship(b, s, s.relationships[n]) == Ok(q)
    ensures RelRows(p, s, n + 1, q)
  {
    hide RowsOf, Targets, Froms;
    var r := s.relationships[n];
    var id := RelationshipId(s.org, b.bound[r.from], b.bound[r.to], r.relType);
    var isNew := id !in b.t.relationships;
    var known := p.t.relationships.Keys;
    TargetsStep(p.bound, s, n);
    AddingRows(b.t.changes, s, isNew, id.from, RelationshipAdded, RelationshipAdded);
    assert q.t.changes == Adding(b.t.changes, isNew, ChangeOf(s, id.from, RelationshipAdded));
    assert q.t.relationships.Keys == b.t.relationships.Keys + {id};
    FromsStep(Targets(p.bound, s, n), known, id);
  }

  lemma FromsStep(targets: set<RelationshipId>, known: set<RelationshipId>, id: RelationshipId)
    ensures Froms((targets + {id}) - known) == Froms(targets - known)
                                               + (if id !in known + targets then {id.from} else {})
  {
    if id in targets {
      assert targets + {id} == targets;
    }
    assert (targets + {id}) - known == (targets - known) + (if id in known then {} else {id});
    if id !in known {
      assert Froms((targets - known) + {id}) == Froms(targets - known) + {id.from};
    }
  }

  lemma {:induction false} RelRowsInv(p: Progress, s: Snapshot, n: nat, q: Progress)
    requires n <= |s.relationships| && ObserveRelationships(p, s, n) == Ok(q)
    ensures RelRows(p, s, n, q)
  {
    hide ObserveRelationship, RelRows;
    if n == 0 {
      RelRowsStart(p, s);
    } else {
      var b := ObserveRelationships(p, s, n - 1).value;
      RelRowsInv(p, s, n - 1, b);
      RelRowsStep(p, s, n - 1, b, q);
    }
  }

  lemma RelRowsStart(p: Progress, s: Snapshot)
    ensures RelRows(p, s, 0, p)
  {
    assert Targets(p.bound, s, 0) == {} && Froms({}) == {};
  }

  // ---------- the whole snapshot ----------

  /** The relationships that the snapshot lists, between the assets that its observations
      resolve to. */
  ghost function ListedRelationships(t: Tables, s: Snapshot): set<RelationshipId> {
    set r, i, j | 0 <= r < |s.relationships| && 0 <= i < |s.assets| && 0 <= j < |s.assets|
                  && s.assets[i].external == s.relationships[r].from && s.assets[j].external == s.relationships[r].to
      :: RelationshipId(s.org, Resolves(t, s, i), Resolves(t, s, j), s.relationships[r].relType)
  }

  /** Those that the tables do not have. */
  ghost function NewRelationships(t: Tables, s: Snapshot): set<RelationshipId> {
    ListedRelationships(t, s) - t.relationships.Keys
  }

  /** They are the ones that the relationship loop stands for. */
  lemma ListedAreTargets(t: Tables, s: Snapshot, bound: map<string, AssetId>)
    requires bound.Keys == Externals(s, |s.assets|)
    requires forall i :: 0 <= i < |s.assets| ==> s.assets[i].external in bound
    requires forall i | 0 <= i < |s.assets| :: bound[s.assets[i].external] == Resolves(t, s, i)
    ensures Targets(bound, s, |s.relationships|) == ListedRelationships(t, s)
  {
    hide Resolves, ListedRelationships;
    forall id | id in Targets(bound, s, |s.relationships|) ensures id in ListedRelationships(t, s) {
      var r :| 0 <= r < |s.relationships| && s.relationships[r].from in bound && s.relationships[r].to in bound
               && id == RelationshipId(s.org, bound[s.relationships[r].from], bound[s.relationships[r].to],
                                       s.relationships[r].relType);
      var i :| 0 <= i < |s.assets| && s.assets[i].external == s.relationships[r].from;
      var j :| 0 <= j < |s.assets| && s.assets[j].external == s.relationships[r].to;
      IsListed(t, s, r, i, j);
    }
    forall id | id in ListedRelationships(t, s) ensures id in Targets(bound, s, |s.relationships|) {
      var r, i, j := ListedBy(t, s, id);
    }
  }

  lemma IsListed(t: Tables, s: Snapshot, r: nat, i: nat, j: nat)
    requires r < |s.relationships| && i < |s.assets| && j < |s.assets|
    requires s.assets[i].external == s.relationships[r].from && s.assets[j].external == s.relationships[r].to
    ensures RelationshipId(s.org, Resolves(t, s, i), Resolves(t, s, j),
                           s.relationships[r].relType) in ListedRelationships(t, s)
  {
    hide Resolves;
  }

  lemma ListedBy(t: Tables, s: Snapshot, id: RelationshipId) returns (r: nat, i: nat, j: nat)
    requires id in ListedRelationships(t, s)
    ensures r < |s.relationships| && i < |s.assets| && j < |s.assets|
    ensures s.assets[i].external == s.relationships[r].from && s.assets[j].external == s.relationships[r].to
    ensures id == RelationshipId(s.org, Resolves(t, s, i), Resolves(t, s, j), s.relationships[r].relType)
  {
    hide Resolves;
    r, i, j :| 0 <= r < |s.relationships| && 0 <= i < |s.assets| && 0 <= j < |s.assets|
               && s.assets[i].external == s.relationships[r].from && s.assets[j].external == s.relationships[r].to
               && id == RelationshipId(s.org, Resolves(t, s, i), Resolves(t, s, j), s.relationships[r].relType);
  }

  lemma ListedIsBound(t: Tables, s: Snapshot, p: Progress)
    requires Inv(t) && Sealed(t) && s.id !in t.runs && ObserveAssets(t, s, |s.assets|) == Ok(p)
    ensures Targets(p.bound, s, |s.relationships|) == ListedRelationships(t, s)
  {
    hide Inv, Sealed, ObserveAssets, Targets, ListedRelationships, Resolves, Provenance, Listed, Extends, UnlistedKept;
    LoopResolves(t, s, |s.assets|, p);
    forall i | 0 <= i < |s.assets| ensures s.assets[i].external in p.bound
                                           && p.bound[s.assets[i].external] == Resolves(t, s, i) {
      ResolvesAsBound(t, s, |s.assets|, p, i);
    }
    ListedAreTargets(t, s, p.bound);
  }

  /** The rows after all observations, and what the later stages add to them. */
  lemma StageRows(t: Tables, s: Snapshot, threshold: int, u: Progress)
    returns (p: Progress, q: Progress, gone: set<AssetId>)
    requires Inv(t) && Sealed(t) && Apply(t, s, threshold) == Ok(u)
    ensures AssetRows(t, s, |s.assets|, p) && RelRows(p, s, |s.relationships|, q)
    ensures Targets(p.bound, s, |s.relationships|) == ListedRelationships(t, s)
    ensures p.t.relationships == t.relationships && u.t.relationships.Keys == q.t.relationships.Keys
    ensures u.t.changes == q.t.changes + MissingChanges(s, gone)
    ensures p.sum.missing == p.sum.relationshipsCreated == 0
    ensures q.sum == p.sum.(relationshipsCreated := q.sum.relationshipsCreated, changes := q.sum.changes)
    ensures u.sum == q.sum.(missing := u.sum.missing, changes := u.sum.changes,
                     relationshipsRemoved := u.sum.relationshipsRemoved)
    ensures u.sum.changes - q.sum.changes == u.sum.missing - q.sum.missing
  {
    hide Inv, Sealed, Apply, ObserveAssets, ObserveRelationships, MarkMissing, Mid, RelMid, Extends, LastSources,
      AssetsOf, MissingChanges,
      RelRows, AssetRows, AssetChanges, Targets, ListedRelationships;
    p, q := Stages(t, s, threshold, u);
    ApplyPreserves(t, s, threshold, u);
    AssetRowsInv(t, s, |s.assets|, p);
    ListedIsBound(t, s, p);
    ObserveAssetsCounts(t, s, |s.assets|, p);
    RelRowsInv(p, s, |s.relationships|, q);
    ObserveRelationshipsCounts(p, s, |s.relationships|, q);
    MarkCounts(t, s, threshold, p, q, u);
    MarkShape(q, s, threshold, u);
    StageShape(t, s, p, q);
    gone := AssetsOf(u.t.sources, LastSources(t, u.t));
  }

  /** Which assets get SOURCE_CONFLICT and RELATIONSHIP_ADDED rows, and what the counters add up to. */
  lemma ChangeRows(t: Tables, s: Snapshot, threshold: int, u: Progress)
    requires Inv(t) && Sealed(t) && Apply(t, s, threshold) == Ok(u)
    ensures Written(t.changes, s, u.t.changes)
    ensures RowsOf(u.t.changes, s, SourceConflict) == ConflictsFound(t, s, |s.assets|).Values
    ensures u.sum.conflicting == |ConflictsFound(t, s, |s.assets|)|
    ensures u.t.relationships.Keys == t.relationships.Keys + NewRelationships(t, s)
    ensures RowsOf(u.t.changes, s, RelationshipAdded) == Froms(NewRelationships(t, s))
    ensures |RowsOf(u.t.changes, s, AssetReturned)| == u.sum.updated
    ensures u.sum.changes == u.sum.created + u.sum.updated + u.sum.missing + u.sum.conflicting
                             + u.sum.relationshipsCreated
  {
    hide Inv, Sealed, Apply, MissingChanges, RowsOf, Froms, Targets, ConflictsFound, Written, RelRows, NewRelationships,
      ListedRelationships;
    var p, q, gone := StageRows(t, s, threshold, u);
    LaterRows(t.changes, p, s, q, gone);
    NewFromTargets(t, s);
  }

  lemma NewFromTargets(t: Tables, s: Snapshot)
    ensures NewRelationships(t, s) == ListedRelationships(t, s) - t.relationships.Keys
    ensures t.relationships.Keys + NewRelationships(t, s) == t.relationships.Keys + ListedRelationships(t, s)
  {
    hide ListedRelationships;
  }

  /** Relationships and marking add only rows of their own kinds. */
  lemma LaterRows(before: set<Change>, p: Progress, s: Snapshot, q: Progress, gone: set<AssetId>)
    requires Written(before, s, p.t.changes) && RelRows(p, s, |s.relationships|, q)
    requires RowsOf(p.t.changes, s, RelationshipAdded) == {}
    ensures var after := q.t.changes + MissingChanges(s, gone);
            && Written(before, s, after)
            && RowsOf(after, s, SourceConflict) == RowsOf(p.t.changes, s, SourceConflict)
            && RowsOf(after, s, AssetReturned) == RowsOf(p.t.changes, s, AssetReturned)
            && RowsOf(after, s, RelationshipAdded)
               == Froms(Targets(p.bound, s, |s.relationships|) - p.t.relationships.Keys)
    ensures q.t.relationships.Keys == p.t.relationships.Keys + Targets(p.bound, s, |s.relationships|)
    ensures q.sum.changes - p.sum.changes == q.sum.relationshipsCreated - p.sum.relationshipsCreated
  {
    hide RowsOf, Froms, Targets;
    OtherRows(q.t.changes, s, gone, SourceConflict);
    OtherRows(q.t.changes, s, gone, AssetReturned);
    OtherRows(q.t.changes, s, gone, RelationshipAdded);
    SameRows(p.t.changes, q.t.changes, s, SourceConflict);
    SameRows(p.t.changes, q.t.changes, s, AssetReturned);
  }

  lemma OtherRows(changes: set<Change>, s: Snapshot, gone: set<AssetId>, kind: ChangeKind)
    requires kind != AssetMissing
    ensures RowsOf(changes + MissingChanges(s, gone), s, kind) == RowsOf(changes, s, kind)
  {
  }

  lemma SameRows(before: set<Change>, after: set<Change>, s: Snapshot, kind: ChangeKind)
    requires before <= after && kind != RelationshipAdded
    requires forall c :: c in after && c.kind != RelationshipAdded ==> c in before
    ensures RowsOf(after, s, kind) == RowsOf(before, s, kind)
  {
  }

  // ---------- the change counter ----------

  /** No two observations find one asset conflicting. */
  ghost predicate OneConflictEach(t: Tables, s: Snapshot) {
    forall i, j :: 0 <= i < j < |s.assets| && FoundConflicting(t, s, i) && FoundConflicting(t, s, j) ==>
                     Resolves(t, s, i) != Resolves(t, s, j)
  }

  /** No two new relationships leave one asset. */
  ghost predicate OneRelationshipEach(t: Tables, s: Snapshot) {
    forall q, r :: q in NewRelationships(t, s) && r in NewRelationships(t, s) && q.from == r.from ==> q == r
  }

  lemma ConflictCount(t: Tables, s: Snapshot)
    ensures var found := ConflictsFound(t, s, |s.assets|);
            |found.Values| <= |found| && (|found.Values| == |found| <==> OneConflictEach(t, s))
  {
    hide FoundConflicting, Resolves;
    var found := ConflictsFound(t, s, |s.assets|);
    ValueCount(found);
    if OneToOne(found) {
      forall i, j | 0 <= i < j < |s.assets| && FoundConflicting(t, s, i) && FoundConflicting(t, s, j)
        ensures Resolves(t, s, i) != Resolves(t, s, j)
      {
        assert i in found && j in found;
      }
    }
    if OneConflictEach(t, s) {
      forall i, j | i in found && j in found && found[i] == found[j] ensures i == j {
        assert !(i < j) && !(j < i);
      }
    }
  }

  lemma RelationshipCount(t: Tables, s: Snapshot)
    ensures |Froms(NewRelationships(t, s))| <= |NewRelationships(t, s)|
    ensures |Froms(NewRelationships(t, s))| == |NewRelationships(t, s)| <==> OneRelationshipEach(t, s)
  {
    hide NewRelationships;
    var fresh' := NewRelationships(t, s);
    var m := map r | r in fresh' :: r.from;
    assert m.Keys == fresh';
    assert m.Values == Froms(fresh');
    ValueCount(m);
    assert OneToOne(m) <==> OneRelationshipEach(t, s);
  }

  /** The change counter is the number of rows written exactly when no asset loses two expiring
      identities, no asset is found conflicting twice, and no two new relationships leave one
      asset. Otherwise rows with one logical identity were merged and it is larger. */
  lemma ChangeCounterIff(t: Tables, s: Snapshot, threshold: int, u: Progress)
    requires Inv(t) && Sealed(t) && Apply(t, s, threshold) == Ok(u)
    ensures u.sum.changes >= |u.t.changes| - |t.changes|
    ensures u.sum.changes == |u.t.changes| - |t.changes| <==>
            LosesOneEach(t, s, Threshold(threshold)) && OneConflictEach(t, s) && OneRelationshipEach(t, s)
  {
    hide Inv, Sealed, Apply, LosesOneEach, OneConflictEach, OneRelationshipEach, ConflictsFound, NewRelationships,
      Froms, WentMissing,
      LastSources, Written, RowsOf, Extends;
    ChangeRows(t, s, threshold, u);
    SummaryIsExact(t, s, threshold, u);
    MissingCounterIff(t, s, threshold, u);
    ConflictCount(t, s);
    RelationshipCount(t, s);
    RowCount(t.changes, s, u.t.changes);
    RowsAre(u.t.changes, s, AssetMissing, WentMissing(t, u.t));
    RowsAre(u.t.changes, s, AssetDiscovered, u.t.assets.Keys - t.assets.Keys);
    KeysGrow(t, s, threshold, u);
    NewIsNew(t, s);
    assert |t.relationships.Keys + NewRelationships(t, s)| == |t.relationships.Keys| + |NewRelationships(t, s)|;
  }

  lemma RowsAre(changes: set<Change>, s: Snapshot, kind: ChangeKind, assets: set<AssetId>)
    requires forall a :: ChangeOf(s, a, kind) in changes <==> a in assets
    ensures RowsOf(changes, s, kind) == assets
  {
  }

  lemma KeysGrow(t: Tables, s: Snapshot, threshold: int, u: Progress)
    requires Inv(t) && Sealed(t) && Apply(t, s, threshold) == Ok(u)
    ensures |u.t.assets.Keys - t.assets.Keys| == |u.t.assets| - |t.assets|
  {
    hide Inv, Sealed, Apply, Extends;
    ApplyPreserves(t, s, threshold, u);
    ExtendsAssets(t, u.t);
    assert u.t.assets.Keys == t.assets.Keys + (u.t.assets.Keys - t.assets.Keys);
  }

  lemma ExtendsAssets(t: Tables, u: Tables)
    requires Extends(t, u)
    ensures t.assets.Keys <= u.assets.Keys
  {
  }

  lemma NewIsNew(t: Tables, s: Snapshot)
    ensures NewRelationships(t, s) !! t.relationships.Keys
  {
  }
}
