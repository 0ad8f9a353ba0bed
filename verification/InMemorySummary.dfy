/** What the summary of a delivery counts and which changes it records. */
module InMemorySummary {
  import opened Domain
  import opened InMemory
  import opened InMemoryRuns
  import opened InMemoryHistory

  // ---------- counters against tables ----------

  /** Every identity, relationship and change that `q` has over `p` is counted once. */
  predicate Balanced(p: Progress, q: Progress) {
    && q.sum.created - p.sum.created == |q.st.bound| - |p.st.bound|
    && q.sum.relationshipsCreated - p.sum.relationshipsCreated == |q.st.relationships| - |p.st.relationships|
    && q.sum.changes - p.sum.changes == |q.st.changes| - |p.st.changes|
  }

  function Handled(sum: Summary): nat {
    sum.created + sum.updated + sum.kept
  }

  /** The counters that observations and relationships leave alone. */
  predicate LossesKept(p: Progress, q: Progress) {
    q.sum.missing == p.sum.missing && q.sum.relationshipsRemoved == p.sum.relationshipsRemoved
  }

  lemma AddChangeBalance(p: Progress, key: ChangeKey, c: Change)
    ensures var q := AddChange(p, key, c);
            Balanced(p, q) && Handled(q.sum) == Handled(p.sum) && LossesKept(p, q)
  {
  }

  lemma TouchBalance(p: Progress, d: Delivery, o: Observation)
    ensures var q := Touch(p, d, o).0;
            Balanced(p, q) && Handled(q.sum) == Handled(p.sum) + 1 && LossesKept(p, q)
  {
    hide AddChange, NewAssetId, AssetAt, ChangeAt, ChangeOf, KeyOf;
    var key := KeyOf(d, o.external);
    if key !in p.st.bound {
      var id := NewAssetId(o.external);
      var a := Asset(d.snapshot.org, o.assetType, Active, d.now, d.now, d.now);
      var q := Progress(p.st.(bound := p.st.bound[key := id], assets := p.st.assets[id := a]),
                        p.sum.(created := p.sum.created + 1));
      AddChangeBalance(q, ChangeAt(d, id, Discovered), ChangeOf(d, Nothing, OfAsset(a)));
    } else {
      var id := p.st.bound[key];
      var a := AssetAt(p.st.assets, id);
      var st := p.st.(assets := p.st.assets[id := a.(lastSeen := d.now, updated := d.now, status := Active)]);
      AddChangeBalance(p.(st := st), ChangeAt(d, id, Returned), ChangeOf(d, OfStatus(Missing), OfStatus(Active)));
    }
  }

  lemma StatingBalance(p: Progress, d: Delivery, o: Observation, id: string)
    ensures var q := StateAttributes(p, d, o, id, o.attributes.Keys);
            Balanced(p, q) && Handled(q.sum) == Handled(p.sum) && LossesKept(p, q)
  {
    hide StateClaims, Conflicts, SetConflicting, ChangeAt, ChangeOf;
  }

  lemma {:induction false} ObserveAllBalance(p: Progress, d: Delivery, n: nat)
    requires n <= |d.snapshot.assets|
    ensures var q := ObserveAll(p, d, n);
            Balanced(p, q) && Handled(q.sum) == Handled(p.sum) + n && LossesKept(p, q)
  {
    hide Touch, StateAttributes, KeyOf;
    if n > 0 {
      ObserveAllBalance(p, d, n - 1);
      var r, o := ObserveAll(p, d, n - 1), d.snapshot.assets[n - 1];
      TouchBalance(r, d, o);
      var (q, id) := Touch(r, d, o);
      StatingBalance(q.(st := q.st.(absences := q.st.absences[KeyOf(d, o.external) := 0])), d, o, id);
    }
  }

  lemma RelateBalance(p: Progress, d: Delivery, r: RelationshipObservation)
    ensures var q := Relate(p, d, r);
            Balanced(p, q) && Handled(q.sum) == Handled(p.sum) && LossesKept(p, q)
  {
    hide AddChange, ChangeAt, ChangeOf, RelKeyOf;
    match RelKeyOf(p.st, d, r) {
      case None =>
      case Some(key) =>
        if key !in p.st.relationships {
          var rel := Relationship(key.from, true, d.now, d.now, d.now);
          var q := Progress(p.st.(relationships := p.st.relationships[key := rel]),
                            p.sum.(relationshipsCreated := p.sum.relationshipsCreated + 1));
          AddChangeBalance(q, ChangeAt(d, key.from, RelationshipAdded), ChangeOf(d, Nothing, OfRelationship(rel)));
        }
    }
  }

  lemma {:induction false} RelateAllBalance(p: Progress, d: Delivery, n: nat)
    requires n <= |d.snapshot.relationships|
    ensures var q := RelateAll(p, d, n);
            Balanced(p, q) && Handled(q.sum) == Handled(p.sum) && LossesKept(p, q)
  {
    hide Relate;
    if n > 0 {
      RelateAllBalance(p, d, n - 1);
      RelateBalance(RelateAll(p, d, n - 1), d, d.snapshot.relationships[n - 1]);
    }
  }

  lemma RemoveBalance(p: Progress, d: Delivery, removed: set<RelKey>)
    ensures var q := RemoveRels(p, d, removed);
            && Balanced(p, q) && Handled(q.sum) == Handled(p.sum) && q.sum.missing == p.sum.missing
            && q.sum.relationshipsRemoved == p.sum.relationshipsRemoved + |removed|
  {
    hide RemovalKeys, WithRemovals, WithoutRels;
    var keys := RemovalKeys(p.st.relationships, d, removed);
    assert |WithoutRels(p.st.relationships, d, removed)| == |p.st.relationships| by {
      assert WithoutRels(p.st.relationships, d, removed).Keys
          == p.st.relationships.Keys by { SameRels(p.st, d, removed); }
    }
    RemovalCount(p.st.changes, d, keys);
  }

  lemma SameRels(st: State, d: Delivery, removed: set<RelKey>)
    ensures WithoutRels(st.relationships, d, removed).Keys == st.relationships.Keys
  {
  }

  lemma RemovalCount(changes: map<ChangeKey, Change>, d: Delivery, keys: set<ChangeKey>)
    ensures |WithRemovals(changes, d, keys)| == |changes| + |keys - changes.Keys|
  {
    var all := WithRemovals(changes, d, keys);
    assert all.Keys == changes.Keys + (keys - changes.Keys);
    assert |all| == |all.Keys| && |changes| == |changes.Keys|;
  }

  lemma MarkBalance(p: Progress, d: Delivery, absent: set<Key>)
    ensures var q := MarkAbsent(p, d, absent);
            && Balanced(p, q) && Handled(q.sum) == Handled(p.sum)
            && q.sum.missing == p.sum.missing + |Lost(p.st, d, absent)|
            && q.sum.relationshipsRemoved == p.sum.relationshipsRemoved
  {
    hide Lost, LossKeys, CountAbsent, MarkLost, WithLosses;
    LossCount(p.st.changes, p.st.assets, d, Lost(p.st, d, absent));
  }

  lemma LossCount(changes: map<ChangeKey, Change>, assets: map<string, Asset>, d: Delivery, lost: set<string>)
    ensures |WithLosses(changes, assets, d, lost)| == |changes| + |LossKeys(d, lost) - changes.Keys|
  {
    hide LossKeys;
    var all := WithLosses(changes, assets, d, lost);
    assert all.Keys == changes.Keys + (LossKeys(d, lost) - changes.Keys);
    assert |all| == |all.Keys| && |changes| == |changes.Keys|;
  }

  /** The relationships that are ACTIVE before a delivery and REMOVED after it. */
  ghost function Dropped(st: State, u: State): set<RelKey> {
    set k | k in st.relationships && k in u.relationships && st.relationships[k].active && !u.relationships[k].active
  }

  /** After any delivery: one created for each new identity, one relationship created for each new
      one, one removed for each that stops being ACTIVE, one change for each new record; and every
      observation is created, updated or unchanged. */
  lemma SummaryIsExact(st: State, d: Delivery)
    ensures var p := ApplySucceeded(st, d);
            && p.sum.created == |p.st.bound| - |st.bound|
            && Handled(p.sum) == |d.snapshot.assets|
            && p.sum.relationshipsCreated == |p.st.relationships| - |st.relationships|
            && p.sum.relationshipsRemoved == |Dropped(st, p.st)|
            && p.sum.changes == |p.st.changes| - |st.changes|
  {
    hide ObserveAll, RelateAll, RemoveRels, MarkAbsent, Unlisted, SeenRels, Absent, Dropped;
    var n, m := |d.snapshot.assets|, |d.snapshot.relationships|;
    var start := Progress(st, ZERO_SUMMARY);
    ObserveAllBalance(start, d, n);
    var p := ObserveAll(start, d, n);
    RelateAllBalance(p, d, m);
    var q := RelateAll(p, d, m);
    var removed := Unlisted(q.st, d, SeenRels(q.st, d, m));
    RemoveBalance(q, d, removed);
    var r := RemoveRels(q, d, removed);
    MarkBalance(r, d, Absent(r.st, d));
    assert removed == Dropped(st, ApplySucceeded(st, d).st) by { RemovedAreDropped(st, d); }
  }

  lemma RemovedAreDropped(st: State, d: Delivery)
    ensures var p := ObserveAll(Progress(st, ZERO_SUMMARY), d, |d.snapshot.assets|);
            var q := RelateAll(p, d, |d.snapshot.relationships|);
            Unlisted(q.st, d, SeenRels(q.st, d, |d.snapshot.relationships|)) == Dropped(st, ApplySucceeded(st, d).st)
  {
    hide ObserveAll, RelateAll, ApplySucceeded, SeenRels;
    var n, m := |d.snapshot.assets|, |d.snapshot.relationships|;
    var p, u := ObserveAll(Progress(st, ZERO_SUMMARY), d, n), ApplySucceeded(st, d).st;
    var q := RelateAll(p, d, m);
    assert u.bound == q.st.bound by { BoundAfter(st, d); }
    InMemoryStore.SeenRelsSame(u, q.st, d, m);
    forall k: RelKey ensures k in Unlisted(q.st, d, SeenRels(q.st, d, m)) <==> k in Dropped(st, u) {
      ObserveAllKeeps(Progress(st, ZERO_SUMMARY), d, n, Key("", "", ""));
      RelateAllKeeps(p, d, m, k);
      InMemoryStore.SeenRelsSame(p.st, q.st, d, m);
      AppliedRel(st, d, k);
    }
  }

  lemma BoundAfter(st: State, d: Delivery)
    ensures var p := ObserveAll(Progress(st, ZERO_SUMMARY), d, |d.snapshot.assets|);
            ApplySucceeded(st, d).st.bound == RelateAll(p, d, |d.snapshot.relationships|).st.bound
  {
    hide ObserveAll, RelateAll, Unlisted, Absent, Lost, SeenRels;
  }
}
