/** Which changes a delivery records, in terms of the deliveries before it. */
module InMemoryChanges {
  import opened Domain
  import opened InMemory
  import opened InMemoryRuns
  import opened InMemoryHistory
  import opened InMemoryStatus
  import opened InMemorySummary

  // ---------- what the deliveries say ----------

  /** Observation `i` is the first one of the asset in the delivery. */
  predicate FirstOf(d: Delivery, i: int, id: string) {
    && 0 <= i < |d.snapshot.assets| && NewAssetId(d.snapshot.assets[i].external) == id
    && !ObservesBy(d, i, id)
  }

  /** The first observation of the asset is of an identity that was reported before. */
  ghost predicate FirstIsKnown(h: seq<Delivery>, d: Delivery, id: string) {
    exists i :: FirstOf(d, i, id) && EverReported(h, KeyOf(d, d.snapshot.assets[i].external))
  }

  /** An identity of the asset is reported for the first time. */
  ghost predicate NewlyReported(h: seq<Delivery>, d: Delivery, id: string) {
    exists k :: Reports(d, k) && !EverReported(h, k) && NewAssetId(k.external) == id
  }

  /** After some observation of the asset, connectors disagree on an attribute it states. */
  ghost predicate ContestedBy(ss: seq<Sighting>, d: Delivery, n: nat, id: string)
    requires n <= |d.snapshot.assets|
  {
    exists i :: 0 <= i < n && ContestedAt(ss, d, i, id)
  }

  ghost predicate ContestedAt(ss: seq<Sighting>, d: Delivery, i: nat, id: string)
    requires i < |d.snapshot.assets|
  {
    NewAssetId(d.snapshot.assets[i].external) == id && Contested(ss + SightingsOf(d, i + 1), id)
  }

  // ---------- observations ----------

  /** The delivery adds this change exactly if `adds`. */
  ghost predicate Adds(before: map<ChangeKey, Change>, d: Delivery, after: map<ChangeKey, Change>, kind: Kind,
                       id: string, adds: bool) {
    ChangeAt(d, id, kind) in after <==> ChangeAt(d, id, kind) in before || adds
  }

  /** Changes stay, and those added are of the delivery. */
  ghost predicate Grows(before: map<ChangeKey, Change>, d: Delivery, after: map<ChangeKey, Change>) {
    && (forall c :: c in before ==> c in after && after[c] == before[c])
    && (forall c :: c in after && c !in before ==> c.snapshot == d.snapshot.id)
  }

  lemma AddChangeRows(p: Progress, d: Delivery, own: string, added: Kind, c: Change, kind: Kind, id: string)
    ensures var q := AddChange(p, ChangeAt(d, own, added), c);
            && Grows(p.st.changes, d, q.st.changes)
            && Adds(p.st.changes, d, q.st.changes, kind, id, id == own && kind == added)
            && q.sum.updated == p.sum.updated
  {
  }

  /** Finding the asset of an observation adds a change of this kind. */
  ghost predicate Touches(p: Progress, d: Delivery, o: Observation, kind: Kind) {
    var key := KeyOf(d, o.external);
    || (kind == Discovered && key !in p.st.bound)
    || (kind == Returned && key in p.st.bound && AssetAt(p.st.assets, NewAssetId(o.external)).status == Missing)
  }

  ghost predicate Contests(ss: seq<Sighting>, kind: Kind, id: string) {
    kind == Conflict && Contested(ss, id)
  }

  lemma TouchRows(p: Progress, d: Delivery, o: Observation, kind: Kind, id: string)
    requires Named(p.st.bound)
    ensures var q := Touch(p, d, o).0;
            var key, own := KeyOf(d, o.external), NewAssetId(o.external);
            && Grows(p.st.changes, d, q.st.changes)
            && Adds(p.st.changes, d, q.st.changes, kind, id, id == own && Touches(p, d, o, kind))
            && q.sum.updated == p.sum.updated + Bit(key in p.st.bound && AssetAt(p.st.assets, own).status == Missing)
  {
    hide AddChange, NewAssetId, AssetAt, ChangeAt, ChangeOf, KeyOf, Grows;
    var key := KeyOf(d, o.external);
    GrowsNot(p.st.changes, d);
    if key !in p.st.bound {
      var own := NewAssetId(o.external);
      var a := Asset(d.snapshot.org, o.assetType, Active, d.now, d.now, d.now);
      var q := Progress(p.st.(bound := p.st.bound[key := own], assets := p.st.assets[own := a]),
                        p.sum.(created := p.sum.created + 1));
      AddChangeRows(q, d, own, Discovered, ChangeOf(d, Nothing, OfAsset(a)), kind, id);
    } else {
      var own := p.st.bound[key];
      assert own == NewAssetId(o.external) by { KeyNames(d, o); }
      var a := AssetAt(p.st.assets, own);
      var st := p.st.(assets := p.st.assets[own := a.(lastSeen := d.now, updated := d.now, status := Active)]);
      AddChangeRows(p.(st := st), d, own, Returned, ChangeOf(d, OfStatus(Missing), OfStatus(Active)), kind, id);
    }
  }

  lemma KeyNames(d: Delivery, o: Observation)
    ensures KeyOf(d, o.external).external == o.external
  {
  }

  lemma StatingRows(p: Progress, d: Delivery, o: Observation, own: string, kind: Kind, id: string)
    ensures var q := StateAttributes(p, d, o, own, o.attributes.Keys);
            && Grows(p.st.changes, d, q.st.changes)
            && Adds(p.st.changes, d, q.st.changes, kind, id,
                    id == own && kind == Conflict && Conflicts(p.st.claims, d, o, own, o.attributes.Keys) != {})
            && q.sum.updated == p.sum.updated
  {
    hide StateClaims, Conflicts, SetConflicting, ChangeOf;
  }

  lemma GrowsOn(a: map<ChangeKey, Change>, d: Delivery, b: map<ChangeKey, Change>, c: map<ChangeKey, Change>)
    requires Grows(a, d, b) && Grows(b, d, c)
    ensures Grows(a, d, c)
  {
  }

  lemma GrowsNot(changes: map<ChangeKey, Change>, d: Delivery)
    ensures Grows(changes, d, changes)
  {
  }

  /** The rows and returns of one observation. */
  lemma ObserveRows(p: Progress, d: Delivery, o: Observation, ss: seq<Sighting>, kind: Kind, id: string)
    requires Named(p.st.bound) && ClaimsMatch(p.st.claims, ss)
    ensures var q := Observe(p, d, o);
            var key, own := KeyOf(d, o.external), NewAssetId(o.external);
            var back := key in p.st.bound && AssetAt(p.st.assets, own).status == Missing;
            && Grows(p.st.changes, d, q.st.changes)
            && Adds(p.st.changes, d, q.st.changes, kind, id,
                    id == own && (|| Touches(p, d, o, kind)
                                  || Contests(ss + [Sighting(d.snapshot.connector, o)], kind, own)))
            && q.sum.updated == p.sum.updated + Bit(back)
  {
    hide Touch, StateAttributes, NewAssetId, AssetAt, ClaimsMatch, Contested, Conflicts, Named, Grows, KeyOf;
    TouchKeeps(p, d, o);
    TouchAssets(p, d, o);
    TouchRows(p, d, o, kind, id);
    var (q, own) := Touch(p, d, o);
    var r := q.(st := q.st.(absences := q.st.absences[KeyOf(d, o.external) := 0]));
    StatingRows(r, d, o, own, kind, id);
    GrowsOn(p.st.changes, d, r.st.changes, Observe(p, d, o).st.changes);
    ConflictsIffContested(p.st.claims, ss, d, o);
  }

  /** An identity of the asset is new in `after`. */
  ghost predicate NewKey(before: map<Key, string>, after: map<Key, string>, id: string) {
    exists k :: k in after && k !in before && NewAssetId(k.external) == id
  }

  /** A MISSING asset whose first observation is of a bound identity. */
  ghost predicate ReturnsBy(st: State, d: Delivery, n: nat, id: string) {
    && AssetAt(st.assets, id).status == Missing
    && exists i :: i < n && FirstOf(d, i, id) && KeyOf(d, d.snapshot.assets[i].external) in st.bound
  }

  /** The rows of the first `n` observations. */
  ghost predicate RowsBy(p: Progress, d: Delivery, n: nat, ss: seq<Sighting>, q: Progress, kind: Kind, id: string)
    requires n <= |d.snapshot.assets|
  {
    Adds(p.st.changes, d, q.st.changes, kind, id,
         || (kind == Discovered && NewKey(p.st.bound, q.st.bound, id))
         || (kind == Returned && ReturnsBy(p.st, d, n, id))
         || (kind == Conflict && ContestedBy(ss, d, n, id)))
  }

  lemma {:induction false} ObserveAllRows(p: Progress, d: Delivery, n: nat, ss: seq<Sighting>, kind: Kind, id: string)
    requires n <= |d.snapshot.assets| && Named(p.st.bound) && ClaimsMatch(p.st.claims, ss)
    ensures Grows(p.st.changes, d, ObserveAll(p, d, n).st.changes) && RowsBy(p, d, n, ss, ObserveAll(p, d, n), kind, id)
  {
    hide Observe, Named, ClaimsMatch, Contested, Grows, RowsBy, StatusStep, NewAssetId;
    if n == 0 {
      NoRowsBy(p, d, ss, kind, id);
      GrowsNot(p.st.changes, d);
    } else {
      var o, before := d.snapshot.assets[n - 1], ss + SightingsOf(d, n - 1);
      ObserveAllRows(p, d, n - 1, ss, kind, id);
      ObserveAllStatus(p, d, n - 1, ss);
      var q := ObserveAll(p, d, n - 1);
      ObserveRows(q, d, o, before, kind, id);
      GrowsOn(p.st.changes, d, q.st.changes, Observe(q, d, o).st.changes);
      ObserveKeeps(q, d, o);
      ObserveAllKeeps(p, d, n - 1, KeyOf(d, o.external));
      assert before + [Sighting(d.snapshot.connector, o)] == ss + SightingsOf(d, n);
      assert StatusStep(p.st.assets, d, n - 1, before, q.st.assets, NewAssetId(o.external));
      NextRows(p, d, n - 1, ss, q, Observe(q, d, o), kind, id);
    }
  }

  lemma NoRowsBy(p: Progress, d: Delivery, ss: seq<Sighting>, kind: Kind, id: string)
    ensures RowsBy(p, d, 0, ss, p, kind, id)
  {
    hide NewAssetId, Contested;
  }

  /** Before observation `n` of a delivery. */
  ghost predicate Ready(p: Progress, d: Delivery, n: nat, ss: seq<Sighting>, q: Progress)
    requires n < |d.snapshot.assets|
  {
    var key, own := KeyOf(d, d.snapshot.assets[n].external), NewAssetId(d.snapshot.assets[n].external);
    && (key in q.st.bound <==> key in p.st.bound || key in SeenKeys(d, n))
    && StatusStep(p.st.assets, d, n, ss + SightingsOf(d, n), q.st.assets, own)
  }

  /** An observation of a MISSING asset with a bound identity is the first one, and conversely. */
  lemma ReturnStep(p: Progress, d: Delivery, n: nat, ss: seq<Sighting>, q: Progress)
    requires n < |d.snapshot.assets| && Ready(p, d, n, ss, q)
    ensures var key, own := KeyOf(d, d.snapshot.assets[n].external), NewAssetId(d.snapshot.assets[n].external);
            key in q.st.bound && AssetAt(q.st.assets, own).status == Missing <==>
            FirstOf(d, n, own) && key in p.st.bound && AssetAt(p.st.assets, own).status == Missing
  {
    hide Contested, NewAssetId, SightingsOf;
    var key, own := KeyOf(d, d.snapshot.assets[n].external), NewAssetId(d.snapshot.assets[n].external);
    if key in SeenKeys(d, n) {
      assert ObservesBy(d, n, own) by { SeenBefore(d, n, key); }
    }
  }

  lemma SeenBefore(d: Delivery, n: nat, k: Key)
    requires n <= |d.snapshot.assets| && k in SeenKeys(d, n)
    ensures ObservesBy(d, n, NewAssetId(k.external))
  {
    hide NewAssetId;
  }

  lemma NextRows(p: Progress, d: Delivery, n: nat, ss: seq<Sighting>, q: Progress, r: Progress, kind: Kind, id: string)
    requires n < |d.snapshot.assets| && RowsBy(p, d, n, ss, q, kind, id) && Ready(p, d, n, ss, q)
    requires var o := d.snapshot.assets[n];
             var key, own := KeyOf(d, o.external), NewAssetId(o.external);
             && r.st.bound == (if key in q.st.bound then q.st.bound else q.st.bound[key := own])
             && Adds(q.st.changes, d, r.st.changes, kind, id,
                     id == own && (Touches(q, d, o, kind) || Contests(ss + SightingsOf(d, n + 1), kind, own)))
    ensures RowsBy(p, d, n + 1, ss, r, kind, id)
  {
    hide Contested, NewAssetId, SightingsOf, StatusStep, ObservesBy, SeenKeys;
    var key, own := KeyOf(d, d.snapshot.assets[n].external), NewAssetId(d.snapshot.assets[n].external);
    match kind {
      case Discovered =>
        NewKeyStep(p.st.bound, q.st.bound, key, id);
      case Returned =>
        ReturnStep(p, d, n, ss, q);
        ReturnsStep(p.st, d, n, id);
      case Conflict =>
        ContestedStep(ss, d, n, id);
      case _ =>
    }
  }

  lemma NewKeyStep(before: map<Key, string>, now: map<Key, string>, key: Key, id: string)
    requires key !in now ==> key !in before
    ensures var after := if key in now then now else now[key := NewAssetId(key.external)];
            NewKey(before, after, id) <==> NewKey(before, now, id) || (key !in now && NewAssetId(key.external) == id)
  {
    hide NewAssetId;
    var after := if key in now then now else now[key := NewAssetId(key.external)];
    if NewKey(before, now, id) {
      var k :| k in now && k !in before && NewAssetId(k.external) == id;
      assert k in after;
    }
    if key !in now && NewAssetId(key.external) == id {
      assert key in after && key !in before;
    }
  }

  lemma ReturnsStep(st: State, d: Delivery, n: nat, id: string)
    requires n < |d.snapshot.assets|
    ensures ReturnsBy(st, d, n + 1, id) <==>
            || ReturnsBy(st, d, n, id)
            || (FirstOf(d, n, id) && KeyOf(d, d.snapshot.assets[n].external) in st.bound
                && AssetAt(st.assets, id).status == Missing)
  {
    hide AssetAt, ObservesBy, NewAssetId;
    if ReturnsBy(st, d, n, id) {
      var i :| i < n && FirstOf(d, i, id) && KeyOf(d, d.snapshot.assets[i].external) in st.bound;
      assert i < n + 1;
    }
  }

  lemma ContestedStep(ss: seq<Sighting>, d: Delivery, n: nat, id: string)
    requires n < |d.snapshot.assets|
    ensures ContestedBy(ss, d, n + 1, id) <==> ContestedBy(ss, d, n, id) || ContestedAt(ss, d, n, id)
  {
    hide ContestedAt;
  }

  /** The assets that return within the first `n` observations. */
  ghost function ReturnedSet(st: State, d: Delivery, n: nat): set<string>
    requires n <= |d.snapshot.assets|
  {
    set i | 0 <= i < n && ReturnsAt(st, d, i) :: NewAssetId(d.snapshot.assets[i].external)
  }

  ghost predicate ReturnsAt(st: State, d: Delivery, i: nat)
    requires i < |d.snapshot.assets|
  {
    var key, own := KeyOf(d, d.snapshot.assets[i].external), NewAssetId(d.snapshot.assets[i].external);
    FirstOf(d, i, own) && key in st.bound && AssetAt(st.assets, own).status == Missing
  }

  lemma ReturnedStep(st: State, d: Delivery, n: nat)
    requires n < |d.snapshot.assets|
    ensures |ReturnedSet(st, d, n + 1)| == |ReturnedSet(st, d, n)| + Bit(ReturnsAt(st, d, n))
  {
    hide NewAssetId, AssetAt;
    var own := NewAssetId(d.snapshot.assets[n].external);
    if ReturnsAt(st, d, n) {
      assert own !in ReturnedSet(st, d, n);
      assert ReturnedSet(st, d, n + 1) == ReturnedSet(st, d, n) + {own} by { hide ReturnsAt; }
    } else {
      assert ReturnedSet(st, d, n + 1) == ReturnedSet(st, d, n) by { hide ReturnsAt; }
    }
  }

  lemma {:induction false} UpdatedCount(p: Progress, d: Delivery, n: nat, ss: seq<Sighting>)
    requires n <= |d.snapshot.assets| && Named(p.st.bound) && ClaimsMatch(p.st.claims, ss)
    ensures ObserveAll(p, d, n).sum.updated == p.sum.updated + |ReturnedSet(p.st, d, n)|
  {
    hide Observe, Named, ClaimsMatch, Contested, Grows, StatusStep, NewAssetId, ReturnedSet;
    if n == 0 {
      NoneReturned(p.st, d);
    } else {
      var o, before := d.snapshot.assets[n - 1], ss + SightingsOf(d, n - 1);
      UpdatedCount(p, d, n - 1, ss);
      ObserveAllStatus(p, d, n - 1, ss);
      var q := ObserveAll(p, d, n - 1);
      ObserveRows(q, d, o, before, Returned, "");
      ObserveAllKeeps(p, d, n - 1, KeyOf(d, o.external));
      assert StatusStep(p.st.assets, d, n - 1, before, q.st.assets, NewAssetId(o.external));
      ReturnStep(p, d, n - 1, ss, q);
      ReturnedStep(p.st, d, n - 1);
    }
  }

  lemma NoneReturned(st: State, d: Delivery)
    ensures ReturnedSet(st, d, 0) == {}
  {
  }

  lemma ReturnedIff(st: State, d: Delivery, id: string)
    ensures id in ReturnedSet(st, d, |d.snapshot.assets|) <==> ReturnsBy(st, d, |d.snapshot.assets|, id)
  {
    hide NewAssetId, AssetAt, ObservesBy;
    if ReturnsBy(st, d, |d.snapshot.assets|, id) {
      var i :| i < |d.snapshot.assets| && FirstOf(d, i, id) && KeyOf(d, d.snapshot.assets[i].external) in st.bound;
      assert ReturnsAt(st, d, i);
    }
  }

  // ---------- relationships and absences ----------

  /** A relationship that leaves the asset is new in `after`. */
  ghost predicate NewRel(before: map<RelKey, Relationship>, after: map<RelKey, Relationship>, id: string) {
    exists k :: k in after && k !in before && k.from == id
  }

  ghost predicate FromKeys(relationships: map<RelKey, Relationship>) {
    forall k :: k in relationships ==> relationships[k].from == k.from
  }

  lemma RelateRows(p: Progress, d: Delivery, r: RelationshipObservation, kind: Kind, id: string)
    requires FromKeys(p.st.relationships)
    ensures var q := Relate(p, d, r);
            && FromKeys(q.st.relationships) && Grows(p.st.changes, d, q.st.changes)
            && q.sum.updated == p.sum.updated
            && Adds(p.st.changes, d, q.st.changes, kind, id,
                    kind == RelationshipAdded && NewRel(p.st.relationships, q.st.relationships, id))
  {
    hide Relate, RelKeyOf, Grows, NewRel, FromKeys, ChangeAt;
    RelateChanges(p, d, r, kind, id);
    match RelKeyOf(p.st, d, r) {
      case None =>
        RelateNone(p, d, r);
        NewRelNot(p.st.relationships, id);
      case Some(key) =>
        RelateOne(p, d, r, key);
        NewRelOne(p.st.relationships, key, Relate(p, d, r).st.relationships, id);
    }
  }

  lemma RelateChanges(p: Progress, d: Delivery, r: RelationshipObservation, kind: Kind, id: string)
    ensures var q := Relate(p, d, r);
            && Grows(p.st.changes, d, q.st.changes) && q.sum.updated == p.sum.updated
            && Adds(p.st.changes, d, q.st.changes, kind, id,
                    match RelKeyOf(p.st, d, r)
                    case None => false
                    case Some(key) => kind == RelationshipAdded && key !in p.st.relationships && key.from == id)
  {
    hide AddChange, ChangeAt, ChangeOf, RelKeyOf, Grows;
    GrowsNot(p.st.changes, d);
    match RelKeyOf(p.st, d, r) {
      case None =>
      case Some(key) =>
        if key !in p.st.relationships {
          var rel := Relationship(key.from, true, d.now, d.now, d.now);
          var q := Progress(p.st.(relationships := p.st.relationships[key := rel]),
                            p.sum.(relationshipsCreated := p.sum.relationshipsCreated + 1));
          AddChangeRows(q, d, key.from, RelationshipAdded, ChangeOf(d, Nothing, OfRelationship(rel)), kind, id);
        }
    }
  }

  lemma RelateNone(p: Progress, d: Delivery, r: RelationshipObservation)
    requires RelKeyOf(p.st, d, r) == None
    ensures Relate(p, d, r) == p
  {
  }

  lemma RelateOne(p: Progress, d: Delivery, r: RelationshipObservation, key: RelKey)
    requires FromKeys(p.st.relationships) && RelKeyOf(p.st, d, r) == Some(key)
    ensures var rels := Relate(p, d, r).st.relationships;
            key in rels && rels[key].from == key.from && rels == p.st.relationships[key := rels[key]]
  {
    hide AddChange, ChangeAt, ChangeOf, RelKeyOf;
    if key !in p.st.relationships {
      var rel := Relationship(key.from, true, d.now, d.now, d.now);
      var q := Progress(p.st.(relationships := p.st.relationships[key := rel]),
                        p.sum.(relationshipsCreated := p.sum.relationshipsCreated + 1));
      AddChangeKeeps(q, ChangeAt(d, key.from, RelationshipAdded), ChangeOf(d, Nothing, OfRelationship(rel)));
    }
  }

  lemma NewRelOne(rels: map<RelKey, Relationship>, key: RelKey, after: map<RelKey, Relationship>, id: string)
    requires FromKeys(rels) && key in after && after[key].from == key.from && after == rels[key := after[key]]
    ensures FromKeys(after)
    ensures NewRel(rels, after, id) <==> key !in rels && key.from == id
  {
    if key !in rels && key.from == id {
      assert key in after;
    }
  }

  lemma NewRelNot(rels: map<RelKey, Relationship>, id: string)
    ensures !NewRel(rels, rels, id)
  {
  }

  lemma {:induction false} RelateAllRows(p: Progress, d: Delivery, n: nat, kind: Kind, id: string)
    requires n <= |d.snapshot.relationships| && FromKeys(p.st.relationships)
    ensures var q := RelateAll(p, d, n);
            && FromKeys(q.st.relationships) && Grows(p.st.changes, d, q.st.changes)
            && q.sum.updated == p.sum.updated && p.st.relationships.Keys <= q.st.relationships.Keys
            && Adds(p.st.changes, d, q.st.changes, kind, id,
                    kind == RelationshipAdded && NewRel(p.st.relationships, q.st.relationships, id))
  {
    hide Relate, Grows, FromKeys, ChangeAt;
    GrowsNot(p.st.changes, d);
    if n > 0 {
      RelateAllRows(p, d, n - 1, kind, id);
      var q, o := RelateAll(p, d, n - 1), d.snapshot.relationships[n - 1];
      RelateRows(q, d, o, kind, id);
      var r := Relate(q, d, o);
      GrowsOn(p.st.changes, d, q.st.changes, r.st.changes);
      assert q.st.relationships.Keys <= r.st.relationships.Keys by {
        forall k | k in q.st.relationships ensures k in r.st.relationships {
          RelateKeeps(q, d, o, k);
        }
      }
      NewRelOn(p.st.relationships, q.st.relationships, r.st.relationships, id);
    }
  }

  lemma NewRelOn(a: map<RelKey, Relationship>, b: map<RelKey, Relationship>, c: map<RelKey, Relationship>, id: string)
    requires a.Keys <= b.Keys <= c.Keys
    ensures NewRel(a, c, id) <==> NewRel(a, b, id) || NewRel(b, c, id)
  {
    if NewRel(a, b, id) {
      var k :| k in b && k !in a && k.from == id;
      assert k in c;
    }
    if NewRel(b, c, id) {
      var k :| k in c && k !in b && k.from == id;
      assert k !in a;
    }
  }

  /** A relationship that leaves the asset is among `removed`. */
  ghost predicate Leaves(removed: set<RelKey>, id: string) {
    exists k :: k in removed && k.from == id
  }

  lemma RemoveRows(p: Progress, d: Delivery, removed: set<RelKey>, kind: Kind, id: string)
    requires FromKeys(p.st.relationships) && removed <= p.st.relationships.Keys
    ensures var q := RemoveRels(p, d, removed);
            && Grows(p.st.changes, d, q.st.changes) && q.sum.updated == p.sum.updated
            && Adds(p.st.changes, d, q.st.changes, kind, id, kind == RelationshipRemoved && Leaves(removed, id))
  {
    hide Leaves, RemovalKeys, WithRemovals, WithoutRels, Grows, ChangeAt;
    var keys := RemovalKeys(p.st.relationships, d, removed);
    RemovalKeysAre(p.st.relationships, d, removed, kind, id);
    RemovalRows(p.st.changes, d, keys);
    assert RemoveRels(p, d, removed).st.changes == WithRemovals(p.st.changes, d, keys);
  }

  lemma RemovalKeysAre(rels: map<RelKey, Relationship>, d: Delivery, removed: set<RelKey>, kind: Kind, id: string)
    requires FromKeys(rels) && removed <= rels.Keys
    ensures ChangeAt(d, id, kind) in RemovalKeys(rels, d, removed) <==>
            kind == RelationshipRemoved && Leaves(removed, id)
    ensures forall c :: c in RemovalKeys(rels, d, removed) ==> c.snapshot == d.snapshot.id
  {
    if kind == RelationshipRemoved && Leaves(removed, id) {
      var k :| k in removed && k.from == id;
      assert rels[k].from == id;
    }
  }

  lemma RemovalRows(changes: map<ChangeKey, Change>, d: Delivery, keys: set<ChangeKey>)
    requires forall c :: c in keys ==> c.snapshot == d.snapshot.id
    ensures Grows(changes, d, WithRemovals(changes, d, keys))
    ensures forall c :: c in WithRemovals(changes, d, keys) <==> c in changes || c in keys
  {
  }

  lemma MarkRows(p: Progress, d: Delivery, absent: set<Key>, kind: Kind, id: string)
    ensures var q := MarkAbsent(p, d, absent);
            && Grows(p.st.changes, d, q.st.changes) && q.sum.updated == p.sum.updated
            && Adds(p.st.changes, d, q.st.changes, kind, id, kind == WentMissing && id in Lost(p.st, d, absent))
  {
    hide Lost, CountAbsent, MarkLost, WithLosses, Grows, ChangeAt;
    var lost := Lost(p.st, d, absent);
    LossRows(p.st.changes, p.st.assets, d, lost, kind, id);
    assert MarkAbsent(p, d, absent).st.changes == WithLosses(p.st.changes, p.st.assets, d, lost);
  }

  lemma LossRows(changes: map<ChangeKey, Change>, assets: map<string, Asset>, d: Delivery, lost: set<string>,
                 kind: Kind, id: string)
    ensures Grows(changes, d, WithLosses(changes, assets, d, lost))
    ensures ChangeAt(d, id, kind) in WithLosses(changes, assets, d, lost) <==>
            ChangeAt(d, id, kind) in changes || (kind == WentMissing && id in lost)
  {
    assert ChangeAt(d, id, kind) in LossKeys(d, lost) <==> kind == WentMissing && id in lost;
    assert forall c :: c in LossKeys(d, lost) ==> c.snapshot == d.snapshot.id;
    hide LossKeys, LossChange;
  }

  /** The assets lost in the last step are those that were not MISSING until then. */
  lemma LostIff(q: Progress, d: Delivery, id: string)
    requires Kept(q.st)
    ensures id in Lost(q.st, d, Absent(q.st, d)) <==>
            && Reached(MarkAbsent(q, d, Absent(q.st, d)).st, d, id) && id in q.st.assets
            && q.st.assets[id].status != Missing
  {
    hide SeenKeys, WithLosses, LossKeys, Reports;
    var u := MarkAbsent(q, d, Absent(q.st, d)).st;
    forall k: Key ensures k in Absent(q.st, d) <==> k in q.st.bound && Owns(d, k) && !Reports(d, k) {
      SeenIsReported(d, k);
    }
    hide Absent;
    if Reached(u, d, id) {
      var k :| k in u.bound && u.bound[k] == id && Owns(d, k) && !Reports(d, k)
               && AbsencesAt(u.absences, k) >= Threshold(d.threshold);
      assert k in Absent(q.st, d);
    }
    if id in Lost(q.st, d, Absent(q.st, d)) {
      var k :| k in Absent(q.st, d) && k in q.st.bound && q.st.bound[k] == id
               && AbsencesAt(q.st.absences, k) + 1 >= Threshold(d.threshold);
      assert AbsencesAt(u.absences, k) >= Threshold(d.threshold);
    }
  }

  // ---------- one delivery ----------

  /** The states that a delivery goes through. */
  function AfterAssets(st: State, d: Delivery): Progress {
    ObserveAll(Progress(st, ZERO_SUMMARY), d, |d.snapshot.assets|)
  }

  function AfterRelationships(st: State, d: Delivery): Progress {
    RelateAll(AfterAssets(st, d), d, |d.snapshot.relationships|)
  }

  function RemovedBy(st: State, d: Delivery): set<RelKey> {
    var q := AfterRelationships(st, d);
    Unlisted(q.st, d, SeenRels(q.st, d, |d.snapshot.relationships|))
  }

  function AfterRemovals(st: State, d: Delivery): Progress {
    RemoveRels(AfterRelationships(st, d), d, RemovedBy(st, d))
  }

  lemma Phases(st: State, d: Delivery)
    ensures var r := AfterRemovals(st, d);
            ApplySucceeded(st, d) == MarkAbsent(r, d, Absent(r.st, d))
    ensures RemovedBy(st, d) <= AfterRelationships(st, d).st.relationships.Keys
  {
    hide ObserveAll, RelateAll, RemoveRels, MarkAbsent, SeenRels, Absent;
  }

  /** Which change of the delivery each phase adds. */
  ghost predicate AddsOf(st: State, d: Delivery, ss: seq<Sighting>, kind: Kind, id: string) {
    match kind
    case Discovered => NewKey(st.bound, AfterAssets(st, d).st.bound, id)
    case Returned => ReturnsBy(st, d, |d.snapshot.assets|, id)
    case Conflict => ContestedBy(ss, d, |d.snapshot.assets|, id)
    case RelationshipAdded => NewRel(st.relationships, AfterRelationships(st, d).st.relationships, id)
    case RelationshipRemoved => Leaves(RemovedBy(st, d), id)
    case WentMissing => id in Lost(AfterRemovals(st, d).st, d, Absent(AfterRemovals(st, d).st, d))
  }

  lemma DeliveryRows(st: State, d: Delivery, ss: seq<Sighting>, kind: Kind, id: string)
    requires Named(st.bound) && ClaimsMatch(st.claims, ss) && FromKeys(st.relationships)
    ensures var u := ApplySucceeded(st, d);
            && FromKeys(AfterRelationships(st, d).st.relationships) && Grows(st.changes, d, u.st.changes)
            && Adds(st.changes, d, u.st.changes, kind, id, AddsOf(st, d, ss, kind, id))
            && u.sum.updated == |ReturnedSet(st, d, |d.snapshot.assets|)|
  {
    hide ObserveAll, RelateAll, RemoveRels, MarkAbsent, Grows, FromKeys, Named, ClaimsMatch, NewKey, ReturnsBy,
      ContestedBy, NewRel, Leaves, Lost, Absent, RemovedBy, ApplySucceeded, ReturnedSet, ChangeAt;
    var start, n := Progress(st, ZERO_SUMMARY), |d.snapshot.assets|;
    var p, q, r := AfterAssets(st, d), AfterRelationships(st, d), AfterRemovals(st, d);
    ObserveAllRows(start, d, n, ss, kind, id);
    ObserveAllKeeps(start, d, n, Key("", "", ""));
    UpdatedCount(start, d, n, ss);
    RelateAllRows(p, d, |d.snapshot.relationships|, kind, id);
    GrowsOn(st.changes, d, p.st.changes, q.st.changes);
    Phases(st, d);
    RemoveRows(q, d, RemovedBy(st, d), kind, id);
    GrowsOn(st.changes, d, q.st.changes, r.st.changes);
    MarkRows(r, d, Absent(r.st, d), kind, id);
    GrowsOn(st.changes, d, r.st.changes, ApplySucceeded(st, d).st.changes);
  }

  // ---------- runs ----------

  lemma {:induction false} RunFromKeys(ds: seq<Delivery>)
    ensures FromKeys(Run(ds).relationships)
    ensures forall c :: c in Run(ds).changes ==> Delivered(ds, c.snapshot)
  {
    hide Run, Applied, ApplySucceeded, FromKeys, Delivered, ClaimsMatch, AssetIs;
    if ds == [] {
      NoKeys();
    } else {
      var n := |ds| - 1;
      var st, d := Run(ds[..n]), ds[n];
      RunFromKeys(ds[..n]);
      RunSnoc(ds);
      forall id: string ensures Delivered(ds, id) <==> Delivered(ds[..n], id) || id == d.snapshot.id {
        DeliveredSnoc(ds, id);
      }
      if d.succeeded && !Delivered(ds[..n], d.snapshot.id) {
        AssetStates(ds[..n]);
        KeptAfter(ds[..n], d);
        DeliveryRows(st, d, Sightings(Applied(ds[..n])), Discovered, "");
        FromKeysAfter(st, d);
        assert Run(ds).changes == ApplySucceeded(st, d).st.changes;
        forall c | c in Run(ds).changes ensures Delivered(ds, c.snapshot) {
          assert c in st.changes || c.snapshot == d.snapshot.id;
        }
      } else {
        assert Run(ds).relationships == st.relationships && Run(ds).changes == st.changes by { SameTables(ds, st); }
      }
    }
  }

  lemma SameTables(ds: seq<Delivery>, st: State)
    requires Run(ds).(processed := map[]) == st.(processed := map[])
    ensures Run(ds).relationships == st.relationships && Run(ds).changes == st.changes
  {
    hide Run;
  }

  lemma NoKeys()
    ensures Run([]) == EMPTY && FromKeys(EMPTY.relationships)
  {
  }

  lemma FromKeysAfter(st: State, d: Delivery)
    requires FromKeys(AfterRelationships(st, d).st.relationships)
    ensures FromKeys(ApplySucceeded(st, d).st.relationships)
  {
    hide ObserveAll, RelateAll, Unlisted, Absent, Lost, SeenRels, WithRemovals, RemovalKeys, WithLosses, MarkLost,
      CountAbsent, LossKeys;
  }

  /** What the deliveries `h` and then `d` say about a change of an asset. */
  ghost predicate Records(h: seq<Delivery>, d: Delivery, kind: Kind, id: string) {
    match kind
    case Discovered => NewlyReported(h, d, id)
    case Returned => Gone(h, id) && FirstIsKnown(h, d, id)
    case Conflict => ContestedBy(Sightings(h), d, |d.snapshot.assets|, id)
    case WentMissing => Loses(h + [d], id) && !(Gone(h, id) && !Observes(d, id))
    case RelationshipAdded => exists k: RelKey :: k.from == id && Starts(h, d, k)
    case RelationshipRemoved => exists k: RelKey :: k.from == id && Stops(h, d, k)
  }

  /** The delivery is the first to list the relationship. */
  ghost predicate Starts(h: seq<Delivery>, d: Delivery, k: RelKey) {
    Relates(h + [d], |h|, k) && !EverRelated(h, k)
  }

  /** The connector's last delivery lists the relationship and this one does not. */
  ghost predicate Stops(h: seq<Delivery>, d: Delivery, k: RelKey) {
    LastRelates(h, k) && OwnsRel(d, k) && !Relates(h + [d], |h|, k)
  }

  /** The assets with a change of this kind from the snapshot. */
  ghost function RowsOf(changes: map<ChangeKey, Change>, d: Delivery, kind: Kind): set<string> {
    set c | c in changes && c.snapshot == d.snapshot.id && c.kind == kind :: c.asset
  }

  /** A successful delivery with a new identifier, after the deliveries `ds`. */
  lemma OneMore(ds: seq<Delivery>, d: Delivery)
    requires d.succeeded && !Delivered(ds, d.snapshot.id)
    ensures Run(ds + [d]) == Process(ApplySucceeded(Run(ds), d).st, d) && Applied(ds + [d]) == Applied(ds) + [d]
    ensures ClaimsMatch(Run(ds).claims, Sightings(Applied(ds))) && Named(Run(ds).bound)
    ensures FromKeys(Run(ds).relationships)
    ensures Kept(AfterAssets(Run(ds), d).st)
  {
    hide Run, Applied, ApplySucceeded, Delivered, ClaimsMatch, Named, FromKeys, Kept, AssetIs;
    assert (ds + [d])[..|ds|] == ds;
    RunSnoc(ds + [d]);
    AssetStates(ds);
    KeptAfter(ds, d);
    RunFromKeys(ds);
  }

  lemma DiscoveredIff(ds: seq<Delivery>, d: Delivery, id: string)
    ensures NewKey(Run(ds).bound, AfterAssets(Run(ds), d).st.bound, id) <==> NewlyReported(Applied(ds), d, id)
  {
    hide Run, Applied, ObserveAll, NewAssetId, EverReported, Reports;
    var st := Run(ds);
    forall k
      ensures k in st.bound <==> EverReported(Applied(ds), k)
      ensures k in AfterAssets(st, d).st.bound <==> k in st.bound || Reports(d, k)
    {
      AbsenceCounters(ds, k);
      ObserveAllKeeps(Progress(st, ZERO_SUMMARY), d, |d.snapshot.assets|, k);
      SeenIsReported(d, k);
    }
  }

  /** A bound identity has an asset with the status that the deliveries lead to. */
  lemma BoundStatus(ds: seq<Delivery>, k: Key)
    ensures k in Run(ds).bound <==> EverReported(Applied(ds), k)
    ensures k in Run(ds).bound ==>
              (AssetAt(Run(ds).assets, NewAssetId(k.external)).status == Missing <==>
               Gone(Applied(ds), NewAssetId(k.external)))
  {
    hide Run, Applied, NewAssetId, EverReported, Gone, Contested, Sightings, Sighted;
    AbsenceCounters(ds, k);
    AssetStates(ds);
    if k in Run(ds).bound {
      ReportedIsSighted(Applied(ds), k);
      assert AssetIs(Run(ds).assets, Applied(ds), NewAssetId(k.external));
    }
  }

  lemma ReturnsIff(ds: seq<Delivery>, d: Delivery, id: string)
    ensures ReturnsBy(Run(ds), d, |d.snapshot.assets|, id) <==>
            Gone(Applied(ds), id) && FirstIsKnown(Applied(ds), d, id)
  {
    hide Run, Applied, NewAssetId, EverReported, Gone, AssetAt, ObservesBy;
    forall i | FirstOf(d, i, id)
      ensures var key := KeyOf(d, d.snapshot.assets[i].external);
              && (key in Run(ds).bound <==> EverReported(Applied(ds), key))
              && (key in Run(ds).bound ==> (AssetAt(Run(ds).assets, id).status == Missing <==> Gone(Applied(ds), id)))
    {
      BoundStatus(ds, KeyOf(d, d.snapshot.assets[i].external));
    }
    if Gone(Applied(ds), id) && FirstIsKnown(Applied(ds), d, id) {
      var i :| FirstOf(d, i, id) && EverReported(Applied(ds), KeyOf(d, d.snapshot.assets[i].external));
      assert i < |d.snapshot.assets|;
    }
  }

  lemma WentMissingIff(ds: seq<Delivery>, d: Delivery, id: string)
    requires d.succeeded && !Delivered(ds, d.snapshot.id)
    ensures AddsOf(Run(ds), d, Sightings(Applied(ds)), WentMissing, id) <==>
            Records(Applied(ds), d, WentMissing, id)
  {
    hide Run, Applied, ApplySucceeded, Delivered, ClaimsMatch, Named, Kept, ObserveAll, RelateAll, MarkAbsent, Lost,
      Absent, Reached, Loses, Gone, Contested, Sightings, SightingsOf, NewAssetId, RemovedBy, FromKeys;
    var st, h := Run(ds), Applied(ds);
    var p, r := AfterAssets(st, d), AfterRemovals(st, d);
    OneMore(ds, d);
    Phases(st, d);
    assert r.st.bound == p.st.bound && r.st.assets == p.st.assets by { SameAssets(st, d); }
    KeptSame(p.st, r.st);
    LostIff(r, d, id);
    ReachedIffLoses(ds + [d], h, d, ApplySucceeded(st, d).st, id);
    AssetStates(ds);
    ObserveAllStatus(Progress(st, ZERO_SUMMARY), d, |d.snapshot.assets|, Sightings(h));
    assert StatusStep(st.assets, d, |d.snapshot.assets|, Sightings(h) + SightingsOf(d, |d.snapshot.assets|),
                      p.st.assets,
                      id);
    assert AssetIs(st.assets, h, id);
    assert Observes(d, id) <==> ObservesBy(d, |d.snapshot.assets|, id);
    if Loses(h + [d], id) {
      LosesKnown(ds, d, id);
    }
  }

  lemma SameAssets(st: State, d: Delivery)
    ensures AfterRemovals(st, d).st.bound == AfterAssets(st, d).st.bound
    ensures AfterRemovals(st, d).st.assets == AfterAssets(st, d).st.assets
  {
    hide ObserveAll, RelateAll, RemovedBy, WithoutRels, WithRemovals, RemovalKeys;
    RelateAllKeeps(AfterAssets(st, d), d, |d.snapshot.relationships|, RelKey("", "", "", "", ""));
  }

  /** A lost asset has been observed. */
  lemma LosesKnown(ds: seq<Delivery>, d: Delivery, id: string)
    requires d.succeeded && !Delivered(ds, d.snapshot.id) && Loses(Applied(ds) + [d], id)
    ensures id in AfterAssets(Run(ds), d).st.assets
  {
    hide Run, Applied, ApplySucceeded, Delivered, ObserveAll, AbsencesSince, NewAssetId, EverReported, ClaimsMatch,
      Named, FromKeys;
    var h := Applied(ds) + [d];
    OneMore(ds, d);
    var k :| Expires(h, k, id);
    AbsenceCounters(ds + [d], k);
    AppliedStatus(Run(ds), d, id);
  }

  lemma StartsIff(ds: seq<Delivery>, d: Delivery, k: RelKey)
    requires d.succeeded && !Delivered(ds, d.snapshot.id)
    ensures var st := Run(ds);
            k in AfterRelationships(st, d).st.relationships && k !in st.relationships <==> Starts(Applied(ds), d, k)
  {
    hide Run, Applied, ApplySucceeded, Delivered, ObserveAll, RelateAll, EverRelated, Relates, SeenRels, ClaimsMatch,
      Named, FromKeys, Kept;
    var st, m := Run(ds), |d.snapshot.relationships|;
    var p, u := AfterAssets(st, d), ApplySucceeded(st, d).st;
    OneMore(ds, d);
    ObserveAllKeeps(Progress(st, ZERO_SUMMARY), d, |d.snapshot.assets|, Key("", "", ""));
    RelateAllKeeps(p, d, m, k);
    AppliedStatus(st, d, "");
    InMemoryStore.SeenRelsSame(p.st, u, d, m);
    SeenHere(ds + [d], Applied(ds), d, u, k);
    RelationshipStates(ds, k);
  }

  lemma StopsIff(ds: seq<Delivery>, d: Delivery, k: RelKey)
    requires d.succeeded && !Delivered(ds, d.snapshot.id)
    ensures k in Dropped(Run(ds), ApplySucceeded(Run(ds), d).st) <==> Stops(Applied(ds), d, k)
  {
    hide Run, Applied, ApplySucceeded, Delivered, EverRelated, LastRelates, Relates, ClaimsMatch, Named, FromKeys, Kept;
    var h := Applied(ds);
    OneMore(ds, d);
    RelationshipStates(ds, k);
    RelationshipStates(ds + [d], k);
    EverRelatedSnoc(h, d, k);
    LastRelatesSnoc(h, d, k);
    if LastRelates(h, k) {
      LastIsSome(h, k);
    }
  }

  lemma LastIsSome(h: seq<Delivery>, k: RelKey)
    requires LastRelates(h, k)
    ensures EverRelated(h, k)
  {
    hide Relates;
  }

  lemma RelationshipRows(ds: seq<Delivery>, d: Delivery, id: string)
    requires d.succeeded && !Delivered(ds, d.snapshot.id)
    ensures var st, h := Run(ds), Applied(ds);
            && (NewRel(st.relationships, AfterRelationships(st, d).st.relationships, id) <==>
                Records(h, d, RelationshipAdded, id))
            && (Leaves(RemovedBy(st, d), id) <==> Records(h, d, RelationshipRemoved, id))
  {
    hide Run, Applied, ApplySucceeded, Delivered, AfterRelationships, Dropped, Starts, Stops;
    var st, h := Run(ds), Applied(ds);
    assert RemovedBy(st, d) == Dropped(st, ApplySucceeded(st, d).st) by {
      RemovedAreDropped(st, d);
      RemovedByIs(st, d);
    }
    hide RemovedBy;
    forall k: RelKey
      ensures k in AfterRelationships(st, d).st.relationships && k !in st.relationships <==> Starts(h, d, k)
      ensures k in RemovedBy(st, d) <==> Stops(h, d, k)
    {
      StartsIff(ds, d, k);
      StopsIff(ds, d, k);
    }
    if Records(h, d, RelationshipAdded, id) {
      var k: RelKey :| k.from == id && Starts(h, d, k);
      assert k in AfterRelationships(st, d).st.relationships;
    }
    if Records(h, d, RelationshipRemoved, id) {
      var k: RelKey :| k.from == id && Stops(h, d, k);
      assert k in RemovedBy(st, d);
    }
  }

  lemma RemovedByIs(st: State, d: Delivery)
    ensures var p := ObserveAll(Progress(st, ZERO_SUMMARY), d, |d.snapshot.assets|);
            var q := RelateAll(p, d, |d.snapshot.relationships|);
            RemovedBy(st, d) == Unlisted(q.st, d, SeenRels(q.st, d, |d.snapshot.relationships|))
  {
    hide ObserveAll, RelateAll, Unlisted, SeenRels;
  }

  /** A delivery that is applied after any others records exactly these changes, and keeps all
      earlier ones: ASSET_DISCOVERED where an identity is reported for the first time,
      ASSET_RETURNED where a MISSING asset is first observed under a known identity,
      SOURCE_CONFLICT where connectors disagree after one of its observations, ASSET_MISSING where
      it loses an asset that was not MISSING, RELATIONSHIP_ADDED and RELATIONSHIP_REMOVED where it
      is the first to list a relationship and where it stops listing one. */
  lemma ChangesAre(ds: seq<Delivery>, d: Delivery, kind: Kind, id: string)
    requires d.succeeded && !Delivered(ds, d.snapshot.id)
    ensures ChangeAt(d, id, kind) in Run(ds + [d]).changes <==> Records(Applied(ds), d, kind, id)
    ensures Grows(Run(ds).changes, d, Run(ds + [d]).changes)
  {
    hide Run, Applied, ApplySucceeded, Delivered, ClaimsMatch, Named, FromKeys, Kept, Grows, NewKey, ReturnsBy,
      ContestedBy, NewRel, Leaves, Lost, Absent, RemovedBy, Sightings, Gone, Loses, Starts, Stops, NewlyReported,
      FirstIsKnown, AfterAssets, AfterRelationships, AfterRemovals, Observes;
    OneMore(ds, d);
    DeliveryRows(Run(ds), d, Sightings(Applied(ds)), kind, id);
    RunFromKeys(ds);
    assert ChangeAt(d, id, kind) !in Run(ds).changes;
    match kind {
      case Discovered => DiscoveredIff(ds, d, id);
      case Returned => ReturnsIff(ds, d, id);
      case Conflict =>
      case WentMissing => WentMissingIff(ds, d, id);
      case RelationshipAdded => RelationshipRows(ds, d, id);
      case RelationshipRemoved => RelationshipRows(ds, d, id);
    }
  }

  /** The updated counter counts the assets that return, the missing counter those that go. */
  lemma CountedRows(ds: seq<Delivery>, d: Delivery)
    requires d.succeeded && !Delivered(ds, d.snapshot.id)
    ensures var p := ApplySucceeded(Run(ds), d);
            && p.sum.updated == |RowsOf(p.st.changes, d, Returned)|
            && p.sum.missing == |RowsOf(p.st.changes, d, WentMissing)|
  {
    hide Run, Applied, ApplySucceeded, Delivered, ReturnedSet, Lost, Absent, AfterRemovals, RowsOf;
    var st, r := Run(ds), AfterRemovals(Run(ds), d);
    var u := ApplySucceeded(st, d);
    CountedIff(ds, d, "");
    assert RowsOf(u.st.changes, d, Returned) == ReturnedSet(st, d, |d.snapshot.assets|) by {
      forall id: string { CountedIff(ds, d, id); }
    }
    assert RowsOf(u.st.changes, d, WentMissing) == Lost(r.st, d, Absent(r.st, d)) by {
      forall id: string { CountedIff(ds, d, id); }
    }
    MissingCount(st, d);
  }

  lemma CountedIff(ds: seq<Delivery>, d: Delivery, id: string)
    requires d.succeeded && !Delivered(ds, d.snapshot.id)
    ensures var st, u, r := Run(ds), ApplySucceeded(Run(ds), d), AfterRemovals(Run(ds), d);
            && (id in RowsOf(u.st.changes, d, Returned) <==> id in ReturnedSet(st, d, |d.snapshot.assets|))
            && (id in RowsOf(u.st.changes, d, WentMissing) <==> id in Lost(r.st, d, Absent(r.st, d)))
            && u.sum.updated == |ReturnedSet(st, d, |d.snapshot.assets|)|
  {
    hide Run, Applied, ApplySucceeded, Delivered, ClaimsMatch, Named, FromKeys, Kept, Grows, Sightings, ReturnsBy,
      ReturnedSet, Lost, Absent, AfterRemovals, RowsOf;
    var st, ss, u := Run(ds), Sightings(Applied(ds)), ApplySucceeded(Run(ds), d);
    OneMore(ds, d);
    RunFromKeys(ds);
    DeliveryRows(st, d, ss, Returned, id);
    DeliveryRows(st, d, ss, WentMissing, id);
    ReturnedIff(st, d, id);
    RowIff(u.st.changes, d, Returned, id);
    RowIff(u.st.changes, d, WentMissing, id);
  }

  lemma RowIff(changes: map<ChangeKey, Change>, d: Delivery, kind: Kind, id: string)
    ensures id in RowsOf(changes, d, kind) <==> ChangeAt(d, id, kind) in changes
  {
  }

  lemma MissingCount(st: State, d: Delivery)
    ensures var r := AfterRemovals(st, d);
            ApplySucceeded(st, d).sum.missing == |Lost(r.st, d, Absent(r.st, d))|
  {
    hide ObserveAll, RelateAll, RemoveRels, MarkAbsent, Lost, Absent, RemovedBy, ApplySucceeded;
    var start := Progress(st, ZERO_SUMMARY);
    var q, r := AfterRelationships(st, d), AfterRemovals(st, d);
    ObserveAllBalance(start, d, |d.snapshot.assets|);
    RelateAllBalance(AfterAssets(st, d), d, |d.snapshot.relationships|);
    RemoveBalance(q, d, RemovedBy(st, d));
    Phases(st, d);
    MarkBalance(r, d, Absent(r.st, d));
  }
}
