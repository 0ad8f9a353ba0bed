/** Runs of in-memory deliveries, and the independence of one delivery from iteration orders. */
module InMemoryRuns {
  import opened Collections
  import opened Domain
  import opened InMemory
  import opened InMemoryConflicts
  import opened InMemoryStore

  // ---------- every iteration order gives the same result ----------

  /** `order` lists every key of `keys` once. */
  predicate Enumerates<T(==)>(order: seq<T>, keys: set<T>) {
    (forall i, j :: 0 <= i < j < |order| ==> order[i] != order[j]) && Elements(order) == keys
  }

  lemma EnumeratesPrefix<T>(order: seq<T>, keys: set<T>) returns (rest: set<T>)
    requires Enumerates(order, keys) && order != []
    ensures rest == keys - {order[|order| - 1]} && Enumerates(order[..|order| - 1], rest)
    ensures order[|order| - 1] in keys && rest + {order[|order| - 1]} == keys
  {
    var n := |order| - 1;
    rest := set k | k in order[..n];
    assert order == order[..n] + [order[n]];
    assert order[n] !in rest;
    assert (set k | k in order) == rest + {order[n]};
  }

  /** The attribute loop in a given order. */
  function StateInOrder(p: Progress, d: Delivery, o: Observation, id: string, order: seq<string>): Progress
    requires forall i :: 0 <= i < |order| ==> order[i] in o.attributes
  {
    if order == [] then p else StateOne(StateInOrder(p, d, o, id, order[..|order| - 1]), d, o, id, order[|order| - 1])
  }

  lemma {:induction false} AttributeOrderInvisible(p: Progress, d: Delivery, o: Observation, id: string,
                                                   order: seq<string>, keys: set<string>)
    requires keys <= o.attributes.Keys && Enumerates(order, keys)
    requires forall i :: 0 <= i < |order| ==> order[i] in o.attributes
    ensures StateInOrder(p, d, o, id, order) == StateAttributes(p, d, o, id, keys)
  {
    hide StateOne, StateAttributes, Enumerates;
    if order == [] {
      NothingToDo(order, keys);
      StateNone(p, d, o, id);
    } else {
      var n := |order| - 1;
      var rest := EnumeratesPrefix(order, keys);
      AttributeOrderInvisible(p, d, o, id, order[..n], rest);
      StateStep(p, d, o, id, rest, order[n]);
    }
  }

  lemma NothingToDo<T>(order: seq<T>, keys: set<T>)
    requires Enumerates(order, keys) && order == []
    ensures keys == {}
  {
  }

  /** The changes that the attribute loop leaves when it runs in a given order. */
  function NoteInOrder(changes: map<ChangeKey, Change>, claims: map<Slot, seq<Effective.Claim>>, d: Delivery,
                       o: Observation, id: string,
                       order: seq<string>): map<ChangeKey, Change>
    requires forall i :: 0 <= i < |order| ==> order[i] in o.attributes
  {
    if order == [] then changes
    else
      var n := |order| - 1;
      var effect := EffectOf(StateClaims(claims, d, o, id, Elements(order[..n])), d, o, id, order[n]);
      var before := NoteInOrder(changes, claims, d, o, id, order[..n]);
      if effect.conflict then AddTo(before, ChangeAt(d, id, Conflict), ChangeOf(d, Nothing, OfValue(effect.value)))
      else before
  }

  /** The first conflicting attribute in the order. */
  function FirstIn(claims: map<Slot, seq<Effective.Claim>>, d: Delivery, o: Observation, id: string, order: seq<string>)
    : Option<string>
    requires forall i :: 0 <= i < |order| ==> order[i] in o.attributes
  {
    if order == [] then None
    else
      var n := |order| - 1;
      var first := FirstIn(claims, d, o, id, order[..n]);
      if first.Some? then first else if EffectOf(claims, d, o, id, order[n]).conflict then Some(order[n]) else None
  }

  /** The order decides one thing: a new SOURCE_CONFLICT change records the effective value of the
      first conflicting attribute. */
  lemma {:induction false} FirstConflictIsRecorded(changes: map<ChangeKey, Change>,
                                                   claims: map<Slot, seq<Effective.Claim>>, d: Delivery,
                                                   o: Observation, id: string, order: seq<string>, keys: set<string>)
    requires keys <= o.attributes.Keys && Enumerates(order, keys)
    requires forall i :: 0 <= i < |order| ==> order[i] in o.attributes
    ensures var first := FirstIn(claims, d, o, id, order);
            && NoteInOrder(changes, claims, d, o, id, order) == Noting(changes, claims, d, o, id, first)
            && (first.None? <==> Conflicts(claims, d, o, id, keys) == {})
            && (first.Some? ==> first.value in o.attributes && first.value in Conflicts(claims, d, o, id, keys))
  {
    hide EffectOf, StateClaims, Conflicts, Enumerates, Elements;
    if order == [] {
      NothingToDo(order, keys);
      assert Conflicts(claims, d, o, id, {}) == {} by { ConflictsNone(claims, d, o, id); }
    } else {
      var n := |order| - 1;
      var rest := EnumeratesPrefix(order, keys);
      FirstConflictIsRecorded(changes, claims, d, o, id, order[..n], rest);
      assert Elements(order[..n]) == rest by { EnumeratedSet(order[..n], rest); }
      EffectStep(claims, d, o, id, rest, order[n]);
      ConflictsStep(claims, d, o, id, rest, order[n]);
    }
  }

  lemma EnumeratedSet<T>(order: seq<T>, keys: set<T>)
    requires Enumerates(order, keys)
    ensures Elements(order) == keys
  {
  }

  lemma ConflictsNone(claims: map<Slot, seq<Effective.Claim>>, d: Delivery, o: Observation, id: string)
    ensures Conflicts(claims, d, o, id, {}) == {}
  {
  }

  /** With at most one conflicting attribute, every order leaves the same changes. */
  lemma OneConflictNoOrder(changes: map<ChangeKey, Change>, claims: map<Slot, seq<Effective.Claim>>, d: Delivery,
                           o: Observation, id: string,
                           order: seq<string>, other: seq<string>, keys: set<string>)
    requires keys <= o.attributes.Keys && Enumerates(order, keys) && Enumerates(other, keys)
    requires |Conflicts(claims, d, o, id, keys)| <= 1
    requires (forall i :: 0 <= i < |order| ==> order[i] in o.attributes)
    requires forall i :: 0 <= i < |other| ==> other[i] in o.attributes
    ensures NoteInOrder(changes, claims, d, o, id, order) == NoteInOrder(changes, claims, d, o, id, other)
  {
    hide NoteInOrder, FirstIn, Conflicts, Enumerates, Noting;
    FirstConflictIsRecorded(changes, claims, d, o, id, order, keys);
    FirstConflictIsRecorded(changes, claims, d, o, id, other, keys);
    var a, b := FirstIn(claims, d, o, id, order), FirstIn(claims, d, o, id, other);
    if a.Some? && b.Some? {
      AtMostOne(Conflicts(claims, d, o, id, keys), a.value, b.value);
    }
  }

  // ---------- when the order shows ----------

  lemma {:induction false} SomeOrder<T>(keys: set<T>) returns (order: seq<T>)
    ensures Enumerates(order, keys)
    decreases |keys|
  {
    if keys == {} {
      order := [];
    } else {
      var k :| k in keys;
      var rest := SomeOrder(keys - {k});
      order := StartWith(k, keys, rest);
    }
  }

  lemma StartWith<T>(k: T, keys: set<T>, rest: seq<T>) returns (order: seq<T>)
    requires k in keys && Enumerates(rest, keys - {k})
    ensures Enumerates(order, keys) && order == [k] + rest
  {
    order := [k] + rest;
    forall i | 0 <= i < |rest| ensures rest[i] != k {
      assert rest[i] in Elements(rest);
    }
    assert Elements(order) == {k} + Elements(rest);
  }

  /** `order` lists the attributes `keys` of `o`. */
  predicate Lists(o: Observation, order: seq<string>, keys: set<string>) {
    Enumerates(order, keys) && forall i :: 0 <= i < |order| ==> order[i] in o.attributes
  }

  lemma OrderFrom(o: Observation, keys: set<string>, k: string) returns (order: seq<string>)
    requires keys <= o.attributes.Keys && k in keys
    ensures Lists(o, order, keys) && order != [] && order[0] == k
  {
    var rest := SomeOrder(keys - {k});
    order := StartWith(k, keys, rest);
    forall i | 0 <= i < |order| ensures order[i] in o.attributes {
      assert order[i] in Elements(order);
    }
  }

  lemma {:induction false} FirstIsFirst(claims: map<Slot, seq<Effective.Claim>>, d: Delivery, o: Observation,
                                        id: string, order: seq<string>)
    requires order != [] && forall i :: 0 <= i < |order| ==> order[i] in o.attributes
    requires EffectOf(claims, d, o, id, order[0]).conflict
    ensures FirstIn(claims, d, o, id, order) == Some(order[0])
  {
    hide EffectOf;
    var n := |order| - 1;
    if n > 0 {
      FirstIsFirst(claims, d, o, id, order[..n]);
    }
  }

  /** Two conflicting attributes with different effective values give two orders that record
      different changes, unless a change is recorded already. */
  lemma OrdersDiffer(changes: map<ChangeKey, Change>, claims: map<Slot, seq<Effective.Claim>>, d: Delivery,
                     o: Observation,
                     id: string, keys: set<string>, j: string, k: string)
    returns (order: seq<string>, other: seq<string>)
    requires keys <= o.attributes.Keys && j in keys && k in keys && ChangeAt(d, id, Conflict) !in changes
    requires EffectOf(claims, d, o, id, j).conflict && EffectOf(claims, d, o, id, k).conflict
    requires EffectOf(claims, d, o, id, j).value != EffectOf(claims, d, o, id, k).value
    ensures Lists(o, order, keys) && Lists(o, other, keys)
    ensures NoteInOrder(changes, claims, d, o, id, order) != NoteInOrder(changes, claims, d, o, id, other)
  {
    hide EffectOf, NoteInOrder, FirstIn, Enumerates, Conflicts;
    order := OrderFrom(o, keys, j);
    other := OrderFrom(o, keys, k);
    FirstIsFirst(claims, d, o, id, order);
    FirstIsFirst(claims, d, o, id, other);
    FirstConflictIsRecorded(changes, claims, d, o, id, order, keys);
    FirstConflictIsRecorded(changes, claims, d, o, id, other, keys);
    var key := ChangeAt(d, id, Conflict);
    assert Noting(changes, claims, d, o, id, Some(j))[key] != Noting(changes, claims, d, o, id, Some(k))[key];
  }

  /** The conflicting attributes among `keys` all have one effective value. */
  predicate OneValue(claims: map<Slot, seq<Effective.Claim>>, d: Delivery, o: Observation, id: string,
                     keys: set<string>)
    requires keys <= o.attributes.Keys
  {
    forall j, k | j in keys && k in keys && EffectOf(claims, d, o, id, j).conflict
                  && EffectOf(claims, d, o, id, k).conflict ::
      EffectOf(claims, d, o, id, j).value == EffectOf(claims, d, o, id, k).value
  }

  lemma SameNote(changes: map<ChangeKey, Change>, claims: map<Slot, seq<Effective.Claim>>, d: Delivery, o: Observation,
                 id: string,
                 order: seq<string>, other: seq<string>, keys: set<string>)
    requires keys <= o.attributes.Keys && Lists(o, order, keys) && Lists(o, other, keys)
    requires ChangeAt(d, id, Conflict) in changes || OneValue(claims, d, o, id, keys)
    ensures NoteInOrder(changes, claims, d, o, id, order) == NoteInOrder(changes, claims, d, o, id, other)
  {
    hide EffectOf, NoteInOrder, FirstIn, Enumerates;
    FirstConflictIsRecorded(changes, claims, d, o, id, order, keys);
    FirstConflictIsRecorded(changes, claims, d, o, id, other, keys);
  }

  /** All orders leave the same changes exactly when a SOURCE_CONFLICT change of the asset is
      recorded already or the conflicting attributes all have one effective value. */
  lemma OrdersAgreeIff(changes: map<ChangeKey, Change>, claims: map<Slot, seq<Effective.Claim>>, d: Delivery,
                       o: Observation,
                       id: string, keys: set<string>)
    requires keys <= o.attributes.Keys
    ensures (forall order, other | Lists(o, order, keys) && Lists(o, other, keys) ::
               NoteInOrder(changes, claims, d, o, id, order) == NoteInOrder(changes, claims, d, o, id, other))
       <==> ChangeAt(d, id, Conflict) in changes || OneValue(claims, d, o, id, keys)
  {
    hide EffectOf, NoteInOrder;
    if ChangeAt(d, id, Conflict) in changes || OneValue(claims, d, o, id, keys) {
      forall order, other | Lists(o, order, keys) && Lists(o, other, keys)
        ensures NoteInOrder(changes, claims, d, o, id, order) == NoteInOrder(changes, claims, d, o, id, other)
      {
        SameNote(changes, claims, d, o, id, order, other, keys);
      }
    } else {
      var j, k :| j in keys && k in keys && EffectOf(claims, d, o, id, j).conflict
                  && EffectOf(claims, d, o, id, k).conflict
                  && EffectOf(claims, d, o, id, j).value != EffectOf(claims, d, o, id, k).value;
      var order, other := OrdersDiffer(changes, claims, d, o, id, keys, j, k);
    }
  }

  /** Another connector's earlier claim conflicts with a newer one, which decides. */
  lemma NewerDecides(claims: map<Slot, seq<Effective.Claim>>, d: Delivery, o: Observation, id: string, k: string,
                     older: Effective.Claim)
    requires k in o.attributes && Slot(id, k) in claims && claims[Slot(id, k)] == [older] && d.policy == map[]
    requires older.active && older.key == k && older.connector != d.snapshot.connector
    requires older.observedAt < o.observedAt && older.value != o.attributes[k]
    ensures EffectOf(claims, d, o, id, k).conflict && EffectOf(claims, d, o, id, k).value == Some(o.attributes[k])
  {
    hide Effective.EffectiveOf;
    var newer := NewClaim(d, o, k);
    assert Retire([older], d.snapshot.connector) == [older];
    assert [older] + [newer] == [older, newer] == Stated(claims, d, o, id, k);
    Effective.ActiveTwo(older, newer);
    Effective.BestIsSelected([older, newer], k, d.policy, newer);
    Effective.EffectiveFacts([older, newer], k, d.policy);
    assert older in [older, newer] && newer in [older, newer];
  }

  /** It happens: two attributes on which two connectors differ. */
  lemma OrderShows(d: Delivery) returns (claims: map<Slot, seq<Effective.Claim>>, o: Observation, order: seq<string>,
                                         other: seq<string>)
    requires d.policy == map[] && d.snapshot.connector == "c"
    ensures Lists(o, order, o.attributes.Keys) && Lists(o, other, o.attributes.Keys)
    ensures NoteInOrder(map[], claims, d, o, "a", order) != NoteInOrder(map[], claims, d, o, "a", other)
  {
    hide EffectOf, NoteInOrder, Lists;
    o := Observation("e", "SERVICE", 1, map["x" := "2", "y" := "3"], map[], "", "OBSERVED");
    var x, y := Effective.Claim("b", "x", "1", "s", 0, true), Effective.Claim("b", "y", "1", "s", 0, true);
    claims := map[Slot("a", "x") := [x], Slot("a", "y") := [y]];
    assert "x"[0] != "y"[0] && "b"[0] != "c"[0] && "1"[0] != "2"[0] && "1"[0] != "3"[0] && "2"[0] != "3"[0];
    NewerDecides(claims, d, o, "a", "x", x);
    NewerDecides(claims, d, o, "a", "y", y);
    order, other := OrdersDiffer(map[], claims, d, o, "a", o.attributes.Keys, "x", "y");
  }

  // ---------- the other loops ----------

  /** The removal loop in a given order of the relationships it removes. */
  function RemoveInOrder(p: Progress, d: Delivery, order: seq<RelKey>): Option<Progress> {
    if order == [] then Some(p)
    else
      match RemoveInOrder(p, d, order[..|order| - 1])
      case None => None
      case Some(q) => if order[|order| - 1] in q.st.relationships then Some(RemoveOne(q, d, order[|order| - 1]))
      else None
  }

  lemma {:induction false} RemovalOrderInvisible(p: Progress, d: Delivery, order: seq<RelKey>, keys: set<RelKey>)
    requires keys <= p.st.relationships.Keys && Enumerates(order, keys)
    ensures RemoveInOrder(p, d, order) == Some(RemoveRels(p, d, keys))
  {
    hide RemoveOne, RemoveRels, Enumerates;
    if order == [] {
      NothingToDo(order, keys);
      RemoveNone(p, d);
    } else {
      var n := |order| - 1;
      var rest := EnumeratesPrefix(order, keys);
      RemovalOrderInvisible(p, d, order[..n], rest);
      RemoveStep(p, d, rest, order[n]);
    }
  }

  /** The absence loop in a given order of the identities it counts. */
  function MarkInOrder(p: Progress, d: Delivery, order: seq<Key>): Option<Progress> {
    if order == [] then Some(p)
    else
      match MarkInOrder(p, d, order[..|order| - 1])
      case None => None
      case Some(q) => if order[|order| - 1] in q.st.bound then Some(MarkOne(q, d, order[|order| - 1])) else None
  }

  lemma {:induction false} AbsenceOrderInvisible(p: Progress, d: Delivery, order: seq<Key>, keys: set<Key>)
    requires keys <= p.st.bound.Keys && Enumerates(order, keys)
    ensures MarkInOrder(p, d, order) == Some(MarkAbsent(p, d, keys))
  {
    hide MarkOne, Marking, Lost, Enumerates;
    if order == [] {
      NothingToDo(order, keys);
      MarkNone(p, d);
    } else {
      var n := |order| - 1;
      var rest := EnumeratesPrefix(order, keys);
      AbsenceOrderInvisible(p, d, order[..n], rest);
      MarkingBound(p, d, rest, Lost(p.st, d, rest));
      MarkStep(p, d, rest, order[n]);
    }
  }

  // ---------- the state does not read the processed snapshots ----------

  function Noted(p: Progress, processed: map<string, string>): Progress {
    p.(st := p.st.(processed := processed))
  }

  lemma TouchFrame(p: Progress, d: Delivery, o: Observation, x: map<string, string>)
    ensures Touch(Noted(p, x), d, o) == (Noted(Touch(p, d, o).0, x), Touch(p, d, o).1)
  {
    hide AddTo, NewAssetId, AssetAt, ChangeAt, ChangeOf, KeyOf;
  }

  lemma StateFrame(p: Progress, d: Delivery, o: Observation, id: string, x: map<string, string>)
    ensures StateAttributes(Noted(p, x), d, o, id, o.attributes.Keys)
         == Noted(StateAttributes(p, d, o, id, o.attributes.Keys), x)
  {
    hide StateClaims, Conflicts, SetConflicting, AddTo;
  }

  lemma ObserveFrame(p: Progress, d: Delivery, o: Observation, x: map<string, string>)
    ensures Observe(Noted(p, x), d, o) == Noted(Observe(p, d, o), x)
  {
    hide StateAttributes, Touch, KeyOf;
    TouchFrame(p, d, o, x);
    var (q, id) := Touch(p, d, o);
    StateFrame(q.(st := q.st.(absences := q.st.absences[KeyOf(d, o.external) := 0])), d, o, id, x);
  }

  lemma {:induction false} ObserveAllFrame(p: Progress, d: Delivery, n: nat, x: map<string, string>)
    requires n <= |d.snapshot.assets|
    ensures ObserveAll(Noted(p, x), d, n) == Noted(ObserveAll(p, d, n), x)
  {
    hide Observe, Noted;
    if n > 0 {
      ObserveAllFrame(p, d, n - 1, x);
      ObserveFrame(ObserveAll(p, d, n - 1), d, d.snapshot.assets[n - 1], x);
    }
  }

  lemma RelKeyFrame(p: Progress, d: Delivery, r: RelationshipObservation, x: map<string, string>)
    ensures RelKeyOf(Noted(p, x).st, d, r) == RelKeyOf(p.st, d, r)
  {
    hide KeyOf;
  }

  lemma AddChangeFrame(p: Progress, key: ChangeKey, c: Change, x: map<string, string>)
    ensures AddChange(Noted(p, x), key, c) == Noted(AddChange(p, key, c), x)
  {
    hide AddTo;
  }

  lemma RelateFrame(p: Progress, d: Delivery, r: RelationshipObservation, x: map<string, string>)
    ensures Relate(Noted(p, x), d, r) == Noted(Relate(p, d, r), x)
  {
    hide AddChange, ChangeAt, ChangeOf, RelKeyOf;
    RelKeyFrame(p, d, r, x);
    if RelKeyOf(p.st, d, r).Some? {
      var key := RelKeyOf(p.st, d, r).value;
      if key !in p.st.relationships {
        var rel := Relationship(key.from, true, d.now, d.now, d.now);
        var q := Progress(p.st.(relationships := p.st.relationships[key := rel]),
                          p.sum.(relationshipsCreated := p.sum.relationshipsCreated + 1));
        AddChangeFrame(q, ChangeAt(d, key.from, RelationshipAdded), ChangeOf(d, Nothing, OfRelationship(rel)), x);
      }
    }
  }

  lemma {:induction false} RelateAllFrame(p: Progress, d: Delivery, n: nat, x: map<string, string>)
    requires n <= |d.snapshot.relationships|
    ensures RelateAll(Noted(p, x), d, n) == Noted(RelateAll(p, d, n), x)
  {
    hide Relate, Noted;
    if n > 0 {
      RelateAllFrame(p, d, n - 1, x);
      RelateFrame(RelateAll(p, d, n - 1), d, d.snapshot.relationships[n - 1], x);
    }
  }

  lemma RemoveFrame(p: Progress, d: Delivery, seen: set<RelKey>, x: map<string, string>)
    ensures RemoveRels(Noted(p, x), d, Unlisted(Noted(p, x).st, d, seen))
         == Noted(RemoveRels(p, d, Unlisted(p.st, d, seen)), x)
    ensures SeenRels(Noted(p, x).st, d, |d.snapshot.relationships|) == SeenRels(p.st, d, |d.snapshot.relationships|)
  {
    hide WithoutRels, WithRemovals, RemovalKeys, RelKeyOf;
    assert Unlisted(Noted(p, x).st, d, seen) == Unlisted(p.st, d, seen);
    SeenRelsSame(Noted(p, x).st, p.st, d, |d.snapshot.relationships|);
  }

  lemma LostFrame(p: Progress, d: Delivery, x: map<string, string>)
    ensures Absent(Noted(p, x).st, d) == Absent(p.st, d)
    ensures Lost(Noted(p, x).st, d, Absent(p.st, d)) == Lost(p.st, d, Absent(p.st, d))
  {
    hide SeenKeys, AssetAt, AbsencesAt;
  }

  lemma MarkFrame(p: Progress, d: Delivery, x: map<string, string>)
    ensures MarkAbsent(Noted(p, x), d, Absent(Noted(p, x).st, d)) == Noted(MarkAbsent(p, d, Absent(p.st, d)), x)
  {
    hide CountAbsent, MarkLost, WithLosses, LossKeys, Absent, Lost;
    LostFrame(p, d, x);
  }

  /** Applying a snapshot neither reads nor writes the processed snapshots. */
  lemma ApplyFrame(st: State, d: Delivery, x: map<string, string>)
    ensures ApplySucceeded(st.(processed := x), d) == Noted(ApplySucceeded(st, d), x)
  {
    hide ObserveAll, RelateAll, RemoveRels, MarkAbsent, Unlisted, Absent, SeenRels;
    var n, m := |d.snapshot.assets|, |d.snapshot.relationships|;
    var start := Progress(st, ZERO_SUMMARY);
    assert Progress(st.(processed := x), ZERO_SUMMARY) == Noted(start, x);
    ObserveAllFrame(start, d, n, x);
    var p := ObserveAll(start, d, n);
    RelateAllFrame(p, d, m, x);
    var q := RelateAll(p, d, m);
    RemoveFrame(q, d, SeenRels(q.st, d, m), x);
    MarkFrame(RemoveRels(q, d, Unlisted(q.st, d, SeenRels(q.st, d, m))), d, x);
  }

  // ---------- runs ----------

  function Step(st: State, d: Delivery): State {
    match Apply(st, d)
    case Ok(p) => p.st
    case Err(same) => same
  }

  function Run(ds: seq<Delivery>): State {
    if ds == [] then EMPTY else Step(Run(ds[..|ds| - 1]), ds[|ds| - 1])
  }

  predicate Delivered(ds: seq<Delivery>, id: string) {
    exists i :: 0 <= i < |ds| && ds[i].snapshot.id == id
  }

  /** The first delivery of each snapshot identifier. */
  function FirstDeliveries(ds: seq<Delivery>): seq<Delivery> {
    if ds == [] then []
    else
      var n := |ds| - 1;
      FirstDeliveries(ds[..n]) + (if Delivered(ds[..n], ds[n].snapshot.id) then [] else [ds[n]])
  }

  lemma StepProcessed(st: State, d: Delivery)
    ensures Step(st, d).processed.Keys == st.processed.Keys + {d.snapshot.id}
    ensures d.snapshot.id in st.processed ==> Step(st, d) == st
  {
    hide ApplySucceeded;
    if d.snapshot.id !in st.processed && d.succeeded {
      ApplyFrame(st, d, st.processed);
      assert st.(processed := st.processed) == st;
    }
  }

  lemma {:induction false} ProcessedIsDelivered(ds: seq<Delivery>, id: string)
    ensures id in Run(ds).processed <==> Delivered(ds, id)
  {
    hide Step;
    if ds != [] {
      var n := |ds| - 1;
      ProcessedIsDelivered(ds[..n], id);
      StepProcessed(Run(ds[..n]), ds[n]);
      DeliveredSnoc(ds, id);
    }
  }

  lemma DeliveredSnoc(ds: seq<Delivery>, id: string)
    requires ds != []
    ensures Delivered(ds, id) <==> Delivered(ds[..|ds| - 1], id) || ds[|ds| - 1].snapshot.id == id
  {
    var n := |ds| - 1;
    if Delivered(ds[..n], id) {
      var i :| 0 <= i < n && ds[..n][i].snapshot.id == id;
      assert ds[i].snapshot.id == id;
    }
    if Delivered(ds, id) && ds[n].snapshot.id != id {
      var i :| 0 <= i < |ds| && ds[i].snapshot.id == id;
      assert ds[..n][i].snapshot.id == id;
    }
  }

  /** The final state depends only on the first delivery of each snapshot identifier. */
  lemma {:induction false} FirstDeliveriesDecide(ds: seq<Delivery>)
    ensures Run(ds) == Run(FirstDeliveries(ds))
  {
    hide Step, Delivered;
    if ds != [] {
      var n := |ds| - 1;
      FirstDeliveriesDecide(ds[..n]);
      ProcessedIsDelivered(ds[..n], ds[n].snapshot.id);
      StepProcessed(Run(ds[..n]), ds[n]);
      var first := FirstDeliveries(ds[..n]);
      if Delivered(ds[..n], ds[n].snapshot.id) {
        assert FirstDeliveries(ds) == first;
      } else {
        assert (first + [ds[n]])[..|first|] == first;
      }
    }
  }

  /** The successful deliveries, in order. */
  function Successes(ds: seq<Delivery>): seq<Delivery> {
    if ds == [] then []
    else Successes(ds[..|ds| - 1]) + (if ds[|ds| - 1].succeeded then [ds[|ds| - 1]] else [])
  }

  predicate NoReuse(ds: seq<Delivery>) {
    forall i, j :: 0 <= i < j < |ds| ==> ds[i].snapshot.id != ds[j].snapshot.id
  }

  lemma {:induction false} SuccessesDelivered(ds: seq<Delivery>, id: string)
    ensures Delivered(Successes(ds), id) ==> Delivered(ds, id)
  {
    if ds != [] {
      SuccessesDelivered(ds[..|ds| - 1], id);
      DeliveredSnoc(ds, id);
      if ds[|ds| - 1].succeeded {
        DeliveredSnoc(Successes(ds), id);
      }
    }
  }

  /** A successful delivery of a new snapshot does the same to two states that agree up to
      their processed snapshots. */
  lemma StepAgrees(st: State, other: State, d: Delivery)
    requires st.(processed := map[]) == other.(processed := map[]) && d.succeeded
    requires d.snapshot.id !in st.processed && d.snapshot.id !in other.processed
    ensures Step(st, d).(processed := map[]) == Step(other, d).(processed := map[])
  {
    hide ApplySucceeded;
    ApplyFrame(st, d, map[]);
    ApplyFrame(other, d, map[]);
  }

  /** Without identifier reuse, leaving out every unsuccessful delivery changes nothing but the
      processed snapshots. */
  lemma {:induction false} FailuresLeaveNoTrace(ds: seq<Delivery>)
    requires NoReuse(ds)
    ensures Run(ds).(processed := map[]) == Run(Successes(ds)).(processed := map[])
  {
    if ds != [] {
      var n := |ds| - 1;
      var d, kept := ds[n], Successes(ds[..n]);
      FailuresLeaveNoTrace(ds[..n]);
      ProcessedIsDelivered(ds[..n], d.snapshot.id);
      assert !Delivered(ds[..n], d.snapshot.id);
      if d.succeeded {
        hide Step, Delivered;
        SuccessesDelivered(ds[..n], d.snapshot.id);
        ProcessedIsDelivered(kept, d.snapshot.id);
        StepAgrees(Run(ds[..n]), Run(kept), d);
        assert (kept + [d])[..|kept|] == kept;
      } else {
        hide ApplySucceeded;
        assert Successes(ds) == kept;
      }
    }
  }
}
