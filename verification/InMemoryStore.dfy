/** The in-memory reconciliation as methods that update the state in place. Loops over Go maps
    visit their keys in an arbitrary order; the contracts show that the order is invisible
    except in one recorded value. */
module InMemoryStore {
  import opened Domain
  import opened InMemory
  import opened InMemoryConflicts
  import Effective

  // ---------- the order of a map loop does not matter ----------

  /** One attribute of an observation. */
  function StateOne(p: Progress, d: Delivery, o: Observation, id: string, k: string): Progress
    requires k in o.attributes
  {
    NoteConflicts(p.(st := p.st.(claims := p.st.claims[Slot(id, k) := Stated(p.st.claims, d, o, id, k)])), d, id,
                  Bit(EffectOf(p.st.claims, d, o, id, k).conflict))
  }

  lemma StateClaimsStep(claims: map<Slot, seq<Effective.Claim>>, d: Delivery, o: Observation, id: string,
                        done: set<string>, k: string)
    requires done <= o.attributes.Keys && k in o.attributes && k !in done
    ensures var sofar := StateClaims(claims, d, o, id, done);
            && StateClaims(claims, d, o, id, done + {k}) == sofar[Slot(id, k) := Stated(claims, d, o, id, k)]
            && Stated(sofar, d, o, id, k) == Stated(claims, d, o, id, k)
  {
    hide Retire;
    assert SlotsOf(id, done + {k}) == SlotsOf(id, done) + {Slot(id, k)};
  }

  lemma ConflictsStep(claims: map<Slot, seq<Effective.Claim>>, d: Delivery, o: Observation, id: string,
                      done: set<string>, k: string)
    requires done <= o.attributes.Keys && k in o.attributes && k !in done
    ensures Conflicts(claims, d, o, id, done + {k})
         == Conflicts(claims, d, o, id, done) + (if EffectOf(claims, d, o, id, k).conflict then {k} else {})
    ensures k !in Conflicts(claims, d, o, id, done)
  {
    hide EffectOf;
  }

  lemma StateStep(p: Progress, d: Delivery, o: Observation, id: string, done: set<string>, k: string)
    requires done <= o.attributes.Keys && k in o.attributes && k !in done
    ensures StateAttributes(p, d, o, id, done + {k}) == StateOne(StateAttributes(p, d, o, id, done), d, o, id, k)
  {
    hide StateClaims, Stated, Conflicts, Effective.EffectiveOf, NoteConflicts;
    StateClaimsStep(p.st.claims, d, o, id, done, k);
    ConflictsStep(p.st.claims, d, o, id, done, k);
    var before, now := Conflicts(p.st.claims, d, o, id, done), Bit(EffectOf(p.st.claims, d, o, id, k).conflict);
    var sofar := p.(st := p.st.(claims := StateClaims(p.st.claims, d, o, id, done)));
    assert |Conflicts(p.st.claims, d, o, id, done + {k})| == |before| + now by {
      assert before + {} == before;
    }
    NoteFrame(sofar, d, id, |before|, Slot(id, k), Stated(p.st.claims, d, o, id, k));
    NoteTwice(sofar.(st := sofar.st.(claims := sofar.st.claims[Slot(id, k) := Stated(p.st.claims, d, o, id, k)])), d,
              id, |before|, now);
  }

  /** Noting conflicts reads and writes no claims. */
  lemma NoteFrame(p: Progress, d: Delivery, id: string, n: nat, slot: Slot, cs: seq<Effective.Claim>)
    ensures var q := NoteConflicts(p, d, id, n);
            && q.st.claims == p.st.claims
            && q.(st := q.st.(claims := p.st.claims[slot := cs]))
               == NoteConflicts(p.(st := p.st.(claims := p.st.claims[slot := cs])), d, id, n)
  {
  }

  lemma NoteTwice(p: Progress, d: Delivery, id: string, m: nat, n: nat)
    ensures NoteConflicts(NoteConflicts(p, d, id, m), d, id, n) == NoteConflicts(p, d, id, m + n)
  {
    if m > 0 && n > 0 {
      assert SetConflicting(SetConflicting(p.st.assets, id), id) == SetConflicting(p.st.assets, id);
    }
  }

  lemma StateNone(p: Progress, d: Delivery, o: Observation, id: string)
    ensures StateAttributes(p, d, o, id, {}) == p
  {
    assert StateClaims(p.st.claims, d, o, id, {}) == p.st.claims;
    assert Conflicts(p.st.claims, d, o, id, {}) == {};
  }

  /** One removed relationship. */
  function RemoveOne(p: Progress, d: Delivery, k: RelKey): Progress
    requires k in p.st.relationships
  {
    var key := ChangeAt(d, p.st.relationships[k].from, RelationshipRemoved);
    Progress(
      p.st.(relationships := DropOne(p.st.relationships, d, k), changes := AddTo(p.st.changes, key, RemovalChange(d))),
      p.sum.(relationshipsRemoved := p.sum.relationshipsRemoved + 1,
      changes := p.sum.changes + Bit(key !in p.st.changes)))
  }

  function DropOne(relationships: map<RelKey, Relationship>, d: Delivery, k: RelKey): map<RelKey, Relationship>
    requires k in relationships
  {
    relationships[k := relationships[k].(active := false, updated := d.now)]
  }

  lemma RemoveStep(p: Progress, d: Delivery, done: set<RelKey>, k: RelKey)
    requires k in p.st.relationships && k !in done
    ensures k in RemoveRels(p, d, done).st.relationships
    ensures RemoveRels(p, d, done + {k}) == RemoveOne(RemoveRels(p, d, done), d, k)
  {
    hide RemovalKeys, WithoutRels, WithRemovals, DropOne, AddTo;
    var key := ChangeAt(d, p.st.relationships[k].from, RelationshipRemoved);
    RemovalKeysStep(p.st.relationships, d, done, k);
    WithoutRelsStep(p.st.relationships, d, done, k);
    WithRemovalsStep(p.st.changes, d, RemovalKeys(p.st.relationships, d, done), key);
    FreshStep(p.st.changes.Keys, RemovalKeys(p.st.relationships, d, done), key);
  }

  lemma RemovalKeysStep(relationships: map<RelKey, Relationship>, d: Delivery, done: set<RelKey>, k: RelKey)
    requires k in relationships
    ensures RemovalKeys(relationships, d, done + {k})
         == RemovalKeys(relationships, d, done) + {ChangeAt(d, relationships[k].from, RelationshipRemoved)}
  {
  }

  lemma WithoutRelsStep(relationships: map<RelKey, Relationship>, d: Delivery, done: set<RelKey>, k: RelKey)
    requires k in relationships && k !in done
    ensures var sofar := WithoutRels(relationships, d, done);
            k in sofar && sofar[k] == relationships[k]
            && WithoutRels(relationships, d, done + {k}) == DropOne(sofar, d, k)
  {
  }

  lemma WithRemovalsStep(changes: map<ChangeKey, Change>, d: Delivery, keys: set<ChangeKey>, key: ChangeKey)
    ensures var sofar := WithRemovals(changes, d, keys);
            && (key in sofar <==> key in changes || key in keys)
            && WithRemovals(changes, d, keys + {key}) == AddTo(sofar, key, RemovalChange(d))
  {
  }

  lemma FreshStep(known: set<ChangeKey>, keys: set<ChangeKey>, key: ChangeKey)
    ensures |(keys + {key}) - known| == |keys - known| + Bit(key !in known && key !in keys)
  {
    if key in known || key in keys {
      assert (keys + {key}) - known == keys - known;
    } else {
      assert (keys + {key}) - known == (keys - known) + {key};
    }
  }

  lemma RemoveNone(p: Progress, d: Delivery)
    ensures RemoveRels(p, d, {}) == p
  {
    assert RemovalKeys(p.st.relationships, d, {}) == {};
    assert WithoutRels(p.st.relationships, d, {}) == p.st.relationships;
    assert WithRemovals(p.st.changes, d, {}) == p.st.changes;
    assert {} - p.st.changes.Keys == {};
  }

  /** One absent identity. */
  function MarkOne(p: Progress, d: Delivery, k: Key): Progress
    requires k in p.st.bound
  {
    var id := p.st.bound[k];
    var loses := Loses(p.st, d, k);
    var key := ChangeAt(d, id, WentMissing);
    Progress(
      p.st.(absences := CountOne(p.st.absences, k),
      assets := if loses then LoseOne(p.st.assets, d, id) else p.st.assets,
      changes := if loses then AddTo(p.st.changes, key, LossChange(p.st.assets, d, id)) else p.st.changes),
      p.sum.(missing := p.sum.missing + Bit(loses), changes := p.sum.changes + Bit(loses && key !in p.st.changes)))
  }

  function CountOne(absences: map<Key, nat>, k: Key): map<Key, nat> {
    absences[k := AbsencesAt(absences, k) + 1]
  }

  function LoseOne(assets: map<string, Asset>, d: Delivery, id: string): map<string, Asset> {
    assets[id := AssetAt(assets, id).(status := Missing, updated := d.now)]
  }

  predicate Loses(st: State, d: Delivery, k: Key)
    requires k in st.bound
  {
    AbsencesAt(st.absences, k) + 1 >= Threshold(d.threshold)
    && AssetAt(st.assets, st.bound[k]).status !in {Missing, Retired}
  }

  lemma LostStep(st: State, d: Delivery, done: set<Key>, k: Key)
    requires k in st.bound
    ensures Lost(st, d, done + {k}) == Lost(st, d, done) + (if Loses(st, d, k) then {st.bound[k]} else {})
  {
  }

  lemma LossKeysStep(d: Delivery, lost: set<string>, id: string)
    ensures LossKeys(d, lost + {id}) == LossKeys(d, lost) + {ChangeAt(d, id, WentMissing)}
    ensures ChangeAt(d, id, WentMissing) in LossKeys(d, lost) <==> id in lost
  {
  }

  lemma CountAbsentStep(absences: map<Key, nat>, done: set<Key>, k: Key)
    requires k !in done
    ensures AbsencesAt(CountAbsent(absences, done), k) == AbsencesAt(absences, k)
    ensures CountAbsent(absences, done + {k}) == CountOne(CountAbsent(absences, done), k)
  {
  }

  lemma MarkLostStep(assets: map<string, Asset>, d: Delivery, lost: set<string>, id: string)
    requires id !in lost
    ensures MarkLost(assets, d, lost + {id}) == LoseOne(MarkLost(assets, d, lost), d, id)
  {
  }

  lemma LostIsMissing(assets: map<string, Asset>, d: Delivery, lost: set<string>, id: string)
    ensures id in lost ==> AssetAt(MarkLost(assets, d, lost), id).status == Missing
    ensures id !in lost ==> AssetAt(MarkLost(assets, d, lost), id) == AssetAt(assets, id)
  {
  }

  lemma WithLossesStep(changes: map<ChangeKey, Change>, assets: map<string, Asset>, d: Delivery, lost: set<string>,
                       id: string)
    requires id !in lost
    ensures var sofar := WithLosses(changes, assets, d, lost);
            var key := ChangeAt(d, id, WentMissing);
            && (key in sofar <==> key in changes)
            && WithLosses(changes, assets, d, lost + {id}) == AddTo(sofar, key, LossChange(assets, d, id))
  {
    hide LossChange, LossKeys;
    LossKeysStep(d, lost, id);
  }

  lemma LossCount(changes: map<ChangeKey, Change>, d: Delivery, lost: set<string>, id: string)
    requires id !in lost
    ensures |LossKeys(d, lost + {id}) - changes.Keys|
         == |LossKeys(d, lost) - changes.Keys| + Bit(ChangeAt(d, id, WentMissing) !in changes)
    ensures |lost + {id}| == |lost| + 1
  {
    hide LossKeys;
    LossKeysStep(d, lost, id);
    FreshStep(changes.Keys, LossKeys(d, lost), ChangeAt(d, id, WentMissing));
  }

  /** One more identity that makes its asset lost. */
  lemma MarkingLoses(p: Progress, d: Delivery, done: set<Key>, lost: set<string>, k: Key)
    requires k in p.st.bound && k !in done && p.st.bound[k] !in lost && Loses(Marking(p, d, done, lost).st, d, k)
    ensures Marking(p, d, done + {k}, lost + {p.st.bound[k]}) == MarkOne(Marking(p, d, done, lost), d, k)
  {
    hide LossKeys, CountAbsent, CountOne, MarkLost, LoseOne, WithLosses, LossChange, Loses, AddTo;
    var id := p.st.bound[k];
    CountAbsentStep(p.st.absences, done, k);
    MarkLostStep(p.st.assets, d, lost, id);
    WithLossesStep(p.st.changes, p.st.assets, d, lost, id);
    SameLoss(p.st.assets, d, lost, id);
    LossCount(p.st.changes, d, lost, id);
  }

  /** One more identity that changes nothing but its own counter. */
  lemma MarkingKeeps(p: Progress, d: Delivery, done: set<Key>, lost: set<string>, k: Key)
    requires k in p.st.bound && k !in done && !Loses(Marking(p, d, done, lost).st, d, k)
    ensures Marking(p, d, done + {k}, lost) == MarkOne(Marking(p, d, done, lost), d, k)
  {
    hide LossKeys, CountAbsent, CountOne, MarkLost, WithLosses, LossChange, Loses, AddTo;
    CountAbsentStep(p.st.absences, done, k);
  }

  lemma MarkStep(p: Progress, d: Delivery, done: set<Key>, k: Key)
    requires k in p.st.bound && k !in done
    ensures MarkAbsent(p, d, done + {k}) == MarkOne(MarkAbsent(p, d, done), d, k)
  {
    hide Lost, Marking, MarkOne, Loses;
    var lost := Lost(p.st, d, done);
    LostStep(p.st, d, done, k);
    LosesStep(p, d, done, k);
    assert k in Marking(p, d, done, lost).st.bound by { MarkingBound(p, d, done, lost); }
    if Loses(Marking(p, d, done, lost).st, d, k) {
      MarkingLoses(p, d, done, lost, k);
    } else {
      assert Lost(p.st, d, done + {k}) == lost;
      MarkingKeeps(p, d, done, lost, k);
    }
  }

  lemma MarkingBound(p: Progress, d: Delivery, done: set<Key>, lost: set<string>)
    ensures Marking(p, d, done, lost).st.bound == p.st.bound
  {
  }

  /** An identity loses its asset now exactly when it would and no earlier one did. */
  lemma LosesStep(p: Progress, d: Delivery, done: set<Key>, k: Key)
    requires k in p.st.bound && k !in done
    ensures k in MarkAbsent(p, d, done).st.bound
    ensures Loses(MarkAbsent(p, d, done).st, d, k) <==> Loses(p.st, d, k) && p.st.bound[k] !in Lost(p.st, d, done)
  {
    hide Lost, LossKeys, AssetAt, CountAbsent, MarkLost, WithLosses, AbsencesAt;
    CountAbsentStep(p.st.absences, done, k);
    LostIsMissing(p.st.assets, d, Lost(p.st, d, done), p.st.bound[k]);
  }

  lemma SameLoss(assets: map<string, Asset>, d: Delivery, lost: set<string>, id: string)
    requires id !in lost
    ensures LossChange(MarkLost(assets, d, lost), d, id) == LossChange(assets, d, id)
  {
  }

  lemma MarkNone(p: Progress, d: Delivery)
    ensures MarkAbsent(p, d, {}) == p
  {
    assert Lost(p.st, d, {}) == {} && LossKeys(d, {}) == {};
    assert CountAbsent(p.st.absences, {}) == p.st.absences;
    assert MarkLost(p.st.assets, d, {}) == p.st.assets;
    assert WithLosses(p.st.changes, p.st.assets, d, {}) == p.st.changes;
    assert {} - p.st.changes.Keys == {};
  }

  // ---------- the methods ----------

  class Memory {
    var assets: map<string, Asset>
    var bound: map<Key, string>
    var claims: map<Slot, seq<Effective.Claim>>
    var relationships: map<RelKey, Relationship>
    var changes: map<ChangeKey, Change>
    var absences: map<Key, nat>
    var processed: map<string, string>

    constructor ()
      ensures View() == EMPTY
    {
      assets, bound, claims, relationships, changes, absences, processed := map[], map[], map[], map[], map[], map[],
                                                                            map[];
      new;
      assert Erase(changes) == map[];
    }

    /** The state up to the values recorded by SOURCE_CONFLICT changes. */
    ghost function View(): State
      reads this
    {
      State(assets, bound, claims, relationships, Erase(changes), absences, processed)
    }

    method AddChange(key: ChangeKey, c: Change, sum: Summary) returns (tally: Summary)
      modifies this`changes
      ensures changes == AddTo(old(changes), key, c)
      ensures Erase(changes) == AddTo(Erase(old(changes)), key, EraseChange(key, c))
      ensures key.kind != Conflict ==> Recorded(changes) == Recorded(old(changes))
      ensures tally == sum.(changes := sum.changes + Bit(key !in Erase(old(changes))))
    {
      EraseAdd(changes, key, c);
      RecordedAdd(changes, key, c);
      tally := sum;
      if key !in changes {
        changes := changes[key := c];
        tally := sum.(changes := sum.changes + 1);
      }
    }

    method TouchAsset(d: Delivery, o: Observation, sum: Summary) returns (id: string, tally: Summary)
      modifies this`assets, this`bound, this`changes
      ensures (Progress(View(), tally), id) == Touch(Progress(old(View()), sum), d, o)
      ensures Recorded(changes) == Recorded(old(changes))
    {
      hide Erase, Recorded, NewAssetId;
      var key := KeyOf(d, o.external);
      if key !in bound {
        id := NewAssetId(o.external);
        var a := Asset(d.snapshot.org, o.assetType, Active, d.now, d.now, d.now);
        bound := bound[key := id];
        assets := assets[id := a];
        tally := AddChange(ChangeAt(d, id, Discovered), ChangeOf(d, Nothing, OfAsset(a)),
                           sum.(created := sum.created + 1));
      } else {
        id := bound[key];
        var a := AssetAt(assets, id);
        assets := assets[id := a.(lastSeen := d.now, updated := d.now, status := Active)];
        if a.status == Missing {
          tally := AddChange(ChangeAt(d, id, Returned), ChangeOf(d, OfStatus(Missing), OfStatus(Active)), sum);
          tally := tally.(updated := tally.updated + 1);
        } else {
          tally := sum.(kept := sum.kept + 1);
        }
      }
    }

    /** One attribute: the connector's earlier claims are retired and the new one is appended. */
    method StateAttribute(d: Delivery, o: Observation, id: string, k: string, sum: Summary) returns (tally: Summary)
      requires k in o.attributes
      modifies this`assets, this`claims, this`changes
      ensures Progress(View(), tally) == StateOne(Progress(old(View()), sum), d, o, id, k)
      ensures claims == old(claims)[Slot(id, k) := Stated(old(claims), d, o, id, k)]
      ensures var effect := EffectOf(old(claims), d, o, id, k);
              changes == if effect.conflict then AddTo(old(changes), ChangeAt(d, id, Conflict),
                                                       ChangeOf(d, Nothing, OfValue(effect.value))) else old(changes)
    {
      hide Erase, Recorded, Retire, Effective.EffectiveOf, AssetAt;
      var stated := Retire(ClaimsAt(claims, Slot(id, k)), d.snapshot.connector) + [NewClaim(d, o, k)];
      var effect := Effective.ComputeEffective(stated, k, d.policy);
      claims := claims[Slot(id, k) := stated];
      tally := sum;
      if effect.conflict {
        assets := assets[id := AssetAt(assets, id).(status := Conflicting)];
        tally := AddChange(ChangeAt(d, id, Conflict), ChangeOf(d, Nothing, OfValue(effect.value)),
                           sum.(conflicting := sum.conflicting + 1));
      }
    }

    /** The attributes in an arbitrary order. The only trace of the order is which of the
        conflicting values a new SOURCE_CONFLICT change records. */
    method StateAllAttributes(d: Delivery, o: Observation, id: string, sum: Summary)
      returns (tally: Summary, ghost winner: Option<string>)
      modifies this`assets, this`claims, this`changes
      ensures Progress(View(), tally) == StateAttributes(Progress(old(View()), sum), d, o, id, o.attributes.Keys)
      ensures Chosen(old(claims), d, o, id, winner)
      ensures Recorded(changes) == Noting(Recorded(old(changes)), old(claims), d, o, id, winner)
    {
      hide Erase, Recorded, StateAttributes, StateOne, EffectOf, StateClaims, Noting, Chosen, AddTo, ChangeAt, ChangeOf,
        Stated, Leads;
      ghost var p, before, noted := Progress(View(), sum), claims, changes;
      var todo := o.attributes.Keys;
      ghost var done: set<string> := {};
      tally, winner := sum, None;
      StateNone(p, d, o, id);
      StateClaimsNone(claims, d, o, id);
      NothingNoted(noted, before, d, o, id);
      while todo != {}
        invariant done + todo == o.attributes.Keys && done !! todo
        invariant Progress(View(), tally) == StateAttributes(p, d, o, id, done)
        invariant claims == StateClaims(before, d, o, id, done)
        invariant changes == Noting(noted, before, d, o, id, winner) && Leads(before, d, o, id, done, winner)
        decreases |todo|
      {
        var k :| k in todo;
        StateStep(p, d, o, id, done, k);
        EffectStep(before, d, o, id, done, k);
        LeadsStep(noted, before, d, o, id, done, winner, k);
        tally := StateAttribute(d, o, id, k, tally);
        winner := NextWinner(before, d, o, id, winner, k);
        done, todo := done + {k}, todo - {k};
      }
      assert done == o.attributes.Keys;
      RecordedNoting(noted, before, d, o, id, winner);
      LeadsChosen(before, d, o, id, winner);
    }

    method ObserveOne(d: Delivery, o: Observation, sum: Summary) returns (tally: Summary, ghost winner: Option<string>)
      modifies this`assets, this`bound, this`claims, this`changes, this`absences
      ensures Progress(View(), tally) == Observe(Progress(old(View()), sum), d, o)
      ensures var id := Touch(Progress(old(View()), sum), d, o).1;
              Chosen(old(claims), d, o, id, winner)
              && Recorded(changes) == Noting(Recorded(old(changes)), old(claims), d, o, id, winner)
    {
      hide Erase, Recorded, Touch, StateAttributes;
      var id;
      id, tally := TouchAsset(d, o, sum);
      absences := absences[KeyOf(d, o.external) := 0];
      tally, winner := StateAllAttributes(d, o, id, tally);
    }

    method RelateOne(d: Delivery, r: RelationshipObservation, seen: set<RelKey>, sum: Summary)
      returns (seen': set<RelKey>, tally: Summary)
      modifies this`relationships, this`changes
      ensures Progress(View(), tally) == Relate(Progress(old(View()), sum), d, r)
      ensures seen' == seen + (match RelKeyOf(old(View()), d, r) case Some(k) => {k} case None => {})
      ensures Recorded(changes) == Recorded(old(changes))
    {
      hide Erase, Recorded;
      var from, to := KeyOf(d, r.from), KeyOf(d, r.to);
      seen', tally := seen, sum;
      if from !in bound || to !in bound { return; }
      var key := RelKey(d.snapshot.org, d.snapshot.connector, bound[from], bound[to], r.relType);
      seen' := seen + {key};
      if key !in relationships {
        var rel := Relationship(key.from, true, d.now, d.now, d.now);
        relationships := relationships[key := rel];
        tally := AddChange(ChangeAt(d, key.from, RelationshipAdded), ChangeOf(d, Nothing, OfRelationship(rel)),
                           sum.(relationshipsCreated := sum.relationshipsCreated + 1));
      } else {
        relationships := relationships[key := relationships[key].(active := true, lastSeen := d.now, updated := d.now)];
      }
    }

    /** Looks at every relationship, in an arbitrary order, and removes the unlisted ones. */
    method RemoveUnlisted(d: Delivery, seen: set<RelKey>, sum: Summary) returns (tally: Summary)
      modifies this`relationships, this`changes
      ensures Progress(View(), tally) == RemoveRels(Progress(old(View()), sum), d, Unlisted(old(View()), d, seen))
      ensures Recorded(changes) == Recorded(old(changes))
    {
      hide Erase, Recorded, RemoveRels, RemoveOne;
      ghost var p := Progress(View(), sum);
      var todo := relationships.Keys;
      ghost var done: set<RelKey> := {};
      tally := sum;
      RemoveNone(p, d);
      while todo != {}
        invariant todo <= old(relationships).Keys && done !! todo
        invariant done == Unlisted(p.st, d, seen) - todo
        invariant forall k :: k in todo ==> k in relationships && relationships[k] == old(relationships)[k]
        invariant Progress(View(), tally) == RemoveRels(p, d, done) && Recorded(changes) == Recorded(old(changes))
        decreases |todo|
      {
        var k :| k in todo;
        if k.org == d.snapshot.org && k.connector == d.snapshot.connector && k !in seen && relationships[k].active {
          RemoveStep(p, d, done, k);
          done := done + {k};
          tally := RemoveRelationship(d, k, tally);
        }
        todo := todo - {k};
      }
      assert done == Unlisted(p.st, d, seen);
    }

    method RemoveRelationship(d: Delivery, k: RelKey, sum: Summary) returns (tally: Summary)
      requires k in relationships
      modifies this`relationships, this`changes
      ensures Progress(View(), tally) == RemoveOne(Progress(old(View()), sum), d, k)
      ensures relationships == DropOne(old(relationships), d, k)
      ensures Recorded(changes) == Recorded(old(changes))
    {
      hide Erase, Recorded;
      var from := relationships[k].from;
      relationships := relationships[k := relationships[k].(active := false, updated := d.now)];
      tally := AddChange(ChangeAt(d, from, RelationshipRemoved), RemovalChange(d),
                         sum.(relationshipsRemoved := sum.relationshipsRemoved + 1));
    }

    /** Looks at every identity, in an arbitrary order, and counts the absent ones. */
    method MarkAbsentIdentities(d: Delivery, seen: set<Key>, sum: Summary) returns (tally: Summary)
      requires seen == SeenKeys(d, |d.snapshot.assets|)
      modifies this`assets, this`changes, this`absences
      ensures Progress(View(), tally) == MarkAbsent(Progress(old(View()), sum), d, Absent(old(View()), d))
      ensures Recorded(changes) == Recorded(old(changes))
    {
      hide Erase, Recorded, MarkAbsent, MarkOne;
      ghost var p := Progress(View(), sum);
      var todo := bound.Keys;
      ghost var done: set<Key> := {};
      tally := sum;
      MarkNone(p, d);
      while todo != {}
        invariant todo <= bound.Keys && done !! todo && done == Absent(p.st, d) - todo
        invariant Progress(View(), tally) == MarkAbsent(p, d, done) && Recorded(changes) == Recorded(old(changes))
        decreases |todo|
      {
        var k :| k in todo;
        if k.org == d.snapshot.org && k.connector == d.snapshot.connector && k !in seen {
          MarkStep(p, d, done, k);
          done := done + {k};
          tally := MarkIdentity(d, k, tally);
        }
        todo := todo - {k};
      }
      assert done == Absent(p.st, d);
    }

    method MarkIdentity(d: Delivery, k: Key, sum: Summary) returns (tally: Summary)
      requires k in bound
      modifies this`assets, this`changes, this`absences
      ensures Progress(View(), tally) == MarkOne(Progress(old(View()), sum), d, k)
      ensures Recorded(changes) == Recorded(old(changes))
    {
      hide Erase, Recorded, AssetAt;
      var n := AbsencesAt(absences, k) + 1;
      absences := absences[k := n];
      tally := sum;
      if n >= Threshold(d.threshold) {
        var id := bound[k];
        var a := AssetAt(assets, id);
        if a.status != Missing && a.status != Retired {
          assets := assets[id := a.(status := Missing, updated := d.now)];
          tally := AddChange(ChangeAt(d, id, WentMissing), ChangeOf(d, OfStatus(a.status), OfStatus(Missing)),
                             sum.(missing := sum.missing + 1));
        }
      }
    }

    /** Applies a delivery. Whatever the iteration orders, the summary and the state, up to the
        values that SOURCE_CONFLICT changes record, are those of the function; those values
        belong to a conflicting attribute chosen for each observation; and where no
        observation has two conflicting attributes they are determined too. */
    method ApplyDelivery(d: Delivery) returns (r: Option<Summary>, ghost ws: seq<Option<string>>)
      modifies this
      ensures match Apply(old(View()), d)
              case Ok(p) => View() == p.st && r == Some(p.sum)
              case Err(st) => View() == st && r == None
      ensures var applied := d.snapshot.id !in old(processed) && d.succeeded;
              && |ws| == (if applied then |d.snapshot.assets| else 0) && AllChosen(old(View()), d, |ws|, ws)
              && Recorded(changes) == RecordedAfter(Recorded(old(changes)), old(View()), d, ws)
              && (applied && SingleConflicts(old(View()), d) ==>
                    changes == Restore(ApplySucceeded(old(View()), d).st.changes,
                                       DeterminedConflicts(Recorded(old(changes)), old(View()), d)))
    {
      hide Erase, Recorded, Observe, Relate, RemoveRels, MarkAbsent, Unlisted, Absent, Noting, Chosen, AllChosen,
        SingleConflicts, Restore, Touch;
      ws := [];
      assert AllChosen(View(), d, 0, ws) by { NoChoices(View(), d); }
      if d.snapshot.id in processed {
        return if processed[d.snapshot.id] == d.hash then Some(ZERO_SUMMARY) else None, ws;
      }
      if !d.succeeded {
        processed := processed[d.snapshot.id := d.hash];
        return Some(ZERO_SUMMARY), ws;
      }
      ghost var p := Progress(View(), ZERO_SUMMARY);
      var sum, seen := ZERO_SUMMARY, {};
      for i := 0 to |d.snapshot.assets|
        invariant Progress(View(), sum) == ObserveAll(p, d, i) && seen == SeenKeys(d, i)
        invariant |ws| == i && AllChosen(p.st, d, i, ws)
        invariant Recorded(changes) == RecordedAfter(Recorded(old(changes)), p.st, d, ws)
      {
        seen := seen + {KeyOf(d, d.snapshot.assets[i].external)};
        SeenKeysStep(d, i);
        ghost var winner;
        sum, winner := ObserveOne(d, d.snapshot.assets[i], sum);
        ChosenSnoc(p.st, d, i, ws, winner);
        assert (ws + [winner])[..i] == ws;
        ws := ws + [winner];
      }
      ghost var q := Progress(View(), sum);
      var seenRels: set<RelKey> := {};
      for i := 0 to |d.snapshot.relationships|
        invariant Progress(View(), sum) == RelateAll(q, d, i) && bound == q.st.bound && seenRels == SeenRels(q.st, d, i)
        invariant Recorded(changes) == RecordedAfter(Recorded(old(changes)), p.st, d, ws)
      {
        SeenRelsStep(q.st, View(), d, i);
        seenRels, sum := RelateOne(d, d.snapshot.relationships[i], seenRels, sum);
      }
      SeenRelsSame(q.st, View(), d, |d.snapshot.relationships|);
      sum := RemoveUnlisted(d, seenRels, sum);
      sum := MarkAbsentIdentities(d, seen, sum);
      RestoreErased(changes);
      if SingleConflicts(p.st, d) {
        OneChoice(p.st, d, ws, SomeChoice(p.st, d, |d.snapshot.assets|));
      }
      processed := processed[d.snapshot.id := d.hash];
      r := Some(sum);
    }
  }

  lemma NoChoices(st: State, d: Delivery)
    ensures AllChosen(st, d, 0, [])
  {
  }

  lemma SeenKeysStep(d: Delivery, i: nat)
    requires i < |d.snapshot.assets|
    ensures SeenKeys(d, i + 1) == SeenKeys(d, i) + {KeyOf(d, d.snapshot.assets[i].external)}
  {
  }

  lemma SeenRelsSame(st: State, other: State, d: Delivery, n: nat)
    requires n <= |d.snapshot.relationships| && st.bound == other.bound
    ensures SeenRels(st, d, n) == SeenRels(other, d, n)
  {
  }

  lemma SeenRelsStep(st: State, other: State, d: Delivery, i: nat)
    requires i < |d.snapshot.relationships| && st.bound == other.bound
    ensures SeenRels(st, d, i + 1)
         == SeenRels(st, d, i)
            + (match RelKeyOf(other, d, d.snapshot.relationships[i]) case Some(k) => {k} case None => {})
  {
    assert RelKeyOf(st, d, d.snapshot.relationships[i]) == RelKeyOf(other, d, d.snapshot.relationships[i]);
  }

  lemma StateClaimsNone(claims: map<Slot, seq<Effective.Claim>>, d: Delivery, o: Observation, id: string)
    ensures StateClaims(claims, d, o, id, {}) == claims
  {
  }

  lemma EffectStep(claims: map<Slot, seq<Effective.Claim>>, d: Delivery, o: Observation, id: string, done: set<string>,
                   k: string)
    requires done <= o.attributes.Keys && k in o.attributes && k !in done
    ensures var sofar := StateClaims(claims, d, o, id, done);
            && EffectOf(sofar, d, o, id, k) == EffectOf(claims, d, o, id, k)
            && StateClaims(claims, d, o, id, done + {k}) == sofar[Slot(id, k) := Stated(sofar, d, o, id, k)]
  {
    StateClaimsStep(claims, d, o, id, done, k);
  }
}
