/** The values that SOURCE_CONFLICT changes record. They are the only part of a delivery's result
    that can depend on an iteration order. */
module InMemoryConflicts {
  import opened Domain
  import opened InMemory

  /** The SOURCE_CONFLICT changes, with the values they record. */
  function Recorded(changes: map<ChangeKey, Change>): map<ChangeKey, Change> {
    map key | key in changes && key.kind == Conflict :: changes[key]
  }

  /** A change without the value that a SOURCE_CONFLICT change records. */
  function EraseChange(key: ChangeKey, c: Change): Change {
    if key.kind == Conflict then c.(after := Nothing) else c
  }

  function Erase(changes: map<ChangeKey, Change>): map<ChangeKey, Change> {
    map k | k in changes :: EraseChange(k, changes[k])
  }

  /** Puts recorded values back. */
  function Restore(erased: map<ChangeKey, Change>, recorded: map<ChangeKey, Change>): map<ChangeKey, Change> {
    map k | k in erased :: if k in recorded then recorded[k] else erased[k]
  }

  lemma RestoreErased(changes: map<ChangeKey, Change>)
    ensures Restore(Erase(changes), Recorded(changes)) == changes
  {
  }

  lemma EraseAdd(changes: map<ChangeKey, Change>, key: ChangeKey, c: Change)
    ensures Erase(AddTo(changes, key, c)) == AddTo(Erase(changes), key, EraseChange(key, c))
    ensures key in Erase(changes) <==> key in changes
  {
  }

  lemma RecordedAdd(changes: map<ChangeKey, Change>, key: ChangeKey, c: Change)
    ensures Recorded(AddTo(changes, key, c)) == if key.kind == Conflict then AddTo(Recorded(changes), key, c)
                                                else Recorded(changes)
  {
  }

  // ---------- one observation ----------

  /** The conflict changes once the observation's conflict is noted with the effective value of
      attribute `winner`, if there is one. */
  function Noting(recorded: map<ChangeKey, Change>, claims: map<Slot, seq<Effective.Claim>>, d: Delivery,
                  o: Observation, id: string,
                  winner: Option<string>): map<ChangeKey, Change>
  {
    if winner.Some? && winner.value in o.attributes
    then AddTo(recorded, ChangeAt(d, id, Conflict),
               ChangeOf(d, Nothing, OfValue(EffectOf(claims, d, o, id, winner.value).value)))
    else recorded
  }

  /** `winner` is one of the conflicting attributes, or there are none. */
  predicate Chosen(claims: map<Slot, seq<Effective.Claim>>, d: Delivery, o: Observation, id: string,
                   winner: Option<string>) {
    match winner
    case Some(k) => k in Conflicts(claims, d, o, id, o.attributes.Keys)
    case None => Conflicts(claims, d, o, id, o.attributes.Keys) == {}
  }

  /** `winner` is a conflicting attribute among `done`, or there is none there. */
  ghost predicate Leads(claims: map<Slot, seq<Effective.Claim>>, d: Delivery, o: Observation, id: string,
                        done: set<string>, winner: Option<string>)
    requires done <= o.attributes.Keys
  {
    match winner
    case Some(k) => k in done && EffectOf(claims, d, o, id, k).conflict
    case None => forall k :: k in done ==> !EffectOf(claims, d, o, id, k).conflict
  }

  lemma NothingNoted(changes: map<ChangeKey, Change>, claims: map<Slot, seq<Effective.Claim>>, d: Delivery,
                     o: Observation, id: string)
    ensures Noting(changes, claims, d, o, id, None) == changes && Leads(claims, d, o, id, {}, None)
  {
  }

  /** The first conflicting attribute stays the winner. */
  function NextWinner(claims: map<Slot, seq<Effective.Claim>>, d: Delivery, o: Observation, id: string,
                      winner: Option<string>, k: string): Option<string>
    requires k in o.attributes
  {
    if winner.None? && EffectOf(claims, d, o, id, k).conflict then Some(k) else winner
  }

  lemma LeadsStep(changes: map<ChangeKey, Change>, claims: map<Slot, seq<Effective.Claim>>, d: Delivery,
                  o: Observation, id: string,
                  done: set<string>, winner: Option<string>, k: string)
    requires done <= o.attributes.Keys && k in o.attributes && Leads(claims, d, o, id, done, winner)
    ensures Leads(claims, d, o, id, done + {k}, NextWinner(claims, d, o, id, winner, k))
    ensures var effect, sofar := EffectOf(claims, d, o, id, k), Noting(changes, claims, d, o, id, winner);
            Noting(changes, claims, d, o, id, NextWinner(claims, d, o, id, winner, k))
            == if effect.conflict then AddTo(sofar, ChangeAt(d, id, Conflict),
                                             ChangeOf(d, Nothing, OfValue(effect.value))) else sofar
  {
    hide EffectOf;
  }

  lemma RecordedNoting(changes: map<ChangeKey, Change>, claims: map<Slot, seq<Effective.Claim>>, d: Delivery,
                       o: Observation, id: string,
                       winner: Option<string>)
    ensures Recorded(Noting(changes, claims, d, o, id, winner)) == Noting(Recorded(changes), claims, d, o, id, winner)
  {
    hide EffectOf, Recorded, AddTo;
    if winner.Some? && winner.value in o.attributes {
      RecordedAdd(changes, ChangeAt(d, id, Conflict),
                  ChangeOf(d, Nothing, OfValue(EffectOf(claims, d, o, id, winner.value).value)));
    }
  }

  lemma LeadsChosen(claims: map<Slot, seq<Effective.Claim>>, d: Delivery, o: Observation, id: string,
                    winner: Option<string>)
    requires Leads(claims, d, o, id, o.attributes.Keys, winner)
    ensures Chosen(claims, d, o, id, winner)
  {
    hide EffectOf;
  }

  // ---------- all observations ----------

  /** The claims before the `i`-th observation. */
  function ClaimsBefore(st: State, d: Delivery, i: nat): map<Slot, seq<Effective.Claim>>
    requires i <= |d.snapshot.assets|
  {
    ObserveAll(Progress(st, ZERO_SUMMARY), d, i).st.claims
  }

  /** The asset of the `i`-th observation. */
  function ObservedId(st: State, d: Delivery, i: nat): string
    requires i < |d.snapshot.assets|
  {
    Touch(ObserveAll(Progress(st, ZERO_SUMMARY), d, i), d, d.snapshot.assets[i]).1
  }

  /** The attributes of the `i`-th observation that conflict. */
  function ConflictSet(st: State, d: Delivery, i: nat): set<string>
    requires i < |d.snapshot.assets|
  {
    Conflicts(ClaimsBefore(st, d, i), d, d.snapshot.assets[i], ObservedId(st, d, i),
              d.snapshot.assets[i].attributes.Keys)
  }

  function ConflictKey(st: State, d: Delivery, i: nat): ChangeKey
    requires i < |d.snapshot.assets|
  {
    ChangeAt(d, ObservedId(st, d, i), Conflict)
  }

  function ConflictChange(st: State, d: Delivery, i: nat, k: string): Change
    requires i < |d.snapshot.assets| && k in d.snapshot.assets[i].attributes
  {
    ChangeOf(d, Nothing, OfValue(EffectOf(ClaimsBefore(st, d, i), d, d.snapshot.assets[i], ObservedId(st, d, i),
                                          k).value))
  }

  /** One choice for each of the first `n` observations. */
  predicate AllChosen(st: State, d: Delivery, n: nat, ws: seq<Option<string>>)
    requires n <= |d.snapshot.assets|
  {
    |ws| == n && forall i :: 0 <= i < n ==> Chosen(ClaimsBefore(st, d, i), d, d.snapshot.assets[i],
                                                   ObservedId(st, d, i), ws[i])
  }

  /** The conflict changes after the first observations, with the values chosen. */
  function RecordedAfter(recorded: map<ChangeKey, Change>, st: State, d: Delivery, ws: seq<Option<string>>)
    : map<ChangeKey, Change>
    requires |ws| <= |d.snapshot.assets|
  {
    if ws == [] then recorded
    else
      var i := |ws| - 1;
      Noting(RecordedAfter(recorded, st, d, ws[..i]), ClaimsBefore(st, d, i), d, d.snapshot.assets[i],
             ObservedId(st, d, i), ws[i])
  }

  lemma ChosenPrefix(st: State, d: Delivery, n: nat, ws: seq<Option<string>>)
    requires 0 < n <= |d.snapshot.assets| && AllChosen(st, d, n, ws)
    ensures AllChosen(st, d, n - 1, ws[..n - 1])
    ensures Chosen(ClaimsBefore(st, d, n - 1), d, d.snapshot.assets[n - 1], ObservedId(st, d, n - 1), ws[n - 1])
  {
    hide Chosen, ClaimsBefore, ObservedId;
  }

  lemma ChosenSnoc(st: State, d: Delivery, n: nat, ws: seq<Option<string>>, w: Option<string>)
    requires n < |d.snapshot.assets| && AllChosen(st, d, n, ws)
    requires Chosen(ClaimsBefore(st, d, n), d, d.snapshot.assets[n], ObservedId(st, d, n), w)
    ensures AllChosen(st, d, n + 1, ws + [w])
  {
    hide Chosen, ClaimsBefore, ObservedId;
  }

  /** One more observation noted. */
  lemma NotingOne(recorded: map<ChangeKey, Change>, st: State, d: Delivery, i: nat, w: Option<string>)
    requires i < |d.snapshot.assets| && Chosen(ClaimsBefore(st, d, i), d, d.snapshot.assets[i], ObservedId(st, d, i), w)
    ensures w.Some? <==> ConflictSet(st, d, i) != {}
    ensures w.Some? ==> w.value in ConflictSet(st, d, i) && w.value in d.snapshot.assets[i].attributes
    ensures Noting(recorded, ClaimsBefore(st, d, i), d, d.snapshot.assets[i], ObservedId(st, d, i), w)
         == if w.Some? then AddTo(recorded, ConflictKey(st, d, i), ConflictChange(st, d, i, w.value)) else recorded
  {
    hide ClaimsBefore, ObservedId, EffectOf;
  }

  /** Observation `i` is the first one that finds the asset of `key` conflicting. */
  predicate FirstConflict(st: State, d: Delivery, i: nat, key: ChangeKey)
    requires i < |d.snapshot.assets|
  {
    && ConflictSet(st, d, i) != {} && ConflictKey(st, d, i) == key
    && forall j :: 0 <= j < i && ConflictKey(st, d, j) == key ==> ConflictSet(st, d, j) == {}
  }

  ghost predicate ConflictsBy(st: State, d: Delivery, n: nat, key: ChangeKey)
    requires n <= |d.snapshot.assets|
  {
    exists i :: 0 <= i < n && ConflictSet(st, d, i) != {} && ConflictKey(st, d, i) == key
  }

  /** `c` records the effective value of a conflicting attribute of the first observation that
      finds the asset conflicting. */
  ghost predicate RecordsFirst(st: State, d: Delivery, n: nat, key: ChangeKey, c: Change)
    requires n <= |d.snapshot.assets|
  {
    exists i, k :: 0 <= i < n && FirstConflict(st, d, i, key) && k in ConflictSet(st, d, i)
                   && k in d.snapshot.assets[i].attributes
                   && c == ConflictChange(st, d, i, k)
  }

  /** Old conflict changes stay. There is a new one for exactly the assets that some observation
      finds conflicting, and it records a conflicting value of the first such observation. */
  lemma {:induction false} WhatIsRecorded(recorded: map<ChangeKey, Change>, st: State, d: Delivery,
                                          ws: seq<Option<string>>, key: ChangeKey)
    requires |ws| <= |d.snapshot.assets| && AllChosen(st, d, |ws|, ws)
    ensures var after := RecordedAfter(recorded, st, d, ws);
            && (key in after <==> key in recorded || ConflictsBy(st, d, |ws|, key))
            && (key in recorded ==> after[key] == recorded[key])
            && (key in after && key !in recorded ==> RecordsFirst(st, d, |ws|, key, after[key]))
  {
    hide Noting, Chosen, ConflictSet, ConflictKey, ConflictChange, AllChosen, ConflictsBy, RecordsFirst, ClaimsBefore,
      ObservedId;
    if ws == [] {
      NoConflicts(st, d, key);
    } else {
      var n := |ws| - 1;
      ChosenPrefix(st, d, n + 1, ws);
      WhatIsRecorded(recorded, st, d, ws[..n], key);
      var before := RecordedAfter(recorded, st, d, ws[..n]);
      NotingOne(before, st, d, n, ws[n]);
      ConflictsByStep(st, d, n, key);
      if key in before {
        if key !in recorded {
          RecordsLater(st, d, n, key, before[key]);
        }
      } else if ws[n].Some? && ConflictKey(st, d, n) == key {
        FirstRecorded(st, d, n, key, ws[n].value);
      }
    }
  }

  lemma NoConflicts(st: State, d: Delivery, key: ChangeKey)
    ensures !ConflictsBy(st, d, 0, key)
  {
  }

  lemma ConflictsByStep(st: State, d: Delivery, n: nat, key: ChangeKey)
    requires n < |d.snapshot.assets|
    ensures ConflictsBy(st, d, n + 1, key) <==> ConflictsBy(st, d, n, key)
                                                || (ConflictSet(st, d, n) != {} && ConflictKey(st, d, n) == key)
  {
    hide ConflictSet, ConflictKey;
  }

  lemma FirstRecorded(st: State, d: Delivery, n: nat, key: ChangeKey, k: string)
    requires n < |d.snapshot.assets| && !ConflictsBy(st, d, n, key)
    requires ConflictKey(st, d, n) == key && k in ConflictSet(st, d, n) && k in d.snapshot.assets[n].attributes
    ensures RecordsFirst(st, d, n + 1, key, ConflictChange(st, d, n, k))
  {
    hide ConflictSet, ConflictKey, ConflictChange;
    assert FirstConflict(st, d, n, key);
  }

  lemma RecordsLater(st: State, d: Delivery, n: nat, key: ChangeKey, c: Change)
    requires n < |d.snapshot.assets| && RecordsFirst(st, d, n, key, c)
    ensures RecordsFirst(st, d, n + 1, key, c)
  {
    hide FirstConflict, ConflictSet, ConflictChange;
  }

  // ---------- when nothing depends on the order ----------

  /** No observation has two conflicting attributes. */
  predicate SingleConflicts(st: State, d: Delivery) {
    forall i :: 0 <= i < |d.snapshot.assets| ==> |ConflictSet(st, d, i)| <= 1
  }

  lemma SameChoice(st: State, d: Delivery, i: nat, w: Option<string>, v: Option<string>)
    requires i < |d.snapshot.assets| && |ConflictSet(st, d, i)| <= 1
    requires Chosen(ClaimsBefore(st, d, i), d, d.snapshot.assets[i], ObservedId(st, d, i), w)
    requires Chosen(ClaimsBefore(st, d, i), d, d.snapshot.assets[i], ObservedId(st, d, i), v)
    ensures w == v
  {
    hide ClaimsBefore, ObservedId, Conflicts;
    if w.Some? && v.Some? {
      AtMostOne(ConflictSet(st, d, i), w.value, v.value);
    }
  }

  lemma AtMostOne(s: set<string>, a: string, b: string)
    requires |s| <= 1 && a in s && b in s
    ensures a == b
  {
    assert |s - {a}| == 0;
  }

  /** Then all choices are the same, and so are the recorded values. */
  lemma OneChoice(st: State, d: Delivery, ws: seq<Option<string>>, vs: seq<Option<string>>)
    requires SingleConflicts(st, d) && AllChosen(st, d, |d.snapshot.assets|, ws)
    requires AllChosen(st, d, |d.snapshot.assets|, vs)
    ensures ws == vs
  {
    hide ConflictSet, ClaimsBefore, ObservedId, Chosen;
    forall i | 0 <= i < |ws| ensures ws[i] == vs[i] {
      SameChoice(st, d, i, ws[i], vs[i]);
    }
  }

  /** Some conflicting attribute of the `i`-th observation, if there is one. */
  ghost function SomeWinner(st: State, d: Delivery, i: nat): (w: Option<string>)
    requires i < |d.snapshot.assets|
    ensures Chosen(ClaimsBefore(st, d, i), d, d.snapshot.assets[i], ObservedId(st, d, i), w)
  {
    hide ClaimsBefore, ObservedId, Conflicts;
    if ConflictSet(st, d, i) == {} then None else var k :| k in ConflictSet(st, d, i); Some(k)
  }

  /** A choice for every observation. */
  ghost function SomeChoice(st: State, d: Delivery, n: nat): (ws: seq<Option<string>>)
    requires n <= |d.snapshot.assets|
    ensures AllChosen(st, d, n, ws)
  {
    hide SomeWinner, Chosen, ClaimsBefore, ObservedId;
    seq(n, i requires 0 <= i < n => SomeWinner(st, d, i))
  }

  /** The conflict changes after a delivery to `st`, where no observation has two conflicting attributes. */
  ghost function DeterminedConflicts(recorded: map<ChangeKey, Change>, st: State, d: Delivery): map<ChangeKey, Change> {
    RecordedAfter(recorded, st, d, SomeChoice(st, d, |d.snapshot.assets|))
  }
}
