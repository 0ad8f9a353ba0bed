/** What one delivery does to the in-memory reconciliation state, as functions of the state
    before it. Composite text keys are constructor terms: organization and connector
    identifiers are assumed not to contain the separator. */
module InMemory {
  import opened Domain
  import Effective

  datatype Key = Key(org: string, connector: string, external: string)

  datatype RelKey = RelKey(org: string, connector: string, from: string, to: string, relType: string)

  datatype Slot = Slot(asset: string, attribute: string)

  datatype Kind = Discovered | Returned | WentMissing | Conflict | RelationshipAdded | RelationshipRemoved

  datatype ChangeKey = ChangeKey(snapshot: string, asset: string, kind: Kind)

  datatype Asset = Asset(org: string, assetType: string, status: AssetStatus, firstSeen: int, lastSeen: int,
                         updated: int)

  datatype Relationship = Relationship(from: string, active: bool, firstSeen: int, lastSeen: int, updated: int)

  datatype Payload =
    | Nothing
    | OfStatus(status: AssetStatus)
    | OfAsset(asset: Asset)
    | OfRelationship(relationship: Relationship)
    | OfActive(active: bool)
    | OfValue(value: Option<string>)

  datatype Change = Change(org: string, source: string, before: Payload, after: Payload, detectedAt: int)

  datatype State = State(
    assets: map<string, Asset>,
    bound: map<Key, string>,
    claims: map<Slot, seq<Effective.Claim>>,
    relationships: map<RelKey, Relationship>,
    changes: map<ChangeKey, Change>,
    absences: map<Key, nat>,
    processed: map<string, string>)

  const EMPTY := State(map[], map[], map[], map[], map[], map[], map[])

  /** A snapshot as delivered: its content hash and status, the policy in force and the time
      that stands for its completion. */
  datatype Delivery = Delivery(snapshot: Snapshot, hash: string, succeeded: bool, policy: Effective.Policy,
                               threshold: int, now: int)

  datatype Progress = Progress(st: State, sum: Summary)

  // ---------- identifiers ----------

  function SafeChar(c: char): char {
    if 'A' <= c <= 'Z' then ((c as int) + 32) as char
    else if 'a' <= c <= 'z' || '0' <= c <= '9' || c == '-' then c
    else '-'
  }

  function TrimDashes(v: string): string {
    if v == "" then v
    else if v[0] == '-' then TrimDashes(v[1..])
    else if v[|v| - 1] == '-' then TrimDashes(v[..|v| - 1])
    else v
  }

  function Safe(v: string): string {
    TrimDashes(seq(|v|, i requires 0 <= i < |v| => SafeChar(v[i])))
  }

  function NewAssetId(external: string): string {
    "asset-" + Safe(external)
  }

  // ---------- one observation ----------

  function AssetAt(assets: map<string, Asset>, id: string): Asset {
    if id in assets then assets[id] else Asset("", "", Unknown, 0, 0, 0)
  }

  function ClaimsAt(claims: map<Slot, seq<Effective.Claim>>, slot: Slot): seq<Effective.Claim> {
    if slot in claims then claims[slot] else []
  }

  function Bit(b: bool): nat { if b then 1 else 0 }

  function AddTo(changes: map<ChangeKey, Change>, key: ChangeKey, c: Change): map<ChangeKey, Change> {
    if key in changes then changes else changes[key := c]
  }

  /** Records a change unless one with the same key exists, and counts it if recorded. */
  function AddChange(p: Progress, key: ChangeKey, c: Change): Progress {
    Progress(p.st.(changes := AddTo(p.st.changes, key, c)),
             p.sum.(changes := p.sum.changes + Bit(key !in p.st.changes)))
  }

  function ChangeOf(d: Delivery, before: Payload, after: Payload): Change {
    Change(d.snapshot.org, d.snapshot.connector, before, after, d.snapshot.completedAt)
  }

  function KeyOf(d: Delivery, external: string): Key {
    Key(d.snapshot.org, d.snapshot.connector, external)
  }

  function ChangeAt(d: Delivery, asset: string, kind: Kind): ChangeKey {
    ChangeKey(d.snapshot.id, asset, kind)
  }

  /** Finds or creates the asset of an observation. */
  function Touch(p: Progress, d: Delivery, o: Observation): (Progress, string) {
    var key := KeyOf(d, o.external);
    if key !in p.st.bound then
      var id := NewAssetId(o.external);
      var a := Asset(d.snapshot.org, o.assetType, Active, d.now, d.now, d.now);
      var q := Progress(p.st.(bound := p.st.bound[key := id], assets := p.st.assets[id := a]),
                        p.sum.(created := p.sum.created + 1));
      (AddChange(q, ChangeAt(d, id, Discovered), ChangeOf(d, Nothing, OfAsset(a))), id)
    else
      var id := p.st.bound[key];
      var a := AssetAt(p.st.assets, id);
      var st := p.st.(assets := p.st.assets[id := a.(lastSeen := d.now, updated := d.now, status := Active)]);
      if a.status == Missing then
        var q := AddChange(p.(st := st), ChangeAt(d, id, Returned), ChangeOf(d, OfStatus(Missing), OfStatus(Active)));
        (q.(sum := q.sum.(updated := q.sum.updated + 1)), id)
      else
        (Progress(st, p.sum.(kept := p.sum.kept + 1)), id)
  }

  function Retire(claims: seq<Effective.Claim>, connector: string): seq<Effective.Claim> {
    seq(|claims|, i requires 0 <= i < |claims| =>
      if claims[i].connector == connector then claims[i].(active := false) else claims[i])
  }

  function NewClaim(d: Delivery, o: Observation, k: string): Effective.Claim
    requires k in o.attributes
  {
    Effective.Claim(d.snapshot.connector, k, o.attributes[k], d.snapshot.id, o.observedAt, true)
  }

  /** The claims on one attribute after the observation states it. */
  function Stated(claims: map<Slot, seq<Effective.Claim>>, d: Delivery, o: Observation, id: string, k: string)
    : seq<Effective.Claim>
    requires k in o.attributes
  {
    Retire(ClaimsAt(claims, Slot(id, k)), d.snapshot.connector) + [NewClaim(d, o, k)]
  }

  function SlotsOf(id: string, keys: set<string>): set<Slot> {
    set k | k in keys :: Slot(id, k)
  }

  function StateClaims(claims: map<Slot, seq<Effective.Claim>>, d: Delivery, o: Observation, id: string,
                       keys: set<string>): map<Slot, seq<Effective.Claim>>
    requires keys <= o.attributes.Keys
  {
    map s | s in claims.Keys + SlotsOf(id, keys) ::
      if s in SlotsOf(id, keys) then Stated(claims, d, o, id, s.attribute) else claims[s]
  }

  function EffectOf(claims: map<Slot, seq<Effective.Claim>>, d: Delivery, o: Observation, id: string, k: string)
    : Effective.Effect
    requires k in o.attributes
  {
    Effective.EffectiveOf(Stated(claims, d, o, id, k), k, d.policy)
  }

  /** The attributes among `keys` whose claims conflict once stated. */
  function Conflicts(claims: map<Slot, seq<Effective.Claim>>, d: Delivery, o: Observation, id: string,
                     keys: set<string>): set<string>
    requires keys <= o.attributes.Keys
  {
    set k | k in keys && EffectOf(claims, d, o, id, k).conflict
  }

  /** States the attributes `keys`. Which conflicting value a SOURCE_CONFLICT change records
      depends on the iteration order, so here it records none. */
  function StateAttributes(p: Progress, d: Delivery, o: Observation, id: string, keys: set<string>): Progress
    requires keys <= o.attributes.Keys
  {
    NoteConflicts(p.(st := p.st.(claims := StateClaims(p.st.claims, d, o, id, keys))), d, id,
                  |Conflicts(p.st.claims, d, o, id, keys)|)
  }

  /** Marks the asset CONFLICTING for `n` conflicting attributes, if there are any. */
  function NoteConflicts(p: Progress, d: Delivery, id: string, n: nat): Progress {
    var key := ChangeAt(d, id, Conflict);
    Progress(
      p.st.(assets := if n == 0 then p.st.assets else SetConflicting(p.st.assets, id),
      changes := if n == 0 then p.st.changes else AddTo(p.st.changes, key, ChangeOf(d, Nothing, Nothing))),
      p.sum.(conflicting := p.sum.conflicting + n, changes := p.sum.changes + Bit(n > 0 && key !in p.st.changes)))
  }

  function SetConflicting(assets: map<string, Asset>, id: string): map<string, Asset> {
    assets[id := AssetAt(assets, id).(status := Conflicting)]
  }

  function Observe(p: Progress, d: Delivery, o: Observation): Progress {
    var (q, id) := Touch(p, d, o);
    StateAttributes(q.(st := q.st.(absences := q.st.absences[KeyOf(d, o.external) := 0])), d, o, id, o.attributes.Keys)
  }

  function ObserveAll(p: Progress, d: Delivery, n: nat): Progress
    requires n <= |d.snapshot.assets|
  {
    if n == 0 then p else Observe(ObserveAll(p, d, n - 1), d, d.snapshot.assets[n - 1])
  }

  // ---------- relationships ----------

  function RelKeyOf(st: State, d: Delivery, r: RelationshipObservation): Option<RelKey> {
    var from, to := KeyOf(d, r.from), KeyOf(d, r.to);
    if from in st.bound && to in st.bound
    then Some(RelKey(d.snapshot.org, d.snapshot.connector, st.bound[from], st.bound[to], r.relType))
    else None
  }

  function Relate(p: Progress, d: Delivery, r: RelationshipObservation): Progress {
    match RelKeyOf(p.st, d, r)
    case None => p
    case Some(key) =>
      if key !in p.st.relationships then
        var rel := Relationship(key.from, true, d.now, d.now, d.now);
        var q := Progress(p.st.(relationships := p.st.relationships[key := rel]),
                          p.sum.(relationshipsCreated := p.sum.relationshipsCreated + 1));
        AddChange(q, ChangeAt(d, key.from, RelationshipAdded), ChangeOf(d, Nothing, OfRelationship(rel)))
      else
        p.(st := p.st.(relationships := p.st.relationships[
        key := p.st.relationships[key].(active := true, lastSeen := d.now, updated := d.now)]))
  }

  function RelateAll(p: Progress, d: Delivery, n: nat): Progress
    requires n <= |d.snapshot.relationships|
  {
    if n == 0 then p else Relate(RelateAll(p, d, n - 1), d, d.snapshot.relationships[n - 1])
  }

  /** The relationship keys that the snapshot lists, given the bindings. */
  function SeenRels(st: State, d: Delivery, n: nat): set<RelKey>
    requires n <= |d.snapshot.relationships|
  {
    set i | 0 <= i < n && RelKeyOf(st, d, d.snapshot.relationships[i]).Some? ::
      RelKeyOf(st, d, d.snapshot.relationships[i]).value
  }

  /** ACTIVE relationships of the connector that the snapshot does not list. */
  function Unlisted(st: State, d: Delivery, seen: set<RelKey>): set<RelKey> {
    set k | k in st.relationships && k.org == d.snapshot.org && k.connector == d.snapshot.connector && k !in seen
            && st.relationships[k].active
  }

  function RemovalKeys(relationships: map<RelKey, Relationship>, d: Delivery, removed: set<RelKey>): set<ChangeKey> {
    set k | k in removed && k in relationships :: ChangeAt(d, relationships[k].from, RelationshipRemoved)
  }

  function RemovalChange(d: Delivery): Change {
    ChangeOf(d, OfActive(true), OfActive(false))
  }

  function WithoutRels(relationships: map<RelKey, Relationship>, d: Delivery, removed: set<RelKey>)
    : map<RelKey, Relationship> {
    map k | k in relationships ::
      if k in removed then relationships[k].(active := false, updated := d.now) else relationships[k]
  }

  /** The changes with a removal recorded under every key of `keys` that is new. */
  function WithRemovals(changes: map<ChangeKey, Change>, d: Delivery, keys: set<ChangeKey>): map<ChangeKey, Change> {
    map c | c in changes.Keys + keys :: if c in changes then changes[c] else RemovalChange(d)
  }

  /** Removes the relationships `removed`. */
  function RemoveRels(p: Progress, d: Delivery, removed: set<RelKey>): Progress {
    var keys := RemovalKeys(p.st.relationships, d, removed);
    Progress(
      p.st.(relationships := WithoutRels(p.st.relationships, d, removed),
      changes := WithRemovals(p.st.changes, d, keys)),
      p.sum.(relationshipsRemoved := p.sum.relationshipsRemoved + |removed|,
      changes := p.sum.changes + |keys - p.st.changes.Keys|))
  }

  // ---------- absence ----------

  function SeenKeys(d: Delivery, n: nat): set<Key>
    requires n <= |d.snapshot.assets|
  {
    set i | 0 <= i < n :: KeyOf(d, d.snapshot.assets[i].external)
  }

  /** Identities of the connector that the snapshot does not list. */
  function Absent(st: State, d: Delivery): set<Key> {
    set k | k in st.bound && k.org == d.snapshot.org && k.connector == d.snapshot.connector
            && k !in SeenKeys(d, |d.snapshot.assets|)
  }

  function AbsencesAt(absences: map<Key, nat>, k: Key): nat {
    if k in absences then absences[k] else 0
  }

  function Threshold(threshold: int): int {
    if threshold < 1 then 1 else threshold
  }

  /** Assets, not yet MISSING or RETIRED, with an identity in `absent` whose counter reaches the threshold. */
  function Lost(st: State, d: Delivery, absent: set<Key>): set<string> {
    set k | k in absent && k in st.bound && AbsencesAt(st.absences, k) + 1 >= Threshold(d.threshold)
            && AssetAt(st.assets, st.bound[k]).status !in {Missing, Retired}
      :: st.bound[k]
  }

  function LossKeys(d: Delivery, lost: set<string>): set<ChangeKey> {
    set id | id in lost :: ChangeAt(d, id, WentMissing)
  }

  function LossChange(assets: map<string, Asset>, d: Delivery, id: string): Change {
    ChangeOf(d, OfStatus(AssetAt(assets, id).status), OfStatus(Missing))
  }

  function CountAbsent(absences: map<Key, nat>, absent: set<Key>): map<Key, nat> {
    map k | k in absences.Keys + absent :: if k in absent then AbsencesAt(absences, k) + 1 else absences[k]
  }

  function MarkLost(assets: map<string, Asset>, d: Delivery, lost: set<string>): map<string, Asset> {
    map id | id in assets.Keys + lost ::
      if id in lost then AssetAt(assets, id).(status := Missing, updated := d.now) else assets[id]
  }

  /** The changes with a loss recorded for every asset of `lost` that has none. */
  function WithLosses(changes: map<ChangeKey, Change>, assets: map<string, Asset>, d: Delivery, lost: set<string>)
    : map<ChangeKey, Change> {
    map c | c in changes.Keys + LossKeys(d, lost) :: if c in changes then changes[c] else LossChange(assets, d, c.asset)
  }

  /** Counts one more absence for every identity in `absent` and marks the assets `lost`. */
  function Marking(p: Progress, d: Delivery, absent: set<Key>, lost: set<string>): Progress {
    Progress(
      p.st.(absences := CountAbsent(p.st.absences, absent),
      assets := MarkLost(p.st.assets, d, lost),
      changes := WithLosses(p.st.changes, p.st.assets, d, lost)),
      p.sum.(missing := p.sum.missing + |lost|, changes := p.sum.changes + |LossKeys(d, lost) - p.st.changes.Keys|))
  }

  function MarkAbsent(p: Progress, d: Delivery, absent: set<Key>): Progress {
    Marking(p, d, absent, Lost(p.st, d, absent))
  }

  // ---------- the whole delivery ----------

  function ApplySucceeded(st: State, d: Delivery): Progress {
    var p := RelateAll(ObserveAll(Progress(st, ZERO_SUMMARY), d, |d.snapshot.assets|), d, |d.snapshot.relationships|);
    var q := RemoveRels(p, d, Unlisted(p.st, d, SeenRels(p.st, d, |d.snapshot.relationships|)));
    MarkAbsent(q, d, Absent(q.st, d))
  }

  function Process(st: State, d: Delivery): State {
    st.(processed := st.processed[d.snapshot.id := d.hash])
  }

  /** Applies a delivery: a known identifier changes nothing and is an error if its content
      differs; an unsuccessful snapshot is only noted. */
  function Apply(st: State, d: Delivery): Result<Progress, State> {
    if d.snapshot.id in st.processed then
      if st.processed[d.snapshot.id] == d.hash then Ok(Progress(st, ZERO_SUMMARY)) else Err(st)
    else if !d.succeeded then Ok(Progress(Process(st, d), ZERO_SUMMARY))
    else
      var p := ApplySucceeded(st, d);
      Ok(p.(st := Process(p.st, d)))
  }
}
