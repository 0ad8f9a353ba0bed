/** What one verified snapshot does to the tables, as functions of the tables before it.
    The statements that perform it are in module ReconcileStore. */
module Reconcile {
  import opened Domain
  import opened Tables
  import Resolution

  type Outcome<T> = Result<T, Error>

  /** Loop state of a reconciliation: the tables so far, the asset each external identifier
      of the snapshot resolved to, and the summary so far. */
  datatype Progress = Progress(t: Tables, bound: map<string, AssetId>, sum: Summary)

  // ---------- identity resolution ----------

  function SourceOf(s: Snapshot, external: string): SourceKey {
    SourceKey(s.org, s.connector, external)
  }

  function StrongRefs(org: string, hints: map<string, string>): set<StrongKey> {
    var ids := Resolution.StrongIdentities(hints);
    set k | k in ids :: StrongKey(org, k, ids[k])
  }

  /** The assets that the strong identifiers `refs` are already bound to. */
  function Hits(strong: map<StrongKey, AssetId>, refs: set<StrongKey>): set<AssetId> {
    set v | v in refs && v in strong :: strong[v]
  }

  predicate Agree(hits: set<AssetId>) {
    forall a, b :: a in hits && b in hits ==> a == b
  }

  /** The assets that an observation is evidence for: the one its source identity is bound to
      and the ones its strong identifiers are bound to. */
  function Candidates(t: Tables, s: Snapshot, o: Observation): set<AssetId> {
    var key := SourceOf(s, o.external);
    Hits(t.strong, StrongRefs(s.org, o.hints)) + (if key in t.sources then {t.sources[key].asset} else {})
  }

  datatype Touch = Touch(asset: AssetId, created: bool, returned: bool, assets: map<AssetId, AssetRow>)

  function SetStatus(assets: map<AssetId, AssetRow>, org: string, a: AssetId, status: AssetStatus)
    : map<AssetId, AssetRow> {
    if a in assets && a.org == org then assets[a := assets[a].(status := status)] else assets
  }

  /** Finds or creates the asset of an observation and marks it ACTIVE. */
  ghost function TouchAsset(t: Tables, s: Snapshot, o: Observation): Outcome<Touch> {
    var key := SourceOf(s, o.external);
    if key in t.sources then
      var a := t.sources[key].asset;
      if a !in t.assets || a.org != s.org then Err(NoAssetRow)
      else Ok(Touch(a, false, t.assets[a].status in {Missing, Stale}, SetStatus(t.assets, s.org, a, Active)))
    else
      var hits := Hits(t.strong, StrongRefs(s.org, o.hints));
      if !Agree(hits) then Err(ConflictingAssets)
      else if hits != {} then
        var a :| a in hits;
        Ok(Touch(a, false, false, SetStatus(t.assets, s.org, a, Active)))
      else
        var a := AssetId(s.org, s.connector, o.external);
        if a in t.assets then Err(DuplicateRow)
        else Ok(Touch(a, true, false, t.assets[a := AssetRow(o.assetType, Active)]))
  }

  /** Source identity upsert: a new row is bound to `a`; an existing row keeps its binding. */
  function BindSource(sources: map<SourceKey, SourceRow>, key: SourceKey, a: AssetId): map<SourceKey, SourceRow> {
    sources[key := SourceRow(if key in sources then sources[key].asset else a, true, 0)]
  }

  /** Strong identity upserts: unbound identifiers are bound to `a`, bound ones keep their asset. */
  function BindStrong(strong: map<StrongKey, AssetId>, refs: set<StrongKey>, a: AssetId): map<StrongKey, AssetId> {
    map v | v in strong.Keys + refs :: if v in strong then strong[v] else a
  }

  // ---------- claims ----------

  /** The claim rows that an observation supersedes when it states attribute keys `keys`. */
  predicate Superseded(c: ClaimRow, s: Snapshot, a: AssetId, keys: set<string>) {
    c.active && c.org == s.org && c.asset == a && c.connector == s.connector && c.key in keys
  }

  function ClaimOf(s: Snapshot, o: Observation, a: AssetId, key: string): ClaimRow
    requires key in o.attributes
  {
    ClaimRow(s.org, a, key, o.attributes[key], s.connector, true)
  }

  function NewClaimIds(s: Snapshot, o: Observation, keys: set<string>): set<ClaimId> {
    set k | k in keys :: ClaimId(s.id, o.external, k)
  }

  /** The claims after the attributes `keys` of `o` have been recorded. */
  function RecordClaims(claims: map<ClaimId, ClaimRow>, s: Snapshot, o: Observation, a: AssetId, keys: set<string>)
    : (r: map<ClaimId, ClaimRow>)
    requires keys <= o.attributes.Keys
  {
    map id | id in claims.Keys + NewClaimIds(s, o, keys) ::
      if id in NewClaimIds(s, o, keys) then ClaimOf(s, o, a, id.key)
      else if Superseded(claims[id], s, a, keys) then claims[id].(active := false)
      else claims[id]
  }

  /** The status that `updateEffectiveAsset` stores. */
  function EffectiveStatus(claims: map<ClaimId, ClaimRow>, org: string, a: AssetId): AssetStatus {
    if HasConflict(claims, org, a) then Conflicting else Active
  }

  // ---------- one asset observation ----------

  function ChangeOf(s: Snapshot, a: AssetId, kind: ChangeKind): Change {
    Change(s.org, s.id, a, kind)
  }

  function Bit(b: bool): nat { if b then 1 else 0 }

  predicate WellFormed(o: Observation) {
    o.external != "" && |o.external| <= 1024
  }

  predicate LongKey(o: Observation) {
    exists k :: k in o.attributes && |k| > 200
  }

  ghost function ObserveAsset(p: Progress, s: Snapshot, o: Observation): Outcome<Progress> {
    if !WellFormed(o) then Err(BadExternalId)
    else if o.assetType !in ASSET_TYPES then Err(UnknownAssetType)
    else if o.external in p.bound then Err(DuplicateExternalId)
    else
      var x :- TouchAsset(p.t, s, o);
      RecordObservation(p, s, o, x)
  }

  /** Binds the touched asset's identities and records the observation and its claims. */
  ghost function RecordObservation(p: Progress, s: Snapshot, o: Observation, x: Touch): Outcome<Progress> {
    var refs := StrongRefs(s.org, o.hints);
    var strong := BindStrong(p.t.strong, refs, x.asset);
    if exists v :: v in refs && strong[v] != x.asset then Err(StrongConflict)
    else if ObservationKey(s.id, o.external) in p.t.observations then Err(DuplicateRow)
    else if LongKey(o) then Err(AttributeKeyTooLong)
    else if exists id :: id in NewClaimIds(s, o, o.attributes.Keys) && id in p.t.claims then Err(DuplicateRow)
    else Ok(Observed(p, s, o, x, strong))
  }

  /** The tables and summary after an accepted observation. */
  function Observed(p: Progress, s: Snapshot, o: Observation, x: Touch, strong: map<StrongKey, AssetId>): Progress {
    var claims := RecordClaims(p.t.claims, s, o, x.asset, o.attributes.Keys);
    var conflict := HasConflict(claims, s.org, x.asset);
    Progress(
      p.t.(assets := SetStatus(x.assets, s.org, x.asset, EffectiveStatus(claims, s.org, x.asset)),
      sources := BindSource(p.t.sources, SourceOf(s, o.external), x.asset),
      strong := strong,
      observations := p.t.observations[ObservationKey(s.id, o.external) := ObservationRow(s.org, s.connector, o.hints)],
      claims := claims,
      changes := p.t.changes
      + (if x.returned then {ChangeOf(s, x.asset, AssetReturned)} else {})
      + (if conflict then {ChangeOf(s, x.asset, SourceConflict)} else {})
      + (if x.created then {ChangeOf(s, x.asset, AssetDiscovered)} else {})),
      p.bound[o.external := x.asset],
      p.sum.(created := p.sum.created + Bit(x.created),
      updated := p.sum.updated + Bit(x.returned),
      kept := p.sum.kept + Bit(!x.created && !x.returned),
      conflicting := p.sum.conflicting + Bit(conflict),
      changes := p.sum.changes + Bit(x.returned) + Bit(conflict) + Bit(x.created)))
  }

  /** The progress after the first `n` observations of the snapshot. */
  ghost function ObserveAssets(t: Tables, s: Snapshot, n: nat): Outcome<Progress>
    requires n <= |s.assets|
  {
    if n == 0 then Ok(Progress(t, map[], ZERO_SUMMARY))
    else
      var p :- ObserveAssets(t, s, n - 1);
      ObserveAsset(p, s, s.assets[n - 1])
  }

  // ---------- one relationship observation ----------

  function RelSourceOf(s: Snapshot, r: RelationshipObservation): RelSourceKey {
    RelSourceKey(s.org, s.connector, r.from, r.to, r.relType)
  }

  function ObserveRelationship(p: Progress, s: Snapshot, r: RelationshipObservation): Outcome<Progress> {
    if r.from !in p.bound || r.to !in p.bound || r.relType == "" || |r.relType| > 160 then Err(BadRelationship)
    else
      var id := RelationshipId(s.org, p.bound[r.from], p.bound[r.to], r.relType);
      var isNew := id !in p.t.relationships;
      var row := RelObservationKey(s.id, r.from, r.to, r.relType);
      if row in p.t.relObservations then Err(DuplicateRow)
      else Ok(Progress(
                p.t.(relationships := p.t.relationships[id := true],
                relSources := p.t.relSources[RelSourceOf(s, r) := RelSourceRow(id, true, 0)],
                relObservations := p.t.relObservations + {row},
                changes := p.t.changes + (if isNew then {ChangeOf(s, id.from, RelationshipAdded)} else {})),
                p.bound,
                p.sum.(relationshipsCreated := p.sum.relationshipsCreated + Bit(isNew),
                changes := p.sum.changes + Bit(isNew))))
  }

  function ObserveRelationships(p: Progress, s: Snapshot, n: nat): Outcome<Progress>
    requires n <= |s.relationships|
  {
    if n == 0 then Ok(p)
    else
      var q :- ObserveRelationships(p, s, n - 1);
      ObserveRelationship(q, s, s.relationships[n - 1])
  }

  // ---------- absence ----------

  predicate OwnSource(s: Snapshot, k: SourceKey) {
    k.org == s.org && k.connector == s.connector
  }

  /** The connector's source identities that the snapshot does not list are absent once more. */
  function CountAbsences(t: Tables, s: Snapshot): map<SourceKey, SourceRow> {
    map k | k in t.sources ::
      if OwnSource(s, k) && ObservationKey(s.id, k.external) !in t.observations
      then t.sources[k].(absences := t.sources[k].absences + 1)
      else t.sources[k]
  }

  function Expired(sources: map<SourceKey, SourceRow>, s: Snapshot, threshold: int): set<SourceKey> {
    set k | k in sources && OwnSource(s, k) && sources[k].active && sources[k].absences >= threshold
  }

  function Expire(sources: map<SourceKey, SourceRow>, expired: set<SourceKey>): map<SourceKey, SourceRow> {
    map k | k in sources :: if k in expired then sources[k].(active := false) else sources[k]
  }

  function AssetsOf(sources: map<SourceKey, SourceRow>, keys: set<SourceKey>): set<AssetId> {
    set k | k in keys && k in sources :: sources[k].asset
  }

  /** Claims of the connector on `affected` assets where it has no ACTIVE identity left are retracted. */
  function RetractClaims(claims: map<ClaimId, ClaimRow>, sources: map<SourceKey, SourceRow>, s: Snapshot,
                         affected: set<AssetId>)
    : map<ClaimId, ClaimRow>
  {
    map id | id in claims ::
      if claims[id].org == s.org && claims[id].connector == s.connector && claims[id].asset in affected
         && !HasActiveSourceOf(sources, s.org, s.connector, claims[id].asset)
      then claims[id].(active := false)
      else claims[id]
  }

  /** The status stored for an affected asset once its claims have been retracted. */
  function SettledStatus(claims: map<ClaimId, ClaimRow>, sources: map<SourceKey, SourceRow>, org: string, a: AssetId)
    : AssetStatus {
    if !HasActiveSource(sources, a) then Missing else EffectiveStatus(claims, org, a)
  }

  function SettleAssets(assets: map<AssetId, AssetRow>, claims: map<ClaimId, ClaimRow>,
                        sources: map<SourceKey, SourceRow>, s: Snapshot, affected: set<AssetId>)
    : map<AssetId, AssetRow>
  {
    map a | a in assets ::
      if a in affected && a.org == s.org
      then assets[a].(status := SettledStatus(claims, sources, s.org, a))
      else assets[a]
  }

  /** Expired source identities whose asset has no ACTIVE source identity left. */
  function Gone(t: Tables, s: Snapshot, sources: map<SourceKey, SourceRow>, expired: set<SourceKey>): set<SourceKey> {
    set k | k in expired && k in sources && sources[k].asset in t.assets && sources[k].asset.org == s.org
            && !HasActiveSource(sources, sources[k].asset)
  }

  function MissingChanges(s: Snapshot, gone: set<AssetId>): set<Change> {
    set a | a in gone :: ChangeOf(s, a, AssetMissing)
  }

  /** The progress once the expired identities `done` have been processed, given the
      source identities `sources` after expiry. */
  function MarkAssets(p: Progress, s: Snapshot, sources: map<SourceKey, SourceRow>, done: set<SourceKey>): Progress {
    var affected := AssetsOf(sources, done);
    var claims := RetractClaims(p.t.claims, sources, s, affected);
    var gone := Gone(p.t, s, sources, done);
    p.(t := p.t.(sources := sources,
    claims := claims,
    assets := SettleAssets(p.t.assets, claims, sources, s, affected),
    changes := p.t.changes + MissingChanges(s, AssetsOf(sources, gone))),
    sum := p.sum.(missing := p.sum.missing + |gone|, changes := p.sum.changes + |gone|))
  }

  predicate OwnRelSource(s: Snapshot, q: RelSourceKey) {
    q.org == s.org && q.connector == s.connector
  }

  function CountRelAbsences(t: Tables, s: Snapshot): map<RelSourceKey, RelSourceRow> {
    map q | q in t.relSources ::
      if OwnRelSource(s, q) && RelObservationKey(s.id, q.from, q.to, q.relType) !in t.relObservations
      then t.relSources[q].(absences := t.relSources[q].absences + 1)
      else t.relSources[q]
  }

  function ExpiredRels(relSources: map<RelSourceKey, RelSourceRow>, s: Snapshot, threshold: int): set<RelSourceKey> {
    set q | q in relSources && OwnRelSource(s, q) && relSources[q].active && relSources[q].absences >= threshold
  }

  function ExpireRels(relSources: map<RelSourceKey, RelSourceRow>, expired: set<RelSourceKey>)
    : map<RelSourceKey, RelSourceRow> {
    map q | q in relSources :: if q in expired then relSources[q].(active := false) else relSources[q]
  }

  /** ACTIVE relationships that an expired source points to and that no ACTIVE source points to. */
  function RemovedRels(t: Tables, s: Snapshot, relSources: map<RelSourceKey, RelSourceRow>, done: set<RelSourceKey>)
    : set<RelationshipId> {
    set q | q in done && q in relSources && relSources[q].relationship in t.relationships
            && relSources[q].relationship.org == s.org
            && t.relationships[relSources[q].relationship]
            && !HasActiveRelSource(relSources, relSources[q].relationship)
      :: relSources[q].relationship
  }

  function WithoutRels(relationships: map<RelationshipId, bool>, removed: set<RelationshipId>)
    : map<RelationshipId, bool> {
    map r | r in relationships :: relationships[r] && r !in removed
  }

  function MarkRelationships(p: Progress, s: Snapshot, relSources: map<RelSourceKey, RelSourceRow>,
                             done: set<RelSourceKey>): Progress {
    var removed := RemovedRels(p.t, s, relSources, done);
    p.(t := p.t.(relSources := relSources,
    relationships := WithoutRels(p.t.relationships, removed)),
    sum := p.sum.(relationshipsRemoved := p.sum.relationshipsRemoved + |removed|))
  }

  function MarkMissingAssets(p: Progress, s: Snapshot, threshold: int): Progress {
    var counted := CountAbsences(p.t, s);
    var expired := Expired(counted, s, threshold);
    MarkAssets(p, s, Expire(counted, expired), expired)
  }

  function MarkRemovedRelationships(p: Progress, s: Snapshot, threshold: int): Progress {
    var counted := CountRelAbsences(p.t, s);
    var expired := ExpiredRels(counted, s, threshold);
    MarkRelationships(p, s, ExpireRels(counted, expired), expired)
  }

  function MarkMissing(p: Progress, s: Snapshot, threshold: int): Progress {
    MarkRemovedRelationships(MarkMissingAssets(p, s, threshold), s, threshold)
  }

  // ---------- the whole snapshot ----------

  function Threshold(threshold: int): (r: int)
    ensures r >= 1
  {
    if threshold < 1 then 2 else threshold
  }

  predicate HasIdentifiers(s: Snapshot) {
    s.org != "" && s.connector != "" && s.id != ""
  }

  /** All observations of the snapshot, then all its relationships. */
  ghost function ObserveAll(t: Tables, s: Snapshot): Outcome<Progress> {
    var p :- ObserveAssets(t, s, |s.assets|);
    ObserveRelationships(p, s, |s.relationships|)
  }

  ghost function Apply(t: Tables, s: Snapshot, threshold: int): Outcome<Progress> {
    if !HasIdentifiers(s) then Err(MissingIdentifiers)
    else
      var p :- ObserveAll(t, s);
      var q := MarkMissing(p, s, Threshold(threshold));
      if s.id in q.t.runs then Err(DuplicateRow)
      else Ok(q.(t := q.t.(runs := q.t.runs[s.id := q.sum])))
  }
}
