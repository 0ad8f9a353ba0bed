/** The reconciliation tables. Each table is a map from its unique key to its other columns.
    Row identifiers derived by hashing are constructor terms: the digest is taken to be
    injective, so an identifier names the values it was computed from. */
module Tables {
  import opened Domain

  datatype AssetId = AssetId(org: string, connector: string, external: string)

  datatype AssetRow = AssetRow(assetType: string, status: AssetStatus)

  datatype SourceKey = SourceKey(org: string, connector: string, external: string)

  /** A source identity: the asset it is bound to, ACTIVE or MISSING, and its absence counter. */
  datatype SourceRow = SourceRow(asset: AssetId, active: bool, absences: nat)

  datatype StrongKey = StrongKey(org: string, key: string, value: string)

  datatype ObservationKey = ObservationKey(snapshot: string, external: string)

  datatype ObservationRow = ObservationRow(org: string, connector: string, hints: map<string, string>)

  datatype ClaimId = ClaimId(snapshot: string, external: string, key: string)

  datatype ClaimRow = ClaimRow(org: string, asset: AssetId, key: string, value: string,
                               connector: string, active: bool)

  datatype RelationshipId = RelationshipId(org: string, from: AssetId, to: AssetId, relType: string)

  datatype RelSourceKey = RelSourceKey(org: string, connector: string, from: string, to: string, relType: string)

  /** A relationship source identity: its target, ACTIVE or REMOVED, and its absence counter. */
  datatype RelSourceRow = RelSourceRow(relationship: RelationshipId, active: bool, absences: nat)

  datatype RelObservationKey = RelObservationKey(snapshot: string, from: string, to: string, relType: string)

  datatype ChangeKind = AssetDiscovered | AssetReturned | AssetMissing | SourceConflict | RelationshipAdded

  /** The logical identity of a change. A change row is inserted at most once per identity. */
  datatype Change = Change(org: string, snapshot: string, asset: AssetId, kind: ChangeKind)

  datatype Tables = Tables(
    assets: map<AssetId, AssetRow>,
    sources: map<SourceKey, SourceRow>,
    strong: map<StrongKey, AssetId>,
    observations: map<ObservationKey, ObservationRow>,
    claims: map<ClaimId, ClaimRow>,
    relationships: map<RelationshipId, bool>,   // true is ACTIVE, false is REMOVED
    relSources: map<RelSourceKey, RelSourceRow>,
    relObservations: set<RelObservationKey>,
    changes: set<Change>,
    runs: map<string, Summary>)                 // reconciliation run by snapshot identifier

  const EMPTY := Tables(map[], map[], map[], map[], map[], map[], map[], {}, {}, map[])

  datatype Error =
    | MissingIdentifiers
    | BadExternalId
    | UnknownAssetType
    | DuplicateExternalId
    | ConflictingAssets      // strong identifiers resolve to two assets
    | StrongConflict         // a strong identifier is bound to another asset
    | NoAssetRow             // a bound asset row does not exist
    | DuplicateRow           // a primary key or unique constraint is violated
    | AttributeKeyTooLong
    | BadRelationship

  /** Whether some ACTIVE source identity is bound to `asset`. */
  predicate HasActiveSource(sources: map<SourceKey, SourceRow>, asset: AssetId) {
    exists k :: k in sources && sources[k].asset == asset && sources[k].active
  }

  /** Whether `connector` has an ACTIVE source identity bound to `asset`. */
  predicate HasActiveSourceOf(sources: map<SourceKey, SourceRow>, org: string, connector: string, asset: AssetId) {
    exists k :: k in sources && sources[k].asset == asset && sources[k].active
                && k.org == org && k.connector == connector
  }

  predicate ActiveOn(c: ClaimRow, org: string, asset: AssetId) {
    c.active && c.org == org && c.asset == asset
  }

  /** Whether two active claims on `asset` give one attribute different values. */
  predicate HasConflict(claims: map<ClaimId, ClaimRow>, org: string, asset: AssetId) {
    exists i, j :: i in claims && j in claims
                   && ActiveOn(claims[i], org, asset) && ActiveOn(claims[j], org, asset)
                   && claims[i].key == claims[j].key && claims[i].value != claims[j].value
  }

  predicate HasActiveRelSource(relSources: map<RelSourceKey, RelSourceRow>, r: RelationshipId) {
    exists q :: q in relSources && relSources[q].relationship == r && relSources[q].active
  }
}
