/** The asset service's operations as functions of the catalogue state; an error leaves the state alone. */
module AssetSteps {
  import opened Prelude
  import opened AssertionStore
  import opened CatalogueState

  datatype AssetError =
    | NoAsset
    | HouseholdMismatch
    | VersionMismatch
    | NothingToUpdate
    | IllegalTransition
    | NullColumn
    | UnknownEvidence
    | TargetNotFound
    | TargetHousehold
    | SelfMerge
    | TargetMerged
    | AlreadyMerged

  type Outcome = Result<State, AssetError>

  // ----- lifecycle -----

  const LifecycleStatuses: set<string> := {"DRAFT", "PENDING_REVIEW", "ACTIVE", "ARCHIVED", "DISPOSED", "MERGED"}

  const MERGED: Json := Str("MERGED")

  function AllowedNext(current: string): set<string> {
    if current == "DRAFT" then {"PENDING_REVIEW"}
    else if current == "PENDING_REVIEW" then {"ACTIVE"}
    else if current == "ACTIVE" then {"ARCHIVED", "MERGED"}
    else if current == "ARCHIVED" then {"DISPOSED"}
    else {}
  }

  predicate LegalTransition(current: Json, requested: Json) {
    && requested.Str? && requested.s in LifecycleStatuses
    && (requested == current || (current.Str? && requested.s in AllowedNext(current.s)))
  }

  // ----- create -----

  type Payload = map<CoreField, Json>

  const UpdateOrder: seq<CoreField> := [DisplayName, AssetType, Quantity, Unit, Condition, Status]
  const CreateOrder: seq<CoreField> := [AssetType, Quantity, Unit, Condition, Status]

  /** `dict.fromkeys`: first occurrences, in order. */
  function Distinct(ids: seq<Id>): (r: seq<Id>)
    ensures NoRepeats(r)
    ensures forall e :: e in r <==> e in ids
  {
    if ids == [] then []
    else
      var n := |ids| - 1;
      var r := Distinct(ids[..n]);
      assert forall e :: e in ids <==> e in ids[..n] || e == ids[n];
      if ids[n] in r then r else r + [ids[n]]
  }

  function Get(p: Payload, c: CoreField, default: Json): Json { if c in p then p[c] else default }

  /** `resolve_display_name`: a non-blank name wins, else the evidence names the asset, else no name. */
  function ResolveName(p: Payload, ids: seq<Id>, t: Text): (Json, Option<Source>) {
    var raw := Get(p, DisplayName, Null);
    if raw.Str? && !t.blank(raw.s) then (raw, Some(User))
    else if ids != [] then (Str(t.namer(ids)), Some(Deterministic))
    else (Null, None)
  }

  /** The insert leaves a null out, and the column's own default applies. */
  function OrDefault(v: Json, default: Json): Json { if v == Null then default else v }

  function InitialColumns(p: Payload, ids: seq<Id>, t: Text): Columns {
    Columns(ResolveName(p, ids, t).0, OrDefault(Get(p, AssetType, Null), Str("unknown")),
            OrDefault(Get(p, Status, Null), Str("ACTIVE")),
            Get(p, Quantity, Null), Get(p, Unit, Null), Get(p, Condition, Null))
  }

  function SuppliedRow(a: Id, p: Payload, c: CoreField, now: int): Row
    requires c in p
  {
    Row(a, Core(c), p[c], User, Accepted, [], now)
  }

  /** One accepted row for each supplied field of `order`. */
  function SuppliedRows(a: Id, p: Payload, order: seq<CoreField>, now: int): seq<Row> {
    if order == [] then []
    else
      var n := |order| - 1;
      SuppliedRows(a, p, order[..n], now)
      + (if order[n] in p && p[order[n]] != Null then [SuppliedRow(a, p, order[n], now)] else [])
  }

  function NameRow(a: Id, p: Payload, ids: seq<Id>, t: Text, now: int): seq<Row> {
    match ResolveName(p, ids, t)
    case (name, Some(source)) => [Row(a, Core(DisplayName), name, source, Accepted, [], now)]
    case (_, None) => []
  }

  /** The evidence links one asset gains. */
  function LinksOf(a: Id, ids: seq<Id>): set<(Id, Id)> { set e | e in ids :: (a, e) }

  function Create(s: State, a: Id, household: Id, p: Payload, evidence: seq<Id>, t: Text, now: int): Outcome {
    var ids := Distinct(evidence);
    var columns := InitialColumns(p, ids, t);
    if exists e | e in ids :: e !in s.evidence then Err(UnknownEvidence)
    else
      Ok(s.(assets := s.assets[a := Asset(household, columns, 1)],
            born := s.born[a := columns],
            rows := s.rows + SuppliedRows(a, p, CreateOrder, now) + NameRow(a, p, ids, t, now),
            links := s.links + LinksOf(a, ids),
            audit := s.audit + [AssetEvent(a, Created, household), AssetEvent(a, ReviewAccepted, household)]))
  }

  // ----- update -----

  /** `setattr` on one column. */
  function SetColumn(s: State, a: Id, c: CoreField, v: Json): State
    requires a in s.assets
  {
    var asset := s.assets[a];
    s.(assets := s.assets[a := asset.(columns := asset.columns.With(c, v))])
  }

  /** A column and its assertion together. */
  function SetField(s: State, a: Id, c: CoreField, v: Json, now: int): State
    requires a in s.assets
  {
    Upsert(SetColumn(s, a, c, v), a, Core(c), v, now)
  }

  function SetFields(s: State, a: Id, p: Payload, order: seq<CoreField>, now: int): (r: State)
    requires a in s.assets
    ensures a in r.assets
  {
    if order == [] then s
    else
      var n := |order| - 1;
      var s1 := SetFields(s, a, p, order[..n], now);
      if order[n] in p then SetField(s1, a, order[n], p[order[n]], now) else s1
  }

  /** `(asset.version or 1) + 1`, with the audit row that journals it. */
  function Bump(s: State, a: Id, action: AssetAction): State
    requires a in s.assets
  {
    var asset := s.assets[a];
    s.(assets := s.assets[a := asset.(version := (if asset.version == 0 then 1 else asset.version) + 1)],
       audit := s.audit + [AssetEvent(a, action, asset.household)])
  }

  function Update(s: State, a: Id, p: Payload, now: int): Outcome
    requires a in s.assets
  {
    if Get(p, AssetType, Str("")) == Null || Get(p, Status, Str("")) == Null then Err(NullColumn)
    else Ok(Bump(SetFields(s, a, p, UpdateOrder, now), a, Updated(s.assets[a].version)))
  }

  /** The fields of a request that are not null. */
  function Given(p: Payload): Payload { map c | c in p && p[c] != Null :: p[c] }

  /** The update route: version match, null fields dropped, lifecycle check, update. */
  function Patch(s: State, a: Id, household: Id, p: Payload, ifMatch: Option<nat>, now: int): Outcome {
    if a !in s.assets then Err(NoAsset)
    else if s.assets[a].household != household then Err(HouseholdMismatch)
    else if ifMatch.Some? && ifMatch.value != s.assets[a].version then Err(VersionMismatch)
    else
      var data := Given(p);
      if data == map[] then Err(NothingToUpdate)
      else if Status in data && !LegalTransition(s.assets[a].columns.status, data[Status]) then Err(IllegalTransition)
      else Update(s, a, data, now)
  }

  /** The delete route. */
  function Archive(s: State, a: Id, household: Id, now: int): Outcome {
    if a !in s.assets then Err(NoAsset)
    else if s.assets[a].household != household then Err(HouseholdMismatch)
    else if !LegalTransition(s.assets[a].columns.status, Str("ARCHIVED")) then Err(IllegalTransition)
    else Ok(Bump(SetField(s, a, Status, Str("ARCHIVED"), now), a, Archived))
  }

  // ----- merge -----

  function MergeTarget(winner: Id): Json { Obj(map["merged_into" := Str(winner)]) }

  function Merge(s: State, a: Id, winner: Id, now: int): Outcome {
    if a !in s.assets then Err(NoAsset)
    else if winner !in s.assets then Err(TargetNotFound)
    else if HouseholdOf(s, winner) != HouseholdOf(s, a) then Err(TargetHousehold)
    else if winner == a then Err(SelfMerge)
    else if s.assets[winner].columns.status == MERGED then Err(TargetMerged)
    else if s.assets[a].columns.status == MERGED then Err(AlreadyMerged)
    else if !LegalTransition(s.assets[a].columns.status, MERGED) then Err(IllegalTransition)
    else
      var s1 := SetField(s, a, Status, MERGED, now);
      var s2 := Upsert(s1, a, MergedInto, MergeTarget(winner), now);
      Ok(Bump(s2, a, Merged(s.assets[a].version, winner)))
  }

  // ----- evidence -----

  /** Ids of `ids` whose link can be inserted: their evidence row exists. */
  function Insertable(s: State, ids: seq<Id>): (r: set<Id>)
  {
    set e | e in ids && e in s.evidence
  }

  function Attach(s: State, a: Id, evidence: seq<Id>): Outcome {
    if a !in s.assets then Err(NoAsset)
    else
      Ok(s.(links := s.links + set e | e in Insertable(s, evidence) :: (a, e),
            audit := s.audit + [AssetEvent(a, Attached(Distinct(evidence)), HouseholdOf(s, a))]))
  }
}
