/** The expiry tracker's operations as functions of the catalogue state; an error leaves the state alone. */
module ExpirySteps {
  import opened Prelude
  import opened Dates
  import opened DateScanner
  import opened AssertionStore
  import opened CatalogueState

  datatype Error =
    | NoAsset
    | UnknownCategory
    | InvalidTier
    | InvalidEntry
    | EvidenceNotFound
    | EvidenceHousehold
    | NotClassified
    | NotApplicable
    | TrackingOff
    | MissingCategoryKey

  // ----- categories -----

  datatype Category = Category(
    slug: string, name: string, hasExpiry: bool, tiers: map<string, int>, defaultTier: string, tracksOpened: bool)

  function CategoryOf(slug: string): (c: Option<Category>)
    ensures c.Some? ==> c.value.slug == slug
    ensures c.Some? && c.value.tiers != map[] ==> c.value.defaultTier in c.value.tiers
  {
    if slug == "food_beverages" then
      Some(Category(slug, "Food & beverages", true, map["critical" := 1, "urgent" := 7, "upcoming" := 30], "upcoming", false))
    else if slug == "medicine_pharma" then
      Some(Category(slug, "Medicine/pharma", true, map["critical" := 1, "urgent" := 3, "upcoming" := 14], "upcoming", false))
    else if slug == "cosmetics_personal_care" then
      Some(Category(slug, "Cosmetics/personal care", true, map["critical" := 7, "urgent" := 30, "upcoming" := 90], "upcoming", true))
    else if slug == "household_chemicals" then
      Some(Category(slug, "Household chemicals", true, map["upcoming" := 30], "upcoming", false))
    else if slug == "documents_other" then
      Some(Category(slug, "Documents/other", true, map["upcoming" := 30, "long_lead" := 60], "long_lead", false))
    else if slug == "non_perishable" then
      Some(Category(slug, "Non-perishable", false, map[], "", false))
    else None
  }

  function Profile(c: Category, tier: string): Json
    requires c.tiers != map[] ==> tier in c.tiers
  {
    Obj(map[
          "notification_tier" := if c.tiers == map[] then Null else Str(tier),
          "notification_days" := if c.tiers == map[] then Null else Num(c.tiers[tier] as real),
          "tier_defaults" := Obj(map k | k in c.tiers :: Num(c.tiers[k] as real)),
          "opened_date_tracking" := Bool(c.tracksOpened),
          "disposal_guidance" := Bool(c.tiers != map[] && c.slug in {"food_beverages", "medicine_pharma"})])
  }

  function ClassificationValue(c: Category, tier: string): Json
    requires c.tiers != map[] ==> tier in c.tiers
  {
    Obj(map["category" := Str(c.slug), "label" := Str(c.name), "profile" := Profile(c, tier)])
  }

  /** The category a stored classification names, if it names one. */
  function CategoryIn(v: Json): Option<Category> {
    if v.Obj? && "category" in v.fields && v.fields["category"].Str? then CategoryOf(v.fields["category"].s) else None
  }

  /** A stored classification reads back as its category, and its days are its own tier's default. */
  lemma ClassificationReadsBack(slug: string, tier: string)
    requires CategoryOf(slug).Some? && (CategoryOf(slug).value.tiers != map[] ==> tier in CategoryOf(slug).value.tiers)
    ensures var c := CategoryOf(slug).value;
            var v := ClassificationValue(c, tier);
            var profile := v.fields["profile"];
            && CategoryIn(v) == Some(c)
            && (c.hasExpiry <==> profile.fields["notification_days"] != Null)
            && (c.hasExpiry ==> profile.fields["tier_defaults"].fields[tier] == profile.fields["notification_days"])
  {
    TiersMeanExpiry(slug);
    var c := CategoryOf(slug).value;
    hide CategoryOf;
  }

  lemma TiersMeanExpiry(slug: string)
    requires CategoryOf(slug).Some?
    ensures CategoryOf(slug).value.hasExpiry <==> CategoryOf(slug).value.tiers != map[]
  {
    var c := CategoryOf(slug).value;
    assert "upcoming" in c.tiers || c.tiers == map[];
  }

  // ----- values -----

  const Unknown: Json := Obj(map["status" := Str("unknown")])

  function ProposedValue(date: string): Json {
    Obj(map["expiry_date" := Str(date), "date_type" := Str("expiry_date")])
  }

  predicate HasValidDate(v: Json, other: Spellings) {
    v.Obj? && "expiry_date" in v.fields && v.fields["expiry_date"].Str?
    && ReadCanonical(v.fields["expiry_date"].s, other).Some?
  }

  function AcceptedValue(r: Option<Row>): Json {
    if r.Some? && r.value.state == Accepted then r.value.value else Null
  }

  // ----- entry forms -----

  const DateTypes: set<string> := {
    "expiry_date", "best_before", "use_by", "manufacture_date", "period_after_opening", "batch_lot_code", "valid_until"}
  const DateAliases: map<string, string> := map[
    "expiry" := "expiry_date", "best-before" := "best_before", "use-by" := "use_by",
    "manufacture" := "manufacture_date", "pao" := "period_after_opening", "batch-lot" := "batch_lot_code",
    "valid-until" := "valid_until"]
  const Units: set<string> := {"piece", "unit", "ml", "l", "g", "kg", "dose", "tablet", "application"}

  /** `payload.get(key, payload.get(fallback))`. */
  function Lookup(payload: map<string, Json>, key: string, fallback: string): Json {
    if key in payload then payload[key] else if fallback in payload then payload[fallback] else Null
  }

  function CanonicalDateType(v: Json, t: Text): Option<string> {
    if !v.Str? then None
    else
      var folded := t.fold(v.s);
      var normalized := if folded in DateAliases then DateAliases[folded] else folded;
      if normalized in DateTypes then Some(normalized) else None
  }

  function ParseManualEntry(payload: map<string, Json>, t: Text): (r: Result<Json, Error>)
    ensures r.Ok? ==> HasValidDate(r.value, t.spellings)
  {
    var raw := Lookup(payload, "expiry_date", "date");
    if !raw.Str? || ReadCanonical(raw.s, t.spellings).None? then Err(InvalidEntry)
    else
      var dateType := CanonicalDateType(if "date_type" in payload then payload["date_type"] else Str("expiry_date"), t);
      if dateType.None? then Err(InvalidEntry)
      else
        var entry := map["expiry_date" := Str(raw.s), "date_type" := Str(dateType.value)];
        if "unit" !in payload then Ok(Obj(entry))
        else if payload["unit"].Str? && t.fold(payload["unit"].s) in Units
        then Ok(Obj(entry["unit" := Str(t.fold(payload["unit"].s))]))
        else Err(InvalidEntry)
  }

  function ParseOpenedDate(v: Json, today: Day, t: Text): Result<string, Error> {
    if !v.Str? then Err(InvalidEntry)
    else
      match ReadCanonical(v.s, t.spellings)
      case None => Err(InvalidEntry)
      case Some(d) => if DateLe(d, today) then Ok(v.s) else Err(InvalidEntry)
  }

  /** The manual form accepts exactly canonical printings of real days, with a known type and unit; and keeps the text as given. */
  lemma ManualEntryExactly(payload: map<string, Json>, t: Text)
    ensures var raw := Lookup(payload, "expiry_date", "date");
            var r := ParseManualEntry(payload, t);
            && (r.Ok? <==> && raw.Str? && (exists d: Day :: PrintDate(d) == raw.s)
                           && ("date_type" in payload ==> CanonicalDateType(payload["date_type"], t).Some?)
                           && (CanonicalDateType(Str("expiry_date"), t).Some? || "date_type" in payload)
                           && ("unit" in payload ==> payload["unit"].Str? && t.fold(payload["unit"].s) in Units))
            && (r.Ok? ==> r.value.fields["expiry_date"] == raw)
  {
    var raw := Lookup(payload, "expiry_date", "date");
    if raw.Str? {
      CanonicalExactly(raw.s, t.spellings);
    }
    hide ReadCanonical, PrintDate, CanonicalDateType;
  }

  /** The opened form accepts exactly canonical printings of real days up to today. */
  lemma OpenedDateExactly(v: Json, today: Day, t: Text)
    ensures var r := ParseOpenedDate(v, today, t);
            && (r.Ok? <==> v.Str? && exists d: Day :: PrintDate(d) == v.s && DateLe(d, today))
            && (r.Ok? ==> r.value == v.s)
  {
    if v.Str? {
      CanonicalExactly(v.s, t.spellings);
    }
    hide ReadCanonical, PrintDate;
  }

  // ----- operations -----

  datatype Reply = Reply(assertion: Option<nat>, task: Option<nat>, resolved: seq<nat>)

  type Outcome = Result<(State, Reply), Error>

  /** `_manual_task`: reuse the open task or open one. */
  function OpenTask(s: State, a: Id): (r: (State, nat))
    requires a in s.assets
  {
    var open := OwnOpen(s, a);
    if open != [] then (s, open[0])
    else (s.(tasks := s.tasks + [Task(ManualEntry, a, HouseholdOf(s, a), Open)]), |s.tasks|)
  }

  /** Write the unknown date and make sure its task is open. */
  function NeedDate(s: State, a: Id, source: Source, now: int): (State, Reply)
    requires a in s.assets
  {
    var s1 := Write(s, a, ExpiryDate, Unknown, source, NeedsEvidence, [], now);
    var (s2, task) := OpenTask(s1, a);
    (s2, Reply(Some(WrittenRow(s, a, ExpiryDate, Unknown, NeedsEvidence)), Some(task), []))
  }

  function Extract(s: State, a: Id, needsEvidence: bool, now: int): Outcome {
    if a !in s.assets then Err(NoAsset)
    else if !needsEvidence then Ok((s, Reply(None, None, [])))
    else Ok(NeedDate(s, a, Extraction, now))
  }

  /** The OCR and barcode rows of the asset's evidence. */
  function TextRows(s: State, a: Id, rows: seq<Observation>): (r: seq<Observation>)
    ensures forall k | 0 <= k < |r| :: r[k] in rows && (a, r[k].evidence) in s.links && r[k].kind in {Ocr, BarcodeQr}
  {
    if rows == [] then []
    else
      var n := |rows| - 1;
      TextRows(s, a, rows[..n])
      + if (a, rows[n].evidence) in s.links && rows[n].kind in {Ocr, BarcodeQr} then [rows[n]] else []
  }

  function Observed(s: State, a: Id, t: Text): Option<(string, Id)> {
    FirstDate(t.alphabet, t.spellings, TextRows(s, a, s.observations))
  }

  function Classify(s: State, a: Id, slug: string, tier: Option<string>, t: Text, now: int): Outcome {
    if a !in s.assets then Err(NoAsset)
    else
      match CategoryOf(slug)
      case None => Err(UnknownCategory)
      case Some(c) =>
        if tier.Some? && tier.value !in c.tiers then Err(InvalidTier)
        else
          var v := ClassificationValue(c, if tier.Some? then tier.value else c.defaultTier);
          var s1 := Write(s, a, Classification, v, User, Accepted, [], now);
          Ok(if c.hasExpiry then ClassifyDated(s1, a, slug, t, now) else ClassifyUndated(s1, a, now))
  }

  /** A category with dates: keep an accepted date, else propose an observed one, else ask for one. */
  function ClassifyDated(s: State, a: Id, slug: string, t: Text, now: int): (State, Reply)
    requires a in s.assets
  {
    if HasValidDate(AcceptedValue(Cur(s, a, ExpiryDate)), t.spellings)
    then (s, Reply(Latest(s.rows, a, ExpiryDate), None, []))
    else
      var observed := if slug == "documents_other" then None else Observed(s, a, t);
      if observed.None? then NeedDate(s, a, Deterministic, now)
      else
        var (date, e) := observed.value;
        (Write(s, a, ExpiryDate, ProposedValue(date), Deterministic, Proposed, [e], now),
         Reply(Some(WrittenRow(s, a, ExpiryDate, ProposedValue(date), Proposed)), None, []))
  }

  /** A category without dates: accept "no date" over any active one and resolve the date tasks. */
  function ClassifyUndated(s: State, a: Id, now: int): (State, Reply)
    requires a in s.assets
  {
    var s1 := if Cur(s, a, ExpiryDate).Some? then Write(s, a, ExpiryDate, Null, User, Accepted, [], now) else s;
    var row := if Cur(s, a, ExpiryDate).Some? then Some(WrittenRow(s, a, ExpiryDate, Null, Accepted)) else None;
    (ResolveWithOrphans(s1, a), Reply(row, None, OwnOpen(s1, a) + OrphanOpen(s1, a)))
  }

  /** The manual entry route: parse the form, check the cited evidence, store. */
  function EnterExpiry(s: State, a: Id, payload: map<string, Json>, cited: Option<seq<Id>>, t: Text, now: int): Outcome {
    if a !in s.assets then Err(NoAsset)
    else
      match ParseManualEntry(payload, t)
      case Err(e) => Err(e)
      case Ok(entry) =>
        var ids := if cited.Some? then cited.value else [];
        match CheckCited(s, HouseholdOf(s, a), ids)
        case Some(e) => Err(e)
        case None => StoreManualExpiry(s, a, entry, ids, now)
  }

  function CheckCited(s: State, household: Id, ids: seq<Id>): Option<Error> {
    if exists e | e in ids :: e !in s.evidence then Some(EvidenceNotFound)
    else if exists e | e in ids :: s.evidence[e] != household then Some(EvidenceHousehold)
    else None
  }

  function StoreManualExpiry(s: State, a: Id, entry: Json, ids: seq<Id>, now: int): Outcome
    requires a in s.assets
  {
    match Cur(s, a, Classification)
    case None => Err(NotClassified)
    case Some(row) =>
      match CategoryIn(row.value)
      case None => Err(MissingCategoryKey)
      case Some(c) =>
        if !c.hasExpiry then Err(NotApplicable)
        else
          var s1 := Write(s, a, ExpiryDate, entry, User, Accepted, ids, now);
          Ok((ResolveWithOrphans(s1, a),
              Reply(Some(WrittenRow(s, a, ExpiryDate, entry, Accepted)), None, OwnOpen(s1, a) + OrphanOpen(s1, a))))
  }

  function ClearExpiry(s: State, a: Id, now: int): Outcome {
    if a !in s.assets then Err(NoAsset)
    else
      match Cur(s, a, Classification)
      case None => Err(NotClassified)
      case Some(row) =>
        var c := CategoryIn(row.value);
        if !row.value.Obj? || "category" !in row.value.fields then Err(NotClassified)
        else if c.None? || !c.value.hasExpiry then Err(NotApplicable)
        else if Cur(s, a, ExpiryDate).None? then Ok((s, Reply(None, None, [])))
        else
          var s1 := Write(s, a, ExpiryDate, Null, User, Accepted, [], now);
          Ok((s1.(tasks := Resolve(s1.tasks, OwnOpen(s1, a))),
              Reply(Some(WrittenRow(s, a, ExpiryDate, Null, Accepted)), None, [])))
  }

  /** The category of the accepted classification. */
  function AcceptedCategory(s: State, a: Id): Option<Category> {
    var c := Cur(s, a, Classification);
    if c.Some? && c.value.state == Accepted then CategoryIn(c.value.value) else None
  }

  function EnterOpened(s: State, a: Id, v: Json, t: Text, now: int): Outcome {
    if a !in s.assets then Err(NoAsset)
    else
      match AcceptedCategory(s, a)
      case None => Err(NotClassified)
      case Some(c) =>
        if !c.tracksOpened then Err(TrackingOff)
        else
          match ParseOpenedDate(v, s.clock, t)
          case Err(e) => Err(e)
          case Ok(d) =>
            Ok((Write(s, a, OpenedDate, Str(d), User, Accepted, [], now),
                Reply(Some(WrittenRow(s, a, OpenedDate, Str(d), Accepted)), None, [])))
  }

  function ClearOpened(s: State, a: Id, now: int): Outcome {
    if a !in s.assets then Err(NoAsset)
    else
      match AcceptedCategory(s, a)
      case None => Err(NotClassified)
      case Some(c) =>
        var active := Cur(s, a, OpenedDate);
        if !c.tracksOpened then Err(TrackingOff)
        else if active.None? || active.value.state != Accepted then Ok((s, Reply(None, None, [])))
        else
          Ok((Write(s, a, OpenedDate, Null, User, Accepted, [], now),
              Reply(Some(WrittenRow(s, a, OpenedDate, Null, Accepted)), None, [])))
  }

  /** One write per attribute, in the given order. */
  function WriteExtensions(s: State, a: Id, attributes: seq<(string, Json)>, now: int): (r: State)
    requires a in s.assets
    ensures a in r.assets
  {
    if attributes == [] then s
    else
      var n := |attributes| - 1;
      var s1 := WriteExtensions(s, a, attributes[..n], now);
      Write(s1, a, Extension(attributes[n].0), attributes[n].1, User, Accepted, [], now)
  }

  function Extend(s: State, a: Id, attributes: seq<(string, Json)>, now: int): Outcome {
    if a !in s.assets then Err(NoAsset)
    else Ok((WriteExtensions(s, a, attributes, now), Reply(None, None, [])))
  }
}
