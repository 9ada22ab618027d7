/** When each operation of the expiry tracker succeeds, which error it gives otherwise, and what it leaves. */
module ExpiryOutcomes {
  import opened Prelude
  import opened Dates
  import opened DateScanner
  import opened AssertionStore
  import opened CatalogueState
  import opened Runs
  import opened RowInvariants
  import opened Theorems
  import E = ExpirySteps

  // ----- one write -----

  /** A write leaves the given row, unless the active one already says the same; no other pair changes. */
  ghost predicate Stored(
    s: State, s': State, a: Id, f: Field, v: Json, source: Source, st: ReviewState, evidence: seq<Id>, now: int)
  {
    && (if Says(s, a, f, v, st) then Cur(s', a, f) == Cur(s, a, f) && |s'.rows| == |s.rows|
        else Cur(s', a, f) == Some(Row(a, f, v, source, st, evidence, now)) && |s'.rows| == |s.rows| + 1)
    && forall b, g {:trigger Cur(s', b, g)} | b != a || g != f :: Cur(s', b, g) == Cur(s, b, g)
  }

  /** The active row on the pair has this value and state. */
  ghost predicate Says(s: State, a: Id, f: Field, v: Json, st: ReviewState) {
    Cur(s, a, f).Some? && Cur(s, a, f).value.value == v && Cur(s, a, f).value.state == st
  }

  lemma WriteStores(s: State, t: Text, a: Id, f: Field, v: Json, source: Source, st: ReviewState, evidence: seq<Id>, now: int)
    requires RowInv(s, t) && a in s.assets && st != Superseded && st != Rejected
    ensures var s' := Write(s, a, f, v, source, st, evidence, now);
            && Stored(s, s', a, f, v, source, st, evidence, now) && Says(s', a, f, v, st)
            && Latest(s'.rows, a, f) == Some(WrittenRow(s, a, f, v, st))
            && s' == s.(rows := s'.rows, audit := s'.audit)
            && s'.audit == if Says(s, a, f, v, st) then s.audit else s.audit + [
                 PluginWrite(|s.rows|, a, f, if Cur(s, a, f).Some? then Some(Superseded) else None, st, v, s.assets[a].household)]
  {
    WriteView(s, a, f, v, source, st, evidence, now);
    if !Says(s, a, f, v, st) {
      ReplacedView(s.rows, Row(a, f, v, source, st, evidence, now), Write(s, a, f, v, source, st, evidence, now).rows);
    }
    hide Latest, RowInv;
  }

  lemma SameReads(
    s: State, s1: State, s2: State, a: Id, f: Field, v: Json, source: Source, st: ReviewState, evidence: seq<Id>, now: int)
    requires Stored(s, s1, a, f, v, source, st, evidence, now) && s2.rows == s1.rows
    ensures Stored(s, s2, a, f, v, source, st, evidence, now)
  {
    SameCur(s1, s2);
    hide Cur;
  }

  // ----- the category of an asset -----

  const DatedSlugs: set<string> :=
    {"food_beverages", "medicine_pharma", "cosmetics_personal_care", "household_chemicals", "documents_other"}

  /** The active classification names this category. */
  ghost predicate Names(s: State, a: Id, slug: string) {
    var c := Cur(s, a, Classification);
    c.Some? && c.value.value.Obj? && "category" in c.value.value.fields && c.value.value.fields["category"] == Str(slug)
  }

  lemma Table(slug: string)
    ensures E.CategoryOf(slug).Some? <==> slug in DatedSlugs || slug == "non_perishable"
    ensures E.CategoryOf(slug).Some? ==>
              && (E.CategoryOf(slug).value.hasExpiry <==> slug in DatedSlugs)
              && (E.CategoryOf(slug).value.tracksOpened <==> slug == "cosmetics_personal_care")
  {
  }

  /** A reachable classification is accepted and names one of the six categories. */
  lemma Classifications(s: State, t: Text, a: Id)
    requires RowInv(s, t)
    ensures Cur(s, a, Classification).None? ==> forall slug :: !Names(s, a, slug)
    ensures Cur(s, a, Classification).Some? ==>
              var row := Cur(s, a, Classification).value;
              && row.state == Accepted && row.value.Obj? && "category" in row.value.fields
              && row.value.fields["category"].Str?
              && E.CategoryIn(row.value) == E.CategoryOf(row.value.fields["category"].s)
              && E.CategoryIn(row.value).Some?
              && forall slug :: Names(s, a, slug) <==> slug == row.value.fields["category"].s
  {
    var p := Latest(s.rows, a, Classification);
    hide E.CategoryOf;
    if p.Some? {
      assert RowOk(s, t, s.rows[p.value]);
    }
    hide RowInv, Latest, Active, RowOk;
  }

  // ----- manual entry -----

  /** The text given for the date: under its own key, or under "date" when that is missing. */
  ghost predicate Entered(payload: map<string, Json>, raw: string) {
    if "expiry_date" in payload then payload["expiry_date"] == Str(raw)
    else "date" in payload && payload["date"] == Str(raw)
  }

  function TypeGiven(payload: map<string, Json>): Json {
    if "date_type" in payload then payload["date_type"] else Str("expiry_date")
  }

  /** `v` spells the date type `w`, by its name or by an alias, in any case and spacing. */
  ghost predicate Spells(v: Json, w: string, t: Text) {
    v.Str? && w in E.DateTypes && (t.fold(v.s) == w || (t.fold(v.s), w) in E.DateAliases.Items)
  }

  ghost predicate GoodForm(payload: map<string, Json>, t: Text) {
    && (exists d: Day :: Entered(payload, PrintDate(d)))
    && (exists w :: Spells(TypeGiven(payload), w, t))
    && ("unit" in payload ==> payload["unit"].Str? && t.fold(payload["unit"].s) in E.Units)
  }

  /** The stored form: the date's text as given, the type's name, and the unit if one was given. */
  ghost predicate Holds(v: Json, payload: map<string, Json>, t: Text) {
    && v.Obj?
    && v.fields.Keys == {"expiry_date", "date_type"} + (if "unit" in payload then {"unit"} else {})
    && (exists d: Day :: Entered(payload, PrintDate(d)) && v.fields["expiry_date"] == Str(PrintDate(d)))
    && v.fields["date_type"].Str? && Spells(TypeGiven(payload), v.fields["date_type"].s, t)
    && ("unit" in payload ==> payload["unit"].Str? && v.fields["unit"] == Str(t.fold(payload["unit"].s)))
  }

  lemma TypeExactly(v: Json, t: Text)
    ensures var r := E.CanonicalDateType(v, t);
            && (r.Some? <==> exists w :: Spells(v, w, t))
            && (r.Some? ==> Spells(v, r.value, t))
  {
    if v.Str? {
      var folded := t.fold(v.s);
      assert forall w | w in E.DateAliases.Keys :: w !in E.DateTypes && E.DateAliases[w] in E.DateTypes;
      forall w | Spells(v, w, t) ensures E.CanonicalDateType(v, t) == Some(w) {
      }
      if folded in E.DateAliases {
        assert (folded, E.DateAliases[folded]) in E.DateAliases.Items;
        assert Spells(v, E.DateAliases[folded], t);
      } else if folded in E.DateTypes {
        assert Spells(v, folded, t);
      }
    }
  }

  lemma FormExactly(payload: map<string, Json>, t: Text)
    ensures var r := E.ParseManualEntry(payload, t);
            && (r.Ok? <==> GoodForm(payload, t)) && (r.Err? ==> r.error == E.InvalidEntry)
            && (r.Ok? ==> Holds(r.value, payload, t))
  {
    E.ManualEntryExactly(payload, t);
    TypeExactly(TypeGiven(payload), t);
    hide PrintDate, ReadCanonical, E.CanonicalDateType, Spells, E.HasValidDate;
    var raw := E.Lookup(payload, "expiry_date", "date");
    assert forall x :: Entered(payload, x) <==> raw == Str(x);
  }

  ghost predicate CitedExist(s: State, ids: seq<Id>) { forall e | e in ids :: e in s.evidence }

  ghost predicate CitedOwned(s: State, household: Id, ids: seq<Id>) {
    forall e | e in ids && e in s.evidence :: s.evidence[e] == household
  }

  function Ids(cited: Option<seq<Id>>): seq<Id> { if cited.Some? then cited.value else [] }

  /** The first thing that is missing. */
  ghost function EntryFault(s: State, t: Text, a: Id, payload: map<string, Json>, ids: seq<Id>): Option<E.Error> {
    if a !in s.assets then Some(E.NoAsset)
    else if !GoodForm(payload, t) then Some(E.InvalidEntry)
    else if !CitedExist(s, ids) then Some(E.EvidenceNotFound)
    else if !CitedOwned(s, s.assets[a].household, ids) then Some(E.EvidenceHousehold)
    else StoreFault(s, a)
  }

  ghost function StoreFault(s: State, a: Id): Option<E.Error> {
    if exists slug | slug in DatedSlugs :: Names(s, a, slug) then None
    else if Names(s, a, "non_perishable") then Some(E.NotApplicable)
    else Some(E.NotClassified)
  }

  ghost predicate Gives<T>(r: Result<T, E.Error>, fault: Option<E.Error>) {
    match r case Ok(_) => fault.None? case Err(e) => fault == Some(e)
  }

  /**
   * A date is stored exactly for a classified asset whose category has dates, from a good form citing evidence
   * of the household only; otherwise the first thing missing decides the error.
   */
  lemma EnterExpiryExactly(s: State, t: Text, a: Id, payload: map<string, Json>, cited: Option<seq<Id>>, now: int)
    requires Sound(t.alphabet) && Reachable(s, t)
    ensures Gives(E.EnterExpiry(s, a, payload, cited, t, now), EntryFault(s, t, a, payload, Ids(cited)))
  {
    ReachableInvariant(s, t);
    InvariantRows(s, t);
    hide *;
    EntryGives(s, t, a, payload, cited, now);
  }

  lemma EntryGives(s: State, t: Text, a: Id, payload: map<string, Json>, cited: Option<seq<Id>>, now: int)
    requires RowInv(s, t)
    ensures Gives(E.EnterExpiry(s, a, payload, cited, t, now), EntryFault(s, t, a, payload, Ids(cited)))
  {
    hide RowInv, GoodForm, Holds, E.ParseManualEntry, E.StoreManualExpiry, StoreFault, CitedExist, CitedOwned, E.CheckCited;
    FormExactly(payload, t);
    if a in s.assets && E.ParseManualEntry(payload, t).Ok? {
      StoreExactly(s, t, a, E.ParseManualEntry(payload, t).value, Ids(cited), now);
      CitedExactly(s, s.assets[a].household, Ids(cited));
    }
  }

  lemma CitedExactly(s: State, household: Id, ids: seq<Id>)
    ensures E.CheckCited(s, household, ids)
            == if !CitedExist(s, ids) then Some(E.EvidenceNotFound)
               else if !CitedOwned(s, household, ids) then Some(E.EvidenceHousehold) else None
  {
  }

  lemma StoreExactly(s: State, t: Text, a: Id, entry: Json, ids: seq<Id>, now: int)
    requires RowInv(s, t) && a in s.assets
    ensures Gives(E.StoreManualExpiry(s, a, entry, ids, now), StoreFault(s, a))
  {
    Classifications(s, t, a);
    hide RowInv, Cur, Write, ResolveWithOrphans, OwnOpen, OrphanOpen, E.CategoryIn, E.CategoryOf, Names;
    if Cur(s, a, Classification).Some? {
      var slug := Cur(s, a, Classification).value.value.fields["category"].s;
      Table(slug);
      assert Names(s, a, slug);
    }
  }

  /** What is stored: the form's fields, accepted from the user with the cited evidence, and nothing else changes but tasks. */
  lemma EnterExpiryStores(s: State, t: Text, a: Id, payload: map<string, Json>, cited: Option<seq<Id>>, now: int)
    requires RowInv(s, t) && E.EnterExpiry(s, a, payload, cited, t, now).Ok?
    ensures var (s', reply) := E.EnterExpiry(s, a, payload, cited, t, now).value;
            && (exists v :: Holds(v, payload, t) && Stored(s, s', a, ExpiryDate, v, User, Accepted, Ids(cited), now))
            && Cur(s', a, ExpiryDate).Some? && Holds(Cur(s', a, ExpiryDate).value.value, payload, t)
            && reply.assertion == Latest(s'.rows, a, ExpiryDate) && reply.task.None?
            && s' == s.(rows := s'.rows, tasks := s'.tasks, audit := s'.audit)
  {
    FormExactly(payload, t);
    hide RowInv, Holds, GoodForm, E.ParseManualEntry, E.CheckCited, E.StoreManualExpiry, Stored;
    StoreStores(s, t, a, E.ParseManualEntry(payload, t).value, Ids(cited), now);
  }

  lemma StoreStores(s: State, t: Text, a: Id, v: Json, ids: seq<Id>, now: int)
    requires RowInv(s, t) && a in s.assets && E.StoreManualExpiry(s, a, v, ids, now).Ok?
    ensures var (s', reply) := E.StoreManualExpiry(s, a, v, ids, now).value;
            && Stored(s, s', a, ExpiryDate, v, User, Accepted, ids, now) && Says(s', a, ExpiryDate, v, Accepted)
            && reply.assertion == Latest(s'.rows, a, ExpiryDate) && reply.task.None?
            && s' == s.(rows := s'.rows, tasks := s'.tasks, audit := s'.audit)
  {
    hide RowInv, Latest, Current, Write, WrittenRow, OwnOpen, OrphanOpen, OrphanEvents, Resolve, E.CategoryIn;
    WriteStores(s, t, a, ExpiryDate, v, User, Accepted, ids, now);
    SameReads(s, Write(s, a, ExpiryDate, v, User, Accepted, ids, now), E.StoreManualExpiry(s, a, v, ids, now).value.0,
              a, ExpiryDate, v, User, Accepted, ids, now);
  }

  // ----- what the observations show -----

  /** Observation `k` is a readable OCR or barcode row of linked evidence, and its text yields this date. */
  ghost predicate Shows(s: State, t: Text, a: Id, k: nat, date: string) {
    && k < |s.observations|
    && var o := s.observations[k];
       && (a, o.evidence) in s.links && (o.kind == Ocr || o.kind == BarcodeQr)
       && o.text.Some? && TextDate(t.alphabet, t.spellings, o.text.value) == Some(date)
  }

  /** The first row of the table that shows a date, and its evidence. */
  ghost predicate FirstShown(s: State, t: Text, a: Id, date: string, e: Id) {
    exists k: nat :: && Shows(s, t, a, k, date) && s.observations[k].evidence == e
                     && forall j: nat, d | j < k :: !Shows(s, t, a, j, d)
  }

  /** What the scan finds in the first `n` rows. */
  ghost predicate ScanOf(s: State, t: Text, a: Id, n: nat, r: Option<(string, Id)>) {
    match r
    case None => forall j: nat, d | j < n :: !Shows(s, t, a, j, d)
    case Some((date, e)) =>
      exists k: nat :: && k < n && Shows(s, t, a, k, date) && s.observations[k].evidence == e
                       && forall j: nat, d | j < k :: !Shows(s, t, a, j, d)
  }

  lemma FirstDateStep(al: Alphabet, other: Spellings, o: Observation, rows: seq<Observation>)
    ensures FirstDate(al, other, [o] + rows)
            == if RowDate(al, other, o).Some? then Some((RowDate(al, other, o).value, o.evidence)) else FirstDate(al, other, rows)
  {
    assert ([o] + rows)[1..] == rows;
    hide RowDate;
  }

  lemma {:induction false} FirstDateThen(al: Alphabet, other: Spellings, rows: seq<Observation>, o: Observation)
    ensures FirstDate(al, other, rows + [o])
            == if FirstDate(al, other, rows).Some? then FirstDate(al, other, rows) else FirstDate(al, other, [o])
  {
    hide *;
    if rows == [] {
      assert [] + [o] == [o];
      assert FirstDate(al, other, []) == None;
    } else {
      var head, rest := rows[0], rows[1..];
      FirstDateThen(al, other, rest, o);
      FirstDateStep(al, other, head, rest);
      FirstDateStep(al, other, head, rest + [o]);
      assert rows == [head] + rest && rows + [o] == [head] + (rest + [o]);
    }
  }

  lemma {:induction false} ScanFinds(s: State, t: Text, a: Id, n: nat)
    requires n <= |s.observations|
    ensures ScanOf(s, t, a, n, FirstDate(t.alphabet, t.spellings, E.TextRows(s, a, s.observations[..n])))
  {
    if n > 0 {
      ScanFinds(s, t, a, n - 1);
      var rows, o := E.TextRows(s, a, s.observations[..n - 1]), s.observations[n - 1];
      assert s.observations[..n][..n - 1] == s.observations[..n - 1];
      FirstDateThen(t.alphabet, t.spellings, rows, o);
      FirstDateStep(t.alphabet, t.spellings, o, []);
      assert rows + [] == rows && [o] + [] == [o];
      hide FirstDate, TextDate, ScanOf;
      ScanThen(s, t, a, n, FirstDate(t.alphabet, t.spellings, rows),
               FirstDate(t.alphabet, t.spellings, E.TextRows(s, a, s.observations[..n])));
    }
  }

  /** One more row: it decides when none before it shows a date. */
  lemma ScanThen(s: State, t: Text, a: Id, n: nat, r: Option<(string, Id)>, r': Option<(string, Id)>)
    requires 0 < n <= |s.observations| && ScanOf(s, t, a, n - 1, r)
    requires var o := s.observations[n - 1];
             r' == if r.Some? then r
                   else if (a, o.evidence) in s.links && o.kind in {Ocr, BarcodeQr} && RowDate(t.alphabet, t.spellings, o).Some?
                   then Some((RowDate(t.alphabet, t.spellings, o).value, o.evidence))
                   else None
    ensures ScanOf(s, t, a, n, r')
  {
    var o := s.observations[n - 1];
    hide TextDate;
    forall d ensures Shows(s, t, a, n - 1, d)
                     <==> (a, o.evidence) in s.links && o.kind in {Ocr, BarcodeQr} && RowDate(t.alphabet, t.spellings, o) == Some(d) {
    }
    hide Shows, RowDate;
  }

  /** The observed date is that of the first observation in the table that shows one; there is none when none does. */
  lemma ObservedExactly(s: State, t: Text, a: Id)
    ensures var r := E.Observed(s, a, t);
            && (r.None? <==> forall k: nat, d :: !Shows(s, t, a, k, d))
            && (r.Some? ==> FirstShown(s, t, a, r.value.0, r.value.1))
  {
    ScanFinds(s, t, a, |s.observations|);
    assert s.observations[..|s.observations|] == s.observations;
    hide E.TextRows, FirstDate, TextDate;
  }

  // ----- classification -----

  ghost function ClassifyFault(s: State, a: Id, slug: string, tier: Option<string>): Option<E.Error> {
    if a !in s.assets then Some(E.NoAsset)
    else if slug !in DatedSlugs && slug != "non_perishable" then Some(E.UnknownCategory)
    else if tier.Some? && !TierOf(slug, tier.value) then Some(E.InvalidTier)
    else None
  }

  predicate TierOf(slug: string, tier: string) {
    || (tier in {"critical", "urgent"} && slug in {"food_beverages", "medicine_pharma", "cosmetics_personal_care"})
    || (tier == "upcoming" && slug in DatedSlugs)
    || (tier == "long_lead" && slug == "documents_other")
  }

  lemma TierTable(slug: string, tier: string)
    ensures E.CategoryOf(slug).Some? ==> (tier in E.CategoryOf(slug).value.tiers <==> TierOf(slug, tier))
  {
  }

  /** Classification needs a known category and, if a tier is asked for, one of that category. */
  lemma ClassifyExactly(s: State, t: Text, a: Id, slug: string, tier: Option<string>, now: int)
    ensures Gives(E.Classify(s, a, slug, tier, t, now), ClassifyFault(s, a, slug, tier))
  {
    Table(slug);
    if tier.Some? { TierTable(slug, tier.value); }
    hide TierOf, E.CategoryOf, E.ClassificationValue, Write, E.ClassifyDated, E.ClassifyUndated;
  }

  // ----- asking for a date -----

  /** The unknown date is stored and `i` is the asset's open task: an old one, or the only new one. */
  ghost predicate Asked(s: State, s': State, a: Id, source: Source, now: int, i: nat)
    requires a in s.assets
  {
    && Stored(s, s', a, ExpiryDate, E.Unknown, source, NeedsEvidence, [], now)
    && i < |s'.tasks| && s'.tasks[i] == Task(ManualEntry, a, s.assets[a].household, Open)
    && s'.tasks == if i < |s.tasks| then s.tasks else s.tasks + [s'.tasks[i]]
  }

  lemma NeedDateAsks(s: State, t: Text, a: Id, source: Source, now: int)
    requires RowInv(s, t) && a in s.assets
    ensures var (s', reply) := E.NeedDate(s, a, source, now);
            && reply.task.Some? && Asked(s, s', a, source, now, reply.task.value)
            && reply.assertion == Latest(s'.rows, a, ExpiryDate) && reply.resolved == []
            && (reply.task.value == |s.tasks| <==> OwnOpen(s, a) == [])
  {
    hide RowInv, Latest, Current, Write, WrittenRow, OwnOpen, Stored, E.OpenTask;
    WriteStores(s, t, a, ExpiryDate, E.Unknown, source, NeedsEvidence, [], now);
    var s1 := Write(s, a, ExpiryDate, E.Unknown, source, NeedsEvidence, [], now);
    OpensTask(s1, a);
    SameReads(s, s1, E.NeedDate(s, a, source, now).0, a, ExpiryDate, E.Unknown, source, NeedsEvidence, [], now);
    assert OwnOpen(s1, a) == OwnOpen(s, a) by { SameOpen(s, s1, a); }
  }

  lemma SameOpen(s: State, s1: State, a: Id)
    requires a in s.assets && s1.assets == s.assets && s1.tasks == s.tasks
    ensures OwnOpen(s1, a) == OwnOpen(s, a)
  {
  }

  lemma OpensTask(s: State, a: Id)
    requires a in s.assets
    ensures var (s', i) := E.OpenTask(s, a);
            && i < |s'.tasks| && s'.tasks[i] == Task(ManualEntry, a, s.assets[a].household, Open)
            && s' == s.(tasks := if i < |s.tasks| then s.tasks else s.tasks + [s'.tasks[i]])
            && (i == |s.tasks| <==> OwnOpen(s, a) == [])
  {
    if OwnOpen(s, a) != [] {
      FirstOpen(s, a);
    }
    hide OwnOpen;
  }

  lemma FirstOpen(s: State, a: Id)
    requires a in s.assets && OwnOpen(s, a) != []
    ensures OwnOpen(s, a)[0] < |s.tasks| && s.tasks[OwnOpen(s, a)[0]] == Task(ManualEntry, a, HouseholdOf(s, a), Open)
  {
    assert OwnOpen(s, a)[0] in OwnOpen(s, a);
  }

  /** An extraction result that asks for evidence stores the unknown date and has its task open; any other changes nothing. */
  lemma ExtractExactly(s: State, t: Text, a: Id, needsEvidence: bool, now: int)
    requires RowInv(s, t)
    ensures var r := E.Extract(s, a, needsEvidence, now);
            && Gives(r, if a in s.assets then None else Some(E.NoAsset))
            && (r.Ok? && !needsEvidence ==> r.value == (s, E.Reply(None, None, [])))
            && (r.Ok? && needsEvidence ==>
                  && r.value.1.task.Some? && Asked(s, r.value.0, a, Extraction, now, r.value.1.task.value)
                  && r.value.1.assertion == Latest(r.value.0.rows, a, ExpiryDate))
  {
    hide RowInv, E.NeedDate, Asked;
    if a in s.assets {
      NeedDateAsks(s, t, a, Extraction, now);
    }
  }

  // ----- what classification stores -----

  function TierUsed(slug: string, tier: Option<string>): string {
    if tier.Some? then tier.value
    else if slug == "documents_other" then "long_lead"
    else if slug == "non_perishable" then ""
    else "upcoming"
  }

  /** The stored classification: the category, and a profile whose days are those of its own tier. */
  ghost predicate Profiled(v: Json, slug: string, tier: string) {
    && v.Obj? && v.fields.Keys == {"category", "label", "profile"}
    && v.fields["category"] == Str(slug) && v.fields["label"].Str?
    && v.fields["profile"].Obj? && ProfileOf(v.fields["profile"].fields, slug, tier)
  }

  ghost predicate ProfileOf(p: map<string, Json>, slug: string, tier: string) {
    && p.Keys == {"notification_tier", "notification_days", "tier_defaults", "opened_date_tracking", "disposal_guidance"}
    && p["tier_defaults"].Obj? && (forall k :: k in p["tier_defaults"].fields <==> TierOf(slug, k))
    && (if slug in DatedSlugs
        then && TierOf(slug, tier) && p["notification_tier"] == Str(tier)
             && p["notification_days"] == p["tier_defaults"].fields[tier]
        else p["notification_tier"] == Null && p["notification_days"] == Null)
    && p["opened_date_tracking"] == Bool(slug == "cosmetics_personal_care")
    && p["disposal_guidance"] == Bool(slug == "food_beverages" || slug == "medicine_pharma")
  }

  lemma ProfileExactly(slug: string, tier: Option<string>)
    requires E.CategoryOf(slug).Some? && (tier.Some? ==> tier.value in E.CategoryOf(slug).value.tiers)
    ensures var c := E.CategoryOf(slug).value;
            var used := if tier.Some? then tier.value else c.defaultTier;
            (c.tiers != map[] ==> used in c.tiers) && Profiled(E.ClassificationValue(c, used), slug, TierUsed(slug, tier))
  {
    hide E.CategoryOf, TierOf, ProfileOf, E.Profile, TierUsed;
    var c := E.CategoryOf(slug).value;
    E.TiersMeanExpiry(slug);
    Table(slug);
    forall k { TierTable(slug, k); }
    DefaultTier(slug, tier);
    var used := if tier.Some? then tier.value else c.defaultTier;
    ProfileIs(c, used);
  }

  lemma ProfileIs(c: E.Category, tier: string)
    requires (c.tiers != map[] ==> tier in c.tiers) && (forall k :: k in c.tiers <==> TierOf(c.slug, k))
    requires (c.slug in DatedSlugs <==> c.tiers != map[]) && (c.tracksOpened <==> c.slug == "cosmetics_personal_care")
    ensures E.Profile(c, tier).Obj? && ProfileOf(E.Profile(c, tier).fields, c.slug, tier)
  {
    assert c.slug in {"food_beverages", "medicine_pharma"} ==> c.slug in DatedSlugs;
    hide TierOf;
  }

  lemma DefaultTier(slug: string, tier: Option<string>)
    requires E.CategoryOf(slug).Some?
    ensures TierUsed(slug, tier) == if tier.Some? then tier.value else E.CategoryOf(slug).value.defaultTier
  {
  }

  /** Only the asset's classification and date may read differently. */
  ghost predicate OthersKept(s: State, s': State, a: Id) {
    forall b, g {:trigger Cur(s', b, g)} | b != a || (g != Classification && g != ExpiryDate) :: Cur(s', b, g) == Cur(s, b, g)
  }

  /** The reply names the date's row, and the open task exactly when the date is asked for. */
  ghost predicate Replies(s: State, s': State, a: Id, reply: E.Reply)
    requires a in s.assets
  {
    && reply.assertion == Latest(s'.rows, a, ExpiryDate) && reply.resolved == []
    && if Says(s', a, ExpiryDate, E.Unknown, NeedsEvidence)
       then && reply.task.Some? && reply.task.value < |s'.tasks|
            && s'.tasks[reply.task.value] == Task(ManualEntry, a, s.assets[a].household, Open)
            && s'.tasks == if reply.task.value < |s.tasks| then s.tasks else s.tasks + [s'.tasks[reply.task.value]]
       else reply.task.None? && s'.tasks == s.tasks
  }

  lemma DatedReplies(s: State, t: Text, a: Id, slug: string, now: int)
    requires RowInv(s, t) && a in s.assets
    ensures var (s', reply) := E.ClassifyDated(s, a, slug, t, now);
            Replies(s, s', a, reply) && OthersKept(s, s', a) && Cur(s', a, Classification) == Cur(s, a, Classification)
  {
    assert !E.HasValidDate(Null, t.spellings);
    hide RowInv, Write, WrittenRow, Latest, Current, OwnOpen, Replies, OthersKept, E.Observed, E.HasValidDate, E.NeedDate;
    if E.HasValidDate(E.AcceptedValue(Cur(s, a, ExpiryDate)), t.spellings) {
      KeptReplies(s, a);
    } else {
      AskReplies(s, t, a, now);
      if E.Observed(s, a, t).Some? {
        var (date, e) := E.Observed(s, a, t).value;
        ProposeReplies(s, t, a, date, e, now);
      }
    }
  }

  lemma KeptReplies(s: State, a: Id)
    requires a in s.assets && Cur(s, a, ExpiryDate).Some? && Cur(s, a, ExpiryDate).value.state == Accepted
    ensures Replies(s, s, a, E.Reply(Latest(s.rows, a, ExpiryDate), None, [])) && OthersKept(s, s, a)
  {
    hide Current, Latest;
  }

  lemma AskReplies(s: State, t: Text, a: Id, now: int)
    requires RowInv(s, t) && a in s.assets
    ensures var (s', reply) := E.NeedDate(s, a, Deterministic, now);
            Replies(s, s', a, reply) && OthersKept(s, s', a) && Cur(s', a, Classification) == Cur(s, a, Classification)
  {
    hide RowInv, Latest, Cur, OwnOpen, E.NeedDate;
    NeedDateAsks(s, t, a, Deterministic, now);
  }

  lemma ProposeReplies(s: State, t: Text, a: Id, date: string, e: Id, now: int)
    requires RowInv(s, t) && a in s.assets
    ensures var v := E.ProposedValue(date);
            var s' := Write(s, a, ExpiryDate, v, Deterministic, Proposed, [e], now);
            && Replies(s, s', a, E.Reply(Some(WrittenRow(s, a, ExpiryDate, v, Proposed)), None, [])) && OthersKept(s, s', a)
            && Cur(s', a, Classification) == Cur(s, a, Classification)
  {
    hide RowInv, Write, WrittenRow, Latest, Cur;
    WriteStores(s, t, a, ExpiryDate, E.ProposedValue(date), Deterministic, Proposed, [e], now);
  }

  /** What classification leaves besides the date: the profile, the reply, and everything else as it was. */
  lemma ClassifyStores(s: State, t: Text, a: Id, slug: string, tier: Option<string>, now: int)
    requires RowInv(s, t) && E.Classify(s, a, slug, tier, t, now).Ok?
    ensures var (s', reply) := E.Classify(s, a, slug, tier, t, now).value;
            && Cur(s', a, Classification).Some? && Cur(s', a, Classification).value.state == Accepted
            && Profiled(Cur(s', a, Classification).value.value, slug, TierUsed(slug, tier)) && OthersKept(s, s', a)
            && (slug in DatedSlugs ==> Replies(s, s', a, reply))
            && (slug !in DatedSlugs ==> reply.assertion == Latest(s'.rows, a, ExpiryDate) && reply.task.None?)
  {
    var c := E.CategoryOf(slug).value;
    ProfileExactly(slug, tier);
    Table(slug);
    hide RowInv, Write, Latest, Cur, Profiled, Replies, Stored, OthersKept, E.CategoryOf, E.ClassificationValue, E.ClassifyDated,
         E.ClassifyUndated;
    var used := if tier.Some? then tier.value else c.defaultTier;
    var v := E.ClassificationValue(c, used);
    ClassificationKeeps(s, t, a, c, v, now);
    WriteStores(s, t, a, Classification, v, User, Accepted, [], now);
    var s1 := Write(s, a, Classification, v, User, Accepted, [], now);
    KeptTwice(s, s1, E.Classify(s, a, slug, tier, t, now).value.0, a, v, now);
    if c.hasExpiry {
      DatedReplies(s1, t, a, slug, now);
      SameReplies(s, s1, E.ClassifyDated(s1, a, slug, t, now).0, a, E.ClassifyDated(s1, a, slug, t, now).1);
    } else {
      UndatedReplies(s1, t, a, now);
    }
  }

  lemma KeptTwice(s: State, s1: State, s2: State, a: Id, v: Json, now: int)
    requires Stored(s, s1, a, Classification, v, User, Accepted, [], now)
    ensures OthersKept(s1, s2, a) ==> OthersKept(s, s2, a)
  {
    hide Cur;
  }

  /** An accepted row that holds the printing of a real day. */
  ghost predicate AcceptedDate(row: Option<Row>) {
    && row.Some? && row.value.state == Accepted && row.value.value.Obj?
    && exists d: Day :: ("expiry_date", Str(PrintDate(d))) in row.value.value.fields.Items
  }

  /** After a category with dates: an accepted date stays, else the first shown one is proposed, else one is asked for. */
  ghost predicate Settled(s: State, s': State, t: Text, a: Id, slug: string, now: int) {
    if AcceptedDate(Cur(s, a, ExpiryDate)) then Cur(s', a, ExpiryDate) == Cur(s, a, ExpiryDate)
    else if slug != "documents_other" && exists date, e :: FirstShown(s, t, a, date, e) then
      exists date, e :: && FirstShown(s, t, a, date, e)
                        && Stores(s, s', a, Obj(map["expiry_date" := Str(date), "date_type" := Str("expiry_date")]), Proposed, [e], now)
    else Stores(s, s', a, Obj(map["status" := Str("unknown")]), NeedsEvidence, [], now)
  }

  /** The date's row is this one, unless it said the same before. */
  ghost predicate Stores(s: State, s': State, a: Id, v: Json, st: ReviewState, evidence: seq<Id>, now: int) {
    Cur(s', a, ExpiryDate)
    == if Says(s, a, ExpiryDate, v, st) then Cur(s, a, ExpiryDate)
       else Some(Row(a, ExpiryDate, v, Deterministic, st, evidence, now))
  }

  lemma AcceptedDateIs(row: Option<Row>, t: Text)
    ensures AcceptedDate(row) <==> E.HasValidDate(E.AcceptedValue(row), t.spellings)
  {
    if row.Some? && row.value.value.Obj? && "expiry_date" in row.value.value.fields {
      var v := row.value.value.fields["expiry_date"];
      if v.Str? {
        CanonicalExactly(v.s, t.spellings);
        if d: Day :| PrintDate(d) == v.s { assert ("expiry_date", Str(PrintDate(d))) in row.value.value.fields.Items; }
      }
    }
    hide PrintDate, ReadCanonical;
  }

  lemma DatedSettles(s: State, t: Text, a: Id, slug: string, now: int)
    requires RowInv(s, t) && a in s.assets
    ensures Settled(s, E.ClassifyDated(s, a, slug, t, now).0, t, a, slug, now)
  {
    AcceptedDateIs(Cur(s, a, ExpiryDate), t);
    ObservedExactly(s, t, a);
    ShownIsFirst(s, t, a);
    hide RowInv, Cur, Write, WrittenRow, OwnOpen, Latest, AcceptedDate, Shows, FirstShown, E.Observed, E.HasValidDate, E.AcceptedValue,
         E.NeedDate;
    NeedDateAsks(s, t, a, Deterministic, now);
    if E.Observed(s, a, t).Some? {
      var (date, e) := E.Observed(s, a, t).value;
      WriteStores(s, t, a, ExpiryDate, E.ProposedValue(date), Deterministic, Proposed, [e], now);
    }
  }

  lemma ShownIsFirst(s: State, t: Text, a: Id)
    ensures (exists date, e :: FirstShown(s, t, a, date, e)) ==> exists k: nat, d :: Shows(s, t, a, k, d)
  {
    hide Shows;
  }

  lemma SameSettled(s: State, s1: State, s2: State, t: Text, a: Id, slug: string, now: int)
    requires Settled(s1, s2, t, a, slug, now) && Cur(s1, a, ExpiryDate) == Cur(s, a, ExpiryDate)
    requires s1.links == s.links && s1.observations == s.observations
    ensures Settled(s, s2, t, a, slug, now)
  {
    hide Cur, AcceptedDate, TextDate;
    forall k: nat, d ensures Shows(s1, t, a, k, d) <==> Shows(s, t, a, k, d) {
    }
    hide Shows;
    forall date, e ensures FirstShown(s1, t, a, date, e) <==> FirstShown(s, t, a, date, e) {
    }
    hide FirstShown;
  }

  /** The classification is written first; the date follows by the kind of category. */
  ghost predicate WrittenFirst(s: State, s1: State, s2: State, t: Text, a: Id, slug: string, now: int) {
    && a in s.assets && a in s1.assets && RowInv(s1, t) && s1.links == s.links && s1.observations == s.observations
    && Cur(s1, a, ExpiryDate) == Cur(s, a, ExpiryDate)
    && s2 == if slug in DatedSlugs then E.ClassifyDated(s1, a, slug, t, now).0 else E.ClassifyUndated(s1, a, now).0
  }

  lemma ClassifyParts(s: State, t: Text, a: Id, slug: string, tier: Option<string>, now: int)
    requires RowInv(s, t) && E.Classify(s, a, slug, tier, t, now).Ok?
    ensures exists s1 :: WrittenFirst(s, s1, E.Classify(s, a, slug, tier, t, now).value.0, t, a, slug, now)
  {
    var c := E.CategoryOf(slug).value;
    ProfileExactly(slug, tier);
    Table(slug);
    hide RowInv, Write, WrittenRow, Latest, Cur, Profiled, TierUsed, Says, E.CategoryOf, E.ClassificationValue, E.ClassifyDated,
         E.ClassifyUndated;
    var used := if tier.Some? then tier.value else c.defaultTier;
    var v := E.ClassificationValue(c, used);
    ClassificationKeeps(s, t, a, c, v, now);
    WriteStores(s, t, a, Classification, v, User, Accepted, [], now);
    var s1 := Write(s, a, Classification, v, User, Accepted, [], now);
    assert WrittenFirst(s, s1, E.Classify(s, a, slug, tier, t, now).value.0, t, a, slug, now);
  }

  /** What classification does to the date, in full. */
  lemma ClassifySettles(s: State, t: Text, a: Id, slug: string, tier: Option<string>, now: int)
    requires RowInv(s, t) && E.Classify(s, a, slug, tier, t, now).Ok?
    ensures var s' := E.Classify(s, a, slug, tier, t, now).value.0;
            if slug in DatedSlugs then Settled(s, s', t, a, slug, now)
            else if Cur(s, a, ExpiryDate).None? then Cur(s', a, ExpiryDate).None?
            else Says(s', a, ExpiryDate, Null, Accepted)
  {
    hide RowInv, Cur, Settled, E.Classify, E.ClassifyDated, E.ClassifyUndated;
    ClassifyParts(s, t, a, slug, tier, now);
    var s1 :| WrittenFirst(s, s1, E.Classify(s, a, slug, tier, t, now).value.0, t, a, slug, now);
    if slug in DatedSlugs {
      DatedSettles(s1, t, a, slug, now);
      SameSettled(s, s1, E.ClassifyDated(s1, a, slug, t, now).0, t, a, slug, now);
    } else {
      UndatedOutcome(s1, t, a, now);
    }
  }

  lemma SameReplies(s: State, s1: State, s2: State, a: Id, reply: E.Reply)
    requires a in s.assets && s1.assets == s.assets && s1.tasks == s.tasks && Replies(s1, s2, a, reply)
    ensures Replies(s, s2, a, reply)
  {
    hide Says, Latest;
  }

  lemma UndatedReplies(s: State, t: Text, a: Id, now: int)
    requires RowInv(s, t) && a in s.assets
    ensures var (s', reply) := E.ClassifyUndated(s, a, now);
            && reply.assertion == Latest(s'.rows, a, ExpiryDate) && reply.task.None? && OthersKept(s, s', a)
            && Cur(s', a, Classification) == Cur(s, a, Classification)
  {
    hide RowInv, Write, WrittenRow, OwnOpen, OrphanOpen, Resolve, OrphanEvents, Latest;
    WriteStores(s, t, a, ExpiryDate, Null, User, Accepted, [], now);
    var s1 := if Cur(s, a, ExpiryDate).Some? then Write(s, a, ExpiryDate, Null, User, Accepted, [], now) else s;
    SameCur(s1, E.ClassifyUndated(s, a, now).0);
    hide Current;
  }

  lemma SameCur(s: State, s': State)
    requires s'.rows == s.rows
    ensures forall b, g {:trigger Cur(s', b, g)} :: Cur(s', b, g) == Cur(s, b, g)
  {
  }

  // ----- clearing a date -----

  ghost function ClearFault(s: State, a: Id): Option<E.Error> {
    if a !in s.assets then Some(E.NoAsset) else StoreFault(s, a)
  }

  /** Task by task: the asset's own open date tasks are resolved, and no other task changes. */
  ghost predicate OwnResolved(s: State, s': State, a: Id)
    requires a in s.assets
  {
    && |s'.tasks| == |s.tasks|
    && forall i | 0 <= i < |s.tasks| ::
         s'.tasks[i] == if s.tasks[i] == Task(ManualEntry, a, s.assets[a].household, Open)
                        then s.tasks[i].(status := Resolved) else s.tasks[i]
  }

  /** Clearing is allowed where entry is. It stores null over any active date and resolves the own tasks, or does nothing. */
  lemma ClearExactly(s: State, t: Text, a: Id, now: int)
    requires RowInv(s, t)
    ensures var r := E.ClearExpiry(s, a, now);
            && Gives(r, ClearFault(s, a))
            && (r.Ok? && Cur(s, a, ExpiryDate).None? ==> r.value == (s, E.Reply(None, None, [])))
            && (r.Ok? && Cur(s, a, ExpiryDate).Some? ==>
                  && Stored(s, r.value.0, a, ExpiryDate, Null, User, Accepted, [], now) && OwnResolved(s, r.value.0, a)
                  && r.value.1 == E.Reply(Latest(r.value.0.rows, a, ExpiryDate), None, []))
  {
    hide RowInv, Write, WrittenRow, Current, Latest, OwnOpen, Stored, E.CategoryIn, E.CategoryOf, OwnResolved, StoreFault;
    ClearAllowed(s, t, a, now);
    if a in s.assets && Cur(s, a, ExpiryDate).Some? {
      WriteStores(s, t, a, ExpiryDate, Null, User, Accepted, [], now);
      var s1 := Write(s, a, ExpiryDate, Null, User, Accepted, [], now);
      var s2 := s1.(tasks := Resolve(s1.tasks, OwnOpen(s1, a)));
      SameReads(s, s1, s2, a, ExpiryDate, Null, User, Accepted, [], now);
      OwnResolves(s, s1, a);
      SameTaskList(s, s1.(tasks := Resolve(s1.tasks, OwnOpen(s1, a))), s2, a);
    }
  }

  lemma SameTaskList(s: State, s1: State, s2: State, a: Id)
    requires a in s.assets && s2.tasks == s1.tasks && OwnResolved(s, s1, a)
    ensures OwnResolved(s, s2, a)
  {
  }

  lemma OwnResolves(s: State, s1: State, a: Id)
    requires a in s.assets && s1.assets == s.assets && s1.tasks == s.tasks
    ensures OwnResolved(s, s1.(tasks := Resolve(s1.tasks, OwnOpen(s1, a))), a)
  {
  }

  lemma ClearAllowed(s: State, t: Text, a: Id, now: int)
    requires RowInv(s, t)
    ensures Gives(E.ClearExpiry(s, a, now), ClearFault(s, a))
  {
    Classifications(s, t, a);
    hide RowInv, Cur, Write, Resolve, OwnOpen, E.CategoryIn, E.CategoryOf, Names;
    if Cur(s, a, Classification).Some? {
      var slug := Cur(s, a, Classification).value.value.fields["category"].s;
      Table(slug);
      assert Names(s, a, slug);
    }
  }

  // ----- the opened date -----

  ghost function OpenedFault(s: State, a: Id): Option<E.Error> {
    if a !in s.assets then Some(E.NoAsset)
    else if forall slug :: !Names(s, a, slug) then Some(E.NotClassified)
    else if !Names(s, a, "cosmetics_personal_care") then Some(E.TrackingOff)
    else None
  }

  /** A real day up to the clock's, in its canonical printing. */
  ghost predicate PastDay(v: Json, clock: Day) { exists d: Day :: v == Str(PrintDate(d)) && DateLe(d, clock) }

  lemma Tracking(s: State, t: Text, a: Id)
    requires RowInv(s, t) && a in s.assets
    ensures var c := E.AcceptedCategory(s, a);
            && (c.None? <==> OpenedFault(s, a) == Some(E.NotClassified))
            && (c.Some? ==> (c.value.tracksOpened <==> OpenedFault(s, a).None?))
            && (c.Some? && !c.value.tracksOpened ==> OpenedFault(s, a) == Some(E.TrackingOff))
  {
    Classifications(s, t, a);
    hide RowInv, Cur, E.CategoryIn, E.CategoryOf, Names;
    if Cur(s, a, Classification).Some? {
      var slug := Cur(s, a, Classification).value.value.fields["category"].s;
      Table(slug);
      assert Names(s, a, slug);
    }
  }

  /** An opened date is stored exactly for a cosmetics asset and a real day that has come; it is stored as given. */
  lemma OpenedExactly(s: State, t: Text, a: Id, v: Json, now: int)
    requires RowInv(s, t)
    ensures var r := E.EnterOpened(s, a, v, t, now);
            && Gives(r, if OpenedFault(s, a).Some? then OpenedFault(s, a)
                        else if PastDay(v, s.clock) then None else Some(E.InvalidEntry))
            && (r.Ok? ==> && Stored(s, r.value.0, a, OpenedDate, v, User, Accepted, [], now)
                          && Says(r.value.0, a, OpenedDate, v, Accepted)
                          && r.value.1 == E.Reply(Latest(r.value.0.rows, a, OpenedDate), None, [])
                          && r.value.0 == s.(rows := r.value.0.rows, audit := r.value.0.audit))
  {
    hide RowInv, Latest, Current, Write, WrittenRow, Stored, Says, E.ParseOpenedDate, E.AcceptedCategory, OpenedFault;
    if a in s.assets {
      E.OpenedDateExactly(v, s.clock, t);
      Tracking(s, t, a);
      ParsedOnlyInvalid(v, s.clock, t);
      if v.Str? {
        WriteStores(s, t, a, OpenedDate, v, User, Accepted, [], now);
      }
    } else {
      assert OpenedFault(s, a) == Some(E.NoAsset) by { assert a !in s.assets; OpenedNeedsAsset(s, a); }
    }
  }

  lemma OpenedNeedsAsset(s: State, a: Id)
    ensures a !in s.assets <==> OpenedFault(s, a) == Some(E.NoAsset)
  {
  }

  lemma ParsedOnlyInvalid(v: Json, today: Day, t: Text)
    ensures E.ParseOpenedDate(v, today, t).Err? ==> E.ParseOpenedDate(v, today, t).error == E.InvalidEntry
  {
  }

  /** Clearing needs a cosmetics asset too. It stores null over an opened date, and does nothing where none is. */
  lemma ClearOpenedExactly(s: State, t: Text, a: Id, now: int)
    requires RowInv(s, t)
    ensures var r := E.ClearOpened(s, a, now);
            && Gives(r, OpenedFault(s, a))
            && (r.Ok? && Cur(s, a, OpenedDate).None? ==> r.value == (s, E.Reply(None, None, [])))
            && (r.Ok? && Cur(s, a, OpenedDate).Some? ==>
                  && Stored(s, r.value.0, a, OpenedDate, Null, User, Accepted, [], now)
                  && Says(r.value.0, a, OpenedDate, Null, Accepted)
                  && r.value.1 == E.Reply(Latest(r.value.0.rows, a, OpenedDate), None, [])
                  && r.value.0 == s.(rows := r.value.0.rows, audit := r.value.0.audit))
  {
    OpenedNeedsAsset(s, a);
    OpenedAccepted(s, t, a);
    hide RowInv, Latest, Current, Write, WrittenRow, Stored, Says, E.AcceptedCategory, OpenedFault;
    if a in s.assets {
      Tracking(s, t, a);
      WriteStores(s, t, a, OpenedDate, Null, User, Accepted, [], now);
    }
  }

  lemma OpenedAccepted(s: State, t: Text, a: Id)
    requires RowInv(s, t)
    ensures Cur(s, a, OpenedDate).Some? ==> Cur(s, a, OpenedDate).value.state == Accepted
  {
    var p := Latest(s.rows, a, OpenedDate);
    if p.Some? {
      assert RowOk(s, t, s.rows[p.value]);
    }
  }

  // ----- extension attributes -----

  /** `v` is the last value given for the key. */
  ghost predicate LastGiven(attributes: seq<(string, Json)>, key: string, v: Json) {
    exists i :: 0 <= i < |attributes| && attributes[i] == (key, v) && forall j | i < j < |attributes| :: attributes[j].0 != key
  }

  ghost predicate KeyGiven(attributes: seq<(string, Json)>, key: string) {
    exists i :: 0 <= i < |attributes| && attributes[i].0 == key
  }

  /** The asset's extensions after the writes: the last value given, accepted; every other pair as before. */
  ghost predicate Extended(s: State, s': State, a: Id, attributes: seq<(string, Json)>) {
    && (forall key, v | LastGiven(attributes, key, v) :: Says(s', a, Extension(key), v, Accepted))
    && (forall b: Id, g: Field {:trigger Cur(s', b, g)} | b != a || !g.Extension? || !KeyGiven(attributes, g.key) ::
          Cur(s', b, g) == Cur(s, b, g))
    && s' == s.(rows := s'.rows, audit := s'.audit)
  }

  lemma {:induction false} ExtendStores(s: State, t: Text, a: Id, attributes: seq<(string, Json)>, now: int)
    requires RowInv(s, t) && a in s.assets
    ensures var s' := E.WriteExtensions(s, a, attributes, now);
            RowInv(s', t) && Extended(s, s', a, attributes)
  {
    if attributes != [] {
      var n := |attributes| - 1;
      ExtendStores(s, t, a, attributes[..n], now);
      var s1 := E.WriteExtensions(s, a, attributes[..n], now);
      var (key, v) := attributes[n];
      WriteKeeps(s1, t, a, Extension(key), v, User, Accepted, [], now);
      WriteStores(s1, t, a, Extension(key), v, User, Accepted, [], now);
      hide RowInv, Write, E.WriteExtensions;
      OneMoreExtension(s, s1, Write(s1, a, Extension(key), v, User, Accepted, [], now), a, attributes, now);
    }
  }

  lemma OneMoreExtension(s: State, s1: State, s2: State, a: Id, attributes: seq<(string, Json)>, now: int)
    requires attributes != [] && Extended(s, s1, a, attributes[..|attributes| - 1])
    requires var (key, v) := attributes[|attributes| - 1];
             && Stored(s1, s2, a, Extension(key), v, User, Accepted, [], now) && Says(s2, a, Extension(key), v, Accepted)
             && s2 == s1.(rows := s2.rows, audit := s2.audit)
    ensures Extended(s, s2, a, attributes)
  {
    hide Current;
    var n := |attributes| - 1;
    var last := attributes[n];
    forall key, v | LastGiven(attributes, key, v) ensures Says(s2, a, Extension(key), v, Accepted) {
      if key != last.0 {
        assert LastGiven(attributes[..n], key, v);
        assert Cur(s2, a, Extension(key)) == Cur(s1, a, Extension(key));
      }
    }
    forall b: Id, g: Field | b != a || !g.Extension? || !KeyGiven(attributes, g.key) ensures Cur(s2, b, g) == Cur(s, b, g) {
      if b == a && g.Extension? {
        assert attributes[n].0 != g.key && !KeyGiven(attributes[..n], g.key);
      }
    }
  }
}
