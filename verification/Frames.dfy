/** What each service leaves alone: the two writers share the tables but not the fields. */
module Frames {
  import opened Prelude
  import opened Dates
  import opened DateScanner
  import opened AssertionStore
  import opened CatalogueState
  import opened Runs
  import opened RowInvariants
  import E = ExpirySteps
  import A = AssetSteps

  // ----- the two halves of the audit log -----

  /** The `plugin.assertion.write` events, in order. */
  function PluginWrites(audit: seq<Event>): seq<Event> {
    if audit == [] then []
    else
      var n := |audit| - 1;
      PluginWrites(audit[..n]) + if audit[n].PluginWrite? then [audit[n]] else []
  }

  /** The events of the asset service, in order. */
  function AssetEvents(audit: seq<Event>): seq<Event> {
    if audit == [] then []
    else
      var n := |audit| - 1;
      AssetEvents(audit[..n]) + if audit[n].AssetEvent? then [audit[n]] else []
  }

  lemma LogOne(audit: seq<Event>, e: Event)
    ensures PluginWrites(audit + [e]) == PluginWrites(audit) + if e.PluginWrite? then [e] else []
    ensures AssetEvents(audit + [e]) == AssetEvents(audit) + if e.AssetEvent? then [e] else []
  {
    assert (audit + [e])[..|audit|] == audit;
  }

  lemma {:induction false} LogResolves(audit: seq<Event>, es: seq<Event>)
    requires forall k | 0 <= k < |es| :: es[k].TaskResolve?
    ensures PluginWrites(audit + es) == PluginWrites(audit) && AssetEvents(audit + es) == AssetEvents(audit)
  {
    if es == [] {
      assert audit + es == audit;
    } else {
      var n := |es| - 1;
      LogResolves(audit, es[..n]);
      LogOne(audit + es[..n], es[n]);
      assert audit + es == audit + es[..n] + [es[n]];
    }
  }

  /** The rows the plugin wrote, in order. */
  function PluginRows(rows: seq<Row>): seq<nat> {
    if rows == [] then []
    else
      var n := |rows| - 1;
      PluginRows(rows[..n]) + if PluginField(rows[n].field) then [n] else []
  }

  predicate SameButState(r: Row, r': Row) {
    r'.asset == r.asset && r'.field == r.field && r'.value == r.value
    && r'.source == r.source && r'.evidence == r.evidence && r'.createdAt == r.createdAt
  }

  /** Old rows keep everything but their review state. */
  ghost predicate Extends(rows: seq<Row>, rows': seq<Row>) {
    |rows| <= |rows'| && forall i | 0 <= i < |rows| :: SameButState(rows[i], rows'[i])
  }

  lemma {:induction false} PluginRowsByField(rows: seq<Row>, rows': seq<Row>)
    requires |rows| == |rows'| && forall i | 0 <= i < |rows| :: rows'[i].field == rows[i].field
    ensures PluginRows(rows) == PluginRows(rows')
  {
    if rows != [] {
      PluginRowsByField(rows[..|rows| - 1], rows'[..|rows| - 1]);
    }
  }

  lemma SupersedeExtends(rows: seq<Row>, p: Option<nat>)
    requires p.Some? ==> p.value < |rows|
    ensures Extends(rows, Supersede(rows, p)) && PluginRows(Supersede(rows, p)) == PluginRows(rows)
  {
    PluginRowsByField(rows, Supersede(rows, p));
  }

  lemma ReplaceExtends(rows: seq<Row>, p: Option<nat>, row: Row)
    requires p.Some? ==> p.value < |rows|
    ensures Extends(rows, Replace(rows, p, row))
    ensures PluginRows(Replace(rows, p, row)) == PluginRows(rows) + if PluginField(row.field) then [|rows|] else []
  {
    hide PluginRows, PluginField;
    SupersedeExtends(rows, p);
    AppendedRow(Supersede(rows, p), row);
  }

  lemma AppendedRow(rows: seq<Row>, row: Row)
    ensures PluginRows(rows + [row]) == PluginRows(rows) + if PluginField(row.field) then [|rows|] else []
  {
    assert (rows + [row])[..|rows|] == rows;
  }

  lemma {:induction false} AppendServiceRows(rows: seq<Row>, news: seq<Row>)
    requires forall j | 0 <= j < |news| :: !PluginField(news[j].field)
    ensures PluginRows(rows + news) == PluginRows(rows)
  {
    if news == [] {
      assert rows + news == rows;
    } else {
      var n := |news| - 1;
      AppendServiceRows(rows, news[..n]);
      assert (rows + news)[..|rows| + n] == rows + news[..n];
    }
  }

  // ----- the plugin's operations -----

  /** The assets, their events and every non-plugin field are as before. */
  ghost predicate PluginOnly(s: State, s': State) {
    && s'.assets == s.assets && s'.born == s.born
    && AssetEvents(s'.audit) == AssetEvents(s.audit)
    && forall a, f | !PluginField(f) ::
         Latest(s'.rows, a, f) == Latest(s.rows, a, f) && Cur(s', a, f) == Cur(s, a, f)
  }

  lemma PluginOnlyThen(s: State, s1: State, s2: State)
    requires PluginOnly(s, s1) && PluginOnly(s1, s2)
    ensures PluginOnly(s, s2)
  {
  }

  lemma WritePluginOnly(
    s: State, t: Text, a: Id, f: Field, v: Json, source: Source, st: ReviewState, evidence: seq<Id>, now: int)
    requires RowInv(s, t) && a in s.assets && PluginField(f) && st != Superseded && st != Rejected
    ensures PluginOnly(s, Write(s, a, f, v, source, st, evidence, now))
  {
    WriteView(s, a, f, v, source, st, evidence, now);
    var s' := Write(s, a, f, v, source, st, evidence, now);
    if s' != s {
      LogOne(s.audit, s'.audit[|s.audit|]);
    }
  }

  lemma ResolvePluginOnly(s: State, a: Id)
    requires a in s.assets
    ensures PluginOnly(s, ResolveWithOrphans(s, a))
  {
    LogResolves(s.audit, OrphanEvents(s, a, OrphanOpen(s, a)));
  }

  lemma NeedDatePluginOnly(s: State, t: Text, a: Id, source: Source, now: int)
    requires RowInv(s, t) && a in s.assets
    ensures PluginOnly(s, E.NeedDate(s, a, source, now).0)
  {
    hide RowInv, Write, Latest, OwnOpen;
    WritePluginOnly(s, t, a, ExpiryDate, E.Unknown, source, NeedsEvidence, [], now);
  }

  lemma ClassifyPluginOnly(s: State, t: Text, a: Id, slug: string, tier: Option<string>, now: int)
    requires RowInv(s, t) && Sound(t.alphabet)
    ensures PluginOnly(s, KeepReply(s, E.Classify(s, a, slug, tier, t, now)))
  {
    hide RowInv, Write, Latest, PluginOnly, E.CategoryOf, E.Profile, E.ClassifyDated, E.ClassifyUndated;
    if E.Classify(s, a, slug, tier, t, now).Ok? {
      var c := E.CategoryOf(slug).value;
      var v := E.ClassificationValue(c, if tier.Some? then tier.value else c.defaultTier);
      var s1 := Write(s, a, Classification, v, User, Accepted, [], now);
      ClassificationKeeps(s, t, a, c, v, now);
      WritePluginOnly(s, t, a, Classification, v, User, Accepted, [], now);
      if c.hasExpiry {
        DatedPluginOnly(s1, t, a, slug, now);
        PluginOnlyThen(s, s1, E.ClassifyDated(s1, a, slug, t, now).0);
      } else {
        UndatedPluginOnly(s1, t, a, now);
        PluginOnlyThen(s, s1, E.ClassifyUndated(s1, a, now).0);
      }
    } else {
      PluginOnlySelf(s);
    }
  }

  lemma PluginOnlySelf(s: State)
    ensures PluginOnly(s, s)
  {
  }

  lemma DatedPluginOnly(s: State, t: Text, a: Id, slug: string, now: int)
    requires RowInv(s, t) && a in s.assets
    ensures PluginOnly(s, E.ClassifyDated(s, a, slug, t, now).0)
  {
    hide RowInv, Write, Latest, PluginOnly, E.NeedDate, E.Observed, E.HasValidDate;
    PluginOnlySelf(s);
    NeedDatePluginOnly(s, t, a, Deterministic, now);
    if E.Observed(s, a, t).Some? {
      var (date, e) := E.Observed(s, a, t).value;
      WritePluginOnly(s, t, a, ExpiryDate, E.ProposedValue(date), Deterministic, Proposed, [e], now);
    }
  }

  lemma UndatedPluginOnly(s: State, t: Text, a: Id, now: int)
    requires RowInv(s, t) && a in s.assets
    ensures PluginOnly(s, E.ClassifyUndated(s, a, now).0)
  {
    hide RowInv, Write, Latest, PluginOnly, ResolveWithOrphans, OwnOpen, OrphanOpen;
    PluginOnlySelf(s);
    WritePluginOnly(s, t, a, ExpiryDate, Null, User, Accepted, [], now);
    var s1 := if Cur(s, a, ExpiryDate).Some? then Write(s, a, ExpiryDate, Null, User, Accepted, [], now) else s;
    ResolvePluginOnly(s1, a);
    PluginOnlyThen(s, s1, ResolveWithOrphans(s1, a));
  }

  lemma EnterExpiryPluginOnly(s: State, t: Text, a: Id, payload: map<string, Json>, cited: Option<seq<Id>>, now: int)
    requires RowInv(s, t)
    ensures PluginOnly(s, KeepReply(s, E.EnterExpiry(s, a, payload, cited, t, now)))
  {
    hide RowInv, PluginOnly, E.ParseManualEntry, E.CheckCited, E.StoreManualExpiry;
    PluginOnlySelf(s);
    if a in s.assets && E.ParseManualEntry(payload, t).Ok? {
      StorePluginOnly(s, t, a, E.ParseManualEntry(payload, t).value, if cited.Some? then cited.value else [], now);
    }
  }

  lemma StorePluginOnly(s: State, t: Text, a: Id, entry: Json, ids: seq<Id>, now: int)
    requires RowInv(s, t) && a in s.assets
    ensures PluginOnly(s, KeepReply(s, E.StoreManualExpiry(s, a, entry, ids, now)))
  {
    hide RowInv, Write, Latest, PluginOnly, ResolveWithOrphans, OwnOpen, OrphanOpen, E.CategoryIn;
    PluginOnlySelf(s);
    if E.StoreManualExpiry(s, a, entry, ids, now).Ok? {
      var s1 := Write(s, a, ExpiryDate, entry, User, Accepted, ids, now);
      WritePluginOnly(s, t, a, ExpiryDate, entry, User, Accepted, ids, now);
      ResolvePluginOnly(s1, a);
      PluginOnlyThen(s, s1, ResolveWithOrphans(s1, a));
    }
  }

  lemma ClearExpiryPluginOnly(s: State, t: Text, a: Id, now: int)
    requires RowInv(s, t)
    ensures PluginOnly(s, KeepReply(s, E.ClearExpiry(s, a, now)))
  {
    hide RowInv, Write, Latest, OwnOpen, E.CategoryIn;
    if a in s.assets {
      WritePluginOnly(s, t, a, ExpiryDate, Null, User, Accepted, [], now);
    }
  }

  lemma OpenedPluginOnly(s: State, t: Text, a: Id, v: Json, now: int)
    requires RowInv(s, t)
    ensures PluginOnly(s, KeepReply(s, E.EnterOpened(s, a, v, t, now)))
    ensures PluginOnly(s, KeepReply(s, E.ClearOpened(s, a, now)))
  {
    hide RowInv, Write, Latest, PluginOnly, E.AcceptedCategory, ReadCanonical;
    PluginOnlySelf(s);
    if a in s.assets {
      WritePluginOnly(s, t, a, OpenedDate, Null, User, Accepted, [], now);
      WritePluginOnly(s, t, a, OpenedDate, v, User, Accepted, [], now);
    }
  }

  lemma {:induction false} ExtensionsPluginOnly(s: State, t: Text, a: Id, attributes: seq<(string, Json)>, now: int)
    requires RowInv(s, t) && a in s.assets
    ensures PluginOnly(s, E.WriteExtensions(s, a, attributes, now))
  {
    hide RowInv, Write, PluginOnly;
    PluginOnlySelf(s);
    if attributes != [] {
      var n := |attributes| - 1;
      var s1 := E.WriteExtensions(s, a, attributes[..n], now);
      ExtensionsPluginOnly(s, t, a, attributes[..n], now);
      ExtensionsKeep(s, t, a, attributes[..n], now);
      WritePluginOnly(s1, t, a, Extension(attributes[n].0), attributes[n].1, User, Accepted, [], now);
      PluginOnlyThen(s, s1, E.WriteExtensions(s, a, attributes, now));
    }
  }

  lemma PluginStep(s: State, op: Op, t: Text)
    requires RowInv(s, t) && Sound(t.alphabet) && IsPlugin(op)
    ensures PluginOnly(s, Step(s, op, t))
  {
    hide RowInv, PluginOnly, E.Classify, E.NeedDate, E.EnterExpiry, E.ClearExpiry, E.EnterOpened, E.ClearOpened;
    PluginOnlySelf(s);
    match op {
      case Classify(a, slug, tier, now) => ClassifyPluginOnly(s, t, a, slug, tier, now);
      case Extract(a, needsEvidence, now) => if a in s.assets { NeedDatePluginOnly(s, t, a, Extraction, now); }
      case EnterExpiry(a, entry, cited, now) => EnterExpiryPluginOnly(s, t, a, entry, cited, now);
      case ClearExpiry(a, now) => ClearExpiryPluginOnly(s, t, a, now);
      case EnterOpened(a, value, now) => OpenedPluginOnly(s, t, a, value, now);
      case ClearOpened(a, now) => OpenedPluginOnly(s, t, a, Null, now);
      case Extend(a, attributes, now) => if a in s.assets { ExtensionsPluginOnly(s, t, a, attributes, now); }
    }
  }

  // ----- the asset service's operations on existing assets -----

  /** Tasks, candidates, households, the plugin's fields and its journal are as before. */
  ghost predicate ServiceOnly(s: State, s': State) {
    && s'.assets.Keys == s.assets.Keys && s'.tasks == s.tasks && s'.candidates == s.candidates
    && (forall b | b in s.assets :: HouseholdOf(s', b) == HouseholdOf(s, b))
    && PluginWrites(s'.audit) == PluginWrites(s.audit)
    && PluginRows(s'.rows) == PluginRows(s.rows) && Extends(s.rows, s'.rows)
    && forall a, f {:trigger Cur(s', a, f)} | PluginField(f) :: Cur(s', a, f) == Cur(s, a, f)
  }

  lemma ServiceOnlySelf(s: State)
    ensures ServiceOnly(s, s)
  {
  }

  lemma ServiceOnlyThen(s: State, s1: State, s2: State)
    requires ServiceOnly(s, s1) && ServiceOnly(s1, s2)
    ensures ServiceOnly(s, s2)
  {
  }

  lemma UpsertServiceOnly(s: State, t: Text, a: Id, f: Field, v: Json, now: int)
    requires RowInv(s, t) && a in s.assets && !PluginField(f)
    ensures ServiceOnly(s, Upsert(s, a, f, v, now))
  {
    ServiceFieldAccepted(s, t, a, f);
    UpsertView(s, a, f, v, now);
    var s' := Upsert(s, a, f, v, now);
    LogOne(s.audit, s'.audit[|s.audit|]);
    ReplaceExtends(s.rows, FirstAccepted(s.rows, a, f), s'.rows[|s.rows|]);
  }

  lemma UpsertEvents(s: State, a: Id, f: Field, v: Json, now: int)
    requires a in s.assets
    ensures AssetEvents(Upsert(s, a, f, v, now).audit) == AssetEvents(s.audit)
  {
    LogOne(s.audit, Upsert(s, a, f, v, now).audit[|s.audit|]);
  }

  lemma SetFieldServiceOnly(s: State, t: Text, a: Id, c: CoreField, v: Json, now: int)
    requires RowInv(s, t) && a in s.assets
    ensures ServiceOnly(s, A.SetField(s, a, c, v, now))
  {
    var s1 := A.SetColumn(s, a, c, v);
    SetColumnKeeps(s, t, a, c, v);
    hide RowInv, Upsert, Latest;
    UpsertServiceOnly(s1, t, a, Core(c), v, now);
  }

  lemma BumpServiceOnly(s: State, a: Id, action: AssetAction)
    requires a in s.assets
    ensures ServiceOnly(s, A.Bump(s, a, action))
  {
    LogOne(s.audit, AssetEvent(a, action, s.assets[a].household));
  }

  lemma {:induction false} SetFieldsServiceOnly(s: State, t: Text, a: Id, p: A.Payload, order: seq<CoreField>, now: int)
    requires RowInv(s, t) && a in s.assets
    ensures ServiceOnly(s, A.SetFields(s, a, p, order, now))
  {
    hide RowInv, ServiceOnly, A.SetField;
    ServiceOnlySelf(s);
    if order != [] {
      var n := |order| - 1;
      SetFieldsServiceOnly(s, t, a, p, order[..n], now);
      SetFieldsKeep(s, t, a, p, order[..n], now);
      var s1 := A.SetFields(s, a, p, order[..n], now);
      if order[n] in p {
        SetFieldServiceOnly(s1, t, a, order[n], p[order[n]], now);
        ServiceOnlyThen(s, s1, A.SetField(s1, a, order[n], p[order[n]], now));
      }
    }
  }

  lemma UpdateServiceOnly(s: State, t: Text, a: Id, p: A.Payload, now: int)
    requires RowInv(s, t) && a in s.assets
    ensures ServiceOnly(s, Keep(s, A.Update(s, a, p, now)))
  {
    hide RowInv, ServiceOnly, A.SetFields, A.Bump;
    ServiceOnlySelf(s);
    SetFieldsServiceOnly(s, t, a, p, A.UpdateOrder, now);
    var s1 := A.SetFields(s, a, p, A.UpdateOrder, now);
    BumpServiceOnly(s1, a, Updated(s.assets[a].version));
    ServiceOnlyThen(s, s1, A.Bump(s1, a, Updated(s.assets[a].version)));
  }

  lemma PatchServiceOnly(s: State, t: Text, a: Id, household: Id, p: A.Payload, ifMatch: Option<nat>, now: int)
    requires RowInv(s, t)
    ensures ServiceOnly(s, Keep(s, A.Patch(s, a, household, p, ifMatch, now)))
  {
    hide RowInv, ServiceOnly, A.Update, A.LegalTransition, A.Given;
    ServiceOnlySelf(s);
    if a in s.assets {
      UpdateServiceOnly(s, t, a, A.Given(p), now);
    }
  }

  lemma ArchiveServiceOnly(s: State, t: Text, a: Id, household: Id, now: int)
    requires RowInv(s, t)
    ensures ServiceOnly(s, Keep(s, A.Archive(s, a, household, now)))
  {
    hide RowInv, ServiceOnly, A.LegalTransition, Latest, FirstAccepted, Replace;
    ServiceOnlySelf(s);
    if A.Archive(s, a, household, now).Ok? {
      var s1 := A.SetField(s, a, Status, Str("ARCHIVED"), now);
      SetFieldServiceOnly(s, t, a, Status, Str("ARCHIVED"), now);
      BumpServiceOnly(s1, a, Archived);
      ServiceOnlyThen(s, s1, A.Bump(s1, a, Archived));
    }
  }

  lemma MergeServiceOnly(s: State, t: Text, a: Id, winner: Id, now: int)
    requires RowInv(s, t)
    ensures ServiceOnly(s, Keep(s, A.Merge(s, a, winner, now)))
  {
    hide RowInv, ServiceOnly, A.LegalTransition, Latest, FirstAccepted, Replace;
    ServiceOnlySelf(s);
    if A.Merge(s, a, winner, now).Ok? {
      var s1 := A.SetField(s, a, Status, A.MERGED, now);
      var s2 := Upsert(s1, a, MergedInto, A.MergeTarget(winner), now);
      var s3 := A.Bump(s2, a, Merged(s.assets[a].version, winner));
      SetFieldServiceOnly(s, t, a, Status, A.MERGED, now);
      SetFieldKeeps(s, t, a, Status, A.MERGED, now);
      UpsertServiceOnly(s1, t, a, MergedInto, A.MergeTarget(winner), now);
      UpsertKeeps(s1, t, a, MergedInto, A.MergeTarget(winner), now);
      BumpServiceOnly(s2, a, Merged(s.assets[a].version, winner));
      ServiceOnlyThen(s, s1, s2);
      ServiceOnlyThen(s, s2, s3);
    }
  }

  // ----- creation -----

  /** A fresh asset's pairs have no rows. */
  lemma FreshPair(s: State, t: Text, a: Id, f: Field)
    requires RowInv(s, t) && a !in s.assets
    ensures Latest(s.rows, a, f).None?
  {
    assert forall i | 0 <= i < |s.rows| :: s.rows[i].asset != a;
  }

  lemma CreateTables(s: State, t: Text, a: Id, household: Id, p: A.Payload, evidence: seq<Id>, now: int)
    requires A.Create(s, a, household, p, evidence, t, now).Ok?
    ensures var s' := A.Create(s, a, household, p, evidence, t, now).value;
            var columns := A.InitialColumns(p, A.Distinct(evidence), t);
            && s'.assets == s.assets[a := Asset(household, columns, 1)] && s'.born == s.born[a := columns]
            && s'.audit == s.audit + [AssetEvent(a, Created, household), AssetEvent(a, ReviewAccepted, household)]
  {
  }

  lemma CreationLog(audit: seq<Event>, a: Id, household: Id)
    ensures var es := [AssetEvent(a, Created, household), AssetEvent(a, ReviewAccepted, household)];
            PluginWrites(audit + es) == PluginWrites(audit) && AssetEvents(audit + es) == AssetEvents(audit) + es
  {
    hide PluginWrites, AssetEvents;
    var e1, e2 := AssetEvent(a, Created, household), AssetEvent(a, ReviewAccepted, household);
    LogOne(audit, e1);
    LogOne(audit + [e1], e2);
    assert audit + [e1, e2] == audit + [e1] + [e2];
    assert AssetEvents(audit) + [e1, e2] == AssetEvents(audit) + [e1] + [e2];
  }

  lemma CreatedPluginFields(s: State, t: Text, a: Id, household: Id, p: A.Payload, evidence: seq<Id>, now: int, b: Id, f: Field)
    requires RowInv(s, t) && Fresh(s, a) && A.Create(s, a, household, p, evidence, t, now).Ok? && PluginField(f)
    ensures Cur(A.Create(s, a, household, p, evidence, t, now).value, b, f) == Cur(s, b, f)
  {
    CreatedShape(a, p, evidence, t, now);
    hide RowInv, A.Create, Latest, Current, CreatedRows, Shape;
    CreateView(s, t, a, household, p, evidence, now);
  }

  lemma CreateFrames(s: State, t: Text, a: Id, household: Id, p: A.Payload, evidence: seq<Id>, now: int)
    requires RowInv(s, t) && Fresh(s, a) && A.Create(s, a, household, p, evidence, t, now).Ok?
    ensures var s' := A.Create(s, a, household, p, evidence, t, now).value;
            && Extends(s.rows, s'.rows) && PluginRows(s'.rows) == PluginRows(s.rows)
            && PluginWrites(s'.audit) == PluginWrites(s.audit)
            && AssetEvents(s'.audit)
               == AssetEvents(s.audit) + [AssetEvent(a, Created, household), AssetEvent(a, ReviewAccepted, household)]
            && forall b, f | PluginField(f) :: Cur(s', b, f) == Cur(s, b, f)
  {
    var s' := A.Create(s, a, household, p, evidence, t, now).value;
    CreatedShape(a, p, evidence, t, now);
    CreateTables(s, t, a, household, p, evidence, now);
    CreateAppends(s, t, a, household, p, evidence, now);
    hide RowInv, A.Create, Latest, Current, PluginRows, PluginWrites, AssetEvents, CreatedRows, Fresh;
    AppendServiceRows(s.rows, CreatedRows(a, p, evidence, t, now));
    CreationLog(s.audit, a, household);
    forall b, f | PluginField(f) ensures Cur(s', b, f) == Cur(s, b, f) {
      CreatedPluginFields(s, t, a, household, p, evidence, now, b, f);
    }
  }

  lemma ServiceStep(s: State, op: Op, t: Text)
    requires RowInv(s, t) && IsService(op)
    ensures ServiceOnly(s, Step(s, op, t))
  {
    hide RowInv, ServiceOnly, A.Update, A.Patch, A.Archive, A.Merge;
    ServiceOnlySelf(s);
    match op {
      case UpdateAsset(a, payload, now) => if a in s.assets { UpdateServiceOnly(s, t, a, payload, now); }
      case PatchAsset(a, household, payload, ifMatch, now) => PatchServiceOnly(s, t, a, household, payload, ifMatch, now);
      case ArchiveAsset(a, household, now) => ArchiveServiceOnly(s, t, a, household, now);
      case MergeAsset(a, winner, now) => MergeServiceOnly(s, t, a, winner, now);
    }
  }

  // ----- other modules -----

  predicate ForeignTask(s: State, task: Task) { !(task.taskType == ManualEntry && task.subject in s.assets) }

  /** Assets, rows and both halves of the log are as before but for evidence attachments. */
  ghost predicate OtherOnly(s: State, s': State) {
    && s'.assets == s.assets && s'.born == s.born && s'.rows == s.rows && Grows(s, s')
    && PluginWrites(s'.audit) == PluginWrites(s.audit)
    && (AssetEvents(s'.audit) == AssetEvents(s.audit)
        || exists a, e | a in s.assets :: AssetEvents(s'.audit) == AssetEvents(s.audit) + [AssetEvent(a, Attached(e), HouseholdOf(s, a))])
    && (s'.tasks == s.tasks || exists task | ForeignTask(s, task) :: s'.tasks == s.tasks + [task])
    && (s'.candidates == s.candidates || forall c | c in s'.candidates :: c.id !in s.assets)
  }

  lemma OtherFrames(s: State, op: Op)
    requires IsOther(op)
    ensures OtherOnly(s, OtherStep(s, op))
  {
    hide PluginWrites, AssetEvents;
    if op.AttachEvidence? && op.a in s.assets {
      LogOne(s.audit, AssetEvent(op.a, Attached(A.Distinct(op.evidence)), HouseholdOf(s, op.a)));
    } else if op.OpenOther? {
      assert ForeignTask(s, op.task) || OtherStep(s, op) == s;
    }
  }
}
