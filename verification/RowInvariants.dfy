/** Every active row, in every run: single, owned, typed and grounded. */
module RowInvariants {
  import opened Prelude
  import opened Dates
  import opened DateScanner
  import opened AssertionStore
  import opened CatalogueState
  import opened Runs
  import E = ExpirySteps
  import A = AssetSteps

  // ----- how the writers change what a pair reads -----

  lemma WriteView(s: State, a: Id, f: Field, v: Json, source: Source, st: ReviewState, evidence: seq<Id>, now: int)
    requires Shape(s.rows) && a in s.assets && st != Superseded && st != Rejected
    ensures var s' := Write(s, a, f, v, source, st, evidence, now);
            && Shape(s'.rows)
            && Cur(s', a, f).Some? && Cur(s', a, f).value.value == v && Cur(s', a, f).value.state == st
            && Latest(s'.rows, a, f) == Some(WrittenRow(s, a, f, v, st))
            && forall a', f' | !(a' == a && f' == f) ::
                 Latest(s'.rows, a', f') == Latest(s.rows, a', f') && Cur(s', a', f') == Cur(s, a', f')
  {
    var s' := Write(s, a, f, v, source, st, evidence, now);
    if !AlreadyWritten(s, a, f, v, st) {
      ReplacedView(s.rows, Row(a, f, v, source, st, evidence, now), s'.rows);
    }
  }

  /** A write as the tables' readers see it: one pair reads differently, nothing else does. */
  ghost predicate Wrote(s: State, s': State, a: Id, f: Field, v: Json, st: ReviewState) {
    && s'.assets == s.assets && s'.tasks == s.tasks && s'.candidates == s.candidates && s'.links == s.links
    && Cur(s', a, f).Some? && Cur(s', a, f).value.value == v && Cur(s', a, f).value.state == st
    && forall b, g {:trigger Cur(s', b, g)} | !(b == a && g == f) :: Cur(s', b, g) == Cur(s, b, g)
  }

  lemma WriteWrote(s: State, t: Text, a: Id, f: Field, v: Json, source: Source, st: ReviewState, evidence: seq<Id>, now: int)
    requires RowInv(s, t) && a in s.assets && st != Superseded && st != Rejected
    ensures Wrote(s, Write(s, a, f, v, source, st, evidence, now), a, f, v, st)
  {
    WriteView(s, a, f, v, source, st, evidence, now);
  }

  lemma ReplacedView(rows: seq<Row>, row: Row, rows': seq<Row>)
    requires Shape(rows) && Active(row) && rows' == Replace(rows, Latest(rows, row.asset, row.field), row)
    ensures Shape(rows')
    ensures Latest(rows', row.asset, row.field) == Some(|rows|) && rows'[|rows|] == row
    ensures forall a, f | !On(row, a, f) ::
              Latest(rows', a, f) == Latest(rows, a, f) && Current(rows', a, f) == Current(rows, a, f)
  {
    ReplaceKeepsShape(rows, row);
    ReplaceView(rows, row, row.asset, row.field);
    forall a, f | !On(row, a, f)
      ensures Latest(rows', a, f) == Latest(rows, a, f) && Current(rows', a, f) == Current(rows, a, f)
    {
      ReplaceView(rows, row, a, f);
    }
  }

  /** No pair the asset service writes carries anything but an accepted active row. */
  ghost predicate AcceptedOnly(rows: seq<Row>, a: Id, f: Field) {
    var p := Latest(rows, a, f);
    p.Some? ==> rows[p.value].state == Accepted
  }

  lemma UpsertView(s: State, a: Id, f: Field, v: Json, now: int)
    requires Shape(s.rows) && a in s.assets && AcceptedOnly(s.rows, a, f)
    ensures var s' := Upsert(s, a, f, v, now);
            && Shape(s'.rows)
            && Latest(s'.rows, a, f) == Some(|s.rows|)
            && s'.rows[|s.rows|] == Row(a, f, v, User, Accepted, [], now)
            && forall a', f' | !(a' == a && f' == f) ::
                 Latest(s'.rows, a', f') == Latest(s.rows, a', f') && Cur(s', a', f') == Cur(s, a', f')
  {
    var row := Row(a, f, v, User, Accepted, [], now);
    UpsertKeepsShapeExactly(s.rows, row);
    ReplacedView(s.rows, row, Upsert(s, a, f, v, now).rows);
  }

  // ----- the row invariant -----

  /** The date a proposed row carries was read from an observation of evidence linked to its asset. */
  ghost predicate Grounded(s: State, t: Text, row: Row) {
    |row.evidence| == 1 && (row.asset, row.evidence[0]) in s.links
    && exists o | o in s.observations ::
         && o.evidence == row.evidence[0] && o.kind in {Ocr, BarcodeQr}
         && RowDate(t.alphabet, t.spellings, o).Some?
         && row.value == E.ProposedValue(RowDate(t.alphabet, t.spellings, o).value)
  }

  /** Evidence a manual date cites exists and belongs to the asset's household. */
  ghost predicate CitedOk(s: State, row: Row) {
    row.asset in s.assets && forall e | e in row.evidence :: e in s.evidence && s.evidence[e] == HouseholdOf(s, row.asset)
  }

  ghost predicate ExpiryRowOk(s: State, t: Text, row: Row) {
    match row.state
    case Accepted => row.source == User && (row.value == Null || E.HasValidDate(row.value, t.spellings)) && CitedOk(s, row)
    case NeedsEvidence => row.source != User && row.value == E.Unknown
    case Proposed => row.source == Deterministic && E.HasValidDate(row.value, t.spellings) && Grounded(s, t, row)
    case _ => false
  }

  ghost predicate OpenedValueOk(s: State, t: Text, v: Json) {
    v == Null || (v.Str? && ReadCanonical(v.s, t.spellings).Some? && DateLe(ReadCanonical(v.s, t.spellings).value, s.clock))
  }

  ghost predicate RowOk(s: State, t: Text, row: Row) {
    match row.field
    case ExpiryDate => ExpiryRowOk(s, t, row)
    case Classification => row.state == Accepted && E.CategoryIn(row.value).Some?
    case OpenedDate => row.state == Accepted && OpenedValueOk(s, t, row.value)
    case _ => row.state == Accepted
  }

  ghost predicate RowInv(s: State, t: Text) {
    && Shape(s.rows)
    && (forall i | 0 <= i < |s.rows| :: s.rows[i].asset in s.assets)
    && (forall i | 0 <= i < |s.rows| && Active(s.rows[i]) :: RowOk(s, t, s.rows[i]))
  }

  /** Facts rows rest on are never withdrawn. */
  ghost predicate Grows(s: State, s': State) {
    && s.assets.Keys <= s'.assets.Keys && s.links <= s'.links
    && (forall o | o in s.observations :: o in s'.observations)
    && (forall e | e in s.evidence :: e in s'.evidence && s'.evidence[e] == s.evidence[e])
    && (forall a | a in s.assets :: a in s'.assets && HouseholdOf(s', a) == HouseholdOf(s, a))
    && DateLe(s.clock, s'.clock)
  }

  lemma RowOkStable(s: State, s': State, t: Text, row: Row)
    requires RowOk(s, t, row) && Grows(s, s')
    ensures RowOk(s', t, row)
  {
  }

  /** A state change that leaves the rows alone. */
  lemma SameRows(s: State, s': State, t: Text)
    requires RowInv(s, t) && Grows(s, s') && s'.rows == s.rows
    ensures RowInv(s', t)
  {
    forall i | 0 <= i < |s.rows| && Active(s.rows[i]) ensures RowOk(s', t, s.rows[i]) {
      RowOkStable(s, s', t, s.rows[i]);
    }
  }

  /** A state change that replaces one pair's row by a good one. */
  lemma ReplacedRow(s: State, s': State, t: Text, row: Row)
    requires RowInv(s, t) && Grows(s, s') && row.asset in s'.assets
    requires Active(row) && RowOk(s', t, row)
    requires s'.rows == Replace(s.rows, Latest(s.rows, row.asset, row.field), row)
    ensures RowInv(s', t)
  {
    ReplaceKeepsShape(s.rows, row);
    forall i | 0 <= i < |s'.rows| && Active(s'.rows[i]) ensures RowOk(s', t, s'.rows[i]) {
      if i < |s.rows| {
        RowOkStable(s, s', t, s.rows[i]);
      }
    }
  }

  lemma WriteKeeps(
    s: State, t: Text, a: Id, f: Field, v: Json, source: Source, st: ReviewState, evidence: seq<Id>, now: int)
    requires RowInv(s, t) && a in s.assets && st != Superseded && st != Rejected
    requires RowOk(s, t, Row(a, f, v, source, st, evidence, now))
    ensures RowInv(Write(s, a, f, v, source, st, evidence, now), t)
  {
    var row := Row(a, f, v, source, st, evidence, now);
    var s' := Write(s, a, f, v, source, st, evidence, now);
    if s' != s {
      assert RowOk(s', t, row);
      ReplacedRow(s, s', t, row);
    }
  }

  lemma ServiceFieldAccepted(s: State, t: Text, a: Id, f: Field)
    requires RowInv(s, t) && !f.ExpiryDate?
    ensures AcceptedOnly(s.rows, a, f)
  {
  }

  lemma UpsertKeeps(s: State, t: Text, a: Id, f: Field, v: Json, now: int)
    requires RowInv(s, t) && a in s.assets && !PluginField(f)
    ensures RowInv(Upsert(s, a, f, v, now), t)
  {
    ServiceFieldAccepted(s, t, a, f);
    UpsertKeepsShapeExactly(s.rows, Row(a, f, v, User, Accepted, [], now));
    ReplacedRow(s, Upsert(s, a, f, v, now), t, Row(a, f, v, User, Accepted, [], now));
  }

  // ----- each operation -----

  lemma NeedDateKeeps(s: State, t: Text, a: Id, source: Source, now: int)
    requires RowInv(s, t) && a in s.assets && source != User
    ensures RowInv(E.NeedDate(s, a, source, now).0, t)
  {
    WriteKeeps(s, t, a, ExpiryDate, E.Unknown, source, NeedsEvidence, [], now);
    var s1 := Write(s, a, ExpiryDate, E.Unknown, source, NeedsEvidence, [], now);
    SameRows(s1, E.OpenTask(s1, a).0, t);
  }

  lemma ExtractKeeps(s: State, t: Text, a: Id, needsEvidence: bool, now: int)
    requires RowInv(s, t)
    ensures RowInv(KeepReply(s, E.Extract(s, a, needsEvidence, now)), t)
  {
    if a in s.assets {
      NeedDateKeeps(s, t, a, Extraction, now);
    }
  }

  lemma ObservedIsGrounded(s: State, t: Text, a: Id, now: int)
    requires Sound(t.alphabet) && E.Observed(s, a, t).Some?
    ensures var (date, e) := E.Observed(s, a, t).value;
            RowOk(s, t, Row(a, ExpiryDate, E.ProposedValue(date), Deterministic, Proposed, [e], now))
  {
    var (date, e) := E.Observed(s, a, t).value;
    var rows := E.TextRows(s, a, s.observations);
    var k :| 0 <= k < |rows| && RowDate(t.alphabet, t.spellings, rows[k]) == Some(date) && rows[k].evidence == e;
    assert rows[k] in s.observations;
    TextDateIsCanonical(t.alphabet, t.spellings, rows[k].text.value);
  }

  lemma ClassificationKeeps(s: State, t: Text, a: Id, c: E.Category, v: Json, now: int)
    requires RowInv(s, t) && a in s.assets && E.CategoryOf(c.slug) == Some(c)
    requires v.Obj? && "category" in v.fields && v.fields["category"] == Str(c.slug)
    ensures RowInv(Write(s, a, Classification, v, User, Accepted, [], now), t)
  {
    WriteKeeps(s, t, a, Classification, v, User, Accepted, [], now);
  }

  lemma ClassifyKeeps(s: State, t: Text, a: Id, slug: string, tier: Option<string>, now: int)
    requires RowInv(s, t) && Sound(t.alphabet)
    ensures RowInv(KeepReply(s, E.Classify(s, a, slug, tier, t, now)), t)
  {
    hide RowInv, Write, Latest, E.CategoryOf, E.Profile, E.ClassifyDated, E.ClassifyUndated;
    var r := E.Classify(s, a, slug, tier, t, now);
    if r.Ok? {
      var c := E.CategoryOf(slug).value;
      var v := E.ClassificationValue(c, if tier.Some? then tier.value else c.defaultTier);
      ClassificationKeeps(s, t, a, c, v, now);
      WriteWrote(s, t, a, Classification, v, User, Accepted, [], now);
      var s1 := Write(s, a, Classification, v, User, Accepted, [], now);
      if c.hasExpiry {
        ClassifyDatedKeeps(s1, t, a, slug, now);
      } else {
        ClassifyUndatedKeeps(s1, t, a, now);
      }
    }
  }

  lemma ClassifyDatedKeeps(s: State, t: Text, a: Id, slug: string, now: int)
    requires RowInv(s, t) && Sound(t.alphabet) && a in s.assets
    ensures RowInv(E.ClassifyDated(s, a, slug, t, now).0, t)
  {
    hide RowInv, Write, Latest, E.NeedDate, E.Observed, E.HasValidDate, E.ProposedValue;
    NeedDateKeeps(s, t, a, Deterministic, now);
    if E.Observed(s, a, t).Some? {
      ObservedIsGrounded(s, t, a, now);
      var (date, e) := E.Observed(s, a, t).value;
      WriteKeeps(s, t, a, ExpiryDate, E.ProposedValue(date), Deterministic, Proposed, [e], now);
    }
  }

  lemma ClassifyUndatedKeeps(s: State, t: Text, a: Id, now: int)
    requires RowInv(s, t) && a in s.assets
    ensures RowInv(E.ClassifyUndated(s, a, now).0, t)
  {
    WriteKeeps(s, t, a, ExpiryDate, Null, User, Accepted, [], now);
    ResolveKeeps(if Cur(s, a, ExpiryDate).Some? then Write(s, a, ExpiryDate, Null, User, Accepted, [], now) else s, t, a);
  }

  lemma EnterExpiryKeeps(s: State, t: Text, a: Id, payload: map<string, Json>, cited: Option<seq<Id>>, now: int)
    requires RowInv(s, t)
    ensures RowInv(KeepReply(s, E.EnterExpiry(s, a, payload, cited, t, now)), t)
  {
    if a in s.assets && E.ParseManualEntry(payload, t).Ok? {
      var ids := if cited.Some? then cited.value else [];
      if E.CheckCited(s, HouseholdOf(s, a), ids).None? {
        StoreManualKeeps(s, t, a, E.ParseManualEntry(payload, t).value, ids, now);
      }
    }
  }

  lemma ManualRowOk(s: State, t: Text, a: Id, entry: Json, ids: seq<Id>, now: int)
    requires a in s.assets && E.HasValidDate(entry, t.spellings) && E.CheckCited(s, HouseholdOf(s, a), ids).None?
    ensures RowOk(s, t, Row(a, ExpiryDate, entry, User, Accepted, ids, now))
  {
  }

  lemma StoreManualKeeps(s: State, t: Text, a: Id, entry: Json, ids: seq<Id>, now: int)
    requires RowInv(s, t) && a in s.assets && E.HasValidDate(entry, t.spellings)
    requires E.CheckCited(s, HouseholdOf(s, a), ids).None?
    ensures RowInv(KeepReply(s, E.StoreManualExpiry(s, a, entry, ids, now)), t)
  {
    hide RowInv, RowOk, E.HasValidDate, Write, Latest, ResolveWithOrphans, OwnOpen, OrphanOpen, E.CategoryIn, E.CheckCited;
    if E.StoreManualExpiry(s, a, entry, ids, now).Ok? {
      ManualRowOk(s, t, a, entry, ids, now);
      WriteKeeps(s, t, a, ExpiryDate, entry, User, Accepted, ids, now);
      WriteWrote(s, t, a, ExpiryDate, entry, User, Accepted, ids, now);
      ResolveKeeps(Write(s, a, ExpiryDate, entry, User, Accepted, ids, now), t, a);
    }
  }

  lemma ResolveKeeps(s: State, t: Text, a: Id)
    requires RowInv(s, t) && a in s.assets
    ensures RowInv(ResolveWithOrphans(s, a), t)
  {
    SameRows(s, ResolveWithOrphans(s, a), t);
  }

  lemma ClearExpiryKeeps(s: State, t: Text, a: Id, now: int)
    requires RowInv(s, t)
    ensures RowInv(KeepReply(s, E.ClearExpiry(s, a, now)), t)
  {
    if a in s.assets {
      WriteKeeps(s, t, a, ExpiryDate, Null, User, Accepted, [], now);
      var s1 := Write(s, a, ExpiryDate, Null, User, Accepted, [], now);
      SameRows(s1, s1.(tasks := Resolve(s1.tasks, OwnOpen(s1, a))), t);
    }
  }

  lemma OpenedRowOk(s: State, t: Text, a: Id, v: Json, now: int)
    requires v == Null || E.ParseOpenedDate(v, s.clock, t).Ok?
    ensures RowOk(s, t, Row(a, OpenedDate, v, User, Accepted, [], now))
  {
  }

  lemma OpenedKeeps(s: State, t: Text, a: Id, v: Json, now: int)
    requires RowInv(s, t)
    ensures RowInv(KeepReply(s, E.EnterOpened(s, a, v, t, now)), t)
    ensures RowInv(KeepReply(s, E.ClearOpened(s, a, now)), t)
  {
    hide RowInv, RowOk, Write, Latest, E.AcceptedCategory, ReadCanonical;
    if a in s.assets {
      OpenedRowOk(s, t, a, Null, now);
      WriteKeeps(s, t, a, OpenedDate, Null, User, Accepted, [], now);
      if E.ParseOpenedDate(v, s.clock, t).Ok? {
        OpenedRowOk(s, t, a, v, now);
        WriteKeeps(s, t, a, OpenedDate, v, User, Accepted, [], now);
      }
    }
  }

  lemma {:induction false} ExtensionsKeep(s: State, t: Text, a: Id, attributes: seq<(string, Json)>, now: int)
    requires RowInv(s, t) && a in s.assets
    ensures RowInv(E.WriteExtensions(s, a, attributes, now), t)
  {
    if attributes != [] {
      var n := |attributes| - 1;
      ExtensionsKeep(s, t, a, attributes[..n], now);
      WriteKeeps(E.WriteExtensions(s, a, attributes[..n], now), t, a, Extension(attributes[n].0), attributes[n].1, User,
                 Accepted, [], now);
    }
  }

  lemma SetColumnKeeps(s: State, t: Text, a: Id, c: CoreField, v: Json)
    requires RowInv(s, t) && a in s.assets
    ensures RowInv(A.SetColumn(s, a, c, v), t)
  {
    SameRows(s, A.SetColumn(s, a, c, v), t);
  }

  lemma SetFieldKeeps(s: State, t: Text, a: Id, c: CoreField, v: Json, now: int)
    requires RowInv(s, t) && a in s.assets
    ensures RowInv(A.SetField(s, a, c, v, now), t)
  {
    SetColumnKeeps(s, t, a, c, v);
    UpsertKeeps(A.SetColumn(s, a, c, v), t, a, Core(c), v, now);
  }

  lemma {:induction false} SetFieldsKeep(s: State, t: Text, a: Id, p: A.Payload, order: seq<CoreField>, now: int)
    requires RowInv(s, t) && a in s.assets
    ensures RowInv(A.SetFields(s, a, p, order, now), t)
  {
    if order != [] {
      var n := |order| - 1;
      SetFieldsKeep(s, t, a, p, order[..n], now);
      if order[n] in p {
        SetFieldKeeps(A.SetFields(s, a, p, order[..n], now), t, a, order[n], p[order[n]], now);
      }
    }
  }

  lemma BumpKeeps(s: State, t: Text, a: Id, action: AssetAction)
    requires RowInv(s, t) && a in s.assets
    ensures RowInv(A.Bump(s, a, action), t)
  {
    SameRows(s, A.Bump(s, a, action), t);
  }

  lemma UpdateKeeps(s: State, t: Text, a: Id, p: A.Payload, now: int)
    requires RowInv(s, t) && a in s.assets
    ensures RowInv(Keep(s, A.Update(s, a, p, now)), t)
  {
    SetFieldsKeep(s, t, a, p, A.UpdateOrder, now);
    BumpKeeps(A.SetFields(s, a, p, A.UpdateOrder, now), t, a, Updated(s.assets[a].version));
  }

  lemma PatchKeeps(s: State, t: Text, a: Id, household: Id, p: A.Payload, ifMatch: Option<nat>, now: int)
    requires RowInv(s, t)
    ensures RowInv(Keep(s, A.Patch(s, a, household, p, ifMatch, now)), t)
  {
    if a in s.assets {
      UpdateKeeps(s, t, a, A.Given(p), now);
    }
  }

  lemma ArchiveKeeps(s: State, t: Text, a: Id, household: Id, now: int)
    requires RowInv(s, t)
    ensures RowInv(Keep(s, A.Archive(s, a, household, now)), t)
  {
    if a in s.assets {
      SetFieldKeeps(s, t, a, Status, Str("ARCHIVED"), now);
      BumpKeeps(A.SetField(s, a, Status, Str("ARCHIVED"), now), t, a, Archived);
    }
  }

  lemma MergeKeeps(s: State, t: Text, a: Id, winner: Id, now: int)
    requires RowInv(s, t)
    ensures RowInv(Keep(s, A.Merge(s, a, winner, now)), t)
  {
    if a in s.assets {
      SetFieldKeeps(s, t, a, Status, A.MERGED, now);
      var s1 := A.SetField(s, a, Status, A.MERGED, now);
      UpsertKeeps(s1, t, a, MergedInto, A.MergeTarget(winner), now);
      BumpKeeps(Upsert(s1, a, MergedInto, A.MergeTarget(winner), now), t, a, Merged(s.assets[a].version, winner));
    }
  }

  // ----- creation: accepted rows on pairs nothing used before -----

  predicate DistinctFields(order: seq<CoreField>) {
    forall i, j | 0 <= i < j < |order| :: order[i] != order[j]
  }

  ghost predicate HasField(rows: seq<Row>, f: Field) {
    exists i :: 0 <= i < |rows| && rows[i].field == f
  }

  ghost predicate SuppliedBy(row: Row, a: Id, p: A.Payload, order: seq<CoreField>, now: int) {
    exists c | c in order && c in p :: p[c] != Null && row == A.SuppliedRow(a, p, c, now)
  }

  ghost predicate SuppliedExactly(r: seq<Row>, a: Id, p: A.Payload, order: seq<CoreField>, now: int) {
    && (forall i | 0 <= i < |r| :: SuppliedBy(r[i], a, p, order, now))
    && (forall c | c in order && c in p && p[c] != Null :: HasField(r, Core(c)))
    && (forall i, j | 0 <= i < j < |r| :: r[i].field != r[j].field)
  }

  /** The rows `SuppliedRows` yields: one per supplied field, no field twice. */
  lemma {:induction false} SuppliedShape(a: Id, p: A.Payload, order: seq<CoreField>, now: int)
    requires DistinctFields(order)
    ensures SuppliedExactly(A.SuppliedRows(a, p, order, now), a, p, order, now)
  {
    if order != [] {
      var n := |order| - 1;
      SuppliedShape(a, p, order[..n], now);
      SuppliedOneMore(A.SuppliedRows(a, p, order[..n], now), a, p, order, now);
    }
  }

  lemma SuppliedOneMore(r0: seq<Row>, a: Id, p: A.Payload, order: seq<CoreField>, now: int)
    requires order != [] && DistinctFields(order) && SuppliedExactly(r0, a, p, order[..|order| - 1], now)
    ensures var c := order[|order| - 1];
            var r := r0 + (if c in p && p[c] != Null then [A.SuppliedRow(a, p, c, now)] else []);
            SuppliedExactly(r, a, p, order, now)
  {
    var n := |order| - 1;
    var c := order[n];
    var r := r0 + (if c in p && p[c] != Null then [A.SuppliedRow(a, p, c, now)] else []);
    assert forall c' :: c' in order <==> c' in order[..n] || c' == c;
    assert c !in order[..n];
    forall i | 0 <= i < |r| ensures SuppliedBy(r[i], a, p, order, now) {
      assert i < |r0| ==> r[i] == r0[i] && SuppliedBy(r0[i], a, p, order[..n], now);
    }
    forall c' | c' in order && c' in p && p[c'] != Null ensures HasField(r, Core(c')) {
      if c' != c {
        assert HasField(r0, Core(c'));
        var i :| 0 <= i < |r0| && r0[i].field == Core(c');
        assert r[i].field == Core(c');
      } else {
        assert r[|r0|].field == Core(c);
      }
    }
  }

  ghost predicate NewPairs(rows: seq<Row>, news: seq<Row>) {
    && (forall i, j | 0 <= i < |rows| && 0 <= j < |news| :: !On(rows[i], news[j].asset, news[j].field))
    && (forall i, j | 0 <= i < j < |news| :: !On(news[i], news[j].asset, news[j].field))
  }

  lemma AppendOne(rows: seq<Row>, row: Row)
    requires Shape(rows) && Active(row) && forall i | 0 <= i < |rows| :: !On(rows[i], row.asset, row.field)
    ensures Shape(rows + [row])
    ensures forall a, f | !On(row, a, f) :: Latest(rows + [row], a, f) == Latest(rows, a, f)
  {
    ReplacedView(rows, row, Replace(rows, None, row));
    assert Replace(rows, None, row) == rows + [row];
  }

  lemma {:induction false} AppendFresh(rows: seq<Row>, news: seq<Row>)
    requires Shape(rows) && NewPairs(rows, news) && forall j | 0 <= j < |news| :: Active(news[j])
    ensures Shape(rows + news)
    ensures forall a, f | (forall j | 0 <= j < |news| :: !On(news[j], a, f)) ::
              Latest(rows + news, a, f) == Latest(rows, a, f)
    decreases |news|
  {
    if news == [] {
      assert rows + news == rows;
    } else {
      var first, rest := news[0], news[1..];
      AppendOne(rows, first);
      assert forall j | 0 <= j < |rest| :: rest[j] == news[j + 1];
      AppendFresh(rows + [first], rest);
      assert rows + news == rows + [first] + rest;
    }
  }

  function CreatedRows(a: Id, p: A.Payload, evidence: seq<Id>, t: Text, now: int): seq<Row> {
    A.SuppliedRows(a, p, A.CreateOrder, now) + A.NameRow(a, p, A.Distinct(evidence), t, now)
  }

  lemma CreatedShape(a: Id, p: A.Payload, evidence: seq<Id>, t: Text, now: int)
    ensures var r := CreatedRows(a, p, evidence, t, now);
            && (forall i | 0 <= i < |r| :: r[i].asset == a && r[i].field.Core? && r[i].state == Accepted)
            && (forall i, j | 0 <= i < j < |r| :: r[i].field != r[j].field)
  {
    SuppliedShape(a, p, A.CreateOrder, now);
    var r, r0 := CreatedRows(a, p, evidence, t, now), A.SuppliedRows(a, p, A.CreateOrder, now);
    assert DisplayName !in A.CreateOrder;
    assert forall i | 0 <= i < |r0| :: r[i] == r0[i] && SuppliedBy(r0[i], a, p, A.CreateOrder, now);
  }

  lemma CreateView(s: State, t: Text, a: Id, household: Id, p: A.Payload, evidence: seq<Id>, now: int)
    requires RowInv(s, t) && Fresh(s, a) && A.Create(s, a, household, p, evidence, t, now).Ok?
    ensures var s' := A.Create(s, a, household, p, evidence, t, now).value;
            var r := CreatedRows(a, p, evidence, t, now);
            && s'.rows == s.rows + r
            && Shape(s'.rows)
            && (forall j | 0 <= j < |r| :: Latest(s'.rows, a, r[j].field) == Some(|s.rows| + j))
            && (forall a', f | a' != a || (forall j | 0 <= j < |r| :: r[j].field != f) ::
                  Latest(s'.rows, a', f) == Latest(s.rows, a', f) && Cur(s', a', f) == Cur(s, a', f))
  {
    CreatedShape(a, p, evidence, t, now);
    CreateAppends(s, t, a, household, p, evidence, now);
    hide A.Create, CreatedRows, Latest;
    var r := CreatedRows(a, p, evidence, t, now);
    AppendFresh(s.rows, r);
    forall j | 0 <= j < |r| ensures Latest(s.rows + r, a, r[j].field) == Some(|s.rows| + j) {
      assert (s.rows + r)[|s.rows| + j] == r[j];
      LatestIs(s.rows + r, a, r[j].field, |s.rows| + j);
    }
    forall a', f | a' != a || (forall j | 0 <= j < |r| :: r[j].field != f)
      ensures Latest(s.rows + r, a', f) == Latest(s.rows, a', f)
    {
      assert forall j | 0 <= j < |r| :: !On(r[j], a', f);
    }
  }

  lemma CreateAppends(s: State, t: Text, a: Id, household: Id, p: A.Payload, evidence: seq<Id>, now: int)
    requires A.Create(s, a, household, p, evidence, t, now).Ok?
    ensures A.Create(s, a, household, p, evidence, t, now).value.rows == s.rows + CreatedRows(a, p, evidence, t, now)
  {
    var r1, r2 := A.SuppliedRows(a, p, A.CreateOrder, now), A.NameRow(a, p, A.Distinct(evidence), t, now);
    assert s.rows + (r1 + r2) == s.rows + r1 + r2;
  }

  lemma CreateGrows(s: State, t: Text, a: Id, household: Id, p: A.Payload, evidence: seq<Id>, now: int)
    requires Fresh(s, a) && A.Create(s, a, household, p, evidence, t, now).Ok?
    ensures var s' := A.Create(s, a, household, p, evidence, t, now).value;
            Grows(s, s') && a in s'.assets
  {
    hide A.SuppliedRows, A.NameRow, A.InitialColumns, A.Distinct;
  }

  lemma CreateKeeps(s: State, t: Text, a: Id, household: Id, p: A.Payload, evidence: seq<Id>, now: int)
    requires RowInv(s, t) && Fresh(s, a)
    ensures RowInv(Keep(s, A.Create(s, a, household, p, evidence, t, now)), t)
  {
    hide A.Create, CreatedRows, Grows, Fresh, Shape, Latest, ExpiryRowOk, OpenedValueOk;
    var o := A.Create(s, a, household, p, evidence, t, now);
    if o.Ok? {
      CreateView(s, t, a, household, p, evidence, now);
      CreatedShape(a, p, evidence, t, now);
      CreateGrows(s, t, a, household, p, evidence, now);
      var s', r := o.value, CreatedRows(a, p, evidence, t, now);
      GrowsAssets(s, s');
      forall i | 0 <= i < |s'.rows| ensures s'.rows[i].asset in s'.assets && (Active(s'.rows[i]) ==> RowOk(s', t, s'.rows[i])) {
        if i < |s.rows| {
          if Active(s.rows[i]) { RowOkStable(s, s', t, s.rows[i]); }
        } else {
          assert s'.rows[i] == r[i - |s.rows|];
        }
      }
    }
  }

  lemma GrowsAssets(s: State, s': State)
    requires Grows(s, s')
    ensures s.assets.Keys <= s'.assets.Keys
  {
  }

  lemma ServiceRows(s: State, op: Op, t: Text)
    requires RowInv(s, t) && IsService(op)
    ensures RowInv(Step(s, op, t), t)
  {
    hide RowInv, A.Update, A.Patch, A.Archive, A.Merge;
    match op {
      case UpdateAsset(a, payload, now) => if a in s.assets { UpdateKeeps(s, t, a, payload, now); }
      case PatchAsset(a, household, payload, ifMatch, now) => PatchKeeps(s, t, a, household, payload, ifMatch, now);
      case ArchiveAsset(a, household, now) => ArchiveKeeps(s, t, a, household, now);
      case MergeAsset(a, winner, now) => MergeKeeps(s, t, a, winner, now);
    }
  }

  lemma PluginOpRows(s: State, op: Op, t: Text)
    requires RowInv(s, t) && Sound(t.alphabet) && IsPlugin(op)
    ensures RowInv(Step(s, op, t), t)
  {
    hide RowInv, E.Classify, E.EnterExpiry, E.ClearExpiry, E.EnterOpened, E.ClearOpened, E.NeedDate;
    match op {
      case Classify(a, slug, tier, now) => ClassifyKeeps(s, t, a, slug, tier, now);
      case Extract(a, needsEvidence, now) => ExtractKeeps(s, t, a, needsEvidence, now);
      case EnterExpiry(a, entry, cited, now) => EnterExpiryKeeps(s, t, a, entry, cited, now);
      case ClearExpiry(a, now) => ClearExpiryKeeps(s, t, a, now);
      case EnterOpened(a, value, now) => OpenedKeeps(s, t, a, value, now);
      case ClearOpened(a, now) => OpenedKeeps(s, t, a, Null, now);
      case Extend(a, attributes, now) => if a in s.assets { ExtensionsKeep(s, t, a, attributes, now); }
    }
  }

  lemma StepKeepsRows(s: State, op: Op, t: Text)
    requires RowInv(s, t) && Sound(t.alphabet)
    ensures RowInv(Step(s, op, t), t)
  {
    hide RowInv, E.Classify, E.Extract, E.EnterExpiry, E.ClearExpiry, E.EnterOpened, E.ClearOpened, E.Extend,
         A.Create, A.Update, A.Patch, A.Archive, A.Merge, OtherStep, Fresh;
    if IsOther(op) {
      OthersKeep(s, op, t);
    } else if IsService(op) {
      ServiceRows(s, op, t);
    } else if IsPlugin(op) {
      PluginOpRows(s, op, t);
    } else if Fresh(s, op.a) {
      CreateKeeps(s, t, op.a, op.household, op.payload, op.evidence, op.now);
    }
  }

  /** Evidence, observations, candidates, other modules' tasks and time never touch a row. */
  lemma OthersKeep(s: State, op: Op, t: Text)
    requires RowInv(s, t) && IsOther(op)
    ensures RowInv(OtherStep(s, op), t)
  {
    SameRows(s, OtherStep(s, op), t);
  }
}
