/** The asset row is a materialised view of its assertions, and its version counts the writes. */
module ColumnInvariants {
  import opened Prelude
  import opened DateScanner
  import opened AssertionStore
  import opened CatalogueState
  import opened Runs
  import opened RowInvariants
  import opened Frames
  import A = AssetSteps

  /** The column holds its assertion's value, or with no assertion its creation value. */
  ghost predicate Agrees(s: State, a: Id, c: CoreField)
    requires a in s.assets && a in s.born
  {
    s.assets[a].columns.Get(c) == match Cur(s, a, Core(c))
                                  case Some(row) => row.value
                                  case None => s.born[a].Get(c)
  }

  predicate CountsAsWrite(e: Event, a: Id) {
    e.AssetEvent? && e.asset == a && (e.action.Updated? || e.action.Merged? || e.action.Archived?)
  }

  /** The journalled writes to one asset. */
  function Writes(events: seq<Event>, a: Id): nat {
    if events == [] then 0
    else
      var n := |events| - 1;
      Writes(events[..n], a) + if CountsAsWrite(events[n], a) then 1 else 0
  }

  ghost predicate ColumnInv(s: State) {
    && s.born.Keys == s.assets.Keys
    && (forall a, c | a in s.assets :: Agrees(s, a, c))
    && (forall a | a in s.assets :: s.assets[a].version == 1 + Writes(AssetEvents(s.audit), a))
    && (forall k | 0 <= k < |AssetEvents(s.audit)| ::
          AssetEvents(s.audit)[k].AssetEvent? && AssetEvents(s.audit)[k].asset in s.assets)
  }

  lemma WritesThen(events: seq<Event>, e: Event, a: Id)
    ensures Writes(events + [e], a) == Writes(events, a) + if CountsAsWrite(e, a) then 1 else 0
  {
    assert (events + [e])[..|events|] == events;
  }

  lemma {:induction false} NoWrites(events: seq<Event>, a: Id)
    requires forall k | 0 <= k < |events| :: events[k].AssetEvent? && events[k].asset != a
    ensures Writes(events, a) == 0
  {
    if events != [] {
      NoWrites(events[..|events| - 1], a);
    }
  }

  lemma PluginKeepsColumns(s: State, s': State)
    requires ColumnInv(s) && PluginOnly(s, s')
    ensures ColumnInv(s')
  {
    hide Latest, Current;
    forall a, c | a in s'.assets ensures Agrees(s', a, c) {
      assert Agrees(s, a, c) && Cur(s', a, Core(c)) == Cur(s, a, Core(c));
    }
  }

  lemma OthersKeepColumns(s: State, s': State)
    requires ColumnInv(s) && OtherOnly(s, s')
    ensures ColumnInv(s')
  {
    hide Latest, Current;
    forall a, c | a in s'.assets ensures Agrees(s', a, c) {
      assert Agrees(s, a, c) && Cur(s', a, Core(c)) == Cur(s, a, Core(c));
    }
    if AssetEvents(s'.audit) != AssetEvents(s.audit) {
      var b, e :| b in s.assets && AssetEvents(s'.audit) == AssetEvents(s.audit) + [AssetEvent(b, Attached(e), HouseholdOf(s, b))];
      forall a { WritesThen(AssetEvents(s.audit), AssetEvent(b, Attached(e), HouseholdOf(s, b)), a); }
    }
  }

  /** Column and assertion change together. */
  lemma SetFieldColumns(s: State, t: Text, a: Id, c: CoreField, v: Json, now: int)
    requires RowInv(s, t) && ColumnInv(s) && a in s.assets
    ensures ColumnInv(A.SetField(s, a, c, v, now))
  {
    var s1 := A.SetColumn(s, a, c, v);
    var s' := A.SetField(s, a, c, v, now);
    SetColumnKeeps(s, t, a, c, v);
    ServiceFieldAccepted(s1, t, a, Core(c));
    UpsertView(s1, a, Core(c), v, now);
    UpsertEvents(s1, a, Core(c), v, now);
    assert Cur(s', a, Core(c)).value.value == v;
    hide RowInv, Latest, Current, FirstAccepted, Writes, AssetEvents;
    ColumnSet(s, s', a, c, v);
  }

  lemma ColumnSet(s: State, s': State, a: Id, c: CoreField, v: Json)
    requires ColumnInv(s) && a in s.assets && s'.born == s.born && AssetEvents(s'.audit) == AssetEvents(s.audit)
    requires s'.assets == s.assets[a := s.assets[a].(columns := s.assets[a].columns.With(c, v))]
    requires Cur(s', a, Core(c)).Some? && Cur(s', a, Core(c)).value.value == v
    requires forall b, d | !(b == a && d == Core(c)) :: Cur(s', b, d) == Cur(s, b, d)
    ensures ColumnInv(s')
  {
    hide Latest, Current, Writes, AssetEvents;
    forall b, d | b in s'.assets ensures Agrees(s', b, d) {
      assert Agrees(s, b, d);
    }
  }

  lemma BumpColumns(s: State, a: Id, action: AssetAction)
    requires ColumnInv(s) && a in s.assets && (action.Updated? || action.Merged? || action.Archived?)
    ensures ColumnInv(A.Bump(s, a, action))
  {
    hide Latest, Current;
    var s' := A.Bump(s, a, action);
    var e := AssetEvent(a, action, s.assets[a].household);
    LogOne(s.audit, e);
    forall b { WritesThen(AssetEvents(s.audit), e, b); }
    forall b, c | b in s'.assets ensures Agrees(s', b, c) {
      assert Agrees(s, b, c) && Cur(s', b, Core(c)) == Cur(s, b, Core(c));
    }
  }

  lemma {:induction false} SetFieldsColumns(s: State, t: Text, a: Id, p: A.Payload, order: seq<CoreField>, now: int)
    requires RowInv(s, t) && ColumnInv(s) && a in s.assets
    ensures ColumnInv(A.SetFields(s, a, p, order, now))
  {
    hide RowInv, ColumnInv, A.SetField;
    if order != [] {
      var n := |order| - 1;
      SetFieldsColumns(s, t, a, p, order[..n], now);
      SetFieldsKeep(s, t, a, p, order[..n], now);
      if order[n] in p {
        SetFieldColumns(A.SetFields(s, a, p, order[..n], now), t, a, order[n], p[order[n]], now);
      }
    }
  }

  lemma UpdateColumns(s: State, t: Text, a: Id, p: A.Payload, now: int)
    requires RowInv(s, t) && ColumnInv(s) && a in s.assets
    ensures ColumnInv(Keep(s, A.Update(s, a, p, now)))
  {
    hide RowInv, ColumnInv, A.SetFields, A.Bump;
    SetFieldsColumns(s, t, a, p, A.UpdateOrder, now);
    BumpColumns(A.SetFields(s, a, p, A.UpdateOrder, now), a, Updated(s.assets[a].version));
  }

  lemma PatchColumns(s: State, t: Text, a: Id, household: Id, p: A.Payload, ifMatch: Option<nat>, now: int)
    requires RowInv(s, t) && ColumnInv(s)
    ensures ColumnInv(Keep(s, A.Patch(s, a, household, p, ifMatch, now)))
  {
    hide RowInv, ColumnInv, A.Update, A.LegalTransition, A.Given;
    if a in s.assets {
      UpdateColumns(s, t, a, A.Given(p), now);
    }
  }

  lemma ArchiveColumns(s: State, t: Text, a: Id, household: Id, now: int)
    requires RowInv(s, t) && ColumnInv(s)
    ensures ColumnInv(Keep(s, A.Archive(s, a, household, now)))
  {
    hide RowInv, ColumnInv, A.Bump, A.LegalTransition, Latest, FirstAccepted, Replace;
    if A.Archive(s, a, household, now).Ok? {
      SetFieldColumns(s, t, a, Status, Str("ARCHIVED"), now);
      BumpColumns(A.SetField(s, a, Status, Str("ARCHIVED"), now), a, Archived);
    }
  }

  /** The redirect is no core field: writing it moves no column. */
  lemma RedirectColumns(s: State, t: Text, a: Id, v: Json, now: int)
    requires RowInv(s, t) && ColumnInv(s) && a in s.assets
    ensures ColumnInv(Upsert(s, a, MergedInto, v, now))
  {
    var s' := Upsert(s, a, MergedInto, v, now);
    ServiceFieldAccepted(s, t, a, MergedInto);
    UpsertView(s, a, MergedInto, v, now);
    UpsertEvents(s, a, MergedInto, v, now);
    hide RowInv, Latest, FirstAccepted;
    forall b, d | b in s'.assets ensures Agrees(s', b, d) {
      assert Agrees(s, b, d);
    }
  }

  lemma MergeColumns(s: State, t: Text, a: Id, winner: Id, now: int)
    requires RowInv(s, t) && ColumnInv(s)
    ensures ColumnInv(Keep(s, A.Merge(s, a, winner, now)))
  {
    hide RowInv, ColumnInv, A.LegalTransition, Latest, FirstAccepted, Replace;
    if A.Merge(s, a, winner, now).Ok? {
      var s1 := A.SetField(s, a, Status, A.MERGED, now);
      var s2 := Upsert(s1, a, MergedInto, A.MergeTarget(winner), now);
      SetFieldKeeps(s, t, a, Status, A.MERGED, now);
      SetFieldColumns(s, t, a, Status, A.MERGED, now);
      RedirectColumns(s1, t, a, A.MergeTarget(winner), now);
      BumpColumns(s2, a, Merged(s.assets[a].version, winner));
    }
  }

  /** Every row created with an asset holds that asset's initial column. */
  lemma CreatedValue(a: Id, p: A.Payload, evidence: seq<Id>, t: Text, now: int, j: nat, c: CoreField)
    requires j < |CreatedRows(a, p, evidence, t, now)| && CreatedRows(a, p, evidence, t, now)[j].field == Core(c)
    ensures CreatedRows(a, p, evidence, t, now)[j].value == A.InitialColumns(p, A.Distinct(evidence), t).Get(c)
  {
    var supplied := A.SuppliedRows(a, p, A.CreateOrder, now);
    SuppliedShape(a, p, A.CreateOrder, now);
    if j < |supplied| {
      SuppliedAt(supplied, a, p, now, j);
      hide A.SuppliedRows, SuppliedExactly, A.ResolveName;
      SuppliedColumn(p, A.Distinct(evidence), t, c);
    } else {
      hide A.SuppliedRows, SuppliedExactly, A.ResolveName, A.Distinct;
    }
  }

  lemma SuppliedAt(r: seq<Row>, a: Id, p: A.Payload, now: int, j: nat)
    requires SuppliedExactly(r, a, p, A.CreateOrder, now) && j < |r|
    ensures exists c | c in A.CreateOrder && c in p :: p[c] != Null && r[j] == A.SuppliedRow(a, p, c, now)
  {
    assert SuppliedBy(r[j], a, p, A.CreateOrder, now);
  }

  /** A supplied column is stored as supplied. */
  lemma SuppliedColumn(p: A.Payload, ids: seq<Id>, t: Text, c: CoreField)
    requires c in A.CreateOrder && c in p && p[c] != Null
    ensures A.InitialColumns(p, ids, t).Get(c) == p[c]
  {
    assert c != DisplayName;
  }

  /** A column created with the value its row carries, or without a row. */
  lemma BornAgrees(s: State, a: Id, c: CoreField)
    requires a in s.assets && a in s.born && s.born[a] == s.assets[a].columns
    requires var p := Latest(s.rows, a, Core(c)); p.Some? ==> s.rows[p.value].value == s.born[a].Get(c)
    ensures Agrees(s, a, c)
  {
    hide Latest;
  }

  lemma CreatedLatest(s: State, t: Text, a: Id, household: Id, p: A.Payload, evidence: seq<Id>, now: int, c: CoreField)
    requires RowInv(s, t) && Fresh(s, a) && A.Create(s, a, household, p, evidence, t, now).Ok?
    ensures var s' := A.Create(s, a, household, p, evidence, t, now).value;
            var row := Latest(s'.rows, a, Core(c));
            row.Some? ==> s'.rows[row.value].value == A.InitialColumns(p, A.Distinct(evidence), t).Get(c)
  {
    assert a !in s.assets;
    FreshPair(s, t, a, Core(c));
    hide *;
    CreateView(s, t, a, household, p, evidence, now);
    var r := CreatedRows(a, p, evidence, t, now);
    if j :| 0 <= j < |r| && r[j].field == Core(c) {
      CreatedValue(a, p, evidence, t, now, j, c);
    }
  }

  lemma CreatedAgrees(s: State, t: Text, a: Id, household: Id, p: A.Payload, evidence: seq<Id>, now: int, c: CoreField)
    requires RowInv(s, t) && Fresh(s, a) && A.Create(s, a, household, p, evidence, t, now).Ok?
    ensures var s' := A.Create(s, a, household, p, evidence, t, now).value;
            a in s'.assets && a in s'.born && Agrees(s', a, c)
  {
    hide *;
    CreateTables(s, t, a, household, p, evidence, now);
    CreatedLatest(s, t, a, household, p, evidence, now, c);
    BornAgrees(A.Create(s, a, household, p, evidence, t, now).value, a, c);
  }

  lemma CreateColumns(s: State, t: Text, a: Id, household: Id, p: A.Payload, evidence: seq<Id>, now: int)
    requires RowInv(s, t) && ColumnInv(s) && Fresh(s, a)
    ensures ColumnInv(Keep(s, A.Create(s, a, household, p, evidence, t, now)))
  {
    assert a !in s.assets;
    hide RowInv, A.Create, CreatedRows, A.InitialColumns, Latest, Current, AssetEvents, Writes, Agrees, Fresh;
    if A.Create(s, a, household, p, evidence, t, now).Ok? {
      var s' := A.Create(s, a, household, p, evidence, t, now).value;
      CreateTables(s, t, a, household, p, evidence, now);
      CreateFrames(s, t, a, household, p, evidence, now);
      forall b, c | b in s'.assets ensures b in s'.born && Agrees(s', b, c) {
        if b == a {
          CreatedAgrees(s, t, a, household, p, evidence, now, c);
        } else {
          CreatedElsewhere(s, t, a, household, p, evidence, now, b, c);
        }
      }
      NewAsset(s, s', a, household);
    }
  }

  lemma NewAsset(s: State, s': State, a: Id, household: Id)
    requires ColumnInv(s) && a !in s.assets
    requires s'.born.Keys == s'.assets.Keys == s.assets.Keys + {a} && s'.assets[a].version == 1
    requires forall b | b in s.assets :: s'.assets[b] == s.assets[b]
    requires forall b, c | b in s'.assets :: Agrees(s', b, c)
    requires AssetEvents(s'.audit)
             == AssetEvents(s.audit) + [AssetEvent(a, Created, household), AssetEvent(a, ReviewAccepted, household)]
    ensures ColumnInv(s')
  {
    hide AssetEvents, Agrees;
    CreatedEvents(s, s', a, household);
  }

  lemma CreatedElsewhere(
    s: State, t: Text, a: Id, household: Id, p: A.Payload, evidence: seq<Id>, now: int, b: Id, c: CoreField)
    requires RowInv(s, t) && Fresh(s, a) && A.Create(s, a, household, p, evidence, t, now).Ok?
    requires b in s.assets && b in s.born && b != a && Agrees(s, b, c)
    ensures var s' := A.Create(s, a, household, p, evidence, t, now).value;
            b in s'.assets && b in s'.born && Agrees(s', b, c)
  {
    hide RowInv, A.Create, CreatedRows, A.InitialColumns, Latest, Current;
    CreateTables(s, t, a, household, p, evidence, now);
    CreateView(s, t, a, household, p, evidence, now);
    assert Cur(A.Create(s, a, household, p, evidence, t, now).value, b, Core(c)) == Cur(s, b, Core(c));
  }

  lemma CreatedEvents(s: State, s': State, a: Id, household: Id)
    requires ColumnInv(s) && a !in s.assets
    requires AssetEvents(s'.audit)
             == AssetEvents(s.audit) + [AssetEvent(a, Created, household), AssetEvent(a, ReviewAccepted, household)]
    ensures Writes(AssetEvents(s'.audit), a) == 0
    ensures forall b | b != a :: Writes(AssetEvents(s'.audit), b) == Writes(AssetEvents(s.audit), b)
  {
    var es, e1, e2 := AssetEvents(s.audit), AssetEvent(a, Created, household), AssetEvent(a, ReviewAccepted, household);
    assert es + [e1, e2] == es + [e1] + [e2];
    forall b ensures Writes(es + [e1] + [e2], b) == Writes(es, b) {
      WritesThen(es, e1, b);
      WritesThen(es + [e1], e2, b);
    }
    NoWrites(es, a);
  }

  lemma ServiceOpColumns(s: State, op: Op, t: Text)
    requires RowInv(s, t) && ColumnInv(s) && IsService(op)
    ensures ColumnInv(Step(s, op, t))
  {
    hide RowInv, ColumnInv, A.Update, A.Patch, A.Archive, A.Merge;
    match op {
      case UpdateAsset(a, payload, now) => if a in s.assets { UpdateColumns(s, t, a, payload, now); }
      case PatchAsset(a, household, payload, ifMatch, now) => PatchColumns(s, t, a, household, payload, ifMatch, now);
      case ArchiveAsset(a, household, now) => ArchiveColumns(s, t, a, household, now);
      case MergeAsset(a, winner, now) => MergeColumns(s, t, a, winner, now);
    }
  }

  lemma StepKeepsColumns(s: State, op: Op, t: Text)
    requires RowInv(s, t) && ColumnInv(s) && Sound(t.alphabet)
    ensures ColumnInv(Step(s, op, t))
  {
    hide RowInv, ColumnInv, PluginOnly, OtherOnly, OtherStep, A.Create, Fresh;
    if IsOther(op) {
      OtherFrames(s, op);
      OthersKeepColumns(s, OtherStep(s, op));
    } else if IsService(op) {
      ServiceOpColumns(s, op, t);
    } else if IsPlugin(op) {
      PluginStep(s, op, t);
      PluginKeepsColumns(s, Step(s, op, t));
    } else if Fresh(s, op.a) {
      CreateColumns(s, t, op.a, op.household, op.payload, op.evidence, op.now);
    }
  }
}
