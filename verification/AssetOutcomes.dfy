/** When each operation of the asset service succeeds, which error it gives otherwise, and what it leaves. */
module AssetOutcomes {
  import opened Prelude
  import opened AssertionStore
  import opened CatalogueState
  import opened Runs
  import opened RowInvariants
  import opened ColumnInvariants
  import D = DateScanner
  import F = Frames
  import M = MergeInvariants
  import T = Theorems
  import A = AssetSteps

  ghost predicate Gives<S>(r: Result<S, A.AssetError>, fault: Option<A.AssetError>) {
    match r case Ok(_) => fault.None? case Err(e) => fault == Some(e)
  }

  /** The pair's active row is this accepted one. */
  ghost predicate Asserts(s: State, a: Id, f: Field, v: Json, source: Source, now: int) {
    Cur(s, a, f) == Some(Row(a, f, v, source, Accepted, [], now))
  }

  // ----- creation -----

  predicate NameGiven(p: A.Payload, t: Text) { DisplayName in p && p[DisplayName].Str? && !t.blank(p[DisplayName].s) }

  predicate Supplied(p: A.Payload, c: CoreField) { c in p && p[c] != Null }

  function Default(c: CoreField): Json {
    if c == AssetType then Str("unknown") else if c == Status then Str("ACTIVE") else Null
  }

  /** What a field of a new asset holds: a column and, when somebody or something supplied it, the accepted assertion. */
  ghost predicate FieldMade(s: State, a: Id, c: CoreField, p: A.Payload, evidence: seq<Id>, t: Text, now: int)
    requires a in s.assets
  {
    var column := s.assets[a].columns.Get(c);
    if c == DisplayName then
      if NameGiven(p, t) then column == p[DisplayName] && Asserts(s, a, Core(c), column, User, now)
      else if evidence != [] then
        column == Str(t.namer(A.Distinct(evidence))) && Asserts(s, a, Core(c), column, Deterministic, now)
      else column == Null && Cur(s, a, Core(c)).None?
    else if Supplied(p, c) then column == p[c] && Asserts(s, a, Core(c), column, User, now)
    else column == Default(c) && Cur(s, a, Core(c)).None?
  }

  ghost predicate Made(s: State, s': State, a: Id, household: Id, p: A.Payload, evidence: seq<Id>, t: Text, now: int) {
    && s'.assets.Keys == s.assets.Keys + {a} && (forall b | b in s.assets && b != a :: s'.assets[b] == s.assets[b])
    && s'.assets[a].household == household && s'.assets[a].version == 1
    && (forall c :: FieldMade(s', a, c, p, evidence, t, now))
    && (forall b: Id, g: Field {:trigger Cur(s', b, g)} | b != a || !g.Core? :: Cur(s', b, g) == Cur(s, b, g))
    && (forall l :: l in s'.links <==> l in s.links || (l.0 == a && l.1 in evidence))
    && s'.audit == s.audit + [AssetEvent(a, Created, household), AssetEvent(a, ReviewAccepted, household)]
    && s' == s.(assets := s'.assets, born := s'.born, rows := s'.rows, links := s'.links, audit := s'.audit)
  }

  /** The row of one field among the new ones. */
  ghost predicate RowFor(r: seq<Row>, c: CoreField, row: Row) { exists j :: 0 <= j < |r| && r[j].field == Core(c) && r[j] == row }

  ghost predicate NoRowFor(r: seq<Row>, c: CoreField) { forall j | 0 <= j < |r| :: r[j].field != Core(c) }

  lemma SuppliedRowFor(a: Id, p: A.Payload, c: CoreField, now: int)
    requires c != DisplayName
    ensures var r := A.SuppliedRows(a, p, A.CreateOrder, now);
            if Supplied(p, c) then RowFor(r, c, Row(a, Core(c), p[c], User, Accepted, [], now)) else NoRowFor(r, c)
  {
    SuppliedShape(a, p, A.CreateOrder, now);
    CreatedFields(c);
    var r := A.SuppliedRows(a, p, A.CreateOrder, now);
    hide A.SuppliedRows;
    forall j | 0 <= j < |r| && r[j].field == Core(c)
      ensures Supplied(p, c) && r[j] == Row(a, Core(c), p[c], User, Accepted, [], now)
    {
      assert SuppliedBy(r[j], a, p, A.CreateOrder, now);
    }
    if Supplied(p, c) {
      assert HasField(r, Core(c));
    }
  }

  lemma CreatedFields(c: CoreField)
    ensures c in A.CreateOrder <==> c != DisplayName
  {
    var o := A.CreateOrder;
    assert o[0] == AssetType && o[1] == Quantity && o[2] == Unit && o[3] == Condition && o[4] == Status;
  }

  lemma NoNameSupplied(a: Id, p: A.Payload, now: int)
    ensures NoRowFor(A.SuppliedRows(a, p, A.CreateOrder, now), DisplayName)
  {
    SuppliedShape(a, p, A.CreateOrder, now);
    CreatedFields(DisplayName);
    var r := A.SuppliedRows(a, p, A.CreateOrder, now);
    hide A.SuppliedRows;
    forall j | 0 <= j < |r| ensures r[j].field != Core(DisplayName) {
      assert SuppliedBy(r[j], a, p, A.CreateOrder, now);
    }
  }

  lemma NameRowIs(a: Id, p: A.Payload, evidence: seq<Id>, t: Text, now: int)
    ensures var ids := A.Distinct(evidence);
            A.NameRow(a, p, ids, t, now)
            == if NameGiven(p, t) then [Row(a, Core(DisplayName), p[DisplayName], User, Accepted, [], now)]
               else if evidence != [] then [Row(a, Core(DisplayName), Str(t.namer(ids)), Deterministic, Accepted, [], now)]
               else []
  {
    EmptyDistinct(evidence);
    hide A.Distinct;
  }

  lemma EmptyDistinct(ids: seq<Id>)
    ensures A.Distinct(ids) == [] <==> ids == []
  {
    if ids != [] {
      assert ids[0] in A.Distinct(ids);
    }
  }

  /** The new rows on one field. */
  lemma CreatedRowFor(a: Id, p: A.Payload, evidence: seq<Id>, t: Text, now: int, c: CoreField)
    ensures var r := CreatedRows(a, p, evidence, t, now);
            if c == DisplayName then
              if NameGiven(p, t) then RowFor(r, c, Row(a, Core(c), p[c], User, Accepted, [], now))
              else if evidence != [] then
                RowFor(r, c, Row(a, Core(c), Str(t.namer(A.Distinct(evidence))), Deterministic, Accepted, [], now))
              else NoRowFor(r, c)
            else if Supplied(p, c) then RowFor(r, c, Row(a, Core(c), p[c], User, Accepted, [], now))
            else NoRowFor(r, c)
  {
    NameRowIs(a, p, evidence, t, now);
    var r0, r1 := A.SuppliedRows(a, p, A.CreateOrder, now), A.NameRow(a, p, A.Distinct(evidence), t, now);
    assert CreatedRows(a, p, evidence, t, now) == r0 + r1;
    RowsOfBoth(r0, r1, c);
    if c == DisplayName {
      NoNameSupplied(a, p, now);
    } else {
      SuppliedRowFor(a, p, c, now);
    }
    RowsOfOne(r1, c);
    hide *;
  }

  lemma RowsOfBoth(r0: seq<Row>, r1: seq<Row>, c: CoreField)
    ensures NoRowFor(r0 + r1, c) <==> NoRowFor(r0, c) && NoRowFor(r1, c)
    ensures forall row :: RowFor(r0 + r1, c, row) <==> RowFor(r0, c, row) || RowFor(r1, c, row)
  {
    forall row ensures RowFor(r0 + r1, c, row) <==> RowFor(r0, c, row) || RowFor(r1, c, row) {
      if j :| 0 <= j < |r0| && r0[j].field == Core(c) && r0[j] == row { assert (r0 + r1)[j] == row; }
      if j :| 0 <= j < |r1| && r1[j].field == Core(c) && r1[j] == row { assert (r0 + r1)[|r0| + j] == row; }
    }
    assert forall j | 0 <= j < |r0| :: (r0 + r1)[j] == r0[j];
    assert forall j | 0 <= j < |r1| :: (r0 + r1)[|r0| + j] == r1[j];
  }

  lemma RowsOfOne(r: seq<Row>, c: CoreField)
    requires |r| <= 1
    ensures r == [] ==> NoRowFor(r, c)
    ensures r != [] ==> if r[0].field == Core(c) then RowFor(r, c, r[0]) else NoRowFor(r, c)
  {
  }

  /** The column of one field. */
  lemma CreatedColumn(p: A.Payload, evidence: seq<Id>, t: Text, c: CoreField)
    ensures A.InitialColumns(p, A.Distinct(evidence), t).Get(c)
            == if c == DisplayName then
                 if NameGiven(p, t) then p[c]
                 else if evidence != [] then Str(t.namer(A.Distinct(evidence))) else Null
               else if Supplied(p, c) then p[c] else Default(c)
  {
    EmptyDistinct(evidence);
    hide A.Distinct;
  }

  /** A new row is what its field reads; a field without one reads as before. */
  lemma CreatedReads(s: State, s': State, a: Id, r: seq<Row>, c: CoreField, row: Row)
    requires s'.rows == s.rows + r && forall j | 0 <= j < |r| :: Latest(s'.rows, a, r[j].field) == Some(|s.rows| + j)
    ensures RowFor(r, c, row) ==> Cur(s', a, Core(c)) == Some(row)
  {
    hide Latest;
    if RowFor(r, c, row) {
      var j :| 0 <= j < |r| && r[j].field == Core(c) && r[j] == row;
      assert s'.rows[|s.rows| + j] == r[j];
    }
  }

  lemma FieldIsMade(s: State, t: Text, a: Id, household: Id, p: A.Payload, evidence: seq<Id>, now: int, c: CoreField)
    requires RowInv(s, t) && Fresh(s, a) && A.Create(s, a, household, p, evidence, t, now).Ok?
    ensures var s' := A.Create(s, a, household, p, evidence, t, now).value;
            a in s'.assets && FieldMade(s', a, c, p, evidence, t, now)
  {
    hide RowInv, A.Create, A.InitialColumns, A.Distinct, CreatedRows, Cur, Latest, RowFor, NameGiven;
    var s' := A.Create(s, a, household, p, evidence, t, now).value;
    var r, column := CreatedRows(a, p, evidence, t, now), A.InitialColumns(p, A.Distinct(evidence), t).Get(c);
    F.FreshPair(s, t, a, Core(c));
    F.CreateTables(s, t, a, household, p, evidence, now);
    CreateView(s, t, a, household, p, evidence, now);
    CreatedColumn(p, evidence, t, c);
    CreatedRowFor(a, p, evidence, t, now, c);
    CreatedReads(s, s', a, r, c, Row(a, Core(c), column, User, Accepted, [], now));
    CreatedReads(s, s', a, r, c, Row(a, Core(c), column, Deterministic, Accepted, [], now));
    if NoRowFor(r, c) {
      assert Cur(s', a, Core(c)) == Cur(s, a, Core(c));
      NothingYet(s, a, Core(c));
    }
  }

  lemma NothingYet(s: State, a: Id, f: Field)
    requires Latest(s.rows, a, f).None?
    ensures Cur(s, a, f).None?
  {
  }

  /**
   * Creation needs all its evidence to exist. Then a supplied name that is not blank is the user's, the evidence
   * names the asset otherwise, and every other field is as supplied or its default.
   */
  lemma CreateExactly(s: State, t: Text, a: Id, household: Id, p: A.Payload, evidence: seq<Id>, now: int)
    requires RowInv(s, t) && Fresh(s, a)
    ensures var r := A.Create(s, a, household, p, evidence, t, now);
            && Gives(r, if forall e | e in evidence :: e in s.evidence then None else Some(A.UnknownEvidence))
            && (r.Ok? ==> Made(s, r.value, a, household, p, evidence, t, now))
  {
    CreateTurns(s, t, a, household, p, evidence, now);
    if A.Create(s, a, household, p, evidence, t, now).Ok? {
      hide RowInv, A.Create, FieldMade, Cur, Latest, CreatedRows;
      forall c ensures a in A.Create(s, a, household, p, evidence, t, now).value.assets
                       && FieldMade(A.Create(s, a, household, p, evidence, t, now).value, a, c, p, evidence, t, now) {
        FieldIsMade(s, t, a, household, p, evidence, now, c);
      }
      CreatedShape(a, p, evidence, t, now);
      CreateView(s, t, a, household, p, evidence, now);
    }
  }

  /** The tables creation touches. */
  lemma CreateTurns(s: State, t: Text, a: Id, household: Id, p: A.Payload, evidence: seq<Id>, now: int)
    ensures var r := A.Create(s, a, household, p, evidence, t, now);
            && Gives(r, if forall e | e in evidence :: e in s.evidence then None else Some(A.UnknownEvidence))
            && (r.Ok? ==>
                  var s' := r.value;
                  && s'.assets.Keys == s.assets.Keys + {a} && (forall b | b in s.assets && b != a :: s'.assets[b] == s.assets[b])
                  && s'.assets[a].household == household && s'.assets[a].version == 1
                  && (forall l :: l in s'.links <==> l in s.links || (l.0 == a && l.1 in evidence))
                  && s'.audit == s.audit + [AssetEvent(a, Created, household), AssetEvent(a, ReviewAccepted, household)]
                  && s' == s.(assets := s'.assets, born := s'.born, rows := s'.rows, links := s'.links, audit := s'.audit))
  {
    hide A.SuppliedRows, A.NameRow, A.InitialColumns;
    forall l: (Id, Id) | l.0 == a && l.1 in evidence ensures l in A.LinksOf(a, A.Distinct(evidence)) {
      assert l == (a, l.1);
    }
  }

  /** `x` is met before `y` is. */
  ghost predicate Earlier(ids: seq<Id>, x: Id, y: Id) { exists k :: 0 <= k < |ids| && ids[k] == x && y !in ids[..k + 1] }

  ghost predicate InOrder(ids: seq<Id>, r: seq<Id>) { forall i, j | 0 <= i < j < |r| :: Earlier(ids, r[i], r[j]) }

  /** The ids the namer sees are in the order of their first occurrences. */
  lemma {:induction false} DistinctInOrder(ids: seq<Id>)
    ensures InOrder(ids, A.Distinct(ids))
  {
    if ids != [] {
      var n := |ids| - 1;
      DistinctInOrder(ids[..n]);
      var r0, r := A.Distinct(ids[..n]), A.Distinct(ids);
      forall i, j | 0 <= i < j < |r| ensures Earlier(ids, r[i], r[j]) {
        if j < |r0| {
          assert r[i] == r0[i] && r[j] == r0[j] && Earlier(ids[..n], r0[i], r0[j]);
          EarlierStill(ids, r[i], r[j]);
        } else {
          assert r[i] in ids[..n];
          var k :| 0 <= k < n && ids[k] == r[i];
          assert ids[..k + 1] == ids[..n][..k + 1];
        }
      }
    }
  }

  lemma EarlierStill(ids: seq<Id>, x: Id, y: Id)
    requires ids != [] && Earlier(ids[..|ids| - 1], x, y)
    ensures Earlier(ids, x, y)
  {
    var n := |ids| - 1;
    var k :| 0 <= k < n && ids[..n][k] == x && y !in ids[..n][..k + 1];
    assert ids[..k + 1] == ids[..n][..k + 1];
  }

  // ----- update, archive, merge -----

  /** The pairs of a state and the next one the lifecycle allows, besides staying. */
  const Moves: set<(string, string)> := {
    ("DRAFT", "PENDING_REVIEW"), ("PENDING_REVIEW", "ACTIVE"), ("ACTIVE", "ARCHIVED"), ("ACTIVE", "MERGED"),
    ("ARCHIVED", "DISPOSED")}

  ghost predicate MayBecome(current: Json, requested: Json) {
    && requested.Str? && (exists other :: (requested.s, other) in Moves || (other, requested.s) in Moves)
    && (requested == current || (current.Str? && (current.s, requested.s) in Moves))
  }

  lemma TransitionExactly(current: Json, requested: Json)
    ensures A.LegalTransition(current, requested) <==> MayBecome(current, requested)
  {
    if requested.Str? {
      var r := requested.s;
      assert r in A.LifecycleStatuses ==> (r, "PENDING_REVIEW") in Moves || (r, "ACTIVE") in Moves || (r, "ARCHIVED") in Moves
                                          || (r, "DISPOSED") in Moves || ("ACTIVE", r) in Moves || ("ARCHIVED", r) in Moves;
      assert forall other | (r, other) in Moves || (other, r) in Moves :: r in A.LifecycleStatuses;
    }
  }

  /** These columns and their accepted assertions are set, perhaps a redirect is, and nothing else reads differently. */
  ghost predicate Sets(s: State, s': State, a: Id, p: A.Payload, into: Option<Id>, now: int) {
    && a in s.assets && s'.assets.Keys == s.assets.Keys && (forall b | b in s.assets && b != a :: s'.assets[b] == s.assets[b])
    && s'.assets[a].household == s.assets[a].household
    && (forall c :: s'.assets[a].columns.Get(c) == if c in p then p[c] else s.assets[a].columns.Get(c))
    && (forall c | c in p :: Asserts(s', a, Core(c), p[c], User, now))
    && (into.Some? ==> Asserts(s', a, MergedInto, Obj(map["merged_into" := Str(into.value)]), User, now))
    && (forall b: Id, g: Field {:trigger Cur(s', b, g)} |
          b != a || !((g.Core? && g.core in p) || (g == MergedInto && into.Some?)) :: Cur(s', b, g) == Cur(s, b, g))
    && s' == s.(assets := s'.assets, rows := s'.rows, audit := s'.audit)
  }

  /** The version is one higher, and the last audit row journals that. */
  ghost predicate Counted(s: State, s': State, a: Id, action: AssetAction) {
    && a in s.assets && a in s'.assets && s'.assets[a].version == s.assets[a].version + 1
    && s'.audit != [] && s'.audit[|s'.audit| - 1] == AssetEvent(a, action, s.assets[a].household)
  }

  lemma FieldStores(s: State, t: Text, a: Id, c: CoreField, v: Json, now: int)
    requires RowInv(s, t) && a in s.assets
    ensures var s' := A.SetField(s, a, c, v, now);
            Sets(s, s', a, map[c := v], None, now) && s'.assets[a].version == s.assets[a].version
  {
    hide RowInv, Upsert, A.SetColumn, Current;
    var s1 := A.SetColumn(s, a, c, v);
    SetColumnKeeps(s, t, a, c, v);
    ColumnTurns(s, a, c, v);
    UpsertStores(s1, t, a, Core(c), v, now);
    SameCur(s, s1);
    hide Cur;
  }

  lemma ColumnTurns(s: State, a: Id, c: CoreField, v: Json)
    requires a in s.assets
    ensures var s1 := A.SetColumn(s, a, c, v);
            && s1 == s.(assets := s1.assets) && s1.assets.Keys == s.assets.Keys
            && (forall b | b in s.assets && b != a :: s1.assets[b] == s.assets[b])
            && s1.assets[a] == s.assets[a].(columns := s.assets[a].columns.With(c, v))
  {
  }

  /** What the audit row says of the row a new one replaces. */
  function Retired(before: Option<Row>): Option<ReviewState> { if before.Some? then Some(Superseded) else None }

  /** The second writer's row and its journal row, and nothing else read differently. */
  lemma UpsertStores(s: State, t: Text, a: Id, f: Field, v: Json, now: int)
    requires RowInv(s, t) && a in s.assets && !PluginField(f)
    ensures var s' := Upsert(s, a, f, v, now);
            && Asserts(s', a, f, v, User, now) && s' == s.(rows := s'.rows, audit := s'.audit)
            && s'.audit == s.audit + [UpsertWrite(|s.rows|, f, Retired(Cur(s, a, f)), v, s.assets[a].household)]
            && forall b, g {:trigger Cur(s', b, g)} | b != a || g != f :: Cur(s', b, g) == Cur(s, b, g)
  {
    ServiceFieldAccepted(s, t, a, f);
    UpsertView(s, a, f, v, now);
    UpsertKeepsShapeExactly(s.rows, Row(a, f, v, User, Accepted, [], now));
    hide RowInv, Latest, FirstAccepted, Replace, Shape;
  }

  lemma SameCur(s: State, s': State)
    requires s'.rows == s.rows
    ensures forall b, g {:trigger Cur(s', b, g)} :: Cur(s', b, g) == Cur(s, b, g)
  {
  }

  /** Setting one more field. */
  lemma SetsThen(s: State, s1: State, s2: State, a: Id, p: A.Payload, q: A.Payload, now: int)
    requires Sets(s, s1, a, p, None, now) && Sets(s1, s2, a, q, None, now)
    requires forall c | c in p && c in q :: p[c] == q[c]
    ensures Sets(s, s2, a, p + q, None, now)
  {
    hide Current;
    forall c | c in p + q ensures Asserts(s2, a, Core(c), (p + q)[c], User, now) {
      if c !in q { assert Cur(s2, a, Core(c)) == Cur(s1, a, Core(c)); }
    }
    forall b: Id, g: Field | b != a || !(g.Core? && g.core in p + q) ensures Cur(s2, b, g) == Cur(s, b, g) {
      assert Cur(s2, b, g) == Cur(s1, b, g);
    }
  }

  function Restrict(p: A.Payload, order: seq<CoreField>): A.Payload { map c | c in p && c in order :: p[c] }

  lemma RestrictThen(p: A.Payload, order: seq<CoreField>)
    requires order != []
    ensures var n := |order| - 1;
            Restrict(p, order)
            == if order[n] in p then Restrict(p, order[..n]) + map[order[n] := p[order[n]]] else Restrict(p, order[..n])
  {
    assert forall c :: c in order <==> c in order[..|order| - 1] || c == order[|order| - 1];
  }

  lemma {:induction false} FieldsStore(s: State, t: Text, a: Id, p: A.Payload, order: seq<CoreField>, now: int)
    requires RowInv(s, t) && a in s.assets
    ensures var s' := A.SetFields(s, a, p, order, now);
            Sets(s, s', a, Restrict(p, order), None, now) && s'.assets[a].version == s.assets[a].version
  {
    hide RowInv, Restrict, Sets, A.SetField;
    if order == [] {
      NothingSet(s, a, p, now);
    } else {
      var n := |order| - 1;
      FieldsStore(s, t, a, p, order[..n], now);
      SetFieldsKeep(s, t, a, p, order[..n], now);
      RestrictThen(p, order);
      if order[n] in p {
        var s1, c := A.SetFields(s, a, p, order[..n], now), order[n];
        FieldStores(s1, t, a, c, p[c], now);
        RestrictAgrees(p, order[..n], c);
        SetsThen(s, s1, A.SetField(s1, a, c, p[c], now), a, Restrict(p, order[..n]), map[c := p[c]], now);
      }
    }
  }

  lemma RestrictAgrees(p: A.Payload, order: seq<CoreField>, c: CoreField)
    requires c in p
    ensures c in Restrict(p, order) ==> Restrict(p, order)[c] == p[c]
  {
  }

  lemma NothingSet(s: State, a: Id, p: A.Payload, now: int)
    requires a in s.assets
    ensures Sets(s, s, a, Restrict(p, []), None, now)
  {
  }

  lemma BumpCounts(s: State, s1: State, a: Id, p: A.Payload, into: Option<Id>, action: AssetAction, now: int)
    requires Sets(s, s1, a, p, into, now) && s1.assets[a].version == s.assets[a].version > 0
    ensures Sets(s, A.Bump(s1, a, action), a, p, into, now) && Counted(s, A.Bump(s1, a, action), a, action)
  {
    SameCur(s1, A.Bump(s1, a, action));
    hide Cur, Asserts;
  }

  lemma AllFields(p: A.Payload)
    ensures Restrict(p, A.UpdateOrder) == p
  {
    var o := A.UpdateOrder;
    assert o[0] == DisplayName && o[1] == AssetType && o[2] == Quantity && o[3] == Unit && o[4] == Condition && o[5] == Status;
    forall c: CoreField ensures c in o {
      match c case DisplayName => case AssetType => case Quantity => case Unit => case Condition => case Status =>
    }
  }

  /** The service-level update refuses a null type or status only, and then sets what was supplied. */
  lemma UpdateExactly(s: State, t: Text, a: Id, p: A.Payload, now: int)
    requires RowInv(s, t) && a in s.assets && s.assets[a].version > 0
    ensures var r := A.Update(s, a, p, now);
            && Gives(r, if (AssetType, Null) in p.Items || (Status, Null) in p.Items then Some(A.NullColumn) else None)
            && (r.Ok? ==> Sets(s, r.value, a, p, None, now) && Counted(s, r.value, a, Updated(s.assets[a].version)))
  {
    FieldsStore(s, t, a, p, A.UpdateOrder, now);
    AllFields(p);
    hide RowInv, Sets, Counted, A.SetFields, A.Bump, A.UpdateOrder, Restrict;
    BumpCounts(s, A.SetFields(s, a, p, A.UpdateOrder, now), a, p, None, Updated(s.assets[a].version), now);
  }

  /** The fields the update route sets: those supplied with something. */
  function NonNull(p: A.Payload): A.Payload { map c | c in p && Supplied(p, c) :: p[c] }

  ghost function PatchFault(s: State, a: Id, household: Id, p: A.Payload, ifMatch: Option<nat>): Option<A.AssetError> {
    if a !in s.assets then Some(A.NoAsset)
    else if s.assets[a].household != household then Some(A.HouseholdMismatch)
    else if ifMatch != None && ifMatch != Some(s.assets[a].version) then Some(A.VersionMismatch)
    else if forall c :: !Supplied(p, c) then Some(A.NothingToUpdate)
    else if Supplied(p, Status) && !MayBecome(s.assets[a].columns.status, p[Status]) then Some(A.IllegalTransition)
    else None
  }

  /** The update route: what refuses it, first to last, and what it sets. */
  lemma PatchExactly(s: State, t: Text, a: Id, household: Id, p: A.Payload, ifMatch: Option<nat>, now: int)
    requires D.Sound(t.alphabet) && Reachable(s, t)
    ensures var r := A.Patch(s, a, household, p, ifMatch, now);
            && Gives(r, PatchFault(s, a, household, p, ifMatch))
            && (r.Ok? ==> Sets(s, r.value, a, NonNull(p), None, now) && Counted(s, r.value, a, Updated(s.assets[a].version)))
  {
    Reached(s, t, a);
    PatchAllowed(s, a, household, p, ifMatch, now);
    GivenIs(p);
    hide RowInv, Sets, Counted, Reachable, A.Update, A.Given, A.LegalTransition, NonNull, PatchFault, Gives;
    if A.Patch(s, a, household, p, ifMatch, now).Ok? {
      UpdateExactly(s, t, a, NonNull(p), now);
    }
  }

  lemma PatchAllowed(s: State, a: Id, household: Id, p: A.Payload, ifMatch: Option<nat>, now: int)
    ensures Gives(A.Patch(s, a, household, p, ifMatch, now), PatchFault(s, a, household, p, ifMatch))
  {
    GivenIs(p);
    if a in s.assets && Status in p { TransitionExactly(s.assets[a].columns.status, p[Status]); }
    hide A.SetFields, A.Bump, A.Given, A.LegalTransition, MayBecome, NonNull;
  }

  lemma GivenIs(p: A.Payload)
    ensures A.Given(p) == NonNull(p) && (NonNull(p) == map[] <==> forall c :: !Supplied(p, c))
    ensures Status in NonNull(p) <==> Supplied(p, Status)
    ensures Status in NonNull(p) ==> NonNull(p)[Status] == p[Status]
    ensures (AssetType, Null) !in NonNull(p).Items && (Status, Null) !in NonNull(p).Items
  {
    assert forall c | Supplied(p, c) :: c in NonNull(p);
  }

  /** What every reachable state offers the operations on an asset. */
  lemma Reached(s: State, t: Text, a: Id)
    requires D.Sound(t.alphabet) && Reachable(s, t)
    ensures RowInv(s, t) && (a in s.assets ==> s.assets[a].version > 0)
  {
    T.ReachableInvariant(s, t);
    T.InvariantRows(s, t);
    hide T.Invariant, T.OutsideMerges, RowInv, Reachable, T.Materialised;
    if a in s.assets { T.AssetRowIsView(s, t, a, Status); }
  }

  ghost function ArchiveFault(s: State, a: Id, household: Id): Option<A.AssetError> {
    if a !in s.assets then Some(A.NoAsset)
    else if s.assets[a].household != household then Some(A.HouseholdMismatch)
    else if s.assets[a].columns.status != Str("ACTIVE") && s.assets[a].columns.status != Str("ARCHIVED")
    then Some(A.IllegalTransition)
    else None
  }

  lemma ArchiveAllowed(s: State, a: Id, household: Id, now: int)
    ensures Gives(A.Archive(s, a, household, now), ArchiveFault(s, a, household))
  {
    hide A.SetField, A.Bump;
  }

  /** Deleting archives an active asset, or an archived one again. */
  lemma ArchiveExactly(s: State, t: Text, a: Id, household: Id, now: int)
    requires D.Sound(t.alphabet) && Reachable(s, t)
    ensures var r := A.Archive(s, a, household, now);
            && Gives(r, ArchiveFault(s, a, household))
            && (r.Ok? ==> Sets(s, r.value, a, map[Status := Str("ARCHIVED")], None, now) && Counted(s, r.value, a, Archived))
  {
    Reached(s, t, a);
    ArchiveAllowed(s, a, household, now);
    hide RowInv, Sets, Counted, Reachable, A.SetField, A.Bump, A.LegalTransition, ArchiveFault, Gives;
    if A.Archive(s, a, household, now).Ok? {
      FieldStores(s, t, a, Status, Str("ARCHIVED"), now);
      BumpCounts(s, A.SetField(s, a, Status, Str("ARCHIVED"), now), a, map[Status := Str("ARCHIVED")], None, Archived, now);
    }
  }

  ghost function MergeFault(s: State, a: Id, winner: Id): Option<A.AssetError> {
    if a !in s.assets then Some(A.NoAsset)
    else if winner !in s.assets then Some(A.TargetNotFound)
    else if s.assets[winner].household != s.assets[a].household then Some(A.TargetHousehold)
    else if winner == a then Some(A.SelfMerge)
    else if s.assets[winner].columns.status == Str("MERGED") then Some(A.TargetMerged)
    else if s.assets[a].columns.status == Str("MERGED") then Some(A.AlreadyMerged)
    else if s.assets[a].columns.status != Str("ACTIVE") then Some(A.IllegalTransition)
    else None
  }

  lemma MergeAllowed(s: State, a: Id, winner: Id, now: int)
    ensures Gives(A.Merge(s, a, winner, now), MergeFault(s, a, winner))
  {
    hide A.SetField, A.Bump, Upsert;
  }

  /** A merge needs two assets of one household, the winner not merged and the loser active; it sets status and redirect. */
  lemma MergeExactly(s: State, t: Text, a: Id, winner: Id, now: int)
    requires D.Sound(t.alphabet) && Reachable(s, t)
    ensures var r := A.Merge(s, a, winner, now);
            && Gives(r, MergeFault(s, a, winner))
            && (r.Ok? ==> && Sets(s, r.value, a, map[Status := Str("MERGED")], Some(winner), now)
                          && Counted(s, r.value, a, Merged(s.assets[a].version, winner)))
  {
    Reached(s, t, a);
    MergeAllowed(s, a, winner, now);
    hide RowInv, Sets, Counted, Reachable, A.SetField, A.Bump, Upsert, A.Merge, A.LegalTransition, MergeFault, Gives;
    if A.Merge(s, a, winner, now).Ok? {
      M.MergeParts(s, a, winner, now);
      var s1 := A.SetField(s, a, Status, A.MERGED, now);
      FieldStores(s, t, a, Status, A.MERGED, now);
      SetFieldKeeps(s, t, a, Status, A.MERGED, now);
      RedirectStores(s, s1, t, a, winner, now);
      BumpCounts(s, Upsert(s1, a, MergedInto, A.MergeTarget(winner), now), a, map[Status := A.MERGED], Some(winner),
                 Merged(s.assets[a].version, winner), now);
    }
  }

  lemma RedirectStores(s: State, s1: State, t: Text, a: Id, winner: Id, now: int)
    requires RowInv(s1, t) && a in s1.assets && Sets(s, s1, a, map[Status := A.MERGED], None, now)
    ensures var s2 := Upsert(s1, a, MergedInto, A.MergeTarget(winner), now);
            Sets(s, s2, a, map[Status := A.MERGED], Some(winner), now) && s2.assets == s1.assets
  {
    UpsertStores(s1, t, a, MergedInto, A.MergeTarget(winner), now);
    hide RowInv, Upsert, Cur;
  }

  /** Attaching links the asset to each requested item that exists, once, and journals the request without repeats. */
  lemma AttachExactly(s: State, a: Id, evidence: seq<Id>)
    ensures var r := A.Attach(s, a, evidence);
            && Gives(r, if a in s.assets then None else Some(A.NoAsset))
            && (r.Ok? ==>
                  && r.value == s.(links := r.value.links, audit := r.value.audit)
                  && (forall l :: l in r.value.links <==> l in s.links || (l.0 == a && l.1 in evidence && l.1 in s.evidence))
                  && r.value.audit == s.audit + [AssetEvent(a, Attached(A.Distinct(evidence)), s.assets[a].household)])
  {
    if a in s.assets {
      T.AttachedExactly(s, a, evidence);
    }
  }
}
