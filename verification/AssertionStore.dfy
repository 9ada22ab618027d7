/** The append-only assertion table and its two writers' supersession rules. */
module AssertionStore {
  import opened Prelude

  datatype CoreField = DisplayName | AssetType | Status | Quantity | Unit | Condition

  /** Field paths; `Path` gives the stored strings. */
  datatype Field =
    | Classification
    | ExpiryDate
    | Extension(key: string)
    | OpenedDate
    | Core(core: CoreField)
    | MergedInto

  function Path(f: Field): string {
    match f
    case Classification => "plugin:expiry-tracker/classification"
    case ExpiryDate => "plugin:expiry-tracker/expiry_date"
    case Extension(key) => "plugin:expiry-tracker/extension/" + key
    case OpenedDate => "opened_date"
    case MergedInto => "merge.merged_into"
    case Core(DisplayName) => "display_name"
    case Core(AssetType) => "asset_type"
    case Core(Status) => "status"
    case Core(Quantity) => "quantity"
    case Core(Unit) => "unit"
    case Core(Condition) => "condition"
  }

  /** Filtering rows by the stored path is filtering by the field: no two fields share a path. */
  lemma PathInjective(f: Field, g: Field)
    requires Path(f) == Path(g)
    ensures f == g
  {
    var p, n := Path(f), |"plugin:expiry-tracker/"|;
    assert f.Classification? || f.ExpiryDate? || f.Extension? <==> |p| > n && p[..n] == "plugin:expiry-tracker/";
    if f.Extension? {
      assert p[n + 1] == 'x' && p[n + 2] == 't';
      assert f.key == p[|"plugin:expiry-tracker/extension/"|..];
    }
    if g.Extension? {
      assert p[n + 1] == 'x' && p[n + 2] == 't';
      assert g.key == p[|"plugin:expiry-tracker/extension/"|..];
    }
    assert f.Classification? ==> p[n] == 'c';
    assert f.ExpiryDate? ==> p[n + 2] == 'p';
    assert !(|p| > n) ==> p[0] in ['o', 'm', 'd', 'a', 's', 'q', 'u', 'c'];
  }

  /** The fields the expiry tracker writes; the asset service writes the others. */
  predicate PluginField(f: Field) {
    f.Classification? || f.ExpiryDate? || f.Extension? || f.OpenedDate?
  }

  datatype ReviewState = Accepted | Proposed | NeedsEvidence | Superseded | Rejected

  datatype Source = User | Deterministic | Extraction

  /** One row; its id is its position, since rows are only ever appended. */
  datatype Row = Row(
    asset: Id, field: Field, value: Json, source: Source, state: ReviewState, evidence: seq<Id>, createdAt: int)

  predicate Active(r: Row) { r.state != Superseded && r.state != Rejected }

  predicate On(r: Row, a: Id, f: Field) { r.asset == a && r.field == f }

  /** The last active row on a pair, in insertion order. */
  function Latest(rows: seq<Row>, a: Id, f: Field): (r: Option<nat>)
    ensures r.Some? ==> r.value < |rows| && Active(rows[r.value]) && On(rows[r.value], a, f)
    ensures r.Some? ==> forall j | r.value < j < |rows| && On(rows[j], a, f) :: !Active(rows[j])
    ensures r.None? ==> forall j | 0 <= j < |rows| && On(rows[j], a, f) :: !Active(rows[j])
  {
    if rows == [] then None
    else
      var n := |rows| - 1;
      if Active(rows[n]) && On(rows[n], a, f) then Some(n) else Latest(rows[..n], a, f)
  }

  /** The active row on a pair. */
  function Current(rows: seq<Row>, a: Id, f: Field): (r: Option<Row>)
    ensures r.Some? ==> Active(r.value) && On(r.value, a, f)
  {
    match Latest(rows, a, f)
    case Some(i) => Some(rows[i])
    case None => None
  }

  ghost predicate HasLater(rows: seq<Row>, i: nat)
    requires i < |rows|
  {
    exists j :: i < j < |rows| && On(rows[j], rows[i].asset, rows[i].field)
  }

  /** The table's invariant: a row is active exactly when no later row is on its pair. */
  ghost predicate Shape(rows: seq<Row>) {
    forall i {:trigger HasLater(rows, i)} | 0 <= i < |rows| :: Active(rows[i]) <==> !HasLater(rows, i)
  }

  /** `order_by(created_at.desc()).first()` may return any of the newest rows it selects. */
  ghost predicate NewestActive(rows: seq<Row>, a: Id, f: Field, i: nat) {
    && i < |rows| && On(rows[i], a, f) && Active(rows[i])
    && forall j | 0 <= j < |rows| && On(rows[j], a, f) && Active(rows[j]) :: rows[j].createdAt <= rows[i].createdAt
  }

  ghost predicate NewestAccepted(rows: seq<Row>, a: Id, f: Field, i: nat) {
    && i < |rows| && On(rows[i], a, f) && rows[i].state == Accepted
    && forall j | 0 <= j < |rows| && On(rows[j], a, f) && rows[j].state == Accepted :: rows[j].createdAt <= rows[i].createdAt
  }

  /** At most one active row per pair. */
  lemma SingleActive(rows: seq<Row>, i: nat, j: nat)
    requires Shape(rows) && i < |rows| && j < |rows|
    requires Active(rows[i]) && Active(rows[j]) && On(rows[j], rows[i].asset, rows[i].field)
    ensures i == j
  {
    assert !HasLater(rows, i) && !HasLater(rows, j);
  }

  lemma LatestIs(rows: seq<Row>, a: Id, f: Field, i: nat)
    requires Shape(rows) && i < |rows| && On(rows[i], a, f) && Active(rows[i])
    ensures Latest(rows, a, f) == Some(i)
  {
    SingleActive(rows, i, Latest(rows, a, f).value);
  }

  /** The readers are well defined whatever the clock did: equal or falling timestamps change nothing. */
  lemma ReadersWellDefined(rows: seq<Row>, a: Id, f: Field, i: nat)
    requires Shape(rows)
    ensures NewestActive(rows, a, f, i) <==> Latest(rows, a, f) == Some(i)
    ensures NewestAccepted(rows, a, f, i) <==> Latest(rows, a, f) == Some(i) && rows[i].state == Accepted
  {
    forall x, y | 0 <= x < |rows| && 0 <= y < |rows| && On(rows[x], a, f) && On(rows[y], a, f)
                  && Active(rows[x]) && Active(rows[y])
      ensures x == y
    {
      SingleActive(rows, x, y);
    }
  }

  function Supersede(rows: seq<Row>, p: Option<nat>): (r: seq<Row>)
    requires p.Some? ==> p.value < |rows|
    ensures |r| == |rows|
    ensures forall i | 0 <= i < |rows| :: r[i] == if p == Some(i) then rows[i].(state := Superseded) else rows[i]
  {
    match p
    case Some(i) => rows[i := rows[i].(state := Superseded)]
    case None => rows
  }

  /** Retire one row and append another. */
  function Replace(rows: seq<Row>, p: Option<nat>, row: Row): seq<Row>
    requires p.Some? ==> p.value < |rows|
  {
    Supersede(rows, p) + [row]
  }

  lemma ReplaceKeepsShape(rows: seq<Row>, row: Row)
    requires Shape(rows) && Active(row)
    ensures Shape(Replace(rows, Latest(rows, row.asset, row.field), row))
  {
    var p := Latest(rows, row.asset, row.field);
    var rows' := Replace(rows, p, row);
    forall i | 0 <= i < |rows'| ensures Active(rows'[i]) <==> !HasLater(rows', i) {
      if i < |rows| {
        if On(rows[i], row.asset, row.field) {
          assert On(rows'[|rows|], rows'[i].asset, rows'[i].field);
          assert HasLater(rows', i);
          if Active(rows[i]) {
            SingleActive(rows, i, p.value);
          }
        } else if HasLater(rows, i) {
          var j :| i < j < |rows| && On(rows[j], rows[i].asset, rows[i].field);
          assert On(rows'[j], rows'[i].asset, rows'[i].field);
        } else {
          assert forall j | i < j < |rows'| :: !On(rows'[j], rows'[i].asset, rows'[i].field);
        }
      }
    }
  }

  /** After a replacement the new row is current on its pair and every other pair reads as before. */
  lemma ReplaceView(rows: seq<Row>, row: Row, a: Id, f: Field)
    requires Shape(rows) && Active(row)
    ensures var rows' := Replace(rows, Latest(rows, row.asset, row.field), row);
            Latest(rows', a, f) == if On(row, a, f) then Some(|rows|) else Latest(rows, a, f)
  {
    ReplaceKeepsShape(rows, row);
    var p := Latest(rows, row.asset, row.field);
    var rows' := Replace(rows, p, row);
    if On(row, a, f) {
      LatestIs(rows', a, f, |rows|);
    } else {
      OtherPairs(rows, p, row, a, f);
    }
  }

  lemma OtherPairs(rows: seq<Row>, p: Option<nat>, row: Row, a: Id, f: Field)
    requires p.Some? ==> p.value < |rows| && On(rows[p.value], row.asset, row.field)
    requires !On(row, a, f)
    ensures Latest(Replace(rows, p, row), a, f) == Latest(rows, a, f)
  {
    var rows' := Replace(rows, p, row);
    forall j | 0 <= j < |rows'| && On(rows'[j], a, f) ensures j < |rows| && rows'[j] == rows[j] {
    }
    var q, q' := Latest(rows, a, f), Latest(rows', a, f);
    if q.Some? {
      assert rows'[q.value] == rows[q.value];
    }
  }

  /** The row `filter_by(review_state="accepted").first()` finds. */
  function FirstAccepted(rows: seq<Row>, a: Id, f: Field): (r: Option<nat>)
    ensures r.Some? ==> r.value < |rows| && On(rows[r.value], a, f) && rows[r.value].state == Accepted
    ensures r.None? ==> forall j | 0 <= j < |rows| && On(rows[j], a, f) :: rows[j].state != Accepted
  {
    if rows == [] then None
    else
      var n := |rows| - 1;
      var r := FirstAccepted(rows[..n], a, f);
      if r.Some? then r
      else if On(rows[n], a, f) && rows[n].state == Accepted then Some(n) else None
  }

  /**
   * The second writer retires an accepted row only. It keeps the table's invariant exactly when the
   * pair's active row, if any, is accepted: on a field with a proposal it would leave two active rows.
   */
  lemma UpsertKeepsShapeExactly(rows: seq<Row>, row: Row)
    requires Shape(rows) && row.state == Accepted
    ensures var p := Latest(rows, row.asset, row.field);
            && ((p.Some? ==> rows[p.value].state == Accepted) <==> FirstAccepted(rows, row.asset, row.field) == p)
            && ((p.Some? ==> rows[p.value].state == Accepted)
                <==> Shape(Replace(rows, FirstAccepted(rows, row.asset, row.field), row)))
  {
    var p, q := Latest(rows, row.asset, row.field), FirstAccepted(rows, row.asset, row.field);
    if q.Some? {
      SingleActive(rows, q.value, p.value);
    }
    if p == q {
      ReplaceKeepsShape(rows, row);
    } else {
      var rows' := Replace(rows, q, row);
      assert rows'[p.value] == rows[p.value] && rows'[|rows|] == row;
      assert HasLater(rows', p.value);
    }
  }
}
