/** The ledger reclassification: one transaction that turns listed unknown costs into zero, or changes nothing. */
module LedgerReclass {
  import opened Prelude
  import RenderBounds

  /** A provider-call row; `rest` stands for the columns the statement never touches. */
  datatype Row = Row(id: Id, provider: string, cost: Option<real>, error: Option<string>, rest: string)

  /** A row the caller lists, with the error state it was proved unbilled by. */
  datatype Proof = Proof(id: Id, error: Option<string>)

  const OPENROUTER := "openrouter"

  predicate Unclassified(row: Row) { row.provider == OPENROUTER && row.cost.None? }

  /** The WHERE clause; a null error state equals nothing. */
  predicate Hit(row: Row, p: Proof) {
    row.id == p.id && Unclassified(row) && p.error.Some? && row.error == p.error
  }

  function Zero(row: Row): Row { row.(cost := Some(0.0)) }

  /** One statement's effect. */
  function Updated(rows: seq<Row>, p: Proof): (r: seq<Row>)
    ensures |r| == |rows| && forall i | 0 <= i < |rows| :: r[i] == if Hit(rows[i], p) then Zero(rows[i]) else rows[i]
  {
    seq(|rows|, i requires 0 <= i < |rows| => if Hit(rows[i], p) then Zero(rows[i]) else rows[i])
  }

  function Hits(rows: seq<Row>, p: Proof): nat {
    if rows == [] then 0 else Hits(rows[..|rows| - 1], p) + if Hit(rows[|rows| - 1], p) then 1 else 0
  }

  function UnknownCalls(rows: seq<Row>): nat {
    if rows == [] then 0 else UnknownCalls(rows[..|rows| - 1]) + if Unclassified(rows[|rows| - 1]) then 1 else 0
  }

  function KnownSpend(rows: seq<Row>): real {
    if rows == [] then 0.0
    else
      var row := rows[|rows| - 1];
      KnownSpend(rows[..|rows| - 1]) + if row.provider == OPENROUTER && row.cost.Some? then row.cost.value else 0.0
  }

  ghost predicate UniqueIds(rows: seq<Row>) { forall i, j | 0 <= i < j < |rows| :: rows[i].id != rows[j].id }

  ghost predicate Lists(proofs: seq<Proof>, id: Id) { exists k :: 0 <= k < |proofs| && proofs[k].id == id }

  ghost predicate Found(rows: seq<Row>, p: Proof) { exists i :: 0 <= i < |rows| && Hit(rows[i], p) }

  /** Every listed row is there to classify, none is listed twice, and no unknown cost is left out. */
  ghost predicate Commits(rows: seq<Row>, proofs: seq<Proof>) {
    && (forall k | 0 <= k < |proofs| :: Found(rows, proofs[k]))
    && (forall j, k | 0 <= j < k < |proofs| :: proofs[j].id != proofs[k].id)
    && (forall i | 0 <= i < |rows| && Unclassified(rows[i]) :: Lists(proofs, rows[i].id))
  }

  /** Exactly the listed costs are zero; nothing else differs. */
  ghost predicate Reclassified(before: seq<Row>, now: seq<Row>, proofs: seq<Proof>) {
    |now| == |before| && forall i | 0 <= i < |before| ::
      now[i] == if Lists(proofs, before[i].id) then Zero(before[i]) else before[i]
  }

  /** Every listed row is an openrouter row of unknown cost with the listed error, and no row is listed twice. */
  ghost predicate AllApply(rows: seq<Row>, proofs: seq<Proof>) {
    && (forall k | 0 <= k < |proofs| :: AppliesTo(rows, proofs[k]))
    && (forall j, k | 0 <= j < k < |proofs| :: proofs[j].id != proofs[k].id)
  }

  ghost predicate AppliesTo(rows: seq<Row>, p: Proof) { exists i :: 0 <= i < |rows| && Applies(rows[i], p) }

  predicate Applies(row: Row, p: Proof) {
    row.id == p.id && row.provider == "openrouter" && row.cost == None && row.error == p.error != None
  }

  /** The openrouter rows of unknown cost nobody listed. */
  ghost function LeftOut(rows: seq<Row>, proofs: seq<Proof>): set<nat> {
    set i | 0 <= i < |rows| && rows[i].provider == "openrouter" && rows[i].cost == None && !Lists(proofs, rows[i].id)
  }

  datatype Stop = Affected(n: nat) | Lingering(n: nat) | Exception
  datatype Report = Committed(statements: nat) | RolledBack(stop: Stop)

  class Ledger {
    var rows: seq<Row>

    constructor (rows: seq<Row>)
      ensures this.rows == rows
    {
      this.rows := rows;
    }

    /** One UPDATE; the result is how many rows it changed. */
    method Execute(p: Proof) returns (changes: nat)
      modifies this
      ensures rows == Updated(old(rows), p) && changes == Hits(old(rows), p)
    {
      var stored := rows;
      changes := 0;
      for i := 0 to |stored|
        invariant |rows| == |stored| && changes == Hits(stored[..i], p)
        invariant forall j | 0 <= j < |stored| :: rows[j] == if j < i && Hit(stored[j], p) then Zero(stored[j]) else stored[j]
      {
        assert stored[..i + 1][..i] == stored[..i];
        if Hit(stored[i], p) {
          rows := rows[i := Zero(stored[i])];
          changes := changes + 1;
        }
      }
      assert stored[..|stored|] == stored;
    }

    /** `update_rows`: any statement may also raise, and everything but a commit rolls back. */
    method UpdateRows(proofs: seq<Proof>) returns (report: Report)
      requires UniqueIds(rows)
      modifies this
      ensures report.Committed? ==>
                Commits(old(rows), proofs) && Reclassified(old(rows), rows, proofs) && report.statements == |proofs|
      ensures report.RolledBack? ==> rows == old(rows)
      ensures report.RolledBack? && !report.stop.Exception? ==> !Commits(old(rows), proofs)
      ensures report.RolledBack? && report.stop.Affected? ==> report.stop.n == 0 && !AllApply(old(rows), proofs)
      ensures report.RolledBack? && report.stop.Lingering? ==>
                AllApply(old(rows), proofs) && report.stop.n == |LeftOut(old(rows), proofs)| > 0
    {
      var stored := rows;
      NothingDone(rows, proofs);
      for k := 0 to |proofs|
        invariant Progress(stored, rows, proofs, k)
      {
        hide *;
        if * {
          rows := stored;
          return RolledBack(Exception);
        }
        ghost var now := rows;
        var changes := Execute(proofs[k]);
        NextStatement(stored, now, proofs, k);
        if changes != 1 {
          NotApplying(stored, now, proofs, k);
          rows := stored;
          return RolledBack(Affected(changes));
        }
      }
      var remaining := CountUnknown();
      AllStatements(stored, rows, proofs);
      Remaining(stored, rows, proofs);
      hide *;
      if remaining != 0 {
        rows := stored;
        return RolledBack(Lingering(remaining));
      }
      report := Committed(|proofs|);
    }

    /** The lingering-null query. */
    method CountUnknown() returns (n: nat)
      ensures n == UnknownCalls(rows)
    {
      n := 0;
      for i := 0 to |rows|
        invariant n == UnknownCalls(rows[..i])
      {
        assert rows[..i + 1][..i] == rows[..i];
        if Unclassified(rows[i]) { n := n + 1; }
      }
      assert rows[..|rows|] == rows;
    }
  }

  /** The first `k` statements each changed their one row. */
  ghost predicate Progress(before: seq<Row>, now: seq<Row>, proofs: seq<Proof>, k: nat) {
    && k <= |proofs| && Reclassified(before, now, proofs[..k])
    && (forall j | 0 <= j < k :: Found(before, proofs[j]))
    && (forall i, j | 0 <= i < j < k :: proofs[i].id != proofs[j].id)
  }

  lemma NothingDone(rows: seq<Row>, proofs: seq<Proof>)
    ensures Progress(rows, rows, proofs, 0)
  {
    assert proofs[..0] == [];
  }

  lemma NextStatement(before: seq<Row>, now: seq<Row>, proofs: seq<Proof>, k: nat)
    requires UniqueIds(before) && k < |proofs| && Progress(before, now, proofs, k)
    ensures Hits(now, proofs[k]) == 1 ==> Progress(before, Updated(now, proofs[k]), proofs, k + 1)
    ensures Hits(now, proofs[k]) != 1 ==> !Commits(before, proofs)
  {
    HitsExactly(before, now, proofs, k);
    if Hits(now, proofs[k]) == 1 {
      NextReclassified(before, now, proofs, k);
    }
    hide Reclassified, UniqueIds, Lists, Hits, Found;
  }

  lemma NotApplying(before: seq<Row>, now: seq<Row>, proofs: seq<Proof>, k: nat)
    requires UniqueIds(before) && k < |proofs| && Progress(before, now, proofs, k) && Hits(now, proofs[k]) != 1
    ensures Hits(now, proofs[k]) == 0 && !AllApply(before, proofs)
  {
    HitsExactly(before, now, proofs, k);
    hide Reclassified, UniqueIds, Lists, Hits;
    forall j | 0 <= j < |proofs| { AppliesIsHit(before, proofs[j]); }
  }

  lemma Remaining(before: seq<Row>, now: seq<Row>, proofs: seq<Proof>)
    requires Progress(before, now, proofs, |proofs|)
    ensures AllApply(before, proofs) && UnknownCalls(now) == |LeftOut(before, proofs)|
  {
    assert proofs[..|proofs|] == proofs;
    forall k | 0 <= k < |proofs| { AppliesIsHit(before, proofs[k]); }
    RemainingCount(before, now, proofs);
  }

  lemma {:induction false} RemainingCount(before: seq<Row>, now: seq<Row>, proofs: seq<Proof>)
    requires Reclassified(before, now, proofs)
    ensures UnknownCalls(now) == |LeftOut(before, proofs)|
  {
    if before == [] {
      assert LeftOut(before, proofs) == {};
    } else {
      var n := |before| - 1;
      assert forall i | 0 <= i < n :: before[..n][i] == before[i] && now[..n][i] == now[i];
      RemainingCount(before[..n], now[..n], proofs);
      hide Lists;
      assert LeftOut(before, proofs) == LeftOut(before[..n], proofs) + if Unclassified(now[n]) then {n} else {};
    }
  }

  lemma AppliesIsHit(rows: seq<Row>, p: Proof)
    ensures Found(rows, p) <==> AppliesTo(rows, p)
  {
    if i :| 0 <= i < |rows| && Hit(rows[i], p) { assert Applies(rows[i], p); }
    if i :| 0 <= i < |rows| && Applies(rows[i], p) { assert Hit(rows[i], p); }
  }

  /** What a commit needs, in full, and what it leaves of each row. */
  lemma CommitsExactly(before: seq<Row>, now: seq<Row>, proofs: seq<Proof>)
    ensures Commits(before, proofs) <==> AllApply(before, proofs) && LeftOut(before, proofs) == {}
    ensures Reclassified(before, now, proofs) <==>
              && |now| == |before|
              && forall i | 0 <= i < |before| ::
                   && now[i].id == before[i].id && now[i].provider == before[i].provider && now[i].error == before[i].error
                   && now[i].rest == before[i].rest
                   && now[i].cost == (if exists k :: 0 <= k < |proofs| && proofs[k].id == before[i].id then Some(0.0) else before[i].cost)
  {
    NothingLeftOut(before, proofs);
    forall k | 0 <= k < |proofs| ensures Found(before, proofs[k]) <==> AppliesTo(before, proofs[k]) {
      AppliesIsHit(before, proofs[k]);
    }
    hide Found, LeftOut, AppliesTo;
  }

  lemma NothingLeftOut(rows: seq<Row>, proofs: seq<Proof>)
    ensures LeftOut(rows, proofs) == {} <==> forall i | 0 <= i < |rows| && Unclassified(rows[i]) :: Lists(proofs, rows[i].id)
  {
    if i :| 0 <= i < |rows| && Unclassified(rows[i]) && !Lists(proofs, rows[i].id) {
      assert i in LeftOut(rows, proofs);
    }
  }

  lemma AllStatements(before: seq<Row>, now: seq<Row>, proofs: seq<Proof>)
    requires Progress(before, now, proofs, |proofs|)
    ensures Reclassified(before, now, proofs) && (Commits(before, proofs) <==> UnknownCalls(now) == 0)
  {
    assert proofs[..|proofs|] == proofs;
    LingeringExactly(before, now, proofs);
    hide Reclassified, Lists, Found, UnknownCalls;
  }

  lemma {:induction false} HitsAtMostOne(rows: seq<Row>, p: Proof)
    requires UniqueIds(rows)
    ensures Hits(rows, p) <= 1 && (Hits(rows, p) == 1 <==> Found(rows, p))
  {
    if rows != [] {
      var n := |rows| - 1;
      HitsAtMostOne(rows[..n], p);
      if Found(rows[..n], p) {
        var i :| 0 <= i < n && Hit(rows[..n][i], p);
        assert Hit(rows[i], p);
      }
      if Found(rows, p) && !Hit(rows[n], p) {
        var i :| 0 <= i < |rows| && Hit(rows[i], p);
        assert Hit(rows[..n][i], p);
      }
    }
  }

  /** A statement changes one row exactly when its row was there to begin with and was not listed earlier. */
  lemma HitsExactly(before: seq<Row>, now: seq<Row>, proofs: seq<Proof>, k: nat)
    requires UniqueIds(before) && k < |proofs| && Reclassified(before, now, proofs[..k])
    ensures Hits(now, proofs[k]) <= 1
    ensures Hits(now, proofs[k]) == 1 <==> Found(before, proofs[k]) && !Lists(proofs[..k], proofs[k].id)
    ensures Lists(proofs[..k], proofs[k].id) <==> exists j :: 0 <= j < k && proofs[j].id == proofs[k].id
  {
    HitsAtMostOne(now, proofs[k]);
    var p := proofs[k];
    if Found(now, p) {
      var i :| 0 <= i < |now| && Hit(now[i], p);
      assert Hit(before[i], p);
    }
    if Found(before, p) && !Lists(proofs[..k], p.id) {
      var i :| 0 <= i < |before| && Hit(before[i], p);
      assert Hit(now[i], p);
    }
    if j :| 0 <= j < k && proofs[j].id == p.id {
      assert proofs[..k][j].id == p.id;
    }
  }

  lemma NextReclassified(before: seq<Row>, now: seq<Row>, proofs: seq<Proof>, k: nat)
    requires UniqueIds(before) && k < |proofs| && Reclassified(before, now, proofs[..k])
    requires Found(before, proofs[k]) && !Lists(proofs[..k], proofs[k].id)
    ensures Reclassified(before, Updated(now, proofs[k]), proofs[..k + 1])
  {
    var p, i0 := proofs[k], HitIndex(before, proofs[k]);
    forall i | 0 <= i < |before|
      ensures Lists(proofs[..k + 1], before[i].id) <==> Lists(proofs[..k], before[i].id) || i == i0
    {
      ListsThen(proofs, k, before[i].id);
    }
  }

  ghost function HitIndex(rows: seq<Row>, p: Proof): (i: nat)
    requires Found(rows, p)
    ensures i < |rows| && Hit(rows[i], p)
  {
    var i :| 0 <= i < |rows| && Hit(rows[i], p);
    i
  }

  lemma ListsThen(proofs: seq<Proof>, k: nat, id: Id)
    requires k < |proofs|
    ensures Lists(proofs[..k + 1], id) <==> Lists(proofs[..k], id) || proofs[k].id == id
  {
    if Lists(proofs[..k], id) {
      var j :| 0 <= j < k && proofs[..k][j].id == id;
      assert proofs[..k + 1][j].id == id;
    }
    if proofs[k].id == id {
      assert proofs[..k + 1][k].id == id;
    }
    if Lists(proofs[..k + 1], id) && proofs[k].id != id {
      var j :| 0 <= j < k + 1 && proofs[..k + 1][j].id == id;
      assert proofs[..k][j].id == id;
    }
  }

  lemma {:induction false} NoUnknown(rows: seq<Row>)
    ensures UnknownCalls(rows) == 0 <==> forall i | 0 <= i < |rows| :: !Unclassified(rows[i])
  {
    if rows != [] {
      var n := |rows| - 1;
      NoUnknown(rows[..n]);
      assert forall i | 0 <= i < n :: rows[..n][i] == rows[i];
    }
  }

  /** After every statement, an unknown cost lingers exactly when one was not listed. */
  lemma LingeringExactly(before: seq<Row>, now: seq<Row>, proofs: seq<Proof>)
    requires Reclassified(before, now, proofs)
    ensures UnknownCalls(now) == 0 <==> forall i | 0 <= i < |before| && Unclassified(before[i]) :: Lists(proofs, before[i].id)
  {
    NoUnknown(now);
    hide UnknownCalls;
    forall i | 0 <= i < |now| ensures Unclassified(now[i]) <==> Unclassified(before[i]) && !Lists(proofs, before[i].id) {
    }
  }

  // ----- what a commit leaves -----

  /** The listed costs set back to null. */
  ghost predicate Reverts(now: seq<Row>, proofs: seq<Proof>, reverted: seq<Row>) {
    |reverted| == |now| && forall i | 0 <= i < |now| ::
      reverted[i] == if Lists(proofs, now[i].id) then now[i].(cost := None) else now[i]
  }

  ghost predicate ListedAreUnknown(before: seq<Row>, proofs: seq<Proof>) {
    forall i | 0 <= i < |before| && Lists(proofs, before[i].id) :: Unclassified(before[i])
  }

  lemma {:induction false} SpendKept(before: seq<Row>, now: seq<Row>, proofs: seq<Proof>)
    requires Reclassified(before, now, proofs) && ListedAreUnknown(before, proofs)
    ensures KnownSpend(now) == KnownSpend(before)
  {
    if before != [] {
      var n := |before| - 1;
      assert forall i | 0 <= i < n :: before[..n][i] == before[i];
      SpendKept(before[..n], now[..n], proofs);
    }
  }

  lemma CommitsListsUnknown(before: seq<Row>, proofs: seq<Proof>)
    requires UniqueIds(before) && Commits(before, proofs)
    ensures ListedAreUnknown(before, proofs)
  {
    forall i | 0 <= i < |before| && Lists(proofs, before[i].id) ensures Unclassified(before[i]) {
      var k :| 0 <= k < |proofs| && proofs[k].id == before[i].id;
      assert HitIndex(before, proofs[k]) == i;
    }
  }

  /**
   * After a commit the known spend is what it was, no call is unknown, the guard's projection has dropped by
   * the unknown calls at the worst case, and setting the listed costs back to null restores the ledger.
   */
  lemma CommitLeaves(before: seq<Row>, now: seq<Row>, proofs: seq<Proof>, reverted: seq<Row>, worst: real)
    requires UniqueIds(before) && Commits(before, proofs) && Reclassified(before, now, proofs)
    requires Reverts(now, proofs, reverted)
    ensures KnownSpend(now) == KnownSpend(before) && UnknownCalls(now) == 0
    ensures RenderBounds.Projection(KnownSpend(now), UnknownCalls(now), worst, 1)
            == RenderBounds.Projection(KnownSpend(before), UnknownCalls(before), worst, 1) - UnknownCalls(before) as real * worst
    ensures reverted == before
  {
    CommitsListsUnknown(before, proofs);
    SpendKept(before, now, proofs);
    LingeringExactly(before, now, proofs);
    hide UnknownCalls, KnownSpend, Lists;
    forall i | 0 <= i < |before| ensures reverted[i] == before[i] {
      assert now[i].id == before[i].id;
    }
  }
}
