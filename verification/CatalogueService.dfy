/** The two services as they run: methods over one mutable catalogue, each proved equal to its step. */
module CatalogueService {
  import opened Prelude
  import opened Dates
  import opened DateScanner
  import opened AssertionStore
  import opened CatalogueState
  import opened Runs
  import opened RowInvariants
  import E = ExpirySteps
  import A = AssetSteps
  import T = Theorems

  /** The evidence ids linked to an asset. */
  function EvidenceOf(links: set<(Id, Id)>, a: Id): (r: set<Id>)
    ensures forall e :: e in r <==> (a, e) in links
  {
    var r := set l | l in links && l.0 == a :: l.1;
    assert forall e | (a, e) in links :: (a, e).1 in r;
    r
  }

  lemma WriteShape(s: State, a: Id, f: Field, v: Json, source: Source, st: ReviewState, ids: seq<Id>, now: int)
    requires Shape(s.rows) && a in s.assets
    ensures st != Superseded && st != Rejected ==> Shape(Write(s, a, f, v, source, st, ids, now).rows)
  {
    if st != Superseded && st != Rejected {
      WriteView(s, a, f, v, source, st, ids, now);
    }
  }

  /** A write in terms of the row the active query finds. */
  lemma WriteIs(s: State, a: Id, f: Field, v: Json, source: Source, st: ReviewState, ids: seq<Id>, now: int)
    requires a in s.assets
    ensures var p := Latest(s.rows, a, f);
            if p.Some? && s.rows[p.value].state == st && s.rows[p.value].value == v then
              Write(s, a, f, v, source, st, ids, now) == s && WrittenRow(s, a, f, v, st) == p.value
            else
              && Write(s, a, f, v, source, st, ids, now)
                   == s.(rows := Replace(s.rows, p, Row(a, f, v, source, st, ids, now)),
                         audit := s.audit + [PluginWrite(|s.rows|, a, f, if p.Some? then Some(Superseded) else None, st, v, s.assets[a].household)])
              && WrittenRow(s, a, f, v, st) == |s.rows|
  {
    hide Latest, Replace;
  }

  lemma KeepsValid(s: State, op: Op, t: Text)
    requires Sound(t.alphabet) && T.Invariant(s, t)
    ensures T.Invariant(Step(s, op, t), t)
    ensures Shape(s.rows) && RowInv(s, t)
  {
    hide *;
    T.InvariantRows(s, t);
    InvShape(s, t);
    T.StepInvariant(s, op, t);
  }

  lemma InvShape(s: State, t: Text)
    requires RowInv(s, t)
    ensures Shape(s.rows)
  {
  }

  /** Old links plus the requested ids whose evidence exists. */
  lemma AttachedLinks(s: State, a: Id, ids: seq<Id>, distinct: seq<Id>, links: set<(Id, Id)>)
    requires distinct == A.Distinct(ids)
    requires forall l :: l in links <==> l in s.links || (l.0 == a && l.1 in distinct && l.1 in s.evidence)
    ensures links == s.links + set e | e in A.Insertable(s, ids) :: (a, e)
  {
    var added := set e | e in A.Insertable(s, ids) :: (a, e);
    forall l: (Id, Id) ensures l in added <==> l.0 == a && l.1 in distinct && l.1 in s.evidence {
      if l.0 == a && l.1 in distinct && l.1 in s.evidence {
        assert l.1 in A.Insertable(s, ids) && l == (a, l.1);
      }
    }
  }

  /** A step's outcome, as a method reports it. */
  ghost predicate Returns(o: E.Outcome, s: State, s': State, r: Result<E.Reply, E.Error>) {
    match o
    case Ok((next, reply)) => s' == next && r == Ok(reply)
    case Err(e) => s' == s && r == Err(e)
  }

  ghost predicate ReturnsAsset(o: A.Outcome, s: State, s': State, error: Option<A.AssetError>) {
    match o
    case Ok(next) => s' == next && error == None
    case Err(e) => s' == s && error == Some(e)
  }

  class Catalogue {
    const text: Text
    var assets: map<Id, Asset>
    var rows: seq<Row>
    var tasks: seq<Task>
    var audit: seq<Event>
    var links: set<(Id, Id)>
    var evidence: map<Id, Id>
    var observations: seq<Observation>
    var candidates: seq<Candidate>
    var clock: Day
    ghost var born: map<Id, Columns>

    ghost function Snapshot(): State
      reads this
    {
      State(assets, born, rows, tasks, audit, links, evidence, observations, candidates, clock)
    }

    ghost predicate Valid()
      reads this
    {
      Sound(text.alphabet) && T.Invariant(Snapshot(), text)
    }

    constructor (text: Text, today: Day)
      requires Sound(text.alphabet)
      ensures Valid() && Snapshot() == Initial(today) && this.text == text
    {
      this.text := text;
      assets, rows, tasks, audit, links := map[], [], [], [], {};
      evidence, observations, candidates, clock, born := map[], [], [], today, map[];
      new;
      T.InitialInvariant(today, text);
    }

    // ----- readers -----

    /** `_active_assertion`: newest first among the active rows; ties fall either way. */
    method ActiveAssertion(a: Id, f: Field) returns (r: Option<nat>)
      requires Shape(rows)
      ensures r == Latest(rows, a, f)
    {
      r := None;
      for i := 0 to |rows|
        invariant r.None? ==> forall j | 0 <= j < i && On(rows[j], a, f) :: !Active(rows[j])
        invariant r.Some? ==> r.value < i && On(rows[r.value], a, f) && Active(rows[r.value])
        invariant r.Some? ==>
                    forall j | 0 <= j < i && On(rows[j], a, f) && Active(rows[j]) :: rows[j].createdAt <= rows[r.value].createdAt
      {
        if On(rows[i], a, f) && Active(rows[i]) {
          if r.None? || rows[i].createdAt > rows[r.value].createdAt {
            r := Some(i);
          } else if rows[i].createdAt == rows[r.value].createdAt {
            if * { r := Some(i); }
          }
        }
      }
      if r.Some? {
        ReadersWellDefined(rows, a, f, r.value);
      }
    }

    /** The newest accepted row on a pair. */
    method AcceptedAssertion(a: Id, f: Field) returns (r: Option<nat>)
      requires Shape(rows)
      ensures r == if Latest(rows, a, f).Some? && rows[Latest(rows, a, f).value].state == Accepted then Latest(rows, a, f) else None
    {
      r := None;
      for i := 0 to |rows|
        invariant r.None? ==> forall j | 0 <= j < i && On(rows[j], a, f) :: rows[j].state != Accepted
        invariant r.Some? ==> r.value < i && On(rows[r.value], a, f) && rows[r.value].state == Accepted
        invariant r.Some? ==>
                    forall j | 0 <= j < i && On(rows[j], a, f) && rows[j].state == Accepted ::
                      rows[j].createdAt <= rows[r.value].createdAt
      {
        if On(rows[i], a, f) && rows[i].state == Accepted {
          if r.None? || rows[i].createdAt > rows[r.value].createdAt {
            r := Some(i);
          } else if rows[i].createdAt == rows[r.value].createdAt {
            if * { r := Some(i); }
          }
        }
      }
      if r.Some? {
        ReadersWellDefined(rows, a, f, r.value);
      }
    }

    /** `filter_by(review_state="accepted").first()`, in no particular order. */
    method AnyAccepted(a: Id, f: Field) returns (r: Option<nat>)
      requires Shape(rows)
      ensures r == FirstAccepted(rows, a, f)
    {
      r := None;
      for i := 0 to |rows|
        invariant r.None? ==> forall j | 0 <= j < i && On(rows[j], a, f) :: rows[j].state != Accepted
        invariant r.Some? ==> r.value < i && On(rows[r.value], a, f) && rows[r.value].state == Accepted
      {
        if On(rows[i], a, f) && rows[i].state == Accepted {
          if r.None? {
            r := Some(i);
          } else if * {
            r := Some(i);
          }
        }
      }
      if r.Some? {
        SingleActive(rows, r.value, FirstAccepted(rows, a, f).value);
      }
    }

    /** The open manual-entry tasks of a query. */
    method OpenTasks(subjects: set<Id>, household: Id) returns (r: seq<nat>)
      ensures r == QueryOpen(tasks, subjects, household)
    {
      r := [];
      for i := 0 to |tasks|
        invariant r == QueryOpen(tasks[..i], subjects, household)
      {
        assert tasks[..i + 1][..i] == tasks[..i];
        if OpenManual(tasks[i], subjects, household) {
          r := r + [i];
        }
      }
      assert tasks[..|tasks|] == tasks;
    }

    // ----- writers -----

    /** Retire one row in place and append another. */
    method ReplaceRow(previous: Option<nat>, row: Row) returns (n: nat)
      requires previous.Some? ==> previous.value < |rows|
      modifies this`rows
      ensures rows == Replace(old(rows), previous, row) && n == |old(rows)|
      ensures previous.Some? ==> previous.value < |rows| && rows[previous.value].state == Superseded
    {
      if previous.Some? {
        rows := rows[previous.value := rows[previous.value].(state := Superseded)];
      }
      n := |rows|;
      rows := rows + [row];
    }

    /** `_write_assertion`: an equal active row is returned; otherwise it is superseded in place and a row appended. */
    method WriteAssertion(a: Id, f: Field, v: Json, source: Source, st: ReviewState, ids: seq<Id>, now: int) returns (row: nat)
      requires Shape(rows) && a in assets
      modifies this`rows, this`audit
      ensures Snapshot() == Write(old(Snapshot()), a, f, v, source, st, ids, now)
      ensures row == WrittenRow(old(Snapshot()), a, f, v, st)
      ensures st != Superseded && st != Rejected ==> Shape(rows)
    {
      hide Shape, Write, WrittenRow, Latest, Replace;
      WriteShape(Snapshot(), a, f, v, source, st, ids, now);
      WriteIs(Snapshot(), a, f, v, source, st, ids, now);
      var previous := ActiveAssertion(a, f);
      if previous.Some? && rows[previous.value].state == st && rows[previous.value].value == v {
        return previous.value;
      }
      row := ReplaceRow(previous, Row(a, f, v, source, st, ids, now));
      var before := if previous.Some? then Some(rows[previous.value].state) else None;
      audit := audit + [PluginWrite(row, a, f, before, st, v, assets[a].household)];
    }

    /** `upsert_assertion`: the second writer retires an accepted row only. */
    method UpsertAssertion(a: Id, f: Field, v: Json, now: int)
      requires Shape(rows) && a in assets
      modifies this`rows, this`audit
      ensures Snapshot() == Upsert(old(Snapshot()), a, f, v, now)
    {
      var prev := AnyAccepted(a, f);
      var row := ReplaceRow(prev, Row(a, f, v, User, Accepted, [], now));
      audit := audit + [UpsertWrite(row, f, if prev.Some? then Some(Superseded) else None, v, assets[a].household)];
    }

    /** `_manual_task`. */
    method ManualTask(a: Id) returns (task: nat)
      requires a in assets
      modifies this`tasks
      ensures (Snapshot(), task) == E.OpenTask(old(Snapshot()), a)
    {
      var open := OpenTasks({a}, assets[a].household);
      if open != [] {
        return open[0];
      }
      task := |tasks|;
      tasks := tasks + [Task(ManualEntry, a, assets[a].household, Open)];
    }

    // ----- resolving tasks -----

    method ResolveTasks(who: seq<nat>)
      requires forall k | 0 <= k < |who| :: who[k] < |tasks|
      modifies this`tasks
      ensures tasks == Resolve(old(tasks), who)
    {
      for k := 0 to |who|
        invariant tasks == Resolve(old(tasks), who[..k])
      {
        tasks := tasks[who[k] := tasks[who[k]].(status := Resolved)];
        assert who[..k + 1] == who[..k] + [who[k]];
      }
      assert who[..|who|] == who;
    }

    /** `_orphan_manual_tasks`: open tasks on split origins that share some of the asset's evidence. */
    method OrphanManualTasks(a: Id, shared: set<Id>) returns (r: seq<nat>)
      requires a in assets && shared == EvidenceOf(links, a)
      ensures r == QueryOpen(tasks, SplitOrigins(Snapshot(), a), assets[a].household)
    {
      ghost var origins0 := SplitOrigins(Snapshot(), a);
      if shared == {} {
        assert origins0 == {};
        NoSubjects(tasks, assets[a].household);
        return [];
      }
      var origins: set<Id> := {};
      for i := 0 to |candidates|
        invariant forall id :: id in origins
                               <==> exists j :: 0 <= j < i && SharesEvidence(Snapshot(), a, candidates[j]) && candidates[j].id == id
      {
        var c := candidates[i];
        if c.split && c.household == assets[a].household && c.evidence.Some? && exists e | e in c.evidence.value :: e in shared {
          origins := origins + {c.id};
        }
        assert SharesEvidence(Snapshot(), a, c) <==>
          c.split && c.household == assets[a].household && c.evidence.Some? && exists e | e in c.evidence.value :: e in shared;
      }
      assert origins == origins0;
      if origins == {} {
        NoSubjects(tasks, assets[a].household);
        return [];
      }
      r := OpenTasks(origins, assets[a].household);
    }

    /** Audit and resolve each orphan the asset does not own. */
    method ResolveOrphans(a: Id, own: seq<nat>, orphans: seq<nat>) returns (resolved: seq<nat>)
      requires NoRepeats(orphans) && forall k | 0 <= k < |orphans| :: orphans[k] < |tasks|
      requires forall k | 0 <= k < |orphans| :: orphans[k] in own || tasks[orphans[k]].status == Open
      modifies this`tasks, this`audit
      ensures resolved == own + Without(orphans, own)
      ensures tasks == Resolve(old(tasks), Without(orphans, own))
      ensures forall k | 0 <= k < |Without(orphans, own)| :: Without(orphans, own)[k] < |old(tasks)|
      ensures audit == old(audit) + OrphanEvents(old(Snapshot()), a, Without(orphans, own))
    {
      hide Without, Resolve, OrphanEvents;
      ghost var s := Snapshot();
      NoOrphans(s, a, own);
      resolved := own;
      ghost var done: seq<nat> := [];
      for k := 0 to |orphans|
        invariant NoRepeats(orphans[..k]) && done == Without(orphans[..k], own)
        invariant resolved == own + done
        invariant tasks == Resolve(s.tasks, done)
        invariant forall i | 0 <= i < |done| :: done[i] < |s.tasks|
        invariant audit == s.audit + OrphanEvents(s, a, done)
      {
        var orphan := orphans[k];
        assert orphans[..k + 1] == orphans[..k] + [orphan];
        WithoutThen(orphans[..k], orphan, own);
        assert orphan in resolved <==> orphan in own;
        if orphan !in resolved {
          var before := tasks[orphan].status;
          tasks := tasks[orphan := tasks[orphan].(status := Resolved)];
          audit := audit + [TaskResolve(orphan, before, a, tasks[orphan].household)];
          resolved := resolved + [orphan];
          OneMoreOrphan(s, a, done, orphan);
          done := done + [orphan];
        }
      }
      assert orphans[..|orphans|] == orphans;
    }

    /**
     * Resolve the asset's own tasks and its split origins' orphans. The session does not flush before a
     * query, so the orphan query still reads the stored statuses.
     */
    method SettleTasks(a: Id) returns (resolved: seq<nat>)
      requires a in assets
      modifies this`tasks, this`audit
      ensures Snapshot() == ResolveWithOrphans(old(Snapshot()), a)
      ensures resolved == OwnOpen(old(Snapshot()), a) + OrphanOpen(old(Snapshot()), a)
    {
      ghost var s := Snapshot();
      var own := OpenTasks({a}, assets[a].household);
      var orphans := OrphanManualTasks(a, EvidenceOf(links, a));
      forall k | 0 <= k < |orphans| ensures s.tasks[orphans[k]].status == Open { assert orphans[k] in orphans; }
      ResolveTasks(own);
      ghost var s1 := Snapshot();
      resolved := ResolveOrphans(a, own, orphans);
      ResolvedTwice(s, s1, a, own, Without(orphans, own));
    }

    // ----- the expiry tracker's operations -----

    method ClassifyDated(a: Id, slug: string, now: int) returns (reply: E.Reply)
      requires a in assets && Shape(rows)
      modifies this`rows, this`audit, this`tasks
      ensures (Snapshot(), reply) == E.ClassifyDated(old(Snapshot()), a, slug, text, now)
    {
      ghost var s := Snapshot();
      var active := ActiveAssertion(a, ExpiryDate);
      if E.HasValidDate(E.AcceptedValue(if active.Some? then Some(rows[active.value]) else None), text.spellings) {
        return E.Reply(active, None, []);
      }
      var observed: Option<(string, Id)> := None;
      if slug != "documents_other" {
        var found := TextRowsOf(a);
        observed := ObservedDate(text.alphabet, text.spellings, found);
      }
      if observed.None? {
        reply := NeedDate(a, Deterministic, now);
      } else {
        var (date, source) := observed.value;
        var row := WriteAssertion(a, ExpiryDate, E.ProposedValue(date), Deterministic, Proposed, [source], now);
        reply := E.Reply(Some(row), None, []);
      }
    }

    method ClassifyUndated(a: Id, now: int) returns (reply: E.Reply)
      requires a in assets && Shape(rows)
      modifies this`rows, this`audit, this`tasks
      ensures (Snapshot(), reply) == E.ClassifyUndated(old(Snapshot()), a, now)
    {
      var active := ActiveAssertion(a, ExpiryDate);
      var written: Option<nat> := None;
      if active.Some? {
        var row := WriteAssertion(a, ExpiryDate, Null, User, Accepted, [], now);
        written := Some(row);
      }
      var resolved := SettleTasks(a);
      reply := E.Reply(written, None, resolved);
    }

    /** The OCR and barcode observations of the asset's evidence. */
    method TextRowsOf(a: Id) returns (r: seq<Observation>)
      ensures r == E.TextRows(Snapshot(), a, observations)
    {
      ghost var s := Snapshot();
      var all := observations;
      r := [];
      for k := 0 to |all|
        invariant r == E.TextRows(s, a, all[..k])
      {
        assert all[..k + 1][..k] == all[..k];
        if (a, all[k].evidence) in links && all[k].kind in {Ocr, BarcodeQr} {
          r := r + [all[k]];
        }
      }
      assert all[..|all|] == all;
    }

    /** Write the unknown date and open its task: `apply_extraction_result` and the dateless classification. */
    method NeedDate(a: Id, source: Source, now: int) returns (reply: E.Reply)
      requires a in assets && Shape(rows)
      modifies this`rows, this`audit, this`tasks
      ensures (Snapshot(), reply) == E.NeedDate(old(Snapshot()), a, source, now)
    {
      var row := WriteAssertion(a, ExpiryDate, E.Unknown, source, NeedsEvidence, [], now);
      var task := ManualTask(a);
      reply := E.Reply(Some(row), Some(task), []);
    }

    method Classify(a: Id, slug: string, tier: Option<string>, now: int) returns (r: Result<E.Reply, E.Error>)
      requires Valid()
      modifies this
      ensures Valid()
      ensures Returns(E.Classify(old(Snapshot()), a, slug, tier, text, now), old(Snapshot()), Snapshot(), r)
    {
      ghost var s := Snapshot();
      hide T.Invariant, RowInv, Write, Latest, Cur, E.CategoryOf, E.ClassificationValue, E.ClassifyDated,
           E.ClassifyUndated;
      KeepsValid(s, Op.Classify(a, slug, tier, now), text);
      if a !in assets { return Err(E.NoAsset); }
      var category := E.CategoryOf(slug);
      if category.None? { return Err(E.UnknownCategory); }
      var c := category.value;
      if tier.Some? && tier.value !in c.tiers { return Err(E.InvalidTier); }
      var v := E.ClassificationValue(c, if tier.Some? then tier.value else c.defaultTier);
      var _ := WriteAssertion(a, Classification, v, User, Accepted, [], now);
      var reply: E.Reply;
      if c.hasExpiry {
        reply := ClassifyDated(a, slug, now);
      } else {
        reply := ClassifyUndated(a, now);
      }
      r := Ok(reply);
    }

    method Extract(a: Id, needsEvidence: bool, now: int) returns (r: Result<E.Reply, E.Error>)
      requires Valid()
      modifies this
      ensures Valid()
      ensures Returns(E.Extract(old(Snapshot()), a, needsEvidence, now), old(Snapshot()), Snapshot(), r)
    {
      hide T.Invariant, RowInv, E.NeedDate;
      KeepsValid(Snapshot(), Op.Extract(a, needsEvidence, now), text);
      if a !in assets { return Err(E.NoAsset); }
      if !needsEvidence { return Ok(E.Reply(None, None, [])); }
      var reply := NeedDate(a, Extraction, now);
      r := Ok(reply);
    }

    method EnterExpiry(a: Id, payload: map<string, Json>, cited: Option<seq<Id>>, now: int) returns (r: Result<E.Reply, E.Error>)
      requires Valid()
      modifies this
      ensures Valid()
      ensures Returns(E.EnterExpiry(old(Snapshot()), a, payload, cited, text, now), old(Snapshot()), Snapshot(), r)
    {
      hide T.Invariant, RowInv, E.ParseManualEntry, E.CheckCited, E.StoreManualExpiry;
      KeepsValid(Snapshot(), Op.EnterExpiry(a, payload, cited, now), text);
      if a !in assets { return Err(E.NoAsset); }
      var entry := E.ParseManualEntry(payload, text);
      if entry.Err? { return Err(entry.error); }
      var ids := if cited.Some? then cited.value else [];
      var refused := CheckCited(assets[a].household, ids);
      if refused.Some? { return Err(refused.value); }
      r := StoreManualExpiry(a, entry.value, ids, now);
    }

    method CheckCited(household: Id, ids: seq<Id>) returns (error: Option<E.Error>)
      ensures error == E.CheckCited(Snapshot(), household, ids)
    {
      if exists e | e in ids :: e !in evidence { return Some(E.EvidenceNotFound); }
      if exists e | e in ids :: evidence[e] != household { return Some(E.EvidenceHousehold); }
      return None;
    }

    method StoreManualExpiry(a: Id, entry: Json, ids: seq<Id>, now: int) returns (r: Result<E.Reply, E.Error>)
      requires a in assets && Shape(rows)
      modifies this
      ensures Returns(E.StoreManualExpiry(old(Snapshot()), a, entry, ids, now), old(Snapshot()), Snapshot(), r)
    {
      hide Write, Latest, ResolveWithOrphans, OwnOpen, OrphanOpen, E.CategoryIn;
      var classification := ActiveAssertion(a, Classification);
      if classification.None? { return Err(E.NotClassified); }
      var category := E.CategoryIn(rows[classification.value].value);
      if category.None? { return Err(E.MissingCategoryKey); }
      if !category.value.hasExpiry { return Err(E.NotApplicable); }
      var row := WriteAssertion(a, ExpiryDate, entry, User, Accepted, ids, now);
      var resolved := SettleTasks(a);
      r := Ok(E.Reply(Some(row), None, resolved));
    }

    method ClearExpiry(a: Id, now: int) returns (r: Result<E.Reply, E.Error>)
      requires Valid()
      modifies this
      ensures Valid()
      ensures Returns(E.ClearExpiry(old(Snapshot()), a, now), old(Snapshot()), Snapshot(), r)
    {
      hide T.Invariant, RowInv, Shape, Write, WrittenRow, Latest, OwnOpen, Resolve, E.CategoryIn;
      KeepsValid(Snapshot(), Op.ClearExpiry(a, now), text);
      if a !in assets { return Err(E.NoAsset); }
      var classification := ActiveAssertion(a, Classification);
      if classification.None? { return Err(E.NotClassified); }
      var v := rows[classification.value].value;
      if !v.Obj? || "category" !in v.fields { return Err(E.NotClassified); }
      var category := E.CategoryIn(v);
      if category.None? || !category.value.hasExpiry { return Err(E.NotApplicable); }
      var reply := ClearDate(a, now);
      r := Ok(reply);
    }

    /** An active date becomes an accepted null and the asset's own tasks are resolved. */
    method ClearDate(a: Id, now: int) returns (reply: E.Reply)
      requires a in assets && Shape(rows)
      modifies this`rows, this`audit, this`tasks
      ensures Cur(old(Snapshot()), a, ExpiryDate).None? ==> Snapshot() == old(Snapshot()) && reply == E.Reply(None, None, [])
      ensures Cur(old(Snapshot()), a, ExpiryDate).Some? ==>
                var s1 := Write(old(Snapshot()), a, ExpiryDate, Null, User, Accepted, [], now);
                && Snapshot() == s1.(tasks := Resolve(s1.tasks, OwnOpen(s1, a)))
                && reply == E.Reply(Some(WrittenRow(old(Snapshot()), a, ExpiryDate, Null, Accepted)), None, [])
    {
      hide Shape, Write, WrittenRow, Latest, OwnOpen, Resolve;
      var active := ActiveAssertion(a, ExpiryDate);
      if active.None? { return E.Reply(None, None, []); }
      var row := WriteAssertion(a, ExpiryDate, Null, User, Accepted, [], now);
      ResolveOwn(a);
      reply := E.Reply(Some(row), None, []);
    }

    method ResolveOwn(a: Id)
      requires a in assets
      modifies this`tasks
      ensures Snapshot() == old(Snapshot()).(tasks := Resolve(old(tasks), OwnOpen(old(Snapshot()), a)))
    {
      var own := OpenTasks({a}, assets[a].household);
      ResolveTasks(own);
    }

    /** `_accepted_classification_category`. */
    method AcceptedCategory(a: Id) returns (c: Option<E.Category>)
      requires Shape(rows)
      ensures c == E.AcceptedCategory(Snapshot(), a)
    {
      var row := AcceptedAssertion(a, Classification);
      if row.None? { return None; }
      c := E.CategoryIn(rows[row.value].value);
    }

    method EnterOpened(a: Id, value: Json, now: int) returns (r: Result<E.Reply, E.Error>)
      requires Valid()
      modifies this
      ensures Valid()
      ensures Returns(E.EnterOpened(old(Snapshot()), a, value, text, now), old(Snapshot()), Snapshot(), r)
    {
      hide T.Invariant, RowInv, Write, Latest, E.AcceptedCategory, E.ParseOpenedDate;
      KeepsValid(Snapshot(), Op.EnterOpened(a, value, now), text);
      if a !in assets { return Err(E.NoAsset); }
      var category := AcceptedCategory(a);
      if category.None? { return Err(E.NotClassified); }
      if !category.value.tracksOpened { return Err(E.TrackingOff); }
      var parsed := E.ParseOpenedDate(value, clock, text);
      if parsed.Err? { return Err(parsed.error); }
      var row := WriteAssertion(a, OpenedDate, Str(parsed.value), User, Accepted, [], now);
      r := Ok(E.Reply(Some(row), None, []));
    }

    method ClearOpened(a: Id, now: int) returns (r: Result<E.Reply, E.Error>)
      requires Valid()
      modifies this
      ensures Valid()
      ensures Returns(E.ClearOpened(old(Snapshot()), a, now), old(Snapshot()), Snapshot(), r)
    {
      hide T.Invariant, RowInv, Write, Latest, E.AcceptedCategory;
      KeepsValid(Snapshot(), Op.ClearOpened(a, now), text);
      if a !in assets { return Err(E.NoAsset); }
      var category := AcceptedCategory(a);
      if category.None? { return Err(E.NotClassified); }
      if !category.value.tracksOpened { return Err(E.TrackingOff); }
      var active := ActiveAssertion(a, OpenedDate);
      if active.None? || rows[active.value].state != Accepted { return Ok(E.Reply(None, None, [])); }
      var row := WriteAssertion(a, OpenedDate, Null, User, Accepted, [], now);
      r := Ok(E.Reply(Some(row), None, []));
    }

    /** `store_extensions`: one write for each validated attribute. */
    method Extend(a: Id, attributes: seq<(string, Json)>, now: int) returns (r: Result<E.Reply, E.Error>)
      requires Valid()
      modifies this
      ensures Valid()
      ensures Returns(E.Extend(old(Snapshot()), a, attributes, now), old(Snapshot()), Snapshot(), r)
    {
      hide T.Invariant, RowInv, Write, Shape;
      ghost var s := Snapshot();
      KeepsValid(s, Op.Extend(a, attributes, now), text);
      if a !in assets { return Err(E.NoAsset); }
      for k := 0 to |attributes|
        invariant a in assets && Shape(rows)
        invariant Snapshot() == E.WriteExtensions(s, a, attributes[..k], now)
      {
        assert attributes[..k + 1][..k] == attributes[..k];
        var _ := WriteAssertion(a, Extension(attributes[k].0), attributes[k].1, User, Accepted, [], now);
      }
      assert attributes[..|attributes|] == attributes;
      r := Ok(E.Reply(None, None, []));
    }

    // ----- the asset service's operations -----

    /** `list(dict.fromkeys(ids))`. */
    method Distinct(ids: seq<Id>) returns (r: seq<Id>)
      ensures r == A.Distinct(ids)
    {
      r := [];
      for k := 0 to |ids|
        invariant r == A.Distinct(ids[..k])
      {
        assert ids[..k + 1][..k] == ids[..k];
        if ids[k] !in r {
          r := r + [ids[k]];
        }
      }
      assert ids[..|ids|] == ids;
    }

    /** One statement inserting several links: all of them or none. It may also fail for reasons of its own. */
    method InsertLinks(a: Id, ids: seq<Id>) returns (ok: bool)
      modifies this`links
      ensures ok ==> (forall e | e in ids :: e in evidence) && links == old(links) + A.LinksOf(a, ids)
      ensures !ok ==> links == old(links)
      ensures (exists e | e in ids :: e !in evidence) ==> !ok
    {
      if exists e | e in ids :: e !in evidence { return false; }
      if * { return false; }
      links := links + A.LinksOf(a, ids);
      ok := true;
    }

    /** One link on its own. */
    method InsertLink(a: Id, e: Id)
      modifies this`links
      ensures links == old(links) + if e in evidence then {(a, e)} else {}
    {
      if e in evidence {
        links := links + {(a, e)};
      }
    }

    /** The requested ids that are not linked yet. */
    method Unlinked(a: Id, ids: seq<Id>) returns (r: seq<Id>)
      ensures forall e :: e in r <==> e in ids && (a, e) !in links
    {
      r := [];
      for k := 0 to |ids|
        invariant forall e :: e in r <==> e in ids[..k] && (a, e) !in links
      {
        assert ids[..k + 1] == ids[..k] + [ids[k]];
        if (a, ids[k]) !in links {
          r := r + [ids[k]];
        }
      }
      assert ids[..|ids|] == ids;
    }

    /** The fallback: each link on its own, so the good ones still land. */
    method InsertEach(a: Id, ids: seq<Id>)
      modifies this`links
      ensures forall l :: l in links <==> l in old(links) || (l.0 == a && l.1 in ids && l.1 in evidence)
    {
      for k := 0 to |ids|
        invariant forall l :: l in links <==> l in old(links) || (l.0 == a && l.1 in ids[..k] && l.1 in evidence)
      {
        assert ids[..k + 1] == ids[..k] + [ids[k]];
        InsertLink(a, ids[k]);
      }
      assert ids[..|ids|] == ids;
    }

    /** `attach_evidence`: a bulk insert of the new links, and link by link when that fails. */
    method AttachEvidence(a: Id, ids: seq<Id>) returns (error: Option<A.AssetError>)
      requires Valid()
      modifies this
      ensures Valid()
      ensures ReturnsAsset(A.Attach(old(Snapshot()), a, ids), old(Snapshot()), Snapshot(), error)
    {
      hide T.Invariant;
      ghost var s := Snapshot();
      KeepsValid(s, Op.AttachEvidence(a, ids), text);
      if a !in assets { return Some(A.NoAsset); }
      var distinct := Distinct(ids);
      LinkAll(a, distinct);
      audit := audit + [AssetEvent(a, Attached(distinct), assets[a].household)];
      AttachedLinks(s, a, ids, distinct, links);
      error := None;
    }

    method LinkAll(a: Id, ids: seq<Id>)
      modifies this`links
      ensures forall l :: l in links <==> l in old(links) || (l.0 == a && l.1 in ids && l.1 in evidence)
    {
      var unlinked := Unlinked(a, ids);
      if unlinked != [] {
        var ok := InsertLinks(a, unlinked);
        if !ok {
          InsertEach(a, unlinked);
        }
      }
    }

    /** One row for each supplied field, in the order the source names them. */
    method AddSuppliedRows(a: Id, payload: A.Payload, now: int)
      modifies this`rows
      ensures rows == old(rows) + A.SuppliedRows(a, payload, A.CreateOrder, now)
    {
      for k := 0 to |A.CreateOrder|
        invariant rows == old(rows) + A.SuppliedRows(a, payload, A.CreateOrder[..k], now)
      {
        var c := A.CreateOrder[k];
        assert A.CreateOrder[..k + 1][..k] == A.CreateOrder[..k];
        if c in payload && payload[c] != Null {
          rows := rows + [Row(a, Core(c), payload[c], User, Accepted, [], now)];
        }
      }
      assert A.CreateOrder[..|A.CreateOrder|] == A.CreateOrder;
    }

    /** The accepted display name a new asset starts with, when one was resolved. */
    method AddNameRow(a: Id, name: Json, source: Option<Source>, now: int)
      modifies this`rows
      ensures rows == old(rows) + if source.Some? then [Row(a, Core(DisplayName), name, source.value, Accepted, [], now)] else []
    {
      if source.Some? {
        rows := rows + [Row(a, Core(DisplayName), name, source.value, Accepted, [], now)];
      }
    }

    /** The asset row and its two audit rows. */
    method InsertAsset(a: Id, household: Id, columns: Columns)
      modifies this`assets, this`born, this`audit
      ensures assets == old(assets)[a := Asset(household, columns, 1)] && born == old(born)[a := columns]
      ensures audit == old(audit) + [AssetEvent(a, Created, household), AssetEvent(a, ReviewAccepted, household)]
    {
      assets, born := assets[a := Asset(household, columns, 1)], born[a := columns];
      audit := audit + [AssetEvent(a, Created, household), AssetEvent(a, ReviewAccepted, household)];
    }

    /** `create_asset`; unknown evidence fails the link inserts and nothing is kept. */
    method CreateAsset(a: Id, household: Id, payload: A.Payload, ids: seq<Id>, now: int) returns (error: Option<A.AssetError>)
      requires Valid() && Fresh(Snapshot(), a)
      modifies this
      ensures Valid()
      ensures ReturnsAsset(A.Create(old(Snapshot()), a, household, payload, ids, text, now), old(Snapshot()), Snapshot(), error)
    {
      hide T.Invariant, RowInv, A.Create, A.InitialColumns, A.SuppliedRows, A.LinksOf, A.ResolveName, A.Distinct, Shape, Step;
      ghost var s := Snapshot();
      KeepsValid(s, Op.CreateAsset(a, household, payload, ids, now), text);
      CreateIsStep(s, a, household, payload, ids, text, now);
      CreateIs(s, a, household, payload, ids, text, now);
      hide Fresh;
      var distinct := Distinct(ids);
      var (name, nameSource) := A.ResolveName(payload, distinct, text);
      var columns := A.InitialColumns(payload, distinct, text);
      if exists e | e in distinct :: e !in evidence { return Some(A.UnknownEvidence); }
      InsertAsset(a, household, columns);
      AddSuppliedRows(a, payload, now);
      AddNameRow(a, name, nameSource, now);
      links := links + A.LinksOf(a, distinct);
      assert Snapshot() == A.Create(s, a, household, payload, ids, text, now).value;
      error := None;
    }

    /** `setattr` with the assertion that backs it. */
    method SetField(a: Id, c: CoreField, v: Json, now: int)
      requires Shape(rows) && a in assets
      modifies this`assets, this`rows, this`audit
      ensures Snapshot() == A.SetField(old(Snapshot()), a, c, v, now) && a in assets
    {
      assets := assets[a := assets[a].(columns := assets[a].columns.With(c, v))];
      UpsertAssertion(a, Core(c), v, now);
    }

    method BumpVersion(a: Id, action: AssetAction)
      requires a in assets
      modifies this`assets, this`audit
      ensures Snapshot() == A.Bump(old(Snapshot()), a, action)
    {
      assets := assets[a := assets[a].(version := (if assets[a].version == 0 then 1 else assets[a].version) + 1)];
      audit := audit + [AssetEvent(a, action, assets[a].household)];
    }

    /** The loop of `update_asset`; a NOT NULL column set to null fails at the flush. */
    method ApplyFields(a: Id, payload: A.Payload, now: int) returns (ok: bool)
      requires a in assets && RowInv(Snapshot(), text)
      modifies this`assets, this`rows, this`audit
      ensures a in assets
      ensures ok <==> A.Get(payload, AssetType, Str("")) != Null && A.Get(payload, Status, Str("")) != Null
      ensures ok ==> Snapshot() == A.SetFields(old(Snapshot()), a, payload, A.UpdateOrder, now)
      ensures Snapshot() == old(Snapshot()).(assets := assets, rows := rows, audit := audit)
    {
      hide RowInv, A.SetField, Shape;
      ghost var s := Snapshot();
      for k := 0 to |A.UpdateOrder|
        invariant a in assets && RowInv(Snapshot(), text)
        invariant Snapshot() == A.SetFields(s, a, payload, A.UpdateOrder[..k], now)
        invariant forall i | 0 <= i < k && A.UpdateOrder[i] in {AssetType, Status} && A.UpdateOrder[i] in payload ::
                    payload[A.UpdateOrder[i]] != Null
      {
        var c := A.UpdateOrder[k];
        assert A.UpdateOrder[..k + 1][..k] == A.UpdateOrder[..k];
        if c in payload {
          if c in {AssetType, Status} && payload[c] == Null { return false; }
          InvShape(Snapshot(), text);
          SetFieldKeeps(Snapshot(), text, a, c, payload[c], now);
          SetField(a, c, payload[c], now);
        }
      }
      assert A.UpdateOrder[..|A.UpdateOrder|] == A.UpdateOrder;
      assert A.UpdateOrder[1] == AssetType && A.UpdateOrder[5] == Status;
      ok := true;
    }

    /**
     * `update_asset`; a failed flush rolls the session back. A payload that takes a redirected asset out of
     * MERGED is accepted here and leaves the catalogue with a redirect no merged asset owns.
     */
    method UpdateAsset(a: Id, payload: A.Payload, now: int) returns (error: Option<A.AssetError>)
      requires Valid() && a in assets
      modifies this
      ensures Valid() <==> error.Some? || KeepsMerged(old(Snapshot()), a, payload)
      ensures T.OutsideMerges(Snapshot(), text)
      ensures ReturnsAsset(A.Update(old(Snapshot()), a, payload, now), old(Snapshot()), Snapshot(), error)
    {
      hide T.Invariant, T.OutsideMerges, RowInv, A.SetFields, A.Get, KeepsMerged;
      T.InvariantRows(Snapshot(), text);
      if A.Update(Snapshot(), a, payload, now).Ok? { T.UpdateKeepsExactly(Snapshot(), text, a, payload, now); }
      var storedAssets, storedRows, storedAudit := assets, rows, audit;
      var before := assets[a].version;
      var ok := ApplyFields(a, payload, now);
      if !ok {
        assets, rows, audit := storedAssets, storedRows, storedAudit;
        return Some(A.NullColumn);
      }
      BumpVersion(a, Updated(before));
      error := None;
    }

    /** The update route. */
    method PatchAsset(a: Id, household: Id, payload: A.Payload, ifMatch: Option<nat>, now: int) returns (error: Option<A.AssetError>)
      requires Valid()
      modifies this
      ensures Valid()
      ensures ReturnsAsset(A.Patch(old(Snapshot()), a, household, payload, ifMatch, now), old(Snapshot()), Snapshot(), error)
    {
      hide T.Invariant, RowInv, A.Update;
      if a !in assets { return Some(A.NoAsset); }
      if assets[a].household != household { return Some(A.HouseholdMismatch); }
      if ifMatch.Some? && ifMatch.value != assets[a].version { return Some(A.VersionMismatch); }
      var data := A.Given(payload);
      if data == map[] { return Some(A.NothingToUpdate); }
      if Status in data && !A.LegalTransition(assets[a].columns.status, data[Status]) { return Some(A.IllegalTransition); }
      T.LegalKeepsMerged(Snapshot(), text, a, data);
      error := UpdateAsset(a, data, now);
    }

    /** The delete route archives. */
    method DeleteAsset(a: Id, household: Id, now: int) returns (error: Option<A.AssetError>)
      requires Valid()
      modifies this
      ensures Valid()
      ensures ReturnsAsset(A.Archive(old(Snapshot()), a, household, now), old(Snapshot()), Snapshot(), error)
    {
      hide T.Invariant, RowInv, A.SetField, A.LegalTransition;
      KeepsValid(Snapshot(), Op.ArchiveAsset(a, household, now), text);
      if a !in assets { return Some(A.NoAsset); }
      if assets[a].household != household { return Some(A.HouseholdMismatch); }
      if !A.LegalTransition(assets[a].columns.status, Str("ARCHIVED")) { return Some(A.IllegalTransition); }
      SetField(a, Status, Str("ARCHIVED"), now);
      BumpVersion(a, Archived);
      error := None;
    }

    /** `merge_asset_redirect`: validate first, then write. */
    method MergeAsset(a: Id, winner: Id, now: int) returns (error: Option<A.AssetError>)
      requires Valid()
      modifies this
      ensures Valid()
      ensures ReturnsAsset(A.Merge(old(Snapshot()), a, winner, now), old(Snapshot()), Snapshot(), error)
    {
      hide T.Invariant, RowInv, Upsert, A.SetField, A.LegalTransition;
      ghost var s := Snapshot();
      KeepsValid(s, Op.MergeAsset(a, winner, now), text);
      if a !in assets { return Some(A.NoAsset); }
      if winner !in assets { return Some(A.TargetNotFound); }
      if assets[winner].household != assets[a].household { return Some(A.TargetHousehold); }
      if winner == a { return Some(A.SelfMerge); }
      if assets[winner].columns.status == A.MERGED { return Some(A.TargetMerged); }
      if assets[a].columns.status == A.MERGED { return Some(A.AlreadyMerged); }
      if !A.LegalTransition(assets[a].columns.status, A.MERGED) { return Some(A.IllegalTransition); }
      var before := assets[a].version;
      SetFieldKeeps(s, text, a, Status, A.MERGED, now);
      SetField(a, Status, A.MERGED, now);
      InvShape(Snapshot(), text);
      UpsertAssertion(a, MergedInto, A.MergeTarget(winner), now);
      BumpVersion(a, Merged(before, winner));
      error := None;
    }
  }

  lemma CreateIsStep(s: State, a: Id, household: Id, p: A.Payload, ids: seq<Id>, t: Text, now: int)
    requires Fresh(s, a)
    ensures Step(s, Op.CreateAsset(a, household, p, ids, now), t) == Keep(s, A.Create(s, a, household, p, ids, t, now))
  {
    hide A.Create, Fresh;
  }

  lemma CreateIs(s: State, a: Id, household: Id, p: A.Payload, ids: seq<Id>, t: Text, now: int)
    ensures var d, o := A.Distinct(ids), A.Create(s, a, household, p, ids, t, now);
            var columns, name := A.InitialColumns(p, d, t), A.ResolveName(p, d, t);
            if exists e | e in d :: e !in s.evidence then o == Err(A.UnknownEvidence)
            else
              && o.Ok?
              && o.value.rows == s.rows + A.SuppliedRows(a, p, A.CreateOrder, now)
                   + (if name.1.Some? then [Row(a, Core(DisplayName), name.0, name.1.value, Accepted, [], now)] else [])
              && o.value == s.(assets := s.assets[a := Asset(household, columns, 1)], born := s.born[a := columns],
                               rows := o.value.rows, links := s.links + A.LinksOf(a, d),
                               audit := s.audit + [AssetEvent(a, Created, household), AssetEvent(a, ReviewAccepted, household)])
  {
    hide A.Distinct, A.InitialColumns, A.ResolveName, A.SuppliedRows, A.LinksOf;
  }

  lemma NoOrphans(s: State, a: Id, own: seq<nat>)
    ensures Without([], own) == [] && Resolve(s.tasks, []) == s.tasks && OrphanEvents(s, a, []) == []
  {
  }

  lemma WithoutThen(xs: seq<nat>, x: nat, ys: seq<nat>)
    requires NoRepeats(xs + [x])
    ensures NoRepeats(xs) && x !in Without(xs, ys)
    ensures Without(xs + [x], ys) == Without(xs, ys) + if x in ys then [] else [x]
  {
    assert (xs + [x])[..|xs|] == xs;
    assert forall k | 0 <= k < |xs| :: (xs + [x])[k] == xs[k];
    assert (xs + [x])[|xs|] == x;
  }

  lemma OneMoreOrphan(s: State, a: Id, done: seq<nat>, orphan: nat)
    requires orphan < |s.tasks| && forall k | 0 <= k < |done| :: done[k] < |s.tasks|
    ensures OrphanEvents(s, a, done + [orphan]) == OrphanEvents(s, a, done) + [OrphanEvent(s, a, orphan)]
    ensures Resolve(s.tasks, done + [orphan])
            == Resolve(s.tasks, done)[orphan := Resolve(s.tasks, done)[orphan].(status := Resolved)]
  {
  }

  lemma ResolvedTwice(s: State, s1: State, a: Id, own: seq<nat>, orphans: seq<nat>)
    requires s1.tasks == Resolve(s.tasks, own) && forall k | 0 <= k < |orphans| :: orphans[k] < |s.tasks|
    ensures Resolve(s1.tasks, orphans) == Resolve(s.tasks, own + orphans)
    ensures OrphanEvents(s1, a, orphans) == OrphanEvents(s, a, orphans)
  {
  }

  lemma {:induction false} NoSubjects(tasks: seq<Task>, household: Id)
    ensures QueryOpen(tasks, {}, household) == []
  {
    if tasks != [] {
      NoSubjects(tasks[..|tasks| - 1], household);
    }
  }
}
