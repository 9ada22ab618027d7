/** The plugin's audit log is a complete journal of its assertions. */
module JournalInvariants {
  import opened Prelude
  import opened Dates
  import opened DateScanner
  import opened AssertionStore
  import opened CatalogueState
  import opened Runs
  import opened RowInvariants
  import opened Frames
  import E = ExpirySteps
  import A = AssetSteps

  /** What a reader who replays write events believes about each pair. */
  function Replay(events: seq<Event>): map<(Id, Field), (Json, ReviewState)> {
    if events == [] then map[]
    else
      var n := |events| - 1;
      var before := Replay(events[..n]);
      if events[n].PluginWrite? then before[(events[n].asset, events[n].field) := (events[n].value, events[n].state)] else before
  }

  function View(r: Row): (Json, ReviewState) { (r.value, r.state) }

  /** Some row before `n` is on the pair. */
  ghost predicate Earlier(rows: seq<Row>, n: nat, a: Id, f: Field) {
    exists j :: 0 <= j < n && j < |rows| && On(rows[j], a, f)
  }

  /** Event `e` journals row `i`. */
  ghost predicate Journals(e: Event, rows: seq<Row>, i: nat) {
    && e.PluginWrite? && e.row == i && i < |rows|
    && On(rows[i], e.asset, e.field) && rows[i].value == e.value
    && e.previous == if Earlier(rows, i, e.asset, e.field) then Some(Superseded) else None
  }

  ghost predicate OneToOne(events: seq<Event>, rows: seq<Row>) {
    && |events| == |PluginRows(rows)|
    && forall k | 0 <= k < |events| :: Journals(events[k], rows, PluginRows(rows)[k])
  }

  ghost predicate ReplayAgrees(s: State) {
    forall a, f | PluginField(f) ::
      var view := Replay(PluginWrites(s.audit));
      && ((a, f) in view <==> Cur(s, a, f).Some?)
      && (Cur(s, a, f).Some? ==> view[(a, f)] == View(Cur(s, a, f).value))
  }

  ghost predicate JournalInv(s: State) {
    OneToOne(PluginWrites(s.audit), s.rows) && ReplayAgrees(s)
  }

  lemma JournalsStable(e: Event, rows: seq<Row>, rows': seq<Row>, i: nat)
    requires Journals(e, rows, i) && Extends(rows, rows')
    ensures Journals(e, rows', i)
  {
    assert forall j | 0 <= j < |rows| :: SameButState(rows[j], rows'[j]);
  }

  /** Nothing the journal speaks of changed. */
  lemma SameJournal(s: State, s': State)
    requires JournalInv(s) && PluginWrites(s'.audit) == PluginWrites(s.audit)
    requires PluginRows(s'.rows) == PluginRows(s.rows) && Extends(s.rows, s'.rows)
    requires forall a, f | PluginField(f) :: Cur(s', a, f) == Cur(s, a, f)
    ensures JournalInv(s')
  {
    var es := PluginWrites(s.audit);
    forall k | 0 <= k < |es| ensures Journals(es[k], s'.rows, PluginRows(s'.rows)[k]) {
      JournalsStable(es[k], s.rows, s'.rows, PluginRows(s.rows)[k]);
    }
  }

  lemma ServiceKeepsJournal(s: State, s': State)
    requires JournalInv(s) && ServiceOnly(s, s')
    ensures JournalInv(s')
  {
    SameJournal(s, s');
  }

  /** A pair that has a row has an active row. */
  lemma PairIsActive(rows: seq<Row>, j: nat, a: Id, f: Field)
    requires Shape(rows) && j < |rows| && On(rows[j], a, f)
    ensures Latest(rows, a, f).Some?
    decreases |rows| - j
  {
    if !Active(rows[j]) {
      assert HasLater(rows, j);
      var k :| j < k < |rows| && On(rows[k], rows[j].asset, rows[j].field);
      PairIsActive(rows, k, a, f);
    }
  }

  lemma PreviousIsEarlier(rows: seq<Row>, a: Id, f: Field)
    requires Shape(rows)
    ensures Latest(rows, a, f).Some? <==> Earlier(rows, |rows|, a, f)
  {
    if Earlier(rows, |rows|, a, f) {
      var j :| 0 <= j < |rows| && On(rows[j], a, f);
      PairIsActive(rows, j, a, f);
    }
  }

  lemma EarlierStable(rows: seq<Row>, rows': seq<Row>, n: nat, a: Id, f: Field)
    requires Extends(rows, rows') && n <= |rows|
    ensures Earlier(rows, n, a, f) <==> Earlier(rows', n, a, f)
  {
    assert forall j | 0 <= j < |rows| :: SameButState(rows[j], rows'[j]);
    if Earlier(rows', n, a, f) {
      var j :| 0 <= j < n && On(rows'[j], a, f);
      assert On(rows[j], a, f);
    }
  }

  lemma WriteKeepsJournal(
    s: State, t: Text, a: Id, f: Field, v: Json, source: Source, st: ReviewState, evidence: seq<Id>, now: int)
    requires RowInv(s, t) && JournalInv(s) && a in s.assets && PluginField(f) && st != Superseded && st != Rejected
    ensures JournalInv(Write(s, a, f, v, source, st, evidence, now))
  {
    var s' := Write(s, a, f, v, source, st, evidence, now);
    if !AlreadyWritten(s, a, f, v, st) {
      var row, p := Row(a, f, v, source, st, evidence, now), Latest(s.rows, a, f);
      var e := PluginWrite(|s.rows|, a, f, if p.Some? then Some(Superseded) else None, st, v, HouseholdOf(s, a));
      LogOne(s.audit, e);
      ReplaceExtends(s.rows, p, row);
      ReplacedView(s.rows, row, s'.rows);
      AppendedEvent(s, s', e);
    }
  }

  lemma AppendedEvent(s: State, s': State, e: Event)
    requires JournalInv(s) && Shape(s.rows) && e.PluginWrite? && PluginField(e.field)
    requires PluginWrites(s'.audit) == PluginWrites(s.audit) + [e]
    requires Extends(s.rows, s'.rows) && PluginRows(s'.rows) == PluginRows(s.rows) + [|s.rows|]
    requires |s'.rows| == |s.rows| + 1 && e.row == |s.rows|
    requires On(s'.rows[|s.rows|], e.asset, e.field) && View(s'.rows[|s.rows|]) == (e.value, e.state)
    requires e.previous == if Latest(s.rows, e.asset, e.field).Some? then Some(Superseded) else None
    requires Latest(s'.rows, e.asset, e.field) == Some(|s.rows|)
    requires forall a, f | !(a == e.asset && f == e.field) :: Cur(s', a, f) == Cur(s, a, f)
    ensures JournalInv(s')
  {
    hide PluginWrites, PluginRows, Latest;
    var es, es' := PluginWrites(s.audit), PluginWrites(s'.audit);
    PreviousIsEarlier(s.rows, e.asset, e.field);
    EarlierStable(s.rows, s'.rows, |s.rows|, e.asset, e.field);
    assert Journals(e, s'.rows, |s.rows|);
    forall k | 0 <= k < |es'| ensures Journals(es'[k], s'.rows, PluginRows(s'.rows)[k]) {
      if k < |es| {
        JournalsStable(es[k], s.rows, s'.rows, PluginRows(s.rows)[k]);
      }
    }
    assert es'[..|es|] == es;
    assert Replay(es') == Replay(es)[(e.asset, e.field) := (e.value, e.state)];
  }

  lemma ResolveKeepsJournal(s: State, a: Id)
    requires JournalInv(s) && a in s.assets
    ensures JournalInv(ResolveWithOrphans(s, a))
  {
    LogResolves(s.audit, OrphanEvents(s, a, OrphanOpen(s, a)));
    SameJournal(s, ResolveWithOrphans(s, a));
  }

  lemma NeedDateJournal(s: State, t: Text, a: Id, source: Source, now: int)
    requires RowInv(s, t) && JournalInv(s) && a in s.assets
    ensures JournalInv(E.NeedDate(s, a, source, now).0)
  {
    hide JournalInv, RowInv, Write, Latest, OwnOpen;
    WriteKeepsJournal(s, t, a, ExpiryDate, E.Unknown, source, NeedsEvidence, [], now);
    var s1 := Write(s, a, ExpiryDate, E.Unknown, source, NeedsEvidence, [], now);
    WriteWrote(s, t, a, ExpiryDate, E.Unknown, source, NeedsEvidence, [], now);
    TasksKeepJournal(s1, E.OpenTask(s1, a).0);
  }

  lemma TasksKeepJournal(s: State, s': State)
    requires JournalInv(s) && s'.rows == s.rows && s'.audit == s.audit
    ensures JournalInv(s')
  {
    SameJournal(s, s');
  }

  lemma ClassifyJournal(s: State, t: Text, a: Id, slug: string, tier: Option<string>, now: int)
    requires RowInv(s, t) && JournalInv(s)
    ensures JournalInv(KeepReply(s, E.Classify(s, a, slug, tier, t, now)))
  {
    hide JournalInv, RowInv, Write, Latest, E.CategoryOf, E.Profile, E.ClassifyDated, E.ClassifyUndated;
    if E.Classify(s, a, slug, tier, t, now).Ok? {
      var c := E.CategoryOf(slug).value;
      var v := E.ClassificationValue(c, if tier.Some? then tier.value else c.defaultTier);
      var s1 := Write(s, a, Classification, v, User, Accepted, [], now);
      ClassificationKeeps(s, t, a, c, v, now);
      WriteKeepsJournal(s, t, a, Classification, v, User, Accepted, [], now);
      WriteWrote(s, t, a, Classification, v, User, Accepted, [], now);
      if c.hasExpiry {
        DatedJournal(s1, t, a, slug, now);
      } else {
        UndatedJournal(s1, t, a, now);
      }
    }
  }

  lemma DatedJournal(s: State, t: Text, a: Id, slug: string, now: int)
    requires RowInv(s, t) && JournalInv(s) && a in s.assets
    ensures JournalInv(E.ClassifyDated(s, a, slug, t, now).0)
  {
    hide JournalInv, RowInv, Write, Latest, E.NeedDate, E.Observed, E.HasValidDate;
    NeedDateJournal(s, t, a, Deterministic, now);
    if E.Observed(s, a, t).Some? {
      var (date, e) := E.Observed(s, a, t).value;
      WriteKeepsJournal(s, t, a, ExpiryDate, E.ProposedValue(date), Deterministic, Proposed, [e], now);
    }
  }

  lemma UndatedJournal(s: State, t: Text, a: Id, now: int)
    requires RowInv(s, t) && JournalInv(s) && a in s.assets
    ensures JournalInv(E.ClassifyUndated(s, a, now).0)
  {
    hide JournalInv, RowInv, Write, Latest, ResolveWithOrphans, OwnOpen, OrphanOpen;
    WriteKeepsJournal(s, t, a, ExpiryDate, Null, User, Accepted, [], now);
    WriteWrote(s, t, a, ExpiryDate, Null, User, Accepted, [], now);
    ResolveKeepsJournal(if Cur(s, a, ExpiryDate).Some? then Write(s, a, ExpiryDate, Null, User, Accepted, [], now) else s, a);
  }

  lemma StoreJournal(s: State, t: Text, a: Id, entry: Json, ids: seq<Id>, now: int)
    requires RowInv(s, t) && JournalInv(s) && a in s.assets
    ensures JournalInv(KeepReply(s, E.StoreManualExpiry(s, a, entry, ids, now)))
  {
    hide JournalInv, RowInv, Write, Latest, ResolveWithOrphans, OwnOpen, OrphanOpen, E.CategoryIn;
    if E.StoreManualExpiry(s, a, entry, ids, now).Ok? {
      WriteKeepsJournal(s, t, a, ExpiryDate, entry, User, Accepted, ids, now);
      WriteWrote(s, t, a, ExpiryDate, entry, User, Accepted, ids, now);
      ResolveKeepsJournal(Write(s, a, ExpiryDate, entry, User, Accepted, ids, now), a);
    }
  }

  lemma EnterExpiryJournal(s: State, t: Text, a: Id, payload: map<string, Json>, cited: Option<seq<Id>>, now: int)
    requires RowInv(s, t) && JournalInv(s)
    ensures JournalInv(KeepReply(s, E.EnterExpiry(s, a, payload, cited, t, now)))
  {
    hide JournalInv, RowInv, E.ParseManualEntry, E.CheckCited, E.StoreManualExpiry;
    if a in s.assets && E.ParseManualEntry(payload, t).Ok? {
      StoreJournal(s, t, a, E.ParseManualEntry(payload, t).value, if cited.Some? then cited.value else [], now);
    }
  }

  lemma ClearExpiryJournal(s: State, t: Text, a: Id, now: int)
    requires RowInv(s, t) && JournalInv(s)
    ensures JournalInv(KeepReply(s, E.ClearExpiry(s, a, now)))
  {
    hide JournalInv, RowInv, Write, Latest, OwnOpen, E.CategoryIn;
    if E.ClearExpiry(s, a, now).Ok? && Cur(s, a, ExpiryDate).Some? {
      var s1 := Write(s, a, ExpiryDate, Null, User, Accepted, [], now);
      WriteWrote(s, t, a, ExpiryDate, Null, User, Accepted, [], now);
      WriteKeepsJournal(s, t, a, ExpiryDate, Null, User, Accepted, [], now);
      TasksKeepJournal(s1, s1.(tasks := Resolve(s1.tasks, OwnOpen(s1, a))));
    }
  }

  lemma OpenedJournal(s: State, t: Text, a: Id, v: Json, now: int)
    requires RowInv(s, t) && JournalInv(s)
    ensures JournalInv(KeepReply(s, E.EnterOpened(s, a, v, t, now)))
    ensures JournalInv(KeepReply(s, E.ClearOpened(s, a, now)))
  {
    hide JournalInv, RowInv, Write, Latest, E.AcceptedCategory, ReadCanonical;
    if a in s.assets {
      WriteKeepsJournal(s, t, a, OpenedDate, Null, User, Accepted, [], now);
      WriteKeepsJournal(s, t, a, OpenedDate, v, User, Accepted, [], now);
    }
  }

  lemma {:induction false} ExtensionsJournal(s: State, t: Text, a: Id, attributes: seq<(string, Json)>, now: int)
    requires RowInv(s, t) && JournalInv(s) && a in s.assets
    ensures JournalInv(E.WriteExtensions(s, a, attributes, now))
  {
    hide JournalInv, RowInv, Write;
    if attributes != [] {
      var n := |attributes| - 1;
      ExtensionsJournal(s, t, a, attributes[..n], now);
      ExtensionsKeep(s, t, a, attributes[..n], now);
      WriteKeepsJournal(E.WriteExtensions(s, a, attributes[..n], now), t, a, Extension(attributes[n].0), attributes[n].1,
                        User, Accepted, [], now);
    }
  }

  lemma CreateJournal(s: State, t: Text, a: Id, household: Id, p: A.Payload, evidence: seq<Id>, now: int)
    requires RowInv(s, t) && JournalInv(s) && Fresh(s, a)
    ensures JournalInv(Keep(s, A.Create(s, a, household, p, evidence, t, now)))
  {
    hide JournalInv, RowInv, A.Create, CreatedRows, Latest, Current;
    if A.Create(s, a, household, p, evidence, t, now).Ok? {
      CreateFrames(s, t, a, household, p, evidence, now);
      SameJournal(s, A.Create(s, a, household, p, evidence, t, now).value);
    }
  }

  lemma OthersJournal(s: State, s': State)
    requires JournalInv(s) && OtherOnly(s, s')
    ensures JournalInv(s')
  {
    hide JournalInv, Latest, Current;
    assert forall a, f :: Cur(s', a, f) == Cur(s, a, f);
    SameJournal(s, s');
  }

  lemma PluginOpJournal(s: State, op: Op, t: Text)
    requires RowInv(s, t) && JournalInv(s) && Sound(t.alphabet) && IsPlugin(op)
    ensures JournalInv(Step(s, op, t))
  {
    hide JournalInv, RowInv, E.Classify, E.NeedDate, E.EnterExpiry, E.ClearExpiry, E.EnterOpened, E.ClearOpened;
    match op {
      case Classify(a, slug, tier, now) => ClassifyJournal(s, t, a, slug, tier, now);
      case Extract(a, needsEvidence, now) => if a in s.assets { NeedDateJournal(s, t, a, Extraction, now); }
      case EnterExpiry(a, entry, cited, now) => EnterExpiryJournal(s, t, a, entry, cited, now);
      case ClearExpiry(a, now) => ClearExpiryJournal(s, t, a, now);
      case EnterOpened(a, value, now) => OpenedJournal(s, t, a, value, now);
      case ClearOpened(a, now) => OpenedJournal(s, t, a, Null, now);
      case Extend(a, attributes, now) => if a in s.assets { ExtensionsJournal(s, t, a, attributes, now); }
    }
  }

  lemma StepKeepsJournal(s: State, op: Op, t: Text)
    requires RowInv(s, t) && JournalInv(s) && Sound(t.alphabet)
    ensures JournalInv(Step(s, op, t))
  {
    hide JournalInv, RowInv, ServiceOnly, OtherOnly, E.Classify, E.Extract, E.EnterExpiry, E.ClearExpiry,
         E.EnterOpened, E.ClearOpened, E.Extend, A.Create, A.Update, A.Patch, A.Archive, A.Merge, OtherStep, Fresh;
    if IsOther(op) {
      OtherFrames(s, op);
      OthersJournal(s, OtherStep(s, op));
    } else if IsService(op) {
      ServiceStep(s, op, t);
      ServiceKeepsJournal(s, Step(s, op, t));
    } else if IsPlugin(op) {
      PluginOpJournal(s, op, t);
    } else if Fresh(s, op.a) {
      CreateJournal(s, t, op.a, op.household, op.payload, op.evidence, op.now);
    }
  }
}
