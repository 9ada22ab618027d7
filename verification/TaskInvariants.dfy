/** The date task tracks the missing date: one open task while it is unknown, none once it is settled. */
module TaskInvariants {
  import opened Prelude
  import opened Dates
  import opened DateScanner
  import opened AssertionStore
  import opened CatalogueState
  import opened Runs
  import opened RowInvariants
  import opened Frames
  import E = ExpirySteps
  import A = AssetSteps

  predicate ManualOn(t: Task, a: Id) { t.taskType == ManualEntry && t.subject == a }

  /** The open manual-entry tasks on an asset, whatever household they carry. */
  function OpenSet(tasks: seq<Task>, a: Id): set<nat> {
    set i | 0 <= i < |tasks| && ManualOn(tasks[i], a) && tasks[i].status == Open
  }

  predicate CountFits(open: set<nat>, date: Option<Row>) {
    match date
    case None => open == {}
    case Some(row) =>
      match row.state
      case Accepted => open == {}
      case NeedsEvidence => |open| == 1
      case _ => |open| <= 1
  }

  ghost predicate Housed(s: State, a: Id)
    requires a in s.assets
  {
    forall i | 0 <= i < |s.tasks| && ManualOn(s.tasks[i], a) :: s.tasks[i].household == HouseholdOf(s, a)
  }

  ghost predicate TaskOk(s: State, a: Id)
    requires a in s.assets
  {
    Housed(s, a) && CountFits(OpenSet(s.tasks, a), Cur(s, a, ExpiryDate))
  }

  ghost predicate TaskInv(s: State) {
    && (forall a | a in s.assets :: TaskOk(s, a))
    && (forall c | c in s.candidates :: c.id !in s.assets)
  }

  /** Nothing about the date tasks of `b` changed. */
  ghost predicate SameFor(s: State, s': State, b: Id) {
    && b in s.assets && b in s'.assets && HouseholdOf(s', b) == HouseholdOf(s, b)
    && Cur(s', b, ExpiryDate) == Cur(s, b, ExpiryDate)
    && OpenSet(s'.tasks, b) == OpenSet(s.tasks, b)
    && (Housed(s, b) ==> Housed(s', b))
  }

  lemma QueryIsOpenSet(s: State, a: Id)
    requires a in s.assets && Housed(s, a)
    ensures forall i :: i in OwnOpen(s, a) <==> i in OpenSet(s.tasks, a)
  {
  }

  /** Resolving tasks whose subject is not `b` leaves `b` alone. */
  lemma ResolveElsewhere(tasks: seq<Task>, who: seq<nat>, b: Id)
    requires forall i | i in who && i < |tasks| :: !ManualOn(tasks[i], b)
    ensures OpenSet(Resolve(tasks, who), b) == OpenSet(tasks, b)
  {
  }

  lemma ResolveAll(tasks: seq<Task>, who: seq<nat>, b: Id)
    requires forall i | i in OpenSet(tasks, b) :: i in who
    ensures OpenSet(Resolve(tasks, who), b) == {}
  {
  }

  lemma AppendTask(tasks: seq<Task>, task: Task, b: Id)
    ensures OpenSet(tasks + [task], b)
            == OpenSet(tasks, b) + if ManualOn(task, b) && task.status == Open then {|tasks|} else {}
  {
    var tasks' := tasks + [task];
    forall i ensures i in OpenSet(tasks', b)
                     <==> i in OpenSet(tasks, b) || (i == |tasks| && ManualOn(task, b) && task.status == Open) {
      assert 0 <= i < |tasks| ==> tasks'[i] == tasks[i];
    }
  }

  /** An operation on `a` that settles `a` and disturbs no other asset keeps the invariant. */
  lemma OnlyAsset(s: State, s': State, a: Id)
    requires TaskInv(s) && s'.assets.Keys == s.assets.Keys && s'.candidates == s.candidates
    requires a in s'.assets && TaskOk(s', a)
    requires forall b | b in s.assets && b != a :: SameFor(s, s', b)
    ensures TaskInv(s')
  {
  }

  /** An operation that disturbs no asset's date keeps the invariant. */
  lemma NoAsset(s: State, s': State)
    requires TaskInv(s) && s'.assets.Keys == s.assets.Keys && s'.candidates == s.candidates
    requires forall b | b in s.assets :: SameFor(s, s', b)
    ensures TaskInv(s')
  {
  }

  lemma OpenTaskKeeps(s: State, a: Id)
    requires a in s.assets && Housed(s, a) && |OpenSet(s.tasks, a)| <= 1
    ensures var s' := E.OpenTask(s, a).0;
            && |OpenSet(s'.tasks, a)| == 1 && Housed(s', a)
            && forall b | b in s.assets && b != a :: SameFor(s, s', b)
  {
    QueryIsOpenSet(s, a);
    var task := Task(ManualEntry, a, HouseholdOf(s, a), Open);
    forall b { AppendTask(s.tasks, task, b); }
    if OwnOpen(s, a) != [] {
      assert OwnOpen(s, a)[0] in OpenSet(s.tasks, a);
    } else {
      assert OpenSet(s.tasks, a) == {};
    }
  }

  lemma NeedDateTasks(s: State, t: Text, a: Id, source: Source, now: int)
    requires RowInv(s, t) && TaskInv(s) && a in s.assets
    ensures TaskInv(E.NeedDate(s, a, source, now).0)
  {
    hide TaskInv, RowInv, Write, Latest, Current, OwnOpen, OrphanOpen, E.OpenTask;
    WriteWrote(s, t, a, ExpiryDate, E.Unknown, source, NeedsEvidence, [], now);
    NeedDateStep(s, Write(s, a, ExpiryDate, E.Unknown, source, NeedsEvidence, [], now), a);
  }

  lemma NeedDateStep(s: State, s1: State, a: Id)
    requires TaskInv(s) && a in s.assets && Wrote(s, s1, a, ExpiryDate, E.Unknown, NeedsEvidence)
    ensures TaskInv(E.OpenTask(s1, a).0)
  {
    assert TaskOk(s, a);
    OpenTaskKeeps(s1, a);
    OnlyAsset(s, E.OpenTask(s1, a).0, a);
  }

  /** A date that needs no task, with the tasks untouched. */
  lemma ProposeStep(s: State, s1: State, a: Id, v: Json)
    requires TaskInv(s) && a in s.assets && Wrote(s, s1, a, ExpiryDate, v, Proposed)
    ensures TaskInv(s1)
  {
    assert TaskOk(s, a) && TaskOk(s1, a);
    OnlyAsset(s, s1, a);
  }

  /** A write off the expiry field. */
  lemma OtherFieldStep(s: State, s1: State, a: Id, f: Field, v: Json)
    requires TaskInv(s) && f != ExpiryDate && Wrote(s, s1, a, f, v, Accepted)
    ensures TaskInv(s1)
  {
    NoAsset(s, s1);
  }

  /** No orphan's subject is an asset, so resolving orphans disturbs no other asset. */
  lemma SettleStep(s: State, s1: State, a: Id)
    requires TaskInv(s) && a in s.assets
    requires (s1 == s && Cur(s, a, ExpiryDate).None?) || exists v :: Wrote(s, s1, a, ExpiryDate, v, Accepted)
    ensures TaskInv(ResolveWithOrphans(s1, a)) && TaskInv(s1.(tasks := Resolve(s1.tasks, OwnOpen(s1, a))))
  {
    assert TaskOk(s, a) && Housed(s1, a);
    QueryIsOpenSet(s1, a);
    SettleWith(s, s1, a, OwnOpen(s1, a) + OrphanOpen(s1, a), ResolveWithOrphans(s1, a));
    SettleWith(s, s1, a, OwnOpen(s1, a), s1.(tasks := Resolve(s1.tasks, OwnOpen(s1, a))));
  }

  lemma SettleWith(s: State, s1: State, a: Id, who: seq<nat>, s': State)
    requires TaskInv(s) && a in s.assets && s1.assets == s.assets && s1.tasks == s.tasks && s1.candidates == s.candidates
    requires s'.assets == s.assets && s'.candidates == s.candidates && s'.rows == s1.rows && s'.tasks == Resolve(s.tasks, who)
    requires CountFits({}, Cur(s1, a, ExpiryDate))
    requires forall b | b in s.assets && b != a :: Cur(s1, b, ExpiryDate) == Cur(s, b, ExpiryDate)
    requires forall i | i in OpenSet(s.tasks, a) :: i in who
    requires forall i | i in who :: i < |s.tasks| && (s.tasks[i].subject in s.assets ==> s.tasks[i].subject == a)
    ensures TaskInv(s')
  {
    assert TaskOk(s, a);
    ResolveAll(s.tasks, who, a);
    forall b | b in s.assets && b != a ensures SameFor(s, s', b) {
      ResolveElsewhere(s.tasks, who, b);
    }
    OnlyAsset(s, s', a);
  }

  lemma ClassifyTasks(s: State, t: Text, a: Id, slug: string, tier: Option<string>, now: int)
    requires RowInv(s, t) && TaskInv(s) && Sound(t.alphabet)
    ensures TaskInv(KeepReply(s, E.Classify(s, a, slug, tier, t, now)))
  {
    hide TaskInv, RowInv, Write, Latest, Current, E.CategoryOf, E.ClassifyDated, E.ClassifyUndated, E.Profile;
    if E.Classify(s, a, slug, tier, t, now).Ok? {
      var c := E.CategoryOf(slug).value;
      var v := E.ClassificationValue(c, if tier.Some? then tier.value else c.defaultTier);
      var s1 := Write(s, a, Classification, v, User, Accepted, [], now);
      ClassificationKeeps(s, t, a, c, v, now);
      WriteWrote(s, t, a, Classification, v, User, Accepted, [], now);
      OtherFieldStep(s, s1, a, Classification, v);
      if c.hasExpiry {
        ClassifyDatedTasks(s1, t, a, slug, now);
      } else {
        ClassifyUndatedTasks(s1, t, a, now);
      }
    }
  }

  lemma ClassifyDatedTasks(s: State, t: Text, a: Id, slug: string, now: int)
    requires RowInv(s, t) && TaskInv(s) && a in s.assets
    ensures TaskInv(E.ClassifyDated(s, a, slug, t, now).0)
  {
    hide TaskInv, RowInv, Write, Latest, Current, OwnOpen, OrphanOpen, E.NeedDate, E.Observed, E.HasValidDate;
    NeedDateTasks(s, t, a, Deterministic, now);
    if E.Observed(s, a, t).Some? {
      var (date, e) := E.Observed(s, a, t).value;
      WriteWrote(s, t, a, ExpiryDate, E.ProposedValue(date), Deterministic, Proposed, [e], now);
      ProposeStep(s, Write(s, a, ExpiryDate, E.ProposedValue(date), Deterministic, Proposed, [e], now), a, E.ProposedValue(date));
    }
  }

  lemma ClassifyUndatedTasks(s: State, t: Text, a: Id, now: int)
    requires RowInv(s, t) && TaskInv(s) && a in s.assets
    ensures TaskInv(E.ClassifyUndated(s, a, now).0)
  {
    hide TaskInv, RowInv, Write, Latest, Current, OwnOpen, OrphanOpen, ResolveWithOrphans;
    WriteWrote(s, t, a, ExpiryDate, Null, User, Accepted, [], now);
    var s1 := if Cur(s, a, ExpiryDate).Some? then Write(s, a, ExpiryDate, Null, User, Accepted, [], now) else s;
    SettleStep(s, s1, a);
  }

  lemma StoreManualTasks(s: State, t: Text, a: Id, entry: Json, ids: seq<Id>, now: int)
    requires RowInv(s, t) && TaskInv(s) && a in s.assets
    ensures TaskInv(KeepReply(s, E.StoreManualExpiry(s, a, entry, ids, now)))
  {
    hide TaskInv, RowInv, Write, Latest, Current, OwnOpen, OrphanOpen, ResolveWithOrphans, E.CategoryIn;
    if E.StoreManualExpiry(s, a, entry, ids, now).Ok? {
      WriteWrote(s, t, a, ExpiryDate, entry, User, Accepted, ids, now);
      SettleStep(s, Write(s, a, ExpiryDate, entry, User, Accepted, ids, now), a);
    }
  }

  lemma ClearExpiryTasks(s: State, t: Text, a: Id, now: int)
    requires RowInv(s, t) && TaskInv(s)
    ensures TaskInv(KeepReply(s, E.ClearExpiry(s, a, now)))
  {
    hide TaskInv, RowInv, Write, Latest, Current, OwnOpen, OrphanOpen, E.CategoryIn;
    if E.ClearExpiry(s, a, now).Ok? && Cur(s, a, ExpiryDate).Some? {
      WriteWrote(s, t, a, ExpiryDate, Null, User, Accepted, [], now);
      SettleStep(s, Write(s, a, ExpiryDate, Null, User, Accepted, [], now), a);
    }
  }

  lemma EnterOpenedTasks(s: State, t: Text, a: Id, v: Json, now: int)
    requires RowInv(s, t) && TaskInv(s)
    ensures TaskInv(KeepReply(s, E.EnterOpened(s, a, v, t, now)))
  {
    hide TaskInv, RowInv, Write, E.AcceptedCategory, ReadCanonical;
    if E.EnterOpened(s, a, v, t, now).Ok? {
      WriteWrote(s, t, a, OpenedDate, v, User, Accepted, [], now);
      OtherFieldStep(s, Write(s, a, OpenedDate, v, User, Accepted, [], now), a, OpenedDate, v);
    }
  }

  lemma ClearOpenedTasks(s: State, t: Text, a: Id, now: int)
    requires RowInv(s, t) && TaskInv(s)
    ensures TaskInv(KeepReply(s, E.ClearOpened(s, a, now)))
  {
    hide TaskInv, RowInv, Write, E.AcceptedCategory, Latest;
    if E.ClearOpened(s, a, now).Ok? {
      WriteWrote(s, t, a, OpenedDate, Null, User, Accepted, [], now);
      OtherFieldStep(s, Write(s, a, OpenedDate, Null, User, Accepted, [], now), a, OpenedDate, Null);
    }
  }

  lemma {:induction false} ExtensionsTasks(s: State, t: Text, a: Id, attributes: seq<(string, Json)>, now: int)
    requires RowInv(s, t) && TaskInv(s) && a in s.assets
    ensures TaskInv(E.WriteExtensions(s, a, attributes, now))
  {
    hide TaskInv, RowInv, Write;
    if attributes != [] {
      var n := |attributes| - 1;
      var (k, v) := attributes[n];
      var s1 := E.WriteExtensions(s, a, attributes[..n], now);
      ExtensionsTasks(s, t, a, attributes[..n], now);
      ExtensionsKeep(s, t, a, attributes[..n], now);
      WriteWrote(s1, t, a, Extension(k), v, User, Accepted, [], now);
      OtherFieldStep(s1, Write(s1, a, Extension(k), v, User, Accepted, [], now), a, Extension(k), v);
    }
  }

  /** The asset service never touches a date or a task. */
  lemma ServiceKeepsTasks(s: State, s': State)
    requires TaskInv(s) && ServiceOnly(s, s')
    ensures TaskInv(s')
  {
    NoAsset(s, s');
  }

  lemma CreateTasks(s: State, t: Text, a: Id, household: Id, p: A.Payload, evidence: seq<Id>, now: int)
    requires RowInv(s, t) && TaskInv(s) && Fresh(s, a)
    ensures TaskInv(Keep(s, A.Create(s, a, household, p, evidence, t, now)))
  {
    var o := A.Create(s, a, household, p, evidence, t, now);
    if o.Ok? {
      var s' := o.value;
      CreateView(s, t, a, household, p, evidence, now);
      CreatedShape(a, p, evidence, t, now);
      forall i | 0 <= i < |s.tasks| ensures !ManualOn(s.tasks[i], a) {
        assert s.tasks[i] in s.tasks;
      }
      assert OpenSet(s'.tasks, a) == {};
      assert forall i | 0 <= i < |s.rows| :: s.rows[i].asset != a;
      forall b | b in s'.assets ensures TaskOk(s', b) {
        if b != a { assert TaskOk(s, b); }
      }
    }
  }

  lemma OthersTasks(s: State, s': State)
    requires TaskInv(s) && OtherOnly(s, s')
    ensures TaskInv(s')
  {
    hide Latest, Current;
    forall b | b in s.assets ensures TaskOk(s', b) {
      assert TaskOk(s, b) && Cur(s', b, ExpiryDate) == Cur(s, b, ExpiryDate);
      if s'.tasks != s.tasks {
        var task :| ForeignTask(s, task) && s'.tasks == s.tasks + [task];
        AppendTask(s.tasks, task, b);
      }
    }
  }

  lemma EnterExpiryTasks(s: State, t: Text, a: Id, payload: map<string, Json>, cited: Option<seq<Id>>, now: int)
    requires RowInv(s, t) && TaskInv(s)
    ensures TaskInv(KeepReply(s, E.EnterExpiry(s, a, payload, cited, t, now)))
  {
    hide TaskInv, RowInv, E.ParseManualEntry, E.CheckCited, E.StoreManualExpiry;
    if a in s.assets && E.ParseManualEntry(payload, t).Ok? {
      StoreManualTasks(s, t, a, E.ParseManualEntry(payload, t).value, if cited.Some? then cited.value else [], now);
    }
  }

  lemma PluginOpTasks(s: State, op: Op, t: Text)
    requires RowInv(s, t) && TaskInv(s) && Sound(t.alphabet) && IsPlugin(op)
    ensures TaskInv(Step(s, op, t))
  {
    hide TaskInv, RowInv, E.Classify, E.NeedDate, E.EnterExpiry, E.ClearExpiry, E.EnterOpened, E.ClearOpened;
    match op {
      case Classify(a, slug, tier, now) => ClassifyTasks(s, t, a, slug, tier, now);
      case Extract(a, needsEvidence, now) => if a in s.assets { NeedDateTasks(s, t, a, Extraction, now); }
      case EnterExpiry(a, entry, cited, now) => EnterExpiryTasks(s, t, a, entry, cited, now);
      case ClearExpiry(a, now) => ClearExpiryTasks(s, t, a, now);
      case EnterOpened(a, value, now) => EnterOpenedTasks(s, t, a, value, now);
      case ClearOpened(a, now) => ClearOpenedTasks(s, t, a, now);
      case Extend(a, attributes, now) => if a in s.assets { ExtensionsTasks(s, t, a, attributes, now); }
    }
  }

  lemma StepKeepsTasks(s: State, op: Op, t: Text)
    requires RowInv(s, t) && TaskInv(s) && Sound(t.alphabet)
    ensures TaskInv(Step(s, op, t))
  {
    hide TaskInv, RowInv, ServiceOnly, OtherOnly, E.Classify, E.Extract, E.EnterExpiry, E.ClearExpiry, E.EnterOpened,
         E.ClearOpened, E.Extend, A.Create, A.Update, A.Patch, A.Archive, A.Merge, OtherStep, Fresh;
    if IsOther(op) {
      OtherFrames(s, op);
      OthersTasks(s, OtherStep(s, op));
    } else if IsService(op) {
      ServiceStep(s, op, t);
      ServiceKeepsTasks(s, Step(s, op, t));
    } else if IsPlugin(op) {
      PluginOpTasks(s, op, t);
    } else if Fresh(s, op.a) {
      CreateTasks(s, t, op.a, op.household, op.payload, op.evidence, op.now);
    }
  }
}
