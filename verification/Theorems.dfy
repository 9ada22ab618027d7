/** What every run of the catalogue guarantees. */
module Theorems {
  import opened Prelude
  import opened Dates
  import opened DateScanner
  import opened AssertionStore
  import opened CatalogueState
  import opened Runs
  import opened RowInvariants
  import opened Frames
  import opened TaskInvariants
  import opened JournalInvariants
  import opened ColumnInvariants
  import opened MergeInvariants
  import E = ExpirySteps
  import A = AssetSteps

  ghost predicate Invariant(s: State, t: Text) {
    RowInv(s, t) && TaskInv(s) && JournalInv(s) && ColumnInv(s) && MergeInv(s)
  }

  ghost predicate OutsideMerges(s: State, t: Text) { RowInv(s, t) && TaskInv(s) && JournalInv(s) && ColumnInv(s) }

  /** Every operation of either service keeps the invariant. */
  lemma StepInvariant(s: State, op: Op, t: Text)
    requires Sound(t.alphabet) && Invariant(s, t)
    ensures Invariant(Step(s, op, t), t)
  {
    hide RowInv, TaskInv, JournalInv, ColumnInv, MergeInv, Step;
    StepKeepsRows(s, op, t);
    StepKeepsTasks(s, op, t);
    StepKeepsJournal(s, op, t);
    StepKeepsColumns(s, op, t);
    StepKeepsMerges(s, op, t);
  }

  lemma InitialInvariant(day: Day, t: Text)
    ensures Invariant(Initial(day), t)
  {
  }

  lemma {:induction false} RunInvariant(states: seq<State>, ops: seq<Op>, t: Text, k: nat)
    requires Sound(t.alphabet) && IsRun(states, ops, t) && k <= |ops|
    ensures Invariant(states[k], t)
  {
    hide Invariant, Step, Initial;
    if k == 0 {
      var day :| states[0] == Initial(day);
      InitialInvariant(day, t);
    } else {
      RunInvariant(states, ops, t, k - 1);
      StepInvariant(states[k - 1], ops[k - 1], t);
      assert StepOf(states[k - 1], ops[k - 1], t, states[k - 1 + 1]);
    }
  }

  /** Every reachable state satisfies every invariant. */
  lemma ReachableInvariant(s: State, t: Text)
    requires Sound(t.alphabet) && Reachable(s, t)
    ensures Invariant(s, t)
  {
    hide Invariant, StepOf, IsInitial;
    var states, ops :| IsRun(states, ops, t) && states[|ops|] == s;
    RunInvariant(states, ops, t, |ops|);
  }

  /** The empty catalogue is reachable, and any operation leads from a reachable state to a reachable one. */
  lemma RunsExtend(s: State, op: Op, t: Text)
    ensures IsInitial(s) ==> Reachable(s, t)
    ensures Reachable(s, t) ==> Reachable(Step(s, op, t), t)
  {
    hide Step, IsInitial;
    if IsInitial(s) {
      var none: seq<Op> := [];
      assert IsRun([s], none, t) && [s][|none|] == s;
    }
    if Reachable(s, t) {
      var states, ops :| IsRun(states, ops, t) && states[|ops|] == s;
      var s' := Step(s, op, t);
      var longer, more := states + [s'], ops + [op];
      forall k | 0 <= k < |more| ensures StepOf(longer[k], more[k], t, longer[k + 1]) {
        if k < |ops| {
          assert StepOf(states[k], ops[k], t, states[k + 1]);
        }
      }
      assert IsRun(longer, more, t) && longer[|more|] == s';
    }
  }

  lemma InvariantRows(s: State, t: Text)
    requires Invariant(s, t)
    ensures RowInv(s, t) && OutsideMerges(s, t)
  {
  }

  // ----- the date task -----

  /** One open date task while the date is unknown, none once it is settled or was never asked for. */
  lemma DateTaskTracksDate(s: State, t: Text, a: Id)
    requires Sound(t.alphabet) && Reachable(s, t) && a in s.assets
    ensures var open := OpenSet(s.tasks, a);
            var date := Cur(s, a, ExpiryDate);
            && |open| <= 1
            && (date.None? || date.value.state == Accepted ==> |open| == 0)
            && (date.Some? && date.value.state == NeedsEvidence ==> |open| == 1)
            && (forall i :: i in open <==> i in OwnOpen(s, a))
  {
    ReachableInvariant(s, t);
    hide RowInv, JournalInv, ColumnInv, MergeInv, Reachable, Latest, Current, OwnOpen;
    assert TaskOk(s, a);
    QueryIsOpenSet(s, a);
  }

  /** The ids an operation reports resolved are exactly the tasks it changes, each once. */
  ghost predicate ResolvesExactly(s: State, s': State, a: Id, ids: seq<nat>)
    requires a in s.assets
  {
    && NoRepeats(ids) && |s'.tasks| == |s.tasks|
    && (forall i :: i in ids <==> 0 <= i < |s.tasks| && s'.tasks[i] != s.tasks[i])
    && (forall i | i in ids && i < |s.tasks| :: s'.tasks[i] == s.tasks[i].(status := Resolved))
    && (forall i | 0 <= i < |s.tasks| ::
          i in ids <==> && s.tasks[i].taskType == ManualEntry && s.tasks[i].status == Open
                        && s.tasks[i].household == HouseholdOf(s, a)
                        && (s.tasks[i].subject == a || SplitOrigin(s, a, s.tasks[i].subject)))
  }

  /** A split candidate of the household that shares a linked evidence id with the asset. */
  ghost predicate SplitOrigin(s: State, a: Id, id: Id)
    requires a in s.assets
  {
    exists c | c in s.candidates ::
      && c.id == id && c.split && c.household == HouseholdOf(s, a) && c.evidence.Some?
      && exists e | e in c.evidence.value :: (a, e) in s.links
  }

  /** Each orphan's resolve is journalled once; the asset's own tasks have no audit row. */
  ghost predicate OrphansJournalled(s: State, news: seq<Event>, a: Id, ids: seq<nat>) {
    && NoRepeats(news)
    && (forall e | e in news :: e.TaskResolve? && e.task in ids && JournalsOrphan(s, a, e))
    && (forall i | i in ids && i < |s.tasks| && s.tasks[i].subject != a :: TaskResolve(i, Open, a, s.tasks[i].household) in news)
  }

  predicate JournalsOrphan(s: State, a: Id, e: Event)
    requires e.TaskResolve?
  {
    e.task < |s.tasks| && s.tasks[e.task].subject != a && e == TaskResolve(e.task, Open, a, s.tasks[e.task].household)
  }

  lemma ResolveIsExact(s: State, a: Id)
    requires a in s.assets
    ensures ResolvesExactly(s, ResolveWithOrphans(s, a), a, OwnOpen(s, a) + OrphanOpen(s, a))
  {
    OrphansAre(s, a);
    OwnAndOrphans(s, a);
    hide QueryOpen, OwnOpen, OrphanOpen, SplitOrigin;
  }

  lemma ResolveIsJournalled(s: State, a: Id)
    requires a in s.assets
    ensures ResolveWithOrphans(s, a).audit == s.audit + OrphanEvents(s, a, OrphanOpen(s, a))
    ensures OrphansJournalled(s, OrphanEvents(s, a, OrphanOpen(s, a)), a, OwnOpen(s, a) + OrphanOpen(s, a))
  {
    OrphansAre(s, a);
    hide QueryOpen, OwnOpen, OrphanOpen, SplitOrigin, SplitOrigins, OpenManual, OrphansJournalled, OrphanEvents;
    assert forall k | 0 <= k < |OrphanOpen(s, a)| :: OrphanOpen(s, a)[k] in OrphanOpen(s, a);
    EventsJournal(s, a, OwnOpen(s, a), OrphanOpen(s, a));
  }

  lemma EventsJournal(s: State, a: Id, own: seq<nat>, orphans: seq<nat>)
    requires NoRepeats(orphans)
    requires forall k | 0 <= k < |orphans| :: orphans[k] < |s.tasks| && s.tasks[orphans[k]].subject != a
    requires forall i | i in own && i < |s.tasks| :: s.tasks[i].subject == a
    ensures OrphansJournalled(s, OrphanEvents(s, a, orphans), a, own + orphans)
  {
    var news := OrphanEvents(s, a, orphans);
    forall i | i in own + orphans && i < |s.tasks| && s.tasks[i].subject != a ensures OrphanEvent(s, a, i) in news {
      var k :| 0 <= k < |orphans| && orphans[k] == i;
      assert news[k] == OrphanEvent(s, a, i);
    }
  }

  lemma OrphansAre(s: State, a: Id)
    requires a in s.assets
    ensures forall i :: i in OrphanOpen(s, a) <==>
              && 0 <= i < |s.tasks| && OpenManual(s.tasks[i], SplitOrigins(s, a), HouseholdOf(s, a))
              && s.tasks[i].subject != a
    ensures forall id :: id in SplitOrigins(s, a) <==> SplitOrigin(s, a, id)
    ensures forall i :: i in OwnOpen(s, a) ==> 0 <= i < |s.tasks| && s.tasks[i].subject == a
  {
  }

  lemma OwnAndOrphans(s: State, a: Id)
    requires a in s.assets
    ensures NoRepeats(OwnOpen(s, a) + OrphanOpen(s, a))
    ensures forall i :: i in OwnOpen(s, a) + OrphanOpen(s, a) <==>
              && 0 <= i < |s.tasks|
              && (OpenManual(s.tasks[i], {a}, HouseholdOf(s, a)) || OpenManual(s.tasks[i], SplitOrigins(s, a), HouseholdOf(s, a)))
  {
  }

  /** The two operations that settle a date report exactly the tasks they resolved, and journal exactly the orphans. */
  ghost predicate Settles(s: State, s': State, a: Id, ids: seq<nat>)
    requires a in s.assets
  {
    && ResolvesExactly(s, s', a, ids)
    && |s.audit| <= |s'.audit| && s'.audit[..|s.audit|] == s.audit
    && exists news ::
         && |s.audit| + |news| <= |s'.audit| && s'.audit[|s'.audit| - |news|..] == news
         && (forall k | |s.audit| <= k < |s'.audit| - |news| :: s'.audit[k].PluginWrite?)
         && OrphansJournalled(s, news, a, ids)
  }

  lemma WrittenThenResolved(s: State, s1: State, a: Id)
    requires a in s.assets && s1.assets == s.assets && s1.tasks == s.tasks && s1.candidates == s.candidates && s1.links == s.links
    requires |s.audit| <= |s1.audit| && s1.audit[..|s.audit|] == s.audit
    requires forall k | |s.audit| <= k < |s1.audit| :: s1.audit[k].PluginWrite?
    ensures Settles(s, ResolveWithOrphans(s1, a), a, OwnOpen(s1, a) + OrphanOpen(s1, a))
  {
    assert OwnOpen(s1, a) == OwnOpen(s, a);
    assert SplitOrigins(s1, a) == SplitOrigins(s, a) by {
      assert forall c | c in s.candidates :: SharesEvidence(s1, a, c) == SharesEvidence(s, a, c);
    }
    assert OrphanOpen(s1, a) == OrphanOpen(s, a);
    hide OwnOpen, OrphanOpen, SplitOrigins, ResolvesExactly, OrphansJournalled, QueryOpen, OrphanEvents;
    ResolveIsExact(s, a);
    ResolveIsJournalled(s, a);
    ResolveIsJournalled(s1, a);
    SameTasks(s, s1, a);
    hide ResolveWithOrphans;
    LoggedAfter(s.audit, s1.audit, OrphanEvents(s1, a, OrphanOpen(s1, a)));
  }

  /** A log that grew by writes and then by `news`. */
  lemma LoggedAfter(before: seq<Event>, written: seq<Event>, news: seq<Event>)
    requires |before| <= |written| && written[..|before|] == before
    requires forall k | |before| <= k < |written| :: written[k].PluginWrite?
    ensures var log := written + news;
            && |before| + |news| <= |log| && log[..|before|] == before && log[|log| - |news|..] == news
            && forall k | |before| <= k < |log| - |news| :: log[k].PluginWrite?
  {
  }

  lemma SameTasks(s: State, s1: State, a: Id)
    requires a in s.assets && s1.assets == s.assets && s1.tasks == s.tasks
    requires OwnOpen(s1, a) == OwnOpen(s, a) && OrphanOpen(s1, a) == OrphanOpen(s, a)
    requires ResolvesExactly(s, ResolveWithOrphans(s, a), a, OwnOpen(s, a) + OrphanOpen(s, a))
    ensures ResolvesExactly(s, ResolveWithOrphans(s1, a), a, OwnOpen(s, a) + OrphanOpen(s, a))
    ensures OrphanEvents(s1, a, OrphanOpen(s1, a)) == OrphanEvents(s, a, OrphanOpen(s, a))
  {
    hide OwnOpen, OrphanOpen, SplitOrigin;
  }

  lemma WriteLogs(s: State, a: Id, f: Field, v: Json, source: Source, st: ReviewState, evidence: seq<Id>, now: int)
    requires a in s.assets
    ensures var s1 := Write(s, a, f, v, source, st, evidence, now);
            && s1.assets == s.assets && s1.tasks == s.tasks && s1.candidates == s.candidates && s1.links == s.links
            && |s.audit| <= |s1.audit| && s1.audit[..|s.audit|] == s.audit
            && forall k | |s.audit| <= k < |s1.audit| :: s1.audit[k].PluginWrite?
  {
  }

  lemma ManualEntrySettles(s: State, a: Id, entry: Json, ids: seq<Id>, now: int)
    requires a in s.assets && E.StoreManualExpiry(s, a, entry, ids, now).Ok?
    ensures var (s', reply) := E.StoreManualExpiry(s, a, entry, ids, now).value;
            Settles(s, s', a, reply.resolved)
  {
    hide Write, Settles, ResolveWithOrphans, OwnOpen, OrphanOpen, Cur, E.CategoryIn;
    WriteLogs(s, a, ExpiryDate, entry, User, Accepted, ids, now);
    WrittenThenResolved(s, Write(s, a, ExpiryDate, entry, User, Accepted, ids, now), a);
  }

  lemma NonExpiryClassificationSettles(s: State, a: Id, slug: string, tier: Option<string>, t: Text, now: int)
    requires E.Classify(s, a, slug, tier, t, now).Ok? && !E.CategoryOf(slug).value.hasExpiry
    ensures a in s.assets
    ensures var (s', reply) := E.Classify(s, a, slug, tier, t, now).value;
            Settles(s, s', a, reply.resolved)
  {
    hide Write, Settles, ResolveWithOrphans, OwnOpen, OrphanOpen, Cur, E.CategoryOf, E.Profile;
    var c := E.CategoryOf(slug).value;
    var v := E.ClassificationValue(c, if tier.Some? then tier.value else c.defaultTier);
    WriteLogs(s, a, Classification, v, User, Accepted, [], now);
    var s1 := Write(s, a, Classification, v, User, Accepted, [], now);
    WriteLogs(s1, a, ExpiryDate, Null, User, Accepted, [], now);
    var s2 := if Cur(s1, a, ExpiryDate).Some? then Write(s1, a, ExpiryDate, Null, User, Accepted, [], now) else s1;
    WrittenThenResolved(s, s2, a);
  }

  // ----- assertions -----

  /** Every reachable expiry assertion is typed and grounded. */
  lemma ExpiryIsGrounded(s: State, t: Text, i: nat)
    requires Sound(t.alphabet) && Reachable(s, t) && i < |s.rows|
    requires Active(s.rows[i]) && s.rows[i].field == ExpiryDate
    ensures var row := s.rows[i];
            match row.state
            case Accepted => row.source == User && (row.value == Null || E.HasValidDate(row.value, t.spellings)) && CitedOk(s, row)
            case NeedsEvidence => row.source != User && row.value == E.Unknown
            case Proposed => row.source == Deterministic && E.HasValidDate(row.value, t.spellings) && Grounded(s, t, row)
            case _ => false
  {
    ReachableInvariant(s, t);
    hide Reachable, TaskInv, JournalInv, ColumnInv, MergeInv, Grounded, CitedOk, E.HasValidDate;
    assert RowOk(s, t, s.rows[i]);
  }

  /** A date in the future is never on record as an opening date. */
  lemma OpenedDateIsPast(s: State, t: Text, i: nat)
    requires Sound(t.alphabet) && Reachable(s, t) && i < |s.rows|
    requires Active(s.rows[i]) && s.rows[i].field == OpenedDate
    ensures var v := s.rows[i].value;
            v == Null || (v.Str? && exists d: Day :: PrintDate(d) == v.s && DateLe(d, s.clock))
  {
    ReachableInvariant(s, t);
    hide Reachable, TaskInv, JournalInv, ColumnInv, MergeInv;
    assert RowOk(s, t, s.rows[i]);
    var v := s.rows[i].value;
    if v.Str? {
      CanonicalExactly(v.s, t.spellings);
    }
  }

  /** One active row per pair; the newest-active and newest-accepted classification readers agree, whatever the timestamps. */
  lemma ReadersAgree(s: State, t: Text, a: Id, i: nat, j: nat)
    requires Sound(t.alphabet) && Reachable(s, t)
    ensures var rows := s.rows;
            && (NewestActive(rows, a, Classification, i) <==> NewestAccepted(rows, a, Classification, i))
            && (NewestActive(rows, a, Classification, i) ==> E.CategoryIn(rows[i].value).Some?)
            && (i < |rows| && j < |rows| && Active(rows[i]) && Active(rows[j]) && On(rows[j], rows[i].asset, rows[i].field)
                ==> i == j)
  {
    ReachableInvariant(s, t);
    hide Reachable, TaskInv, JournalInv, ColumnInv, MergeInv;
    ReadersWellDefined(s.rows, a, Classification, i);
    if NewestActive(s.rows, a, Classification, i) {
      assert RowOk(s, t, s.rows[i]);
    }
    if i < |s.rows| && j < |s.rows| && Active(s.rows[i]) && Active(s.rows[j]) && On(s.rows[j], s.rows[i].asset, s.rows[i].field) {
      SingleActive(s.rows, i, j);
    }
  }

  /** The category table lookup of manual entry cannot fail in a reachable state. */
  lemma CategoryLookupSucceeds(s: State, t: Text, a: Id, entry: Json, ids: seq<Id>, now: int)
    requires Sound(t.alphabet) && Reachable(s, t) && a in s.assets
    ensures E.StoreManualExpiry(s, a, entry, ids, now) != Err(E.MissingCategoryKey)
    ensures E.StoreManualExpiry(s, a, entry, ids, now) == Err(E.NotClassified)
            <==> Cur(s, a, Classification).None?
  {
    ReachableInvariant(s, t);
    hide Reachable, TaskInv, JournalInv, ColumnInv, MergeInv, Write, ResolveWithOrphans, OwnOpen, OrphanOpen,
         E.CategoryIn;
    ClassificationReads(s, t, a);
    hide RowInv, Cur;
  }

  lemma ClassificationReads(s: State, t: Text, a: Id)
    requires RowInv(s, t)
    ensures Cur(s, a, Classification).Some? ==> E.CategoryIn(Cur(s, a, Classification).value.value).Some?
  {
    var p := Latest(s.rows, a, Classification);
    if p.Some? {
      assert RowOk(s, t, s.rows[p.value]);
    }
  }

  // ----- the journal -----

  /** Replaying the write events yields each active plugin assertion, and events match plugin rows one to one. */
  lemma JournalIsComplete(s: State, t: Text, a: Id, f: Field)
    requires Sound(t.alphabet) && Reachable(s, t) && PluginField(f)
    ensures var events := PluginWrites(s.audit);
            && ((a, f) in Replay(events) <==> Cur(s, a, f).Some?)
            && (Cur(s, a, f).Some? ==> Replay(events)[(a, f)] == (Cur(s, a, f).value.value, Cur(s, a, f).value.state))
            && |events| == |PluginRows(s.rows)|
            && forall k | 0 <= k < |events| :: Journals(events[k], s.rows, PluginRows(s.rows)[k])
  {
    ReachableInvariant(s, t);
    hide Reachable, RowInv, TaskInv, ColumnInv, MergeInv, Journals, Latest, Current;
  }

  /** Repeating a write changes nothing and returns the same row. */
  lemma RepeatedWrite(s: State, a: Id, f: Field, v: Json, source: Source, st: ReviewState,
                      evidence: seq<Id>, now: int, source': Source, evidence': seq<Id>, now': int)
    requires a in s.assets && st != Superseded && st != Rejected
    ensures var s1 := Write(s, a, f, v, source, st, evidence, now);
            && Write(s1, a, f, v, source', st, evidence', now') == s1
            && WrittenRow(s1, a, f, v, st) == WrittenRow(s, a, f, v, st)
  {
  }

  // ----- the asset row -----

  /** Any accepted assertion on a core field is the only one and holds the column's value. */
  lemma AcceptedIsColumn(s: State, a: Id, c: CoreField, i: nat)
    requires Shape(s.rows) && a in s.assets && a in s.born && Agrees(s, a, c)
    requires i < |s.rows| && On(s.rows[i], a, Core(c)) && s.rows[i].state == Accepted
    ensures s.rows[i].value == s.assets[a].columns.Get(c)
    ensures forall j | 0 <= j < |s.rows| && On(s.rows[j], a, Core(c)) && s.rows[j].state == Accepted :: j == i
  {
    LatestIs(s.rows, a, Core(c), i);
    forall j | 0 <= j < |s.rows| && On(s.rows[j], a, Core(c)) && s.rows[j].state == Accepted ensures j == i {
      SingleActive(s.rows, i, j);
    }
  }

  /** At most one accepted assertion, equal to the column; with no assertion, the creation value. */
  ghost predicate Materialised(s: State, a: Id, c: CoreField)
    requires a in s.assets && a in s.born
  {
    var rows, column := s.rows, s.assets[a].columns.Get(c);
    && (forall i | 0 <= i < |rows| && On(rows[i], a, Core(c)) && rows[i].state == Accepted ::
          && rows[i].value == column
          && forall j | 0 <= j < |rows| && On(rows[j], a, Core(c)) && rows[j].state == Accepted :: j == i)
    && ((forall i | 0 <= i < |rows| :: !On(rows[i], a, Core(c))) ==> column == s.born[a].Get(c))
  }

  lemma AgreesIsMaterialised(s: State, a: Id, c: CoreField)
    requires Shape(s.rows) && a in s.assets && a in s.born && Agrees(s, a, c)
    ensures Materialised(s, a, c)
  {
    forall i | 0 <= i < |s.rows| && On(s.rows[i], a, Core(c)) && s.rows[i].state == Accepted
      ensures s.rows[i].value == s.assets[a].columns.Get(c)
      ensures forall j | 0 <= j < |s.rows| && On(s.rows[j], a, Core(c)) && s.rows[j].state == Accepted :: j == i
    {
      AcceptedIsColumn(s, a, c, i);
    }
  }

  /** The asset row is a view of its assertions and its version counts its journalled writes. */
  lemma AssetRowIsView(s: State, t: Text, a: Id, c: CoreField)
    requires Sound(t.alphabet) && Reachable(s, t) && a in s.assets
    ensures && a in s.born && Materialised(s, a, c)
            && s.assets[a].version == 1 + Writes(AssetEvents(s.audit), a)
  {
    ReachableInvariant(s, t);
    hide Reachable, TaskInv, JournalInv, MergeInv, Shape, AssetEvents, Writes, Materialised;
    AgreesIsMaterialised(s, a, c);
  }

  // ----- merges -----

  /** Redirects are acyclic and end, within the number of merges performed, at an asset of the household without one. */
  lemma RedirectsTerminate(s: State, t: Text, a: Id)
    requires Sound(t.alphabet) && Reachable(s, t) && a in s.assets
    ensures var w := Follow(s, a, Merges(AssetEvents(s.audit)));
            && w in s.assets && HouseholdOf(s, w) == HouseholdOf(s, a) && Redirect(s, w).None?
            && (Redirect(s, a).Some? ==> IsMerged(s, a) && forall k: nat | k > 0 :: Follow(s, a, k) != a)
  {
    ReachableInvariant(s, t);
    hide Reachable, RowInv, TaskInv, JournalInv, ColumnInv, MergedAt, Redirect, AssetEvents;
    if MergedAt(s, a).Some? {
      Cardinality(Since(s, MergedAt(s, a).value), Redirected(s));
    }
    RedirectsEnd(s, a, Merges(AssetEvents(s.audit)));
    RedirectHasRow(s);
    assert RedirectOk(s, a);
    if Redirect(s, a).Some? {
      forall k: nat | k > 0 ensures Follow(s, a, k) != a {
        NoCycle(s, a, k);
      }
    }
  }

  /** A new asset of one household. */
  function New(a: Id): Op { CreateAsset(a, "home", map[], [], 0) }

  // Three of them; then the first is merged into the second, and that into the third.
  function ThreeAssets(day: Day, t: Text): State {
    Step(Step(Step(Runs.Initial(day), New("x"), t), New("y"), t), New("z"), t)
  }

  function Chain(day: Day, t: Text): State {
    Step(Step(ThreeAssets(day, t), Op.MergeAsset("x", "y", 0), t), Op.MergeAsset("y", "z", 0), t)
  }

  lemma NewAsset(s: State, a: Id, t: Text)
    requires Fresh(s, a)
    ensures var s' := Step(s, New(a), t);
            && s'.assets.Keys == s.assets.Keys + {a} && (forall b | b in s.assets :: s'.assets[b] == s.assets[b])
            && HouseholdOf(s', a) == "home" && s'.assets[a].columns.status == Str("ACTIVE")
            && s'.tasks == s.tasks && s'.candidates == s.candidates
  {
    hide A.SuppliedRows, A.NameRow, A.ResolveName;
  }

  lemma ThreeAssetsReached(day: Day, t: Text)
    ensures var s := ThreeAssets(day, t);
            && Reachable(s, t)
            && forall a | a in {"x", "y", "z"} ::
                 a in s.assets && HouseholdOf(s, a) == "home" && s.assets[a].columns.status == Str("ACTIVE")
  {
    var s0 := Runs.Initial(day);
    var s1 := Step(s0, New("x"), t);
    var s2 := Step(s1, New("y"), t);
    assert IsInitial(s0);
    NewAsset(s0, "x", t);
    hide Step, Reachable;
    NewAsset(s1, "y", t);
    NewAsset(s2, "z", t);
    RunsExtend(s0, New("x"), t);
    RunsExtend(s1, New("y"), t);
    RunsExtend(s2, New("z"), t);
  }

  lemma MergeStep(s: State, a: Id, winner: Id, t: Text)
    requires A.Merge(s, a, winner, 0).Ok?
    ensures Step(s, Op.MergeAsset(a, winner, 0), t) == A.Merge(s, a, winner, 0).value
  {
    hide A.Merge;
  }

  lemma TwoRedirects(s: State, x: Id, y: Id, z: Id)
    requires Follow(s, x, 1) == y && Redirect(s, y) == Some(z) && x != y
    ensures Follow(s, x, 2) == z
  {
    hide Redirect;
    assert Follow(s, y, 1) == z;
    if Redirect(s, x).Some? {
      assert Follow(s, x, 1) == Follow(s, Redirect(s, x).value, 0);
    }
  }

  /** From the empty catalogue, three assets and two merges make a chain of two. */
  lemma ChainReached(day: Day, t: Text)
    requires Sound(t.alphabet)
    ensures var s := Chain(day, t);
            && Reachable(s, t)
            && Follow(s, "x", 1) == "y" && Redirect(s, "y") == Some("z") && Follow(s, "x", 2) == "z"
  {
    var s := ThreeAssets(day, t);
    ThreeAssetsReached(day, t);
    RunsExtend(s, Op.MergeAsset("x", "y", 0), t);
    RunsExtend(Step(s, Op.MergeAsset("x", "y", 0), t), Op.MergeAsset("y", "z", 0), t);
    ReachableInvariant(s, t);
    InvariantRows(s, t);
    hide Step, Reachable, ThreeAssets, Invariant, RowInv, Redirect, Follow;
    ChainWitness(s, t, "x", "y", "z", 0);
    MergeStep(s, "x", "y", t);
    MergeStep(Step(s, Op.MergeAsset("x", "y", 0), t), "y", "z", t);
    TwoRedirects(Chain(day, t), "x", "y", "z");
  }

  // ----- evidence links -----

  /** Attaching depends on which ids are asked for, not on their order or repetition, and adds nothing twice. */
  lemma AttachLinks(s: State, a: Id, ids: seq<Id>, ids': seq<Id>)
    requires a in s.assets && forall e :: e in ids <==> e in ids'
    ensures var links := A.Attach(s, a, ids).value.links;
            && links == A.Attach(s, a, ids').value.links
            && (forall l :: l in links <==> l in s.links || (l.0 == a && l.1 in ids && l.1 in s.evidence))
            && A.Attach(A.Attach(s, a, ids).value, a, ids').value.links == links
  {
    forall s': State, x: seq<Id> | s'.evidence == s.evidence && s'.assets == s.assets && (forall e :: e in x <==> e in ids)
      ensures forall l :: l in A.Attach(s', a, x).value.links <==> l in s'.links || (l.0 == a && l.1 in ids && l.1 in s.evidence)
    {
      AttachedExactly(s', a, x);
    }
  }

  lemma AttachedExactly(s: State, a: Id, ids: seq<Id>)
    requires a in s.assets
    ensures forall l :: l in A.Attach(s, a, ids).value.links <==> l in s.links || (l.0 == a && l.1 in ids && l.1 in s.evidence)
  {
    forall l: (Id, Id) | l.0 == a && l.1 in ids && l.1 in s.evidence ensures l in A.Attach(s, a, ids).value.links {
      assert l.1 in A.Insertable(s, ids) && l == (a, l.1);
    }
  }

  // ----- what extraction may lose -----

  /** A user's accepted date survives an extraction result exactly when the result does not ask for evidence. */
  lemma ExtractionOverwrites(s: State, t: Text, a: Id, needsEvidence: bool, now: int)
    requires RowInv(s, t) && a in s.assets
    requires Cur(s, a, ExpiryDate).Some? && Cur(s, a, ExpiryDate).value.state == Accepted
    ensures Cur(KeepReply(s, E.Extract(s, a, needsEvidence, now)), a, ExpiryDate) == Cur(s, a, ExpiryDate) <==> !needsEvidence
  {
    hide RowInv, Latest, Current, Write, OwnOpen;
    WriteWrote(s, t, a, ExpiryDate, E.Unknown, Extraction, NeedsEvidence, [], now);
  }

  // ----- optimistic concurrency -----

  /** Of two updates that expect the same version, only the first succeeds. */
  lemma StaleVersionFails(s: State, a: Id, household: Id, p: A.Payload, p': A.Payload, expected: nat, now: int, now': int)
    requires A.Patch(s, a, household, p, Some(expected), now).Ok?
    ensures A.Patch(A.Patch(s, a, household, p, Some(expected), now).value, a, household, p', Some(expected), now')
            == Err(A.VersionMismatch)
  {
    var data := A.Given(p);
    FieldsKeepVersion(s, a, data, A.UpdateOrder, now);
    hide A.SetFields, A.LegalTransition, A.Given, A.Get;
  }

  lemma {:induction false} FieldsKeepVersion(s: State, a: Id, p: A.Payload, order: seq<CoreField>, now: int)
    requires a in s.assets
    ensures var asset := A.SetFields(s, a, p, order, now).assets[a];
            asset.version == s.assets[a].version && asset.household == s.assets[a].household
  {
    if order != [] {
      hide FirstAccepted, Replace;
      FieldsKeepVersion(s, a, p, order[..|order| - 1], now);
    }
  }

  // ----- what single operations leave -----

  /** An update sets exactly the supplied columns of its asset, and counts once. */
  lemma UpdateSetsExactly(s: State, a: Id, p: A.Payload, now: int)
    requires a in s.assets && A.Update(s, a, p, now).Ok?
    ensures var s' := A.Update(s, a, p, now).value;
            && s'.assets.Keys == s.assets.Keys && s'.assets[a].version > s.assets[a].version
            && (forall c :: s'.assets[a].columns.Get(c) == if c in p then p[c] else s.assets[a].columns.Get(c))
            && forall b | b in s.assets && b != a :: s'.assets[b] == s.assets[b]
  {
    FieldsSet(s, a, p, A.UpdateOrder, now);
    FieldsKeepVersion(s, a, p, A.UpdateOrder, now);
    assert forall c: CoreField :: c in A.UpdateOrder by {
      assert A.UpdateOrder[0] == DisplayName && A.UpdateOrder[1] == AssetType && A.UpdateOrder[2] == Quantity;
      assert A.UpdateOrder[3] == Unit && A.UpdateOrder[4] == Condition && A.UpdateOrder[5] == Status;
    }
    hide A.SetFields, A.Get;
  }

  /** An update may break the redirects and nothing else, and does so exactly when it takes a redirected asset out of MERGED. */
  lemma UpdateKeepsExactly(s: State, t: Text, a: Id, p: A.Payload, now: int)
    requires Sound(t.alphabet) && Invariant(s, t) && a in s.assets && A.Update(s, a, p, now).Ok?
    ensures var s' := A.Update(s, a, p, now).value;
            OutsideMerges(s', t) && (Invariant(s', t) <==> KeepsMerged(s, a, p))
  {
    hide RowInv, TaskInv, JournalInv, ColumnInv, ServiceOnly, A.Update;
    var s' := A.Update(s, a, p, now).value;
    UpdateKeeps(s, t, a, p, now);
    UpdateServiceOnly(s, t, a, p, now);
    ServiceKeepsTasks(s, s');
    ServiceKeepsJournal(s, s');
    UpdateColumns(s, t, a, p, now);
    UpdateRedirects(s, t, a, p, now);
  }

  lemma UpdateRedirects(s: State, t: Text, a: Id, p: A.Payload, now: int)
    requires RowInv(s, t) && MergeInv(s) && a in s.assets && A.Update(s, a, p, now).Ok?
    ensures MergeInv(A.Update(s, a, p, now).value) <==> KeepsMerged(s, a, p)
  {
    hide RowInv, MergeInv, MergedAt, A.Update;
    if KeepsMerged(s, a, p) {
      KeepsIsStays(s, a, p);
      UpdateMerges(s, t, a, p, now);
    } else {
      UpdateUnmerges(s, t, a, p, now);
    }
  }

  lemma KeepsIsStays(s: State, a: Id, p: A.Payload)
    requires a in s.assets
    ensures KeepsMerged(s, a, p) <==> (Status in p ==> StaysMerged(s, a, Status, p[Status]))
  {
  }

  /** The lifecycle check of the update route allows no such payload. */
  lemma LegalKeepsMerged(s: State, t: Text, a: Id, p: A.Payload)
    requires Invariant(s, t) && a in s.assets && (Status in p ==> A.LegalTransition(s.assets[a].columns.status, p[Status]))
    ensures KeepsMerged(s, a, p)
  {
    hide RowInv, TaskInv, JournalInv, ColumnInv, MergeInv, A.LegalTransition;
    KeepsIsStays(s, a, p);
    if Status in p { LegalStaysMerged(s, a, p[Status]); }
  }

  /** Out of MERGED with the redirect still stored. */
  lemma UpdateUnmerges(s: State, t: Text, a: Id, p: A.Payload, now: int)
    requires RowInv(s, t) && a in s.assets && A.Update(s, a, p, now).Ok? && !KeepsMerged(s, a, p)
    ensures !MergeInv(A.Update(s, a, p, now).value)
  {
    var s' := A.Update(s, a, p, now).value;
    UpdateSetsExactly(s, a, p, now);
    SetFieldsMergedAt(s, t, a, p, A.UpdateOrder, now);
    assert s'.assets[a].columns.Get(Status) == p[Status];
    hide A.SetFields, Latest, RowInv;
    assert s'.rows == A.SetFields(s, a, p, A.UpdateOrder, now).rows;
    assert !RedirectOk(s', a);
  }

  lemma {:induction false} FieldsSet(s: State, a: Id, p: A.Payload, order: seq<CoreField>, now: int)
    requires a in s.assets
    ensures var s' := A.SetFields(s, a, p, order, now);
            && s'.assets.Keys == s.assets.Keys
            && (forall c :: s'.assets[a].columns.Get(c) == if c in order && c in p then p[c] else s.assets[a].columns.Get(c))
            && forall b | b in s.assets && b != a :: s'.assets[b] == s.assets[b]
  {
    if order != [] {
      hide FirstAccepted, Replace;
      var n := |order| - 1;
      FieldsSet(s, a, p, order[..n], now);
      assert forall c :: c in order <==> c in order[..n] || c == order[n];
    }
  }

  lemma {:induction false} SameTextRows(s: State, s': State, a: Id, rows: seq<Observation>)
    requires s'.links == s.links
    ensures E.TextRows(s', a, rows) == E.TextRows(s, a, rows)
  {
    if rows != [] {
      SameTextRows(s, s', a, rows[..|rows| - 1]);
    }
  }

  /** The date a classification proposes: none for documents, else the first one observed. */
  function Proposable(s: State, a: Id, slug: string, t: Text): Option<(string, Id)> {
    if slug == "documents_other" then None else E.Observed(s, a, t)
  }

  /** What a category with dates leaves: an accepted date kept, else the proposable one, else the unknown one. */
  ghost predicate Dated(before: Option<Row>, after: Option<Row>, proposable: Option<(string, Id)>, t: Text) {
    if E.HasValidDate(E.AcceptedValue(before), t.spellings) then after == before
    else if proposable.Some?
    then after.Some? && after.value.state == Proposed && after.value.value == E.ProposedValue(proposable.value.0)
    else after.Some? && after.value.state == NeedsEvidence && after.value.value == E.Unknown
  }

  /** What a category without dates leaves: nothing where nothing was, else an accepted null. */
  ghost predicate Undated(before: Option<Row>, after: Option<Row>) {
    if before.None? then after.None? else after.Some? && after.value.state == Accepted && after.value.value == Null
  }

  lemma DatedOutcome(s: State, t: Text, a: Id, slug: string, now: int)
    requires RowInv(s, t) && a in s.assets
    ensures var s' := E.ClassifyDated(s, a, slug, t, now).0;
            && Dated(Cur(s, a, ExpiryDate), Cur(s', a, ExpiryDate), Proposable(s, a, slug, t), t)
            && Cur(s', a, Classification) == Cur(s, a, Classification)
  {
    hide RowInv, Write, Latest, Current, OwnOpen, E.Observed, E.HasValidDate;
    WriteWrote(s, t, a, ExpiryDate, E.Unknown, Deterministic, NeedsEvidence, [], now);
    assert Cur(Write(s, a, ExpiryDate, E.Unknown, Deterministic, NeedsEvidence, [], now), a, Classification)
        == Cur(s, a, Classification);
    if E.Observed(s, a, t).Some? {
      var (date, e) := E.Observed(s, a, t).value;
      WriteWrote(s, t, a, ExpiryDate, E.ProposedValue(date), Deterministic, Proposed, [e], now);
    }
  }

  lemma UndatedOutcome(s: State, t: Text, a: Id, now: int)
    requires RowInv(s, t) && a in s.assets
    ensures var s' := E.ClassifyUndated(s, a, now).0;
            Undated(Cur(s, a, ExpiryDate), Cur(s', a, ExpiryDate)) && Cur(s', a, Classification) == Cur(s, a, Classification)
  {
    hide RowInv, Write, Latest, Current, OwnOpen, OrphanOpen;
    WriteWrote(s, t, a, ExpiryDate, Null, User, Accepted, [], now);
    assert Cur(Write(s, a, ExpiryDate, Null, User, Accepted, [], now), a, Classification) == Cur(s, a, Classification);
  }

  lemma SameProposable(s: State, s': State, a: Id, slug: string, t: Text)
    requires s'.links == s.links && s'.observations == s.observations
    ensures Proposable(s', a, slug, t) == Proposable(s, a, slug, t)
  {
    SameTextRows(s, s', a, s.observations);
  }

  /** The accepted classification names this category, with this tier when it has tiers. */
  ghost predicate Classified(row: Option<Row>, c: E.Category, tier: string) {
    && row.Some? && row.value.state == Accepted && E.CategoryIn(row.value.value) == Some(c)
    && "profile" in row.value.value.fields && row.value.value.fields["profile"].Obj?
    && "notification_tier" in row.value.value.fields["profile"].fields
    && row.value.value.fields["profile"].fields["notification_tier"] == if c.tiers == map[] then Null else Str(tier)
  }

  lemma ClassificationIs(row: Row, c: E.Category, tier: string)
    requires E.CategoryOf(c.slug) == Some(c) && (c.tiers != map[] ==> tier in c.tiers)
    requires row.state == Accepted && row.value == E.ClassificationValue(c, tier)
    ensures Classified(Some(row), c, tier)
  {
    hide E.CategoryOf;
  }

  /** Classifying stores the category with the asked or default tier, and settles the date by its kind. */
  lemma ClassifyOutcome(s: State, t: Text, a: Id, slug: string, tier: Option<string>, now: int)
    requires RowInv(s, t) && Sound(t.alphabet) && E.Classify(s, a, slug, tier, t, now).Ok?
    ensures var c, s' := E.CategoryOf(slug).value, E.Classify(s, a, slug, tier, t, now).value.0;
            var before, after := Cur(s, a, ExpiryDate), Cur(s', a, ExpiryDate);
            && Classified(Cur(s', a, Classification), c, if tier.Some? then tier.value else c.defaultTier)
            && (if c.hasExpiry then Dated(before, after, Proposable(s, a, slug, t), t) else Undated(before, after))
  {
    hide RowInv, Write, Cur, Dated, Undated, Classified, Proposable, E.CategoryOf, E.ClassificationValue, E.ClassifyDated,
         E.ClassifyUndated;
    var c := E.CategoryOf(slug).value;
    var v := E.ClassificationValue(c, if tier.Some? then tier.value else c.defaultTier);
    var s1 := Write(s, a, Classification, v, User, Accepted, [], now);
    ClassifiedFirst(s, t, a, c, if tier.Some? then tier.value else c.defaultTier, now);
    SameProposable(s, s1, a, slug, t);
    if c.hasExpiry {
      DatedOutcome(s1, t, a, slug, now);
    } else {
      UndatedOutcome(s1, t, a, now);
    }
  }

  lemma ClassifiedFirst(s: State, t: Text, a: Id, c: E.Category, tier: string, now: int)
    requires RowInv(s, t) && a in s.assets && E.CategoryOf(c.slug) == Some(c) && (c.tiers != map[] ==> tier in c.tiers)
    ensures var s1 := Write(s, a, Classification, E.ClassificationValue(c, tier), User, Accepted, [], now);
            && RowInv(s1, t) && s1.assets == s.assets && s1.links == s.links && s1.observations == s.observations
            && Cur(s1, a, ExpiryDate) == Cur(s, a, ExpiryDate) && Classified(Cur(s1, a, Classification), c, tier)
  {
    hide E.CategoryOf, E.Profile, RowInv, Classified, Latest, Current;
    var v := E.ClassificationValue(c, tier);
    ClassificationKeeps(s, t, a, c, v, now);
    WriteWrote(s, t, a, Classification, v, User, Accepted, [], now);
    ClassificationIs(Cur(Write(s, a, Classification, v, User, Accepted, [], now), a, Classification).value, c, tier);
  }

  /** A successful manual entry leaves the entered form as the asset's accepted date. */
  lemma ManualEntryOutcome(s: State, t: Text, a: Id, payload: map<string, Json>, cited: Option<seq<Id>>, now: int)
    requires RowInv(s, t) && E.EnterExpiry(s, a, payload, cited, t, now).Ok?
    ensures var after := Cur(E.EnterExpiry(s, a, payload, cited, t, now).value.0, a, ExpiryDate);
            && after.Some? && after.value.state == Accepted && after.value.value.Obj?
            && "expiry_date" in after.value.value.fields
            && after.value.value.fields["expiry_date"] == E.Lookup(payload, "expiry_date", "date")
  {
    E.ManualEntryExactly(payload, t);
    hide RowInv, Write, Latest, Current, OwnOpen, OrphanOpen, E.CategoryIn, E.CheckCited, E.ParseManualEntry, E.Lookup;
    var entry := E.ParseManualEntry(payload, t).value;
    WriteWrote(s, t, a, ExpiryDate, entry, User, Accepted, if cited.Some? then cited.value else [], now);
  }

  /** Clearing leaves an accepted null where a date was, and nothing where none was. */
  lemma ClearOutcome(s: State, t: Text, a: Id, now: int)
    requires RowInv(s, t) && E.ClearExpiry(s, a, now).Ok?
    ensures Undated(Cur(s, a, ExpiryDate), Cur(E.ClearExpiry(s, a, now).value.0, a, ExpiryDate))
  {
    hide RowInv, Write, Latest, Current, OwnOpen, E.CategoryIn;
    WriteWrote(s, t, a, ExpiryDate, Null, User, Accepted, [], now);
  }
}
