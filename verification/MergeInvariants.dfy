/** Merge redirects never form a cycle: each points at an asset that was merged later, or never. */
module MergeInvariants {
  import opened Prelude
  import opened DateScanner
  import opened AssertionStore
  import opened CatalogueState
  import opened Runs
  import opened RowInvariants
  import opened Frames
  import A = AssetSteps

  /** The row that redirects an asset. */
  function MergedAt(s: State, a: Id): Option<nat> { Latest(s.rows, a, MergedInto) }

  /** The winner a stored redirect names. */
  function Target(v: Json): Option<Id> {
    if v.Obj? && "merged_into" in v.fields && v.fields["merged_into"].Str? then Some(v.fields["merged_into"].s) else None
  }

  function Redirect(s: State, a: Id): Option<Id> {
    match Cur(s, a, MergedInto)
    case Some(row) => Target(row.value)
    case None => None
  }

  predicate IsMerged(s: State, a: Id)
    requires a in s.assets
  {
    s.assets[a].columns.status == A.MERGED
  }

  predicate IsMerge(e: Event) { e.AssetEvent? && e.action.Merged? }

  function Merges(events: seq<Event>): nat {
    if events == [] then 0
    else
      var n := |events| - 1;
      Merges(events[..n]) + if IsMerge(events[n]) then 1 else 0
  }

  lemma MergesThen(events: seq<Event>, e: Event)
    ensures Merges(events + [e]) == Merges(events) + if IsMerge(e) then 1 else 0
  {
    assert (events + [e])[..|events|] == events;
  }

  function Redirected(s: State): set<Id> { set a | a in s.assets && MergedAt(s, a).Some? }

  ghost predicate RedirectOk(s: State, a: Id)
    requires a in s.assets
  {
    MergedAt(s, a).Some? ==>
      && Redirect(s, a).Some?
      && var w := Redirect(s, a).value;
         && w in s.assets && w != a && HouseholdOf(s, w) == HouseholdOf(s, a)
         && IsMerged(s, a)
         && (MergedAt(s, w).Some? ==> MergedAt(s, a).value < MergedAt(s, w).value)
  }

  ghost predicate MergeInv(s: State) {
    && (forall a | a in s.assets :: RedirectOk(s, a))
    && |Redirected(s)| <= Merges(AssetEvents(s.audit))
  }

  // ----- steps that redirect nothing -----

  /** Redirects, households and the MERGED status of redirected assets are as before. */
  ghost predicate SameRedirects(s: State, s': State) {
    && s'.assets.Keys == s.assets.Keys
    && Merges(AssetEvents(s'.audit)) == Merges(AssetEvents(s.audit))
    && (forall a :: MergedAt(s', a) == MergedAt(s, a) && Redirect(s', a) == Redirect(s, a))
    && (forall a | a in s.assets :: HouseholdOf(s', a) == HouseholdOf(s, a))
    && (forall a | a in s.assets && MergedAt(s, a).Some? && IsMerged(s, a) :: IsMerged(s', a))
  }

  lemma SameRedirectsThen(s: State, s1: State, s2: State)
    requires SameRedirects(s, s1) && SameRedirects(s1, s2)
    ensures SameRedirects(s, s2)
  {
    hide MergedAt, Redirect;
  }

  lemma SameRedirectsKeep(s: State, s': State)
    requires MergeInv(s) && SameRedirects(s, s')
    ensures MergeInv(s')
  {
    hide Latest, Target, Redirect, MergedAt;
    forall a | a in s'.assets ensures RedirectOk(s', a) {
      assert RedirectOk(s, a);
    }
    assert Redirected(s') == Redirected(s);
  }

  lemma PluginKeepsMerges(s: State, s': State)
    requires MergeInv(s) && PluginOnly(s, s')
    ensures MergeInv(s')
  {
    SameRedirectsKeep(s, s');
  }

  lemma OthersKeepMerges(s: State, s': State)
    requires MergeInv(s) && OtherOnly(s, s')
    ensures MergeInv(s')
  {
    if AssetEvents(s'.audit) != AssetEvents(s.audit) {
      var b, e :| b in s.assets && AssetEvents(s'.audit) == AssetEvents(s.audit) + [AssetEvent(b, Attached(e), HouseholdOf(s, b))];
      MergesThen(AssetEvents(s.audit), AssetEvent(b, Attached(e), HouseholdOf(s, b)));
    }
    SameRedirectsKeep(s, s');
  }

  /** A status write must not take a redirected asset out of MERGED. */
  predicate StaysMerged(s: State, a: Id, c: CoreField, v: Json)
    requires a in s.assets
  {
    c == Status && v != A.MERGED ==> MergedAt(s, a).None?
  }

  lemma UpsertRedirects(s: State, t: Text, a: Id, c: CoreField, v: Json, now: int)
    requires RowInv(s, t) && a in s.assets
    ensures SameRedirects(s, Upsert(s, a, Core(c), v, now))
  {
    ServiceFieldAccepted(s, t, a, Core(c));
    UpsertView(s, a, Core(c), v, now);
    UpsertEvents(s, a, Core(c), v, now);
    hide RowInv, FirstAccepted, Latest, Current, Merges, AssetEvents, Target;
  }

  lemma SetColumnRedirects(s: State, a: Id, c: CoreField, v: Json)
    requires a in s.assets && StaysMerged(s, a, c, v)
    ensures SameRedirects(s, A.SetColumn(s, a, c, v))
  {
  }

  /** Setting a column redirects nothing; only `a`'s own column moves. */
  lemma SetFieldRedirects(s: State, t: Text, a: Id, c: CoreField, v: Json, now: int)
    requires RowInv(s, t) && a in s.assets && StaysMerged(s, a, c, v)
    ensures var s' := A.SetField(s, a, c, v, now);
            && SameRedirects(s, s') && |s'.rows| == |s.rows| + 1
            && (forall b | b in s.assets && b != a :: s'.assets[b] == s.assets[b])
            && s'.assets[a].columns.status == if c == Status then v else s.assets[a].columns.status
  {
    var s1 := A.SetColumn(s, a, c, v);
    SetColumnKeeps(s, t, a, c, v);
    hide RowInv, SameRedirects;
    SetColumnRedirects(s, a, c, v);
    UpsertRedirects(s1, t, a, c, v, now);
    SameRedirectsThen(s, s1, A.SetField(s, a, c, v, now));
  }

  lemma {:induction false} SetFieldsRedirects(s: State, t: Text, a: Id, p: A.Payload, order: seq<CoreField>, now: int)
    requires RowInv(s, t) && a in s.assets && (Status in p ==> StaysMerged(s, a, Status, p[Status]))
    ensures var s' := A.SetFields(s, a, p, order, now);
            SameRedirects(s, s') && (Status in p ==> StaysMerged(s', a, Status, p[Status]))
  {
    if order != [] {
      hide RowInv, SameRedirects, A.SetField;
      var n := |order| - 1;
      var s1 := A.SetFields(s, a, p, order[..n], now);
      SetFieldsRedirects(s, t, a, p, order[..n], now);
      SetFieldsKeep(s, t, a, p, order[..n], now);
      if order[n] in p {
        SetFieldRedirects(s1, t, a, order[n], p[order[n]], now);
        SameRedirectsThen(s, s1, A.SetField(s1, a, order[n], p[order[n]], now));
      }
    }
  }

  lemma BumpRedirects(s: State, a: Id, action: AssetAction)
    requires a in s.assets && !action.Merged?
    ensures SameRedirects(s, A.Bump(s, a, action))
  {
    var e := AssetEvent(a, action, s.assets[a].household);
    LogOne(s.audit, e);
    MergesThen(AssetEvents(s.audit), e);
  }

  lemma UpdateMerges(s: State, t: Text, a: Id, p: A.Payload, now: int)
    requires RowInv(s, t) && MergeInv(s) && a in s.assets && (Status in p ==> StaysMerged(s, a, Status, p[Status]))
    ensures MergeInv(Keep(s, A.Update(s, a, p, now)))
  {
    hide RowInv, MergeInv, SameRedirects, A.SetFields, A.Bump;
    SetFieldsRedirects(s, t, a, p, A.UpdateOrder, now);
    var s1 := A.SetFields(s, a, p, A.UpdateOrder, now);
    SameRedirectsKeep(s, s1);
    BumpRedirects(s1, a, Updated(s.assets[a].version));
    SameRedirectsKeep(s1, A.Bump(s1, a, Updated(s.assets[a].version)));
  }

  /** No column write moves the asset's own redirect, whatever it sets. */
  lemma {:induction false} SetFieldsMergedAt(s: State, t: Text, a: Id, p: A.Payload, order: seq<CoreField>, now: int)
    requires RowInv(s, t) && a in s.assets
    ensures MergedAt(A.SetFields(s, a, p, order, now), a) == MergedAt(s, a)
  {
    if order != [] {
      hide RowInv, MergedAt, Redirect, Merges, AssetEvents, Upsert;
      var n := |order| - 1;
      var s1 := A.SetFields(s, a, p, order[..n], now);
      SetFieldsMergedAt(s, t, a, p, order[..n], now);
      SetFieldsKeep(s, t, a, p, order[..n], now);
      if order[n] in p {
        SetColumnKeeps(s1, t, a, order[n], p[order[n]]);
        UpsertRedirects(A.SetColumn(s1, a, order[n], p[order[n]]), t, a, order[n], p[order[n]], now);
        SameRows(s1, A.SetColumn(s1, a, order[n], p[order[n]]), a);
      }
    }
  }

  lemma SameRows(s: State, s': State, a: Id)
    requires s'.rows == s.rows
    ensures MergedAt(s', a) == MergedAt(s, a)
  {
  }

  /** The lifecycle table lets nothing leave MERGED. */
  lemma MergedIsTerminal(requested: Json)
    requires A.LegalTransition(A.MERGED, requested)
    ensures requested == A.MERGED
  {
  }

  /** So no legal transition takes a redirected asset out of MERGED. */
  lemma LegalStaysMerged(s: State, a: Id, requested: Json)
    requires MergeInv(s) && a in s.assets && A.LegalTransition(s.assets[a].columns.status, requested)
    ensures StaysMerged(s, a, Status, requested)
  {
    hide A.LegalTransition, MergedAt, Redirect;
    assert RedirectOk(s, a);
    if IsMerged(s, a) { MergedIsTerminal(requested); }
  }

  lemma PatchMerges(s: State, t: Text, a: Id, household: Id, p: A.Payload, ifMatch: Option<nat>, now: int)
    requires RowInv(s, t) && MergeInv(s)
    ensures MergeInv(Keep(s, A.Patch(s, a, household, p, ifMatch, now)))
  {
    hide RowInv, MergeInv, A.Update, A.LegalTransition;
    if A.Patch(s, a, household, p, ifMatch, now).Ok? {
      var data := A.Given(p);
      if Status in data { LegalStaysMerged(s, a, data[Status]); }
      UpdateMerges(s, t, a, data, now);
    }
  }

  lemma ArchiveMerges(s: State, t: Text, a: Id, household: Id, now: int)
    requires RowInv(s, t) && MergeInv(s)
    ensures MergeInv(Keep(s, A.Archive(s, a, household, now)))
  {
    if A.Archive(s, a, household, now).Ok? {
      LegalStaysMerged(s, a, Str("ARCHIVED"));
      hide RowInv, MergeInv, SameRedirects, A.LegalTransition, A.SetField, A.Bump;
      var s1 := A.SetField(s, a, Status, Str("ARCHIVED"), now);
      SetFieldRedirects(s, t, a, Status, Str("ARCHIVED"), now);
      SameRedirectsKeep(s, s1);
      BumpRedirects(s1, a, Archived);
      SameRedirectsKeep(s1, A.Bump(s1, a, Archived));
    }
  }

  // ----- the merge -----

  /** One new redirect of an asset already marked MERGED, newer than every other. */
  ghost predicate NewRedirect(s: State, s': State, a: Id, winner: Id) {
    && s'.assets.Keys == s.assets.Keys && a in s.assets && IsMerged(s', a)
    && (forall b | b in s.assets :: HouseholdOf(s', b) == HouseholdOf(s, b))
    && (forall b | b in s.assets && MergedAt(s, b).Some? && IsMerged(s, b) :: IsMerged(s', b))
    && MergedAt(s', a).Some? && MergedAt(s', a).value >= |s.rows| && Redirect(s', a) == Some(winner)
    && (forall b | b != a :: MergedAt(s', b) == MergedAt(s, b) && Redirect(s', b) == Redirect(s, b))
    && Merges(AssetEvents(s'.audit)) == Merges(AssetEvents(s.audit)) + 1
  }

  /** The redirect's own row. */
  lemma RedirectRow(s: State, t: Text, a: Id, winner: Id, now: int)
    requires RowInv(s, t) && a in s.assets
    ensures var s' := Upsert(s, a, MergedInto, A.MergeTarget(winner), now);
            && s'.assets == s.assets && AssetEvents(s'.audit) == AssetEvents(s.audit)
            && MergedAt(s', a) == Some(|s.rows|) && Redirect(s', a) == Some(winner)
            && forall b | b != a :: MergedAt(s', b) == MergedAt(s, b) && Redirect(s', b) == Redirect(s, b)
  {
    ServiceFieldAccepted(s, t, a, MergedInto);
    UpsertView(s, a, MergedInto, A.MergeTarget(winner), now);
    UpsertEvents(s, a, MergedInto, A.MergeTarget(winner), now);
    hide RowInv, FirstAccepted, Latest, AssetEvents;
  }

  lemma RedirectEffect(s: State, t: Text, a: Id, winner: Id, before: nat, now: int)
    requires RowInv(s, t) && a in s.assets && IsMerged(s, a)
    ensures NewRedirect(s, A.Bump(Upsert(s, a, MergedInto, A.MergeTarget(winner), now), a, Merged(before, winner)), a, winner)
  {
    hide RowInv, Upsert, AssetEvents, Merges, Latest, Current;
    RedirectRow(s, t, a, winner, now);
    var s1 := Upsert(s, a, MergedInto, A.MergeTarget(winner), now);
    var e := AssetEvent(a, Merged(before, winner), s1.assets[a].household);
    LogOne(s1.audit, e);
    MergesThen(AssetEvents(s1.audit), e);
  }

  lemma SameThenNew(s: State, s1: State, s2: State, a: Id, winner: Id)
    requires SameRedirects(s, s1) && |s1.rows| >= |s.rows| && NewRedirect(s1, s2, a, winner)
    ensures NewRedirect(s, s2, a, winner)
  {
    hide MergedAt, Redirect, Merges, AssetEvents;
  }

  /** A merge marks the status, writes the redirect and bumps the version. */
  lemma MergeParts(s: State, a: Id, winner: Id, now: int)
    requires A.Merge(s, a, winner, now).Ok?
    ensures a in s.assets && a in A.SetField(s, a, Status, A.MERGED, now).assets
    ensures var s1 := A.SetField(s, a, Status, A.MERGED, now);
            A.Merge(s, a, winner, now).value
            == A.Bump(Upsert(s1, a, MergedInto, A.MergeTarget(winner), now), a, Merged(s.assets[a].version, winner))
  {
    hide A.LegalTransition, FirstAccepted, Replace;
  }

  /** What a successful merge leaves. */
  lemma MergeEffect(s: State, t: Text, a: Id, winner: Id, now: int)
    requires RowInv(s, t) && A.Merge(s, a, winner, now).Ok?
    ensures NewRedirect(s, A.Merge(s, a, winner, now).value, a, winner)
    ensures forall b | b in s.assets && b != a :: A.Merge(s, a, winner, now).value.assets[b] == s.assets[b]
  {
    MergeGuards(s, a, winner, now);
    MergeParts(s, a, winner, now);
    hide RowInv, A.Merge, A.SetField, Upsert, SameRedirects, NewRedirect, MergedAt, Redirect, A.LegalTransition;
    var s1, s2 := A.SetField(s, a, Status, A.MERGED, now), A.Merge(s, a, winner, now).value;
    SetFieldRedirects(s, t, a, Status, A.MERGED, now);
    SetFieldKeeps(s, t, a, Status, A.MERGED, now);
    SameKeys(s, s1);
    RedirectEffect(s1, t, a, winner, s.assets[a].version, now);
    SameThenNew(s, s1, s2, a, winner);
    OthersUntouched(s1, a, winner, s.assets[a].version, now);
  }

  lemma OthersUntouched(s: State, a: Id, winner: Id, before: nat, now: int)
    requires a in s.assets
    ensures var s' := A.Bump(Upsert(s, a, MergedInto, A.MergeTarget(winner), now), a, Merged(before, winner));
            s'.assets.Keys == s.assets.Keys && forall b | b in s.assets && b != a :: s'.assets[b] == s.assets[b]
  {
  }

  lemma SameKeys(s: State, s': State)
    requires SameRedirects(s, s')
    ensures s'.assets.Keys == s.assets.Keys
  {
  }

  lemma NewRedirectOk(s: State, s': State, a: Id, winner: Id, b: Id)
    requires MergeInv(s) && NewRedirect(s, s', a, winner) && b in s'.assets
    requires winner in s.assets && winner != a && HouseholdOf(s, winner) == HouseholdOf(s, a)
    requires !IsMerged(s, winner) && !IsMerged(s, a)
    ensures RedirectOk(s', b)
  {
    assert forall x :: MergedAt(s, x).Some? ==> MergedAt(s, x).value < |s.rows|;
    hide MergedAt, Redirect, Merges, AssetEvents;
    assert RedirectOk(s, winner) && RedirectOk(s, a) && RedirectOk(s, b);
  }

  lemma NewRedirectKeeps(s: State, s': State, a: Id, winner: Id)
    requires MergeInv(s) && NewRedirect(s, s', a, winner)
    requires winner in s.assets && winner != a && HouseholdOf(s, winner) == HouseholdOf(s, a)
    requires !IsMerged(s, winner) && !IsMerged(s, a)
    ensures MergeInv(s')
  {
    hide MergedAt, Redirect, Merges, AssetEvents, RedirectOk;
    forall b | b in s'.assets ensures RedirectOk(s', b) {
      NewRedirectOk(s, s', a, winner, b);
    }
    assert Redirected(s') == Redirected(s) + {a};
  }

  lemma MergeMerges(s: State, t: Text, a: Id, winner: Id, now: int)
    requires RowInv(s, t) && MergeInv(s)
    ensures MergeInv(Keep(s, A.Merge(s, a, winner, now)))
  {
    if A.Merge(s, a, winner, now).Ok? {
      MergeGuards(s, a, winner, now);
      hide RowInv, MergeInv, NewRedirect, A.Merge;
      MergeEffect(s, t, a, winner, now);
      NewRedirectKeeps(s, A.Merge(s, a, winner, now).value, a, winner);
    }
  }

  lemma MergeGuards(s: State, a: Id, winner: Id, now: int)
    requires A.Merge(s, a, winner, now).Ok?
    ensures a in s.assets && winner in s.assets && winner != a && HouseholdOf(s, winner) == HouseholdOf(s, a)
    ensures !IsMerged(s, winner) && !IsMerged(s, a) && s.assets[a].columns.status == Str("ACTIVE")
  {
  }

  lemma CreatedRedirect(s: State, t: Text, a: Id, household: Id, p: A.Payload, evidence: seq<Id>, now: int, b: Id)
    requires RowInv(s, t) && Fresh(s, a) && A.Create(s, a, household, p, evidence, t, now).Ok?
    ensures var s' := A.Create(s, a, household, p, evidence, t, now).value;
            MergedAt(s', b) == MergedAt(s, b) && Redirect(s', b) == Redirect(s, b)
  {
    CreatedShape(a, p, evidence, t, now);
    hide RowInv, A.Create, CreatedRows, Latest, Current, Target, Shape;
    CreateView(s, t, a, household, p, evidence, now);
  }

  lemma CreateRedirects(s: State, t: Text, a: Id, household: Id, p: A.Payload, evidence: seq<Id>, now: int)
    requires RowInv(s, t) && Fresh(s, a) && A.Create(s, a, household, p, evidence, t, now).Ok?
    ensures var s' := A.Create(s, a, household, p, evidence, t, now).value;
            && s'.assets.Keys == s.assets.Keys + {a} && (forall b | b in s.assets :: s'.assets[b] == s.assets[b])
            && (forall b :: MergedAt(s', b) == MergedAt(s, b) && Redirect(s', b) == Redirect(s, b))
            && MergedAt(s, a).None?
            && Merges(AssetEvents(s'.audit)) == Merges(AssetEvents(s.audit))
  {
    assert a !in s.assets;
    FreshPair(s, t, a, MergedInto);
    hide *;
    CreateAssets(s, t, a, household, p, evidence, now);
    NoMerge(s, a);
    CreationMerges(s, t, a, household, p, evidence, now);
    forall b { CreatedRedirect(s, t, a, household, p, evidence, now, b); }
  }

  lemma NoMerge(s: State, a: Id)
    ensures MergedAt(s, a).None? <==> Latest(s.rows, a, MergedInto).None?
  {
  }

  lemma CreateAssets(s: State, t: Text, a: Id, household: Id, p: A.Payload, evidence: seq<Id>, now: int)
    requires a !in s.assets && A.Create(s, a, household, p, evidence, t, now).Ok?
    ensures var s' := A.Create(s, a, household, p, evidence, t, now).value;
            s'.assets.Keys == s.assets.Keys + {a} && forall b | b in s.assets :: s'.assets[b] == s.assets[b]
  {
    hide A.Create, A.InitialColumns;
    CreateTables(s, t, a, household, p, evidence, now);
  }

  lemma CreationMerges(s: State, t: Text, a: Id, household: Id, p: A.Payload, evidence: seq<Id>, now: int)
    requires RowInv(s, t) && Fresh(s, a) && A.Create(s, a, household, p, evidence, t, now).Ok?
    ensures Merges(AssetEvents(A.Create(s, a, household, p, evidence, t, now).value.audit)) == Merges(AssetEvents(s.audit))
  {
    hide *;
    CreateFrames(s, t, a, household, p, evidence, now);
    CreationMergesNothing(AssetEvents(s.audit), a, household);
  }

  lemma CreationMergesNothing(es: seq<Event>, a: Id, household: Id)
    ensures Merges(es + [AssetEvent(a, Created, household), AssetEvent(a, ReviewAccepted, household)]) == Merges(es)
  {
    var e1, e2 := AssetEvent(a, Created, household), AssetEvent(a, ReviewAccepted, household);
    MergesThen(es, e1);
    MergesThen(es + [e1], e2);
    assert es + [e1, e2] == es + [e1] + [e2];
  }

  lemma CreateMerges(s: State, t: Text, a: Id, household: Id, p: A.Payload, evidence: seq<Id>, now: int)
    requires RowInv(s, t) && MergeInv(s) && Fresh(s, a)
    ensures MergeInv(Keep(s, A.Create(s, a, household, p, evidence, t, now)))
  {
    hide RowInv, A.Create, Redirect, MergedAt, Latest, Fresh;
    if A.Create(s, a, household, p, evidence, t, now).Ok? {
      var s' := A.Create(s, a, household, p, evidence, t, now).value;
      CreateRedirects(s, t, a, household, p, evidence, now);
      forall b | b in s'.assets ensures RedirectOk(s', b) {
        if b != a { assert RedirectOk(s, b); }
      }
      assert Redirected(s') == Redirected(s);
    }
  }

  lemma ServiceOpMerges(s: State, op: Op, t: Text)
    requires RowInv(s, t) && MergeInv(s) && IsService(op)
    ensures MergeInv(Step(s, op, t))
  {
    hide RowInv, MergeInv, A.Update, A.Patch, A.Archive, A.Merge;
    match op {
      case UpdateAsset(a, payload, now) =>
        if a in s.assets && KeepsMerged(s, a, payload) { UpdateMerges(s, t, a, payload, now); }
      case PatchAsset(a, household, payload, ifMatch, now) => PatchMerges(s, t, a, household, payload, ifMatch, now);
      case ArchiveAsset(a, household, now) => ArchiveMerges(s, t, a, household, now);
      case MergeAsset(a, winner, now) => MergeMerges(s, t, a, winner, now);
    }
  }

  lemma StepKeepsMerges(s: State, op: Op, t: Text)
    requires RowInv(s, t) && MergeInv(s) && Sound(t.alphabet)
    ensures MergeInv(Step(s, op, t))
  {
    hide RowInv, MergeInv, PluginOnly, OtherOnly, OtherStep, A.Create, Fresh;
    if IsOther(op) {
      OtherFrames(s, op);
      OthersKeepMerges(s, OtherStep(s, op));
    } else if IsService(op) {
      ServiceOpMerges(s, op, t);
    } else if IsPlugin(op) {
      PluginStep(s, op, t);
      PluginKeepsMerges(s, Step(s, op, t));
    } else if Fresh(s, op.a) {
      CreateMerges(s, t, op.a, op.household, op.payload, op.evidence, op.now);
    }
  }

  // ----- following redirects -----

  /** Redirected assets whose redirect is at least as recent as row `i`. */
  function Since(s: State, i: nat): set<Id> {
    set a | a in s.assets && MergedAt(s, a).Some? && MergedAt(s, a).value >= i
  }

  /** The asset `k` redirects away, stopping at an asset without one. */
  function Follow(s: State, a: Id, k: nat): Id
    decreases k
  {
    if k == 0 || Redirect(s, a).None? then a else Follow(s, Redirect(s, a).value, k - 1)
  }

  /** A later redirect leaves strictly fewer redirects after it. */
  lemma SinceShrinks(s: State, a: Id, j: nat)
    requires a in s.assets && MergedAt(s, a).Some? && MergedAt(s, a).value < j
    ensures |Since(s, j)| < |Since(s, MergedAt(s, a).value)|
  {
    hide MergedAt;
    var i := MergedAt(s, a).value;
    assert a in Since(s, i);
    assert Since(s, j) <= Since(s, i) - {a};
    Cardinality(Since(s, j), Since(s, i) - {a});
  }

  lemma SinceSelf(s: State, a: Id)
    requires a in s.assets && MergedAt(s, a).Some?
    ensures |Since(s, MergedAt(s, a).value)| > 0
  {
    hide MergedAt;
    assert a in Since(s, MergedAt(s, a).value);
  }

  /** Following at most as many redirects as merges were performed reaches an asset of the household that has none. */
  lemma {:induction false} RedirectsEnd(s: State, a: Id, k: nat)
    requires MergeInv(s) && a in s.assets
    requires MergedAt(s, a).Some? ==> k >= |Since(s, MergedAt(s, a).value)|
    ensures var w := Follow(s, a, k);
            w in s.assets && HouseholdOf(s, w) == HouseholdOf(s, a) && Redirect(s, w).None?
    decreases k
  {
    assert RedirectOk(s, a);
    if MergedAt(s, a).Some? {
      hide MergedAt, Redirect, Since;
      var w := Redirect(s, a).value;
      SinceSelf(s, a);
      if MergedAt(s, w).Some? {
        SinceShrinks(s, a, MergedAt(s, w).value);
      }
      RedirectsEnd(s, w, k - 1);
    }
  }

  lemma Cardinality<T>(x: set<T>, y: set<T>)
    requires x <= y
    ensures |x| <= |y|
  {
    var z := y - x;
    assert y == x + z;
  }

  /** No redirect chain returns to where it started. */
  lemma {:induction false} NoCycle(s: State, a: Id, k: nat)
    requires MergeInv(s) && a in s.assets && Redirect(s, a).Some? && k > 0
    ensures Follow(s, a, k) != a
    ensures Follow(s, a, k) in s.assets
    ensures MergedAt(s, Follow(s, a, k)).Some? ==> MergedAt(s, Follow(s, a, k)).value > MergedAt(s, a).value
    decreases k
  {
    assert RedirectOk(s, a);
    var w := Redirect(s, a).value;
    assert RedirectOk(s, w);
    if k > 1 && Redirect(s, w).Some? {
      NoCycle(s, w, k - 1);
      assert RedirectOk(s, Follow(s, w, k - 1));
    }
  }

  // ----- the claim that there are no redirect chains -----

  /** Every redirect points at an asset without one. */
  ghost predicate NoChains(s: State) {
    forall a | a in s.assets && Redirect(s, a).Some? :: Redirect(s, Redirect(s, a).value).None?
  }

  /** A merge keeps redirects one deep exactly when the merged asset is nobody's winner yet. */
  lemma ChainsExactly(s: State, t: Text, a: Id, winner: Id, now: int)
    requires RowInv(s, t) && MergeInv(s) && NoChains(s) && A.Merge(s, a, winner, now).Ok?
    ensures NoChains(A.Merge(s, a, winner, now).value)
            <==> forall b | b in s.assets :: Redirect(s, b) != Some(a)
  {
    MergeGuards(s, a, winner, now);
    MergeEffect(s, t, a, winner, now);
    NewRedirectChains(s, A.Merge(s, a, winner, now).value, a, winner);
  }

  lemma NewRedirectChains(s: State, s': State, a: Id, winner: Id)
    requires MergeInv(s) && NoChains(s) && NewRedirect(s, s', a, winner) && winner in s.assets && winner != a
    requires !IsMerged(s, winner) && !IsMerged(s, a)
    ensures NoChains(s') <==> forall b | b in s.assets :: Redirect(s, b) != Some(a)
  {
    RedirectHasRow(s);
    hide Redirect, MergedAt;
    assert RedirectOk(s, winner) && RedirectOk(s, a);
    if b :| b in s.assets && Redirect(s, b) == Some(a) {
      assert Redirect(s', b) == Some(a) && Redirect(s', a).Some?;
    }
  }

  lemma RedirectHasRow(s: State)
    ensures forall a :: Redirect(s, a).Some? ==> MergedAt(s, a).Some?
  {
  }

  /** Two merges in a row chain: the service does not rule that out. */
  lemma ChainWitness(s: State, t: Text, x: Id, y: Id, z: Id, now: int)
    requires RowInv(s, t) && x != y && y != z && x != z
    requires forall a | a in {x, y, z} :: a in s.assets && s.assets[a].columns.status == Str("ACTIVE")
    requires HouseholdOf(s, x) == HouseholdOf(s, y) == HouseholdOf(s, z)
    ensures A.Merge(s, x, y, now).Ok? && A.Merge(A.Merge(s, x, y, now).value, y, z, now).Ok?
    ensures Follow(A.Merge(A.Merge(s, x, y, now).value, y, z, now).value, x, 1) == y
    ensures Redirect(A.Merge(A.Merge(s, x, y, now).value, y, z, now).value, y) == Some(z)
  {
    assert x in {x, y, z} && y in {x, y, z} && z in {x, y, z};
    ActiveMerges(s, x, y, now);
    MergeEffect(s, t, x, y, now);
    MergeKeeps(s, t, x, y, now);
    hide RowInv, A.Merge, Redirect, MergedAt;
    var s1 := A.Merge(s, x, y, now).value;
    ActiveMerges(s1, y, z, now);
    MergeEffect(s1, t, y, z, now);
  }

  /** An ACTIVE asset merges into any other asset of its household that is not MERGED. */
  lemma ActiveMerges(s: State, a: Id, winner: Id, now: int)
    requires a in s.assets && winner in s.assets && a != winner && HouseholdOf(s, winner) == HouseholdOf(s, a)
    requires s.assets[a].columns.status == Str("ACTIVE") && !IsMerged(s, winner)
    ensures A.Merge(s, a, winner, now).Ok?
  {
    hide Upsert, A.SetField, A.Bump;
  }
}
