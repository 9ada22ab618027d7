/** The catalogue's tables as one value: assets, assertions, review tasks, audit log, evidence links. */
module CatalogueState {
  import opened Prelude
  import opened Dates
  import opened DateScanner
  import opened AssertionStore

  datatype Columns = Columns(
    displayName: Json, assetType: Json, status: Json, quantity: Json, unit: Json, condition: Json)
  {
    function Get(c: CoreField): Json {
      match c
      case DisplayName => displayName
      case AssetType => assetType
      case Status => status
      case Quantity => quantity
      case Unit => unit
      case Condition => condition
    }

    function With(c: CoreField, v: Json): (r: Columns)
      ensures forall c' :: r.Get(c') == if c' == c then v else Get(c')
    {
      match c
      case DisplayName => this.(displayName := v)
      case AssetType => this.(assetType := v)
      case Status => this.(status := v)
      case Quantity => this.(quantity := v)
      case Unit => this.(unit := v)
      case Condition => this.(condition := v)
    }
  }

  datatype Asset = Asset(household: Id, columns: Columns, version: nat)

  datatype TaskType = ManualEntry | OtherTask(name: string)
  datatype TaskStatus = Open | Resolved
  /** A review task; its id is its position. */
  datatype Task = Task(taskType: TaskType, subject: Id, household: Id, status: TaskStatus)

  /** An import candidate; `evidence` is None when its stored list does not parse. */
  datatype Candidate = Candidate(id: Id, household: Id, split: bool, evidence: Option<seq<Id>>)

  datatype AssetAction =
    | Created
    | ReviewAccepted
    | Updated(before: nat)
    | Merged(before: nat, into: Id)
    | Archived
    | Attached(evidence: seq<Id>)

  datatype Event =
    | PluginWrite(row: nat, asset: Id, field: Field, previous: Option<ReviewState>, state: ReviewState, value: Json, household: Id)
    | UpsertWrite(row: nat, field: Field, previous: Option<ReviewState>, value: Json, household: Id)
    | TaskResolve(task: nat, before: TaskStatus, asset: Id, household: Id)
    | AssetEvent(asset: Id, action: AssetAction, household: Id)

  datatype State = State(
    assets: map<Id, Asset>,
    born: map<Id, Columns>,            // each asset's columns when it was created
    rows: seq<Row>,
    tasks: seq<Task>,
    audit: seq<Event>,
    links: set<(Id, Id)>,              // asset, evidence
    evidence: map<Id, Id>,             // evidence, household
    observations: seq<Observation>,
    candidates: seq<Candidate>,
    clock: Day)

  /** Python text behaviour the model leaves open, plus the filename namer of another module. */
  datatype Text = Text(
    alphabet: Alphabet,
    spellings: Spellings,
    fold: string -> string,            // strip and lower-case
    blank: string -> bool,             // nothing left after strip
    namer: seq<Id> -> string)

  function HouseholdOf(s: State, a: Id): Id
    requires a in s.assets
  {
    s.assets[a].household
  }

  function Cur(s: State, a: Id, f: Field): Option<Row> { Current(s.rows, a, f) }

  // ----- the plugin's writer -----

  /** Rewriting the active value in the same review state is a no-op. */
  predicate AlreadyWritten(s: State, a: Id, f: Field, v: Json, st: ReviewState) {
    var c := Cur(s, a, f);
    c.Some? && c.value.state == st && c.value.value == v
  }

  /** `_write_assertion`. The audit row is built after the previous row was retired. */
  function Write(
    s: State, a: Id, f: Field, v: Json, source: Source, st: ReviewState, evidence: seq<Id>, now: int): State
    requires a in s.assets
  {
    if AlreadyWritten(s, a, f, v, st) then s
    else
      var p := Latest(s.rows, a, f);
      s.(rows := Replace(s.rows, p, Row(a, f, v, source, st, evidence, now)),
         audit := s.audit + [PluginWrite(|s.rows|, a, f, if p.Some? then Some(Superseded) else None, st, v, HouseholdOf(s, a))])
  }

  /** The row `_write_assertion` returns. */
  function WrittenRow(s: State, a: Id, f: Field, v: Json, st: ReviewState): nat {
    if AlreadyWritten(s, a, f, v, st) then Latest(s.rows, a, f).value else |s.rows|
  }

  // ----- the asset service's writer -----

  /** `upsert_assertion`. */
  function Upsert(s: State, a: Id, f: Field, v: Json, now: int): State
    requires a in s.assets
  {
    var p := FirstAccepted(s.rows, a, f);
    s.(rows := Replace(s.rows, p, Row(a, f, v, User, Accepted, [], now)),
       audit := s.audit + [UpsertWrite(|s.rows|, f, if p.Some? then Some(Superseded) else None, v, HouseholdOf(s, a))])
  }

  // ----- review tasks -----

  predicate OpenManual(t: Task, subjects: set<Id>, household: Id) {
    t.taskType == ManualEntry && t.status == Open && t.subject in subjects && t.household == household
  }

  /** The open manual-entry tasks on some subjects in one household, in row order. */
  function QueryOpen(tasks: seq<Task>, subjects: set<Id>, household: Id): (r: seq<nat>)
    ensures NoRepeats(r)
    ensures forall k | 0 <= k < |r| :: r[k] < |tasks|
    ensures forall i :: i in r <==> 0 <= i < |tasks| && OpenManual(tasks[i], subjects, household)
  {
    if tasks == [] then []
    else
      var n := |tasks| - 1;
      var r := QueryOpen(tasks[..n], subjects, household);
      if OpenManual(tasks[n], subjects, household) then r + [n] else r
  }

  function Resolve(tasks: seq<Task>, who: seq<nat>): (r: seq<Task>)
    ensures |r| == |tasks|
    ensures forall i | 0 <= i < |tasks| :: r[i] == if i in who then tasks[i].(status := Resolved) else tasks[i]
  {
    seq(|tasks|, i requires 0 <= i < |tasks| => if i in who then tasks[i].(status := Resolved) else tasks[i])
  }

  /** `xs` without the elements of `ys`. */
  function Without(xs: seq<nat>, ys: seq<nat>): (r: seq<nat>)
    requires NoRepeats(xs)
    ensures NoRepeats(r)
    ensures forall i :: i in r <==> i in xs && i !in ys
    ensures forall k | 0 <= k < |r| :: r[k] in xs
  {
    if xs == [] then []
    else
      var n := |xs| - 1;
      var r := Without(xs[..n], ys);
      assert forall i :: i in xs <==> i in xs[..n] || i == xs[n];
      if xs[n] in ys then r else r + [xs[n]]
  }

  /** Split origins of the household that share evidence with the asset. */
  function SplitOrigins(s: State, a: Id): set<Id>
    requires a in s.assets
  {
    set c | c in s.candidates && SharesEvidence(s, a, c) :: c.id
  }

  predicate SharesEvidence(s: State, a: Id, c: Candidate)
    requires a in s.assets
  {
    && c.split && c.household == HouseholdOf(s, a) && c.evidence.Some?
    && exists e | e in c.evidence.value :: (a, e) in s.links
  }

  function OwnOpen(s: State, a: Id): seq<nat>
    requires a in s.assets
  {
    QueryOpen(s.tasks, {a}, HouseholdOf(s, a))
  }

  /** The orphaned tasks of split origins, less any the asset already owns. */
  function OrphanOpen(s: State, a: Id): (r: seq<nat>)
    requires a in s.assets
    ensures NoRepeats(r)
    ensures forall k | 0 <= k < |r| :: r[k] < |s.tasks|
  {
    var open := QueryOpen(s.tasks, SplitOrigins(s, a), HouseholdOf(s, a));
    Without(open, OwnOpen(s, a))
  }

  function OrphanEvent(s: State, a: Id, i: nat): Event
    requires i < |s.tasks|
  {
    TaskResolve(i, Open, a, s.tasks[i].household)
  }

  function OrphanEvents(s: State, a: Id, orphans: seq<nat>): seq<Event>
    requires forall k | 0 <= k < |orphans| :: orphans[k] < |s.tasks|
  {
    seq(|orphans|, k requires 0 <= k < |orphans| => OrphanEvent(s, a, orphans[k]))
  }

  /** Resolve the asset's own tasks and its split origins' orphans. */
  function ResolveWithOrphans(s: State, a: Id): State
    requires a in s.assets
  {
    s.(tasks := Resolve(s.tasks, OwnOpen(s, a) + OrphanOpen(s, a)),
       audit := s.audit + OrphanEvents(s, a, OrphanOpen(s, a)))
  }
}
