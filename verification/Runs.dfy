/** Runs of the catalogue: any interleaving of both services' operations and of other modules' inserts. */
module Runs {
  import opened Prelude
  import opened Dates
  import opened DateScanner
  import opened AssertionStore
  import opened CatalogueState
  import E = ExpirySteps
  import A = AssetSteps

  datatype Op =
    // asset service
    | CreateAsset(a: Id, household: Id, payload: A.Payload, evidence: seq<Id>, now: int)
    | UpdateAsset(a: Id, payload: A.Payload, now: int)
    | PatchAsset(a: Id, household: Id, payload: A.Payload, ifMatch: Option<nat>, now: int)
    | ArchiveAsset(a: Id, household: Id, now: int)
    | MergeAsset(a: Id, winner: Id, now: int)
    | AttachEvidence(a: Id, evidence: seq<Id>)
    // expiry tracker
    | Classify(a: Id, slug: string, tier: Option<string>, now: int)
    | Extract(a: Id, needsEvidence: bool, now: int)
    | EnterExpiry(a: Id, entry: map<string, Json>, cited: Option<seq<Id>>, now: int)
    | ClearExpiry(a: Id, now: int)
    | EnterOpened(a: Id, value: Json, now: int)
    | ClearOpened(a: Id, now: int)
    | Extend(a: Id, attributes: seq<(string, Json)>, now: int)
    // other modules and time
    | AddEvidence(e: Id, household: Id)
    | Observe(observation: Observation)
    | SetCandidates(candidates: seq<Candidate>)
    | OpenOther(task: Task)
    | Tick(day: Day)

  /** New uuids name nothing that exists. */
  predicate Fresh(s: State, a: Id) {
    && a !in s.assets
    && (forall t | t in s.tasks :: t.subject != a)
    && (forall c | c in s.candidates :: c.id != a)
  }

  /** The service-level update may be given any payload that does not take a redirected asset out of MERGED. */
  predicate KeepsMerged(s: State, a: Id, p: A.Payload) {
    Latest(s.rows, a, MergedInto).Some? && Status in p ==> p[Status] == A.MERGED
  }

  /** Operations that insert or change no asset, row or own task. */
  predicate IsOther(op: Op) {
    op.AttachEvidence? || op.AddEvidence? || op.Observe? || op.SetCandidates? || op.OpenOther? || op.Tick?
  }

  /** The expiry tracker's operations. */
  predicate IsPlugin(op: Op) {
    op.Classify? || op.Extract? || op.EnterExpiry? || op.ClearExpiry? || op.EnterOpened? || op.ClearOpened? || op.Extend?
  }

  /** The asset service's operations on an existing asset. */
  predicate IsService(op: Op) { op.UpdateAsset? || op.PatchAsset? || op.ArchiveAsset? || op.MergeAsset? }

  function Keep(s: State, r: A.Outcome): State { if r.Ok? then r.value else s }

  function KeepReply(s: State, r: E.Outcome): State { if r.Ok? then r.value.0 else s }

  /** One operation; a failed one is rolled back. `now` stamps rows and need not increase. */
  function Step(s: State, op: Op, t: Text): State {
    match op
    case CreateAsset(a, household, payload, evidence, now) =>
      if Fresh(s, a) then Keep(s, A.Create(s, a, household, payload, evidence, t, now)) else s
    case UpdateAsset(a, payload, now) =>
      if a in s.assets && KeepsMerged(s, a, payload) then Keep(s, A.Update(s, a, payload, now)) else s
    case PatchAsset(a, household, payload, ifMatch, now) => Keep(s, A.Patch(s, a, household, payload, ifMatch, now))
    case ArchiveAsset(a, household, now) => Keep(s, A.Archive(s, a, household, now))
    case MergeAsset(a, winner, now) => Keep(s, A.Merge(s, a, winner, now))
    case Classify(a, slug, tier, now) => KeepReply(s, E.Classify(s, a, slug, tier, t, now))
    case Extract(a, needsEvidence, now) => KeepReply(s, E.Extract(s, a, needsEvidence, now))
    case EnterExpiry(a, entry, cited, now) => KeepReply(s, E.EnterExpiry(s, a, entry, cited, t, now))
    case ClearExpiry(a, now) => KeepReply(s, E.ClearExpiry(s, a, now))
    case EnterOpened(a, value, now) => KeepReply(s, E.EnterOpened(s, a, value, t, now))
    case ClearOpened(a, now) => KeepReply(s, E.ClearOpened(s, a, now))
    case Extend(a, attributes, now) => KeepReply(s, E.Extend(s, a, attributes, now))
    case _ => OtherStep(s, op)
  }

  function OtherStep(s: State, op: Op): State
    requires IsOther(op)
  {
    match op
    case AttachEvidence(a, evidence) => Keep(s, A.Attach(s, a, evidence))
    case AddEvidence(e, household) => if e in s.evidence then s else s.(evidence := s.evidence[e := household])
    case Observe(o) => s.(observations := s.observations + [o])
    case SetCandidates(cs) => if exists c | c in cs :: c.id in s.assets then s else s.(candidates := cs)
    case OpenOther(task) =>
      if task.taskType == ManualEntry && task.subject in s.assets then s else s.(tasks := s.tasks + [task])
    case Tick(day) => if DateLe(s.clock, day) then s.(clock := day) else s
  }

  function Initial(day: Day): State {
    State(map[], map[], [], [], [], {}, map[], [], [], day)
  }

  ghost predicate IsInitial(s: State) { exists day :: s == Initial(day) }

  ghost predicate StepOf(s: State, op: Op, t: Text, s': State) { s' == Step(s, op, t) }

  /** The states a run passes through, from an empty catalogue. */
  ghost predicate IsRun(states: seq<State>, ops: seq<Op>, t: Text) {
    && |states| == |ops| + 1 && IsInitial(states[0])
    && forall k | 0 <= k < |ops| :: StepOf(states[k], ops[k], t, states[k + 1])
  }

  /** Some run ends in this state. */
  ghost predicate Reachable(s: State, t: Text) {
    exists states, ops :: IsRun(states, ops, t) && states[|ops|] == s
  }
}
