/**
 * The bulk render driver as steps: a durable marker and ledger, one process at a time that may crash between
 * any two effects, and a provider whose charges may show late.
 */
module RenderProtocol {
  import opened Prelude
  import opened Dates
  import opened RenderBounds

  /** The length every run's render list must have. */
  const TOTAL: nat := 4

  datatype Sent = Pending | Settled(answered: bool)
  datatype Entry = Entry(leg: nat, sent: Sent)
  datatype Marker = Missing | Unreadable | Stored(renders: seq<Entry>)

  /** What the send's outcome says: a status code, a stated credit cost, a stated owner-side cost. */
  datatype Reply = Reply(answered: bool, cost: Option<real>, imageTokens: Option<int>, upstream: Option<real>)

  datatype Phase =
    | Idle                                             // no process
    | Started                                          // the prior marker allows a run
    | Listed                                           // fresh marker written
    | Leg(i: nat)                                      // before leg i
    | Bounded(i: nat, worst: real, cap: real)          // leg i's bound passed
    | Cleared(i: nat, worst: real, cap: real)          // its guard passed
    | Armed(i: nat, worst: real, cap: real)            // its pending entry is durable
    | InFlight(i: nat, worst: real)                    // its POST left the machine
    | Replied(i: nat, worst: real, reply: Reply)       // the POST ended; not yet in the ledger
    | Recorded(i: nat, answered: bool, stop: bool)     // outcome known; entry not yet settled

  datatype State = State(
    marker: Marker,
    ledger: seq<LedgerRow>,
    today: Day,
    daily: real,                // the provider's credit counters
    monthly: real,
    due: real,                  // stated credit charges the counters do not show yet
    creditOpen: seq<real>,      // bounds of unstated credit charges the counters do not show yet
    ownerOpen: seq<real>,       // bounds of owner-side charges no ledger row states and nothing has ruled out
    phase: Phase,
    renders: seq<Entry>,        // the process's own copy of the marker
    sends: nat,                 // POSTs that left the machine, over all runs
    answered: nat,              // POSTs that were answered, over all runs
    burned: bool)               // a POST was answered, or was in flight when its process ended

  datatype Action =
    | Start
    | WriteFresh
    | BoundList(worst: real)
    | BoundLeg(worst: real)
    | Guard
    | WritePending
    | CallRender(hasKey: bool)
    | Receive(reply: Reply)
    | Record
    | Settle
    | Finish
    | Crash
    | Corrupt                                          // the stored marker becomes unreadable
    | Land(k: nat, charge: real)                       // an unstated credit charge shows
    | LandDue(charge: real)                            // some of the stated charges show
    | NoOwner(k: nat)                                  // a send turns out to have no owner-side charge
    | Reset(daily: real, monthly: real)                // counters restart
    | Tick(day: Day)
    | OtherSpend(daily: real, monthly: real)           // other users of the account

  predicate Truthy(e: Entry) { e.sent.Pending? || e.sent.answered }

  predicate AlreadySent(m: Marker) {
    match m
    case Missing => false
    case Unreadable => true
    case Stored(renders) => exists e | e in renders :: Truthy(e)
  }

  /** The process ends, however it ends. */
  function Exit(s: State): State {
    s.(phase := Idle, renders := [], burned := s.burned || s.answered > 0 || s.phase.InFlight?)
  }

  function CapNow(s: State): real {
    Cap(s.daily, s.monthly, OwnerDay(s.ledger, s.today), OwnerMonth(s.ledger, s.today))
  }

  function ProjectionNow(s: State, worst: real, planned: nat): real {
    Projection(Known(s.ledger), Unknown(s.ledger), worst, planned)
  }

  function WriteMarker(s: State, renders: seq<Entry>): State { s.(marker := Stored(renders), renders := renders) }

  /** Bounds of earlier charges that are still to show: the open one of a POST in flight is not late yet. */
  function Late(s: State): nat { |s.creditOpen| - if s.phase.InFlight? && |s.creditOpen| > 0 then 1 else 0 }

  /** Owner-side bounds of sends that are in the ledger: the one of a POST in flight or not recorded yet is not. */
  function LateOwner(s: State): nat {
    |s.ownerOpen| - if (s.phase.InFlight? || s.phase.Replied?) && |s.ownerOpen| > 0 then 1 else 0
  }

  function Drop(s: seq<real>, k: nat): seq<real>
    requires k < |s|
  {
    s[..k] + s[k + 1..]
  }

  /** One effect; a disabled action changes nothing. */
  function Next(s: State, a: Action): State {
    match a
    case Start => if s.phase.Idle? && !AlreadySent(s.marker) then s.(phase := Started) else s
    case WriteFresh => if s.phase.Started? then WriteMarker(s, []).(phase := Listed) else s
    case BoundList(worst) =>
      if !s.phase.Listed? then s
      else if ProjectionNow(s, worst, TOTAL) > CapNow(s) then Exit(s)
      else s.(phase := Leg(0))
    case BoundLeg(worst) =>
      if !s.phase.Leg? || s.phase.i >= TOTAL then s
      else if ProjectionNow(s, worst, 1) > CapNow(s) then Exit(s)
      else s.(phase := Bounded(s.phase.i, worst, CapNow(s)))
    case Guard =>
      if !s.phase.Bounded? then s
      else if ProjectionNow(s, s.phase.worst, 1) > s.phase.cap
      then Exit(WriteMarker(s, s.renders + [Entry(s.phase.i, Settled(false))]))
      else s.(phase := Cleared(s.phase.i, s.phase.worst, s.phase.cap))
    case WritePending =>
      if !s.phase.Cleared? then s
      else WriteMarker(s, s.renders + [Entry(s.phase.i, Pending)]).(phase := Armed(s.phase.i, s.phase.worst, s.phase.cap))
    case CallRender(hasKey) =>
      if !s.phase.Armed? then s
      else if ProjectionNow(s, s.phase.worst, 1) > s.phase.cap || !hasKey then s.(phase := Recorded(s.phase.i, false, true))
      else s.(phase := InFlight(s.phase.i, s.phase.worst), sends := s.sends + 1,
              creditOpen := s.creditOpen + [s.phase.worst], ownerOpen := s.ownerOpen + [s.phase.worst])
    case Receive(reply) => if s.phase.InFlight? then ReceiveReply(s, reply) else s
    case Record => if s.phase.Replied? then RecordReply(s) else s
    case Settle =>
      if !s.phase.Recorded? || s.renders == [] then s
      else
        var n := |s.renders| - 1;
        var s1 := WriteMarker(s, s.renders[n := s.renders[n].(sent := Settled(s.phase.answered))]);
        if s.phase.stop then Exit(s1) else s1.(phase := Leg(s.phase.i + 1))
    case Finish => if s.phase.Leg? && s.phase.i >= TOTAL then Exit(s) else s
    case Crash => Exit(s)
    case Corrupt => if s.phase.Idle? && s.marker.Stored? then s.(marker := Unreadable) else s
    case Land(k, charge) =>
      if k < Late(s)
      then s.(daily := s.daily + charge, monthly := s.monthly + charge, creditOpen := Drop(s.creditOpen, k))
      else s
    case LandDue(charge) =>
      if 0.0 <= charge <= s.due
      then s.(daily := s.daily + charge, monthly := s.monthly + charge, due := s.due - charge)
      else s
    case NoOwner(k) => if k < LateOwner(s) then s.(ownerOpen := Drop(s.ownerOpen, k)) else s
    case Reset(daily, monthly) =>
      if 0.0 <= daily <= s.daily && 0.0 <= monthly <= s.monthly then s.(daily := daily, monthly := monthly) else s
    case Tick(day) => if DateLe(s.today, day) then s.(today := day) else s
    case OtherSpend(daily, monthly) =>
      if daily >= 0.0 && monthly >= 0.0 then s.(daily := s.daily + daily, monthly := s.monthly + monthly) else s
  }

  /** A stated cost is due on the counters, which may lag; a transport failure states nothing. */
  function ReceiveReply(s: State, reply: Reply): State
    requires s.phase.InFlight?
  {
    var r := if reply.answered then reply else Reply(false, None, None, None);
    var s1 := s.(phase := Replied(s.phase.i, s.phase.worst, r), answered := s.answered + if r.answered then 1 else 0);
    if r.cost.Some? && s.creditOpen != []
    then s1.(due := s.due + r.cost.value, creditOpen := s.creditOpen[..|s.creditOpen| - 1])
    else s1
  }

  /** Every POST gets one ledger row. Only an answer that states its owner-side cost closes that charge. */
  function RecordReply(s: State): State
    requires s.phase.Replied?
  {
    var r := s.phase.reply;
    s.(ledger := s.ledger + [LedgerRow(s.today, r.cost, r.imageTokens, r.upstream)],
       ownerOpen := if r.upstream.Some? && s.ownerOpen != [] then s.ownerOpen[..|s.ownerOpen| - 1] else s.ownerOpen,
       phase := Recorded(s.phase.i, r.answered, false))
  }

  function Run(s: State, actions: seq<Action>): State {
    if actions == [] then s else Next(Run(s, actions[..|actions| - 1]), actions[|actions| - 1])
  }

  lemma RunThen(s: State, actions: seq<Action>, a: Action)
    ensures Run(s, actions + [a]) == Next(Run(s, actions), a)
  {
    assert (actions + [a])[..|actions|] == actions;
  }

  lemma {:induction false} RunAppend(s: State, first: seq<Action>, second: seq<Action>)
    ensures Run(s, first + second) == Run(Run(s, first), second)
  {
    hide Next;
    if second == [] {
      assert first + second == first;
    } else {
      var n := |second| - 1;
      RunAppend(s, first, second[..n]);
      assert first + second == first + second[..n] + [second[n]];
      RunThen(s, first + second[..n], second[n]);
    }
  }

  lemma RunOne(s: State, a: Action)
    ensures Run(s, [a]) == Next(s, a)
  {
    RunThen(s, [], a);
    assert [] + [a] == [a];
  }

  lemma RunNothing(s: State)
    ensures Run(s, []) == s
  {
  }

  /**
   * Before the first run: no marker, no process, whatever was spent before. Older charges may still be to show:
   * stated ones up to the known spend, unstated credit ones up to one for each row of unknown cost, and any
   * number of owner-side ones.
   */
  ghost predicate Initial(s: State) {
    && s.marker.Missing? && s.phase.Idle? && s.renders == []
    && s.sends == 0 && s.answered == 0 && !s.burned
    && LedgerOk(s.ledger, s.today) && s.daily >= 0.0 && s.monthly >= 0.0
    && 0.0 <= s.due <= Known(s.ledger)
    && |s.creditOpen| <= Unknown(s.ledger) && (forall k | 0 <= k < |s.creditOpen| :: s.creditOpen[k] >= 0.0)
    && (forall k | 0 <= k < |s.ownerOpen| :: s.ownerOpen[k] >= 0.0)
  }
}
