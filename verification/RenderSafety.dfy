/** What the marker protocol and the spend guard keep over all runs of the bulk render driver. */
module RenderSafety {
  import opened Prelude
  import opened Dates
  import opened RenderBounds
  import opened RenderProtocol

  // ----- the marker -----

  /** The process's entries: the current leg's is pending, every earlier one settled. */
  ghost predicate Entries(renders: seq<Entry>, settled: nat) {
    && settled <= |renders| <= settled + 1
    && (forall k | 0 <= k < settled :: renders[k].sent.Settled?)
    && (|renders| > settled ==> renders[settled].sent.Pending?)
  }

  function Answers(renders: seq<Entry>): nat {
    if renders == [] then 0
    else Answers(renders[..|renders| - 1]) + if renders[|renders| - 1].sent == Settled(true) then 1 else 0
  }

  /** Answers received but not settled in the marker yet. */
  function Unsettled(p: Phase): nat {
    if (p.Replied? && p.reply.answered) || (p.Recorded? && p.answered) then 1 else 0
  }

  ghost predicate MarkerInv(s: State) {
    && s.answered <= TOTAL
    && (s.burned ==> s.phase.Idle? && AlreadySent(s.marker))
    && (s.phase.Idle? && s.answered > 0 ==> s.burned)
    && (s.phase.Started? ==> s.answered == 0)
    && (!s.phase.Idle? && !s.phase.Started? ==>
          s.marker == Stored(s.renders) && s.answered == Answers(s.renders) + Unsettled(s.phase))
    && (s.phase.Listed? ==> s.renders == [])
    && (s.phase.Leg? || s.phase.Bounded? || s.phase.Cleared? ==>
          |s.renders| == s.phase.i <= TOTAL && Entries(s.renders, s.phase.i))
    && (s.phase.Bounded? || s.phase.Cleared? ==> s.phase.i < TOTAL)
    && (s.phase.Armed? || s.phase.InFlight? || s.phase.Replied? || s.phase.Recorded? ==>
          s.phase.i < TOTAL && |s.renders| == s.phase.i + 1 && Entries(s.renders, s.phase.i))
  }

  lemma AnswersThen(renders: seq<Entry>, e: Entry)
    ensures Answers(renders + [e]) == Answers(renders) + if e.sent == Settled(true) then 1 else 0
  {
    assert (renders + [e])[..|renders|] == renders;
  }

  lemma {:induction false} AnswersBounded(renders: seq<Entry>)
    ensures Answers(renders) <= |renders|
    ensures Answers(renders) > 0 ==> exists e | e in renders :: Truthy(e)
  {
    if renders != [] {
      var n := |renders| - 1;
      AnswersBounded(renders[..n]);
      assert renders[n] in renders && forall e | e in renders[..n] :: e in renders;
    }
  }

  /** Settling replaces the pending entry in place. */
  lemma SettledLast(renders: seq<Entry>, answered: bool)
    requires renders != [] && renders[|renders| - 1].sent.Pending?
    ensures var n := |renders| - 1;
            var renders' := renders[n := renders[n].(sent := Settled(answered))];
            && Answers(renders') == Answers(renders) + (if answered then 1 else 0)
            && Answers(renders) <= n
  {
    var n := |renders| - 1;
    var e := renders[n].(sent := Settled(answered));
    assert renders[n := e] == renders[..n] + [e] && renders == renders[..n] + [renders[n]];
    AnswersThen(renders[..n], e);
    AnswersThen(renders[..n], renders[n]);
    AnswersBounded(renders[..n]);
  }

  lemma ExitKeepsMarker(s: State)
    requires MarkerInv(s)
    ensures MarkerInv(Exit(s))
  {
    AnswersBounded(s.renders);
    if s.phase.InFlight? || (Unsettled(s.phase) > 0) {
      assert s.renders[s.phase.i] in s.renders && Truthy(s.renders[s.phase.i]);
    }
  }

  predicate IsStep(a: Action) { a.Guard? || a.WritePending? || a.CallRender? || a.Receive? || a.Record? || a.Settle? }

  lemma NextKeepsMarker(s: State, a: Action)
    requires MarkerInv(s)
    ensures MarkerInv(Next(s, a))
  {
    hide MarkerInv, Next;
    match a {
      case Guard => GuardKeepsMarker(s);
      case WritePending => PendingKeepsMarker(s);
      case CallRender(hasKey) => CallKeepsMarker(s, hasKey);
      case Receive(reply) => ReceiveKeepsMarker(s, reply);
      case Record => RecordKeepsMarker(s);
      case Settle => SettleKeepsMarker(s);
      case _ => OthersKeepMarker(s, a);
    }
  }

  lemma OthersKeepMarker(s: State, a: Action)
    requires MarkerInv(s) && !IsStep(a)
    ensures MarkerInv(Next(s, a))
  {
    ExitKeepsMarker(s);
    hide Known, Unknown, OwnerDay, OwnerMonth, Cap, Projection, ProjectionNow, CapNow, Exit, Late, LateOwner, Drop;
    if a.WriteFresh? {
      assert Answers([]) == 0;
    }
  }

  lemma GuardKeepsMarker(s: State)
    requires MarkerInv(s)
    ensures MarkerInv(Next(s, Guard))
  {
    hide ProjectionNow, Exit;
    if s.phase.Bounded? {
      RefusedExit(s, WriteMarker(s, s.renders + [Entry(s.phase.i, Settled(false))]));
    }
  }

  lemma PendingKeepsMarker(s: State)
    requires MarkerInv(s)
    ensures MarkerInv(Next(s, WritePending))
  {
    if s.phase.Cleared? {
      AnswersThen(s.renders, Entry(s.phase.i, Pending));
    }
  }

  lemma CallKeepsMarker(s: State, hasKey: bool)
    requires MarkerInv(s)
    ensures MarkerInv(Next(s, CallRender(hasKey)))
  {
    hide ProjectionNow, Answers;
  }

  lemma ReceiveKeepsMarker(s: State, reply: Reply)
    requires MarkerInv(s)
    ensures MarkerInv(Next(s, Receive(reply)))
  {
    if s.phase.InFlight? {
      SettledLast(s.renders, true);
      hide Answers;
    }
  }

  lemma RecordKeepsMarker(s: State)
    requires MarkerInv(s)
    ensures MarkerInv(Next(s, Record))
  {
    hide Answers;
  }

  lemma RefusedExit(s: State, s1: State)
    requires MarkerInv(s) && s.phase.Bounded? && s1 == WriteMarker(s, s.renders + [Entry(s.phase.i, Settled(false))])
    ensures MarkerInv(Exit(s1))
  {
    AnswersThen(s.renders, Entry(s.phase.i, Settled(false)));
    AnswersBounded(s1.renders);
  }

  lemma SettleKeepsMarker(s: State)
    requires MarkerInv(s)
    ensures MarkerInv(Next(s, Settle))
  {
    if s.phase.Recorded? {
      var n := |s.renders| - 1;
      SettledLast(s.renders, s.phase.answered);
      var s1 := WriteMarker(s, s.renders[n := s.renders[n].(sent := Settled(s.phase.answered))]);
      AnswersBounded(s1.renders);
      hide Answers;
    }
  }

  lemma {:induction false} RunKeepsMarker(s: State, actions: seq<Action>)
    requires Initial(s)
    ensures MarkerInv(Run(s, actions))
  {
    if actions != [] {
      hide Next, MarkerInv;
      var n := |actions| - 1;
      RunKeepsMarker(s, actions[..n]);
      NextKeepsMarker(Run(s, actions[..n]), actions[n]);
    } else {
      hide LedgerOk, Known, Unknown;
      assert MarkerInv(s);
    }
  }

  /** The durable entry precedes the send: while a POST is in flight the stored marker says so. */
  lemma PendingBeforeSend(s: State, actions: seq<Action>)
    requires Initial(s) && Run(s, actions).phase.InFlight?
    ensures var s1 := Run(s, actions);
            && s1.marker.Stored? && s1.phase.i < |s1.marker.renders| && s1.marker.renders[s1.phase.i].sent.Pending?
            && AlreadySent(s1.marker)
  {
    RunKeepsMarker(s, actions);
    var s1 := Run(s, actions);
    assert s1.renders[s1.phase.i] in s1.renders && Truthy(s1.renders[s1.phase.i]);
  }

  /** At most one render list is ever answered. */
  lemma AnsweredAtMostOnce(s: State, actions: seq<Action>)
    requires Initial(s)
    ensures Run(s, actions).answered <= TOTAL
  {
    RunKeepsMarker(s, actions);
  }

  lemma {:induction false} BlockedStays(s: State, actions: seq<Action>)
    requires s.phase.Idle? && AlreadySent(s.marker)
    ensures Run(s, actions).phase.Idle? && AlreadySent(Run(s, actions).marker) && Run(s, actions).sends == s.sends
  {
    if actions != [] {
      hide Next, AlreadySent;
      var n := |actions| - 1;
      BlockedStays(s, actions[..n]);
      BlockedStep(Run(s, actions[..n]), actions[n]);
    }
  }

  lemma BlockedStep(s: State, a: Action)
    requires s.phase.Idle? && AlreadySent(s.marker)
    ensures Next(s, a).phase.Idle? && AlreadySent(Next(s, a).marker) && Next(s, a).sends == s.sends
  {
    hide Known, Unknown, OwnerDay, OwnerMonth, Cap, Projection, ProjectionNow, CapNow, Late, LateOwner, Drop;
  }

  /**
   * Once a POST was answered, or was in flight when its process ended, no later invocation sends: whatever
   * follows the end of that process, the number of POSTs stays what it is.
   */
  lemma NoLaterSend(s: State, actions: seq<Action>, later: seq<Action>)
    requires Initial(s) && (Run(s, actions).answered > 0 || Run(s, actions).phase.InFlight?)
    ensures var ended := Next(Run(s, actions), Crash);
            ended.burned && Run(ended, later).sends == Run(s, actions).sends
  {
    RunKeepsMarker(s, actions);
    var s1 := Run(s, actions);
    NextKeepsMarker(s1, Crash);
    BlockedStays(Next(s1, Crash), later);
  }

  // ----- the spend -----

  function Sum(xs: seq<real>): real { if xs == [] then 0.0 else Sum(xs[..|xs| - 1]) + xs[|xs| - 1] }

  ghost predicate AtLeastZero(xs: seq<real>) { forall k | 0 <= k < |xs| :: xs[k] >= 0.0 }

  ghost predicate AtMost(xs: seq<real>, w: real) { forall k | 0 <= k < |xs| :: xs[k] <= w }

  lemma SumThen(xs: seq<real>, x: real)
    ensures Sum(xs + [x]) == Sum(xs) + x
  {
    assert (xs + [x])[..|xs|] == xs;
  }

  lemma {:induction false} SumBounds(xs: seq<real>, w: real, n: nat)
    requires AtLeastZero(xs)
    ensures Sum(xs) >= 0.0
    ensures AtMost(xs, w) && |xs| <= n && w >= 0.0 ==> Sum(xs) <= n as real * w
  {
    if xs != [] {
      SumBounds(xs[..|xs| - 1], w, if n > 0 then n - 1 else 0);
      if n > 0 {
        assert n as real * w == (n - 1) as real * w + w;
      }
    }
    if w >= 0.0 { assert n as real * w >= 0.0; }
  }

  lemma {:induction false} SumDrop(xs: seq<real>, k: nat)
    requires k < |xs|
    ensures Sum(Drop(xs, k)) == Sum(xs) - xs[k]
    ensures AtLeastZero(xs) ==> AtLeastZero(Drop(xs, k))
    ensures |Drop(xs, k)| == |xs| - 1
  {
    var n := |xs| - 1;
    if k < n {
      SumDrop(xs[..n], k);
      assert Drop(xs, k) == Drop(xs[..n], k) + [xs[n]];
      SumThen(Drop(xs[..n], k), xs[n]);
    } else {
      assert Drop(xs, k) == xs[..n];
    }
  }

  /** What each counter shows or may still come to show: credits by day and month, owner side by day and month. */
  function CreditDay(s: State): real { s.daily + s.due + Sum(s.creditOpen) }
  function CreditMonth(s: State): real { s.monthly + s.due + Sum(s.creditOpen) }
  function OwnDay(s: State): real { OwnerDay(s.ledger, s.today) + Sum(s.ownerOpen) }
  function OwnMonth(s: State): real { OwnerMonth(s.ledger, s.today) + Sum(s.ownerOpen) }

  /** Every exposure leaves room for `w` under its cap. */
  ghost predicate Room(s: State, w: real) {
    && CreditDay(s) + w <= CAP_DAILY && CreditMonth(s) + w <= CAP_MONTHLY
    && OwnDay(s) + w <= CAP_DAILY && OwnMonth(s) + w <= CAP_MONTHLY
  }

  /** Credit charges the reads cannot show each have a ledger row of unknown cost. */
  ghost predicate Covered(s: State) {
    var credit, unknown := |s.creditOpen|, Unknown(s.ledger);
    match s.phase
    case InFlight(_, _) => credit <= unknown + 1
    case Replied(_, _, r) => credit <= unknown + if r.cost.None? then 1 else 0
    case Idle => AlreadySent(s.marker) || credit <= unknown
    case _ => credit <= unknown
  }

  /** Stated charges the counters may not show yet are in the ledger's known spend. */
  ghost predicate DueKnown(s: State) {
    && s.due >= 0.0
    && match s.phase
       case Replied(_, _, r) => s.due <= Known(s.ledger) + if r.cost.Some? then r.cost.value else 0.0
       case Idle => AlreadySent(s.marker) || s.due <= Known(s.ledger)
       case _ => s.due <= Known(s.ledger)
  }

  predicate LastIs(xs: seq<real>, w: real) { xs != [] && xs[|xs| - 1] == w }

  ghost predicate ReplyOk(r: Reply, w: real) {
    && (r.cost.Some? ==> 0.0 <= r.cost.value <= w)
    && (r.upstream.Some? ==> 0.0 <= r.upstream.value <= w)
  }

  ghost predicate SpendInv(s: State) {
    && LedgerOk(s.ledger, s.today) && s.daily >= 0.0 && s.monthly >= 0.0
    && AtLeastZero(s.creditOpen) && AtLeastZero(s.ownerOpen)
    && Covered(s) && DueKnown(s)
    && (s.phase.Bounded? || s.phase.Cleared? || s.phase.Armed? ==> s.phase.worst >= 0.0 && Room(s, s.phase.worst))
    && (s.phase.InFlight? ==> LastIs(s.creditOpen, s.phase.worst) && LastIs(s.ownerOpen, s.phase.worst))
    && (s.phase.Replied? ==> LastIs(s.ownerOpen, s.phase.worst) && ReplyOk(s.phase.reply, s.phase.worst))
  }

  /** The unknown calls charged at the current worst case cover the outstanding unstated charges. */
  ghost predicate Covers(s: State, worst: real) {
    var again := Unknown(s.ledger) as real * worst;
    Sum(s.creditOpen) <= again && Sum(s.ownerOpen) <= again
  }

  /** A send charges between nothing and its leg's worst case, and nobody else spends while a leg is open. */
  ghost predicate Charged(s: State, a: Action) {
    match a
    case BoundLeg(worst) => worst >= 0.0
    case Receive(reply) => s.phase.InFlight? && reply.answered ==> ReplyOk(reply, s.phase.worst)
    case Land(k, charge) => k < Late(s) ==> 0.0 <= charge <= s.creditOpen[k]
    case OtherSpend(_, _) => s.phase.Idle? || s.phase.Started? || s.phase.Listed? || s.phase.Leg?
    case _ => true
  }

  /**
   * The environment the caps are promised for: charges are within their bounds, and at each leg the unknown
   * calls at its worst case cover what earlier sends may still charge on either side.
   */
  ghost predicate Admissible(s: State, a: Action) {
    Charged(s, a) && (a.BoundLeg? && s.phase.Leg? ==> Covers(s, a.worst))
  }

  ghost predicate AdmissibleRun(s: State, actions: seq<Action>) {
    actions == []
    || (AdmissibleRun(s, actions[..|actions| - 1]) && Admissible(Run(s, actions[..|actions| - 1]), actions[|actions| - 1]))
  }

  /**
   * While prices do not fall below an outstanding bound, and no more owner-side bounds are open than there are
   * unknown calls, these cover everything outstanding.
   */
  lemma SteadyPricesCover(s: State, worst: real)
    requires SpendInv(s) && s.phase.Leg? && worst >= 0.0 && AtMost(s.creditOpen, worst) && AtMost(s.ownerOpen, worst)
    requires |s.ownerOpen| <= Unknown(s.ledger)
    ensures Covers(s, worst)
  {
    hide Sum, Unknown, Known, LedgerOk, AtLeastZero, AtMost, DueKnown;
    SumBounds(s.creditOpen, worst, Unknown(s.ledger));
    SumBounds(s.ownerOpen, worst, Unknown(s.ledger));
  }

  /** The bound leaves room for the send and for every charge still to show. */
  lemma BoundLeavesRoom(s: State, worst: real)
    requires SpendInv(s) && s.phase.Leg? && worst >= 0.0 && Covers(s, worst)
    requires ProjectionNow(s, worst, 1) <= CapNow(s)
    ensures Room(s, worst)
  {
    hide ProjectionNow, CapNow, Sum, Known, Unknown, OwnerDay, OwnerMonth, LedgerOk, AtLeastZero, Room;
    LaterDay(s.ledger, s.today, s.today);
    OneSend(s, worst);
    RoomFrom(s, worst, Unknown(s.ledger) as real * worst);
  }

  lemma RoomFrom(s: State, worst: real, again: real)
    requires 0.0 <= s.due <= Known(s.ledger) && Known(s.ledger) + again + worst <= CapNow(s)
    requires Sum(s.creditOpen) <= again && Sum(s.ownerOpen) <= again
    ensures Room(s, worst)
  {
    CapIsLeast(s);
    hide Sum, Known, OwnerDay, OwnerMonth, CapNow;
  }

  lemma OneSend(s: State, worst: real)
    ensures ProjectionNow(s, worst, 1) == Known(s.ledger) + Unknown(s.ledger) as real * worst + worst
  {
  }

  lemma CapIsLeast(s: State)
    ensures CapNow(s) <= CAP_DAILY - s.daily && CapNow(s) <= CAP_MONTHLY - s.monthly
    ensures CapNow(s) <= CAP_DAILY - OwnerDay(s.ledger, s.today) && CapNow(s) <= CAP_MONTHLY - OwnerMonth(s.ledger, s.today)
  {
  }

  ghost predicate Within(s: State) { Room(s, 0.0) }

  ghost predicate NoHigher(s: State, s': State) {
    && CreditDay(s') <= CreditDay(s) && CreditMonth(s') <= CreditMonth(s)
    && OwnDay(s') <= OwnDay(s) && OwnMonth(s') <= OwnMonth(s)
  }

  /** What a step may do to the exposures: nothing higher, or higher but within every cap. */
  ghost predicate Fair(s: State, s': State) { NoHigher(s, s') || Within(s') }

  lemma SameMoney(s: State, s': State)
    requires s'.ledger == s.ledger && s'.today == s.today && s'.daily == s.daily && s'.monthly == s.monthly
    requires s'.due == s.due && s'.creditOpen == s.creditOpen && s'.ownerOpen == s.ownerOpen
    ensures NoHigher(s, s') && forall w :: Room(s', w) <==> Room(s, w)
  {
  }

  /** Ending the process changes no money; a POST that may still charge leaves a marker that blocks. */
  lemma ExitKeepsSpend(s: State)
    requires MarkerInv(s) && SpendInv(s)
    ensures SpendInv(Exit(s)) && NoHigher(s, Exit(s))
  {
    if s.phase.InFlight? || s.phase.Replied? {
      assert s.renders[s.phase.i] in s.renders && Truthy(s.renders[s.phase.i]);
    }
  }

  lemma SettleKeepsSpend(s: State)
    requires MarkerInv(s) && SpendInv(s)
    ensures SpendInv(Next(s, Settle)) && NoHigher(s, Next(s, Settle))
  {
    hide MarkerInv, LedgerOk, Sum, Unknown, OwnerDay, OwnerMonth;
  }

  lemma GuardKeepsSpend(s: State)
    requires MarkerInv(s) && SpendInv(s)
    ensures SpendInv(Next(s, Guard)) && NoHigher(s, Next(s, Guard))
  {
    hide MarkerInv, LedgerOk, Sum, Unknown, OwnerDay, OwnerMonth, ProjectionNow;
  }

  lemma BoundKeepsSpend(s: State, worst: real)
    requires MarkerInv(s) && SpendInv(s) && Admissible(s, BoundLeg(worst))
    ensures SpendInv(Next(s, BoundLeg(worst))) && NoHigher(s, Next(s, BoundLeg(worst)))
  {
    ExitKeepsSpend(s);
    if s.phase.Leg? && ProjectionNow(s, worst, 1) <= CapNow(s) {
      BoundLeavesRoom(s, worst);
    }
    hide MarkerInv, LedgerOk, Sum, Unknown, OwnerDay, OwnerMonth, ProjectionNow, CapNow, Exit;
  }

  /** The send itself: the only step of the loop that raises an exposure, and it had room. */
  lemma CallKeepsSpend(s: State, hasKey: bool)
    requires MarkerInv(s) && SpendInv(s)
    ensures var s' := Next(s, CallRender(hasKey));
            SpendInv(s') && Fair(s, s') && (s'.sends > s.sends ==> Within(s'))
  {
    if s.phase.Armed? {
      OneMore(s.creditOpen, s.phase.worst);
      OneMore(s.ownerOpen, s.phase.worst);
    }
    hide MarkerInv, LedgerOk, AtLeastZero, Sum, Unknown, OwnerDay, OwnerMonth, ProjectionNow;
  }

  lemma OneMore(xs: seq<real>, x: real)
    requires AtLeastZero(xs) && x >= 0.0
    ensures Sum(xs + [x]) == Sum(xs) + x && AtLeastZero(xs + [x]) && LastIs(xs + [x], x)
  {
    SumThen(xs, x);
  }

  lemma ReceiveKeepsSpend(s: State, reply: Reply)
    requires MarkerInv(s) && SpendInv(s) && Admissible(s, Receive(reply))
    ensures SpendInv(Next(s, Receive(reply))) && NoHigher(s, Next(s, Receive(reply)))
  {
    if s.phase.InFlight? {
      DropLast(s.creditOpen);
    }
    hide MarkerInv, LedgerOk, AtLeastZero, Sum, Unknown, OwnerDay, OwnerMonth, Late;
  }

  lemma RecordKeepsSpend(s: State)
    requires MarkerInv(s) && SpendInv(s)
    ensures SpendInv(Next(s, Record)) && NoHigher(s, Next(s, Record))
  {
    hide MarkerInv;
    if s.phase.Replied? {
      RecordedCover(s);
      RecordedMoney(s);
      hide LedgerOk, AtLeastZero, Covered, NoHigher;
    } else {
      hide SpendInv, NoHigher;
      SameMoney(s, s);
    }
  }

  /** The new row covers whatever the answer left open. */
  lemma RecordedCover(s: State)
    requires s.phase.Replied? && Covered(s)
    ensures Covered(RecordReply(s))
  {
    var r := s.phase.reply;
    LedgerThen(s.ledger, LedgerRow(s.today, r.cost, r.imageTokens, r.upstream), s.today);
    hide Unknown, Known, OwnerDay, OwnerMonth;
  }

  lemma RecordedMoney(s: State)
    requires SpendInv(s) && s.phase.Replied?
    ensures var s' := RecordReply(s);
            LedgerOk(s'.ledger, s'.today) && AtLeastZero(s'.ownerOpen) && NoHigher(s, s')
  {
    var r := s.phase.reply;
    var row := LedgerRow(s.today, r.cost, r.imageTokens, r.upstream);
    LedgerThen(s.ledger, row, s.today);
    RowOk(s.ledger, row, s.today);
    DropLast(s.ownerOpen);
    hide LedgerOk, AtLeastZero, Covered, Sum, Known, Unknown, OwnerDay, OwnerMonth;
  }

  lemma RowOk(rows: seq<LedgerRow>, row: LedgerRow, today: Day)
    requires LedgerOk(rows, today) && row.created == today
    requires (row.cost.Some? ==> row.cost.value >= 0.0) && Upstream(row) >= 0.0
    ensures LedgerOk(rows + [row], today)
  {
  }

  lemma DropLast(xs: seq<real>)
    requires xs != [] && AtLeastZero(xs)
    ensures var n := |xs| - 1;
            Sum(xs[..n]) + xs[n] == Sum(xs) && AtLeastZero(xs[..n]) && xs[n] >= 0.0
  {
  }

  lemma LandKeepsSpend(s: State, k: nat, charge: real)
    requires MarkerInv(s) && SpendInv(s) && Admissible(s, Land(k, charge))
    ensures SpendInv(Next(s, Land(k, charge))) && NoHigher(s, Next(s, Land(k, charge)))
  {
    if k < Late(s) {
      SumDrop(s.creditOpen, k);
    }
    hide MarkerInv, LedgerOk, Sum, Unknown, OwnerDay, OwnerMonth;
  }

  lemma NoOwnerKeepsSpend(s: State, k: nat)
    requires MarkerInv(s) && SpendInv(s)
    ensures SpendInv(Next(s, NoOwner(k))) && NoHigher(s, Next(s, NoOwner(k)))
  {
    if k < LateOwner(s) {
      SumDrop(s.ownerOpen, k);
    }
    hide MarkerInv, LedgerOk, Sum, Unknown, OwnerDay, OwnerMonth;
  }

  lemma TickKeepsSpend(s: State, day: Day)
    requires MarkerInv(s) && SpendInv(s)
    ensures SpendInv(Next(s, Tick(day))) && NoHigher(s, Next(s, Tick(day)))
  {
    if DateLe(s.today, day) {
      LaterDay(s.ledger, s.today, day);
    }
    hide MarkerInv, LedgerOk, Sum, Unknown, OwnerDay, OwnerMonth;
  }

  predicate TouchesMoney(a: Action) {
    a.Guard? || a.BoundLeg? || a.CallRender? || a.Receive? || a.Record? || a.Settle? || a.Land? || a.NoOwner? || a.Tick?
  }

  /** The counters move on their own: a stated cost shows, a day is reset, somebody else spends. */
  predicate MovesCounters(a: Action) { a.LandDue? || a.Reset? || a.OtherSpend? }

  lemma CountersKeepSpend(s: State, a: Action)
    requires MarkerInv(s) && SpendInv(s) && Admissible(s, a) && MovesCounters(a)
    ensures SpendInv(Next(s, a)) && (a.OtherSpend? || NoHigher(s, Next(s, a)))
  {
    hide MarkerInv, LedgerOk, Sum, Unknown, OwnerDay, OwnerMonth, ProjectionNow, CapNow, Exit, Late, LateOwner, Drop;
  }

  /** The steps of the process that move no money. */
  lemma StepsKeepSpend(s: State, a: Action)
    requires MarkerInv(s) && SpendInv(s) && !TouchesMoney(a) && !MovesCounters(a)
    ensures SpendInv(Next(s, a)) && NoHigher(s, Next(s, a))
  {
    hide *;
    if Next(s, a) == Exit(s) {
      ExitKeepsSpend(s);
    } else {
      AdvanceKeepsSpend(s, a);
    }
  }

  lemma AdvanceKeepsSpend(s: State, a: Action)
    requires SpendInv(s) && !TouchesMoney(a) && !MovesCounters(a) && Next(s, a) != Exit(s)
    ensures SpendInv(Next(s, a)) && NoHigher(s, Next(s, a))
  {
    hide MarkerInv, LedgerOk, AtLeastZero, Sum, Unknown, OwnerDay, OwnerMonth, ProjectionNow, CapNow, Exit, Late, LateOwner, Drop, Room;
    SameMoney(s, Next(s, a));
  }

  lemma NextKeepsSpend(s: State, a: Action)
    requires MarkerInv(s) && SpendInv(s) && Admissible(s, a)
    ensures SpendInv(Next(s, a)) && (a.OtherSpend? || Fair(s, Next(s, a)))
  {
    hide MarkerInv, SpendInv, Next, NoHigher, Within, Admissible;
    match a {
      case Guard => GuardKeepsSpend(s);
      case BoundLeg(worst) => BoundKeepsSpend(s, worst);
      case CallRender(hasKey) => CallKeepsSpend(s, hasKey);
      case Receive(reply) => ReceiveKeepsSpend(s, reply);
      case Record => RecordKeepsSpend(s);
      case Settle => SettleKeepsSpend(s);
      case Land(k, charge) => LandKeepsSpend(s, k, charge);
      case NoOwner(k) => NoOwnerKeepsSpend(s, k);
      case Tick(day) => TickKeepsSpend(s, day);
      case _ => if MovesCounters(a) { CountersKeepSpend(s, a); } else { StepsKeepSpend(s, a); }
    }
  }

  lemma {:induction false} RunKeepsSpend(s: State, actions: seq<Action>)
    requires Initial(s) && AdmissibleRun(s, actions)
    ensures SpendInv(Run(s, actions))
  {
    if actions != [] {
      hide SpendInv, Next, Admissible;
      var n := |actions| - 1;
      RunKeepsSpend(s, actions[..n]);
      RunKeepsMarker(s, actions[..n]);
      NextKeepsSpend(Run(s, actions[..n]), actions[n]);
    }
  }

  /** No step of the loop takes what a counter shows, or may come to show, above its cap: a send always lands within all four. */
  lemma LoopStaysWithinCaps(s: State, actions: seq<Action>, a: Action)
    requires Initial(s) && AdmissibleRun(s, actions + [a]) && !a.OtherSpend?
    ensures Fair(Run(s, actions), Run(s, actions + [a]))
    ensures Run(s, actions + [a]).sends > Run(s, actions).sends ==> Within(Run(s, actions + [a]))
  {
    assert (actions + [a])[..|actions|] == actions;
    RunKeepsSpend(s, actions);
    RunKeepsMarker(s, actions);
    var s1 := Run(s, actions);
    hide SpendInv, MarkerInv, Fair, Within;
    NextKeepsSpend(s1, a);
    if a.CallRender? {
      CallKeepsSpend(s1, a.hasKey);
    }
  }

  ghost predicate OnlyUser(actions: seq<Action>) { forall k | 0 <= k < |actions| :: !actions[k].OtherSpend? }

  /** With no other spender, every counter stays within its cap through every run. */
  lemma {:induction false} CapsHold(s: State, actions: seq<Action>)
    requires Initial(s) && Within(s) && AdmissibleRun(s, actions) && OnlyUser(actions)
    ensures var s' := Run(s, actions);
            && Within(s')
            && s'.daily <= CAP_DAILY && s'.monthly <= CAP_MONTHLY
            && OwnerDay(s'.ledger, s'.today) <= CAP_DAILY && OwnerMonth(s'.ledger, s'.today) <= CAP_MONTHLY
  {
    var s' := Run(s, actions);
    RunKeepsSpend(s, actions);
    if actions != [] {
      var n := |actions| - 1;
      CapsHold(s, actions[..n]);
      assert actions[..n] + [actions[n]] == actions;
      hide Run, Next, Within, AdmissibleRun, Initial, SpendInv;
      LoopStaysWithinCaps(s, actions[..n], actions[n]);
      StaysWithin(Run(s, actions[..n]), s');
    }
    hide Run, Within, AdmissibleRun, Initial, SpendInv, OwnerDay, OwnerMonth;
    WithinShows(s');
  }

  lemma StaysWithin(s: State, s': State)
    requires Within(s) && Fair(s, s')
    ensures Within(s')
  {
    hide OwnDay, OwnMonth, CreditDay, CreditMonth;
  }

  /** What is open is not negative, so what shows is within the caps too. */
  lemma WithinShows(s: State)
    requires SpendInv(s) && Within(s)
    ensures s.daily <= CAP_DAILY && s.monthly <= CAP_MONTHLY
    ensures OwnerDay(s.ledger, s.today) <= CAP_DAILY && OwnerMonth(s.ledger, s.today) <= CAP_MONTHLY
  {
    SumBounds(s.creditOpen, 0.0, 0);
    SumBounds(s.ownerOpen, 0.0, 0);
    hide OwnerDay, OwnerMonth, Unknown, Sum, LedgerOk, Covered;
  }
}
