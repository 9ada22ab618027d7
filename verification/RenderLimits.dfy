/** Where the spend guard's cover ends: charges outstanding from dearer legs, and owner-side charges nobody states. */
module RenderLimits {
  import opened Prelude
  import opened Dates
  import opened RenderBounds
  import opened RenderProtocol
  import opened RenderSafety

  /** Some admissible run ends in this state. */
  ghost predicate Reached(s: State) {
    exists s0, actions :: Initial(s0) && AdmissibleRun(s0, actions) && Run(s0, actions) == s
  }

  /** A driver about to bound a leg, with these unstated charges outstanding over this many unknown calls. */
  ghost predicate Outstanding(s: State, credit: seq<real>, own: seq<real>, n: nat) {
    Reached(s) && s.phase.Leg? && s.creditOpen == credit && s.ownerOpen == own && Unknown(s.ledger) == n
  }

  /** Whenever such a driver's bound passes, the send and everything outstanding fit under all four caps. */
  ghost predicate PassingBoundSuffices(credit: seq<real>, own: seq<real>, n: nat, worst: real) {
    forall s | Outstanding(s, credit, own, n) && ProjectionNow(s, worst, 1) <= CapNow(s) :: Room(s, worst)
  }

  function UnknownRows(n: nat, day: Day): seq<LedgerRow> {
    if n == 0 then [] else UnknownRows(n - 1, day) + [LedgerRow(day, None, None, None)]
  }

  lemma {:induction false} UnknownRowsSum(n: nat, day: Day)
    ensures var rows := UnknownRows(n, day);
            && Known(rows) == 0.0 && Unknown(rows) == n && OwnerDay(rows, day) == 0.0 && OwnerMonth(rows, day) == 0.0
            && LedgerOk(rows, day)
  {
    if n > 0 {
      UnknownRowsSum(n - 1, day);
      LedgerThen(UnknownRows(n - 1, day), LedgerRow(day, None, None, None), day);
      hide Known, Unknown, OwnerDay, OwnerMonth;
    }
  }

  lemma ReachedKeepsSpend(s: State)
    requires Reached(s)
    ensures SpendInv(s)
  {
    var s0, actions :| Initial(s0) && AdmissibleRun(s0, actions) && Run(s0, actions) == s;
    hide Initial, AdmissibleRun, SpendInv, Run;
    RunKeepsSpend(s0, actions);
  }

  /** An account before its first run, with the given outstanding charges, ledger and counters. */
  function Account(ledger: seq<LedgerRow>, spent: real, credit: seq<real>, own: seq<real>): State {
    State(Missing, ledger, Date(1, 1, 1), spent, spent, 0.0, credit, own, Idle, [], 0, 0, false)
  }

  /** The same at its first leg. */
  function Before(ledger: seq<LedgerRow>, spent: real, credit: seq<real>, own: seq<real>): State {
    Account(ledger, spent, credit, own).(phase := Leg(0), marker := Stored([]))
  }

  /** A run starts and its list passes at prices of nothing. */
  lemma BeforeReached(ledger: seq<LedgerRow>, spent: real, owner: real, credit: seq<real>, own: seq<real>)
    requires AtLeastZero(credit) && AtLeastZero(own) && |credit| <= Unknown(ledger)
    requires LedgerOk(ledger, Date(1, 1, 1)) && Known(ledger) == 0.0
    requires OwnerDay(ledger, Date(1, 1, 1)) == OwnerMonth(ledger, Date(1, 1, 1)) == owner
    requires 0.0 <= spent <= CAP_DAILY && owner <= CAP_DAILY
    ensures Reached(Before(ledger, spent, credit, own))
  {
    var s0 := Account(ledger, spent, credit, own);
    assert Initial(s0);
    assert ProjectionNow(s0, 0.0, TOTAL) <= CapNow(s0);
    hide Initial, ProjectionNow, CapNow;
    ListRuns(s0, 0.0);
    var a, b, c := Start, WriteFresh, BoundList(0.0);
    var actions := [a, b, c];
    assert actions[..2] == [a, b] && [a, b][..1] == [a] && [a][..0] == [];
    hide Run, Next;
    assert AdmissibleRun(s0, [a]);
    assert AdmissibleRun(s0, [a, b]);
    assert AdmissibleRun(s0, actions);
    assert Run(s0, actions) == Before(ledger, spent, credit, own);
  }

  lemma BeforePasses(ledger: seq<LedgerRow>, spent: real, owner: real, credit: seq<real>, own: seq<real>, n: nat, worst: real, again: real)
    requires AtLeastZero(credit) && AtLeastZero(own) && |credit| <= n
    requires LedgerOk(ledger, Date(1, 1, 1)) && Known(ledger) == 0.0 && Unknown(ledger) == n
    requires OwnerDay(ledger, Date(1, 1, 1)) == OwnerMonth(ledger, Date(1, 1, 1)) == owner
    requires again == n as real * worst && again >= 0.0 && worst >= 0.0 && spent >= 0.0
    requires spent + again + worst <= CAP_DAILY && owner + again + worst <= CAP_DAILY
    ensures var s := Before(ledger, spent, credit, own);
            Outstanding(s, credit, own, n) && ProjectionNow(s, worst, 1) <= CapNow(s)
  {
    hide Known, Unknown, OwnerDay, OwnerMonth, LedgerOk, ProjectionNow, CapNow, AtLeastZero, Reached;
    BeforeReached(ledger, spent, owner, credit, own);
    BeforeCosts(ledger, spent, owner, credit, own, n, worst, again);
  }

  lemma BeforeCosts(ledger: seq<LedgerRow>, spent: real, owner: real, credit: seq<real>, own: seq<real>, n: nat, worst: real, again: real)
    requires Known(ledger) == 0.0 && Unknown(ledger) == n && again == n as real * worst
    requires OwnerDay(ledger, Date(1, 1, 1)) == OwnerMonth(ledger, Date(1, 1, 1)) == owner
    requires spent + again + worst <= CAP_DAILY && owner + again + worst <= CAP_DAILY
    ensures ProjectionNow(Before(ledger, spent, credit, own), worst, 1) <= CapNow(Before(ledger, spent, credit, own))
  {
    var s := Before(ledger, spent, credit, own);
    OneSend(s, worst);
    CapAtLeast(s, again + worst);
    hide Known, Unknown, OwnerDay, OwnerMonth, ProjectionNow, CapNow;
  }

  lemma CapAtLeast(s: State, w: real)
    requires s.daily + w <= CAP_DAILY && s.monthly + w <= CAP_MONTHLY
    requires OwnerDay(s.ledger, s.today) + w <= CAP_DAILY && OwnerMonth(s.ledger, s.today) + w <= CAP_MONTHLY
    ensures w <= CapNow(s)
  {
    hide OwnerDay, OwnerMonth;
  }

  /** With outstanding credit charges above the unknown calls' cover, some passing bound leaves no room. */
  lemma CreditWitness(credit: seq<real>, own: seq<real>, n: nat, worst: real, again: real)
    requires worst >= 0.0 && AtLeastZero(credit) && AtLeastZero(own) && |credit| <= n
    requires again == n as real * worst && again >= 0.0 && again + worst <= CAP_DAILY && Sum(credit) > again
    ensures !PassingBoundSuffices(credit, own, n, worst)
  {
    hide Known, Unknown, OwnerDay, OwnerMonth, Sum, LedgerOk, UnknownRows, ProjectionNow, CapNow, Outstanding, AtLeastZero;
    var rows, spent := UnknownRows(n, Date(1, 1, 1)), CAP_DAILY - again - worst;
    UnknownRowsSum(n, Date(1, 1, 1));
    BeforePasses(rows, spent, 0.0, credit, own, n, worst, again);
    assert !Room(Before(rows, spent, credit, own), worst);
  }

  lemma StatedRow(n: nat, day: Day, x: real)
    requires x >= 0.0
    ensures var rows := UnknownRows(n, day) + [LedgerRow(day, Some(0.0), None, Some(x))];
            && Known(rows) == 0.0 && Unknown(rows) == n && OwnerDay(rows, day) == x && OwnerMonth(rows, day) == x
            && LedgerOk(rows, day)
  {
    var row := LedgerRow(day, Some(0.0), None, Some(x));
    UnknownRowsSum(n, day);
    LedgerThen(UnknownRows(n, day), row, day);
    RowOk(UnknownRows(n, day), row, day);
    hide Known, Unknown, OwnerDay, OwnerMonth, LedgerOk, UnknownRows;
  }

  /** The same for the owner side: the ledger then states what makes the cap tight. */
  lemma OwnerWitness(credit: seq<real>, own: seq<real>, n: nat, worst: real, again: real)
    requires worst >= 0.0 && AtLeastZero(credit) && AtLeastZero(own) && |credit| <= n
    requires again == n as real * worst && again >= 0.0 && again + worst <= CAP_DAILY && Sum(own) > again
    ensures !PassingBoundSuffices(credit, own, n, worst)
  {
    hide Known, Unknown, OwnerDay, OwnerMonth, Sum, LedgerOk, UnknownRows, ProjectionNow, CapNow, Outstanding, AtLeastZero;
    var day, x := Date(1, 1, 1), CAP_DAILY - again - worst;
    var rows := UnknownRows(n, day) + [LedgerRow(day, Some(0.0), None, Some(x))];
    StatedRow(n, day, x);
    BeforePasses(rows, 0.0, x, credit, own, n, worst, again);
    assert !Room(Before(rows, 0.0, credit, own), worst);
  }

  /**
   * In the states runs reach, a passing bound suffices exactly when the unknown calls at the current worst case
   * cover what is outstanding on both sides, or no bound could pass at all.
   */
  lemma GuardCoversExactly(credit: seq<real>, own: seq<real>, n: nat, worst: real)
    requires worst >= 0.0 && AtLeastZero(credit) && AtLeastZero(own) && |credit| <= n
    ensures PassingBoundSuffices(credit, own, n, worst)
            <==> (Sum(credit) <= n as real * worst && Sum(own) <= n as real * worst)
                 || n as real * worst + worst > CAP_DAILY
  {
    hide Sum, PassingBoundSuffices, AtLeastZero;
    var again := n as real * worst;
    Product(n, worst);
    if again + worst > CAP_DAILY {
      NothingPasses(credit, own, n, worst, again);
    } else if Sum(credit) > again {
      CreditWitness(credit, own, n, worst, again);
    } else if Sum(own) > again {
      OwnerWitness(credit, own, n, worst, again);
    } else {
      CoverSuffices(credit, own, n, worst, again);
    }
  }

  lemma NothingPasses(credit: seq<real>, own: seq<real>, n: nat, worst: real, again: real)
    requires again == n as real * worst && again + worst > CAP_DAILY
    ensures PassingBoundSuffices(credit, own, n, worst)
  {
    hide ProjectionNow, CapNow, Room, SpendInv, Reached;
    forall s | Outstanding(s, credit, own, n) ensures ProjectionNow(s, worst, 1) > CapNow(s) {
      ReachedKeepsSpend(s);
      NeverPasses(s, worst, again);
    }
  }

  lemma CoverSuffices(credit: seq<real>, own: seq<real>, n: nat, worst: real, again: real)
    requires worst >= 0.0 && again == n as real * worst && Sum(credit) <= again && Sum(own) <= again
    ensures PassingBoundSuffices(credit, own, n, worst)
  {
    hide ProjectionNow, CapNow, Room, SpendInv, Sum, Unknown, Reached;
    forall s | Outstanding(s, credit, own, n) && ProjectionNow(s, worst, 1) <= CapNow(s) ensures Room(s, worst) {
      ReachedKeepsSpend(s);
      BoundLeavesRoom(s, worst);
    }
  }

  lemma Product(n: nat, worst: real)
    requires worst >= 0.0
    ensures n as real * worst >= 0.0
  {
  }

  lemma NeverPasses(s: State, worst: real, again: real)
    requires SpendInv(s) && again == Unknown(s.ledger) as real * worst && again + worst > CAP_DAILY
    ensures ProjectionNow(s, worst, 1) > CapNow(s)
  {
    LaterDay(s.ledger, s.today, s.today);
    OneSend(s, worst);
    CapIsLeast(s);
    hide Known, Unknown, OwnerDay, OwnerMonth, ProjectionNow, CapNow, LedgerOk;
  }

  // ----- a run that exceeds a cap -----

  /** An account that has spent nothing. */
  function Fresh(day: Day): State {
    State(Missing, [], day, 0.0, 0.0, 0.0, [], [], Idle, [], 0, 0, false)
  }

  const Silent: Reply := Reply(false, None, None, None)

  /** An answer paid with credits as far as it says: no credit cost, nothing said of the owner side. */
  const CreditsOnly: Reply := Reply(true, Some(0.0), None, None)

  /** Without an answer a reply says nothing at all. */
  predicate Heard(r: Reply) { r.answered || r == Silent }

  /** One leg at this worst case, and how its POST ends. */
  function LegOf(worst: real, r: Reply): seq<Action> {
    [BoundLeg(worst), Guard, WritePending, CallRender(true), Receive(r), Record, Settle]
  }

  /** The credit side of a sent leg: a stated cost is due, an unstated one stays open. */
  function Paid(s: State, worst: real, r: Reply): State {
    if r.cost.Some? then s.(due := s.due + r.cost.value) else s.(creditOpen := s.creditOpen + [worst])
  }

  function AnswerCount(r: Reply): nat { if r.answered then 1 else 0 }

  /** The state such a leg leaves. */
  function AfterLeg(s: State, worst: real, r: Reply): State
    requires s.phase.Leg?
  {
    var renders := s.renders + [Entry(s.phase.i, Settled(r.answered))];
    LegRecorded(s, worst, r).(phase := Leg(s.phase.i + 1), renders := renders, marker := Stored(renders))
  }

  // The same leg, effect by effect.
  function LegArmed(s: State, worst: real): State
    requires s.phase.Leg?
  {
    WriteMarker(s, s.renders + [Entry(s.phase.i, Pending)]).(phase := Armed(s.phase.i, worst, CapNow(s)))
  }

  function LegRecorded(s: State, worst: real, r: Reply): State
    requires s.phase.Leg?
  {
    Paid(LegArmed(s, worst), worst, r).(
      phase := Recorded(s.phase.i, r.answered, false), sends := s.sends + 1, answered := s.answered + AnswerCount(r),
      ledger := s.ledger + [LedgerRow(s.today, r.cost, r.imageTokens, r.upstream)],
      ownerOpen := if r.upstream.Some? then s.ownerOpen else s.ownerOpen + [worst])
  }

  lemma LegArms(s: State, worst: real)
    requires s.phase.Leg? && s.phase.i < TOTAL && ProjectionNow(s, worst, 1) <= CapNow(s)
    ensures Run(s, [BoundLeg(worst), Guard, WritePending]) == LegArmed(s, worst)
  {
    var i, cap := s.phase.i, CapNow(s);
    hide Known, Unknown, OwnerDay, OwnerMonth, Cap, Projection, Run, CapNow;
    RunOne(s, BoundLeg(worst));
    RunThen(s, [BoundLeg(worst)], Guard);
    RunThen(s, [BoundLeg(worst), Guard], WritePending);
    assert [BoundLeg(worst)] + [Guard] == [BoundLeg(worst), Guard];
    assert [BoundLeg(worst), Guard] + [WritePending] == [BoundLeg(worst), Guard, WritePending];
    assert Next(s, BoundLeg(worst)) == s.(phase := Bounded(i, worst, cap));
    assert Next(s.(phase := Bounded(i, worst, cap)), Guard) == s.(phase := Cleared(i, worst, cap));
  }

  lemma LegRecords(s: State, worst: real, r: Reply)
    requires s.phase.Leg? && ProjectionNow(s, worst, 1) <= CapNow(s) && Heard(r)
    ensures Run(LegArmed(s, worst), [CallRender(true), Receive(r), Record]) == LegRecorded(s, worst, r)
  {
    var s3 := LegArmed(s, worst);
    hide Known, Unknown, OwnerDay, OwnerMonth, Cap, Projection, Run, CapNow;
    RunOne(s3, CallRender(true));
    RunThen(s3, [CallRender(true)], Receive(r));
    RunThen(s3, [CallRender(true), Receive(r)], Record);
    assert [CallRender(true)] + [Receive(r)] == [CallRender(true), Receive(r)];
    assert [CallRender(true), Receive(r)] + [Record] == [CallRender(true), Receive(r), Record];
    var s4 := s3.(phase := InFlight(s.phase.i, worst), sends := s.sends + 1,
                  creditOpen := s.creditOpen + [worst], ownerOpen := s.ownerOpen + [worst]);
    assert Next(s3, CallRender(true)) == s4;
    assert s4.creditOpen[..|s4.creditOpen| - 1] == s.creditOpen && s4.ownerOpen[..|s4.ownerOpen| - 1] == s.ownerOpen;
    assert Next(s4, Receive(r)) ==
      Paid(s3, worst, r).(phase := Replied(s.phase.i, worst, r), sends := s.sends + 1,
                          answered := s.answered + AnswerCount(r), ownerOpen := s.ownerOpen + [worst]);
  }

  lemma LegSettles(s: State, worst: real, r: Reply)
    requires s.phase.Leg?
    ensures Next(LegRecorded(s, worst, r), Settle) == AfterLeg(s, worst, r)
  {
    hide CapNow, ProjectionNow;
    var e := Entry(s.phase.i, Settled(r.answered));
    assert (s.renders + [Entry(s.phase.i, Pending)])[|s.renders| := e] == s.renders + [e];
  }

  /** A leg whose bound passes sends once, whatever the answer: it ledgers it, accounts for both sides and settles its entry. */
  lemma LegRuns(s: State, worst: real, r: Reply)
    requires s.phase.Leg? && s.phase.i < TOTAL && ProjectionNow(s, worst, 1) <= CapNow(s) && Heard(r)
    ensures Run(s, LegOf(worst, r)) == AfterLeg(s, worst, r)
  {
    LegArms(s, worst);
    LegRecords(s, worst, r);
    LegSettles(s, worst, r);
    hide Run, Next, LegArmed, LegRecorded, AfterLeg, ProjectionNow, CapNow;
    var a, b := [BoundLeg(worst), Guard, WritePending], [CallRender(true), Receive(r), Record];
    RunAppend(s, a, b);
    RunThen(s, a + b, Settle);
    assert LegOf(worst, r) == a + b + [Settle];
  }

  /** A leg whose bound does not pass ends the process and sends nothing. */
  lemma LegStops(s: State, worst: real, r: Reply)
    requires s.phase.Leg? && s.phase.i < TOTAL && ProjectionNow(s, worst, 1) > CapNow(s)
    ensures Run(s, LegOf(worst, r)) == Exit(s)
  {
    var s1 := Exit(s);
    hide Known, Unknown, OwnerDay, OwnerMonth, Cap, Projection, Run, CapNow;
    assert Next(s, BoundLeg(worst)) == s1;
    RunOne(s, BoundLeg(worst));
    var a := [Guard, WritePending, CallRender(true), Receive(r), Record, Settle];
    RunAppend(s, [BoundLeg(worst)], a);
    assert LegOf(worst, r) == [BoundLeg(worst)] + a;
    IdleRun(s1, a);
  }

  /** Without a process none of a leg's effects happens. */
  lemma {:induction false} IdleRun(s: State, actions: seq<Action>)
    requires s.phase.Idle?
    requires forall k | 0 <= k < |actions| ::
               var a := actions[k];
               a.Guard? || a.WritePending? || a.CallRender? || a.Receive? || a.Record? || a.Settle?
    ensures Run(s, actions) == s
  {
    if actions != [] {
      IdleRun(s, actions[..|actions| - 1]);
    }
  }

  /** So a leg sends exactly when its bound passes. */
  lemma LegSendsExactly(s: State, worst: real, r: Reply)
    requires s.phase.Leg? && s.phase.i < TOTAL && Heard(r)
    ensures Run(s, LegOf(worst, r)).sends == s.sends + if ProjectionNow(s, worst, 1) <= CapNow(s) then 1 else 0
  {
    hide Run, Next, ProjectionNow, CapNow, LegOf;
    if ProjectionNow(s, worst, 1) <= CapNow(s) {
      LegRuns(s, worst, r);
    } else {
      LegStops(s, worst, r);
    }
  }

  /** The list's bound passes at 0.1, then two legs. */
  function TwoLegs(first: real, second: real, r: Reply): seq<Action> {
    [Start, WriteFresh, BoundList(0.1)] + LegOf(first, r) + LegOf(second, r)
  }

  lemma ListBounded(day: Day)
    ensures Run(Fresh(day), [Start, WriteFresh, BoundList(0.1)]) == Fresh(day).(phase := Leg(0), marker := Stored([]))
  {
    var s := Fresh(day);
    ListRuns(s, 0.1);
    assert ProjectionNow(s, 0.1, TOTAL) == 0.4 && CapNow(s) == 2.0;
  }

  /** A prior run that sent nothing, and a bound that passes for the whole list. */
  lemma ListRuns(s: State, worst: real)
    requires s.phase.Idle? && s.marker.Missing? && s.renders == []
    requires ProjectionNow(s, worst, TOTAL) <= CapNow(s)
    ensures Run(s, [Start, WriteFresh, BoundList(worst)]) == s.(phase := Leg(0), marker := Stored([]))
  {
    var s1 := s.(phase := Listed, marker := Stored([]));
    RunOne(s, Start);
    RunThen(s, [Start], WriteFresh);
    RunThen(s, [Start, WriteFresh], BoundList(worst));
    assert [Start] + [WriteFresh] == [Start, WriteFresh];
    assert [Start, WriteFresh] + [BoundList(worst)] == [Start, WriteFresh, BoundList(worst)];
    hide Run, Known, Unknown, OwnerDay, OwnerMonth, Projection, Cap;
    assert Next(s, Start) == s.(phase := Started);
    assert Next(s.(phase := Started), WriteFresh) == s1;
    assert Next(s1, BoundList(worst)) == s1.(phase := Leg(0));
  }

  /** Both legs' bounds pass. */
  lemma TwoLegsPass(day: Day, first: real, second: real, r: Reply)
    requires r == Silent || r == CreditsOnly
    requires first <= CAP_DAILY && (if r == Silent then second + second else second) <= CAP_DAILY
    ensures var s0 := Fresh(day).(phase := Leg(0), marker := Stored([]));
            var s1 := AfterLeg(s0, first, r);
            && ProjectionNow(s0, first, 1) <= CapNow(s0)
            && s1.phase == Leg(1) && ProjectionNow(s1, second, 1) <= CapNow(s1)
  {
    var s0 := Fresh(day).(phase := Leg(0), marker := Stored([]));
    var s1 := AfterLeg(s0, first, r);
    var row := LedgerRow(day, r.cost, r.imageTokens, None);
    assert s1.ledger == [] + [row];
    LedgerThen([], row, day);
    OneSend(s0, first);
    OneSend(s1, second);
    assert Known([]) == 0.0 && Unknown([]) == 0;
    hide Known, Unknown, OwnerDay, OwnerMonth, ProjectionNow;
  }

  lemma TwoLegsLeave(day: Day, first: real, second: real, r: Reply)
    requires r == Silent || r == CreditsOnly
    ensures var s := AfterLeg(AfterLeg(Fresh(day).(phase := Leg(0), marker := Stored([])), first, r), second, r);
            && s.sends == 2 && s.daily == 0.0 && s.phase.Leg? && s.ownerOpen == [first, second]
            && s.creditOpen == (if r == Silent then [first, second] else []) && OwnDay(s) == first + second
  {
    var s1 := AfterLeg(Fresh(day).(phase := Leg(0), marker := Stored([])), first, r);
    var s := AfterLeg(s1, second, r);
    var row := LedgerRow(day, r.cost, r.imageTokens, None);
    assert s.ledger == [] + [row] + [row];
    LedgerThen([], row, day);
    LedgerThen([] + [row], row, day);
    SumThen([], first);
    SumThen([first], second);
    assert s.ownerOpen == [first] + [second] && [] + [first] == [first];
    hide OwnerDay, OwnerMonth, Known, Unknown, CapNow, Sum;
  }

  /** The account after both legs: no counter moved. */
  lemma TwoLegsRun(day: Day, first: real, second: real, r: Reply)
    requires r == Silent || r == CreditsOnly
    requires first <= CAP_DAILY && (if r == Silent then second + second else second) <= CAP_DAILY
    ensures var s := Run(Fresh(day), TwoLegs(first, second, r));
            && s.sends == 2 && s.daily == 0.0 && s.phase.Leg? && s.ownerOpen == [first, second]
            && s.creditOpen == (if r == Silent then [first, second] else []) && OwnDay(s) == first + second
  {
    var s := Fresh(day);
    var s0 := s.(phase := Leg(0), marker := Stored([]));
    ListBounded(day);
    TwoLegsPass(day, first, second, r);
    TwoLegsLeave(day, first, second, r);
    hide Run, Next, AfterLeg, LegOf, Fresh, ProjectionNow, CapNow, OwnDay, Known, Unknown, OwnerDay, OwnerMonth;
    assert Heard(r);
    LegRuns(s0, first, r);
    var s1 := AfterLeg(s0, first, r);
    LegRuns(s1, second, r);
    var a := [Start, WriteFresh, BoundList(0.1)];
    RunAppend(s, a, LegOf(first, r));
    RunAppend(s, a + LegOf(first, r), LegOf(second, r));
  }

  /** A dear leg and then a cheap one, both unanswered; both charges show afterwards, each within its bound. */
  function FallingPrices(): seq<Action> {
    TwoLegs(1.9, 0.9, Silent) + [Land(0, 1.9), Land(0, 0.9)]
  }

  /**
   * From an account that has spent nothing the bounds of both legs pass, and the daily cap is exceeded: the run
   * is one the caps are not promised for.
   */
  lemma FallingPricesExceed(day: Day)
    ensures Initial(Fresh(day)) && Within(Fresh(day)) && OnlyUser(FallingPrices())
    ensures var s := Run(Fresh(day), FallingPrices());
            s.sends == 2 && s.daily == 2.8 && s.daily > CAP_DAILY
    ensures !AdmissibleRun(Fresh(day), FallingPrices())
  {
    var s := Fresh(day);
    FreshStarts(day);
    assert OnlyUser(FallingPrices());
    hide Run, Next, Fresh, AdmissibleRun, Initial, Within, OnlyUser;
    FallingPricesShow(day);
    if AdmissibleRun(s, FallingPrices()) {
      CapsHold(s, FallingPrices());
    }
  }

  lemma FreshStarts(day: Day)
    ensures Initial(Fresh(day)) && Within(Fresh(day))
  {
    assert Known([]) == 0.0 && OwnerDay([], day) == 0.0 && OwnerMonth([], day) == 0.0 && Sum([]) == 0.0;
  }

  lemma FallingPricesShow(day: Day)
    ensures var s := Run(Fresh(day), FallingPrices());
            s.sends == 2 && s.daily == 2.8
  {
    var s, b := Fresh(day), TwoLegs(1.9, 0.9, Silent);
    hide Run, Next, Fresh, TwoLegs;
    TwoLegsRun(day, 1.9, 0.9, Silent);
    BothLand(Run(s, b));
    RunThen(s, b, Land(0, 1.9));
    RunThen(s, b + [Land(0, 1.9)], Land(0, 0.9));
    assert FallingPrices() == b + [Land(0, 1.9)] + [Land(0, 0.9)];
  }

  lemma BothLand(s: State)
    requires s.creditOpen == [1.9, 0.9] && s.phase.Leg? && s.daily == 0.0
    ensures var s' := Next(Next(s, Land(0, 1.9)), Land(0, 0.9));
            s'.daily == 2.8 && s'.sends == s.sends
  {
    var s1 := Next(s, Land(0, 1.9));
    assert s1.creditOpen == [0.9] && s1.daily == 1.9;
  }

  /**
   * At one steady price, two answers that state a credit cost of nothing and no owner-side cost: both bounds
   * pass, and the owner's account may come to be charged almost twice the daily cap.
   */
  lemma UnstatedOwnerExceeds(day: Day)
    ensures Initial(Fresh(day)) && Within(Fresh(day)) && OnlyUser(TwoLegs(1.9, 1.9, CreditsOnly))
    ensures var s := Run(Fresh(day), TwoLegs(1.9, 1.9, CreditsOnly));
            s.sends == 2 && s.ownerOpen == [1.9, 1.9] && OwnDay(s) == 3.8 && OwnDay(s) > CAP_DAILY
    ensures !AdmissibleRun(Fresh(day), TwoLegs(1.9, 1.9, CreditsOnly))
  {
    var s, b := Fresh(day), TwoLegs(1.9, 1.9, CreditsOnly);
    TwoLegsRun(day, 1.9, 1.9, CreditsOnly);
    FreshStarts(day);
    assert OnlyUser(b);
    assert Within(Run(s, b)) ==> OwnDay(Run(s, b)) <= CAP_DAILY;
    hide Run, Next, Fresh, TwoLegs, AdmissibleRun, Initial, Within, OnlyUser, OwnDay;
    if AdmissibleRun(s, b) {
      CapsHold(s, b);
    }
  }
}
