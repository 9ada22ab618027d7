/** What each check of the render command lets through, in plain numbers, and what a run that passes them all does. */
module RenderChecks {
  import opened Prelude
  import opened Dates
  import opened RenderBounds
  import opened RenderProtocol
  import opened RenderLimits

  /** Known spend, unknown calls at this worst case and `n` more sends fit under all four caps. */
  predicate Fits(s: State, worst: real, n: nat) {
    var more := Known(s.ledger) + Unknown(s.ledger) as real * worst + n as real * worst;
    && s.daily + more <= 2.0 && s.monthly + more <= 10.0
    && OwnerDay(s.ledger, s.today) + more <= 2.0 && OwnerMonth(s.ledger, s.today) + more <= 10.0
  }

  lemma PassesExactly(s: State, worst: real, n: nat)
    ensures ProjectionNow(s, worst, n) <= CapNow(s) <==> Fits(s, worst, n)
  {
    hide Known, Unknown, OwnerDay, OwnerMonth;
  }

  /** A run starts exactly when no process runs and the marker has no entry that was answered or may have been. */
  lemma StartsExactly(s: State)
    ensures Next(s, Start).phase.Started? <==>
              || s.phase.Started?
              || (s.phase.Idle? && (s.marker.Missing? || (s.marker.Stored? && forall e | e in s.marker.renders :: e.sent == Settled(false))))
    ensures Next(s, Start) == s || Next(s, Start) == s.(phase := Started)
  {
  }

  /** The list's check asks for all four sends. */
  lemma ListExactly(s: State, worst: real)
    requires s.phase.Listed?
    ensures Next(s, BoundList(worst)) == if Fits(s, worst, 4) then s.(phase := Leg(0)) else Exit(s)
  {
    PassesExactly(s, worst, 4);
    hide ProjectionNow, CapNow, Fits;
  }

  /** A leg's check asks for one. */
  lemma LegExactly(s: State, worst: real)
    requires s.phase.Leg? && s.phase.i < 4
    ensures Next(s, BoundLeg(worst)) == if Fits(s, worst, 1) then s.(phase := Bounded(s.phase.i, worst, CapNow(s))) else Exit(s)
  {
    PassesExactly(s, worst, 1);
    hide ProjectionNow, CapNow, Fits;
  }

  /** A leg without a key sends nothing: its entry is settled as not sent and the run ends. */
  lemma KeylessLeg(s: State, worst: real)
    requires s.phase.Leg? && s.phase.i < 4 && Fits(s, worst, 1)
    ensures var s' := Run(s, [BoundLeg(worst), Guard, WritePending, CallRender(false), Settle]);
            && s'.phase.Idle? && s'.marker == Stored(s.renders + [Entry(s.phase.i, Settled(false))])
            && s'.sends == s.sends && s'.ledger == s.ledger && s'.creditOpen == s.creditOpen && s'.ownerOpen == s.ownerOpen
  {
    PassesExactly(s, worst, 1);
    LegArms(s, worst);
    hide Run, ProjectionNow, CapNow, Fits;
    var a := [BoundLeg(worst), Guard, WritePending];
    RunThen(s, a, CallRender(false));
    RunThen(s, a + [CallRender(false)], Settle);
    assert a + [CallRender(false)] + [Settle] == [BoundLeg(worst), Guard, WritePending, CallRender(false), Settle];
    var renders := s.renders + [Entry(s.phase.i, Pending)];
    assert renders[|s.renders| := Entry(s.phase.i, Settled(false))] == s.renders + [Entry(s.phase.i, Settled(false))];
  }

  // ----- a whole run -----

  /** One leg: its worst case and how its POST ends. */
  datatype Shot = Shot(worst: real, reply: Reply)

  function Legs(shots: seq<Shot>): seq<Action> {
    if shots == [] then [] else Legs(shots[..|shots| - 1]) + LegOf(shots[|shots| - 1].worst, shots[|shots| - 1].reply)
  }

  /** Each leg's check passes when it comes to it. */
  ghost predicate Passing(s: State, shots: seq<Shot>) {
    forall k | 0 <= k < |shots| :: Heard(shots[k].reply) && Fits(Run(s, Legs(shots[..k])), shots[k].worst, 1)
  }

  function Entries(first: nat, shots: seq<Shot>): seq<Entry> {
    seq(|shots|, k requires 0 <= k < |shots| => Entry(first + k, Settled(shots[k].reply.answered)))
  }

  function Rows(day: Day, shots: seq<Shot>): seq<LedgerRow> {
    seq(|shots|, k requires 0 <= k < |shots| =>
      LedgerRow(day, shots[k].reply.cost, shots[k].reply.imageTokens, shots[k].reply.upstream))
  }

  /** After `n` legs: `n` sends, their ledger rows in order, and their entries settled in the marker. */
  ghost predicate Shots(s: State, s': State, shots: seq<Shot>)
    requires s.phase.Leg?
  {
    && s'.phase == Leg(s.phase.i + |shots|) && s'.sends == s.sends + |shots| && s'.today == s.today
    && s'.ledger == s.ledger + Rows(s.today, shots) && s'.renders == s.renders + Entries(s.phase.i, shots)
    && (shots != [] ==> s'.marker == Stored(s'.renders))
  }

  lemma OneShot(s: State, worst: real, r: Reply)
    requires s.phase.Leg? && s.phase.i < 4 && Fits(s, worst, 1) && Heard(r)
    ensures var s', renders := Run(s, LegOf(worst, r)), s.renders + [Entry(s.phase.i, Settled(r.answered))];
            && s'.phase == Leg(s.phase.i + 1) && s'.sends == s.sends + 1 && s'.today == s.today
            && s'.ledger == s.ledger + [LedgerRow(s.today, r.cost, r.imageTokens, r.upstream)]
            && s'.renders == renders && s'.marker == Stored(renders)
  {
    PassesExactly(s, worst, 1);
    LegRuns(s, worst, r);
    hide Run, LegOf, ProjectionNow, CapNow, Fits;
  }

  lemma {:induction false} LegsShoot(s: State, shots: seq<Shot>)
    requires s.phase.Leg? && s.phase.i + |shots| <= 4 && Passing(s, shots)
    ensures Shots(s, Run(s, Legs(shots)), shots)
  {
    if shots == [] {
      RunNothing(s);
      assert s.ledger + [] == s.ledger && s.renders + [] == s.renders;
      hide Run;
    } else {
      var n := |shots| - 1;
      PassingBefore(s, shots);
      hide Run, Fits, LegOf, Shots;
      LegsShoot(s, shots[..n]);
      var s1 := Run(s, Legs(shots[..n]));
      ShotsAt(s, s1, shots[..n]);
      OneShot(s1, shots[n].worst, shots[n].reply);
      RunAppend(s, Legs(shots[..n]), LegOf(shots[n].worst, shots[n].reply));
      OneMoreShot(s, s1, Run(s, Legs(shots)), shots);
    }
  }

  lemma PassingBefore(s: State, shots: seq<Shot>)
    requires shots != [] && Passing(s, shots)
    ensures Passing(s, shots[..|shots| - 1])
  {
    hide Run, Fits, Legs;
    assert forall k | 0 <= k < |shots| - 1 :: shots[..|shots| - 1][..k] == shots[..k];
  }

  lemma ShotsAt(s: State, s': State, shots: seq<Shot>)
    requires s.phase.Leg? && Shots(s, s', shots)
    ensures s'.phase == Leg(s.phase.i + |shots|)
  {
  }

  lemma OneMoreShot(s: State, s1: State, s2: State, shots: seq<Shot>)
    requires s.phase.Leg? && shots != [] && Shots(s, s1, shots[..|shots| - 1])
    requires var r := shots[|shots| - 1].reply;
             && s2.phase == Leg(s1.phase.i + 1) && s2.sends == s1.sends + 1 && s2.today == s1.today
             && s2.ledger == s1.ledger + [LedgerRow(s1.today, r.cost, r.imageTokens, r.upstream)]
             && s2.renders == s1.renders + [Entry(s1.phase.i, Settled(r.answered))] && s2.marker == Stored(s2.renders)
    ensures Shots(s, s2, shots)
  {
    var n := |shots| - 1;
    var r := shots[n].reply;
    assert Entries(s.phase.i, shots) == Entries(s.phase.i, shots[..n]) + [Entry(s.phase.i + n, Settled(r.answered))];
    assert Rows(s.today, shots) == Rows(s.today, shots[..n]) + [LedgerRow(s.today, r.cost, r.imageTokens, r.upstream)];
  }

  function Command(worst: real, shots: seq<Shot>): seq<Action> {
    [Start, WriteFresh, BoundList(worst)] + Legs(shots) + [Finish]
  }

  /** A run whose list and legs all pass sends the whole list, ledgers each POST and leaves every entry settled. */
  lemma WholeRun(s: State, worst: real, shots: seq<Shot>)
    requires s.phase.Idle? && s.marker.Missing? && s.renders == [] && |shots| == 4 && Fits(s, worst, 4)
    requires Passing(s.(phase := Leg(0), marker := Stored([])), shots)
    ensures var s' := Run(s, Command(worst, shots));
            && s'.phase.Idle? && s'.sends == s.sends + 4 && s'.ledger == s.ledger + Rows(s.today, shots)
            && s'.marker == Stored(Entries(0, shots))
  {
    PassesExactly(s, worst, 4);
    hide Run, Legs, LegOf, Fits, Passing, ProjectionNow, CapNow;
    ListRuns(s, worst);
    var s0 := s.(phase := Leg(0), marker := Stored([]));
    LegsShoot(s0, shots);
    assert [] + Entries(0, shots) == Entries(0, shots);
    var a := [Start, WriteFresh, BoundList(worst)];
    RunAppend(s, a, Legs(shots));
    RunThen(s, a + Legs(shots), Finish);
  }
}
