/** The render command as it runs: its loop over the list, each effect one step of the protocol. */
module RenderDriver {
  import opened Prelude
  import opened Dates
  import opened RenderBounds
  import opened RenderProtocol
  import opened RenderLedger

  /** How the command ends: an exit status, or a stop before it was done. */
  datatype Status = Code(code: nat) | Stopped

  /** How one pass of the loop ends: a stop, a break, or on to the next photo. */
  datatype LegStep = Abort | Break | Go(rendered: bool)

  datatype Outcome = Outcome(answered: bool, rendered: bool, refused: bool)

  class Driver {
    var marker: Marker
    var ledger: seq<LedgerRow>
    var today: Day
    var daily: real
    var monthly: real
    var renders: seq<Entry>
    var due: real                      // the provider's own books
    var creditOpen: seq<real>
    ghost var ownerOpen: seq<real>
    ghost var phase: Phase
    ghost var sends: nat
    ghost var answered: nat
    ghost var burned: bool

    ghost function Snapshot(): State
      reads this
    {
      State(marker, ledger, today, daily, monthly, due, creditOpen, ownerOpen, phase, renders, sends, answered, burned)
    }

    /** The ledger gained this many rows at its end. */
    ghost predicate Ledgers(before: seq<LedgerRow>, rows: int)
      reads this
    {
      before <= ledger && |ledger| == |before| + rows
    }

    constructor (
      marker: Marker, ledger: seq<LedgerRow>, today: Day, daily: real, monthly: real, due: real, creditOpen: seq<real>,
      ghost ownerOpen: seq<real>)
      ensures Snapshot() == State(marker, ledger, today, daily, monthly, due, creditOpen, ownerOpen, Idle, [], 0, 0, false)
    {
      this.marker, this.ledger, this.today, this.daily, this.monthly := marker, ledger, today, daily, monthly;
      this.due, this.creditOpen, this.ownerOpen := due, creditOpen, ownerOpen;
      renders, phase, sends, answered, burned := [], Idle, 0, 0, false;
    }

    /** The process ends. */
    method Quit()
      modifies this
      ensures Snapshot() == Exit(old(Snapshot())) && ledger == old(ledger)
    {
      burned := burned || answered > 0 || phase.InFlight?;
      phase, renders := Idle, [];
    }

    /** The reads behind one bound; None stops the run. */
    method BoundInputs(endpoints: seq<Endpoint>, planned: nat) returns (r: Option<(real, real)>, ghost a: Action)
      requires (phase.Listed? && planned == TOTAL) || (phase.Leg? && phase.i < TOTAL && planned == 1)
      modifies this
      ensures Snapshot() == Next(old(Snapshot()), a)
      ensures r.None? ==> phase.Idle?
      ensures sends == old(sends) && answered == old(answered) && ledger == old(ledger)
      ensures r.Some? ==>
                && ProjectionNow(Snapshot(), r.value.0, planned) <= CapNow(Snapshot())
                && Snapshot() == old(Snapshot()).(phase := phase)
                && phase == if old(phase).Listed? then Leg(0) else Bounded(old(phase).i, r.value.0, r.value.1)
      ensures r.Some? ==> exists tokens, p ::
                IsMeasured(old(ledger), tokens) && IsMaxPrice(endpoints, p) && r.value.0 == WorstOf(Baseline(tokens), p)
      ensures r.Some? ==> Floor(old(ledger), endpoints, r.value.0)
    {
      var liveDefault := MeasuredDefaultImageTokens(ledger);
      var worst := LiveWorstCase(endpoints, Baseline(liveDefault));
      hide Floor;
      if worst.None? {
        a := Crash;
        Quit();
        return None, a;
      }
      var ownerToday, ownerMonth := OwnerUpstreamTotals(ledger, today);
      var cap := Cap(daily, monthly, ownerToday, ownerMonth);
      var known, unknown := SceneSpendSoFar(ledger);
      a := if phase.Listed? then BoundList(worst.value) else BoundLeg(worst.value);
      if Projection(known, unknown, worst.value, planned) > cap {
        Quit();
        return None, a;
      }
      phase := if phase.Listed? then Leg(0) else Bounded(phase.i, worst.value, cap);
      r := Some((worst.value, cap));
      WorstIsFloor(ledger, endpoints, liveDefault, worst.value);
    }

    // What the provider and the calendar may do on their own.

    method ShowLate(inFlight: bool, k: nat, charge: real)
      requires inFlight == phase.InFlight? && k + (if inFlight then 1 else 0) < |creditOpen|
      modifies this`daily, this`monthly, this`creditOpen
      ensures Snapshot() == Next(old(Snapshot()), Land(k, charge))
      ensures inFlight ==> creditOpen != []
    {
      daily, monthly, creditOpen := daily + charge, monthly + charge, Drop(creditOpen, k);
    }

    method ShowDue(charge: real)
      requires 0.0 <= charge <= due
      modifies this`daily, this`monthly, this`due
      ensures Snapshot() == Next(old(Snapshot()), LandDue(charge))
    {
      daily, monthly, due := daily + charge, monthly + charge, due - charge;
    }

    method RuleOutOwner(ghost k: nat)
      modifies this`ownerOpen
      ensures Snapshot() == Next(old(Snapshot()), NoOwner(k))
    {
      ownerOpen := Next(Snapshot(), NoOwner(k)).ownerOpen;
    }

    method NextDay(day: Day)
      requires DateLe(today, day)
      modifies this`today
      ensures Snapshot() == Next(old(Snapshot()), Tick(day))
    {
      today := day;
    }

    method ResetCounters(x: real, y: real)
      requires 0.0 <= x <= daily && 0.0 <= y <= monthly
      modifies this`daily, this`monthly
      ensures Snapshot() == Next(old(Snapshot()), Reset(x, y))
    {
      daily, monthly := x, y;
    }

    method OthersSpend(x: real, y: real)
      requires x >= 0.0 && y >= 0.0
      modifies this`daily, this`monthly
      ensures Snapshot() == Next(old(Snapshot()), OtherSpend(x, y))
    {
      daily, monthly := daily + x, monthly + y;
    }

    /** One such move, if it is possible. */
    method MoveOn(inFlight: bool) returns (ghost a: Action)
      requires inFlight == phase.InFlight?
      modifies this`daily, this`monthly, this`due, this`today, this`creditOpen, this`ownerOpen
      ensures Snapshot() == Next(old(Snapshot()), a)
      ensures inFlight && old(creditOpen) != [] ==> creditOpen != []
    {
      hide Next;
      var day: Date := *;
      var x: real, y: real, k: int, move: int := *, *, *, *;
      if move == 0 && 0 <= k && k + (if inFlight then 1 else 0) < |creditOpen| {
        a := Land(k, x);
        ShowLate(inFlight, k, x);
      } else if move == 1 && 0.0 <= x <= due {
        a := LandDue(x);
        ShowDue(x);
      } else if move == 2 && 0.0 <= x <= daily && 0.0 <= y <= monthly {
        a := Reset(x, y);
        ResetCounters(x, y);
      } else if move == 3 && x >= 0.0 && y >= 0.0 {
        a := OtherSpend(x, y);
        OthersSpend(x, y);
      } else if move == 4 && k >= 0 {
        a := NoOwner(k);
        RuleOutOwner(k);
      } else {
        var next: Day := if ValidDate(day) && DateLe(today, day) then day else today;
        a := Tick(next);
        NextDay(next);
      }
    }

    /** Any number of such moves. */
    method Interlude(inFlight: bool) returns (ghost actions: seq<Action>)
      requires inFlight == phase.InFlight?
      modifies this`daily, this`monthly, this`due, this`today, this`creditOpen, this`ownerOpen
      ensures Snapshot() == Run(old(Snapshot()), actions)
      ensures inFlight && old(creditOpen) != [] ==> creditOpen != []
    {
      actions := [];
      ghost var s := Snapshot();
      var n: int := *;
      while n > 0
        invariant Snapshot() == Run(s, actions)
        invariant inFlight && old(creditOpen) != [] ==> creditOpen != []
      {
        hide Next, Run;
        ghost var a := MoveOn(inFlight);
        RunThen(s, actions, a);
        actions := actions + [a];
        n := n - 1;
      }
    }

    /** The guard inside the render call, and the POST leaving the machine when it passes. */
    method EnterRender(worst: real, cap: real) returns (sent: bool, ghost call: Action)
      requires phase.Armed? && phase.worst == worst && phase.cap == cap
      modifies this`phase, this`sends, this`creditOpen, this`ownerOpen
      ensures Snapshot() == Next(old(Snapshot()), call)
      ensures phase == if sent then InFlight(old(phase).i, worst) else Recorded(old(phase).i, false, true)
      ensures sends == old(sends) + (if sent then 1 else 0) && (sent ==> creditOpen != [])
    {
      hide Known, Unknown, Projection;
      var known, unknown := SceneSpendSoFar(ledger);
      var hasKey: bool := *;
      call := CallRender(hasKey);
      sent := Projection(known, unknown, worst, 1) <= cap && hasKey;
      if sent {
        sends, creditOpen, ownerOpen := sends + 1, creditOpen + [worst], ownerOpen + [worst];
        phase := InFlight(phase.i, worst);
      } else {
        phase := Recorded(phase.i, false, true);
      }
    }

    /** `render_scene`: guard again, then send. */
    method RenderScene(worst: real, cap: real) returns (o: Outcome, ghost actions: seq<Action>)
      requires phase.Armed? && phase.worst == worst && phase.cap == cap
      modifies this
      ensures Snapshot() == Run(old(Snapshot()), actions)
      ensures phase == Recorded(old(phase).i, o.answered, o.refused)
      ensures renders == old(renders) && marker == old(marker)
      ensures old(sends) <= sends <= old(sends) + 1 && Ledgers(old(ledger), sends - old(sends))
      ensures answered == old(answered) + (if o.answered then 1 else 0)
      ensures o.rendered ==> o.answered
    {
      hide Next, Run;
      ghost var s := Snapshot();
      var sent: bool;
      ghost var call: Action;
      sent, call := EnterRender(worst, cap);
      RunOne(s, call);
      actions := [call];
      if !sent { return Outcome(false, false, true), actions; }
      ghost var rest: seq<Action>;
      o, rest := PostAndRecord();
      RunAppend(s, [call], rest);
      actions := [call] + rest;
    }

    /** One POST and its ledger row, whatever the answer. */
    method PostAndRecord() returns (o: Outcome, ghost actions: seq<Action>)
      requires phase.InFlight? && creditOpen != []
      modifies this`phase, this`answered, this`daily, this`monthly, this`due, this`today, this`creditOpen, this`ownerOpen,
               this`ledger
      ensures Snapshot() == Run(old(Snapshot()), actions)
      ensures phase == Recorded(old(phase).i, o.answered, false) && !o.refused && Ledgers(old(ledger), 1)
      ensures answered == old(answered) + (if o.answered then 1 else 0)
      ensures o.rendered ==> o.answered
    {
      hide Run, Next;
      ghost var s := Snapshot();
      actions := Interlude(true);
      var got: Reply := *;
      var reply := if got.answered then got else Reply(false, None, None, None);
      Collect(got, reply);
      RunThen(s, actions, Receive(got));
      actions := actions + [Receive(got)];
      AppendRow(reply);
      RunThen(s, actions, Record);
      actions := actions + [Record];
      var image: bool := *;
      o := Outcome(reply.answered, reply.answered && image, false);
    }

    /** The POST ends: a stated cost is due on the counters. */
    method Collect(ghost got: Reply, reply: Reply)
      requires phase.InFlight? && creditOpen != []
      requires reply == if got.answered then got else Reply(false, None, None, None)
      modifies this`phase, this`answered, this`due, this`creditOpen
      ensures Snapshot() == Next(old(Snapshot()), Receive(got))
      ensures phase == Replied(old(phase).i, old(phase).worst, reply)
      ensures answered == old(answered) + if reply.answered then 1 else 0
    {
      if reply.cost.Some? {
        due := due + reply.cost.value;
        creditOpen := creditOpen[..|creditOpen| - 1];
      }
      answered := answered + if reply.answered then 1 else 0;
      phase := Replied(phase.i, phase.worst, reply);
    }

    /** `record_scene_call`. */
    method AppendRow(reply: Reply)
      requires phase.Replied? && phase.reply == reply
      modifies this`phase, this`ledger, this`ownerOpen
      ensures Snapshot() == Next(old(Snapshot()), Record)
      ensures phase == Recorded(old(phase).i, reply.answered, false)
      ensures ledger == old(ledger) + [LedgerRow(today, reply.cost, reply.imageTokens, reply.upstream)]
    {
      ledger := ledger + [LedgerRow(today, reply.cost, reply.imageTokens, reply.upstream)];
      if reply.upstream.Some? && ownerOpen != [] {
        ownerOpen := ownerOpen[..|ownerOpen| - 1];
      }
      phase := Recorded(phase.i, reply.answered, false);
    }

    /** `write_json(marker, marker_data)`: one atomic replacement. */
    method WriteMarkerFile()
      modifies this`marker
      ensures marker == Stored(renders)
    {
      marker := Stored(renders);
    }

    /** Settle the current leg's entry: sent exactly when a status code came back. */
    method SettleEntry(o: Outcome)
      requires phase.Recorded? && phase.answered == o.answered && phase.stop == o.refused && renders != []
      modifies this
      ensures Snapshot() == Next(old(Snapshot()), Settle)
      ensures phase == if o.refused then Idle else Leg(old(phase).i + 1)
      ensures !o.refused ==> |renders| == |old(renders)| && marker == Stored(renders)
      ensures sends == old(sends) && answered == old(answered) && ledger == old(ledger)
    {
      var n := |renders| - 1;
      renders := renders[n := renders[n].(sent := Settled(o.answered))];
      WriteMarkerFile();
      if o.refused {
        Quit();
      } else {
        phase := Leg(phase.i + 1);
      }
    }

    /** Bound, guard, durable pending entry, render, settle. */
    method RunLeg(i: nat) returns (step: LegStep, ghost actions: seq<Action>)
      requires phase == Leg(i) && i < TOTAL && |renders| == i
      modifies this
      ensures Snapshot() == Run(old(Snapshot()), actions)
      ensures step.Go? ==> phase == Leg(i + 1) && |renders| == i + 1
      ensures !step.Go? ==> phase.Idle?
      ensures old(sends) <= sends <= old(sends) + 1 && answered >= old(answered) && Ledgers(old(ledger), sends - old(sends))
      ensures step.Go? && step.rendered ==> answered > old(answered)
    {
      hide Run, Next, Known, Unknown, OwnerDay, OwnerMonth, Projection, ProjectionNow, CapNow, WorstOf, IsMaxPrice;
      ghost var s := Snapshot();
      actions := Interlude(false);
      var endpoints: seq<Endpoint> := *;
      var bound: Option<(real, real)>;
      ghost var bounding: Action;
      bound, bounding := BoundInputs(endpoints, 1);
      RunThen(s, actions, bounding);
      actions := actions + [bounding];
      if bound.None? { return Abort, actions; }
      var (worst, cap) := bound.value;
      RunThen(s, actions, Action.Guard);
      var passed := GuardLeg(worst, cap);
      actions := actions + [Action.Guard];
      if !passed { return Break, actions; }
      RunThen(s, actions, WritePending);
      AppendPending();
      actions := actions + [WritePending];
      ghost var rendering: seq<Action>;
      var o: Outcome;
      o, rendering := RenderScene(worst, cap);
      RunAppend(s, actions, rendering);
      actions := actions + rendering;
      RunThen(s, actions, Settle);
      SettleEntry(o);
      actions := actions + [Settle];
      step := if o.refused then Break else Go(o.rendered);
    }

    /** The guard on the ledger as it is now; a refusal is written down and ends the run. */
    method GuardLeg(worst: real, cap: real) returns (passed: bool)
      requires phase.Bounded? && phase.worst == worst && phase.cap == cap && |renders| == phase.i
      modifies this
      ensures Snapshot() == Next(old(Snapshot()), Action.Guard)
      ensures passed ==> phase == Cleared(old(phase).i, worst, cap) && renders == old(renders)
      ensures !passed ==> phase.Idle?
      ensures sends == old(sends) && answered == old(answered) && ledger == old(ledger)
    {
      var known, unknown := SceneSpendSoFar(ledger);
      passed := Projection(known, unknown, worst, 1) <= cap;
      if passed {
        phase := Cleared(phase.i, worst, cap);
      } else {
        renders := renders + [Entry(|renders|, Settled(false))];
        WriteMarkerFile();
        Quit();
      }
    }

    method AppendPending()
      requires phase.Cleared? && |renders| == phase.i
      modifies this
      ensures Snapshot() == Next(old(Snapshot()), WritePending)
      ensures phase == Armed(old(phase).i, old(phase).worst, old(phase).cap) && |renders| == |old(renders)| + 1
      ensures sends == old(sends) && answered == old(answered) && ledger == old(ledger)
    {
      renders := renders + [Entry(|renders|, Pending)];
      WriteMarkerFile();
      phase := Armed(phase.i, phase.worst, phase.cap);
    }

    /**
     * `run_render`: refuse when a prior run sent, write a fresh marker, bound the whole list, then one leg
     * after another. Every execution is a run of the protocol, and ledgers each POST once.
     */
    method RunRender() returns (status: Status, ghost actions: seq<Action>)
      requires phase.Idle?
      modifies this
      ensures Snapshot() == Run(old(Snapshot()), actions)
      ensures phase.Idle?
      ensures !AlreadySent(old(marker)) ==> [Start, WriteFresh] <= actions
      ensures AlreadySent(old(marker)) ==> status.Stopped? && sends == old(sends) && marker == old(marker)
      ensures old(sends) <= sends <= old(sends) + TOTAL && Ledgers(old(ledger), sends - old(sends))
      ensures status == Code(0) ==> answered > old(answered)
    {
      hide Run, Next, IsMaxPrice;
      ghost var s := Snapshot();
      if AlreadySent(marker) {
        actions := [];
        RunNothing(s);
        return Stopped, actions;
      }
      Begin();
      actions := [Start] + [WriteFresh];
      RunOne(s, Start);
      RunThen(s, [Start], WriteFresh);
      var endpoints: seq<Endpoint> := *;
      var bound: Option<(real, real)>;
      ghost var bounding: Action;
      bound, bounding := BoundInputs(endpoints, TOTAL);
      RunThen(s, actions, bounding);
      actions := actions + [bounding];
      if bound.None? { return Stopped, actions; }
      var rendered, stopped := 0, false;
      for i := 0 to TOTAL
        invariant Snapshot() == Run(s, actions) && [Start, WriteFresh] <= actions
        invariant !stopped && phase == Leg(i) && |renders| == i
        invariant s.sends <= sends <= s.sends + i && answered >= s.answered && Ledgers(s.ledger, sends - s.sends)
        invariant rendered > 0 ==> answered > s.answered
      {
        var step: LegStep;
        ghost var leg: seq<Action>;
        step, leg := RunLeg(i);
        RunAppend(s, actions, leg);
        actions := actions + leg;
        if step.Abort? { return Stopped, actions; }
        if step.Break? {
          stopped := true;
          break;
        }
        if step.rendered { rendered := rendered + 1; }
      }
      if !stopped {
        RunThen(s, actions, Finish);
        FinishRun();
        actions := actions + [Finish];
      }
      status := Code(if rendered > 0 then 0 else 1);
    }

    /** The prior marker allows a run: replace it by a fresh one. */
    method Begin()
      requires phase.Idle? && !AlreadySent(marker)
      modifies this
      ensures Snapshot() == Next(Next(old(Snapshot()), Start), WriteFresh)
      ensures phase.Listed? && renders == [] && sends == old(sends) && answered == old(answered) && ledger == old(ledger)
    {
      phase := Started;
      renders := [];
      WriteMarkerFile();
      phase := Listed;
    }

    method FinishRun()
      requires phase == Leg(TOTAL)
      modifies this
      ensures Snapshot() == Next(old(Snapshot()), Finish) && phase.Idle? && sends == old(sends) && answered == old(answered)
      ensures ledger == old(ledger)
    {
      Quit();
    }
  }
}
