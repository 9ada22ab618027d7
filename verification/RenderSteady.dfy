/** When the caps hold without looking at the outstanding charges: runs whose worst cases never fall. */
module RenderSteady {
  import opened Prelude
  import opened RenderBounds
  import opened RenderProtocol
  import opened RenderSafety

  /** Every bound of the run, and every charge open before it, is at most `w`. */
  ghost predicate Below(s: State, actions: seq<Action>, w: real) {
    && AtMost(s.creditOpen, w) && AtMost(s.ownerOpen, w)
    && forall k | 0 <= k < |actions| && actions[k].BoundLeg? :: actions[k].worst <= w
  }

  /** No leg's worst case is below an earlier one, nor below a charge open before the run. */
  ghost predicate Steady(s: State, actions: seq<Action>) {
    forall k | 0 <= k < |actions| && actions[k].BoundLeg? :: Below(s, actions[..k], actions[k].worst)
  }

  /** At each leg no more owner-side bounds are open than there are unknown calls. */
  ghost predicate OwnerCounted(s: State, actions: seq<Action>) {
    forall k | 0 <= k < |actions| && actions[k].BoundLeg? && Run(s, actions[..k]).phase.Leg? ::
      |Run(s, actions[..k]).ownerOpen| <= Unknown(Run(s, actions[..k]).ledger)
  }

  /** Every charge is within its bound, and nobody else spends while a leg is open. */
  ghost predicate ChargedRun(s: State, actions: seq<Action>) {
    forall k | 0 <= k < |actions| :: Charged(Run(s, actions[..k]), actions[k])
  }

  // ----- the open bounds of a steady run -----

  /** What is open, or about to be, is at most `w`. */
  ghost predicate OpenBelow(s: State, w: real) {
    && AtMost(s.creditOpen, w) && AtMost(s.ownerOpen, w)
    && (s.phase.Bounded? || s.phase.Cleared? || s.phase.Armed? ==> s.phase.worst <= w)
  }

  lemma NextOpenBelow(s: State, a: Action, w: real)
    requires OpenBelow(s, w) && (a.BoundLeg? ==> a.worst <= w)
    ensures OpenBelow(Next(s, a), w)
  {
    if a.Land? || a.NoOwner? || a.CallRender? {
      ChangedOpenBelow(s, a, w);
    } else {
      hide Known, Unknown, OwnerDay, OwnerMonth, ProjectionNow, CapNow, AlreadySent, Late, LateOwner, Drop;
    }
  }

  lemma ChangedOpenBelow(s: State, a: Action, w: real)
    requires OpenBelow(s, w) && (a.Land? || a.NoOwner? || a.CallRender?)
    ensures OpenBelow(Next(s, a), w)
  {
    hide Unknown, Known, ProjectionNow;
  }

  lemma {:induction false} RunOpenBelow(s: State, actions: seq<Action>, w: real)
    requires Initial(s) && Below(s, actions, w)
    ensures OpenBelow(Run(s, actions), w)
  {
    hide Next;
    if actions != [] {
      var n := |actions| - 1;
      assert forall k | 0 <= k < n :: actions[..n][k] == actions[k];
      RunOpenBelow(s, actions[..n], w);
      hide OpenBelow, AtMost;
      NextOpenBelow(Run(s, actions[..n]), actions[n], w);
    }
  }

  lemma Prefix(s: State, actions: seq<Action>, n: nat)
    requires n <= |actions| && Steady(s, actions) && OwnerCounted(s, actions) && ChargedRun(s, actions)
    ensures Steady(s, actions[..n]) && OwnerCounted(s, actions[..n]) && ChargedRun(s, actions[..n])
  {
    assert forall k | 0 <= k < n :: actions[..n][k] == actions[k] && actions[..n][..k] == actions[..k];
    hide Run, Below, Charged, Unknown;
  }

  /** A steady run whose owner-side bounds are counted meets the environment of the caps. */
  lemma {:induction false} SteadyRunIsAdmissible(s: State, actions: seq<Action>)
    requires Initial(s) && Steady(s, actions) && OwnerCounted(s, actions) && ChargedRun(s, actions)
    ensures AdmissibleRun(s, actions)
  {
    if actions != [] {
      var n := |actions| - 1;
      Prefix(s, actions, n);
      SteadyRunIsAdmissible(s, actions[..n]);
      RunKeepsSpend(s, actions[..n]);
      var s1, a := Run(s, actions[..n]), actions[n];
      hide Run, Initial, AdmissibleRun, SpendInv, Charged, OpenBelow, RenderSafety.Covers, Below, AtMost;
      assert Charged(s1, a);
      if a.BoundLeg? && s1.phase.Leg? {
        LegCovers(s, actions[..n], a.worst);
      }
      assert Admissible(s1, a);
    }
    hide Run, Initial, SpendInv, Admissible;
  }

  lemma LegCovers(s: State, actions: seq<Action>, worst: real)
    requires Initial(s) && Below(s, actions, worst) && worst >= 0.0
    requires var s1 := Run(s, actions); SpendInv(s1) && s1.phase.Leg? && |s1.ownerOpen| <= Unknown(s1.ledger)
    ensures RenderSafety.Covers(Run(s, actions), worst)
  {
    RunOpenBelow(s, actions, worst);
    hide Run, SpendInv, Unknown, AtMost, RenderSafety.Covers;
    SteadyPricesCover(Run(s, actions), worst);
  }

  /** So every counter stays within its cap, whatever is outstanding. */
  lemma SteadyCapsHold(s: State, actions: seq<Action>)
    requires Initial(s) && Within(s) && OnlyUser(actions)
    requires Steady(s, actions) && OwnerCounted(s, actions) && ChargedRun(s, actions)
    ensures var s' := Run(s, actions);
            && Within(s')
            && s'.daily <= CAP_DAILY && s'.monthly <= CAP_MONTHLY
            && OwnerDay(s'.ledger, s'.today) <= CAP_DAILY && OwnerMonth(s'.ledger, s'.today) <= CAP_MONTHLY
  {
    hide *;
    SteadyRunIsAdmissible(s, actions);
    CapsHold(s, actions);
  }

  // ----- counting owner-side bounds by the answers -----

  /** Every answer that states its credit cost states its owner-side cost too. */
  ghost predicate OwnerStated(actions: seq<Action>) {
    forall k | 0 <= k < |actions| && actions[k].Receive? :: StatesBoth(actions[k].reply)
  }

  predicate StatesBoth(r: Reply) { r.answered && r.cost.Some? ==> r.upstream.Some? }

  /** Owner-side bounds each have a ledger row of unknown cost, but for a send that is not recorded yet. */
  ghost predicate OwnCovered(s: State) {
    var own, unknown := |s.ownerOpen|, Unknown(s.ledger);
    match s.phase
    case InFlight(_, _) => own <= unknown + 1
    case Replied(_, _, r) => own <= unknown + 1 && (r.cost.Some? ==> r.upstream.Some?)
    case Idle => AlreadySent(s.marker) || own <= unknown
    case _ => own <= unknown
  }

  lemma ExitKeepsCount(s: State)
    requires MarkerInv(s) && OwnCovered(s)
    ensures OwnCovered(Exit(s))
  {
    if s.phase.InFlight? || s.phase.Replied? {
      assert s.renders[s.phase.i] in s.renders && Truthy(s.renders[s.phase.i]);
    }
  }

  lemma NextKeepsCount(s: State, a: Action)
    requires MarkerInv(s) && OwnCovered(s) && (a.Receive? ==> StatesBoth(a.reply))
    ensures OwnCovered(Next(s, a))
  {
    hide *;
    if Next(s, a) == Exit(s) {
      ExitKeepsCount(s);
    } else if a.Record? || a.Settle? || a.Guard? {
      StepKeepsCount(s, a);
    } else {
      OtherKeepsCount(s, a);
    }
  }

  lemma StepKeepsCount(s: State, a: Action)
    requires MarkerInv(s) && OwnCovered(s) && (a.Record? || a.Settle? || a.Guard?)
    ensures OwnCovered(Next(s, a))
  {
    if a.Record? && s.phase.Replied? {
      var r := s.phase.reply;
      LedgerThen(s.ledger, LedgerRow(s.today, r.cost, r.imageTokens, r.upstream), s.today);
    }
    hide MarkerInv, Known, Unknown, OwnerDay, OwnerMonth, ProjectionNow;
  }

  lemma OtherKeepsCount(s: State, a: Action)
    requires OwnCovered(s) && (a.Receive? ==> StatesBoth(a.reply))
    requires !a.Record? && !a.Settle? && !a.Guard? && Next(s, a) != Exit(s)
    ensures OwnCovered(Next(s, a))
  {
    hide Known, Unknown, OwnerDay, OwnerMonth, ProjectionNow, CapNow, Late, Exit;
  }

  lemma {:induction false} RunKeepsCount(s: State, actions: seq<Action>)
    requires Initial(s) && |s.ownerOpen| <= Unknown(s.ledger) && OwnerStated(actions)
    ensures OwnCovered(Run(s, actions))
  {
    if actions != [] {
      hide Next, OwnCovered, StatesBoth, Initial;
      var n := |actions| - 1;
      assert forall k | 0 <= k < n :: actions[..n][k] == actions[k];
      RunKeepsCount(s, actions[..n]);
      RunKeepsMarker(s, actions[..n]);
      NextKeepsCount(Run(s, actions[..n]), actions[n]);
    }
  }

  /** When every answer states both costs or none, the owner-side bounds are counted. */
  lemma StatedAnswersCount(s: State, actions: seq<Action>)
    requires Initial(s) && |s.ownerOpen| <= Unknown(s.ledger) && OwnerStated(actions)
    ensures OwnerCounted(s, actions)
  {
    hide Run, Initial, StatesBoth, Unknown;
    forall k | 0 <= k < |actions| && actions[k].BoundLeg? && Run(s, actions[..k]).phase.Leg?
      ensures |Run(s, actions[..k]).ownerOpen| <= Unknown(Run(s, actions[..k]).ledger)
    {
      assert forall j | 0 <= j < k :: actions[..k][j] == actions[j];
      RunKeepsCount(s, actions[..k]);
    }
  }
}
