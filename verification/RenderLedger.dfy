/** What an answer leaves in the ledger, and what every later bound owes to it. */
module RenderLedger {
  import opened Prelude
  import opened Dates
  import opened RenderBounds
  import opened RenderProtocol

  /** What happens without the driver: charges show, counters restart, days pass, others spend. */
  predicate Outside(a: Action) { a.Land? || a.LandDue? || a.NoOwner? || a.Reset? || a.Tick? || a.OtherSpend? }

  predicate AllOutside(actions: seq<Action>) { forall k | 0 <= k < |actions| :: Outside(actions[k]) }

  /** The POST in flight ends with `r`, other things happen, and the driver ledgers it. */
  function Answer(r: Reply, meanwhile: seq<Action>): seq<Action> { [Receive(r)] + meanwhile + [Record] }

  /** The row such a POST leaves: dated when it is written, and stating just what the answer stated. */
  function RowOf(r: Reply, day: Day): LedgerRow {
    if r.answered then LedgerRow(day, r.cost, r.imageTokens, r.upstream) else LedgerRow(day, None, None, None)
  }

  lemma OutsideStep(s: State, a: Action)
    requires Outside(a)
    ensures var s' := Next(s, a);
            && s'.phase == s.phase && s'.ledger == s.ledger && s'.marker == s.marker && s'.renders == s.renders
            && s'.sends == s.sends && s'.answered == s.answered && s'.burned == s.burned
  {
  }

  lemma {:induction false} OutsideRun(s: State, actions: seq<Action>)
    requires AllOutside(actions)
    ensures var s' := Run(s, actions);
            && s'.phase == s.phase && s'.ledger == s.ledger && s'.marker == s.marker && s'.renders == s.renders
            && s'.sends == s.sends && s'.answered == s.answered && s'.burned == s.burned
  {
    if actions != [] {
      var n := |actions| - 1;
      OutsideRun(s, actions[..n]);
      OutsideStep(Run(s, actions[..n]), actions[n]);
      hide Next;
    }
  }

  lemma Received(s: State, r: Reply)
    requires s.phase.InFlight?
    ensures var s' := Next(s, Receive(r));
            && s'.ledger == s.ledger && s'.today == s.today && s'.sends == s.sends
            && s'.phase.Replied? && s'.phase.i == s.phase.i
            && s'.phase.reply == (if r.answered then r else Reply(false, None, None, None))
            && s'.answered == s.answered + if r.answered then 1 else 0
  {
  }

  lemma Recording(s: State)
    requires s.phase.Replied?
    ensures var s', r := Next(s, Record), s.phase.reply;
            && s'.ledger == s.ledger + [LedgerRow(s.today, r.cost, r.imageTokens, r.upstream)] && s'.today == s.today
            && s'.phase == Recorded(s.phase.i, r.answered, false) && s'.sends == s.sends && s'.answered == s.answered
  {
  }

  /** One POST leaves one row, which holds the answer's own cost, tokens and owner-side cost. */
  lemma AnswerIsLedgered(s0: State, actions: seq<Action>, r: Reply, meanwhile: seq<Action>)
    requires Run(s0, actions).phase.InFlight? && AllOutside(meanwhile)
    ensures var s, s' := Run(s0, actions), Run(s0, actions + Answer(r, meanwhile));
            && s'.ledger == s.ledger + [RowOf(r, s'.today)]
            && s'.phase == Recorded(s.phase.i, r.answered, false)
            && s'.sends == s.sends && s'.answered == s.answered + if r.answered then 1 else 0
  {
    hide Run, Next;
    var s := Run(s0, actions);
    var s1 := Next(s, Receive(r));
    Received(s, r);
    OutsideRun(s1, meanwhile);
    var s2 := Run(s1, meanwhile);
    Recording(s2);
    RunOne(s, Receive(r));
    RunAppend(s, [Receive(r)], meanwhile);
    RunThen(s, [Receive(r)] + meanwhile, Record);
    RunAppend(s0, actions, Answer(r, meanwhile));
  }

  /** The same for the sums the bound reads: a stated cost is known, an unstated one unknown, an owner-side cost is the day's. */
  lemma AnswerIsCounted(s0: State, actions: seq<Action>, r: Reply, meanwhile: seq<Action>)
    requires Run(s0, actions).phase.InFlight? && AllOutside(meanwhile)
    ensures var s, s' := Run(s0, actions), Run(s0, actions + Answer(r, meanwhile));
            && Known(s'.ledger) == Known(s.ledger) + (if r.answered && r.cost.Some? then r.cost.value else 0.0)
            && Unknown(s'.ledger) == Unknown(s.ledger) + (if r.answered && r.cost.Some? then 0 else 1)
            && OwnerDay(s'.ledger, s'.today)
               == OwnerDay(s.ledger, s'.today) + (if r.answered && r.upstream.Some? then r.upstream.value else 0.0)
            && OwnerMonth(s'.ledger, s'.today)
               == OwnerMonth(s.ledger, s'.today) + (if r.answered && r.upstream.Some? then r.upstream.value else 0.0)
  {
    AnswerIsLedgered(s0, actions, r, meanwhile);
    hide Run, Next, Known, Unknown, OwnerDay, OwnerMonth, Answer;
    var s, s' := Run(s0, actions), Run(s0, actions + Answer(r, meanwhile));
    LedgerThen(s.ledger, RowOf(r, s'.today), s'.today);
  }

  /** The ledger is only appended to. */
  lemma LedgerStep(s: State, a: Action)
    ensures s.ledger <= Next(s, a).ledger
  {
  }

  lemma {:induction false} LedgerGrows(s: State, actions: seq<Action>)
    ensures s.ledger <= Run(s, actions).ledger
  {
    if actions != [] {
      var n := |actions| - 1;
      LedgerGrows(s, actions[..n]);
      LedgerStep(Run(s, actions[..n]), actions[n]);
      hide Next;
    }
  }

  /** The baseline is the cited default or a larger count of the ledger, and no count exceeds it. */
  lemma BaselineExactly(rows: seq<LedgerRow>, tokens: int, price: real)
    requires IsMeasured(rows, tokens)
    ensures var m := Baseline(tokens);
            && m >= 1290 && (m == 1290 || exists row :: row in rows && row.imageTokens == Some(m))
            && (forall row | row in rows && row.imageTokens.Some? :: row.imageTokens.value <= m)
            && WorstOf(m, price) == (2 * m) as real * price
  {
  }

  /** A ledger row's positive count is a floor for the measured one, and so for the worst case at any price. */
  lemma MeasuredIsFloor(rows: seq<LedgerRow>, row: LedgerRow, n: int, tokens: int, price: real)
    requires row in rows && row.imageTokens == Some(n) && n > 0 && IsMeasured(rows, tokens) && price >= 0.0
    ensures tokens >= n && WorstOf(Baseline(tokens), price) >= WorstOf(Baseline(n), price) >= (2 * n) as real * price
  {
    var k :| 0 <= k < |rows| && rows[k] == row;
    Scaled((Baseline(n) * TOKEN_MULTIPLIER) as real, (Baseline(tokens) * TOKEN_MULTIPLIER) as real, price);
    Scaled((2 * n) as real, (Baseline(n) * TOKEN_MULTIPLIER) as real, price);
  }

  /** No positive count of the ledger, twice at the largest price, is above this worst case. */
  ghost predicate Floor(rows: seq<LedgerRow>, endpoints: seq<Endpoint>, worst: real) {
    forall row, p | row in rows && row.imageTokens.Some? && row.imageTokens.value > 0 && IsMaxPrice(endpoints, p) && p >= 0.0 ::
      worst >= (2 * row.imageTokens.value) as real * p
  }

  lemma WorstIsFloor(rows: seq<LedgerRow>, endpoints: seq<Endpoint>, tokens: int, worst: real)
    requires IsMeasured(rows, tokens)
    requires forall p | IsMaxPrice(endpoints, p) :: worst == WorstOf(Baseline(tokens), p)
    ensures Floor(rows, endpoints, worst)
  {
    hide IsMeasured, IsMaxPrice, Baseline, WorstOf;
    forall row, p | row in rows && row.imageTokens.Some? && row.imageTokens.value > 0 && IsMaxPrice(endpoints, p) && p >= 0.0
      ensures worst >= (2 * row.imageTokens.value) as real * p
    {
      MeasuredIsFloor(rows, row, row.imageTokens.value, tokens, p);
    }
  }

  /** The answer's row is in the ledger of every later state. */
  lemma AnswerStays(s0: State, before: seq<Action>, r: Reply, meanwhile: seq<Action>, after: seq<Action>)
    requires Run(s0, before).phase.InFlight? && AllOutside(meanwhile)
    ensures var today := Run(s0, before + Answer(r, meanwhile)).today;
            RowOf(r, today) in Run(s0, before + Answer(r, meanwhile) + after).ledger
  {
    AnswerIsLedgered(s0, before, r, meanwhile);
    hide Run, Next, Answer;
    var s := Run(s0, before + Answer(r, meanwhile));
    RunAppend(s0, before + Answer(r, meanwhile), after);
    LedgerGrows(s, after);
    var rows := Run(s, after).ledger;
    assert RowOf(r, s.today) == s.ledger[|s.ledger| - 1] == rows[|s.ledger| - 1];
  }

  /** Once an answer has stated a token count, no later worst case of any run is below that count's. */
  lemma AnswerRaisesBounds(
    s0: State, before: seq<Action>, r: Reply, n: int, meanwhile: seq<Action>, after: seq<Action>, tokens: int, price: real)
    requires Run(s0, before).phase.InFlight? && AllOutside(meanwhile)
    requires r.answered && r.imageTokens == Some(n) && n > 0 && price >= 0.0
    requires IsMeasured(Run(s0, before + Answer(r, meanwhile) + after).ledger, tokens)
    ensures WorstOf(Baseline(tokens), price) >= WorstOf(Baseline(n), price) >= (2 * n) as real * price
  {
    AnswerStays(s0, before, r, meanwhile, after);
    hide Run, Next, Answer, IsMeasured, Baseline, WorstOf;
    var row := RowOf(r, Run(s0, before + Answer(r, meanwhile)).today);
    MeasuredIsFloor(Run(s0, before + Answer(r, meanwhile) + after).ledger, row, n, tokens, price);
  }
}
