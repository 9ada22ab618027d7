/** What the bulk render driver reads before it spends: prices, measured tokens, the ledger and the caps. */
module RenderBounds {
  import opened Prelude
  import opened Dates

  const CAP_DAILY := 2.00
  const CAP_MONTHLY := 10.00
  const CITED_IMAGE_TOKENS: int := 1290
  const TOKEN_MULTIPLIER := 2

  // ----- the provider-call ledger -----

  /** An openrouter row; the usage fields are what its stored JSON states with the right type. */
  datatype LedgerRow = LedgerRow(created: Day, cost: Option<real>, imageTokens: Option<int>, upstream: Option<real>)

  function Known(rows: seq<LedgerRow>): real {
    if rows == [] then 0.0
    else
      var row := rows[|rows| - 1];
      Known(rows[..|rows| - 1]) + if row.cost.Some? then row.cost.value else 0.0
  }

  function Unknown(rows: seq<LedgerRow>): nat {
    if rows == [] then 0
    else Unknown(rows[..|rows| - 1]) + if rows[|rows| - 1].cost.None? then 1 else 0
  }

  /** `scene_spend_so_far`. */
  method SceneSpendSoFar(rows: seq<LedgerRow>) returns (known: real, unknown: nat)
    ensures known == Known(rows) && unknown == Unknown(rows)
  {
    known, unknown := 0.0, 0;
    for k := 0 to |rows|
      invariant known == Known(rows[..k]) && unknown == Unknown(rows[..k])
    {
      assert rows[..k + 1][..k] == rows[..k];
      if rows[k].cost.None? {
        unknown := unknown + 1;
      } else {
        known := known + rows[k].cost.value;
      }
    }
    assert rows[..|rows|] == rows;
  }

  predicate SameMonth(d: Day, e: Day) { d.year == e.year && d.month == e.month }

  function Upstream(row: LedgerRow): real { if row.upstream.Some? then row.upstream.value else 0.0 }

  function OwnerDay(rows: seq<LedgerRow>, today: Day): real {
    if rows == [] then 0.0
    else
      var row := rows[|rows| - 1];
      OwnerDay(rows[..|rows| - 1], today) + if row.created == today then Upstream(row) else 0.0
  }

  function OwnerMonth(rows: seq<LedgerRow>, today: Day): real {
    if rows == [] then 0.0
    else
      var row := rows[|rows| - 1];
      OwnerMonth(rows[..|rows| - 1], today) + if SameMonth(row.created, today) then Upstream(row) else 0.0
  }

  /** `owner_upstream_totals`. */
  method OwnerUpstreamTotals(rows: seq<LedgerRow>, today: Day) returns (day: real, month: real)
    ensures day == OwnerDay(rows, today) && month == OwnerMonth(rows, today)
  {
    day, month := 0.0, 0.0;
    for k := 0 to |rows|
      invariant day == OwnerDay(rows[..k], today) && month == OwnerMonth(rows[..k], today)
    {
      assert rows[..k + 1][..k] == rows[..k];
      if rows[k].upstream.None? { continue; }
      if rows[k].created == today { day := day + rows[k].upstream.value; }
      if SameMonth(rows[k].created, today) { month := month + rows[k].upstream.value; }
    }
    assert rows[..|rows|] == rows;
  }

  lemma LedgerThen(rows: seq<LedgerRow>, row: LedgerRow, today: Day)
    ensures Known(rows + [row]) == Known(rows) + if row.cost.Some? then row.cost.value else 0.0
    ensures Unknown(rows + [row]) == Unknown(rows) + if row.cost.None? then 1 else 0
    ensures OwnerDay(rows + [row], today) == OwnerDay(rows, today) + if row.created == today then Upstream(row) else 0.0
    ensures OwnerMonth(rows + [row], today)
            == OwnerMonth(rows, today) + if SameMonth(row.created, today) then Upstream(row) else 0.0
  {
    assert (rows + [row])[..|rows|] == rows;
  }

  /** Costs are not negative and no row is from the future. */
  ghost predicate LedgerOk(rows: seq<LedgerRow>, today: Day) {
    forall k | 0 <= k < |rows| ::
      && DateLe(rows[k].created, today)
      && (rows[k].cost.Some? ==> rows[k].cost.value >= 0.0) && Upstream(rows[k]) >= 0.0
  }

  /** A later day starts from nothing, and its month from nothing or from where it was. */
  lemma {:induction false} LaterDay(rows: seq<LedgerRow>, today: Day, later: Day)
    requires LedgerOk(rows, today) && DateLe(today, later)
    ensures LedgerOk(rows, later)
    ensures 0.0 <= OwnerDay(rows, later) <= OwnerDay(rows, today)
    ensures 0.0 <= OwnerMonth(rows, later) <= OwnerMonth(rows, today)
    ensures OwnerDay(rows, today) <= OwnerMonth(rows, today)
    ensures Known(rows) >= 0.0
  {
    if rows != [] {
      LaterDay(rows[..|rows| - 1], today, later);
    }
  }

  // ----- the worst case -----

  /** The largest positive image-token count of the ledger, else the cited default. */
  ghost predicate IsMeasured(rows: seq<LedgerRow>, tokens: int) {
    if forall k | 0 <= k < |rows| && rows[k].imageTokens.Some? :: rows[k].imageTokens.value <= 0
    then tokens == CITED_IMAGE_TOKENS
    else
      && (exists k :: 0 <= k < |rows| && rows[k].imageTokens == Some(tokens))
      && forall k | 0 <= k < |rows| && rows[k].imageTokens.Some? :: rows[k].imageTokens.value <= tokens
  }

  method MeasuredDefaultImageTokens(rows: seq<LedgerRow>) returns (tokens: int)
    ensures IsMeasured(rows, tokens)
  {
    var measured: seq<int> := [];
    for k := 0 to |rows|
      invariant forall m | m in measured :: m > 0 && exists j | 0 <= j < k :: rows[j].imageTokens == Some(m)
      invariant forall j | 0 <= j < k && rows[j].imageTokens.Some? && rows[j].imageTokens.value > 0 ::
                  rows[j].imageTokens.value in measured
    {
      if rows[k].imageTokens.Some? && rows[k].imageTokens.value > 0 {
        measured := measured + [rows[k].imageTokens.value];
      }
    }
    if measured == [] { return CITED_IMAGE_TOKENS; }
    tokens := measured[0];
    for k := 1 to |measured|
      invariant tokens in measured && forall j | 0 <= j < k :: measured[j] <= tokens
    {
      if measured[k] > tokens { tokens := measured[k]; }
    }
  }

  function Baseline(liveDefault: int): int { if liveDefault > CITED_IMAGE_TOKENS then liveDefault else CITED_IMAGE_TOKENS }

  /** A pricing line: whether it is billable, its lower-cased unit, and its price when that is a number. */
  datatype Line = Line(billable: bool, unit: string, price: Option<real>)

  type Endpoint = seq<Line>

  predicate StartsAt(s: string, i: nat, word: string) { i + |word| <= |s| && s[i..i + |word|] == word }

  predicate Mentions(s: string, word: string) { exists i | 0 <= i <= |s| :: StartsAt(s, i, word) }

  predicate Counts(line: Line) { line.billable && Mentions(line.unit, "token") && line.price.Some? }

  /** Some endpoint lists this token price. */
  ghost predicate Listed(endpoints: seq<Endpoint>, price: real) {
    exists i, j :: 0 <= i < |endpoints| && 0 <= j < |endpoints[i]|
                   && Counts(endpoints[i][j]) && endpoints[i][j].price == Some(price)
  }

  lemma MentionsExactly(s: string, word: string)
    ensures Mentions(s, word) <==> exists before, after :: s == before + word + after
  {
    if Mentions(s, word) {
      var k :| 0 <= k <= |s| && StartsAt(s, k, word);
      assert s == s[..k] + word + s[k + |word|..];
    }
    if before, after :| s == before + word + after {
      assert StartsAt(s, |before|, word);
    }
  }

  /** A billable line with this price, whose unit contains "token". */
  ghost predicate TokenPrice(line: Line, price: real) {
    line.billable && line.price == Some(price) && exists before, after :: line.unit == before + "token" + after
  }

  /** The listed prices are those of such lines. */
  lemma ListedExactly(endpoints: seq<Endpoint>, price: real)
    ensures Listed(endpoints, price) <==> exists endpoint, line :: endpoint in endpoints && line in endpoint && TokenPrice(line, price)
  {
    forall line: Line ensures TokenPrice(line, price) <==> Counts(line) && line.price == Some(price) {
      MentionsExactly(line.unit, "token");
    }
    hide TokenPrice, Counts;
    if endpoint, line :| endpoint in endpoints && line in endpoint && TokenPrice(line, price) {
      var i :| 0 <= i < |endpoints| && endpoints[i] == endpoint;
      var j :| 0 <= j < |endpoint| && endpoint[j] == line;
      assert TokenPrice(endpoints[i][j], price);
    }
    if Listed(endpoints, price) {
      var i, j :| 0 <= i < |endpoints| && 0 <= j < |endpoints[i]| && Counts(endpoints[i][j]) && endpoints[i][j].price == Some(price);
      assert endpoints[i] in endpoints && endpoints[i][j] in endpoints[i] && TokenPrice(endpoints[i][j], price);
    }
  }

  ghost predicate IsMaxPrice(endpoints: seq<Endpoint>, price: real) {
    Listed(endpoints, price) && forall p | Listed(endpoints, p) :: p <= price
  }

  function WorstOf(baseline: int, price: real): real { (baseline * TOKEN_MULTIPLIER) as real * price }

  /** `live_worst_case`: None when no token price is listed, which stops the run. */
  method LiveWorstCase(endpoints: seq<Endpoint>, baseline: int) returns (worst: Option<real>)
    ensures worst.None? ==> forall p :: !Listed(endpoints, p)
    ensures worst.Some? ==> exists p :: IsMaxPrice(endpoints, p) && worst.value == WorstOf(baseline, p)
  {
    var maxPrice: Option<real> := None;
    for i := 0 to |endpoints|
      invariant maxPrice.Some? ==> Listed(endpoints, maxPrice.value)
      invariant forall i', j | 0 <= i' < i && 0 <= j < |endpoints[i']| && Counts(endpoints[i'][j]) ::
                  maxPrice.Some? && endpoints[i'][j].price.value <= maxPrice.value
    {
      for j := 0 to |endpoints[i]|
        invariant maxPrice.Some? ==> Listed(endpoints, maxPrice.value)
        invariant forall i', j' | 0 <= i' < i && 0 <= j' < |endpoints[i']| && Counts(endpoints[i'][j']) ::
                    maxPrice.Some? && endpoints[i'][j'].price.value <= maxPrice.value
        invariant forall j' | 0 <= j' < j && Counts(endpoints[i][j']) ::
                    maxPrice.Some? && endpoints[i][j'].price.value <= maxPrice.value
      {
        var line := endpoints[i][j];
        if !line.billable || !Mentions(line.unit, "token") || line.price.None? { continue; }
        if maxPrice.None? || line.price.value > maxPrice.value {
          maxPrice := line.price;
        }
      }
    }
    if maxPrice.None? { return None; }
    assert IsMaxPrice(endpoints, maxPrice.value);
    worst := Some(WorstOf(baseline, maxPrice.value));
  }

  /** A bill: tokens charged at listed prices. */
  datatype Item = Item(tokens: nat, price: real)

  function Tokens(bill: seq<Item>): nat { if bill == [] then 0 else Tokens(bill[1..]) + bill[0].tokens }

  function Cost(bill: seq<Item>): real { if bill == [] then 0.0 else Cost(bill[1..]) + bill[0].tokens as real * bill[0].price }

  ghost predicate BilledAt(endpoints: seq<Endpoint>, bill: seq<Item>) {
    forall k | 0 <= k < |bill| :: Listed(endpoints, bill[k].price)
  }

  lemma {:induction false} CostAtMost(endpoints: seq<Endpoint>, bill: seq<Item>, max: real)
    requires IsMaxPrice(endpoints, max) && BilledAt(endpoints, bill)
    ensures Cost(bill) <= Tokens(bill) as real * max
  {
    if bill != [] {
      assert forall k | 0 <= k < |bill[1..]| :: bill[1..][k] == bill[k + 1];
      CostAtMost(endpoints, bill[1..], max);
      OneMoreItem(Cost(bill[1..]), Tokens(bill[1..]) as real, bill[0].tokens as real, bill[0].price, max);
    }
  }

  lemma OneMoreItem(cost: real, tokens: real, n: real, price: real, max: real)
    requires cost <= tokens * max && n >= 0.0 && price <= max
    ensures cost + n * price <= (tokens + n) * max
  {
    assert (tokens + n) * max == tokens * max + n * max;
    Scaled(price, max, n);
  }

  lemma CoversBill(endpoints: seq<Endpoint>, baseline: int, max: real, bill: seq<Item>)
    requires IsMaxPrice(endpoints, max) && BilledAt(endpoints, bill) && max >= 0.0
    requires Tokens(bill) <= baseline * TOKEN_MULTIPLIER
    ensures Cost(bill) <= WorstOf(baseline, max)
  {
    CostAtMost(endpoints, bill, max);
    Scaled(Tokens(bill) as real, (baseline * TOKEN_MULTIPLIER) as real, max);
  }

  lemma Scaled(x: real, y: real, m: real)
    requires x <= y && m >= 0.0
    ensures x * m <= y * m
  {
  }

  lemma Negative(n: real, p: real)
    requires n > 0.0 && p < 0.0
    ensures n * p < 0.0
  {
  }

  ghost predicate Covers(endpoints: seq<Endpoint>, baseline: int, max: real) {
    forall bill | BilledAt(endpoints, bill) && Tokens(bill) <= baseline * TOKEN_MULTIPLIER :: Cost(bill) <= WorstOf(baseline, max)
  }

  /**
   * Every bill of at most twice the baseline at listed prices is within the worst case exactly when some token
   * price is not negative.
   */
  lemma WorstCaseCoversExactly(endpoints: seq<Endpoint>, baseline: int, max: real)
    requires IsMaxPrice(endpoints, max) && baseline > 0
    ensures Covers(endpoints, baseline, max) <==> max >= 0.0
  {
    if max >= 0.0 {
      forall bill | BilledAt(endpoints, bill) && Tokens(bill) <= baseline * TOKEN_MULTIPLIER
        ensures Cost(bill) <= WorstOf(baseline, max)
      {
        CoversBill(endpoints, baseline, max, bill);
      }
    } else {
      var nothing: seq<Item> := [];
      assert BilledAt(endpoints, nothing) && Tokens(nothing) <= baseline * TOKEN_MULTIPLIER;
      Negative((baseline * TOKEN_MULTIPLIER) as real, max);
      assert Cost(nothing) > WorstOf(baseline, max);
    }
  }

  /** And some such bill costs all of it. */
  lemma WorstCaseIsAttained(endpoints: seq<Endpoint>, baseline: int, max: real)
    requires IsMaxPrice(endpoints, max) && baseline > 0
    ensures exists bill :: BilledAt(endpoints, bill) && Tokens(bill) == 2 * baseline && Cost(bill) == WorstOf(baseline, max)
  {
    var bill := [Item(2 * baseline, max)];
    var none: seq<Item> := [];
    assert bill[1..] == none && Tokens(none) == 0 && Cost(none) == 0.0;
    assert Cost(bill) == (2 * baseline) as real * max && 2 * baseline == baseline * TOKEN_MULTIPLIER;
    assert BilledAt(endpoints, bill) && Tokens(bill) == 2 * baseline && Cost(bill) == WorstOf(baseline, max);
  }

  // ----- the bound -----

  function Min(x: real, y: real): real { if x <= y then x else y }

  /** The least remainder under the four caps. */
  function Cap(daily: real, monthly: real, ownerToday: real, ownerMonth: real): real {
    Min(Min(CAP_DAILY - daily, CAP_MONTHLY - monthly), Min(CAP_DAILY - ownerToday, CAP_MONTHLY - ownerMonth))
  }

  /** Known spend, unknown calls at the worst case again, and the planned sends. */
  function Projection(known: real, unknown: nat, worst: real, planned: nat): real {
    known + unknown as real * worst + planned as real * worst
  }
}
