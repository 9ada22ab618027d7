/** The lifecycle backfill: a dry run that predicts what applying does. */
module LifecycleBackfill {
  import opened Prelude

  /** Any vocabulary holding the fallback, and any way of folding case and space. */
  datatype Rules = Rules(vocabulary: set<string>, fold: string -> string, archived: string)

  type Vocabulary = r: Rules | r.archived in r.vocabulary witness Rules({"ARCHIVED"}, (s: string) => s, "ARCHIVED")

  /** `canonical_status`. */
  function Canonical(r: Vocabulary, v: string): (t: string)
    ensures t in r.vocabulary && (v in r.vocabulary <==> t == v)
  {
    if v in r.vocabulary then v else if r.fold(v) in r.vocabulary then r.fold(v) else r.archived
  }

  /** Every status converted at once. */
  function Converted(r: Vocabulary, s: seq<string>): (c: seq<string>)
    ensures |c| == |s| && forall i | 0 <= i < |s| :: c[i] == Canonical(r, s[i])
  {
    seq(|s|, i requires 0 <= i < |s| => Canonical(r, s[i]))
  }

  function Count(s: seq<string>, v: string): nat {
    if s == [] then 0 else Count(s[..|s| - 1], v) + if s[|s| - 1] == v then 1 else 0
  }

  /** `{status: count}` of a table. */
  function CensusOf(s: seq<string>): map<string, nat> { map v | v in s :: Count(s, v) }

  type Groups = seq<(string, nat)>

  /** The rows of GROUP BY: each stored value once, with its count. */
  ghost predicate IsCensus(s: seq<string>, g: Groups) {
    && (forall i, j | 0 <= i < j < |g| :: g[i].0 != g[j].0)
    && (forall i | 0 <= i < |g| :: g[i].0 in s && g[i].1 == Count(s, g[i].0))
    && (forall v | v in s :: v in Keys(g))
  }

  function Keys(g: Groups): set<string> { set i | 0 <= i < |g| :: g[i].0 }

  /** Rows whose value is one of `k` and satisfies `p`. */
  function CountIn(s: seq<string>, k: set<string>, p: string -> bool): nat {
    if s == [] then 0
    else CountIn(s[..|s| - 1], k, p) + if s[|s| - 1] in k && p(s[|s| - 1]) then 1 else 0
  }

  lemma {:induction false} OneMoreKey(s: seq<string>, k: set<string>, v: string, p: string -> bool)
    requires v !in k
    ensures CountIn(s, k + {v}, p) == CountIn(s, k, p) + if p(v) then Count(s, v) else 0
  {
    if s != [] { OneMoreKey(s[..|s| - 1], k, v, p); }
  }

  lemma KeysThen(g: Groups, k: nat)
    requires k < |g| && forall i, j | 0 <= i < j < |g| :: g[i].0 != g[j].0
    ensures Keys(g[..k + 1]) == Keys(g[..k]) + {g[k].0} && g[k].0 !in Keys(g[..k])
  {
    var b := g[..k + 1];
    forall x | x in Keys(g[..k]) ensures x in Keys(b) {
      var i :| 0 <= i < k && g[..k][i].0 == x;
      assert b[i].0 == x;
    }
    assert b[k].0 == g[k].0;
    forall x | x in Keys(b) ensures x in Keys(g[..k]) || x == g[k].0 {
      var i :| 0 <= i < |b| && b[i].0 == x;
      if i < k { assert g[..k][i].0 == x; }
    }
  }

  lemma CensusKey(s: seq<string>, g: Groups, k: nat)
    requires IsCensus(s, g) && k < |g|
    ensures Keys(g[..k + 1]) == Keys(g[..k]) + {g[k].0} && g[k].0 !in Keys(g[..k]) && g[k].1 == Count(s, g[k].0)
  {
    hide Keys;
    KeysThen(g, k);
  }

  lemma {:induction false} NoKeys(s: seq<string>, p: string -> bool)
    ensures CountIn(s, {}, p) == 0
  {
    if s != [] { NoKeys(s[..|s| - 1], p); }
  }

  /** `census`: GROUP BY in any order. */
  method Census(table: array<string>) returns (g: Groups)
    ensures IsCensus(table[..], g)
  {
    g := [];
    var s := table[..];
    for i := 0 to |s|
      invariant IsCensus(s[..i], g)
    {
      assert s[..i + 1] == s[..i] + [s[i]] && s[..i + 1][..i] == s[..i];
      var k := 0;
      while k < |g| && g[k].0 != s[i]
        invariant 0 <= k <= |g| && forall j | 0 <= j < k :: g[j].0 != s[i]
      {
        k := k + 1;
      }
      ghost var before := g;
      if k < |g| {
        g := g[k := (s[i], g[k].1 + 1)];
      } else {
        AbsentCount(s[..i], s[i]);
        g := g + [(s[i], 1)];
      }
      OneMoreRow(s[..i], before, s[i], k, g);
    }
    assert s[..|s|] == s;
  }

  lemma {:induction false} AbsentCount(s: seq<string>, v: string)
    ensures Count(s, v) == 0 <==> v !in s
  {
    if s != [] {
      AbsentCount(s[..|s| - 1], v);
      assert s == s[..|s| - 1] + [s[|s| - 1]];
    }
  }

  lemma OneMoreRow(s: seq<string>, g: Groups, v: string, k: nat, g': Groups)
    requires IsCensus(s, g) && k <= |g| && (forall j | 0 <= j < k :: g[j].0 != v)
    requires k < |g| ==> g[k].0 == v && g' == g[k := (v, g[k].1 + 1)]
    requires k == |g| ==> Count(s, v) == 0 && g' == g + [(v, 1)]
    ensures IsCensus(s + [v], g')
  {
    assert (s + [v])[..|s|] == s;
    forall x | x in s + [v] ensures x in Keys(g') {
      if x == v {
        assert g'[k].0 == v;
      } else {
        var i :| 0 <= i < |g| && g[i].0 == x;
        assert g'[i].0 == x;
      }
    }
  }

  /** `plan`: the stored values to convert, with their targets and row counts. */
  method Plan(r: Vocabulary, table: array<string>) returns (changes: seq<(string, string, nat)>)
    ensures IsPlan(r, table[..], changes)
  {
    var g := Census(table);
    ghost var s := table[..];
    changes := [];
    NoKeys(s, Differs(r));
    assert Keys(g[..0]) == {};
    for k := 0 to |g|
      invariant IsPlanOf(r, s, g[..k], changes)
    {
      var (value, count) := g[k];
      var target := Canonical(r, value);
      PlanThen(r, s, g, k, changes);
      if target != value {
        changes := changes + [(value, target, count)];
      }
    }
    assert g[..|g|] == g;
  }

  function Sources(changes: seq<(string, string, nat)>): set<string> { set i | 0 <= i < |changes| :: changes[i].0 }

  function Total(changes: seq<(string, string, nat)>): nat {
    if changes == [] then 0 else Total(changes[..|changes| - 1]) + changes[|changes| - 1].2
  }

  function Differs(r: Vocabulary): string -> bool { v => Canonical(r, v) != v }

  /** The changes due for some groups: exactly their out-of-vocabulary values, totalling their rows. */
  ghost predicate IsPlanOf(r: Vocabulary, s: seq<string>, g: Groups, changes: seq<(string, string, nat)>) {
    && (forall i | 0 <= i < |changes| :: changes[i].0 !in r.vocabulary && changes[i].1 == Canonical(r, changes[i].0))
    && (forall v :: v in Sources(changes) <==> v in Keys(g) && v !in r.vocabulary)
    && Total(changes) == CountIn(s, Keys(g), Differs(r))
  }

  ghost predicate IsPlan(r: Vocabulary, s: seq<string>, changes: seq<(string, string, nat)>) {
    exists g :: IsCensus(s, g) && IsPlanOf(r, s, g, changes)
  }

  lemma ChangesThen(changes: seq<(string, string, nat)>, c: (string, string, nat))
    ensures Sources(changes + [c]) == Sources(changes) + {c.0} && Total(changes + [c]) == Total(changes) + c.2
  {
    var more := changes + [c];
    assert more[..|changes|] == changes;
    forall x | x in Sources(changes) ensures x in Sources(more) {
      var i :| 0 <= i < |changes| && changes[i].0 == x;
      assert more[i].0 == x;
    }
    assert more[|changes|].0 == c.0;
  }

  lemma PlanThen(r: Vocabulary, s: seq<string>, g: Groups, k: nat, changes: seq<(string, string, nat)>)
    requires IsCensus(s, g) && k < |g| && IsPlanOf(r, s, g[..k], changes)
    ensures var (value, count) := g[k];
            var target := Canonical(r, value);
            IsPlanOf(r, s, g[..k + 1], if target != value then changes + [(value, target, count)] else changes)
  {
    hide IsCensus, Keys, Sources, Total, CountIn, Count;
    var (value, count) := g[k];
    CensusKey(s, g, k);
    OneMoreKey(s, Keys(g[..k]), value, Differs(r));
    ChangesThen(changes, (value, Canonical(r, value), count));
  }

  // ----- applying -----

  function Replaced(s: seq<string>, value: string, target: string): (r: seq<string>)
    ensures |r| == |s| && forall i | 0 <= i < |s| :: r[i] == if s[i] == value then target else s[i]
  {
    seq(|s|, i requires 0 <= i < |s| => if s[i] == value then target else s[i])
  }

  /** `UPDATE asset SET status = target WHERE status = value`. */
  method Update(table: array<string>, value: string, target: string)
    modifies table
    ensures table[..] == Replaced(old(table[..]), value, target)
  {
    for i := 0 to table.Length
      invariant forall j | 0 <= j < i :: table[j] == if old(table[j]) == value then target else old(table[j])
      invariant forall j | i <= j < table.Length :: table[j] == old(table[j])
    {
      if table[i] == value { table[i] := target; }
    }
  }

  /** The table after the first changes only. */
  ghost predicate PartlyConverted(r: Vocabulary, before: seq<string>, now: seq<string>, done: set<string>) {
    |now| == |before| && forall i | 0 <= i < |now| :: now[i] == if before[i] in done then Canonical(r, before[i]) else before[i]
  }

  /**
   * `apply_changes`: the updates run one after another and never interfere, so together they convert every
   * row at once; the count returned is the number of rows that changed.
   */
  method ApplyChanges(r: Vocabulary, table: array<string>) returns (changed: nat)
    modifies table
    ensures table[..] == Converted(r, old(table[..]))
    ensures changed == Changed(r, old(table[..]))
  {
    ghost var before := table[..];
    var changes := Plan(r, table);
    changed := 0;
    PlannedChanges(r, before, changes);
    NothingConverted(r, before);
    assert changes[..0] == [];
    for k := 0 to |changes|
      invariant changed == Total(changes[..k])
      invariant PartlyConverted(r, before, table[..], Sources(changes[..k]))
    {
      hide *;
      var (value, target, count) := changes[k];
      ghost var now := table[..];
      Update(table, value, target);
      assert changes[..k + 1] == changes[..k] + [changes[k]];
      ChangesThen(changes[..k], changes[k]);
      NextUpdate(r, before, now, Sources(changes[..k]), value);
      changed := changed + count;
    }
    assert changes[..|changes|] == changes;
    hide *;
    AllApplied(r, before, table[..], changes);
  }

  lemma PlannedChanges(r: Vocabulary, s: seq<string>, changes: seq<(string, string, nat)>)
    requires IsPlan(r, s, changes)
    ensures forall i | 0 <= i < |changes| :: changes[i].0 !in r.vocabulary && changes[i].1 == Canonical(r, changes[i].0)
  {
  }

  lemma NothingConverted(r: Vocabulary, s: seq<string>)
    ensures PartlyConverted(r, s, s, Sources([])) && Total([]) == 0
  {
  }

  lemma AllApplied(r: Vocabulary, before: seq<string>, now: seq<string>, changes: seq<(string, string, nat)>)
    requires IsPlan(r, before, changes) && PartlyConverted(r, before, now, Sources(changes))
    ensures now == Converted(r, before) && Total(changes) == Changed(r, before)
  {
    var g :| IsCensus(before, g) && IsPlanOf(r, before, g, changes);
    hide Keys, Sources, CountIn, Count, Total;
    forall i | 0 <= i < |before| ensures now[i] == Canonical(r, before[i]) {
      assert before[i] in before;
    }
    AllKeys(r, before, Keys(g));
  }

  lemma NextUpdate(r: Vocabulary, before: seq<string>, now: seq<string>, done: set<string>, value: string)
    requires PartlyConverted(r, before, now, done) && value !in r.vocabulary
    ensures PartlyConverted(r, before, Replaced(now, value, Canonical(r, value)), done + {value})
  {
  }

  /** Rows a conversion changes. */
  function Changed(r: Vocabulary, s: seq<string>): nat {
    if s == [] then 0
    else Changed(r, s[..|s| - 1]) + if Canonical(r, s[|s| - 1]) != s[|s| - 1] then 1 else 0
  }

  lemma {:induction false} AllKeys(r: Vocabulary, s: seq<string>, k: set<string>)
    requires forall v | v in s :: v in k
    ensures CountIn(s, k, Differs(r)) == Changed(r, s)
  {
    if s != [] {
      assert forall v | v in s[..|s| - 1] :: v in s;
      AllKeys(r, s[..|s| - 1], k);
    }
  }

  // ----- the dry run -----

  function Targets(r: Vocabulary, t: string): string -> bool { v => Canonical(r, v) == t }

  function At(m: map<string, nat>, t: string): nat { if t in m then m[t] else 0 }

  /** The projection over some groups: each target with the rows it would get. */
  ghost predicate Projects(r: Vocabulary, s: seq<string>, k: set<string>, projected: map<string, nat>) {
    && (forall t :: At(projected, t) == CountIn(s, k, Targets(r, t)))
    && (forall t :: t in projected <==> exists v :: v in k && Canonical(r, v) == t)
  }

  /** `projected_census`: what applying would leave, without writing; it is the census of the converted table. */
  method ProjectedCensus(r: Vocabulary, table: array<string>) returns (projected: map<string, nat>)
    ensures projected == CensusOf(Converted(r, table[..]))
  {
    var g := Census(table);
    ghost var s := table[..];
    projected := Project(r, g, s);
    KeysAreValues(s, g);
    hide *;
    ProjectionIsCensus(r, s, Keys(g), projected);
  }

  /** Every group's count, moved to its target. */
  method Project(r: Vocabulary, g: Groups, ghost s: seq<string>) returns (projected: map<string, nat>)
    requires IsCensus(s, g)
    ensures Projects(r, s, Keys(g), projected)
  {
    hide *;
    projected := map[];
    NothingProjected(r, s, g);
    for k := 0 to |g|
      invariant Projects(r, s, Keys(g[..k]), projected)
    {
      var (value, count) := g[k];
      var target := Canonical(r, value);
      ProjectsNext(r, s, g, k, projected);
      projected := projected[target := At(projected, target) + count];
    }
    assert g[..|g|] == g;
  }

  lemma ProjectsNext(r: Vocabulary, s: seq<string>, g: Groups, k: nat, projected: map<string, nat>)
    requires IsCensus(s, g) && k < |g| && Projects(r, s, Keys(g[..k]), projected)
    ensures var target := Canonical(r, g[k].0);
            Projects(r, s, Keys(g[..k + 1]), projected[target := At(projected, target) + g[k].1])
  {
    hide IsCensus, Projects, Canonical, Keys;
    CensusKey(s, g, k);
    ProjectsThen(r, s, Keys(g[..k]), projected, g[k].0);
  }

  lemma NothingProjected(r: Vocabulary, s: seq<string>, g: Groups)
    ensures Projects(r, s, Keys(g[..0]), map[])
  {
    assert Keys(g[..0]) == {};
    forall t { NoKeys(s, Targets(r, t)); }
  }

  lemma KeysAreValues(s: seq<string>, g: Groups)
    requires IsCensus(s, g)
    ensures forall v :: v in s <==> v in Keys(g)
  {
  }

  lemma ProjectsThen(r: Vocabulary, s: seq<string>, k: set<string>, projected: map<string, nat>, value: string)
    requires Projects(r, s, k, projected) && value !in k
    ensures var target := Canonical(r, value);
            Projects(r, s, k + {value}, projected[target := At(projected, target) + Count(s, value)])
  {
    forall t { OneMoreKey(s, k, value, Targets(r, t)); }
    hide CountIn, Count;
  }

  lemma {:induction false} ConvertedCount(r: Vocabulary, s: seq<string>, k: set<string>, t: string)
    requires forall v | v in s :: v in k
    ensures CountIn(s, k, Targets(r, t)) == Count(Converted(r, s), t)
  {
    if s != [] {
      var n := |s| - 1;
      assert forall v | v in s[..n] :: v in s;
      ConvertedCount(r, s[..n], k, t);
      assert Converted(r, s)[..n] == Converted(r, s[..n]);
    }
  }

  lemma ProjectionIsCensus(r: Vocabulary, s: seq<string>, k: set<string>, projected: map<string, nat>)
    requires Projects(r, s, k, projected) && forall v :: v in s <==> v in k
    ensures projected == CensusOf(Converted(r, s))
  {
    var c := Converted(r, s);
    forall t ensures t in projected <==> t in c {
      if t in projected {
        var v :| v in k && Canonical(r, v) == t;
        var i :| 0 <= i < |s| && s[i] == v;
        assert c[i] == t;
      }
      if t in c {
        var i :| 0 <= i < |c| && c[i] == t;
        assert s[i] in k;
      }
    }
    forall t { ConvertedCount(r, s, k, t); }
  }

  // ----- what the backfill promises -----

  /** `v` ends as `w`: it is `w` already, or is foreign and folds to it, or folds to nothing known and `w` is the fallback. */
  ghost predicate EndsAs(r: Vocabulary, v: string, w: string) {
    if v in r.vocabulary then w == v
    else (r.fold(v) == w && w in r.vocabulary) || (r.fold(v) !in r.vocabulary && w == r.archived)
  }

  lemma CanonicalExactly(r: Vocabulary, v: string, w: string)
    ensures Canonical(r, v) == w <==> EndsAs(r, v, w)
  {
  }

  ghost function Ending(r: Vocabulary, s: seq<string>, w: string): set<nat> { set i | 0 <= i < |s| && EndsAs(r, s[i], w) }

  lemma EndingThen(r: Vocabulary, s: seq<string>, w: string)
    requires s != []
    ensures var n := |s| - 1;
            Ending(r, s, w) == Ending(r, s[..n], w) + (if EndsAs(r, s[n], w) then {n} else {}) && n !in Ending(r, s[..n], w)
  {
    hide EndsAs;
    assert forall i | 0 <= i < |s| - 1 :: s[..|s| - 1][i] == s[i];
  }

  /** Each row ends so, and as many rows hold a value as end so. */
  lemma {:induction false} ConvertedExactly(r: Vocabulary, s: seq<string>, w: string)
    ensures forall i | 0 <= i < |s| :: Converted(r, s)[i] == w <==> EndsAs(r, s[i], w)
    ensures Count(Converted(r, s), w) == |Ending(r, s, w)|
  {
    forall i | 0 <= i < |s| ensures Converted(r, s)[i] == w <==> EndsAs(r, s[i], w) {
      CanonicalExactly(r, s[i], w);
    }
    hide EndsAs, Canonical;
    if s == [] {
      assert Ending(r, s, w) == {};
    } else {
      var n := |s| - 1;
      ConvertedExactly(r, s[..n], w);
      EndingThen(r, s, w);
      assert Converted(r, s)[..n] == Converted(r, s[..n]);
      hide Converted, Ending;
    }
  }

  /** Every status ends in the vocabulary, and converting again changes nothing. */
  lemma ConversionSettles(r: Vocabulary, s: seq<string>)
    ensures forall i | 0 <= i < |s| :: Converted(r, s)[i] in r.vocabulary
    ensures Converted(r, Converted(r, s)) == Converted(r, s) && Changed(r, Converted(r, s)) == 0
  {
    NothingToChange(r, Converted(r, s));
  }

  lemma {:induction false} NothingToChange(r: Vocabulary, s: seq<string>)
    requires forall i | 0 <= i < |s| :: s[i] in r.vocabulary
    ensures Changed(r, s) == 0
  {
    if s != [] { NothingToChange(r, s[..|s| - 1]); }
  }

  /** Rows whose stored value differs before and after. */
  function Differing(s: seq<string>, s': seq<string>): set<nat>
    requires |s| == |s'|
  {
    set i | 0 <= i < |s| && s[i] != s'[i]
  }

  /** The reported count is the number of rows that changed. */
  lemma {:induction false} ChangedIsDiffering(r: Vocabulary, s: seq<string>)
    ensures Changed(r, s) == |Differing(s, Converted(r, s))|
  {
    if s != [] {
      var n := |s| - 1;
      ChangedIsDiffering(r, s[..n]);
      assert Converted(r, s)[..n] == Converted(r, s[..n]);
      assert Differing(s, Converted(r, s))
          == Differing(s[..n], Converted(r, s[..n])) + if s[n] != Canonical(r, s[n]) then {n} else {};
    }
  }

  /** The rows a list of values accounts for. */
  function Sum(s: seq<string>, vs: seq<string>): nat {
    if vs == [] then 0 else Sum(s, vs[..|vs| - 1]) + Count(s, vs[|vs| - 1])
  }

  lemma {:induction false} SumThen(s: seq<string>, v: string, vs: seq<string>)
    requires NoRepeats(vs)
    ensures Sum(s + [v], vs) == Sum(s, vs) + if v in vs then 1 else 0
  {
    assert (s + [v])[..|s|] == s;
    if vs != [] {
      var n := |vs| - 1;
      SumThen(s, v, vs[..n]);
      assert vs == vs[..n] + [vs[n]];
    }
  }

  lemma {:induction false} SumNothing(vs: seq<string>)
    ensures Sum([], vs) == 0
  {
    if vs != [] { SumNothing(vs[..|vs| - 1]); }
  }

  /** Rows are conserved: the counts of the converted table's values, listed once each, sum to the rows of the original. */
  lemma {:induction false} RowsConserved(r: Vocabulary, s: seq<string>, vs: seq<string>)
    requires NoRepeats(vs) && forall v | v in Converted(r, s) :: v in vs
    ensures Sum(Converted(r, s), vs) == |s|
  {
    var c := Converted(r, s);
    if s == [] {
      SumNothing(vs);
    } else {
      var n := |s| - 1;
      assert c == Converted(r, s[..n]) + [c[n]];
      assert c[n] in c && forall v | v in Converted(r, s[..n]) :: v in c;
      RowsConserved(r, s[..n], vs);
      SumThen(Converted(r, s[..n]), c[n], vs);
    }
  }
}
