/** What deduplication finds, said of the tables themselves: observations, links, assets and identifiers by position. */
module DedupTables {
  import opened Prelude
  import opened Dedup

  // ----- the join -----

  /** Positions of an observation and of a link that put `(o, a)` in the join. */
  function JoinsAt(db: Db, household: Id, n: nat, o: Observation, a: Id): set<(nat, nat)>
    requires n <= |db.observations|
  {
    set j, l | 0 <= j < n && 0 <= l < |db.links| && db.observations[j] == o && o.kind == PHash
               && db.links[l] == (a, o.evidence) && a in db.assets && db.assets[a] == household :: (j, l)
  }

  /** The links among the first `n` that do so for observation `j`. */
  function LinksAt(db: Db, household: Id, j: nat, n: nat, o: Observation, a: Id): set<(nat, nat)>
    requires n <= |db.links|
  {
    set l | 0 <= l < n && db.links[l] == (a, o.evidence) && a in db.assets && db.assets[a] == household :: (j, l)
  }

  lemma LinksAtThen(db: Db, household: Id, j: nat, n: nat, o: Observation, a: Id)
    requires 0 < n <= |db.links|
    ensures var before := LinksAt(db, household, j, n - 1, o, a);
            && LinksAt(db, household, j, n, o, a)
               == before + (if db.links[n - 1] == (a, o.evidence) && Owned(db, household, a) then {(j, n - 1)} else {})
            && (j, n - 1) !in before
  {
  }

  lemma {:induction false} AssetsCount(db: Db, household: Id, j: nat, n: nat, o: Observation, p: Observation, a: Id)
    requires n <= |db.links|
    ensures multiset(AssetsOf(db, household, db.links[..n], p))[(o, a)]
            == if p == o then |LinksAt(db, household, j, n, o, a)| else 0
  {
    if n > 0 {
      AssetsCount(db, household, j, n - 1, o, p, a);
      LinksAtThen(db, household, j, n, o, a);
      AssetsThen(db, household, n, p);
      hide AssetsOf, LinksAt;
    }
  }

  lemma AssetsThen(db: Db, household: Id, n: nat, o: Observation)
    requires 0 < n <= |db.links|
    ensures AssetsOf(db, household, db.links[..n], o)
            == AssetsOf(db, household, db.links[..n - 1], o)
               + (if LinkedIn(db, household, db.links[n - 1], o.evidence) then [(o, db.links[n - 1].0)] else [])
  {
    assert db.links[..n][..n - 1] == db.links[..n - 1];
  }

  lemma JoinsAtThen(db: Db, household: Id, n: nat, o: Observation, a: Id)
    requires 0 < n <= |db.observations|
    ensures var before, more := JoinsAt(db, household, n - 1, o, a), LinksAt(db, household, n - 1, |db.links|, o, a);
            && JoinsAt(db, household, n, o, a)
               == before + (if db.observations[n - 1] == o && o.kind == PHash then more else {})
            && before !! more
  {
  }

  lemma JoinedThen(db: Db, household: Id, n: nat)
    requires 0 < n <= |db.observations|
    ensures var o := db.observations[n - 1];
            JoinedRows(db, household, db.observations[..n])
            == JoinedRows(db, household, db.observations[..n - 1])
               + (if o.kind == PHash then AssetsOf(db, household, db.links[..|db.links|], o) else [])
  {
    assert db.observations[..n][..n - 1] == db.observations[..n - 1] && db.links[..|db.links|] == db.links;
  }

  lemma {:induction false} JoinCount(db: Db, household: Id, n: nat, o: Observation, a: Id)
    requires n <= |db.observations|
    ensures multiset(JoinedRows(db, household, db.observations[..n]))[(o, a)] == |JoinsAt(db, household, n, o, a)|
  {
    if n > 0 {
      JoinCount(db, household, n - 1, o, a);
      JoinsAtThen(db, household, n, o, a);
      JoinedThen(db, household, n);
      AssetsCount(db, household, n - 1, |db.links|, o, db.observations[n - 1], a);
      hide AssetsOf, JoinedRows, JoinsAt, LinksAt;
    }
  }

  /** A row is in the join once for each hash observation and each link of the household's assets that make it. */
  lemma JoinExactly(db: Db, household: Id, o: Observation, a: Id)
    ensures multiset(PhashRows(db, household))[(o, a)] == |JoinsAt(db, household, |db.observations|, o, a)|
  {
    JoinCount(db, household, |db.observations|, o, a);
    assert db.observations[..|db.observations|] == db.observations;
  }

  // ----- near matches -----

  /** Observation `i` carries this hash. */
  ghost predicate Carries(db: Db, i: nat, hash: string) {
    && i < |db.observations| && db.observations[i].kind == PHash
    && db.observations[i].value.Some? && db.observations[i].value.value.Obj?
    && var fields := db.observations[i].value.value.fields; "hash" in fields && fields["hash"] == Str(hash)
  }

  /** Link `l` joins observation `j` to an asset of the household. */
  ghost predicate Holds(db: Db, household: Id, j: nat, l: nat) {
    && j < |db.observations| && l < |db.links| && db.links[l].1 == db.observations[j].evidence
    && db.links[l].0 in db.assets && db.assets[db.links[l].0] == household
  }

  /** The item's hash `i` is near the hash `j` of other evidence, which link `l` gives to an asset of the household. */
  ghost predicate NearAt(db: Db, cfg: Config, household: Id, e: Id, i: nat, j: nat, l: nat, m: Match) {
    && i < |db.observations| && db.observations[i].evidence == e
    && Holds(db, household, j, l) && db.observations[j].evidence != e
    && exists x, y | Carries(db, i, x) && Carries(db, j, y) ::
         cfg.distance(x, y).Some? && cfg.distance(x, y).value <= cfg.threshold && m == Similar(db.links[l].0, cfg.distance(x, y).value)
  }

  /** Those positions, up to given bounds. */
  ghost function NearTriples(db: Db, cfg: Config, household: Id, e: Id, n: nat, m: Match): set<(nat, nat, nat)> {
    set i, j, l | 0 <= i < n && 0 <= j < |db.observations| && 0 <= l < |db.links| && NearAt(db, cfg, household, e, i, j, l, m) :: (i, j, l)
  }

  ghost function NearOthers(db: Db, cfg: Config, household: Id, e: Id, i: nat, n: nat, m: Match): set<(nat, nat, nat)> {
    set j, l | 0 <= j < n && 0 <= l < |db.links| && NearAt(db, cfg, household, e, i, j, l, m) :: (i, j, l)
  }

  ghost function NearLinks(db: Db, cfg: Config, household: Id, e: Id, i: nat, j: nat, n: nat, m: Match): set<(nat, nat, nat)> {
    set l | 0 <= l < n && NearAt(db, cfg, household, e, i, j, l, m) :: (i, j, l)
  }

  lemma CarriesIs(db: Db, i: nat)
    requires i < |db.observations| && db.observations[i].kind == PHash
    ensures forall x :: Carries(db, i, x) <==> HashOf(db.observations[i]) == Some(x)
  {
  }

  /** One row contributes the match at most once, and exactly when its positions make it. */
  lemma NearOne(db: Db, cfg: Config, household: Id, e: Id, i: nat, j: nat, l: nat, hash: string, m: Match)
    requires Carries(db, i, hash) && db.observations[i].evidence == e
    requires Holds(db, household, j, l) && db.observations[j].kind == PHash
    ensures multiset(NearRow(cfg, e, hash, (db.observations[j], db.links[l].0)))[m]
            == if NearAt(db, cfg, household, e, i, j, l, m) then 1 else 0
  {
    CarriesIs(db, i);
    CarriesIs(db, j);
    var row := (db.observations[j], db.links[l].0);
    hide Carries, HashIn;
    assert NearAt(db, cfg, household, e, i, j, l, m) <==> m in NearRow(cfg, e, hash, row);
  }

  /** One more link. */
  lemma LinkAdds(db: Db, cfg: Config, household: Id, e: Id, i: nat, j: nat, n: nat, hash: string, m: Match)
    requires Carries(db, i, hash) && db.observations[i].evidence == e && j < |db.observations| && 0 < n <= |db.links|
    requires db.observations[j].kind == PHash
    ensures var f, o := NearHash(cfg, e, hash), db.observations[j];
            multiset(Collect(f, AssetsOf(db, household, db.links[..n], o)))[m]
            == multiset(Collect(f, AssetsOf(db, household, db.links[..n - 1], o)))[m]
               + (if NearAt(db, cfg, household, e, i, j, n - 1, m) then 1 else 0)
  {
    hide NearRow, Collect, AssetsOf, Carries, NearAt;
    var o, f := db.observations[j], NearHash(cfg, e, hash);
    var rows := AssetsOf(db, household, db.links[..n - 1], o);
    AssetsThen(db, household, n, o);
    if Holds(db, household, j, n - 1) {
      var row := (o, db.links[n - 1].0);
      NearOne(db, cfg, household, e, i, j, n - 1, hash, m);
      CollectJoin(f, rows, [row]);
      CollectOne(f, row);
    } else {
      assert rows + [] == rows;
      NotHeld(db, cfg, household, e, i, j, n - 1, m);
    }
  }

  lemma NotHeld(db: Db, cfg: Config, household: Id, e: Id, i: nat, j: nat, l: nat, m: Match)
    ensures NearAt(db, cfg, household, e, i, j, l, m) ==> Holds(db, household, j, l)
  {
  }

  lemma {:induction false} LinksCount(db: Db, cfg: Config, household: Id, e: Id, i: nat, j: nat, n: nat, hash: string, m: Match)
    requires Carries(db, i, hash) && db.observations[i].evidence == e && j < |db.observations| && n <= |db.links|
    requires db.observations[j].kind == PHash
    ensures multiset(Collect(NearHash(cfg, e, hash), AssetsOf(db, household, db.links[..n], db.observations[j])))[m]
            == |NearLinks(db, cfg, household, e, i, j, n, m)|
  {
    if n == 0 {
      assert NearLinks(db, cfg, household, e, i, j, n, m) == {};
      hide NearAt, NearHash, NearRow, Carries;
    } else {
      hide *;
      LinksCount(db, cfg, household, e, i, j, n - 1, hash, m);
      LinksStep(db, cfg, household, e, i, j, n, m);
      LinkAdds(db, cfg, household, e, i, j, n, hash, m);
    }
  }

  lemma LinksStep(db: Db, cfg: Config, household: Id, e: Id, i: nat, j: nat, n: nat, m: Match)
    requires 0 < n <= |db.links|
    ensures var before := NearLinks(db, cfg, household, e, i, j, n - 1, m);
            && NearLinks(db, cfg, household, e, i, j, n, m)
               == before + (if NearAt(db, cfg, household, e, i, j, n - 1, m) then {(i, j, n - 1)} else {})
            && (i, j, n - 1) !in before
  {
    hide NearAt;
  }

  lemma {:induction false} OthersCount(db: Db, cfg: Config, household: Id, e: Id, i: nat, n: nat, hash: string, m: Match)
    requires Carries(db, i, hash) && db.observations[i].evidence == e && n <= |db.observations|
    ensures multiset(Collect(NearHash(cfg, e, hash), JoinedRows(db, household, db.observations[..n])))[m]
            == |NearOthers(db, cfg, household, e, i, n, m)|
  {
    if n > 0 {
      OthersCount(db, cfg, household, e, i, n - 1, hash, m);
      OthersStep(db, cfg, household, e, i, n, m);
      var o, f := db.observations[n - 1], NearHash(cfg, e, hash);
      var rows := JoinedRows(db, household, db.observations[..n - 1]);
      JoinedThen(db, household, n);
      if o.kind == PHash {
        LinksCount(db, cfg, household, e, i, n - 1, |db.links|, hash, m);
        CollectJoin(f, rows, AssetsOf(db, household, db.links[..|db.links|], o));
      } else {
        assert rows + [] == rows;
        NoHashNoNear(db, cfg, household, e, i, n - 1, m);
      }
      hide NearHash, NearLinks, NearOthers, NearAt, Collect, AssetsOf, JoinedRows;
    }
  }

  lemma NoHashNoNear(db: Db, cfg: Config, household: Id, e: Id, i: nat, j: nat, m: Match)
    requires j < |db.observations| && db.observations[j].kind != PHash
    ensures NearLinks(db, cfg, household, e, i, j, |db.links|, m) == {}
  {
    assert forall y :: !Carries(db, j, y);
    hide Carries;
  }

  lemma OthersStep(db: Db, cfg: Config, household: Id, e: Id, i: nat, n: nat, m: Match)
    requires 0 < n <= |db.observations|
    ensures var before, more := NearOthers(db, cfg, household, e, i, n - 1, m), NearLinks(db, cfg, household, e, i, n - 1, |db.links|, m);
            NearOthers(db, cfg, household, e, i, n, m) == before + more && before !! more
  {
    hide NearAt;
  }

  lemma {:induction false} TriplesCount(db: Db, cfg: Config, household: Id, e: Id, n: nat, m: Match)
    requires n <= |db.observations|
    ensures multiset(MatchesOf(cfg, e, Select(db.observations[..n], e, PHash), PhashRows(db, household)))[m]
            == |NearTriples(db, cfg, household, e, n, m)|
  {
    if n == 0 {
      assert NearTriples(db, cfg, household, e, n, m) == {};
      hide NearAt, NearHash, NearRow, Carries, PhashRows;
    } else {
      hide *;
      TriplesCount(db, cfg, household, e, n - 1, m);
      TriplesStep(db, cfg, household, e, n, m);
      OwnAdds(db, cfg, household, e, n, m);
    }
  }

  lemma SelectThen(observations: seq<Observation>, n: nat, e: Id, kind: Kind)
    requires 0 < n <= |observations|
    ensures var o := observations[n - 1];
            Select(observations[..n], e, kind)
            == Select(observations[..n - 1], e, kind) + (if o.evidence == e && o.kind == kind then [o] else [])
  {
    assert observations[..n][..n - 1] == observations[..n - 1];
  }

  /** What one observation of the item's own contributes. */
  lemma OwnAdds(db: Db, cfg: Config, household: Id, e: Id, n: nat, m: Match)
    requires 0 < n <= |db.observations|
    ensures var rows := PhashRows(db, household);
            multiset(MatchesOf(cfg, e, Select(db.observations[..n], e, PHash), rows))[m]
            == multiset(MatchesOf(cfg, e, Select(db.observations[..n - 1], e, PHash), rows))[m]
               + |NearOthers(db, cfg, household, e, n - 1, |db.observations|, m)|
  {
    var rows := PhashRows(db, household);
    var o, f := db.observations[n - 1], NearOwn(cfg, e, rows);
    var own := Select(db.observations[..n - 1], e, PHash);
    hide NearHash, NearOthers, NearAt, Collect, JoinedRows, Select, Carries, HashIn;
    SelectThen(db.observations, n, e, PHash);
    assert db.observations[..|db.observations|] == db.observations;
    if o.evidence == e && o.kind == PHash {
      CarriesIs(db, n - 1);
      CollectJoin(f, own, [o]);
      CollectOne(f, o);
      if HashOf(o).Some? {
        OthersCount(db, cfg, household, e, n - 1, |db.observations|, HashOf(o).value, m);
      } else {
        NoOwnNoNear(db, cfg, household, e, n - 1, m);
      }
    } else {
      assert own + [] == own;
      NoKindNoHash(db, n - 1);
      NoOwnNoNear(db, cfg, household, e, n - 1, m);
    }
  }

  lemma NoKindNoHash(db: Db, i: nat)
    ensures i < |db.observations| && db.observations[i].kind != PHash ==> forall x :: !Carries(db, i, x)
  {
  }

  lemma NoOwnNoNear(db: Db, cfg: Config, household: Id, e: Id, i: nat, m: Match)
    requires i < |db.observations| && (db.observations[i].evidence != e || forall x :: !Carries(db, i, x))
    ensures NearOthers(db, cfg, household, e, i, |db.observations|, m) == {}
  {
    hide Carries;
  }

  lemma TriplesStep(db: Db, cfg: Config, household: Id, e: Id, n: nat, m: Match)
    requires 0 < n <= |db.observations|
    ensures var before, more := NearTriples(db, cfg, household, e, n - 1, m), NearOthers(db, cfg, household, e, n - 1, |db.observations|, m);
            NearTriples(db, cfg, household, e, n, m) == before + more && before !! more
  {
    hide NearAt;
  }

  /** Some own hash, other hash and link make this match. */
  ghost predicate NearSomewhere(db: Db, cfg: Config, household: Id, e: Id, m: Match) {
    exists i: nat, j: nat, l: nat :: NearAt(db, cfg, household, e, i, j, l, m)
  }

  lemma NearSomewhereIs(db: Db, cfg: Config, household: Id, e: Id, m: Match)
    ensures NearSomewhere(db, cfg, household, e, m) <==> |NearTriples(db, cfg, household, e, |db.observations|, m)| > 0
  {
    var all := NearTriples(db, cfg, household, e, |db.observations|, m);
    if i: nat, j: nat, l: nat :| NearAt(db, cfg, household, e, i, j, l, m) {
      assert (i, j, l) in all;
    }
    if all != {} {
      var x :| x in all;
      assert NearAt(db, cfg, household, e, x.0, x.1, x.2, m);
    }
  }

  /** Each match of an item is found once for each hash of its own, other hash and link that make it. */
  lemma NearExactlyAt(db: Db, cfg: Config, household: Id, e: Id, m: Match)
    ensures var matches := MatchesOf(cfg, e, Hashes(db, e), PhashRows(db, household));
            && multiset(matches)[m] == |NearTriples(db, cfg, household, e, |db.observations|, m)|
            && (m in matches <==> NearSomewhere(db, cfg, household, e, m))
  {
    hide MatchesOf, Select, PhashRows, NearTriples, NearSomewhere;
    TriplesCount(db, cfg, household, e, |db.observations|, m);
    NearSomewhereIs(db, cfg, household, e, m);
    assert db.observations[..|db.observations|] == db.observations;
  }

  // ----- exact matches -----

  /** `a` is the least of the household's assets that hold the evidence. */
  ghost predicate Owner(db: Db, household: Id, e: Id, a: Id) {
    && (a, e) in db.links && Owned(db, household, a)
    && forall b | (b, e) in db.links && Owned(db, household, b) :: Before(a, b)
  }

  ghost predicate Unheld(db: Db, household: Id, e: Id) { forall b | (b, e) in db.links :: !Owned(db, household, b) }

  lemma BeforeBoth(x: Id, y: Id)
    requires Before(x, y) && Before(y, x)
    ensures x == y
    decreases |x|
  {
    if x != "" && y != "" {
      BeforeBoth(x[1..], y[1..]);
      assert x == [x[0]] + x[1..] && y == [y[0]] + y[1..];
    }
  }

  lemma ExactExactly(db: Db, household: Id, e: Id)
    ensures var r := ExactAsset(db, household, db.links, e);
            && (r.None? <==> Unheld(db, household, e)) && forall a :: Owner(db, household, e, a) <==> r == Some(a)
  {
    var r := ExactAsset(db, household, db.links, e);
    ExactIsLeast(db, household, db.links, e);
    hide ExactAsset;
    assert forall b | (b, e) in db.links && Owned(db, household, b) :: LinkedIn(db, household, (b, e), e);
    assert forall l | l in db.links && LinkedIn(db, household, l, e) :: (l.0, e) in db.links && Owned(db, household, l.0);
    forall a | Owner(db, household, e, a) ensures r == Some(a) {
      BeforeBoth(a, r.value);
    }
  }

  // ----- failures -----

  /** An own hash or barcode does not parse, or an own hash meets a row that does not parse or cannot be compared. */
  ghost predicate FailsAt(db: Db, cfg: Config, household: Id, e: Id) {
    || (exists i: nat :: Broken(db, e, i))
    || exists i: nat, j: nat, l: nat :: Meets(db, cfg, household, e, i, j, l)
  }

  ghost predicate Broken(db: Db, e: Id, i: nat) {
    i < |db.observations| && db.observations[i].evidence == e && !db.observations[i].kind.OtherKind? && db.observations[i].value.None?
  }

  ghost predicate Meets(db: Db, cfg: Config, household: Id, e: Id, i: nat, j: nat, l: nat) {
    && i < |db.observations| && db.observations[i].evidence == e
    && Holds(db, household, j, l) && db.observations[j].kind == PHash
    && exists x | Carries(db, i, x) ::
         || db.observations[j].value.None?
         || (db.observations[j].evidence != e && exists y | Carries(db, j, y) :: cfg.distance(x, y).None?)
  }

  ghost predicate RowAtSome(db: Db, household: Id, row: Row) {
    exists j: nat, l: nat :: Holds(db, household, j, l) && db.observations[j].kind == PHash && row == (db.observations[j], db.links[l].0)
  }

  lemma RowInJoin(db: Db, household: Id, row: Row)
    ensures row in PhashRows(db, household) <==> RowAtSome(db, household, row)
  {
    var rows, at := PhashRows(db, household), JoinsAt(db, household, |db.observations|, row.0, row.1);
    JoinExactly(db, household, row.0, row.1);
    hide PhashRows;
    assert row == (row.0, row.1) && (row in rows <==> multiset(rows)[row] > 0);
    if at != {} {
      var x :| x in at;
      assert Holds(db, household, x.0, x.1);
    }
    if j: nat, l: nat :| Holds(db, household, j, l) && db.observations[j].kind == PHash && row == (db.observations[j], db.links[l].0) {
      assert (j, l) in at;
    }
  }

  lemma MalformedAt(db: Db, e: Id)
    ensures Malformed(db, e) <==> exists i: nat :: Broken(db, e, i)
  {
    hide Select;
    forall o | o in db.observations && o.evidence == e && !o.kind.OtherKind? && o.value.None? ensures exists i: nat :: Broken(db, e, i) {
      var i :| 0 <= i < |db.observations| && db.observations[i] == o;
      assert Broken(db, e, i);
    }
    if i: nat :| Broken(db, e, i) {
      var o := db.observations[i];
      assert o in db.observations && (o in Hashes(db, e) || o in Barcodes(db, e));
    }
  }

  /** An item without an owner fails exactly so. */
  lemma FailsExactlyAt(db: Db, cfg: Config, household: Id, e: Id)
    requires Unheld(db, household, e)
    ensures Fails(db, cfg, household, PhashRows(db, household), e) <==> FailsAt(db, cfg, household, e)
  {
    hide ExactAsset, PhashRows, Select, RowRaises, Fails, Malformed, Broken, Meets, HashIn, Unheld, Owner;
    var rows := PhashRows(db, household);
    ExactExactly(db, household, e);
    FailsExactly(db, cfg, household, rows, e);
    MalformedAt(db, e);
    if o, row :| o in Hashes(db, e) && row in rows && HashOf(o).Some? && RowRaises(cfg, e, HashOf(o).value, row).Some? {
      var i: nat :| i < |db.observations| && db.observations[i] == o;
      RowInJoin(db, household, row);
      var j: nat, l: nat :| Holds(db, household, j, l) && db.observations[j].kind == PHash && row == (db.observations[j], db.links[l].0);
      MeetsIs(db, cfg, household, e, i, j, l);
    }
    if i: nat, j: nat, l: nat :| Meets(db, cfg, household, e, i, j, l) {
      MeetsBasics(db, cfg, household, e, i, j, l);
      MeetsIs(db, cfg, household, e, i, j, l);
      RowInJoin(db, household, (db.observations[j], db.links[l].0));
      assert db.observations[i] in Hashes(db, e);
    }
  }

  lemma MeetsBasics(db: Db, cfg: Config, household: Id, e: Id, i: nat, j: nat, l: nat)
    requires Meets(db, cfg, household, e, i, j, l)
    ensures && i < |db.observations| && db.observations[i].evidence == e && db.observations[i].kind == PHash
            && Holds(db, household, j, l) && db.observations[j].kind == PHash
  {
  }

  lemma MeetsIs(db: Db, cfg: Config, household: Id, e: Id, i: nat, j: nat, l: nat)
    requires i < |db.observations| && db.observations[i].evidence == e && db.observations[i].kind == PHash
    requires Holds(db, household, j, l) && db.observations[j].kind == PHash
    ensures var o, row := db.observations[i], (db.observations[j], db.links[l].0);
            Meets(db, cfg, household, e, i, j, l) <==> HashOf(o).Some? && RowRaises(cfg, e, HashOf(o).value, row).Some?
  {
    CarriesIs(db, i);
    CarriesIs(db, j);
    hide Carries, HashIn;
  }

  // ----- identifier collisions -----

  /** Observation `i` is a validated barcode of the item with this text. */
  ghost predicate BarcodeAt(db: Db, cfg: Config, e: Id, i: nat, text: string) {
    && i < |db.observations| && db.observations[i].evidence == e && db.observations[i].kind == BarcodeQr
    && db.observations[i].value.Some? && db.observations[i].value.value.Obj?
    && var fields := db.observations[i].value.value.fields;
       && "validated" in fields && fields["validated"] == Bool(true)
       && "value" in fields && fields["value"] !in {Null, Bool(false), Num(0.0), Str(""), Obj(map[])}
       && cfg.text(fields["value"]) == text
  }

  ghost function BarcodesAt(db: Db, cfg: Config, e: Id, n: nat, text: string): set<nat> {
    set i: nat | i < n && BarcodeAt(db, cfg, e, i, text)
  }

  /** An identifier assertion of this asset of the household has this text. */
  ghost predicate AssertedBy(db: Db, cfg: Config, household: Id, text: string, a: Id) {
    Owned(db, household, a) && exists k :: 0 <= k < |db.identifiers| && db.identifiers[k].0 == a && cfg.text(db.identifiers[k].1) == text
  }

  lemma BarcodeIs(db: Db, cfg: Config, e: Id, i: nat, text: string)
    requires i < |db.observations|
    ensures var o := db.observations[i];
            BarcodeAt(db, cfg, e, i, text) <==> o.evidence == e && o.kind == BarcodeQr && IdentifierOf(cfg, o) == Some(text)
  {
  }

  lemma AssertedIs(db: Db, cfg: Config, household: Id, text: string, a: Id)
    ensures AssertedBy(db, cfg, household, text, a) <==> Asserts(cfg, IdentifierRows(db, household), text, a)
  {
    hide OwnedIdentifiers;
    if AssertedBy(db, cfg, household, text, a) {
      var k :| 0 <= k < |db.identifiers| && db.identifiers[k].0 == a && cfg.text(db.identifiers[k].1) == text;
      assert db.identifiers[k] in IdentifierRows(db, household);
    }
  }

  lemma BarcodesStep(db: Db, cfg: Config, e: Id, n: nat, text: string)
    requires n > 0
    ensures var before := BarcodesAt(db, cfg, e, n - 1, text);
            && BarcodesAt(db, cfg, e, n, text) == before + (if BarcodeAt(db, cfg, e, n - 1, text) then {n - 1} else {})
            && n - 1 !in before
  {
    hide BarcodeAt;
  }

  /** The texts the item's barcodes are reported under. */
  function Texts(cfg: Config, e: Id, dict: map<string, Id>, barcodes: seq<Observation>): seq<string> {
    Collect(TextOf, Collect(Collide(cfg, e, dict), barcodes))
  }

  lemma TextsThen(cfg: Config, e: Id, dict: map<string, Id>, barcodes: seq<Observation>, o: Observation)
    ensures Texts(cfg, e, dict, barcodes + [o])
            == Texts(cfg, e, dict, barcodes)
               + (if IdentifierOf(cfg, o).Some? && IdentifierOf(cfg, o).value in dict then [IdentifierOf(cfg, o).value] else [])
  {
    hide IdentifierOf, Collect;
    var f := Collide(cfg, e, dict);
    CollectJoin(f, barcodes, [o]);
    CollectOne(f, o);
    CollectJoin(TextOf, Collect(f, barcodes), f(o));
    if f(o) != [] {
      CollectOne(TextOf, f(o)[0]);
      assert f(o) == [f(o)[0]];
    } else {
      NoTexts();
    }
  }

  lemma NoTexts()
    ensures Collect(TextOf, []) == []
  {
  }

  lemma NoBarcodes(db: Db, cfg: Config, e: Id, dict: map<string, Id>, text: string)
    ensures Texts(cfg, e, dict, Select(db.observations[..0], e, BarcodeQr)) == [] && BarcodesAt(db, cfg, e, 0, text) == {}
  {
    NoTexts();
    hide BarcodeAt;
  }

  lemma {:induction false} TextsCount(db: Db, cfg: Config, e: Id, dict: map<string, Id>, n: nat, text: string)
    requires n <= |db.observations|
    ensures multiset(Texts(cfg, e, dict, Select(db.observations[..n], e, BarcodeQr)))[text]
            == if text in dict then |BarcodesAt(db, cfg, e, n, text)| else 0
  {
    hide *;
    if n == 0 {
      NoBarcodes(db, cfg, e, dict, text);
    } else {
      TextsCount(db, cfg, e, dict, n - 1, text);
      SelectThen(db.observations, n, e, BarcodeQr);
      BarcodesStep(db, cfg, e, n, text);
      BarcodeIs(db, cfg, e, n - 1, text);
      var own := Select(db.observations[..n - 1], e, BarcodeQr);
      TextsThen(cfg, e, dict, own, db.observations[n - 1]);
      assert own + [] == own;
    }
  }

  /** A text is reported once for each validated barcode of the item that carries it, if an asset asserts it at all. */
  lemma CollisionsCounted(db: Db, cfg: Config, household: Id, e: Id, collisions: seq<Collision>, text: string)
    requires IsCollisions(cfg, e, Barcodes(db, e), IdentifierRows(db, household), collisions)
    ensures multiset(Collect(TextOf, collisions))[text]
            == if exists a :: AssertedBy(db, cfg, household, text, a) then |BarcodesAt(db, cfg, e, |db.observations|, text)| else 0
    ensures forall c | c in collisions :: c.evidence == e && AssertedBy(db, cfg, household, c.identifier, c.asset)
  {
    var idents := IdentifierRows(db, household);
    var dict :| DictFrom(cfg, idents, dict) && multiset(collisions) == multiset(Collect(Collide(cfg, e, dict), Barcodes(db, e)));
    forall x, a { AssertedIs(db, cfg, household, x, a); }
    CollisionsExactly(cfg, e, Barcodes(db, e), idents, collisions, text);
    CollectAnyOrder(TextOf, collisions, Collect(Collide(cfg, e, dict), Barcodes(db, e)));
    TextsCount(db, cfg, e, dict, |db.observations|, text);
    assert db.observations[..|db.observations|] == db.observations;
    hide Collect, Collide, Select, OwnedIdentifiers, IdentifierRows, AssertedBy, BarcodesAt, Texts;
    TextInDict(cfg, idents, dict, text);
  }

  lemma TextInDict(cfg: Config, idents: seq<(Id, Json)>, dict: map<string, Id>, text: string)
    requires DictFrom(cfg, idents, dict)
    ensures text in dict <==> exists a :: Asserts(cfg, idents, text, a)
  {
  }

  // ----- the whole job -----

  /** What an item contributes to the job's matches. */
  ghost predicate MatchAt(db: Db, cfg: Config, household: Id, e: Id, m: Match) {
    || (exists a :: Owner(db, household, e, a) && m == Duplicate(a, e))
    || (Unheld(db, household, e) && NearSomewhere(db, cfg, household, e, m))
  }

  ghost predicate NearNothing(db: Db, cfg: Config, household: Id, e: Id) { forall m :: !NearSomewhere(db, cfg, household, e, m) }

  ghost predicate FirstOwner(db: Db, household: Id, ids: seq<Id>, a: Id) {
    exists k :: 0 <= k < |ids| && Owner(db, household, ids[k], a) && forall j | 0 <= j < k :: Unheld(db, household, ids[j])
  }

  ghost predicate NoOwners(db: Db, household: Id, ids: seq<Id>) { forall k | 0 <= k < |ids| :: Unheld(db, household, ids[k]) }

  /** `a` is near the first item that has a near match. */
  ghost predicate FirstNearby(db: Db, cfg: Config, household: Id, ids: seq<Id>, a: Id) {
    exists k, m :: && 0 <= k < |ids| && NearSomewhere(db, cfg, household, ids[k], m) && m.asset == a
                   && forall j | 0 <= j < k :: NearNothing(db, cfg, household, ids[j])
  }

  /** The verdict: the first owner; else what the first item with a near match is near; else a new asset. */
  ghost predicate VerdictAt(db: Db, cfg: Config, household: Id, ids: seq<Id>, v: Verdict) {
    match v
    case DuplicateOf(a) => FirstOwner(db, household, ids, a)
    case SimilarTo(a) => NoOwners(db, household, ids) && FirstNearby(db, cfg, household, ids, a)
    case NewAsset => NoOwners(db, household, ids) && forall k | 0 <= k < |ids| :: NearNothing(db, cfg, household, ids[k])
  }

  /** A barcode of an item without an owner carries this text, and some asset asserts it. */
  ghost predicate CollidesAt(db: Db, cfg: Config, household: Id, e: Id, text: string) {
    && Unheld(db, household, e) && (exists i: nat :: BarcodeAt(db, cfg, e, i, text))
    && exists a :: AssertedBy(db, cfg, household, text, a)
  }

  lemma ItemAt(db: Db, cfg: Config, household: Id, e: Id, item: Item, m: Match)
    requires IsItem(db, cfg, household, PhashRows(db, household), IdentifierRows(db, household), e, item)
    ensures m in ItemMatches(item) <==> MatchAt(db, cfg, household, e, m)
    ensures Unheld(db, household, e) ==> multiset(ItemMatches(item))[m] == |NearTriples(db, cfg, household, e, |db.observations|, m)|
  {
    hide ExactAsset, PhashRows, IdentifierRows, Hashes, Barcodes, MatchesOf, IsCollisions, NearTriples, NearSomewhere, Owner, Unheld;
    ExactExactly(db, household, e);
    NearExactlyAt(db, cfg, household, e, m);
    if item.Near? {
      SameMembers(item.matches, MatchesOf(cfg, e, Hashes(db, e), PhashRows(db, household)));
    }
  }

  lemma ItemCollidesAt(db: Db, cfg: Config, household: Id, e: Id, item: Item, text: string)
    requires IsItem(db, cfg, household, PhashRows(db, household), IdentifierRows(db, household), e, item)
    ensures (exists c | c in ItemCollisions(item) :: c.identifier == text) <==> CollidesAt(db, cfg, household, e, text)
    ensures forall c | c in ItemCollisions(item) :: c.evidence == e && AssertedBy(db, cfg, household, c.identifier, c.asset)
  {
    hide ExactAsset, PhashRows, Hashes, MatchesOf, IsCollisions, IdentifierRows, Owner, Unheld, AssertedBy, BarcodeAt;
    ExactExactly(db, household, e);
    if item.Near? {
      var idents := IdentifierRows(db, household);
      CollisionsExactly(cfg, e, Barcodes(db, e), idents, item.collisions, text);
      CollisionsCounted(db, cfg, household, e, item.collisions, text);
      forall a { AssertedIs(db, cfg, household, text, a); }
      BarcodesHave(db, cfg, e, text);
    }
  }

  lemma BarcodesHave(db: Db, cfg: Config, e: Id, text: string)
    ensures (exists o | o in Barcodes(db, e) :: IdentifierOf(cfg, o) == Some(text)) <==> exists i: nat :: BarcodeAt(db, cfg, e, i, text)
  {
    hide IdentifierOf, BarcodeAt, Select;
    if o :| o in Barcodes(db, e) && IdentifierOf(cfg, o) == Some(text) {
      var i: nat :| i < |db.observations| && db.observations[i] == o;
      BarcodeIs(db, cfg, e, i, text);
      assert BarcodeAt(db, cfg, e, i, text);
    }
    if i: nat :| BarcodeAt(db, cfg, e, i, text) {
      BarcodeInTable(db, cfg, e, i, text);
      BarcodeIs(db, cfg, e, i, text);
      assert db.observations[i] in Barcodes(db, e);
    }
  }

  lemma BarcodeInTable(db: Db, cfg: Config, e: Id, i: nat, text: string)
    ensures BarcodeAt(db, cfg, e, i, text) ==> i < |db.observations|
  {
  }

  lemma NearNothingIs(db: Db, cfg: Config, household: Id, e: Id)
    ensures NearNothing(db, cfg, household, e) <==> NothingNear(db, cfg, PhashRows(db, household), e)
  {
    var rows := PhashRows(db, household);
    NoMatches(cfg, e, Hashes(db, e), rows);
    hide PhashRows, Hashes, NearRow, MatchesOf, NearSomewhere, HashIn;
    var all := MatchesOf(cfg, e, Hashes(db, e), rows);
    forall m ensures m in all <==> NearSomewhere(db, cfg, household, e, m) {
      NearExactlyAt(db, cfg, household, e, m);
    }
    if all != [] { assert all[0] in all; }
  }

  lemma NearAssetIs(db: Db, cfg: Config, household: Id, e: Id, a: Id)
    requires NearAsset(db, cfg, PhashRows(db, household), e, a)
    ensures exists m :: NearSomewhere(db, cfg, household, e, m) && m.asset == a
  {
    var rows := PhashRows(db, household);
    hide PhashRows, Hashes, MatchesOf, NearSomewhere, NearSome;
    var m :| NearSome(cfg, e, Hashes(db, e), rows, m) && m.asset == a;
    NearExactly(cfg, e, Hashes(db, e), rows, m);
    NearExactlyAt(db, cfg, household, e, m);
  }

  lemma OwnersAre(db: Db, household: Id, ids: seq<Id>)
    ensures NoExact(db, household, ids) <==> NoOwners(db, household, ids)
    ensures forall a | FirstExact(db, household, ids, a) :: FirstOwner(db, household, ids, a)
  {
    hide ExactAsset, Owner, Unheld;
    forall k | 0 <= k < |ids|
      ensures ExactAsset(db, household, db.links, ids[k]).None? <==> Unheld(db, household, ids[k])
      ensures forall a :: Owner(db, household, ids[k], a) <==> ExactAsset(db, household, db.links, ids[k]) == Some(a)
    {
      ExactExactly(db, household, ids[k]);
    }
  }

  lemma FirstNearbyIs(db: Db, cfg: Config, household: Id, ids: seq<Id>, k: nat, a: Id)
    requires FirstNear(db, cfg, PhashRows(db, household), ids, k) && NearAsset(db, cfg, PhashRows(db, household), ids[k], a)
    ensures FirstNearby(db, cfg, household, ids, a)
  {
    hide PhashRows, NearNothing, NothingNear, NearAsset, NearSomewhere;
    NearAssetIs(db, cfg, household, ids[k], a);
    var m :| NearSomewhere(db, cfg, household, ids[k], m) && m.asset == a;
    forall j | 0 <= j < k ensures NearNothing(db, cfg, household, ids[j]) {
      NearNothingIs(db, cfg, household, ids[j]);
    }
  }

  lemma VerdictIs(db: Db, cfg: Config, household: Id, ids: seq<Id>, items: seq<Item>)
    requires Outcome(db, cfg, household, PhashRows(db, household), IdentifierRows(db, household), ids, Ok(items))
    ensures VerdictAt(db, cfg, household, ids, Judge(Flat(items)))
  {
    hide PhashRows, IdentifierRows, Outcome, Judge, Flat, NoExact, FirstExact, NoOwners, FirstOwner, FirstNearby, NearNothing,
         NothingNear, NearAsset, InRowOrder, FirstNearRow, Hashes;
    var rows, v := PhashRows(db, household), Judge(Flat(items));
    VerdictExactly(db, cfg, household, rows, IdentifierRows(db, household), ids, items);
    OwnersAre(db, household, ids);
    if v.SimilarTo? {
      var k: nat :| FirstNear(db, cfg, rows, ids, k) && NearAsset(db, cfg, rows, ids[k], v.asset);
      FirstNearbyIs(db, cfg, household, ids, k, v.asset);
    } else if v.NewAsset? {
      forall k | 0 <= k < |ids| ensures NearNothing(db, cfg, household, ids[k]) {
        NearNothingIs(db, cfg, household, ids[k]);
      }
    }
  }

  /** Some item without an owner fails. */
  ghost predicate SomeFails(db: Db, cfg: Config, household: Id, ids: seq<Id>) {
    exists k :: 0 <= k < |ids| && Unheld(db, household, ids[k]) && FailsAt(db, cfg, household, ids[k])
  }

  lemma FailureIs(db: Db, cfg: Config, household: Id, ids: seq<Id>, r: Result<seq<Item>, Error>)
    requires Outcome(db, cfg, household, PhashRows(db, household), IdentifierRows(db, household), ids, r)
    ensures r.Err? <==> SomeFails(db, cfg, household, ids)
  {
    hide PhashRows, IdentifierRows, ExactAsset, HashesRaise, IsItem, Owner, Unheld, FailsAt, Barcodes;
    forall k | 0 <= k < |ids|
      ensures Fails(db, cfg, household, PhashRows(db, household), ids[k])
              <==> Unheld(db, household, ids[k]) && FailsAt(db, cfg, household, ids[k])
    {
      ExactExactly(db, household, ids[k]);
      if Unheld(db, household, ids[k]) { FailsExactlyAt(db, cfg, household, ids[k]); }
    }
    hide Raises;
  }

  ghost predicate ForeignIn(db: Db, household: Id, ids: seq<Id>) {
    exists e | e in ids :: e !in db.evidence || db.evidence[e] != household
  }

  ghost predicate Reported(collisions: seq<Collision>, text: string) { exists c | c in collisions :: c.identifier == text }

  ghost predicate CollidesIn(db: Db, cfg: Config, household: Id, ids: seq<Id>, text: string) {
    exists k :: 0 <= k < |ids| && CollidesAt(db, cfg, household, ids[k], text)
  }

  /** The lists and the verdict of a successful job, item by item over the tables. */
  ghost predicate FoundAt(db: Db, cfg: Config, household: Id, ids: seq<Id>, f: Found, v: Verdict) {
    && (forall m :: m in f.matches <==> exists k :: 0 <= k < |ids| && MatchAt(db, cfg, household, ids[k], m))
    && (forall c | c in f.collisions :: c.evidence in ids && AssertedBy(db, cfg, household, c.identifier, c.asset))
    && (forall text :: Reported(f.collisions, text) <==> CollidesIn(db, cfg, household, ids, text))
    && VerdictAt(db, cfg, household, ids, v)
  }

  lemma FoundIs(db: Db, cfg: Config, household: Id, ids: seq<Id>, items: seq<Item>)
    requires Outcome(db, cfg, household, PhashRows(db, household), IdentifierRows(db, household), ids, Ok(items))
    ensures FoundAt(db, cfg, household, ids, Flat(items), Judge(Flat(items)))
  {
    VerdictIs(db, cfg, household, ids, items);
    hide Outcome, VerdictAt, MatchAt, CollidesIn, Reported, AssertedBy, Judge, Flat;
    forall m { MatchFound(db, cfg, household, ids, items, m); }
    forall c { CollisionFound(db, cfg, household, ids, items, c); }
    forall text ensures Reported(Flat(items).collisions, text) <==> CollidesIn(db, cfg, household, ids, text) {
      TextFound(db, cfg, household, ids, items, text);
    }
  }

  lemma MatchFound(db: Db, cfg: Config, household: Id, ids: seq<Id>, items: seq<Item>, m: Match)
    requires Outcome(db, cfg, household, PhashRows(db, household), IdentifierRows(db, household), ids, Ok(items))
    ensures m in Flat(items).matches <==> exists k :: 0 <= k < |ids| && MatchAt(db, cfg, household, ids[k], m)
  {
    hide PhashRows, IdentifierRows, IsItem, Fails, MatchAt, Collect, ItemMatches;
    CollectExactly(ItemMatches, items, m);
    forall k | 0 <= k < |ids| ensures m in ItemMatches(items[k]) <==> MatchAt(db, cfg, household, ids[k], m) {
      ItemAt(db, cfg, household, ids[k], items[k], m);
    }
    if k :| 0 <= k < |ids| && MatchAt(db, cfg, household, ids[k], m) {
      assert items[k] in items;
    }
  }

  lemma CollisionFound(db: Db, cfg: Config, household: Id, ids: seq<Id>, items: seq<Item>, c: Collision)
    requires Outcome(db, cfg, household, PhashRows(db, household), IdentifierRows(db, household), ids, Ok(items))
    ensures c in Flat(items).collisions ==> c.evidence in ids && AssertedBy(db, cfg, household, c.identifier, c.asset)
  {
    hide PhashRows, IdentifierRows, IsItem, Fails, AssertedBy, Collect, ItemCollisions;
    CollectExactly(ItemCollisions, items, c);
    if c in Flat(items).collisions {
      var item :| item in items && c in ItemCollisions(item);
      var k :| 0 <= k < |items| && items[k] == item;
      ItemCollidesAt(db, cfg, household, ids[k], item, c.identifier);
    }
  }

  lemma TextFound(db: Db, cfg: Config, household: Id, ids: seq<Id>, items: seq<Item>, text: string)
    requires Outcome(db, cfg, household, PhashRows(db, household), IdentifierRows(db, household), ids, Ok(items))
    ensures Reported(Flat(items).collisions, text) <==> CollidesIn(db, cfg, household, ids, text)
  {
    hide PhashRows, IdentifierRows, IsItem, Fails, CollidesAt, Collect, ItemCollisions;
    forall c { CollectExactly(ItemCollisions, items, c); }
    if c :| c in Flat(items).collisions && c.identifier == text {
      var item :| item in items && c in ItemCollisions(item);
      var k :| 0 <= k < |items| && items[k] == item;
      ItemCollidesAt(db, cfg, household, ids[k], item, text);
    }
    if k :| 0 <= k < |ids| && CollidesAt(db, cfg, household, ids[k], text) {
      ItemCollidesAt(db, cfg, household, ids[k], items[k], text);
      var c :| c in ItemCollisions(items[k]) && c.identifier == text;
      assert items[k] in items && Dedup.Gives(ItemCollisions, items, c);
    }
  }

  /**
   * A job of a household is refused exactly when some of its evidence is not that household's, fails exactly when
   * an item without an owner does, and otherwise finds what the tables hold.
   */
  lemma JobFindsExactly(db: Db, cfg: Config, household: Id, ids: seq<Id>, r: Result<(Found, Verdict), Error>)
    requires Finds(db, cfg, Some(household), PhashRows(db, household), IdentifierRows(db, household), ids, r)
    ensures if ForeignIn(db, household, ids) then r == Err(ForeignEvidence)
            else && (r.Err? <==> SomeFails(db, cfg, household, ids))
                 && (r.Ok? ==> FoundAt(db, cfg, household, ids, r.value.0, r.value.1))
  {
    var rows, idents := PhashRows(db, household), IdentifierRows(db, household);
    hide PhashRows, IdentifierRows, Outcome, Flat, Judge, SomeFails, FoundAt;
    var items :| && JobOutcome(db, cfg, Some(household), rows, idents, ids, Core(r, items))
                 && (r.Ok? ==> r.value == (Flat(items), Judge(Flat(items))));
    assert ForeignIn(db, household, ids) <==> Foreign(db, Some(household), ids);
    if !ForeignIn(db, household, ids) {
      FailureIs(db, cfg, household, ids, Core(r, items));
      if r.Ok? { FoundIs(db, cfg, household, ids, items); }
    }
  }
}
