/** Import deduplication: one prefetch per household instead of one query per evidence item. */
module Dedup {
  import opened Prelude

  datatype Kind = PHash | BarcodeQr | OtherKind
  /** `value` is None when the stored JSON does not parse, which fails the job. */
  datatype Observation = Observation(evidence: Id, kind: Kind, value: Option<Json>)

  /** A row of the join: an observation and an asset that holds its evidence. */
  type Row = (Observation, Id)

  datatype Db = Db(
    assets: map<Id, Id>,                 // asset, household
    links: seq<(Id, Id)>,                // asset, evidence
    evidence: map<Id, Id>,               // evidence, household
    observations: seq<Observation>,
    identifiers: seq<(Id, Json)>)        // "identifier" assertions: asset, value

  /** `distance` raises on hashes it cannot compare; `text` is Python's str(). */
  datatype Config = Config(threshold: nat, distance: (string, string) -> Option<nat>, text: Json -> string)

  datatype Error = ForeignEvidence | Unparseable | Incomparable

  datatype Match = Duplicate(asset: Id, evidence: Id) | Similar(asset: Id, distance: nat)
  datatype Collision = Collision(identifier: string, asset: Id, evidence: Id)

  /** What one evidence item contributes. */
  datatype Item = Exact(asset: Id, evidence: Id) | Near(matches: seq<Match>, collisions: seq<Collision>)

  datatype Found = Found(matches: seq<Match>, exact: seq<Id>, collisions: seq<Collision>)
  datatype Verdict = DuplicateOf(asset: Id) | SimilarTo(asset: Id) | NewAsset

  // ----- the tables -----

  predicate Before(x: Id, y: Id)
    decreases |x|
  {
    if x == "" then true
    else if y == "" then false
    else x[0] < y[0] || (x[0] == y[0] && Before(x[1..], y[1..]))
  }

  predicate Owned(db: Db, household: Id, a: Id) { a in db.assets && db.assets[a] == household }

  predicate LinkedIn(db: Db, household: Id, l: (Id, Id), e: Id) { l.1 == e && Owned(db, household, l.0) }

  /** The household's asset with the least id among those linked to an evidence item. */
  function ExactAsset(db: Db, household: Id, links: seq<(Id, Id)>, e: Id): (r: Option<Id>)
    ensures r.Some? ==> (r.value, e) in links && Owned(db, household, r.value)
    ensures r.None? ==> forall l | l in links :: !LinkedIn(db, household, l, e)
  {
    if links == [] then None
    else
      var l := links[|links| - 1];
      var r := ExactAsset(db, household, links[..|links| - 1], e);
      assert forall x | x in links :: x in links[..|links| - 1] || x == l;
      if !LinkedIn(db, household, l, e) || (r.Some? && Before(r.value, l.0)) then r else Some(l.0)
  }

  function AssetsOf(db: Db, household: Id, links: seq<(Id, Id)>, o: Observation): seq<Row> {
    if links == [] then []
    else
      var l := links[|links| - 1];
      AssetsOf(db, household, links[..|links| - 1], o)
      + if LinkedIn(db, household, l, o.evidence) then [(o, l.0)] else []
  }

  /** Perceptual-hash observations joined to the household's assets, in table order. */
  function JoinedRows(db: Db, household: Id, observations: seq<Observation>): seq<Row> {
    if observations == [] then []
    else
      var o := observations[|observations| - 1];
      JoinedRows(db, household, observations[..|observations| - 1])
      + if o.kind == PHash then AssetsOf(db, household, db.links, o) else []
  }

  function PhashRows(db: Db, household: Id): seq<Row> { JoinedRows(db, household, db.observations) }

  /** Identifier assertions of the household's assets, in table order. */
  function OwnedIdentifiers(db: Db, household: Id, assertions: seq<(Id, Json)>): (r: seq<(Id, Json)>)
    ensures forall x :: x in r <==> x in assertions && Owned(db, household, x.0)
  {
    if assertions == [] then []
    else
      var x := assertions[|assertions| - 1];
      var r := OwnedIdentifiers(db, household, assertions[..|assertions| - 1]);
      assert forall y :: y in assertions <==> y in assertions[..|assertions| - 1] || y == x;
      if Owned(db, household, x.0) then r + [x] else r
  }

  function IdentifierRows(db: Db, household: Id): seq<(Id, Json)> { OwnedIdentifiers(db, household, db.identifiers) }

  function Select(observations: seq<Observation>, e: Id, kind: Kind): (r: seq<Observation>)
    ensures forall o :: o in r <==> o in observations && o.evidence == e && o.kind == kind
  {
    if observations == [] then []
    else
      var o := observations[|observations| - 1];
      var r := Select(observations[..|observations| - 1], e, kind);
      assert forall x :: x in observations <==> x in observations[..|observations| - 1] || x == o;
      if o.evidence == e && o.kind == kind then r + [o] else r
  }

  /** The evidence item's own hashes, and its barcodes. */
  function Hashes(db: Db, e: Id): seq<Observation> { Select(db.observations, e, PHash) }
  function Barcodes(db: Db, e: Id): seq<Observation> { Select(db.observations, e, BarcodeQr) }

  // ----- the queries: no ORDER BY, so each one answers in any order -----

  /** `s` with `x` put at one end or the other. */
  method Place<T>(s: seq<T>, x: T) returns (r: seq<T>)
    ensures multiset(r) == multiset(s) + multiset{x}
  {
    if * { r := [x] + s; } else { r := s + [x]; }
  }

  method QueryRows(db: Db, household: Id) returns (rows: seq<Row>)
    ensures multiset(rows) == multiset(PhashRows(db, household))
  {
    rows := [];
    var all := db.observations;
    for k := 0 to |all|
      invariant multiset(rows) == multiset(JoinedRows(db, household, all[..k]))
    {
      assert all[..k + 1][..k] == all[..k];
      if all[k].kind == PHash {
        rows := JoinAssets(db, household, all[k], rows);
      }
    }
    assert all[..|all|] == all;
  }

  method JoinAssets(db: Db, household: Id, o: Observation, before: seq<Row>) returns (rows: seq<Row>)
    ensures multiset(rows) == multiset(before) + multiset(AssetsOf(db, household, db.links, o))
  {
    rows := before;
    var all := db.links;
    for k := 0 to |all|
      invariant multiset(rows) == multiset(before) + multiset(AssetsOf(db, household, all[..k], o))
    {
      assert all[..k + 1][..k] == all[..k];
      if LinkedIn(db, household, all[k], o.evidence) {
        rows := Place(rows, (o, all[k].0));
      }
    }
    assert all[..|all|] == all;
  }

  method QueryIdentifiers(db: Db, household: Id) returns (rows: seq<(Id, Json)>)
    ensures multiset(rows) == multiset(IdentifierRows(db, household))
  {
    rows := [];
    var all := db.identifiers;
    for k := 0 to |all|
      invariant multiset(rows) == multiset(OwnedIdentifiers(db, household, all[..k]))
    {
      assert all[..k + 1][..k] == all[..k];
      if Owned(db, household, all[k].0) {
        rows := Place(rows, all[k]);
      }
    }
    assert all[..|all|] == all;
  }

  method QueryObservations(db: Db, e: Id, kind: Kind) returns (r: seq<Observation>)
    ensures multiset(r) == multiset(Select(db.observations, e, kind))
  {
    r := [];
    var all := db.observations;
    for k := 0 to |all|
      invariant multiset(r) == multiset(Select(all[..k], e, kind))
    {
      assert all[..k + 1][..k] == all[..k];
      if all[k].evidence == e && all[k].kind == kind {
        r := Place(r, all[k]);
      }
    }
    assert all[..|all|] == all;
  }

  // ----- lists built one element at a time -----

  function Collect<T, M>(f: T -> seq<M>, s: seq<T>): seq<M> {
    if s == [] then [] else Collect(f, s[..|s| - 1]) + f(s[|s| - 1])
  }

  lemma {:induction false} CollectJoin<T, M>(f: T -> seq<M>, s: seq<T>, u: seq<T>)
    ensures Collect(f, s + u) == Collect(f, s) + Collect(f, u)
  {
    if u == [] {
      assert s + u == s;
    } else {
      var n := |u| - 1;
      CollectJoin(f, s, u[..n]);
      assert (s + u)[..|s| + n] == s + u[..n];
      assert Collect(f, s) + (Collect(f, u[..n]) + f(u[n])) == Collect(f, s) + Collect(f, u[..n]) + f(u[n]);
    }
  }

  lemma CollectOne<T, M>(f: T -> seq<M>, x: T)
    ensures Collect(f, [x]) == f(x)
  {
    assert [x][..0] == [];
    assert Collect(f, []) == [];
  }

  /** The order of the elements moves only the order of the list. */
  lemma {:induction false} CollectAnyOrder<T, M>(f: T -> seq<M>, s: seq<T>, u: seq<T>)
    requires multiset(s) == multiset(u)
    ensures multiset(Collect(f, s)) == multiset(Collect(f, u))
    decreases |s|
  {
    if s == [] {
      assert |multiset(u)| == 0;
      assert u == [];
    } else {
      var n := |s| - 1;
      var x := s[n];
      assert s == s[..n] + [x];
      assert x in multiset(u);
      var i :| 0 <= i < |u| && u[i] == x;
      var rest := u[..i] + u[i + 1..];
      assert u == u[..i] + ([x] + u[i + 1..]);
      assert multiset(s[..n]) == multiset(s) - multiset{x};
      assert multiset(rest) == multiset(u) - multiset{x};
      CollectAnyOrder(f, s[..n], rest);
      CollectJoin(f, u[..i], u[i + 1..]);
      CollectJoin(f, u[..i], [x] + u[i + 1..]);
      CollectJoin(f, [x], u[i + 1..]);
      CollectOne(f, x);
    }
  }

  lemma {:induction false} CollectSame<T, M>(f: T -> seq<M>, g: T -> seq<M>, s: seq<T>)
    requires forall x | x in s :: multiset(f(x)) == multiset(g(x))
    ensures multiset(Collect(f, s)) == multiset(Collect(g, s))
  {
    if s != [] {
      assert forall x | x in s[..|s| - 1] :: x in s;
      CollectSame(f, g, s[..|s| - 1]);
    }
  }

  lemma SameMembers<T>(s: seq<T>, u: seq<T>)
    requires multiset(s) == multiset(u)
    ensures forall x :: x in s <==> x in u
  {
    assert forall x :: x in s <==> x in multiset(s);
    assert forall x :: x in u <==> x in multiset(u);
  }

  ghost predicate Gives<T, M>(f: T -> seq<M>, s: seq<T>, m: M) { exists x | x in s :: m in f(x) }

  lemma {:induction false} CollectExactly<T, M>(f: T -> seq<M>, s: seq<T>, m: M)
    ensures m in Collect(f, s) <==> Gives(f, s, m)
  {
    if s != [] {
      var n := |s| - 1;
      CollectExactly(f, s[..n], m);
      assert forall x :: x in s <==> x in s[..n] || x == s[n];
    }
  }

  ghost predicate HeadAt<T, M>(f: T -> seq<M>, s: seq<T>, i: nat, m: M) {
    i < |s| && f(s[i]) != [] && f(s[i])[0] == m && forall j | 0 <= j < i :: f(s[j]) == []
  }

  /** The head of the list comes from the first element that contributes. */
  lemma {:induction false} CollectHead<T, M>(f: T -> seq<M>, s: seq<T>)
    ensures Collect(f, s) == [] <==> forall j | 0 <= j < |s| :: f(s[j]) == []
    ensures Collect(f, s) != [] ==> exists i :: HeadAt(f, s, i, Collect(f, s)[0])
  {
    if s != [] {
      var n := |s| - 1;
      CollectHead(f, s[..n]);
      if Collect(f, s[..n]) != [] {
        var i: nat :| HeadAt(f, s[..n], i, Collect(f, s[..n])[0]);
        assert HeadAt(f, s, i, Collect(f, s)[0]);
      } else {
        assert forall j | 0 <= j < n :: f(s[..n][j]) == [] && s[..n][j] == s[j];
        if f(s[n]) != [] { assert HeadAt(f, s, n, Collect(f, s)[0]); }
      }
    }
  }

  // ----- reading observations -----

  /** A field of the observation's object; a value that is no object has none. */
  function Field(v: Json, key: string): Json { if v.Obj? && key in v.fields then v.fields[key] else Null }

  function HashIn(v: Json): Option<string> { if Field(v, "hash").Str? then Some(Field(v, "hash").s) else None }

  /** The hash an observation carries, if it parses and has one. */
  function HashOf(o: Observation): Option<string> { if o.value.Some? then HashIn(o.value.value) else None }

  predicate Truthy(v: Json) {
    match v
    case Null => false
    case Bool(b) => b
    case Num(n) => n != 0.0
    case Str(s) => s != ""
    case Obj(fields) => fields != map[]
  }

  /** The identifier a barcode carries, if it parses and was validated. */
  function IdentifierOf(cfg: Config, o: Observation): Option<string> {
    if o.value.Some? && Field(o.value.value, "validated") == Bool(true) && Truthy(Field(o.value.value, "value"))
    then Some(cfg.text(Field(o.value.value, "value")))
    else None
  }

  // ----- similar assets -----

  function RowRaises(cfg: Config, e: Id, hash: string, row: Row): Option<Error> {
    if row.0.value.None? then Some(Unparseable)
    else if HashOf(row.0).None? || row.0.evidence == e then None
    else if cfg.distance(hash, HashOf(row.0).value).None? then Some(Incomparable)
    else None
  }

  /** The match one row makes with a hash of evidence `e`, if it is within the threshold. */
  function NearRow(cfg: Config, e: Id, hash: string, row: Row): seq<Match> {
    if HashOf(row.0).None? || row.0.evidence == e then []
    else
      match cfg.distance(hash, HashOf(row.0).value)
      case None => []
      case Some(d) => if d <= cfg.threshold then [Similar(row.1, d)] else []
  }

  function NearHash(cfg: Config, e: Id, hash: string): Row -> seq<Match> { row => NearRow(cfg, e, hash, row) }

  function NearOwn(cfg: Config, e: Id, rows: seq<Row>): Observation -> seq<Match> {
    o => if HashOf(o).Some? then Collect(NearHash(cfg, e, HashOf(o).value), rows) else []
  }

  /** Every match of an evidence item's hashes with the rows: hash by hash, row by row. */
  function MatchesOf(cfg: Config, e: Id, own: seq<Observation>, rows: seq<Row>): seq<Match> {
    Collect(NearOwn(cfg, e, rows), own)
  }

  ghost predicate HashesRaise(cfg: Config, e: Id, own: seq<Observation>, rows: seq<Row>, x: Error) {
    || (x == Unparseable && exists o | o in own :: o.value.None?)
    || exists o, row | o in own && row in rows :: HashOf(o).Some? && RowRaises(cfg, e, HashOf(o).value, row) == Some(x)
  }

  /** `_similar_matches`: over the fetched rows, or with none fetched over its own query's. */
  method SimilarMatches(
    db: Db, cfg: Config, household: Id, e: Id, hash: string, fetched: Option<seq<Row>>, ghost rows: seq<Row>)
    returns (r: Result<seq<Match>, Error>)
    requires rows == if fetched.Some? then fetched.value else PhashRows(db, household)
    ensures r.Err? ==> exists row | row in rows :: RowRaises(cfg, e, hash, row) == Some(r.error)
    ensures r.Ok? ==> forall row | row in rows :: RowRaises(cfg, e, hash, row).None?
    ensures r.Ok? ==> multiset(r.value) == multiset(Collect(NearHash(cfg, e, hash), rows))
    ensures r.Ok? && fetched.Some? ==> r.value == Collect(NearHash(cfg, e, hash), rows)
  {
    hide PhashRows, Truthy;
    var all: seq<Row>;
    if fetched.Some? {
      all := fetched.value;
    } else {
      all := QueryRows(db, household);
    }
    SameMembers(all, rows);
    var matches: seq<Match> := [];
    for k := 0 to |all|
      invariant matches == Collect(NearHash(cfg, e, hash), all[..k])
      invariant forall j | 0 <= j < k :: RowRaises(cfg, e, hash, all[j]).None?
    {
      assert all[..k + 1][..k] == all[..k];
      var (o, a) := all[k];
      assert all[k] in rows;
      if o.value.None? { return Err(Unparseable); }
      var value := HashIn(o.value.value);
      if value.None? || o.evidence == e { continue; }
      var distance := cfg.distance(hash, value.value);
      if distance.None? { return Err(Incomparable); }
      if distance.value <= cfg.threshold {
        matches := matches + [Similar(a, distance.value)];
      }
    }
    assert all[..|all|] == all;
    CollectAnyOrder(NearHash(cfg, e, hash), all, rows);
    return Ok(matches);
  }

  /** The matches of every hash of one evidence item; each hash may run its own query. */
  method HashMatches(
    db: Db, cfg: Config, household: Id, e: Id, own: seq<Observation>, fetched: Option<seq<Row>>, ghost rows: seq<Row>)
    returns (r: Result<seq<Match>, Error>)
    requires rows == if fetched.Some? then fetched.value else PhashRows(db, household)
    ensures r.Err? ==> HashesRaise(cfg, e, own, rows, r.error)
    ensures r.Ok? ==> forall x :: !HashesRaise(cfg, e, own, rows, x)
    ensures r.Ok? ==> multiset(r.value) == multiset(MatchesOf(cfg, e, own, rows))
    ensures r.Ok? && fetched.Some? ==> r.value == MatchesOf(cfg, e, own, rows)
  {
    hide PhashRows, RowRaises, NearHash, MatchesOf, HashesRaise, Sound, Field;
    var matches: seq<Match> := [];
    NoHashes(cfg, e, own, rows);
    for k := 0 to |own|
      invariant multiset(matches) == multiset(MatchesOf(cfg, e, own[..k], rows))
      invariant fetched.Some? ==> matches == MatchesOf(cfg, e, own[..k], rows)
      invariant forall j | 0 <= j < k :: Sound(cfg, e, own[j], rows)
    {
      NextHash(cfg, e, own, k, rows);
      if own[k].value.None? { return Err(Unparseable); }
      var hash := HashIn(own[k].value.value);
      if hash.Some? {
        var more := SimilarMatches(db, cfg, household, e, hash.value, fetched, rows);
        HashRaises(cfg, e, own, k, rows);
        if more.Err? { return Err(more.error); }
        matches := matches + more.value;
      }
    }
    assert own[..|own|] == own;
    AllSound(cfg, e, own, rows);
    return Ok(matches);
  }

  lemma NoHashes(cfg: Config, e: Id, own: seq<Observation>, rows: seq<Row>)
    ensures MatchesOf(cfg, e, own[..0], rows) == []
  {
  }

  lemma NextHash(cfg: Config, e: Id, own: seq<Observation>, k: nat, rows: seq<Row>)
    requires k < |own|
    ensures MatchesOf(cfg, e, own[..k + 1], rows)
            == MatchesOf(cfg, e, own[..k], rows)
               + (if HashOf(own[k]).Some? then Collect(NearHash(cfg, e, HashOf(own[k]).value), rows) else [])
    ensures own[k].value.None? ==> HashesRaise(cfg, e, own, rows, Unparseable)
    ensures own[k].value.Some? && HashOf(own[k]).None? ==> Sound(cfg, e, own[k], rows)
  {
    assert own[..k + 1][..k] == own[..k];
    assert own[k] in own;
  }

  lemma HashRaises(cfg: Config, e: Id, own: seq<Observation>, k: nat, rows: seq<Row>)
    requires k < |own| && HashOf(own[k]).Some?
    ensures forall row, x | row in rows && RowRaises(cfg, e, HashOf(own[k]).value, row) == Some(x) ::
              HashesRaise(cfg, e, own, rows, x)
    ensures (forall row | row in rows :: RowRaises(cfg, e, HashOf(own[k]).value, row).None?) ==> Sound(cfg, e, own[k], rows)
  {
    assert own[k] in own;
  }

  lemma AllSound(cfg: Config, e: Id, own: seq<Observation>, rows: seq<Row>)
    requires forall j | 0 <= j < |own| :: Sound(cfg, e, own[j], rows)
    ensures forall x :: !HashesRaise(cfg, e, own, rows, x)
  {
    hide RowRaises, HashIn;
  }

  /** One of the evidence item's hashes parses and raises on no row. */
  ghost predicate Sound(cfg: Config, e: Id, o: Observation, rows: seq<Row>) {
    o.value.Some? && (HashOf(o).Some? ==> forall row | row in rows :: RowRaises(cfg, e, HashOf(o).value, row).None?)
  }

  // ----- identifier collisions -----

  /** Each identifier text that some assertion has leads to one of the assets that assert it. */
  ghost predicate DictFrom(cfg: Config, idents: seq<(Id, Json)>, dict: map<string, Id>) {
    && (forall x | x in idents :: cfg.text(x.1) in dict)
    && (forall t | t in dict :: Asserts(cfg, idents, t, dict[t]))
  }

  ghost predicate Asserts(cfg: Config, idents: seq<(Id, Json)>, text: string, a: Id) {
    exists x | x in idents :: x.0 == a && cfg.text(x.1) == text
  }

  /** The dictionary loop: a later row overwrites an earlier one. */
  method BuildDict(cfg: Config, idents: seq<(Id, Json)>) returns (dict: map<string, Id>)
    ensures DictFrom(cfg, idents, dict)
  {
    dict := map[];
    for k := 0 to |idents|
      invariant DictFrom(cfg, idents[..k], dict)
    {
      assert idents[..k + 1] == idents[..k] + [idents[k]];
      OneMoreEntry(cfg, idents[..k], idents[k], dict);
      dict := dict[cfg.text(idents[k].1) := idents[k].0];
    }
    assert idents[..|idents|] == idents;
  }

  function Collide(cfg: Config, e: Id, dict: map<string, Id>): Observation -> seq<Collision> {
    o => match IdentifierOf(cfg, o)
         case None => []
         case Some(t) => if t in dict then [Collision(t, dict[t], e)] else []
  }

  /** One collision for each validated barcode whose identifier an asset already asserts. */
  ghost predicate IsCollisions(
    cfg: Config, e: Id, barcodes: seq<Observation>, idents: seq<(Id, Json)>, collisions: seq<Collision>)
  {
    exists dict | DictFrom(cfg, idents, dict) :: multiset(collisions) == multiset(Collect(Collide(cfg, e, dict), barcodes))
  }

  /** `_identifier_collisions`: against the fetched identifiers, or with none fetched against its own query's. */
  method IdentifierCollisions(
    db: Db, cfg: Config, household: Id, e: Id, existing: Option<map<string, Id>>, ghost idents: seq<(Id, Json)>)
    returns (r: Result<seq<Collision>, Error>)
    requires if existing.Some? then DictFrom(cfg, idents, existing.value) else idents == IdentifierRows(db, household)
    ensures r.Err? <==> exists o | o in Barcodes(db, e) :: o.value.None?
    ensures r.Err? ==> r.error == Unparseable
    ensures r.Ok? ==> IsCollisions(cfg, e, Barcodes(db, e), idents, r.value)
  {
    hide IdentifierRows, Select, Truthy;
    var barcodes := QueryObservations(db, e, BarcodeQr);
    SameMembers(barcodes, Barcodes(db, e));
    var dict: map<string, Id>;
    if existing.Some? {
      dict := existing.value;
    } else {
      var answer := QueryIdentifiers(db, household);
      dict := BuildDict(cfg, answer);
      DictAnyOrder(cfg, answer, idents, dict);
    }
    hide DictFrom, Collide;
    var all := CollideAll(cfg, e, dict, barcodes);
    if all.Err? { return Err(all.error); }
    CollectAnyOrder(Collide(cfg, e, dict), barcodes, Barcodes(db, e));
    return all;
  }

  method CollideAll(cfg: Config, e: Id, dict: map<string, Id>, barcodes: seq<Observation>)
    returns (r: Result<seq<Collision>, Error>)
    ensures r.Err? <==> exists o | o in barcodes :: o.value.None?
    ensures r.Err? ==> r.error == Unparseable
    ensures r.Ok? ==> r.value == Collect(Collide(cfg, e, dict), barcodes)
  {
    hide Truthy, Field;
    var collisions: seq<Collision> := [];
    for k := 0 to |barcodes|
      invariant collisions == Collect(Collide(cfg, e, dict), barcodes[..k])
      invariant forall j | 0 <= j < k :: barcodes[j].value.Some?
    {
      assert barcodes[..k + 1][..k] == barcodes[..k];
      assert barcodes[k] in barcodes;
      if barcodes[k].value.None? { return Err(Unparseable); }
      var identifier := IdentifierOf(cfg, barcodes[k]);
      if identifier.None? { continue; }
      if identifier.value in dict {
        collisions := collisions + [Collision(identifier.value, dict[identifier.value], e)];
      }
    }
    assert barcodes[..|barcodes|] == barcodes;
    return Ok(collisions);
  }

  lemma DictAnyOrder(cfg: Config, answer: seq<(Id, Json)>, idents: seq<(Id, Json)>, dict: map<string, Id>)
    requires multiset(answer) == multiset(idents) && DictFrom(cfg, answer, dict)
    ensures DictFrom(cfg, idents, dict)
  {
    SameMembers(answer, idents);
    forall t | t in dict ensures Asserts(cfg, idents, t, dict[t]) {
      assert Asserts(cfg, answer, t, dict[t]);
    }
  }

  // ----- one evidence item -----

  /** Some observation read for `e` raises `x`; an item with an exact asset reads none. */
  ghost predicate Raises(db: Db, cfg: Config, household: Id, rows: seq<Row>, e: Id, x: Error) {
    && ExactAsset(db, household, db.links, e).None?
    && (HashesRaise(cfg, e, Hashes(db, e), rows, x)
        || (x == Unparseable && exists o | o in Barcodes(db, e) :: o.value.None?))
  }

  ghost predicate Fails(db: Db, cfg: Config, household: Id, rows: seq<Row>, e: Id) {
    exists x :: Raises(db, cfg, household, rows, e, x)
  }

  /** What `e` contributes: its exact asset alone, or everything near it and every collision, in some order. */
  ghost predicate IsItem(
    db: Db, cfg: Config, household: Id, rows: seq<Row>, idents: seq<(Id, Json)>, e: Id, item: Item)
  {
    match ExactAsset(db, household, db.links, e)
    case Some(a) => item == Exact(a, e)
    case None =>
      && item.Near?
      && multiset(item.matches) == multiset(MatchesOf(cfg, e, Hashes(db, e), rows))
      && IsCollisions(cfg, e, Barcodes(db, e), idents, item.collisions)
  }

  /** The matches follow the rows, for some order of the item's hashes. */
  ghost predicate InRowOrder(db: Db, cfg: Config, rows: seq<Row>, e: Id, item: Item) {
    item.Near? ==> exists own | multiset(own) == multiset(Hashes(db, e)) :: item.matches == MatchesOf(cfg, e, own, rows)
  }

  /** One pass of the loop. */
  method DeduplicateOne(
    db: Db, cfg: Config, household: Id, e: Id, fetched: Option<seq<Row>>, existing: Option<map<string, Id>>,
    ghost rows: seq<Row>, ghost idents: seq<(Id, Json)>)
    returns (r: Result<Item, Error>)
    requires rows == if fetched.Some? then fetched.value else PhashRows(db, household)
    requires if existing.Some? then DictFrom(cfg, idents, existing.value) else idents == IdentifierRows(db, household)
    ensures r.Err? ==> Raises(db, cfg, household, rows, e, r.error)
    ensures r.Ok? ==> !Fails(db, cfg, household, rows, e) && IsItem(db, cfg, household, rows, idents, e, r.value)
    ensures r.Ok? && fetched.Some? ==> InRowOrder(db, cfg, rows, e, r.value)
  {
    hide Select, PhashRows, IdentifierRows, ExactAsset, DictFrom, HashesRaise, IsCollisions, MatchesOf;
    var exact := ExactAsset(db, household, db.links, e);
    if exact.Some? { return Ok(Exact(exact.value, e)); }
    var own := QueryObservations(db, e, PHash);
    var matches := HashMatches(db, cfg, household, e, own, fetched, rows);
    OwnAnyOrder(cfg, e, own, Hashes(db, e), rows);
    if matches.Err? { return Err(matches.error); }
    var collisions := IdentifierCollisions(db, cfg, household, e, existing, idents);
    if collisions.Err? { return Err(collisions.error); }
    r := Ok(Near(matches.value, collisions.value));
  }

  lemma OwnAnyOrder(cfg: Config, e: Id, own: seq<Observation>, own': seq<Observation>, rows: seq<Row>)
    requires multiset(own) == multiset(own')
    ensures multiset(MatchesOf(cfg, e, own, rows)) == multiset(MatchesOf(cfg, e, own', rows))
    ensures forall x :: HashesRaise(cfg, e, own, rows, x) <==> HashesRaise(cfg, e, own', rows, x)
  {
    SameMembers(own, own');
    CollectAnyOrder(NearOwn(cfg, e, rows), own, own');
  }

  // ----- the whole step -----

  function ItemMatches(item: Item): seq<Match> { if item.Exact? then [Duplicate(item.asset, item.evidence)] else item.matches }
  function ItemExact(item: Item): seq<Id> { if item.Exact? then [item.asset] else [] }
  function ItemCollisions(item: Item): seq<Collision> { if item.Exact? then [] else item.collisions }

  /** The three lists, in evidence order. */
  function Flat(items: seq<Item>): Found {
    Found(Collect(ItemMatches, items), Collect(ItemExact, items), Collect(ItemCollisions, items))
  }

  function FirstSimilar(matches: seq<Match>): Option<Id> {
    if matches == [] then None
    else if matches[0].Similar? then Some(matches[0].asset) else FirstSimilar(matches[1..])
  }

  function Judge(f: Found): Verdict {
    if f.exact != [] then DuplicateOf(f.exact[0])
    else if FirstSimilar(f.matches).Some? then SimilarTo(FirstSimilar(f.matches).value)
    else NewAsset
  }

  /** The findings item by item, or the failure of the first item that fails. */
  ghost predicate Outcome(
    db: Db, cfg: Config, household: Id, rows: seq<Row>, idents: seq<(Id, Json)>, ids: seq<Id>, r: Result<seq<Item>, Error>)
  {
    match r
    case Ok(items) =>
      |items| == |ids| && forall k | 0 <= k < |ids| ::
        !Fails(db, cfg, household, rows, ids[k]) && IsItem(db, cfg, household, rows, idents, ids[k], items[k])
    case Err(x) =>
      exists k :: 0 <= k < |ids| && Raises(db, cfg, household, rows, ids[k], x)
                  && forall j | 0 <= j < k :: !Fails(db, cfg, household, rows, ids[j])
  }

  predicate Foreign(db: Db, household: Option<Id>, ids: seq<Id>) {
    exists e | e in ids :: e !in db.evidence || Some(db.evidence[e]) != household
  }

  ghost predicate JobOutcome(
    db: Db, cfg: Config, household: Option<Id>, rows: seq<Row>, idents: seq<(Id, Json)>, ids: seq<Id>,
    r: Result<seq<Item>, Error>)
  {
    if Foreign(db, household, ids) then r == Err(ForeignEvidence)
    else Outcome(db, cfg, Key(household), rows, idents, ids, r)
  }

  /** `job.household_id or ""`. */
  function Key(household: Option<Id>): Id { if household.Some? then household.value else "" }

  predicate Given(household: Option<Id>) { household.Some? && household.value != "" }

  /** What is fetched once: nothing for a job without a household. */
  function FetchedRows(db: Db, household: Option<Id>): seq<Row> {
    if Given(household) then PhashRows(db, household.value) else []
  }

  function FetchedIdentifiers(db: Db, household: Option<Id>): seq<(Id, Json)> {
    if Given(household) then IdentifierRows(db, household.value) else []
  }

  function Core<T>(r: Result<T, Error>, items: seq<Item>): Result<seq<Item>, Error> {
    match r
    case Ok(_) => Ok(items)
    case Err(x) => Err(x)
  }

  /** The step's result over these rows: an outcome's lists in evidence order, and its verdict. */
  ghost predicate Finds(
    db: Db, cfg: Config, household: Option<Id>, rows: seq<Row>, idents: seq<(Id, Json)>, ids: seq<Id>,
    r: Result<(Found, Verdict), Error>)
  {
    exists items ::
      && JobOutcome(db, cfg, household, rows, idents, ids, Core(r, items))
      && (r.Ok? ==> r.value == (Flat(items), Judge(Flat(items))))
  }

  /** The same over some order of the rows, which each item's matches follow. */
  ghost predicate FindsInOrder(
    db: Db, cfg: Config, household: Option<Id>, rows: seq<Row>, idents: seq<(Id, Json)>, ids: seq<Id>,
    r: Result<(Found, Verdict), Error>)
  {
    exists answer, items ::
      && JobOutcome(db, cfg, household, answer, idents, ids, Core(r, items)) && multiset(answer) == multiset(rows)
      && (r.Ok? ==>
            && r.value == (Flat(items), Judge(Flat(items))) && |items| == |ids|
            && forall k | 0 <= k < |ids| :: InRowOrder(db, cfg, answer, ids[k], items[k]))
  }

  /** The loop over the evidence, with fetched rows or with none. */
  method ScanAll(
    db: Db, cfg: Config, household: Id, ids: seq<Id>, fetched: Option<seq<Row>>, existing: Option<map<string, Id>>,
    ghost rows: seq<Row>, ghost idents: seq<(Id, Json)>)
    returns (r: Result<Found, Error>, ghost items: seq<Item>)
    requires rows == if fetched.Some? then fetched.value else PhashRows(db, household)
    requires if existing.Some? then DictFrom(cfg, idents, existing.value) else idents == IdentifierRows(db, household)
    ensures Outcome(db, cfg, household, rows, idents, ids, Core(r, items))
    ensures r.Ok? ==> r.value == Flat(items)
    ensures r.Ok? && fetched.Some? ==> forall k | 0 <= k < |items| :: InRowOrder(db, cfg, rows, ids[k], items[k])
  {
    hide PhashRows, IdentifierRows, DictFrom, IsItem, Raises, Fails, InRowOrder;
    var f := Found([], [], []);
    items := [];
    for k := 0 to |ids|
      invariant |items| == k && f == Flat(items)
      invariant forall j | 0 <= j < k ::
                  !Fails(db, cfg, household, rows, ids[j]) && IsItem(db, cfg, household, rows, idents, ids[j], items[j])
      invariant fetched.Some? ==> forall j | 0 <= j < k :: InRowOrder(db, cfg, rows, ids[j], items[j])
    {
      var one := DeduplicateOne(db, cfg, household, ids[k], fetched, existing, rows, idents);
      if one.Err? { return Err(one.error), items; }
      var item := one.value;
      FlatThen(items, item);
      f := match item
           case Exact(a, e) => Found(f.matches + [Duplicate(a, e)], f.exact + [a], f.collisions)
           case Near(matches, collisions) => Found(f.matches + matches, f.exact, f.collisions + collisions);
      items := items + [item];
    }
    r := Ok(f);
  }

  lemma FlatThen(items: seq<Item>, item: Item)
    ensures Flat(items + [item])
            == Found(Flat(items).matches + ItemMatches(item), Flat(items).exact + ItemExact(item),
                     Flat(items).collisions + ItemCollisions(item))
  {
    assert (items + [item])[..|items|] == items;
  }

  /** `deduplicate_job`, up to writing the candidate: the household's rows and identifiers are fetched once. */
  method DeduplicateJob(db: Db, cfg: Config, household: Option<Id>, ids: seq<Id>) returns (r: Result<(Found, Verdict), Error>)
    ensures FindsInOrder(db, cfg, household, FetchedRows(db, household), FetchedIdentifiers(db, household), ids, r)
    ensures household != Some("") ==>
              Finds(db, cfg, household, PhashRows(db, Key(household)), IdentifierRows(db, Key(household)), ids, r)
  {
    hide PhashRows, IdentifierRows, DictFrom, IsItem, Raises, Fails, InRowOrder, Flat, Judge;
    var answer: seq<Row> := [];
    var dict: map<string, Id> := map[];
    if Given(household) {
      answer := QueryRows(db, household.value);
      var idents := QueryIdentifiers(db, household.value);
      dict := BuildDict(cfg, idents);
      DictAnyOrder(cfg, idents, IdentifierRows(db, household.value), dict);
    } else {
      NoIdentifiers(cfg);
    }
    ghost var existing := FetchedIdentifiers(db, household);
    if exists e | e in ids :: e !in db.evidence || Some(db.evidence[e]) != household {
      r := Err(ForeignEvidence);
      assert JobOutcome(db, cfg, household, answer, existing, ids, Core(r, []));
    } else {
      var found, items := ScanAll(db, cfg, Key(household), ids, Some(answer), Some(dict), answer, existing);
      r := match found case Err(x) => Err(x) case Ok(f) => Ok((f, Judge(f)));
      assert JobOutcome(db, cfg, household, answer, existing, ids, Core(r, items));
    }
    if household != Some("") {
      FindsPerItem(db, cfg, household, ids, r);
    }
  }

  /** The same step with every helper running its own queries. */
  method DeduplicatePerItem(db: Db, cfg: Config, household: Option<Id>, ids: seq<Id>) returns (r: Result<(Found, Verdict), Error>)
    ensures Finds(db, cfg, household, PhashRows(db, Key(household)), IdentifierRows(db, Key(household)), ids, r)
  {
    hide PhashRows, IdentifierRows, DictFrom, IsItem, Raises, Fails, Flat, Judge;
    var key := Key(household);
    ghost var rows, idents := PhashRows(db, key), IdentifierRows(db, key);
    if exists e | e in ids :: e !in db.evidence || Some(db.evidence[e]) != household {
      r := Err(ForeignEvidence);
      assert JobOutcome(db, cfg, household, rows, idents, ids, Core(r, []));
    } else {
      var found, items := ScanAll(db, cfg, key, ids, None, None, rows, idents);
      r := match found case Err(x) => Err(x) case Ok(f) => Ok((f, Judge(f)));
      assert JobOutcome(db, cfg, household, rows, idents, ids, Core(r, items));
    }
  }

  /** What is found over any order of the fetched rows, per-item queries could find. */
  lemma FindsPerItem(db: Db, cfg: Config, household: Option<Id>, ids: seq<Id>, r: Result<(Found, Verdict), Error>)
    requires household != Some("")
    requires FindsInOrder(db, cfg, household, FetchedRows(db, household), FetchedIdentifiers(db, household), ids, r)
    ensures Finds(db, cfg, household, PhashRows(db, Key(household)), IdentifierRows(db, Key(household)), ids, r)
  {
    hide PhashRows, IdentifierRows, InRowOrder, Flat, Judge, Outcome, Foreign;
    var rows, idents := FetchedRows(db, household), FetchedIdentifiers(db, household);
    var answer, items :| && JobOutcome(db, cfg, household, answer, idents, ids, Core(r, items)) && multiset(answer) == multiset(rows)
                         && (r.Ok? ==> r.value == (Flat(items), Judge(Flat(items))));
    if !Foreign(db, household, ids) {
      OutcomeAnyOrder(db, cfg, Key(household), answer, rows, idents, ids, Core(r, items));
    }
    SameOutcomes(db, cfg, household, ids);
    assert JobOutcome(db, cfg, household, rows, idents, ids, Core(r, items));
  }

  lemma NoIdentifiers(cfg: Config)
    ensures DictFrom(cfg, [], map[])
  {
  }

  /** The order in which the join answers changes no outcome. */
  lemma OutcomeAnyOrder(
    db: Db, cfg: Config, household: Id, rows: seq<Row>, rows': seq<Row>, idents: seq<(Id, Json)>, ids: seq<Id>,
    r: Result<seq<Item>, Error>)
    requires multiset(rows) == multiset(rows') && Outcome(db, cfg, household, rows, idents, ids, r)
    ensures Outcome(db, cfg, household, rows', idents, ids, r)
  {
    hide IsItem, Raises;
    forall k | 0 <= k < |ids|
      ensures forall x :: Raises(db, cfg, household, rows, ids[k], x) <==> Raises(db, cfg, household, rows', ids[k], x)
      ensures forall item :: IsItem(db, cfg, household, rows, idents, ids[k], item)
                             <==> IsItem(db, cfg, household, rows', idents, ids[k], item)
    {
      ItemAnyOrder(db, cfg, household, rows, rows', idents, ids[k]);
    }
  }

  lemma ItemAnyOrder(db: Db, cfg: Config, household: Id, rows: seq<Row>, rows': seq<Row>, idents: seq<(Id, Json)>, e: Id)
    requires multiset(rows) == multiset(rows')
    ensures forall x :: Raises(db, cfg, household, rows, e, x) <==> Raises(db, cfg, household, rows', e, x)
    ensures forall item :: IsItem(db, cfg, household, rows, idents, e, item) <==> IsItem(db, cfg, household, rows', idents, e, item)
  {
    SameMembers(rows, rows');
    hide ExactAsset, Select, IsCollisions, RowRaises, NearHash;
    forall o ensures multiset(NearOwn(cfg, e, rows)(o)) == multiset(NearOwn(cfg, e, rows')(o)) {
      if HashOf(o).Some? { CollectAnyOrder(NearHash(cfg, e, HashOf(o).value), rows, rows'); }
    }
    CollectSame(NearOwn(cfg, e, rows), NearOwn(cfg, e, rows'), Hashes(db, e));
  }

  // ----- prefetching -----

  /** Without a household only an empty job passes the evidence check; with one the same rows are read. */
  lemma SameOutcomes(db: Db, cfg: Config, household: Option<Id>, ids: seq<Id>)
    requires household != Some("")
    ensures forall r ::
              JobOutcome(db, cfg, household, FetchedRows(db, household), FetchedIdentifiers(db, household), ids, r)
              <==> JobOutcome(db, cfg, household, PhashRows(db, Key(household)), IdentifierRows(db, Key(household)), ids, r)
  {
    hide PhashRows, IdentifierRows, IsItem, Raises, Fails;
    if household.None? && ids != [] {
      assert ids[0] in ids;
    }
  }

  /** Successful findings are the same whether rows are fetched once or queried per item. */
  ghost predicate SameSuccesses(db: Db, cfg: Config, household: Option<Id>, ids: seq<Id>) {
    forall items ::
      JobOutcome(db, cfg, household, FetchedRows(db, household), FetchedIdentifiers(db, household), ids, Ok(items))
      <==> JobOutcome(db, cfg, household, PhashRows(db, Key(household)), IdentifierRows(db, Key(household)), ids, Ok(items))
  }

  /** Some item without an exact asset has a hash or barcode that does not parse. */
  ghost predicate Broken(db: Db, household: Id, ids: seq<Id>) {
    exists e | e in ids :: ExactAsset(db, household, db.links, e).None? && Malformed(db, e)
  }

  ghost predicate Malformed(db: Db, e: Id) {
    (exists o | o in Hashes(db, e) :: o.value.None?) || (exists o | o in Barcodes(db, e) :: o.value.None?)
  }

  /** No item without an exact asset has a hash near, or not comparable with, a row, or a barcode already asserted. */
  ghost predicate Quiet(db: Db, cfg: Config, household: Id, ids: seq<Id>) {
    forall e | e in ids && ExactAsset(db, household, db.links, e).None? :: QuietItem(db, cfg, household, e)
  }

  ghost predicate QuietItem(db: Db, cfg: Config, household: Id, e: Id) {
    && (forall o, row | o in Hashes(db, e) && row in PhashRows(db, household) && HashOf(o).Some? ::
          RowRaises(cfg, e, HashOf(o).value, row).None? && NearRow(cfg, e, HashOf(o).value, row) == [])
    && (forall o, x | o in Barcodes(db, e) && x in IdentifierRows(db, household) :: IdentifierOf(cfg, o) != Some(cfg.text(x.1)))
  }

  lemma NoMatches(cfg: Config, e: Id, own: seq<Observation>, rows: seq<Row>)
    ensures MatchesOf(cfg, e, own, rows) == []
            <==> forall o, row | o in own && row in rows && HashOf(o).Some? :: NearRow(cfg, e, HashOf(o).value, row) == []
  {
    hide NearRow;
    CollectHead(NearOwn(cfg, e, rows), own);
    forall o | HashOf(o).Some? { CollectHead(NearHash(cfg, e, HashOf(o).value), rows); }
    if MatchesOf(cfg, e, own, rows) == [] {
      forall o, row | o in own && row in rows && HashOf(o).Some? ensures NearRow(cfg, e, HashOf(o).value, row) == [] {
        var i :| 0 <= i < |own| && own[i] == o;
        assert NearOwn(cfg, e, rows)(own[i]) == [];
        var j :| 0 <= j < |rows| && rows[j] == row;
        assert NearHash(cfg, e, HashOf(o).value)(rows[j]) == [];
      }
    } else {
      var i: nat :| HeadAt(NearOwn(cfg, e, rows), own, i, MatchesOf(cfg, e, own, rows)[0]);
      var h := HashOf(own[i]).value;
      var j: nat :| HeadAt(NearHash(cfg, e, h), rows, j, Collect(NearHash(cfg, e, h), rows)[0]);
      assert own[i] in own && rows[j] in rows && NearRow(cfg, e, h, rows[j]) != [];
    }
  }

  /** Some order of the rows builds this dictionary. */
  lemma {:induction false} DictExists(cfg: Config, idents: seq<(Id, Json)>)
    ensures exists dict :: DictFrom(cfg, idents, dict)
  {
    if idents == [] {
      assert DictFrom(cfg, idents, map[]);
    } else {
      var n := |idents| - 1;
      DictExists(cfg, idents[..n]);
      hide DictFrom;
      var dict :| DictFrom(cfg, idents[..n], dict);
      assert idents == idents[..n] + [idents[n]];
      OneMoreEntry(cfg, idents[..n], idents[n], dict);
      assert DictFrom(cfg, idents, dict[cfg.text(idents[n].1) := idents[n].0]);
    }
  }

  lemma OneMoreEntry(cfg: Config, idents: seq<(Id, Json)>, x: (Id, Json), dict: map<string, Id>)
    requires DictFrom(cfg, idents, dict)
    ensures DictFrom(cfg, idents + [x], dict[cfg.text(x.1) := x.0])
  {
    assert forall t, a | Asserts(cfg, idents, t, a) :: Asserts(cfg, idents + [x], t, a);
    assert Asserts(cfg, idents + [x], cfg.text(x.1), x.0);
  }

  /** No collisions are found exactly when no barcode's identifier is asserted. */
  lemma NoCollisions(cfg: Config, e: Id, barcodes: seq<Observation>, idents: seq<(Id, Json)>)
    ensures IsCollisions(cfg, e, barcodes, idents, [])
            <==> forall o, x | o in barcodes && x in idents :: IdentifierOf(cfg, o) != Some(cfg.text(x.1))
    ensures forall cs | IsCollisions(cfg, e, barcodes, idents, cs) :: cs == [] <==> IsCollisions(cfg, e, barcodes, idents, [])
  {
    hide IdentifierOf;
    DictExists(cfg, idents);
    forall dict | DictFrom(cfg, idents, dict)
      ensures Collect(Collide(cfg, e, dict), barcodes) == []
              <==> forall o, x | o in barcodes && x in idents :: IdentifierOf(cfg, o) != Some(cfg.text(x.1))
    {
      NoneCollide(cfg, e, barcodes, idents, dict);
    }
    forall cs | IsCollisions(cfg, e, barcodes, idents, cs) ensures cs == [] <==> IsCollisions(cfg, e, barcodes, idents, []) {
      CollisionsEmpty(cfg, e, barcodes, idents, cs);
    }
  }

  lemma EmptyOnly<T>(s: seq<T>)
    ensures multiset(s) == multiset{} <==> s == []
  {
    assert |multiset(s)| == |s|;
  }

  lemma CollisionsEmpty(cfg: Config, e: Id, barcodes: seq<Observation>, idents: seq<(Id, Json)>, cs: seq<Collision>)
    requires IsCollisions(cfg, e, barcodes, idents, cs)
    ensures cs == [] <==> IsCollisions(cfg, e, barcodes, idents, [])
  {
    var dict :| DictFrom(cfg, idents, dict) && multiset(cs) == multiset(Collect(Collide(cfg, e, dict), barcodes));
    NoneCollide(cfg, e, barcodes, idents, dict);
    EmptyOnly(cs);
    EmptyOnly(Collect(Collide(cfg, e, dict), barcodes));
    if IsCollisions(cfg, e, barcodes, idents, []) {
      var other :| DictFrom(cfg, idents, other)
                   && multiset([]) == multiset(Collect(Collide(cfg, e, other), barcodes));
      NoneCollide(cfg, e, barcodes, idents, other);
      EmptyOnly(Collect(Collide(cfg, e, other), barcodes));
    }
  }

  lemma NoneCollide(cfg: Config, e: Id, barcodes: seq<Observation>, idents: seq<(Id, Json)>, dict: map<string, Id>)
    requires DictFrom(cfg, idents, dict)
    ensures Collect(Collide(cfg, e, dict), barcodes) == []
            <==> forall o, x | o in barcodes && x in idents :: IdentifierOf(cfg, o) != Some(cfg.text(x.1))
  {
    hide IdentifierOf;
    var f := Collide(cfg, e, dict);
    CollectHead(f, barcodes);
    if Collect(f, barcodes) != [] {
      var i: nat :| HeadAt(f, barcodes, i, Collect(f, barcodes)[0]);
      var t := IdentifierOf(cfg, barcodes[i]).value;
      assert Asserts(cfg, idents, t, dict[t]);
      assert barcodes[i] in barcodes;
    } else {
      forall o, x | o in barcodes && x in idents ensures IdentifierOf(cfg, o) != Some(cfg.text(x.1)) {
        var i :| 0 <= i < |barcodes| && barcodes[i] == o;
        assert f(barcodes[i]) == [];
      }
    }
  }

  /** Reading no rows and no identifiers leaves an item what it is exactly when it is quiet. */
  lemma QuietExactly(db: Db, cfg: Config, household: Id, e: Id)
    requires ExactAsset(db, household, db.links, e).None?
    ensures Fails(db, cfg, household, [], e) <==> Malformed(db, e)
    ensures Malformed(db, e) ==> Fails(db, cfg, household, PhashRows(db, household), e)
    ensures !Malformed(db, e) ==>
              (QuietItem(db, cfg, household, e)
               <==> && !Fails(db, cfg, household, PhashRows(db, household), e)
                    && IsItem(db, cfg, household, PhashRows(db, household), IdentifierRows(db, household), e, Near([], [])))
    ensures forall item | IsItem(db, cfg, household, [], [], e, item) :: item == Near([], [])
    ensures IsItem(db, cfg, household, [], [], e, Near([], []))
    ensures !Malformed(db, e) && QuietItem(db, cfg, household, e) ==>
              forall item | IsItem(db, cfg, household, PhashRows(db, household), IdentifierRows(db, household), e, item) ::
                item == Near([], [])
  {
    var rows, idents := PhashRows(db, household), IdentifierRows(db, household);
    hide ExactAsset, Select, PhashRows, IdentifierRows, RowRaises, NearRow, IdentifierOf, MatchesOf, IsCollisions, Hashes, Barcodes;
    NoMatches(cfg, e, Hashes(db, e), rows);
    NoMatches(cfg, e, Hashes(db, e), []);
    NoCollisions(cfg, e, Barcodes(db, e), idents);
    NoCollisions(cfg, e, Barcodes(db, e), []);
    forall item: Item | item.Near? && multiset(item.matches) == multiset(MatchesOf(cfg, e, Hashes(db, e), []))
      ensures item.matches == []
    {
      EmptyOnly(item.matches);
    }
    forall item: Item | item.Near? && multiset(item.matches) == multiset(MatchesOf(cfg, e, Hashes(db, e), rows))
      ensures MatchesOf(cfg, e, Hashes(db, e), rows) == [] ==> item.matches == []
    {
      EmptyOnly(item.matches);
    }
    EmptyOnly(MatchesOf(cfg, e, Hashes(db, e), rows));
    FailsExactly(db, cfg, household, rows, e);
    FailsExactly(db, cfg, household, [], e);
  }

  lemma FailsExactly(db: Db, cfg: Config, household: Id, rows: seq<Row>, e: Id)
    requires ExactAsset(db, household, db.links, e).None?
    ensures Fails(db, cfg, household, rows, e)
            <==> Malformed(db, e)
                 || exists o, row | o in Hashes(db, e) && row in rows ::
                      HashOf(o).Some? && RowRaises(cfg, e, HashOf(o).value, row).Some?
  {
    hide ExactAsset, Select, RowRaises, HashIn;
    if Malformed(db, e) {
      assert Raises(db, cfg, household, rows, e, Unparseable);
    }
    if o, row :| o in Hashes(db, e) && row in rows && HashOf(o).Some? && RowRaises(cfg, e, HashOf(o).value, row).Some? {
      assert Raises(db, cfg, household, rows, e, RowRaises(cfg, e, HashOf(o).value, row).value);
    }
  }

  /** The findings when nothing at all is fetched. */
  function Bare(db: Db, household: Id, ids: seq<Id>): (items: seq<Item>)
    ensures |items| == |ids|
    ensures forall k | 0 <= k < |ids| :: items[k] == BareItem(db, household, ids[k])
  {
    seq(|ids|, k requires 0 <= k < |ids| => BareItem(db, household, ids[k]))
  }

  function BareItem(db: Db, household: Id, e: Id): Item {
    match ExactAsset(db, household, db.links, e)
    case Some(a) => Exact(a, e)
    case None => Near([], [])
  }

  /** One item, read with nothing and with the nameless household's rows. */
  lemma NamelessItem(db: Db, cfg: Config, e: Id)
    ensures var rows, idents, bare := PhashRows(db, ""), IdentifierRows(db, ""), BareItem(db, "", e);
            var malformed := ExactAsset(db, "", db.links, e).None? && Malformed(db, e);
            var quiet := ExactAsset(db, "", db.links, e).None? ==> QuietItem(db, cfg, "", e);
            && (Fails(db, cfg, "", [], e) <==> malformed) && (malformed ==> Fails(db, cfg, "", rows, e))
            && (forall item :: IsItem(db, cfg, "", [], [], e, item) <==> item == bare)
            && (!malformed && quiet ==>
                  !Fails(db, cfg, "", rows, e) && forall item :: IsItem(db, cfg, "", rows, idents, e, item) <==> item == bare)
            && (!malformed && !quiet ==> Fails(db, cfg, "", rows, e) || !IsItem(db, cfg, "", rows, idents, e, bare))
  {
    if ExactAsset(db, "", db.links, e).None? {
      QuietExactly(db, cfg, "", e);
      hide IsItem, Fails, Malformed, QuietItem, ExactAsset, PhashRows, IdentifierRows;
    } else {
      hide ExactAsset, PhashRows, IdentifierRows, Malformed, QuietItem, HashesRaise;
    }
  }

  lemma NamelessExactly(db: Db, cfg: Config, ids: seq<Id>)
    requires !Foreign(db, Some(""), ids)
    ensures SameSuccesses(db, cfg, Some(""), ids) <==> Broken(db, "", ids) || Quiet(db, cfg, "", ids)
  {
    hide IsItem, Fails, Malformed, QuietItem, ExactAsset, PhashRows, IdentifierRows, BareItem, Foreign;
    var rows, idents, bare := PhashRows(db, ""), IdentifierRows(db, ""), Bare(db, "", ids);
    forall k | 0 <= k < |ids| { NamelessItem(db, cfg, ids[k]); }
    if Broken(db, "", ids) {
      var e :| e in ids && ExactAsset(db, "", db.links, e).None? && Malformed(db, e);
      var k :| 0 <= k < |ids| && ids[k] == e;
      assert Fails(db, cfg, "", [], ids[k]) && Fails(db, cfg, "", rows, ids[k]);
    } else {
      assert forall k | 0 <= k < |ids| :: ids[k] in ids;
      assert JobOutcome(db, cfg, Some(""), [], [], ids, Ok(bare));
      if Quiet(db, cfg, "", ids) {
        forall items ensures JobOutcome(db, cfg, Some(""), rows, idents, ids, Ok(items)) <==> items == bare {
        }
      } else {
        var e :| e in ids && ExactAsset(db, "", db.links, e).None? && !QuietItem(db, cfg, "", e);
        var k :| 0 <= k < |ids| && ids[k] == e;
        assert Fails(db, cfg, "", rows, ids[k]) || !IsItem(db, cfg, "", rows, idents, ids[k], bare[k]);
        assert !JobOutcome(db, cfg, Some(""), rows, idents, ids, Ok(bare));
      }
    }
  }

  /**
   * Prefetching finds what per-item querying finds, for every job but one whose household is named "": there it
   * does exactly when the job fails its checks, or fails without any row, or the rows would add nothing.
   */
  lemma PrefetchExactly(db: Db, cfg: Config, household: Option<Id>, ids: seq<Id>)
    ensures SameSuccesses(db, cfg, household, ids)
            <==> household != Some("") || Foreign(db, household, ids) || Broken(db, "", ids) || Quiet(db, cfg, "", ids)
  {
    hide PhashRows, IdentifierRows, IsItem, Fails, Malformed, QuietItem, ExactAsset;
    if household != Some("") {
      SameOutcomes(db, cfg, household, ids);
    } else if !Foreign(db, household, ids) {
      NamelessExactly(db, cfg, ids);
    }
  }

  // ----- what an item finds -----

  lemma BeforeTotal(x: Id, y: Id)
    ensures Before(x, y) || Before(y, x)
    decreases |x|
  {
    if x != "" && y != "" && x[0] == y[0] {
      BeforeTotal(x[1..], y[1..]);
    }
  }

  lemma BeforeThen(x: Id, y: Id, z: Id)
    requires Before(x, y) && Before(y, z)
    ensures Before(x, z)
    decreases |x|
  {
    if x != "" && y != "" && z != "" && x[0] == y[0] == z[0] {
      BeforeThen(x[1..], y[1..], z[1..]);
    }
  }

  /** The exact match is the least of the household's assets that hold the evidence. */
  lemma {:induction false} ExactIsLeast(db: Db, household: Id, links: seq<(Id, Id)>, e: Id)
    ensures var r := ExactAsset(db, household, links, e);
            r.Some? ==> forall l | l in links && LinkedIn(db, household, l, e) :: Before(r.value, l.0)
  {
    if links != [] {
      var n := |links| - 1;
      var l, r, r0 := links[n], ExactAsset(db, household, links, e), ExactAsset(db, household, links[..n], e);
      ExactIsLeast(db, household, links[..n], e);
      if r.Some? {
        forall x | x in links && LinkedIn(db, household, x, e) ensures Before(r.value, x.0) {
          if x in links[..n] && r0.Some? {
            BeforeTotal(r0.value, l.0);
            if r != r0 { BeforeThen(l.0, r0.value, x.0); }
          } else {
            BeforeTotal(l.0, l.0);
          }
        }
      }
    }
  }

  /** The pair of a hash and a row makes this match. */
  predicate NearPair(cfg: Config, e: Id, o: Observation, row: Row, m: Match) {
    HashOf(o).Some? && m in NearRow(cfg, e, HashOf(o).value, row)
  }

  function RowPairs(cfg: Config, e: Id, i: nat, o: Observation, rows: seq<Row>, m: Match): set<(nat, nat)> {
    set j | 0 <= j < |rows| && NearPair(cfg, e, o, rows[j], m) :: (i, j)
  }

  /** Positions of a hash and a row that make this match. */
  function Pairs(cfg: Config, e: Id, own: seq<Observation>, rows: seq<Row>, m: Match): set<(nat, nat)> {
    set i, j | 0 <= i < |own| && 0 <= j < |rows| && NearPair(cfg, e, own[i], rows[j], m) :: (i, j)
  }

  lemma RowPairsThen(cfg: Config, e: Id, i: nat, o: Observation, rows: seq<Row>, m: Match)
    requires rows != []
    ensures var n := |rows| - 1;
            && RowPairs(cfg, e, i, o, rows, m)
               == RowPairs(cfg, e, i, o, rows[..n], m) + (if NearPair(cfg, e, o, rows[n], m) then {(i, n)} else {})
            && (i, n) !in RowPairs(cfg, e, i, o, rows[..n], m)
  {
    hide NearPair;
    var n := |rows| - 1;
    assert forall j | 0 <= j < n :: rows[..n][j] == rows[j];
  }

  lemma NearOnce(cfg: Config, e: Id, o: Observation, row: Row, m: Match)
    requires HashOf(o).Some?
    ensures multiset(NearRow(cfg, e, HashOf(o).value, row))[m] == if NearPair(cfg, e, o, row, m) then 1 else 0
  {
  }

  lemma {:induction false} RowCount(cfg: Config, e: Id, i: nat, o: Observation, rows: seq<Row>, m: Match)
    requires HashOf(o).Some?
    ensures multiset(Collect(NearHash(cfg, e, HashOf(o).value), rows))[m] == |RowPairs(cfg, e, i, o, rows, m)|
  {
    if rows != [] {
      var n := |rows| - 1;
      RowCount(cfg, e, i, o, rows[..n], m);
      RowPairsThen(cfg, e, i, o, rows, m);
      NearOnce(cfg, e, o, rows[n], m);
      assert NearHash(cfg, e, HashOf(o).value)(rows[n]) == NearRow(cfg, e, HashOf(o).value, rows[n]);
      hide NearRow, NearPair, RowPairs, HashOf, NearHash;
    }
  }

  lemma PairsThen(cfg: Config, e: Id, own: seq<Observation>, rows: seq<Row>, m: Match)
    requires own != []
    ensures var n := |own| - 1;
            && Pairs(cfg, e, own, rows, m) == Pairs(cfg, e, own[..n], rows, m) + RowPairs(cfg, e, n, own[n], rows, m)
            && Pairs(cfg, e, own[..n], rows, m) !! RowPairs(cfg, e, n, own[n], rows, m)
  {
    hide NearPair;
    var n := |own| - 1;
    assert forall i | 0 <= i < n :: own[..n][i] == own[i];
  }

  /** Each match is found once for each pair of a hash and a row that makes it. */
  lemma {:induction false} MatchCount(cfg: Config, e: Id, own: seq<Observation>, rows: seq<Row>, m: Match)
    ensures multiset(MatchesOf(cfg, e, own, rows))[m] == |Pairs(cfg, e, own, rows, m)|
  {
    if own != [] {
      var n := |own| - 1;
      MatchCount(cfg, e, own[..n], rows, m);
      PairsThen(cfg, e, own, rows, m);
      OwnCount(cfg, e, n, own[n], rows, m);
      hide NearRow, NearHash, Pairs, RowPairs, NearOwn, HashOf;
    }
  }

  lemma OwnCount(cfg: Config, e: Id, i: nat, o: Observation, rows: seq<Row>, m: Match)
    ensures multiset(NearOwn(cfg, e, rows)(o))[m] == |RowPairs(cfg, e, i, o, rows, m)|
  {
    hide NearRow, NearHash;
    if HashOf(o).Some? {
      RowCount(cfg, e, i, o, rows, m);
    } else {
      assert RowPairs(cfg, e, i, o, rows, m) == {};
    }
  }

  /** Some hash of `e` and some row make this match. */
  ghost predicate NearSome(cfg: Config, e: Id, own: seq<Observation>, rows: seq<Row>, m: Match) {
    exists o, row | o in own && row in rows :: NearPair(cfg, e, o, row, m)
  }

  lemma OwnExactly(cfg: Config, e: Id, o: Observation, rows: seq<Row>, m: Match)
    ensures m in NearOwn(cfg, e, rows)(o) <==> exists row | row in rows :: NearPair(cfg, e, o, row, m)
  {
    hide NearRow, Collect, HashIn;
    if HashOf(o).Some? {
      var f := NearHash(cfg, e, HashOf(o).value);
      CollectExactly(f, rows, m);
      forall row ensures m in f(row) <==> NearPair(cfg, e, o, row, m) {
      }
    }
  }

  lemma NearExactly(cfg: Config, e: Id, own: seq<Observation>, rows: seq<Row>, m: Match)
    ensures m in MatchesOf(cfg, e, own, rows) <==> NearSome(cfg, e, own, rows, m)
  {
    hide NearPair, NearOwn, Collect;
    var f := NearOwn(cfg, e, rows);
    CollectExactly(f, own, m);
    forall o | o in own ensures m in f(o) <==> exists row | row in rows :: NearPair(cfg, e, o, row, m) {
      OwnExactly(cfg, e, o, rows, m);
    }
  }

  /** The matches come in evidence order; each item has its exact asset alone, or each near pair's match once. */
  lemma MatchesExactly(
    db: Db, cfg: Config, household: Id, rows: seq<Row>, idents: seq<(Id, Json)>, ids: seq<Id>, items: seq<Item>, m: Match)
    requires Outcome(db, cfg, household, rows, idents, ids, Ok(items))
    ensures Flat(items).matches == Collect(ItemMatches, items) && |items| == |ids|
    ensures forall k | 0 <= k < |ids| ::
              match ExactAsset(db, household, db.links, ids[k])
              case Some(a) => ItemMatches(items[k]) == [Duplicate(a, ids[k])]
              case None => && multiset(ItemMatches(items[k]))[m] == |Pairs(cfg, ids[k], Hashes(db, ids[k]), rows, m)|
                           && (m in ItemMatches(items[k]) <==> NearSome(cfg, ids[k], Hashes(db, ids[k]), rows, m))
  {
    hide ExactAsset, Hashes, MatchesOf, Pairs, NearSome, IsCollisions, Fails, Collect;
    forall k | 0 <= k < |ids| && ExactAsset(db, household, db.links, ids[k]).None?
      ensures multiset(ItemMatches(items[k]))[m] == |Pairs(cfg, ids[k], Hashes(db, ids[k]), rows, m)|
      ensures m in ItemMatches(items[k]) <==> NearSome(cfg, ids[k], Hashes(db, ids[k]), rows, m)
    {
      MatchCount(cfg, ids[k], Hashes(db, ids[k]), rows, m);
      NearExactly(cfg, ids[k], Hashes(db, ids[k]), rows, m);
      SameMembers(items[k].matches, MatchesOf(cfg, ids[k], Hashes(db, ids[k]), rows));
    }
  }

  /** A collision is reported exactly for a validated barcode whose text an asset asserts, and names such an asset. */
  lemma CollisionsExactly(
    cfg: Config, e: Id, barcodes: seq<Observation>, idents: seq<(Id, Json)>, collisions: seq<Collision>, text: string)
    requires IsCollisions(cfg, e, barcodes, idents, collisions)
    ensures (exists c | c in collisions :: c.identifier == text)
            <==> (exists o | o in barcodes :: IdentifierOf(cfg, o) == Some(text)) && exists a :: Asserts(cfg, idents, text, a)
    ensures forall c | c in collisions :: c.evidence == e && Asserts(cfg, idents, c.identifier, c.asset)
  {
    var dict :| DictFrom(cfg, idents, dict) && multiset(collisions) == multiset(Collect(Collide(cfg, e, dict), barcodes));
    var all := Collect(Collide(cfg, e, dict), barcodes);
    SameMembers(collisions, all);
    forall c { CollectExactly(Collide(cfg, e, dict), barcodes, c); }
    hide Collect, IdentifierOf;
    forall c | c in collisions
      ensures c.evidence == e && Asserts(cfg, idents, c.identifier, c.asset)
              && exists o | o in barcodes :: IdentifierOf(cfg, o) == Some(c.identifier)
    {
      assert Gives(Collide(cfg, e, dict), barcodes, c);
    }
    if o, a :| o in barcodes && IdentifierOf(cfg, o) == Some(text) && Asserts(cfg, idents, text, a) {
      var c := Collision(text, dict[text], e);
      assert c in Collide(cfg, e, dict)(o);
      assert Gives(Collide(cfg, e, dict), barcodes, c) && c in collisions;
    }
  }

  lemma {:induction false} AssetsOfExactly(db: Db, household: Id, links: seq<(Id, Id)>, o: Observation)
    ensures forall row :: row in AssetsOf(db, household, links, o)
                          <==> row.0 == o && exists l | l in links :: LinkedIn(db, household, l, o.evidence) && l.0 == row.1
  {
    if links != [] {
      var n := |links| - 1;
      AssetsOfExactly(db, household, links[..n], o);
      assert forall l :: l in links <==> l in links[..n] || l == links[n];
    }
  }

  /** The prefetched rows pair household assets with hash observations of their evidence. */
  lemma {:induction false} JoinedRowsOwned(db: Db, household: Id, observations: seq<Observation>)
    ensures forall row | row in JoinedRows(db, household, observations) ::
              row.0 in observations && row.0.kind == PHash && Owned(db, household, row.1) && (row.1, row.0.evidence) in db.links
  {
    if observations != [] {
      var n := |observations| - 1;
      JoinedRowsOwned(db, household, observations[..n]);
      AssetsOfExactly(db, household, db.links, observations[n]);
    }
  }

  /** Every asset a match or a collision names belongs to the household. */
  lemma ItemNamesHousehold(db: Db, cfg: Config, household: Id, e: Id, item: Item)
    requires IsItem(db, cfg, household, PhashRows(db, household), IdentifierRows(db, household), e, item)
    ensures forall m | m in ItemMatches(item) :: Owned(db, household, m.asset)
    ensures forall c | c in ItemCollisions(item) :: Owned(db, household, c.asset)
  {
    var rows, idents := PhashRows(db, household), IdentifierRows(db, household);
    JoinedRowsOwned(db, household, db.observations);
    if item.Near? {
      hide ExactAsset, Hashes, Barcodes, MatchesOf, HashIn, Collect, JoinedRows;
      SameMembers(item.matches, MatchesOf(cfg, e, Hashes(db, e), rows));
      forall m | m in item.matches ensures Owned(db, household, m.asset) {
        NearExactly(cfg, e, Hashes(db, e), rows, m);
      }
      forall c | c in item.collisions ensures Owned(db, household, c.asset) {
        CollisionsExactly(cfg, e, Barcodes(db, e), idents, item.collisions, c.identifier);
      }
    }
  }

  function AssetIn(v: Verdict): Option<Id> { if v.NewAsset? then None else Some(v.asset) }

  /** Every asset the step names, in a match, a collision or its verdict, belongs to the job's household. */
  lemma NamesOnlyHousehold(db: Db, cfg: Config, household: Id, ids: seq<Id>, items: seq<Item>)
    requires Outcome(db, cfg, household, PhashRows(db, household), IdentifierRows(db, household), ids, Ok(items))
    ensures forall m | m in Flat(items).matches :: Owned(db, household, m.asset)
    ensures forall c | c in Flat(items).collisions :: Owned(db, household, c.asset)
    ensures AssetIn(Judge(Flat(items))).Some? ==> Owned(db, household, AssetIn(Judge(Flat(items))).value)
  {
    hide PhashRows, IdentifierRows, IsItem, Fails, Judge;
    forall k | 0 <= k < |ids| { ItemNamesHousehold(db, cfg, household, ids[k], items[k]); }
    assert forall item | item in items :: exists k :: 0 <= k < |ids| && items[k] == item;
    forall m | m in Flat(items).matches ensures Owned(db, household, m.asset) {
      CollectExactly(ItemMatches, items, m);
    }
    forall c | c in Flat(items).collisions ensures Owned(db, household, c.asset) {
      CollectExactly(ItemCollisions, items, c);
    }
    VerdictIsNamed(items);
  }

  /** The verdict's asset is one a match names. */
  lemma VerdictIsNamed(items: seq<Item>)
    ensures var v := AssetIn(Judge(Flat(items)));
            v.Some? ==> exists m | m in Flat(items).matches :: m.asset == v.value
  {
    var f := Flat(items);
    FirstSimilarIs(f.matches);
    if f.exact != [] {
      CollectExactly(ItemExact, items, f.exact[0]);
      var item :| item in items && f.exact[0] in ItemExact(item);
      var m := Duplicate(item.asset, item.evidence);
      CollectExactly(ItemMatches, items, m);
      assert m in ItemMatches(item);
    }
  }

  lemma {:induction false} FirstSimilarIs(matches: seq<Match>)
    ensures var r := FirstSimilar(matches);
            && (r.Some? ==> exists m | m in matches :: m.Similar? && m.asset == r.value)
            && (matches != [] && matches[0].Similar? ==> r == Some(matches[0].asset))
            && (matches == [] ==> r.None?)
  {
    if matches != [] && !matches[0].Similar? {
      FirstSimilarIs(matches[1..]);
      assert forall m | m in matches[1..] :: m in matches;
    }
  }

  // ----- the verdict -----

  /** `a` is the exact asset of the first evidence item that has one. */
  ghost predicate FirstExact(db: Db, household: Id, ids: seq<Id>, a: Id) {
    exists k :: 0 <= k < |ids| && ExactAsset(db, household, db.links, ids[k]) == Some(a)
                && forall j | 0 <= j < k :: ExactAsset(db, household, db.links, ids[j]).None?
  }

  ghost predicate NoExact(db: Db, household: Id, ids: seq<Id>) {
    forall j | 0 <= j < |ids| :: ExactAsset(db, household, db.links, ids[j]).None?
  }

  ghost predicate NothingNear(db: Db, cfg: Config, rows: seq<Row>, e: Id) {
    forall o, row | o in Hashes(db, e) && row in rows && HashOf(o).Some? :: NearRow(cfg, e, HashOf(o).value, row) == []
  }

  /** Item `k` is the first with a near row. */
  ghost predicate FirstNear(db: Db, cfg: Config, rows: seq<Row>, ids: seq<Id>, k: nat) {
    k < |ids| && !NothingNear(db, cfg, rows, ids[k]) && forall j | 0 <= j < k :: NothingNear(db, cfg, rows, ids[j])
  }

  /** `a` is the asset of a row near `e`. */
  ghost predicate NearAsset(db: Db, cfg: Config, rows: seq<Row>, e: Id, a: Id) {
    exists m | NearSome(cfg, e, Hashes(db, e), rows, m) :: m.asset == a
  }

  /** `a` is the asset of the first near row, in row order, of the first of the hashes that has one. */
  ghost predicate FirstNearRow(cfg: Config, e: Id, own: seq<Observation>, rows: seq<Row>, a: Id) {
    exists i: nat, j: nat :: HashAt(cfg, e, own, rows, i) && RowAt(cfg, e, HashOf(own[i]).value, rows, j) && rows[j].1 == a
  }

  ghost predicate HashAt(cfg: Config, e: Id, own: seq<Observation>, rows: seq<Row>, i: nat) {
    && i < |own| && HashOf(own[i]).Some?
    && forall i', row | 0 <= i' < i && row in rows && HashOf(own[i']).Some? :: NearRow(cfg, e, HashOf(own[i']).value, row) == []
  }

  ghost predicate RowAt(cfg: Config, e: Id, hash: string, rows: seq<Row>, j: nat) {
    j < |rows| && NearRow(cfg, e, hash, rows[j]) != [] && forall j' | 0 <= j' < j :: NearRow(cfg, e, hash, rows[j']) == []
  }

  lemma HeadIsFirstNear(cfg: Config, e: Id, own: seq<Observation>, rows: seq<Row>)
    requires MatchesOf(cfg, e, own, rows) != []
    ensures FirstNearRow(cfg, e, own, rows, MatchesOf(cfg, e, own, rows)[0].asset)
  {
    var f := NearOwn(cfg, e, rows);
    CollectHead(f, own);
    var i: nat :| HeadAt(f, own, i, MatchesOf(cfg, e, own, rows)[0]);
    var h := HashOf(own[i]).value;
    CollectHead(NearHash(cfg, e, h), rows);
    var j: nat :| HeadAt(NearHash(cfg, e, h), rows, j, Collect(NearHash(cfg, e, h), rows)[0]);
    assert RowAt(cfg, e, h, rows, j) by {
      forall j' | 0 <= j' < j ensures NearRow(cfg, e, h, rows[j']) == [] {
        assert NearHash(cfg, e, h)(rows[j']) == [];
      }
    }
    forall i', row | 0 <= i' < i && row in rows && HashOf(own[i']).Some?
      ensures NearRow(cfg, e, HashOf(own[i']).value, row) == []
    {
      assert f(own[i']) == [];
      CollectHead(NearHash(cfg, e, HashOf(own[i']).value), rows);
      var k :| 0 <= k < |rows| && rows[k] == row;
      assert NearHash(cfg, e, HashOf(own[i']).value)(rows[k]) == [];
    }
  }

  /** What the first match of an item says about it. */
  lemma HeadOfItem(db: Db, cfg: Config, household: Id, rows: seq<Row>, idents: seq<(Id, Json)>, e: Id, item: Item)
    requires IsItem(db, cfg, household, rows, idents, e, item) && item.Near?
    ensures item.matches == [] <==> NothingNear(db, cfg, rows, e)
    ensures item.matches != [] ==> item.matches[0].Similar? && NearAsset(db, cfg, rows, e, item.matches[0].asset)
    ensures item.matches != [] && InRowOrder(db, cfg, rows, e, item) ==>
              exists own | multiset(own) == multiset(Hashes(db, e)) :: FirstNearRow(cfg, e, own, rows, item.matches[0].asset)
  {
    var all := MatchesOf(cfg, e, Hashes(db, e), rows);
    NoMatches(cfg, e, Hashes(db, e), rows);
    hide ExactAsset, Hashes, Barcodes, HashIn, MatchesOf, IsCollisions, FirstNearRow;
    EmptyOnly(item.matches);
    EmptyOnly(all);
    SameMembers(item.matches, all);
    if item.matches != [] {
      var m := item.matches[0];
      assert m in item.matches;
      NearExactly(cfg, e, Hashes(db, e), rows, m);
      if InRowOrder(db, cfg, rows, e, item) {
        var own :| multiset(own) == multiset(Hashes(db, e)) && item.matches == MatchesOf(cfg, e, own, rows);
        HeadIsFirstNear(cfg, e, own, rows);
      }
    }
  }

  /** The first exact asset, or else an asset of the first item with a near row, or else a new asset. */
  lemma VerdictExactly(
    db: Db, cfg: Config, household: Id, rows: seq<Row>, idents: seq<(Id, Json)>, ids: seq<Id>, items: seq<Item>)
    requires Outcome(db, cfg, household, rows, idents, ids, Ok(items))
    ensures match Judge(Flat(items))
            case DuplicateOf(a) => FirstExact(db, household, ids, a)
            case SimilarTo(a) =>
              && NoExact(db, household, ids)
              && exists k: nat :: && FirstNear(db, cfg, rows, ids, k) && NearAsset(db, cfg, rows, ids[k], a)
                                  && (InRowOrder(db, cfg, rows, ids[k], items[k]) ==> exists own |
                                        multiset(own) == multiset(Hashes(db, ids[k])) :: FirstNearRow(cfg, ids[k], own, rows, a))
            case NewAsset => NoExact(db, household, ids) && forall k | 0 <= k < |ids| :: NothingNear(db, cfg, rows, ids[k])
  {
    hide ExactAsset, Hashes, Barcodes, MatchesOf, NothingNear, NearAsset, FirstNearRow, InRowOrder, Fails, Collect;
    CollectHead(ItemExact, items);
    var f := Flat(items);
    if f.exact != [] {
      var i: nat :| HeadAt(ItemExact, items, i, f.exact[0]);
      assert forall j | 0 <= j < i :: ItemExact(items[j]) == [];
    } else {
      assert forall j | 0 <= j < |items| :: ItemExact(items[j]) == [];
      CollectHead(ItemMatches, items);
      FirstSimilarIs(f.matches);
      forall k | 0 <= k < |ids| ensures items[k].Near? && (items[k].matches == [] <==> NothingNear(db, cfg, rows, ids[k])) {
        HeadOfItem(db, cfg, household, rows, idents, ids[k], items[k]);
      }
      if f.matches != [] {
        var k: nat :| HeadAt(ItemMatches, items, k, f.matches[0]);
        HeadOfItem(db, cfg, household, rows, idents, ids[k], items[k]);
        assert forall j | 0 <= j < k :: ItemMatches(items[j]) == [];
        assert FirstNear(db, cfg, rows, ids, k);
      } else {
        assert forall k | 0 <= k < |items| :: ItemMatches(items[k]) == [];
      }
    }
  }

  // ----- what the order of unordered answers can change -----

  function TextOf(c: Collision): seq<string> { [c.identifier] }

  ghost predicate SameItem(i: Item, j: Item) {
    if i.Exact? || j.Exact? then i == j
    else multiset(i.matches) == multiset(j.matches)
         && multiset(Collect(TextOf, i.collisions)) == multiset(Collect(TextOf, j.collisions))
  }

  /** No identifier text is asserted by two assets. */
  ghost predicate Unambiguous(cfg: Config, idents: seq<(Id, Json)>) {
    forall x, y | x in idents && y in idents && cfg.text(x.1) == cfg.text(y.1) :: x.0 == y.0
  }

  lemma {:induction false} SameTexts(cfg: Config, e: Id, barcodes: seq<Observation>, d: map<string, Id>, d': map<string, Id>)
    requires d.Keys == d'.Keys
    ensures Collect(TextOf, Collect(Collide(cfg, e, d), barcodes)) == Collect(TextOf, Collect(Collide(cfg, e, d'), barcodes))
  {
    if barcodes != [] {
      var n := |barcodes| - 1;
      SameTexts(cfg, e, barcodes[..n], d, d');
      hide IdentifierOf;
      var c, c' := Collide(cfg, e, d)(barcodes[n]), Collide(cfg, e, d')(barcodes[n]);
      CollectJoin(TextOf, Collect(Collide(cfg, e, d), barcodes[..n]), c);
      CollectJoin(TextOf, Collect(Collide(cfg, e, d'), barcodes[..n]), c');
      assert Collect(TextOf, c) == Collect(TextOf, c') by {
        if c != [] {
          CollectOne(TextOf, c[0]);
          CollectOne(TextOf, c'[0]);
        }
      }
    }
  }

  lemma SameKeys(cfg: Config, idents: seq<(Id, Json)>, d: map<string, Id>, d': map<string, Id>)
    requires DictFrom(cfg, idents, d) && DictFrom(cfg, idents, d')
    ensures d.Keys == d'.Keys
    ensures Unambiguous(cfg, idents) ==> d == d'
  {
    assert forall t | t in d :: Asserts(cfg, idents, t, d[t]);
    assert forall t | t in d' :: Asserts(cfg, idents, t, d'[t]);
  }

  lemma CollisionsAgree(
    cfg: Config, e: Id, barcodes: seq<Observation>, idents: seq<(Id, Json)>, cs: seq<Collision>, cs': seq<Collision>)
    requires IsCollisions(cfg, e, barcodes, idents, cs) && IsCollisions(cfg, e, barcodes, idents, cs')
    ensures multiset(Collect(TextOf, cs)) == multiset(Collect(TextOf, cs'))
    ensures Unambiguous(cfg, idents) ==> multiset(cs) == multiset(cs')
  {
    hide Collect, Collide;
    var d :| DictFrom(cfg, idents, d) && multiset(cs) == multiset(Collect(Collide(cfg, e, d), barcodes));
    var d' :| DictFrom(cfg, idents, d') && multiset(cs') == multiset(Collect(Collide(cfg, e, d'), barcodes));
    SameKeys(cfg, idents, d, d');
    hide DictFrom, Unambiguous;
    SameTexts(cfg, e, barcodes, d, d');
    CollectAnyOrder(TextOf, cs, Collect(Collide(cfg, e, d), barcodes));
    CollectAnyOrder(TextOf, cs', Collect(Collide(cfg, e, d'), barcodes));
  }

  /**
   * Any two successful executions, prefetched or not and whatever the order of each answer, agree item by item on
   * the exact asset, the matches and the colliding identifiers, and on the kind of verdict; and when one succeeds
   * none fails. A collision's asset agrees when no identifier is asserted twice.
   */
  lemma ExecutionsAgree(
    db: Db, cfg: Config, household: Id, rows: seq<Row>, idents: seq<(Id, Json)>, ids: seq<Id>, items: seq<Item>,
    items': seq<Item>)
    requires Outcome(db, cfg, household, rows, idents, ids, Ok(items))
    requires Outcome(db, cfg, household, rows, idents, ids, Ok(items'))
    ensures forall k | 0 <= k < |ids| :: SameItem(items[k], items'[k])
    ensures Unambiguous(cfg, idents) ==> forall k | 0 <= k < |ids| ::
              multiset(ItemCollisions(items[k])) == multiset(ItemCollisions(items'[k]))
    ensures forall x :: !Outcome(db, cfg, household, rows, idents, ids, Err(x))
    ensures var v, v' := Judge(Flat(items)), Judge(Flat(items'));
            (v.DuplicateOf? || v'.DuplicateOf? ==> v == v') && (v.SimilarTo? <==> v'.SimilarTo?)
  {
    forall k | 0 <= k < |ids|
      ensures SameItem(items[k], items'[k])
      ensures Unambiguous(cfg, idents) ==> multiset(ItemCollisions(items[k])) == multiset(ItemCollisions(items'[k]))
    {
      hide ExactAsset, Hashes, Barcodes, MatchesOf, IsCollisions, Fails, Unambiguous, Collect;
      if items[k].Near? {
        CollisionsAgree(cfg, ids[k], Barcodes(db, ids[k]), idents, items[k].collisions, items'[k].collisions);
      }
    }
    SameVerdicts(db, cfg, household, rows, idents, ids, items, items');
  }

  lemma SameVerdicts(
    db: Db, cfg: Config, household: Id, rows: seq<Row>, idents: seq<(Id, Json)>, ids: seq<Id>, items: seq<Item>,
    items': seq<Item>)
    requires Outcome(db, cfg, household, rows, idents, ids, Ok(items))
    requires Outcome(db, cfg, household, rows, idents, ids, Ok(items'))
    ensures var v, v' := Judge(Flat(items)), Judge(Flat(items'));
            (v.DuplicateOf? || v'.DuplicateOf? ==> v == v') && (v.SimilarTo? <==> v'.SimilarTo?)
  {
    VerdictExactly(db, cfg, household, rows, idents, ids, items);
    VerdictExactly(db, cfg, household, rows, idents, ids, items');
    hide Outcome, Judge, Flat, ExactAsset, NothingNear, NearAsset, InRowOrder, FirstNearRow, Hashes;
  }

  /** With two near rows the asset a hash is similar to is whichever row the join answers first. */
  lemma OrderDecides(cfg: Config, e: Id, o: Observation, r1: Row, r2: Row)
    requires HashOf(o).Some? && NearRow(cfg, e, HashOf(o).value, r1) != [] && NearRow(cfg, e, HashOf(o).value, r2) != []
    ensures multiset([r1, r2]) == multiset([r2, r1])
    ensures MatchesOf(cfg, e, [o], [r1, r2])[0..1] == NearRow(cfg, e, HashOf(o).value, r1)
    ensures MatchesOf(cfg, e, [o], [r2, r1])[0..1] == NearRow(cfg, e, HashOf(o).value, r2)
    ensures NearRow(cfg, e, HashOf(o).value, r1)[0].asset == r1.1 && NearRow(cfg, e, HashOf(o).value, r2)[0].asset == r2.1
  {
    var f := NearHash(cfg, e, HashOf(o).value);
    CollectOne(NearOwn(cfg, e, [r1, r2]), o);
    CollectOne(NearOwn(cfg, e, [r2, r1]), o);
    CollectJoin(f, [r1], [r2]);
    CollectJoin(f, [r2], [r1]);
    CollectOne(f, r1);
    CollectOne(f, r2);
    assert [r1] + [r2] == [r1, r2] && [r2] + [r1] == [r2, r1];
  }
}
