/**
 The filter compiler of the report list: a filter becomes SQL conditions over positional placeholders.
 Conditions are a small expression language with an evaluator in three-valued logic.
 */
module Filters {
  import opened Basics
  import opened Tables

  datatype Box = Box(minLng: real, minLat: real, maxLng: real, maxLat: real)

  datatype Filter = Filter(
    crisis: string, crises: seq<string>, damage: seq<string>, verification: seq<string>, q: string,
    mine: bool, submitter: Option<string>, building: Option<string>,
    adm1: Option<string>, adm2: Option<string>, adm3: Option<string>, cluster: Option<string>, bbox: Option<Box>)

  datatype Value = Null | Text(s: string) | Texts(list: seq<string>) | Number(x: real) | Stamp(at: Time)

  datatype Truth = Yes | No | Unknown

  datatype Column =
    | CrisisId | DamageTier | VerificationState | Place | Id | SubmitterId | BuildingId | Adm1 | Adm2 | Adm3
    | InfraTypes | Clusters | CapturedAt

  datatype Term = Col(c: Column) | Arg(n: nat) | Literal(s: string) | Joined(left: Term, right: Term)

  /** The WHERE conditions of the list query. */
  datatype Cond =
    | Equal(a: Term, b: Term)           // a = b
    | AnyOf(a: Term, b: Term)           // a = ANY(b)
    | ILike(a: Term, b: Term)           // a ILIKE b
    | Or(left: Cond, right: Cond)
    | Overlaps(x1: Term, y1: Term, x2: Term, y2: Term)      // geom && ST_MakeEnvelope(...)
    | RowBelow(a: Term, b: Term, c: Term, d: Term)  // (a, b) < (c, d)

  /** Pattern matching is the database's; only its truth value matters here. */
  datatype Env = Env(ilike: (string, string) -> bool)

  function Verdict(v: Verification): string {
    match v case Pending => "pending" case Verified => "verified" case Flagged => "flagged"
  }

  function Optional(s: Option<string>): Value {
    if s == None then Null else Text(s.value)
  }

  function ColumnOf(r: Report, c: Column): Value {
    match c
    case CrisisId => Optional(r.crisis)
    case DamageTier => Text(r.damage)
    case VerificationState => Text(Verdict(r.verification))
    case Place => Text(r.place)
    case Id => Text(r.id)
    case SubmitterId => Optional(r.submitter)
    case BuildingId => Optional(r.building)
    case Adm1 => Optional(Pcode(r.admin, 1))
    case Adm2 => Optional(Pcode(r.admin, 2))
    case Adm3 => Optional(Pcode(r.admin, 3))
    case InfraTypes => Texts(r.infraTypes)
    case Clusters => Texts(r.clusters)
    case CapturedAt => Stamp(r.captured)
  }

  /** $1 is the first argument; an argument that was not passed is no value. */
  function Eval(r: Report, args: seq<Value>, t: Term): Value {
    match t
    case Col(c) => ColumnOf(r, c)
    case Arg(n) => if 1 <= n <= |args| then args[n - 1] else Null
    case Literal(s) => Text(s)
    case Joined(left, right) =>
      var x, y := Eval(r, args, left), Eval(r, args, right);
      if x.Text? && y.Text? then Text(x.s + y.s) else Null
  }

  function Known(b: bool): Truth {
    if b then Yes else No
  }

  predicate InBox(p: Point, x1: real, y1: real, x2: real, y2: real) {
    x1 <= p.lng <= x2 && y1 <= p.lat <= y2
  }

  predicate Inside(p: Point, b: Box) {
    InBox(p, b.minLng, b.minLat, b.maxLng, b.maxLat)
  }

  function Test(env: Env, r: Report, args: seq<Value>, c: Cond): Truth {
    match c
    case Equal(a, b) =>
      var x, y := Eval(r, args, a), Eval(r, args, b);
      if x.Null? || y.Null? then Unknown else Known(x == y)
    case AnyOf(a, b) =>
      var x, y := Eval(r, args, a), Eval(r, args, b);
      if x.Text? && y.Texts? then Known(x.s in y.list) else Unknown
    case ILike(a, b) =>
      var x, y := Eval(r, args, a), Eval(r, args, b);
      if x.Text? && y.Text? then Known(env.ilike(x.s, y.s)) else Unknown
    case Or(left, right) =>
      var x, y := Test(env, r, args, left), Test(env, r, args, right);
      if x == Yes || y == Yes then Yes else if x == No && y == No then No else Unknown
    case Overlaps(x1, y1, x2, y2) =>
      var a, b, c, d := Eval(r, args, x1), Eval(r, args, y1), Eval(r, args, x2), Eval(r, args, y2);
      if r.point.Some? && a.Number? && b.Number? && c.Number? && d.Number?
      then Known(InBox(r.point.value, a.x, b.x, c.x, d.x)) else Unknown
    case RowBelow(a, b, c, d) =>
      var x, y, u, v := Eval(r, args, a), Eval(r, args, b), Eval(r, args, c), Eval(r, args, d);
      if x.Stamp? && y.Text? && u.Stamp? && v.Text?
      then Known(x.at < u.at || (x.at == u.at && Below(y.s, v.s))) else Unknown
  }

  /** WHERE keeps a row when every condition is true; unknown is not true. */
  predicate Selected(env: Env, r: Report, args: seq<Value>, conds: seq<Cond>) {
    forall i :: 0 <= i < |conds| ==> Test(env, r, args, conds[i]) == Yes
  }

  // ---- what a filter asks for, directly ---------------------------------------------

  predicate Sought(env: Env, q: string, r: Report) {
    env.ilike(r.place, "%" + q + "%") || env.ilike(r.id, q + "%") || q in r.infraTypes
  }

  predicate Matches(env: Env, f: Filter, r: Report) {
    && (f.crisis != "" ==> r.crisis == Some(f.crisis))
    && (f.crisis == "" && f.crises != [] ==> r.crisis.Some? && r.crisis.value in f.crises)
    && (f.damage != [] ==> r.damage in f.damage)
    && (f.verification != [] ==> Verdict(r.verification) in f.verification)
    && (f.q != "" ==> Sought(env, f.q, r))
    && (f.mine && f.submitter.Some? ==> r.submitter == f.submitter)
    && (f.building.Some? ==> r.building == f.building)
    && (f.adm1.Some? ==> Pcode(r.admin, 1) == f.adm1)
    && (f.adm2.Some? ==> Pcode(r.admin, 2) == f.adm2)
    && (f.adm3.Some? ==> Pcode(r.admin, 3) == f.adm3)
    && (f.cluster.Some? ==> f.cluster.value in r.clusters)
    && (f.bbox.Some? ==> r.point.Some? && Inside(r.point.value, f.bbox.value))
  }

  // ---- placeholders -----------------------------------------------------------------

  /** Every placeholder of the term lies between `lo` and `hi`. */
  predicate TermWithin(t: Term, lo: int, hi: int) {
    match t
    case Col(_) => true
    case Arg(n) => lo <= n < hi
    case Literal(_) => true
    case Joined(left, right) => TermWithin(left, lo, hi) && TermWithin(right, lo, hi)
  }

  predicate WithinArgs(c: Cond, lo: int, hi: int) {
    match c
    case Equal(a, b) => TermWithin(a, lo, hi) && TermWithin(b, lo, hi)
    case AnyOf(a, b) => TermWithin(a, lo, hi) && TermWithin(b, lo, hi)
    case ILike(a, b) => TermWithin(a, lo, hi) && TermWithin(b, lo, hi)
    case Or(left, right) => WithinArgs(left, lo, hi) && WithinArgs(right, lo, hi)
    case Overlaps(x1, y1, x2, y2) =>
      TermWithin(x1, lo, hi) && TermWithin(y1, lo, hi) && TermWithin(x2, lo, hi) && TermWithin(y2, lo, hi)
    case RowBelow(a, b, x, d) => TermWithin(a, lo, hi) && TermWithin(b, lo, hi) && TermWithin(x, lo, hi) && TermWithin(d, lo, hi)
  }

  /** Two argument lists that agree on a range of positions. */
  predicate Agree(args: seq<Value>, args': seq<Value>, lo: int, hi: int) {
    forall k :: 0 <= k && lo - 1 <= k < hi - 1 ==> k < |args| && k < |args'| && args[k] == args'[k]
  }

  lemma {:induction false} TermAgrees(r: Report, args: seq<Value>, args': seq<Value>, t: Term, lo: int, hi: int)
    requires TermWithin(t, lo, hi) && Agree(args, args', lo, hi) && 1 <= lo
    ensures Eval(r, args, t) == Eval(r, args', t)
  {
    match t
    case Joined(left, right) =>
      TermAgrees(r, args, args', left, lo, hi);
      TermAgrees(r, args, args', right, lo, hi);
    case _ =>
  }

  /** A condition only looks at the arguments its placeholders name. */
  lemma {:induction false} TestAgrees(env: Env, r: Report, args: seq<Value>, args': seq<Value>, c: Cond, lo: int, hi: int)
    requires WithinArgs(c, lo, hi) && Agree(args, args', lo, hi) && 1 <= lo
    ensures Test(env, r, args, c) == Test(env, r, args', c)
  {
    forall t | TermWithin(t, lo, hi) ensures Eval(r, args, t) == Eval(r, args', t) {
      TermAgrees(r, args, args', t, lo, hi);
    }
    match c
    case Or(left, right) =>
      TestAgrees(env, r, args, args', left, lo, hi);
      TestAgrees(env, r, args, args', right, lo, hi);
    case _ =>
  }

  // ---- the compiler -----------------------------------------------------------------

  /** The filter's clauses one by one, in the order they are compiled. */
  predicate Clause(env: Env, f: Filter, r: Report, k: int) {
    match k
    case 0 => if f.crisis != "" then r.crisis == Some(f.crisis) else f.crises != [] ==> r.crisis.Some? && r.crisis.value in f.crises
    case 1 => f.damage != [] ==> r.damage in f.damage
    case 2 => f.verification != [] ==> Verdict(r.verification) in f.verification
    case 3 => f.q != "" ==> Sought(env, f.q, r)
    case 4 => f.mine && f.submitter.Some? ==> r.submitter == f.submitter
    case 5 => f.building.Some? ==> r.building == f.building
    case 6 => f.adm1.Some? ==> Pcode(r.admin, 1) == f.adm1
    case 7 => f.adm2.Some? ==> Pcode(r.admin, 2) == f.adm2
    case 8 => f.adm3.Some? ==> Pcode(r.admin, 3) == f.adm3
    case 9 => f.cluster.Some? ==> f.cluster.value in r.clusters
    case 10 => f.bbox.Some? ==> r.point.Some? && Inside(r.point.value, f.bbox.value)
    case _ => true
  }

  predicate MatchesTo(env: Env, f: Filter, r: Report, k: int) {
    forall j :: 0 <= j < k ==> Clause(env, f, r, j)
  }

  lemma ClausesAreMatches(env: Env, f: Filter, r: Report)
    ensures MatchesTo(env, f, r, 11) <==> Matches(env, f, r)
  {
    if MatchesTo(env, f, r, 11) {
      assert Clause(env, f, r, 0) && Clause(env, f, r, 1) && Clause(env, f, r, 2) && Clause(env, f, r, 3);
      assert Clause(env, f, r, 4) && Clause(env, f, r, 5) && Clause(env, f, r, 6) && Clause(env, f, r, 7);
      assert Clause(env, f, r, 8) && Clause(env, f, r, 9) && Clause(env, f, r, 10);
    }
  }

  /** Every placeholder of every condition names one of the arguments passed with them. */
  predicate InRange(start: nat, conds: seq<Cond>, args: seq<Value>) {
    forall i :: 0 <= i < |conds| ==> WithinArgs(conds[i], start, start + |args|)
  }

  /** Under any arguments that carry `args` at position `start`, the conditions select what the first `k` clauses ask for. */
  ghost predicate Selects(f: Filter, start: nat, k: int, conds: seq<Cond>, args: seq<Value>) {
    forall env, r, all :: Carries(all, start, args) ==> (Selected(env, r, all, conds) <==> MatchesTo(env, f, r, k))
  }

  predicate Carries(all: seq<Value>, start: nat, args: seq<Value>) {
    1 <= start && start - 1 + |args| <= |all| && all[start - 1..start - 1 + |args|] == args
  }

  ghost predicate Compiled(f: Filter, start: nat, k: int, conds: seq<Cond>, args: seq<Value>) {
    InRange(start, conds, args) && Selects(f, start, k, conds, args)
  }

  /** One more condition with arguments of its own says what clause `k` asks for. */
  ghost predicate Says(f: Filter, k: int, c: Cond, n: nat, values: seq<Value>) {
    && WithinArgs(c, n, n + |values|)
    && forall env, r, all :: Carries(all, n, values) ==> (Test(env, r, all, c) == Yes <==> Clause(env, f, r, k))
  }

  lemma Added(f: Filter, start: nat, k: nat, conds: seq<Cond>, args: seq<Value>, c: Cond, values: seq<Value>)
    requires start >= 1 && Compiled(f, start, k, conds, args) && Says(f, k, c, start + |args|, values)
    ensures Compiled(f, start, k + 1, conds + [c], args + values)
  {
    forall i | 0 <= i < |conds + [c]|
      ensures WithinArgs((conds + [c])[i], start, start + |args + values|)
    {
      Wider((conds + [c])[i], if i < |conds| then start else start + |args|,
            if i < |conds| then start + |args| else start + |args + values|, start, start + |args + values|);
    }
    forall env, r, all | Carries(all, start, args + values)
      ensures Selected(env, r, all, conds + [c]) <==> MatchesTo(env, f, r, k + 1)
    {
      var a := start - 1;
      assert all[a..a + |args|] == (args + values)[..|args|] == args;
      assert all[a + |args|..a + |args| + |values|] == (args + values)[|args|..] == values;
      assert Carries(all, start, args) && Carries(all, start + |args|, values);
      assert Selected(env, r, all, conds + [c]) <==> Selected(env, r, all, conds) && Test(env, r, all, c) == Yes by {
        assert (conds + [c])[|conds|] == c;
        assert forall i :: 0 <= i < |conds| ==> (conds + [c])[i] == conds[i];
      }
      assert MatchesTo(env, f, r, k + 1) <==> MatchesTo(env, f, r, k) && Clause(env, f, r, k);
    }
  }

  lemma Skipped(f: Filter, start: nat, k: nat, conds: seq<Cond>, args: seq<Value>)
    requires Compiled(f, start, k, conds, args) && forall env, r :: Clause(env, f, r, k)
    ensures Compiled(f, start, k + 1, conds, args)
  {
    forall env, r
      ensures MatchesTo(env, f, r, k + 1) <==> MatchesTo(env, f, r, k)
    {
      assert MatchesTo(env, f, r, k + 1) <==> MatchesTo(env, f, r, k) && Clause(env, f, r, k);
    }
  }

  lemma {:induction false} WiderTerm(t: Term, lo: int, hi: int, lo': int, hi': int)
    requires TermWithin(t, lo, hi) && lo' <= lo && hi <= hi'
    ensures TermWithin(t, lo', hi')
  {
    match t
    case Joined(left, right) =>
      WiderTerm(left, lo, hi, lo', hi');
      WiderTerm(right, lo, hi, lo', hi');
    case _ =>
  }

  lemma {:induction false} Wider(c: Cond, lo: int, hi: int, lo': int, hi': int)
    requires WithinArgs(c, lo, hi) && lo' <= lo && hi <= hi'
    ensures WithinArgs(c, lo', hi')
  {
    forall t | TermWithin(t, lo, hi) ensures TermWithin(t, lo', hi') {
      WiderTerm(t, lo, hi, lo', hi');
    }
    match c
    case Or(left, right) =>
      Wider(left, lo, hi, lo', hi');
      Wider(right, lo, hi, lo', hi');
    case _ =>
  }

  lemma EqualSays(f: Filter, k: int, column: Column, n: nat, v: string)
    requires n >= 1 && forall env, r :: Clause(env, f, r, k) <==> ColumnOf(r, column) == Text(v)
    ensures Says(f, k, Equal(Col(column), Arg(n)), n, [Text(v)])
  {
    forall env, r, all | Carries(all, n, [Text(v)])
      ensures Test(env, r, all, Equal(Col(column), Arg(n))) == Yes <==> Clause(env, f, r, k)
    {
      assert all[n - 1] == all[n - 1..n][0] == Text(v);
    }
  }

  lemma AnySays(f: Filter, k: int, column: Column, n: nat, list: seq<string>)
    requires n >= 1
    requires forall env, r :: Clause(env, f, r, k) <==> ColumnOf(r, column).Text? && ColumnOf(r, column).s in list
    ensures Says(f, k, AnyOf(Col(column), Arg(n)), n, [Texts(list)])
  {
    forall env, r, all | Carries(all, n, [Texts(list)])
      ensures Test(env, r, all, AnyOf(Col(column), Arg(n))) == Yes <==> Clause(env, f, r, k)
    {
      assert all[n - 1] == all[n - 1..n][0] == Texts(list);
    }
  }

  function Search(n: nat): Cond {
    Or(Or(ILike(Col(Place), Joined(Joined(Literal("%"), Arg(n)), Literal("%"))), ILike(Col(Id), Joined(Arg(n), Literal("%")))),
       AnyOf(Arg(n), Col(InfraTypes)))
  }

  lemma SearchSays(f: Filter, n: nat)
    requires n >= 1 && f.q != ""
    ensures Says(f, 3, Search(n), n, [Text(f.q)])
  {
    assert TermWithin(Arg(n), n, n + 1) && TermWithin(Literal("%"), n, n + 1);
    assert TermWithin(Joined(Literal("%"), Arg(n)), n, n + 1);
    assert TermWithin(Joined(Joined(Literal("%"), Arg(n)), Literal("%")), n, n + 1);
    assert TermWithin(Joined(Arg(n), Literal("%")), n, n + 1);
    assert WithinArgs(ILike(Col(Place), Joined(Joined(Literal("%"), Arg(n)), Literal("%"))), n, n + 1);
    assert WithinArgs(ILike(Col(Id), Joined(Arg(n), Literal("%"))), n, n + 1);
    assert WithinArgs(AnyOf(Arg(n), Col(InfraTypes)), n, n + 1);
    forall env, r, all | Carries(all, n, [Text(f.q)])
      ensures Test(env, r, all, Search(n)) == Yes <==> Clause(env, f, r, 3)
    {
      assert all[n - 1] == all[n - 1..n][0] == Text(f.q);
      SearchMeans(env, f, r, all, n);
    }
  }

  lemma SearchMeans(env: Env, f: Filter, r: Report, all: seq<Value>, n: nat)
    requires 1 <= n <= |all| && all[n - 1] == Text(f.q)
    ensures Test(env, r, all, Search(n)) == Yes <==> Sought(env, f.q, r)
  {
    var place := ILike(Col(Place), Joined(Joined(Literal("%"), Arg(n)), Literal("%")));
    var id := ILike(Col(Id), Joined(Arg(n), Literal("%")));
    var infra := AnyOf(Arg(n), Col(InfraTypes));
    assert Eval(r, all, Joined(Literal("%"), Arg(n))) == Text("%" + f.q);
    assert Eval(r, all, Joined(Joined(Literal("%"), Arg(n)), Literal("%"))) == Text("%" + f.q + "%");
    assert Eval(r, all, Joined(Arg(n), Literal("%"))) == Text(f.q + "%");
    assert Test(env, r, all, place) == Known(env.ilike(r.place, "%" + f.q + "%"));
    assert Test(env, r, all, id) == Known(env.ilike(r.id, f.q + "%"));
    assert Test(env, r, all, infra) == Known(f.q in r.infraTypes);
  }

  lemma TaggedSays(f: Filter, n: nat)
    requires n >= 1 && f.cluster.Some?
    ensures Says(f, 9, AnyOf(Arg(n), Col(Clusters)), n, [Text(f.cluster.value)])
  {
    forall env, r, all | Carries(all, n, [Text(f.cluster.value)])
      ensures Test(env, r, all, AnyOf(Arg(n), Col(Clusters))) == Yes <==> Clause(env, f, r, 9)
    {
      assert all[n - 1] == all[n - 1..n][0] == Text(f.cluster.value);
    }
  }

  lemma BoxSays(f: Filter, n: nat)
    requires n >= 1 && f.bbox.Some?
    ensures var b := f.bbox.value;
      Says(f, 10, Overlaps(Arg(n), Arg(n + 1), Arg(n + 2), Arg(n + 3)), n,
           [Number(b.minLng), Number(b.minLat), Number(b.maxLng), Number(b.maxLat)])
  {
    var b := f.bbox.value;
    var values := [Number(b.minLng), Number(b.minLat), Number(b.maxLng), Number(b.maxLat)];
    forall env, r, all | Carries(all, n, values)
      ensures Test(env, r, all, Overlaps(Arg(n), Arg(n + 1), Arg(n + 2), Arg(n + 3))) == Yes <==> Clause(env, f, r, 10)
    {
      var here := all[n - 1..n + 3];
      assert all[n - 1] == here[0] && all[n] == here[1] && all[n + 1] == here[2] && all[n + 2] == here[3];
    }
  }

  /** One optional equality: the condition is added when the filter gives a value. */
  method AddEqual(f: Filter, start: nat, k: nat, column: Column, v: Option<string>, conds0: seq<Cond>, args0: seq<Value>, n0: nat)
    returns (conds: seq<Cond>, args: seq<Value>, n: nat)
    requires start >= 1 && Compiled(f, start, k, conds0, args0) && n0 == start + |args0|
    requires forall env, r :: Clause(env, f, r, k) <==> v.Some? ==> ColumnOf(r, column) == Text(v.value)
    ensures Compiled(f, start, k + 1, conds, args) && n == start + |args|
  {
    conds, args, n := conds0, args0, n0;
    if v.Some? {
      EqualSays(f, k, column, n, v.value);
      Added(f, start, k, conds, args, Equal(Col(column), Arg(n)), [Text(v.value)]);
      conds, args, n := conds + [Equal(Col(column), Arg(n))], args + [Text(v.value)], n + 1;
    } else {
      Skipped(f, start, k, conds, args);
    }
  }

  /** One optional membership: the condition is added when the filter lists any value. */
  method AddAny(f: Filter, start: nat, k: nat, column: Column, list: seq<string>, conds0: seq<Cond>, args0: seq<Value>, n0: nat)
    returns (conds: seq<Cond>, args: seq<Value>, n: nat)
    requires start >= 1 && Compiled(f, start, k, conds0, args0) && n0 == start + |args0|
    requires forall env, r :: Clause(env, f, r, k) <==>
      list != [] ==> ColumnOf(r, column).Text? && ColumnOf(r, column).s in list
    ensures Compiled(f, start, k + 1, conds, args) && n == start + |args|
  {
    conds, args, n := conds0, args0, n0;
    if |list| > 0 {
      AnySays(f, k, column, n, list);
      Added(f, start, k, conds, args, AnyOf(Col(column), Arg(n)), [Texts(list)]);
      conds, args, n := conds + [AnyOf(Col(column), Arg(n))], args + [Texts(list)], n + 1;
    } else {
      Skipped(f, start, k, conds, args);
    }
  }

  method WhatClauses(f: Filter, start: nat) returns (conds: seq<Cond>, args: seq<Value>, n: nat)
    requires start >= 1
    ensures Compiled(f, start, 4, conds, args) && n == start + |args|
  {
    conds, args, n := [], [], start;
    if f.crisis != "" {
      EqualSays(f, 0, CrisisId, n, f.crisis);
      Added(f, start, 0, conds, args, Equal(Col(CrisisId), Arg(n)), [Text(f.crisis)]);
      conds, args, n := conds + [Equal(Col(CrisisId), Arg(n))], args + [Text(f.crisis)], n + 1;
    } else if |f.crises| > 0 {
      AnySays(f, 0, CrisisId, n, f.crises);
      Added(f, start, 0, conds, args, AnyOf(Col(CrisisId), Arg(n)), [Texts(f.crises)]);
      conds, args, n := conds + [AnyOf(Col(CrisisId), Arg(n))], args + [Texts(f.crises)], n + 1;
    } else {
      Skipped(f, start, 0, conds, args);
    }
    conds, args, n := AddAny(f, start, 1, DamageTier, f.damage, conds, args, n);
    conds, args, n := AddAny(f, start, 2, VerificationState, f.verification, conds, args, n);
    if f.q != "" {
      SearchSays(f, n);
      Added(f, start, 3, conds, args, Search(n), [Text(f.q)]);
      conds, args, n := conds + [Search(n)], args + [Text(f.q)], n + 1;
    } else {
      Skipped(f, start, 3, conds, args);
    }
  }

  method WhoClauses(f: Filter, start: nat, conds0: seq<Cond>, args0: seq<Value>, n0: nat)
    returns (conds: seq<Cond>, args: seq<Value>, n: nat)
    requires start >= 1 && Compiled(f, start, 4, conds0, args0) && n0 == start + |args0|
    ensures Compiled(f, start, 9, conds, args) && n == start + |args|
  {
    conds, args, n := AddEqual(f, start, 4, SubmitterId, if f.mine then f.submitter else None, conds0, args0, n0);
    conds, args, n := AddEqual(f, start, 5, BuildingId, f.building, conds, args, n);
    conds, args, n := AddEqual(f, start, 6, Adm1, f.adm1, conds, args, n);
    conds, args, n := AddEqual(f, start, 7, Adm2, f.adm2, conds, args, n);
    conds, args, n := AddEqual(f, start, 8, Adm3, f.adm3, conds, args, n);
  }

  method WhereClauses(f: Filter, start: nat, conds0: seq<Cond>, args0: seq<Value>, n0: nat)
    returns (conds: seq<Cond>, args: seq<Value>)
    requires start >= 1 && Compiled(f, start, 9, conds0, args0) && n0 == start + |args0|
    ensures Compiled(f, start, 11, conds, args)
  {
    var n := n0;
    conds, args := conds0, args0;
    if f.cluster.Some? {
      TaggedSays(f, n);
      Added(f, start, 9, conds, args, AnyOf(Arg(n), Col(Clusters)), [Text(f.cluster.value)]);
      conds, args, n := conds + [AnyOf(Arg(n), Col(Clusters))], args + [Text(f.cluster.value)], n + 1;
    } else {
      Skipped(f, start, 9, conds, args);
    }
    if f.bbox.Some? {
      var b := f.bbox.value;
      BoxSays(f, n);
      var values := [Number(b.minLng), Number(b.minLat), Number(b.maxLng), Number(b.maxLat)];
      Added(f, start, 10, conds, args, Overlaps(Arg(n), Arg(n + 1), Arg(n + 2), Arg(n + 3)), values);
      conds, args := conds + [Overlaps(Arg(n), Arg(n + 1), Arg(n + 2), Arg(n + 3))], args + values;
    } else {
      Skipped(f, start, 10, conds, args);
    }
  }

  /**
   whereClause: conditions, arguments and the next placeholder number grow together.  From any start index, every
   placeholder names an argument, and the conditions select exactly the rows the filter asks for.
   */
  method WhereClause(f: Filter, start: nat) returns (conds: seq<Cond>, args: seq<Value>)
    requires start >= 1
    ensures InRange(start, conds, args)
    ensures forall env, r, all :: Carries(all, start, args) ==> (Selected(env, r, all, conds) <==> Matches(env, f, r))
    ensures forall env, r :: Matches(env, f, r) <==>
              && (f.crisis != "" ==> r.crisis == Some(f.crisis))
              && (f.crisis == "" && |f.crises| > 0 ==> r.crisis.Some? && r.crisis.value in f.crises)
              && (|f.damage| > 0 ==> r.damage in f.damage)
              && (|f.verification| > 0 && r.verification == Pending ==> "pending" in f.verification)
              && (|f.verification| > 0 && r.verification == Verified ==> "verified" in f.verification)
              && (|f.verification| > 0 && r.verification == Flagged ==> "flagged" in f.verification)
              && (f.q != "" ==> env.ilike(r.place, "%" + f.q + "%") || env.ilike(r.id, f.q + "%") || f.q in r.infraTypes)
              && (f.mine && f.submitter.Some? ==> r.submitter == f.submitter)
              && (f.building.Some? ==> r.building == f.building)
              && (f.adm1.Some? ==> r.admin.adm1.Some? && r.admin.adm1.value.pcode == f.adm1.value)
              && (f.adm2.Some? ==> r.admin.adm2.Some? && r.admin.adm2.value.pcode == f.adm2.value)
              && (f.adm3.Some? ==> r.admin.adm3.Some? && r.admin.adm3.value.pcode == f.adm3.value)
              && (f.cluster.Some? ==> f.cluster.value in r.clusters)
              && (f.bbox.Some? ==>
                    && r.point.Some?
                    && f.bbox.value.minLat <= r.point.value.lat <= f.bbox.value.maxLat
                    && f.bbox.value.minLng <= r.point.value.lng <= f.bbox.value.maxLng)
  {
    var n: nat;
    conds, args, n := WhatClauses(f, start);
    conds, args, n := WhoClauses(f, start, conds, args, n);
    conds, args := WhereClauses(f, start, conds, args, n);
    forall env, r, all | Carries(all, start, args)
      ensures Selected(env, r, all, conds) <==> Matches(env, f, r)
    {
      ClausesAreMatches(env, f, r);
    }
  }
}
