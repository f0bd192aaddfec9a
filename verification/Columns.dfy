/**
 Export columns: how modular answers become columns, and how a report becomes a row of them.
 Here a string is a sequence of code points.
 */
module Columns {
  import opened Basics

  /** unicode.IsUpper and unicode.ToLower */
  datatype Unicode = Unicode(isUpper: char -> bool, toLower: char -> char)

  /** One modular answer; a number and a nested object carry their printed form. */
  datatype Json =
    | JNull | JString(s: string) | JNumber(text: string) | JBool(b: bool) | JArray(items: seq<Json>) | JObject(compact: string)

  /** A report's modular blob: missing, null or not an object; or an object. */
  datatype Modular = Blank | Answers(fields: map<string, Json>)

  const STABLE := ["electricity", "health_services", "pressing_needs"]

  const CSV_NAMES_1 := ["id", "latitude", "longitude", "timestamp", "damage_classification"]
  const CSV_NAMES_2 := ["damage", "infrastructure_type", "infrastructure_name", "infrastructure_other_detail", "hazard_type"]
  const CSV_NAMES_3 := ["electricity", "health_services", "pressing_needs", "possiblyDamaged", "debris"]
  const CSV_NAMES_4 := ["buildingId", "verification", "place", "description", "plus_code"]
  const CSV_NAMES_5 := ["accuracy_m", "admin1_pcode", "admin2_pcode", "admin3_pcode", "h3id"]

  const CSV_COLUMNS := CSV_NAMES_1 + CSV_NAMES_2 + CSV_NAMES_3 + CSV_NAMES_4 + CSV_NAMES_5

  const GPKG_NAMES_1 := ["id", "damage", "possibly_damaged", "verification", "infrastructure", "infrastructure_name"]
  const GPKG_NAMES_2 := ["infrastructure_other_detail", "crisis", "debris", "building_id", "place", "description"]
  const GPKG_NAMES_3 := ["plus_code", "admin2_pcode", "admin3_pcode", "captured_at", "h3id"]

  const GPKG_COLUMNS := GPKG_NAMES_1 + GPKG_NAMES_2 + GPKG_NAMES_3

  // ---- from a key to a column --------------------------------------------------------

  /** What one code point of a key becomes: capitals are lowered, and set off by an underscore unless first. */
  function SnakeAt(u: Unicode, s: string, i: nat): string
    requires i < |s|
  {
    if u.isUpper(s[i]) then (if i > 0 then "_" else "") + [u.toLower(s[i])] else [s[i]]
  }

  function SnakeTo(u: Unicode, s: string, n: nat): string
    requires n <= |s|
  {
    if n == 0 then "" else SnakeTo(u, s, n - 1) + SnakeAt(u, s, n - 1)
  }

  /** camelToSnake */
  method CamelToSnake(u: Unicode, s: string) returns (out: string)
    ensures out == SnakeTo(u, s, |s|)
  {
    out := "";
    for i := 0 to |s|
      invariant out == SnakeTo(u, s, i)
    {
      if u.isUpper(s[i]) {
        if i > 0 {
          out := out + "_";
        }
        out := out + [u.toLower(s[i])];
      } else {
        out := out + [s[i]];
      }
    }
  }

  predicate SafeFirst(c: char) {
    'a' <= c <= 'z'
  }

  predicate SafeChar(c: char) {
    'a' <= c <= 'z' || '0' <= c <= '9' || c == '_'
  }

  /** ^[a-z][a-z0-9_]*$ */
  predicate Safe(s: string) {
    s != "" && SafeFirst(s[0]) && forall i :: 0 <= i < |s| ==> SafeChar(s[i])
  }

  predicate Reserved(s: string) {
    s == "fid" || s == "geom"
  }

  function Renamed(column: string): string {
    if Reserved(column) then "x_" + column else column
  }

  /** The column a modular key is exported under, if it has a safe name. */
  function ColumnFor(u: Unicode, key: string): Option<string> {
    var column := SnakeTo(u, key, |key|);
    if Safe(column) then Some(Renamed(column)) else None
  }

  lemma ColumnIsSafe(u: Unicode, key: string)
    ensures ColumnFor(u, key).Some? ==> Safe(ColumnFor(u, key).value) && !Reserved(ColumnFor(u, key).value)
    ensures var c := SnakeTo(u, key, |key|);
      && (ColumnFor(u, key).Some? <==>
          && c != "" && 'a' <= c[0] <= 'z'
          && forall i :: 0 <= i < |c| ==> 'a' <= c[i] <= 'z' || '0' <= c[i] <= '9' || c[i] == '_')
      && (ColumnFor(u, key).Some? ==> ColumnFor(u, key).value == if c == "fid" || c == "geom" then "x_" + c else c)
  {
    var column := SnakeTo(u, key, |key|);
    if Safe(column) && Reserved(column) {
      assert ("x_" + column)[0] == 'x' && ("x_" + column)[1] == '_';
      assert forall i :: 2 <= i < |"x_" + column| ==> ("x_" + column)[i] == column[i - 2];
    }
  }

  /** A key that is a safe name already, in a script where no safe character is a capital, keeps its name. */
  lemma {:induction false} SafeKeyUnchanged(u: Unicode, key: string, n: nat)
    requires Safe(key) && n <= |key| && forall c :: SafeChar(c) ==> !u.isUpper(c)
    ensures SnakeTo(u, key, n) == key[..n]
    ensures n == |key| ==> ColumnFor(u, key) == Some(if key == "fid" || key == "geom" then "x_" + key else key)
  {
    if n > 0 {
      SafeKeyUnchanged(u, key, n - 1);
      assert SafeChar(key[n - 1]);
      assert key[..n] == key[..n - 1] + [key[n - 1]];
    }
    if n == |key| {
      assert key[..n] == key;
    }
  }

  /** The capitals after the first character, among the first `n`. */
  function InnerCapitals(u: Unicode, key: string, n: nat): set<int>
    requires n <= |key|
  {
    set i | 1 <= i < n && u.isUpper(key[i])
  }

  /** A capital after the first character starts a new word: the name grows by exactly one underscore for each. */
  lemma {:induction false} SnakeLength(u: Unicode, key: string, n: nat)
    requires n <= |key|
    ensures |SnakeTo(u, key, n)| == n + |InnerCapitals(u, key, n)|
  {
    if n == 0 {
      assert InnerCapitals(u, key, n) == {};
    } else {
      SnakeLength(u, key, n - 1);
      assert InnerCapitals(u, key, n) == InnerCapitals(u, key, n - 1) + if n > 1 && u.isUpper(key[n - 1]) then {n - 1} else {};
    }
  }

  /**
   Where each character of a key stands in its name: as far behind its place in the key as there are capitals after the first
   character up to it, lowered if it is a capital, and then behind an underscore.
   */
  lemma {:induction false} SnakePlaces(u: Unicode, key: string, n: nat, i: nat)
    requires i < n <= |key|
    ensures var at := i + |InnerCapitals(u, key, i + 1)|;
      && at < |SnakeTo(u, key, n)|
      && SnakeTo(u, key, n)[at] == (if u.isUpper(key[i]) then u.toLower(key[i]) else key[i])
      && (i > 0 && u.isUpper(key[i]) ==> SnakeTo(u, key, n)[at - 1] == '_')
  {
    SnakeLength(u, key, n - 1);
    SnakeLength(u, key, n);
    if i < n - 1 {
      SnakePlaces(u, key, n - 1, i);
    }
  }

  /** What answers other than lists and texts print as. */
  lemma ScalarAnswers(text: string)
    ensures FlatValue(JNull) == "" && FlatValue(JString(text)) == text && FlatValue(JNumber(text)) == text
    ensures FlatValue(JBool(true)) == "true" && FlatValue(JBool(false)) == "false" && FlatValue(JObject(text)) == text
    ensures FlatValue(JArray([])) == ""
  {}

  // ---- sorted lists of names -----------------------------------------------------------

  ghost predicate Increasing(s: seq<string>) {
    forall i, j :: 0 <= i < j < |s| ==> Below(s[i], s[j])
  }

  function Into(x: string, s: seq<string>): seq<string> {
    if s == [] || Below(x, s[0]) then [x] + s else [s[0]] + Into(x, s[1..])
  }

  lemma {:induction false} IntoKeeps(x: string, s: seq<string>)
    requires Increasing(s) && x !in s
    ensures Increasing(Into(x, s))
    ensures forall y :: y in Into(x, s) <==> y == x || y in s
  {
    if s != [] {
      assert s == [s[0]] + s[1..];
      if Below(x, s[0]) {
        forall j | 0 <= j < |s| ensures Below(x, s[j]) {
          if j > 0 {
            BelowTransitive(x, s[0], s[j]);
          }
        }
      } else {
        IntoKeeps(x, s[1..]);
        BelowTotal(x, s[0]);
        var t := Into(x, s[1..]);
        forall j | 0 <= j < |t| ensures Below(s[0], t[j]) {
          assert t[j] in t;
        }
      }
    }
  }

  /** sort.Strings over distinct names */
  method SortStrings(xs: seq<string>) returns (out: seq<string>)
    requires forall i, j :: 0 <= i < j < |xs| ==> xs[i] != xs[j]
    ensures Increasing(out) && forall x :: x in out <==> x in xs
  {
    out := [];
    for i := 0 to |xs|
      invariant Increasing(out)
      invariant forall x :: x in out <==> x in xs[..i]
    {
      assert xs[i] !in xs[..i];
      IntoKeeps(xs[i], out);
      out := Into(xs[i], out);
      assert xs[..i + 1] == xs[..i] + [xs[i]];
    }
    assert xs[..|xs|] == xs;
  }

  /** An increasing list is determined by what it contains. */
  lemma {:induction false} IncreasingUnique(a: seq<string>, b: seq<string>)
    requires Increasing(a) && Increasing(b) && forall x :: x in a <==> x in b
    ensures a == b
  {
    if a == [] {
      if b != [] {
        FirstIn(b);
      }
    } else {
      FirstIn(a);
      assert b != [];
      FirstIn(b);
      FirstsAgree(a, b);
      forall x ensures x in a[1..] <==> x in b[1..] {
        RestMember(a, x);
        RestMember(b, x);
      }
      assert Increasing(a[1..]) && Increasing(b[1..]);
      IncreasingUnique(a[1..], b[1..]);
      assert a == [a[0]] + a[1..] && b == [b[0]] + b[1..];
    }
  }

  lemma FirstIn(b: seq<string>)
    requires b != []
    ensures b[0] in b
  {}

  lemma FirstsAgree(a: seq<string>, b: seq<string>)
    requires Increasing(a) && Increasing(b) && a != [] && b != [] && a[0] in b && b[0] in a
    ensures a[0] == b[0]
  {
    var i :| 0 <= i < |b| && b[i] == a[0];
    var j :| 0 <= j < |a| && a[j] == b[0];
    if i > 0 && j > 0 {
      BelowAsymmetric(a[0], b[0]);
    }
  }

  lemma RestMember(a: seq<string>, x: string)
    requires Increasing(a) && a != []
    ensures x in a[1..] <==> x in a && x != a[0]
  {
    assert a == [a[0]] + a[1..];
    if x in a[1..] {
      var i :| 0 <= i < |a[1..]| && a[1..][i] == x;
      assert Below(a[0], a[i + 1]);
      BelowAsymmetric(x, x);
    }
  }

  // ---- planning the dynamic columns -------------------------------------------------------

  predicate Taken(fixed: seq<string>, column: string) {
    column in fixed || column in STABLE
  }

  /** `column` is what one of the keys is exported under, and no fixed or stable column has that name. */
  ghost predicate Dynamic(u: Unicode, keys: set<string>, fixed: seq<string>, column: string) {
    !Taken(fixed, column) && exists k :: k in keys && ColumnFor(u, k) == Some(column)
  }

  /** The dynamic columns for these keys: all of them, once each, in order. */
  ghost predicate Planned(u: Unicode, keys: set<string>, fixed: seq<string>, out: seq<string>) {
    Increasing(out) && forall c :: c in out <==> Dynamic(u, keys, fixed, c)
  }

  lemma StableNames()
    ensures forall c :: c in STABLE <==> c == "electricity" || c == "health_services" || c == "pressing_needs"
  {
    assert STABLE[0] == "electricity" && STABLE[1] == "health_services" && STABLE[2] == "pressing_needs";
  }

  function Distinct(keys: seq<string>): set<string> {
    set k | k in keys
  }

  /** extraModularColumnsFromKeys: a loop over raw keys. */
  method ExtrasFromKeys(u: Unicode, rawKeys: seq<string>, fixed: seq<string>) returns (out: seq<string>)
    ensures Planned(u, Distinct(rawKeys), fixed, out)
    ensures forall c :: c in out <==>
              && c !in fixed && c != "electricity" && c != "health_services" && c != "pressing_needs"
              && exists k :: k in rawKeys && ColumnFor(u, k) == Some(c)
  {
    var seen: seq<string> := [];
    for i := 0 to |rawKeys|
      invariant forall a, b :: 0 <= a < b < |seen| ==> seen[a] != seen[b]
      invariant forall c :: c in seen <==> Dynamic(u, Distinct(rawKeys[..i]), fixed, c)
    {
      ghost var before, after := Distinct(rawKeys[..i]), Distinct(rawKeys[..i + 1]);
      assert rawKeys[..i + 1] == rawKeys[..i] + [rawKeys[i]];
      assert after == before + {rawKeys[i]};
      var column := CamelToSnake(u, rawKeys[i]);
      if Safe(column) {
        if Reserved(column) {
          column := "x_" + column;
        }
        assert ColumnFor(u, rawKeys[i]) == Some(column);
        if !(column in fixed || column in STABLE || column in seen) {
          seen := seen + [column];
        }
      } else {
        assert ColumnFor(u, rawKeys[i]) == None;
      }
      assert forall c :: Dynamic(u, after, fixed, c) <==>
        Dynamic(u, before, fixed, c) || (!Taken(fixed, c) && ColumnFor(u, rawKeys[i]) == Some(c));
    }
    assert rawKeys[..|rawKeys|] == rawKeys;
    out := SortStrings(seen);
    StableNames();
  }

  // ---- flattening one report's answers ------------------------------------------------------

  function JoinedItems(items: seq<Json>): string {
    if items == [] then ""
    else if |items| == 1 then FlatValue(items[0])
    else FlatValue(items[0]) + ";" + JoinedItems(items[1..])
  }

  /** Strings as they are, arrays ";"-joined, scalars printed, null as "". */
  function FlatValue(v: Json): string {
    match v
    case JNull => ""
    case JString(s) => s
    case JNumber(text) => text
    case JBool(b) => if b then "true" else "false"
    case JArray(items) => JoinedItems(items)
    case JObject(compact) => compact
  }

  /** The parts between semicolons. */
  function SplitSemicolons(s: string): (parts: seq<string>)
    ensures parts != []
  {
    if s == "" then [""]
    else if s[0] == ';' then [""] + SplitSemicolons(s[1..])
    else
      var rest := SplitSemicolons(s[1..]);
      [[s[0]] + rest[0]] + rest[1..]
  }

  function Strings(parts: seq<string>): seq<Json> {
    seq(|parts|, i requires 0 <= i < |parts| => JString(parts[i]))
  }

  lemma {:induction false} SplitOne(part: string)
    requires ';' !in part
    ensures SplitSemicolons(part) == [part]
  {
    if part != "" {
      assert part[0] in part;
      SplitOne(part[1..]);
      assert [part[0]] + part[1..] == part;
    }
  }

  lemma {:induction false} SplitFirst(part: string, rest: string)
    requires ';' !in part
    ensures SplitSemicolons(part + ";" + rest) == [part] + SplitSemicolons(rest)
  {
    var s := part + ";" + rest;
    if part == "" {
      assert s[1..] == rest;
    } else {
      assert part[0] in part;
      SplitFirst(part[1..], rest);
      assert s[1..] == part[1..] + ";" + rest;
      assert [part[0]] + part[1..] == part;
      assert ([part[1..]] + SplitSemicolons(rest))[1..] == SplitSemicolons(rest);
    }
  }

  /** A list answer can be read back from its cell, as long as no choice contains a semicolon itself. */
  lemma {:induction false} ListAnswersReadBack(parts: seq<string>)
    requires parts != [] && forall i :: 0 <= i < |parts| ==> ';' !in parts[i]
    ensures SplitSemicolons(FlatValue(JArray(Strings(parts)))) == parts
  {
    var items := Strings(parts);
    if |parts| == 1 {
      SplitOne(parts[0]);
      assert parts == [parts[0]];
      assert FlatValue(items[0]) == parts[0];
      assert FlatValue(JArray(items)) == JoinedItems(items) == parts[0];
    } else {
      ListAnswersReadBack(parts[1..]);
      assert items[1..] == Strings(parts[1..]);
      assert FlatValue(JArray(items[1..])) == JoinedItems(items[1..]);
      assert FlatValue(items[0]) == parts[0];
      assert FlatValue(JArray(items)) == JoinedItems(items) == parts[0] + ";" + JoinedItems(items[1..]);
      SplitFirst(parts[0], JoinedItems(items[1..]));
      assert parts == [parts[0]] + parts[1..];
    }
  }

  function Fields(m: Modular): map<string, Json> {
    if m.Blank? then map[] else m.fields
  }

  /** The columns these keys are exported under. */
  function ColumnsOf(u: Unicode, keys: set<string>): set<string> {
    set k | k in keys && ColumnFor(u, k).Some? :: ColumnFor(u, k).value
  }

  function StableSet(): set<string> {
    set c | c in STABLE
  }

  /** After the keys in `done`: an answer comes from a key exported under its column; an unanswered stable column is empty. */
  ghost predicate FlattenedBy(u: Unicode, fields: map<string, Json>, done: set<string>, out: map<string, string>) {
    && out.Keys == StableSet() + ColumnsOf(u, done)
    && forall c :: c in out ==> if c in ColumnsOf(u, done) then AnsweredBy(u, fields, c, out[c]) else out[c] == ""
  }

  ghost predicate AnsweredBy(u: Unicode, fields: map<string, Json>, c: string, cell: string) {
    exists k :: k in fields && ColumnFor(u, k) == Some(c) && cell == FlatValue(fields[k])
  }

  ghost predicate Flattened(u: Unicode, fields: map<string, Json>, out: map<string, string>) {
    FlattenedBy(u, fields, fields.Keys, out)
  }

  lemma FlattenStep(u: Unicode, fields: map<string, Json>, done: set<string>, out: map<string, string>, k: string)
    requires FlattenedBy(u, fields, done, out) && k in fields
    ensures ColumnFor(u, k) == None ==> FlattenedBy(u, fields, done + {k}, out)
    ensures ColumnFor(u, k).Some? ==> FlattenedBy(u, fields, done + {k}, out[ColumnFor(u, k).value := FlatValue(fields[k])])
  {
    if ColumnFor(u, k) == None {
      assert ColumnsOf(u, done + {k}) == ColumnsOf(u, done);
    } else {
      var column := ColumnFor(u, k).value;
      assert ColumnsOf(u, done + {k}) == ColumnsOf(u, done) + {column};
      assert AnsweredBy(u, fields, column, FlatValue(fields[k]));
    }
  }

  /** flattenModular: the stable columns, and every key with a safe name under its column. */
  method FlattenModular(u: Unicode, m: Modular) returns (out: map<string, string>)
    ensures Flattened(u, Fields(m), out)
    ensures "electricity" in out && "health_services" in out && "pressing_needs" in out
    ensures m.Answers? ==> forall k :: k in m.fields && ColumnFor(u, k).Some? ==> ColumnFor(u, k).value in out
    ensures m.Answers? ==> forall c :: c in out ==>
              || (exists k :: k in m.fields && ColumnFor(u, k) == Some(c) && out[c] == FlatValue(m.fields[k]))
              || (out[c] == "" && forall k :: k in m.fields ==> ColumnFor(u, k) != Some(c))
    ensures m.Blank? ==> forall c :: c in out ==> out[c] == ""
  {
    out := FlattenFields(u, Fields(m));
    StableNames();
    FlattenedMeans(u, Fields(m), out);
  }

  /** Over the object's keys, in whatever order. */
  method FlattenFields(u: Unicode, fields: map<string, Json>) returns (out: map<string, string>)
    ensures Flattened(u, fields, out)
  {
    out := map c | c in StableSet() :: "";
    var remaining := fields.Keys;
    assert fields.Keys - remaining == {};
    assert ColumnsOf(u, {}) == {};
    while remaining != {}
      invariant remaining <= fields.Keys
      invariant FlattenedBy(u, fields, fields.Keys - remaining, out)
      decreases remaining
    {
      var k :| k in remaining;
      ghost var done := fields.Keys - remaining;
      FlattenStep(u, fields, done, out, k);
      assert fields.Keys - (remaining - {k}) == done + {k};
      var column := CamelToSnake(u, k);
      if Safe(column) {
        if Reserved(column) {
          column := "x_" + column;
        }
        out := out[column := FlatValue(fields[k])];
      }
      remaining := remaining - {k};
    }
    assert fields.Keys - remaining == fields.Keys;
  }

  lemma FlattenedMeans(u: Unicode, fields: map<string, Json>, out: map<string, string>)
    requires Flattened(u, fields, out)
    ensures forall c :: c in STABLE ==> c in out
    ensures forall k :: k in fields && ColumnFor(u, k).Some? ==> ColumnFor(u, k).value in out
    ensures forall c :: c in out ==>
      AnsweredBy(u, fields, c, out[c]) || (out[c] == "" && forall k :: k in fields ==> ColumnFor(u, k) != Some(c))
  {
    assert forall c :: c in STABLE ==> c in StableSet();
    forall k | k in fields && ColumnFor(u, k).Some?
      ensures ColumnFor(u, k).value in ColumnsOf(u, fields.Keys)
    {}
  }

  function KeysOf(rows: seq<Modular>): set<string> {
    set i, k | 0 <= i < |rows| && k in Fields(rows[i]) :: k
  }

  /** One row's flattened keys, added to those seen. */
  method SeeRow(u: Unicode, flat: map<string, string>, fixed: seq<string>, seen0: seq<string>) returns (seen: seq<string>)
    requires forall a, b :: 0 <= a < b < |seen0| ==> seen0[a] != seen0[b]
    ensures forall a, b :: 0 <= a < b < |seen| ==> seen[a] != seen[b]
    ensures forall c :: c in seen <==> c in seen0 || (c in flat && !Taken(fixed, c))
  {
    seen := seen0;
    var remaining := flat.Keys;
    while remaining != {}
      invariant remaining <= flat.Keys
      invariant forall a, b :: 0 <= a < b < |seen| ==> seen[a] != seen[b]
      invariant forall c :: c in seen <==> c in seen0 || (c in flat && c !in remaining && !Taken(fixed, c))
      decreases remaining
    {
      var k :| k in remaining;
      if !Taken(fixed, k) && k !in seen {
        seen := seen + [k];
      }
      remaining := remaining - {k};
    }
  }

  ghost predicate SeenIn(u: Unicode, rows: seq<Modular>, fixed: seq<string>, seen: seq<string>) {
    forall c :: c in seen <==> Dynamic(u, KeysOf(rows), fixed, c)
  }

  /** extraModularColumns: a loop over the rows' flattened answers. */
  method ExtrasFromRows(u: Unicode, rows: seq<Modular>, fixed: seq<string>) returns (out: seq<string>)
    ensures Planned(u, KeysOf(rows), fixed, out)
    ensures forall c :: c in out <==>
              && c !in fixed && c != "electricity" && c != "health_services" && c != "pressing_needs"
              && exists k :: k in KeysOf(rows) && ColumnFor(u, k) == Some(c)
  {
    var seen: seq<string> := [];
    for i := 0 to |rows|
      invariant forall a, b :: 0 <= a < b < |seen| ==> seen[a] != seen[b]
      invariant SeenIn(u, rows[..i], fixed, seen)
    {
      var flat := FlattenModular(u, rows[i]);
      seen := SeeRow(u, flat, fixed, seen);
      OneMoreRow(u, rows, i, fixed, flat);
    }
    assert rows[..|rows|] == rows;
    out := SortStrings(seen);
    StableNames();
  }

  lemma OneMoreRow(u: Unicode, rows: seq<Modular>, i: nat, fixed: seq<string>, flat: map<string, string>)
    requires i < |rows| && Flattened(u, Fields(rows[i]), flat)
    ensures forall c :: Dynamic(u, KeysOf(rows[..i + 1]), fixed, c) <==>
      Dynamic(u, KeysOf(rows[..i]), fixed, c) || (c in flat && !Taken(fixed, c))
  {
    var before, after, here := KeysOf(rows[..i]), KeysOf(rows[..i + 1]), Fields(rows[i]).Keys;
    assert after == before + here by {
      forall k | k in before + here ensures k in after {
        if k in before {
          var j :| 0 <= j < i && k in Fields(rows[..i][j]);
          assert rows[..i + 1][j] == rows[..i][j];
        } else {
          assert rows[..i + 1][i] == rows[i];
        }
      }
      forall k | k in after ensures k in before + here {
        var j :| 0 <= j < i + 1 && k in Fields(rows[..i + 1][j]);
        if j < i {
          assert rows[..i][j] == rows[j];
        }
      }
    }
    forall c | !Taken(fixed, c)
      ensures c in flat <==> exists k :: k in here && ColumnFor(u, k) == Some(c)
    {
      assert c !in StableSet();
    }
  }

  /** Rows or keys: the plan is the same whenever the keys are the union of the rows' keys. */
  lemma PlannersAgree(u: Unicode, rows: seq<Modular>, rawKeys: seq<string>, fixed: seq<string>, a: seq<string>, b: seq<string>)
    requires Distinct(rawKeys) == KeysOf(rows)
    requires Planned(u, KeysOf(rows), fixed, a) && Planned(u, Distinct(rawKeys), fixed, b)
    ensures a == b
  {
    IncreasingUnique(a, b);
  }

  ghost predicate AllDistinct(s: seq<string>) {
    forall i, j :: 0 <= i < j < |s| ==> s[i] != s[j]
  }

  /** A plan has no duplicates, meets no fixed or stable column, and every name in it is a safe identifier, never fid or geom. */
  lemma PlanIsClean(u: Unicode, keys: set<string>, fixed: seq<string>, out: seq<string>)
    requires Planned(u, keys, fixed, out)
    ensures AllDistinct(out)
    ensures forall c :: c in out ==> c !in fixed && c !in STABLE && Safe(c) && !Reserved(c)
  {
    forall i, j | 0 <= i < j < |out| ensures out[i] != out[j] {
      BelowAsymmetric(out[i], out[i]);
    }
    forall c | c in out ensures Safe(c) && !Reserved(c) {
      var k :| k in keys && ColumnFor(u, k) == Some(c);
      ColumnIsSafe(u, k);
    }
  }

  /** The names a plan can hold: a small letter, then small letters, digits and underscores, and none that is used already. */
  lemma PlannedNames(u: Unicode, keys: set<string>, fixed: seq<string>, out: seq<string>)
    requires Planned(u, keys, fixed, out)
    ensures forall c :: c in out ==> c !in {"electricity", "health_services", "pressing_needs", "fid", "geom"}
    ensures forall c :: c in out ==>
      c != "" && 'a' <= c[0] <= 'z' && forall i :: 0 <= i < |c| ==> 'a' <= c[i] <= 'z' || '0' <= c[i] <= '9' || c[i] == '_'
  {
    PlanIsClean(u, keys, fixed, out);
    StableNames();
  }
}
