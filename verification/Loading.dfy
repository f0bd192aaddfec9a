/** The boundary loader's own statements: what one body of EnsureCountry does to the area table, and to the in-flight set. */
module Loading {
  import opened Basics
  import opened Areas

  /** One feature of a collection, or the point where decoding it failed. */
  datatype Feature =
    | Undecodable
    | Feature(hasGeometry: bool, code: string, name: string, parentCode: string, shape: int)

  /** A member of the archive; its name may stand for admin level 1, 2, both or neither. */
  datatype Member = Member(levels: set<nat>, features: seq<Feature>)

  // ---- what the files say ------------------------------------------------------------

  predicate Loadable(f: Feature) {
    f.Feature? && f.hasGeometry && f.code != ""
  }

  function CodRow(f: Feature, iso3: string, level: nat): Area
    requires Loadable(f)
  {
    Area(f.code, level, if f.name == "" then f.code else f.name,
         if level == 1 then Some(iso3) else if f.parentCode == "" then None else Some(f.parentCode), iso3, Cod, Some(f.shape))
  }

  /** How many features decode before the first that does not. */
  function Decoded(features: seq<Feature>): (n: nat)
    ensures n <= |features| && (n < |features| ==> features[n].Undecodable?)
    ensures forall i :: 0 <= i < n ==> features[i].Feature?
  {
    if features == [] || features[0].Undecodable? then 0 else 1 + Decoded(features[1..])
  }

  function RowsTo(features: seq<Feature>, n: nat, iso3: string, level: nat): seq<Area>
    requires n <= |features|
  {
    if n == 0 then []
    else RowsTo(features, n - 1, iso3, level)
         + if Loadable(features[n - 1]) then [CodRow(features[n - 1], iso3, level)] else []
  }

  /** The rows of one member, up to the first feature that does not decode. */
  function CodRows(features: seq<Feature>, iso3: string, level: nat): seq<Area> {
    RowsTo(features, Decoded(features), iso3, level)
  }

  function LevelRows(members: seq<Member>, iso3: string, level: nat): seq<Area> {
    if members == [] then []
    else LevelRows(Front(members), iso3, level)
         + if level in Last(members).levels then CodRows(Last(members).features, iso3, level) else []
  }

  /** All level 1 rows come before any level 2 row, so that parents are there first. */
  function ArchiveRows(members: seq<Member>, iso3: string): seq<Area> {
    LevelRows(members, iso3, 1) + LevelRows(members, iso3, 2)
  }

  function GbRow(f: Feature, iso3: string): Area
    requires Loadable(f)
  {
    Area("GB:" + f.code, 1, if f.name == "" then iso3 + " region" else f.name, Some(iso3), iso3, GeoBoundaries, Some(f.shape))
  }

  function GbRows(features: seq<Feature>, iso3: string): seq<Area> {
    if features == [] then []
    else GbRows(Front(features), iso3) + if Loadable(Last(features)) then [GbRow(Last(features), iso3)] else []
  }

  /** How many rows count as loaded: all but those whose parent is missing when their turn comes. */
  function LoadedBy(s: seq<Area>, rows: seq<Area>): nat {
    if rows == [] then 0
    else LoadedBy(s, Front(rows)) + if UpsertOutcomeOf(UpsertAll(s, Front(rows)), Last(rows)) == NoParent then 0 else 1
  }

  lemma UpsertAllOne(s: seq<Area>, rows: seq<Area>, a: Area)
    ensures UpsertAll(s, rows + [a]) == AfterUpsert(UpsertAll(s, rows), a)
    ensures LoadedBy(s, rows + [a])
         == LoadedBy(s, rows) + if UpsertOutcomeOf(UpsertAll(s, rows), a) == NoParent then 0 else 1
  {
    assert Front(rows + [a]) == rows;
  }

  lemma {:induction false} UpsertAllJoin(s: seq<Area>, a: seq<Area>, b: seq<Area>)
    ensures UpsertAll(s, a + b) == UpsertAll(UpsertAll(s, a), b)
    ensures LoadedBy(s, a + b) == LoadedBy(s, a) + LoadedBy(UpsertAll(s, a), b)
  {
    if b == [] {
      assert a + b == a;
    } else {
      UpsertAllJoin(s, a, Front(b));
      assert Front(a + b) == a + Front(b);
    }
  }

  lemma UpsertNext(s: seq<Area>, features: seq<Feature>, i: nat, iso3: string, level: nat)
    requires i < |features|
    ensures UpsertAll(s, RowsTo(features, i + 1, iso3, level)) ==
      (var before := UpsertAll(s, RowsTo(features, i, iso3, level));
       if Loadable(features[i]) then AfterUpsert(before, CodRow(features[i], iso3, level)) else before)
    ensures LoadedBy(s, RowsTo(features, i + 1, iso3, level)) == LoadedBy(s, RowsTo(features, i, iso3, level))
      + if Loadable(features[i])
           && UpsertOutcomeOf(UpsertAll(s, RowsTo(features, i, iso3, level)), CodRow(features[i], iso3, level)) != NoParent
        then 1 else 0
  {
    var rows := RowsTo(features, i, iso3, level);
    if Loadable(features[i]) {
      UpsertAllOne(s, rows, CodRow(features[i], iso3, level));
    } else {
      assert rows + [] == rows;
    }
  }

  /** Feature `i` is reached, all before it having been decoded, and has what a row needs. */
  predicate Ingested(features: seq<Feature>, i: int) {
    && 0 <= i < |features| && (forall j :: 0 <= j <= i ==> features[j].Feature?)
    && features[i].hasGeometry && features[i].code != ""
  }

  lemma {:induction false} RowsToAre(features: seq<Feature>, n: nat, iso3: string, level: nat, a: Area)
    requires n <= |features| && forall j :: 0 <= j < n ==> features[j].Feature?
    ensures a in RowsTo(features, n, iso3, level) <==>
      exists i :: i < n && Ingested(features, i) && a == CodRow(features[i], iso3, level)
  {
    if n > 0 {
      RowsToAre(features, n - 1, iso3, level, a);
      if Loadable(features[n - 1]) {
        assert Ingested(features, n - 1);
      }
    }
  }

  lemma CodRowsAre(features: seq<Feature>, iso3: string, level: nat, a: Area)
    ensures a in CodRows(features, iso3, level) <==>
      exists i :: Ingested(features, i) && a == CodRow(features[i], iso3, level)
  {
    var n := Decoded(features);
    RowsToAre(features, n, iso3, level, a);
    assert forall i :: Ingested(features, i) && n < |features| ==> i < n;
  }

  /** The rows of a level are those of the features reached in the members whose names stand for that level. */
  lemma {:induction false} LevelRowsAre(members: seq<Member>, iso3: string, level: nat, a: Area)
    ensures a in LevelRows(members, iso3, level) <==>
      exists k, i :: && 0 <= k < |members| && level in members[k].levels && Ingested(members[k].features, i)
                     && a == CodRow(members[k].features[i], iso3, level)
  {
    if members != [] {
      LevelRowsAre(Front(members), iso3, level, a);
      CodRowsAre(Last(members).features, iso3, level, a);
      assert forall k :: 0 <= k < |members| - 1 ==> Front(members)[k] == members[k];
      assert members[|members| - 1] == Last(members);
    }
  }

  /** Of a geoBoundaries collection, the features with geometry and shape id. */
  lemma {:induction false} GbRowsAre(features: seq<Feature>, iso3: string, a: Area)
    ensures a in GbRows(features, iso3) <==>
      exists f :: && f in features && f.Feature? && f.hasGeometry && f.code != ""
                  && a == GbRow(f, iso3)
  {
    if features != [] {
      GbRowsAre(Front(features), iso3, a);
      assert features == Front(features) + [Last(features)];
    }
  }

  /** The row of a feature; a province is under its country, anything deeper under the area it names. */
  method ReadFeature(f: Feature, iso3: string, level: nat) returns (a: Area)
    requires Loadable(f)
    ensures a == CodRow(f, iso3, level)
    ensures a.pcode == f.code && a.level == level && a.iso3 == iso3 && a.source == Cod && a.shape == Some(f.shape)
    ensures a.name == if f.name != "" then f.name else f.code
    ensures level == 1 ==> a.parent == Some(iso3)
    ensures level != 1 ==> a.parent == if f.parentCode != "" then Some(f.parentCode) else None
  {
    var name := f.name;
    if name == "" {
      name := f.code;
    }
    var parent: Option<string> := None;
    if level == 1 {
      parent := Some(iso3);
    } else if f.parentCode != "" {
      parent := Some(f.parentCode);
    }
    a := Area(f.code, level, name, parent, iso3, Cod, Some(f.shape));
  }

  /** The row of a geoBoundaries region. */
  method ReadRegion(f: Feature, iso3: string) returns (a: Area)
    requires Loadable(f)
    ensures a == GbRow(f, iso3)
    ensures a.pcode == "GB:" + f.code && a.level == 1 && a.iso3 == iso3 && a.source == GeoBoundaries && a.shape == Some(f.shape)
    ensures a.name == if f.name != "" then f.name else iso3 + " region"
    ensures a.parent == Some(iso3)
  {
    var name := f.name;
    if name == "" {
      name := iso3 + " region";
    }
    a := Area("GB:" + f.code, 1, name, Some(iso3), iso3, GeoBoundaries, Some(f.shape));
  }

  class BoundaryLoader {
    var areas: seq<Area>
    var inflight: set<string>

    constructor (areas: seq<Area>)
      ensures this.areas == areas && inflight == {}
    {
      this.areas, this.inflight := areas, {};
    }

    /** UpsertAdminAreaGeoJSON */
    method Upsert(a: Area) returns (ok: bool)
      modifies this`areas
      ensures ok <==> || (exists b :: b in old(areas) && b.pcode == a.pcode)
                      || a.parent == None || a.parent.value == a.pcode
                      || (exists b :: b in old(areas) && b.pcode == a.parent.value)
      ensures ok && (forall b :: b in old(areas) ==> b.pcode != a.pcode) ==> areas == old(areas) + [a]
      ensures !ok || (exists b :: b in old(areas) && b.pcode == a.pcode) ==> areas == old(areas)
      ensures areas == AfterUpsert(old(areas), a) && ok == (UpsertOutcomeOf(old(areas), a) != NoParent)
    {
      var outcome := UpsertOutcomeOf(areas, a);
      ok := outcome != NoParent;
      if outcome == Inserted {
        areas := areas + [a];
      }
    }

    /** One decoded feature: skipped without geometry or P-code, otherwise upserted under its parent. */
    method IngestFeature(f: Feature, iso3: string, level: nat) returns (counted: bool)
      requires f.Feature?
      modifies this`areas
      ensures areas == if Loadable(f) then AfterUpsert(old(areas), CodRow(f, iso3, level)) else old(areas)
      ensures counted <==> Loadable(f) && UpsertOutcomeOf(old(areas), CodRow(f, iso3, level)) != NoParent
      ensures !f.hasGeometry || f.code == "" ==> areas == old(areas) && !counted
    {
      if !f.hasGeometry || f.code == "" {
        return false;
      }
      var a := ReadFeature(f, iso3, level);
      counted := Upsert(a);
    }

    /** ingestCODMember */
    method IngestCodMember(features: seq<Feature>, iso3: string, level: nat) returns (loaded: nat)
      modifies this`areas
      ensures areas == UpsertAll(old(areas), CodRows(features, iso3, level))
      ensures loaded == LoadedBy(old(areas), CodRows(features, iso3, level))
    {
      loaded := 0;
      var i := 0;
      while i < |features| && features[i].Feature?
        invariant i <= |features| && forall j :: 0 <= j < i ==> features[j].Feature?
        invariant areas == UpsertAll(old(areas), RowsTo(features, i, iso3, level))
        invariant loaded == LoadedBy(old(areas), RowsTo(features, i, iso3, level))
      {
        UpsertNext(old(areas), features, i, iso3, level);
        var counted := IngestFeature(features[i], iso3, level);
        if counted {
          loaded := loaded + 1;
        }
        i := i + 1;
      }
      assert i == Decoded(features);
    }

    /** One level of the archive, member by member. */
    method IngestLevel(members: seq<Member>, iso3: string, level: nat) returns (loaded: nat)
      modifies this`areas
      ensures areas == UpsertAll(old(areas), LevelRows(members, iso3, level))
      ensures loaded == LoadedBy(old(areas), LevelRows(members, iso3, level))
    {
      loaded := 0;
      for i := 0 to |members|
        invariant areas == UpsertAll(old(areas), LevelRows(members[..i], iso3, level))
        invariant loaded == LoadedBy(old(areas), LevelRows(members[..i], iso3, level))
      {
        assert Front(members[..i + 1]) == members[..i];
        ghost var before := LevelRows(members[..i], iso3, level);
        if level in members[i].levels {
          UpsertAllJoin(old(areas), before, CodRows(members[i].features, iso3, level));
          var n := IngestCodMember(members[i].features, iso3, level);
          loaded := loaded + n;
        } else {
          assert before + [] == before;
        }
      }
      assert members[..|members|] == members;
    }

    /** ensureCOD: nothing when the layer is present or the download fails; otherwise level 1, then level 2. */
    method EnsureCod(iso3: string, archive: Option<seq<Member>>) returns (loaded: nat, failed: bool)
      modifies this`areas
      ensures Holds(old(areas), iso3, Cod) || archive == None ==> areas == old(areas) && loaded == 0
      ensures !Holds(old(areas), iso3, Cod) && archive.Some? ==>
                areas == UpsertAll(old(areas), ArchiveRows(archive.value, iso3))
                && loaded == LoadedBy(old(areas), ArchiveRows(archive.value, iso3))
      ensures failed ==> !Holds(old(areas), iso3, Cod) && archive == None
    {
      loaded, failed := 0, false;
      if Holds(areas, iso3, Cod) {
        return;
      }
      if archive == None {
        return 0, true;
      }
      UpsertAllJoin(areas, LevelRows(archive.value, iso3, 1), LevelRows(archive.value, iso3, 2));
      for level := 1 to 3
        invariant level == 1 ==> areas == old(areas) && loaded == 0
        invariant level == 2 ==> areas == UpsertAll(old(areas), LevelRows(archive.value, iso3, 1))
                                 && loaded == LoadedBy(old(areas), LevelRows(archive.value, iso3, 1))
        invariant level == 3 ==> areas == UpsertAll(old(areas), ArchiveRows(archive.value, iso3))
                                 && loaded == LoadedBy(old(areas), ArchiveRows(archive.value, iso3))
      {
        var n := IngestLevel(archive.value, iso3, level);
        loaded := loaded + n;
      }
    }

    /** One geoBoundaries region: skipped without geometry or shape id, otherwise upserted under its country. */
    method IngestRegion(f: Feature, iso3: string) returns (counted: bool)
      modifies this`areas
      ensures areas == if Loadable(f) then AfterUpsert(old(areas), GbRow(f, iso3)) else old(areas)
      ensures counted <==> Loadable(f) && UpsertOutcomeOf(old(areas), GbRow(f, iso3)) != NoParent
      ensures f.Undecodable? || !f.hasGeometry || f.code == "" ==> areas == old(areas) && !counted
    {
      if f.Undecodable? || !f.hasGeometry || f.code == "" {
        return false;
      }
      var a := ReadRegion(f, iso3);
      counted := Upsert(a);
    }

    /** The geoBoundaries features, one by one. */
    method IngestGb(features: seq<Feature>, iso3: string) returns (loaded: nat)
      modifies this`areas
      ensures areas == UpsertAll(old(areas), GbRows(features, iso3))
      ensures loaded == LoadedBy(old(areas), GbRows(features, iso3))
    {
      loaded := 0;
      for i := 0 to |features|
        invariant areas == UpsertAll(old(areas), GbRows(features[..i], iso3))
        invariant loaded == LoadedBy(old(areas), GbRows(features[..i], iso3))
      {
        assert Front(features[..i + 1]) == features[..i];
        ghost var before := GbRows(features[..i], iso3);
        if Loadable(features[i]) {
          UpsertAllOne(old(areas), before, GbRow(features[i], iso3));
        } else {
          assert before + [] == before;
        }
        var counted := IngestRegion(features[i], iso3);
        if counted {
          loaded := loaded + 1;
        }
      }
      assert features[..|features|] == features;
    }

    /**
     EnsureCountry, uninterrupted, on a trimmed upper-case code; `archive` and `collection` are what the downloads yield.
     Whatever happens the in-flight set is as before.  A country being loaded elsewhere, or with a COD layer, is left alone;
     geoBoundaries rows are added only when no COD row could be had and none of them is there.
     */
    method EnsureCountry(iso3: string, archive: Option<seq<Member>>, collection: Option<seq<Feature>>)
      returns (regeocode: bool, failed: bool)
      modifies this
      ensures inflight == old(inflight)
      ensures areas == Ensured(old(areas), |iso3| == 3 && iso3 !in old(inflight), iso3, archive, collection)
      ensures |iso3| != 3 || iso3 in old(inflight) || HasRow(old(areas), iso3, Cod) ==>
                areas == old(areas) && !regeocode && !failed
      ensures |iso3| == 3 && iso3 !in old(inflight) && !HasRow(old(areas), iso3, Cod) ==>
                && (archive.Some? && LoadedBy(old(areas), ArchiveRows(archive.value, iso3)) > 0 ==>
                      regeocode && areas == UpsertAll(old(areas), ArchiveRows(archive.value, iso3)))
                && (archive == None && (HasRow(old(areas), iso3, GeoBoundaries) || collection == None) ==> areas == old(areas))
                && (archive == None && !HasRow(old(areas), iso3, GeoBoundaries) && collection.Some? ==>
                      areas == UpsertAll(old(areas), GbRows(collection.value, iso3)))
                && (archive == None ==> (failed <==> !HasRow(old(areas), iso3, GeoBoundaries) && collection == None))
    {
      regeocode, failed := false, false;
      if |iso3| != 3 || iso3 in inflight {
        return;
      }
      ghost var before := inflight;
      inflight := inflight + {iso3};
      var n, codFailed := EnsureCod(iso3, archive);
      if n > 0 {
        regeocode := true;
      } else if !Holds(areas, iso3, Cod) && !Holds(areas, iso3, GeoBoundaries) {
        if collection == None {
          failed := true;
        } else {
          n := IngestGb(collection.value, iso3);
          regeocode := n > 0;
        }
      }
      inflight := inflight - {iso3};
      assert inflight == before;
    }
  }

  /** Some row of the country comes from that source. */
  predicate HasRow(s: seq<Area>, iso3: string, source: Source) {
    exists a :: a in s && a.iso3 == iso3 && a.source == source
  }

  /** The area table after a body of EnsureCountry that ran alone. */
  function Ensured(
    s: seq<Area>, enters: bool, iso3: string, archive: Option<seq<Member>>, collection: Option<seq<Feature>>): seq<Area>
  {
    if !enters || Holds(s, iso3, Cod) then s
    else
      var rows := if archive == None then [] else ArchiveRows(archive.value, iso3);
      var s1 := UpsertAll(s, rows);
      if LoadedBy(s, rows) > 0 || Holds(s1, iso3, Cod) || Holds(s1, iso3, GeoBoundaries) || collection == None then s1
      else UpsertAll(s1, GbRows(collection.value, iso3))
  }

  /** `t` is `s` with more rows after it, parents still first. */
  ghost predicate Grown(s: seq<Area>, t: seq<Area>) {
    s <= t && Rooted(t)
  }

  /** A body never removes or changes a row, keeps the table rooted, and does nothing to a country that has its COD layer. */
  lemma EnsuredGrows(s: seq<Area>, enters: bool, iso3: string, archive: Option<seq<Member>>, collection: Option<seq<Feature>>)
    requires Rooted(s)
    ensures Grown(s, Ensured(s, enters, iso3, archive, collection))
    ensures Holds(s, iso3, Cod) ==> Ensured(s, enters, iso3, archive, collection) == s
  {
    var rows := if archive == None then [] else ArchiveRows(archive.value, iso3);
    LoadGrows(s, rows);
    if collection.Some? {
      LoadTwiceGrows(s, rows, GbRows(collection.value, iso3));
    }
  }

  lemma LoadGrows(s: seq<Area>, rows: seq<Area>)
    requires Rooted(s)
    ensures Grown(s, UpsertAll(s, rows))
  {
    UpsertAllKeeps(s, rows);
    UpsertAllRooted(s, rows);
  }

  lemma LoadTwiceGrows(s: seq<Area>, rows: seq<Area>, more: seq<Area>)
    requires Rooted(s)
    ensures Grown(s, UpsertAll(UpsertAll(s, rows), more))
  {
    LoadGrows(s, rows);
    LoadGrows(UpsertAll(s, rows), more);
  }

  lemma {:induction false} UpsertAllRooted(s: seq<Area>, rows: seq<Area>)
    requires Rooted(s)
    ensures Rooted(UpsertAll(s, rows))
  {
    if rows != [] {
      UpsertAllRooted(s, Front(rows));
      UpsertRooted(UpsertAll(s, Front(rows)), Last(rows));
    }
  }

  /** Rows whose parents are there, or that are their own, all load. */
  lemma {:induction false} ParentsPresent(s: seq<Area>, rows: seq<Area>)
    requires forall a :: a in rows && a.parent.Some? ==> a.parent.value in PcodesOf(s) || a.parent.value == a.pcode
    ensures LoadedBy(s, rows) == |rows|
    ensures PcodesOf(s) <= PcodesOf(UpsertAll(s, rows))
    ensures forall a :: a in rows ==> a.pcode in PcodesOf(UpsertAll(s, rows))
  {
    if rows != [] {
      assert rows == Front(rows) + [Last(rows)];
      ParentsPresent(s, Front(rows));
      UpsertCodes(UpsertAll(s, Front(rows)), Last(rows));
    }
  }

  lemma UpsertCodes(s: seq<Area>, a: Area)
    ensures PcodesOf(s) <= PcodesOf(AfterUpsert(s, a))
    ensures UpsertOutcomeOf(s, a) != NoParent ==> a.pcode in PcodesOf(AfterUpsert(s, a))
  {
    if UpsertOutcomeOf(s, a) == Inserted {
      assert a in s + [a];
      assert forall b :: b in s ==> b in s + [a];
    }
  }

  /** A level 1 row is never refused for want of its country, once the baseline row of that country is there. */
  lemma CountryRowsLoad(s: seq<Area>, rows: seq<Area>, iso3: string)
    requires iso3 in PcodesOf(s) && forall i :: 0 <= i < |rows| ==> rows[i].parent == Some(iso3)
    ensures LoadedBy(s, rows) == |rows|
  {
    ParentsPresent(s, rows);
  }

  lemma {:induction false} ProvincesAreUnderCountry(members: seq<Member>, iso3: string)
    ensures forall a :: a in LevelRows(members, iso3, 1) ==> a.parent == Some(iso3)
  {
    if members != [] {
      ProvincesAreUnderCountry(Front(members), iso3);
      ProvinceRows(Last(members).features, Decoded(Last(members).features), iso3);
    }
  }

  lemma {:induction false} ProvinceRows(features: seq<Feature>, n: nat, iso3: string)
    requires n <= |features|
    ensures forall a :: a in RowsTo(features, n, iso3, 1) ==> a.parent == Some(iso3)
  {
    if n > 0 {
      ProvinceRows(features, n - 1, iso3);
    }
  }

  /**
   Provinces come before districts: in a country whose baseline row is there no row of an archive is refused, wherever in the
   archive it stands, as long as each district names a province of the archive or an area that is there already.
   */
  lemma ArchiveLoads(s: seq<Area>, members: seq<Member>, iso3: string)
    requires iso3 in PcodesOf(s)
    requires forall a :: a in LevelRows(members, iso3, 2) && a.parent.Some? ==>
      a.parent.value in PcodesOf(s) || exists p :: p in LevelRows(members, iso3, 1) && p.pcode == a.parent.value
    ensures LoadedBy(s, ArchiveRows(members, iso3)) == |ArchiveRows(members, iso3)|
  {
    var provinces, districts := LevelRows(members, iso3, 1), LevelRows(members, iso3, 2);
    ProvincesAreUnderCountry(members, iso3);
    ParentsPresent(s, provinces);
    ParentsPresent(UpsertAll(s, provinces), districts);
    UpsertAllJoin(s, provinces, districts);
  }
}
