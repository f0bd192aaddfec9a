/** One report as a CSV row and as a GeoPackage row: each value under the column that names it. */
module Exports {
  import opened Basics
  import opened Columns

  /** The texts a located report is exported with; number, time and cell formatting happen before. */
  datatype Position = Position(lat: string, lng: string, h3: string, blob: string)

  datatype Note = Note(original: string, translated: string)

  datatype Exported = Exported(
    id: string, position: Option<Position>, timestamp: string, tier: string, damage: string,
    infra: seq<string>, infraName: Option<string>, infraDetail: Option<string>, nature: seq<string>,
    possiblyDamaged: bool, debris: string, building: Option<string>, verification: string, place: string,
    note: Option<Note>, plusCode: Option<string>, accuracy: Option<string>,
    adm1: Option<string>, adm2: Option<string>, adm3: Option<string>, modular: Modular)

  function Deref(s: Option<string>): string {
    if s == None then "" else s.value
  }

  function Semicolons(parts: seq<string>): string {
    if parts == [] then "" else if |parts| == 1 then parts[0] else parts[0] + ";" + Semicolons(parts[1..])
  }

  /** An unknown tier is exported as the mildest. */
  function TitleTier(t: string): string {
    if t == "partial" then "Partial" else if t == "complete" then "Complete" else "Minimal"
  }

  function Description(note: Option<Note>): string {
    if note == None then "" else if note.value.translated != "" then note.value.translated else note.value.original
  }

  function Flag(b: bool): string {
    if b then "true" else "false"
  }

  function Latitude(p: Option<Position>): string { if p == None then "" else p.value.lat }
  function Longitude(p: Option<Position>): string { if p == None then "" else p.value.lng }
  function H3(p: Option<Position>): string { if p == None then "" else p.value.h3 }

  function Cell(flat: map<string, string>, column: string): string {
    if column in flat then flat[column] else ""
  }

  // ---- what each column holds ----------------------------------------------------------

  /** The quantities exported in fixed columns. */
  datatype Quantity =
    | Id
    | Lat
    | Lng
    | Timestamp
    | DamageClass
    | Damage
    | Infrastructure
    | InfrastructureName
    | InfrastructureDetail
    | Hazard
    | Electricity
    | HealthServices
    | PressingNeeds
    | PossiblyDamaged
    | Debris
    | BuildingId
    | VerificationState
    | Place
    | NoteText
    | PlusCode
    | Accuracy
    | Admin1
    | Admin2
    | Admin3
    | H3Cell

  /** The quantities behind the CSV columns, in column order. */
  const CSV_QUANTITIES :=
    CSV_1 + CSV_2 + CSV_3 + CSV_4 + CSV_5

  const CSV_1 := [Id, Lat, Lng, Timestamp, DamageClass]
  const CSV_2 := [Damage, Infrastructure, InfrastructureName, InfrastructureDetail, Hazard]
  const CSV_3 := [Electricity, HealthServices, PressingNeeds, PossiblyDamaged, Debris]
  const CSV_4 := [BuildingId, VerificationState, Place, NoteText, PlusCode]
  const CSV_5 := [Accuracy, Admin1, Admin2, Admin3, H3Cell]

  /** The quantities behind the GeoPackage attribute columns, in column order. */
  const GPKG_QUANTITIES := GPKG_1 + GPKG_2 + GPKG_3

  const GPKG_1 := [Id, Damage, PossiblyDamaged, VerificationState, Infrastructure, InfrastructureName]
  const GPKG_2 := [InfrastructureDetail, Hazard, Debris, BuildingId, Place, NoteText]
  const GPKG_3 := [PlusCode, Admin2, Admin3, Timestamp, H3Cell]

  function CsvName(q: Quantity): string {
    match q
    case Id => "id"
    case Lat => "latitude"
    case Lng => "longitude"
    case Timestamp => "timestamp"
    case DamageClass => "damage_classification"
    case Damage => "damage"
    case Infrastructure => "infrastructure_type"
    case InfrastructureName => "infrastructure_name"
    case InfrastructureDetail => "infrastructure_other_detail"
    case Hazard => "hazard_type"
    case Electricity => "electricity"
    case HealthServices => "health_services"
    case PressingNeeds => "pressing_needs"
    case PossiblyDamaged => "possiblyDamaged"
    case Debris => "debris"
    case BuildingId => "buildingId"
    case VerificationState => "verification"
    case Place => "place"
    case NoteText => "description"
    case PlusCode => "plus_code"
    case Accuracy => "accuracy_m"
    case Admin1 => "admin1_pcode"
    case Admin2 => "admin2_pcode"
    case Admin3 => "admin3_pcode"
    case H3Cell => "h3id"
  }

  /** The GeoPackage names four of them differently. */
  function GpkgName(q: Quantity): string {
    match q
    case PossiblyDamaged => "possibly_damaged"
    case Infrastructure => "infrastructure"
    case Hazard => "crisis"
    case BuildingId => "building_id"
    case Timestamp => "captured_at"
    case _ => CsvName(q)
  }

  function CsvNames(qs: seq<Quantity>): seq<string> {
    seq(|qs|, i requires 0 <= i < |qs| => CsvName(qs[i]))
  }

  function GpkgNames(qs: seq<Quantity>): seq<string> {
    seq(|qs|, i requires 0 <= i < |qs| => GpkgName(qs[i]))
  }

  lemma CsvNamesHere()
    ensures CsvNames(CSV_1) == CSV_NAMES_1 && CsvNames(CSV_2) == CSV_NAMES_2 && CsvNames(CSV_3) == CSV_NAMES_3
  {}

  lemma CsvNamesThere()
    ensures CsvNames(CSV_4) == CSV_NAMES_4 && CsvNames(CSV_5) == CSV_NAMES_5
  {}

  lemma GpkgNamesHere()
    ensures GpkgNames(GPKG_1) == GPKG_NAMES_1 && GpkgNames(GPKG_2) == GPKG_NAMES_2 && GpkgNames(GPKG_3) == GPKG_NAMES_3
  {}

  lemma NamesJoin(a: seq<Quantity>, b: seq<Quantity>)
    ensures CsvNames(a + b) == CsvNames(a) + CsvNames(b) && GpkgNames(a + b) == GpkgNames(a) + GpkgNames(b)
  {}

  /** The column lists name these quantities in this order. */
  lemma ColumnNames()
    ensures CsvNames(CSV_QUANTITIES) == CSV_COLUMNS && GpkgNames(GPKG_QUANTITIES) == GPKG_COLUMNS
    ensures CSV_COLUMNS == [
      "id", "latitude", "longitude", "timestamp", "damage_classification",
      "damage", "infrastructure_type", "infrastructure_name", "infrastructure_other_detail", "hazard_type",
      "electricity", "health_services", "pressing_needs", "possiblyDamaged", "debris",
      "buildingId", "verification", "place", "description", "plus_code",
      "accuracy_m", "admin1_pcode", "admin2_pcode", "admin3_pcode", "h3id"]
    ensures GPKG_COLUMNS == [
      "id", "damage", "possibly_damaged", "verification", "infrastructure", "infrastructure_name",
      "infrastructure_other_detail", "crisis", "debris", "building_id", "place", "description",
      "plus_code", "admin2_pcode", "admin3_pcode", "captured_at", "h3id"]
  {
    CsvNamesHere();
    CsvNamesThere();
    GpkgNamesHere();
    NamesJoin(CSV_1 + CSV_2 + CSV_3 + CSV_4, CSV_5);
    NamesJoin(CSV_1 + CSV_2 + CSV_3, CSV_4);
    NamesJoin(CSV_1 + CSV_2, CSV_3);
    NamesJoin(CSV_1, CSV_2);
    NamesJoin(GPKG_1 + GPKG_2, GPKG_3);
    NamesJoin(GPKG_1, GPKG_2);
  }

  /** The exported text of a quantity. */
  function Shown(r: Exported, flat: map<string, string>, q: Quantity): string {
    match q
    case Id => r.id
    case Lat => Latitude(r.position)
    case Lng => Longitude(r.position)
    case Timestamp => r.timestamp
    case DamageClass => TitleTier(r.tier)
    case Damage => r.damage
    case Infrastructure => Semicolons(r.infra)
    case InfrastructureName => Deref(r.infraName)
    case InfrastructureDetail => Deref(r.infraDetail)
    case Hazard => Semicolons(r.nature)
    case Electricity => Cell(flat, "electricity")
    case HealthServices => Cell(flat, "health_services")
    case PressingNeeds => Cell(flat, "pressing_needs")
    case PossiblyDamaged => Flag(r.possiblyDamaged)
    case Debris => r.debris
    case BuildingId => Deref(r.building)
    case VerificationState => r.verification
    case Place => r.place
    case NoteText => Description(r.note)
    case PlusCode => Deref(r.plusCode)
    case Accuracy => Deref(r.accuracy)
    case Admin1 => Deref(r.adm1)
    case Admin2 => Deref(r.adm2)
    case Admin3 => Deref(r.adm3)
    case H3Cell => H3(r.position)
  }

  function ShownAll(r: Exported, flat: map<string, string>, qs: seq<Quantity>): seq<string> {
    seq(|qs|, i requires 0 <= i < |qs| => Shown(r, flat, qs[i]))
  }

  function Cells(flat: map<string, string>, columns: seq<string>): seq<string> {
    seq(|columns|, i requires 0 <= i < |columns| => Cell(flat, columns[i]))
  }

  // ---- CSV ---------------------------------------------------------------------------

  function PlaceCells(r: Exported): seq<string> {
    [r.id, Latitude(r.position), Longitude(r.position), r.timestamp, TitleTier(r.tier)]
  }

  function DamageCells(r: Exported): seq<string> {
    [r.damage, Semicolons(r.infra), Deref(r.infraName), Deref(r.infraDetail), Semicolons(r.nature)]
  }

  function AnswerCells(r: Exported, flat: map<string, string>): seq<string> {
    [Cell(flat, "electricity"), Cell(flat, "health_services"), Cell(flat, "pressing_needs"), Flag(r.possiblyDamaged), r.debris]
  }

  function StateCells(r: Exported): seq<string> {
    [Deref(r.building), r.verification, r.place, Description(r.note), Deref(r.plusCode)]
  }

  function CodeCells(r: Exported): seq<string> {
    [Deref(r.accuracy), Deref(r.adm1), Deref(r.adm2), Deref(r.adm3), H3(r.position)]
  }

  predicate PlaceShown(r: Exported, cells: seq<string>) {
    && |cells| == 5 && cells[0] == r.id && cells[3] == r.timestamp
    && (r.position.Some? ==> cells[1] == r.position.value.lat && cells[2] == r.position.value.lng)
    && (r.position == None ==> cells[1] == "" && cells[2] == "")
    && cells[4] == if r.tier == "partial" then "Partial" else if r.tier == "complete" then "Complete" else "Minimal"
  }

  predicate DamageShown(r: Exported, cells: seq<string>) {
    && |cells| == 5 && cells[0] == r.damage && cells[1] == Semicolons(r.infra) && cells[4] == Semicolons(r.nature)
    && cells[2] == (if r.infraName.Some? then r.infraName.value else "")
    && cells[3] == (if r.infraDetail.Some? then r.infraDetail.value else "")
  }

  predicate AnswersShown(r: Exported, flat: map<string, string>, cells: seq<string>) {
    && |cells| == 5 && cells[3] == (if r.possiblyDamaged then "true" else "false") && cells[4] == r.debris
    && "electricity" in flat && cells[0] == flat["electricity"]
    && "health_services" in flat && cells[1] == flat["health_services"]
    && "pressing_needs" in flat && cells[2] == flat["pressing_needs"]
  }

  /** The description in translation if there is one. */
  predicate StateShown(r: Exported, cells: seq<string>) {
    && |cells| == 5 && cells[1] == r.verification && cells[2] == r.place
    && cells[0] == (if r.building.Some? then r.building.value else "")
    && cells[3] == (if r.note == None then "" else if r.note.value.translated != "" then r.note.value.translated
                    else r.note.value.original)
    && cells[4] == (if r.plusCode.Some? then r.plusCode.value else "")
  }

  predicate CodesShown(r: Exported, cells: seq<string>) {
    && |cells| == 5
    && cells[0] == (if r.accuracy.Some? then r.accuracy.value else "")
    && cells[1] == (if r.adm1.Some? then r.adm1.value else "")
    && cells[2] == (if r.adm2.Some? then r.adm2.value else "")
    && cells[3] == (if r.adm3.Some? then r.adm3.value else "")
    && cells[4] == (if r.position.Some? then r.position.value.h3 else "")
  }

  /** A row from the report's own fields, and its answers under the dynamic columns. */
  predicate RowShown(r: Exported, flat: map<string, string>, extras: seq<string>, row: seq<string>) {
    && |row| == 25 + |extras|
    && PlaceShown(r, row[..5]) && DamageShown(r, row[5..10]) && AnswersShown(r, flat, row[10..15])
    && StateShown(r, row[15..20]) && CodesShown(r, row[20..25])
    && forall k :: 0 <= k < |extras| ==> row[25 + k] == if extras[k] in flat then flat[extras[k]] else ""
  }

  lemma StableAnswered(u: Unicode, fields: map<string, Json>, flat: map<string, string>)
    requires Flattened(u, fields, flat)
    ensures "electricity" in flat && "health_services" in flat && "pressing_needs" in flat
  {
    StableNames();
    FlattenedMeans(u, fields, flat);
  }

  lemma PlaceAndDamage(r: Exported)
    ensures PlaceShown(r, PlaceCells(r)) && DamageShown(r, DamageCells(r))
  {}

  lemma AnswersState(r: Exported, flat: map<string, string>)
    requires "electricity" in flat && "health_services" in flat && "pressing_needs" in flat
    ensures AnswersShown(r, flat, AnswerCells(r, flat)) && StateShown(r, StateCells(r)) && CodesShown(r, CodeCells(r))
  {}

  /** Five lists of five, sliced apart again. */
  lemma Fives(a: seq<string>, b: seq<string>, c: seq<string>, d: seq<string>, e: seq<string>, rest: seq<string>)
    requires |a| == |b| == |c| == |d| == |e| == 5
    ensures var s := a + b + c + d + e + rest;
      && |s| == 25 + |rest|
      && s[..5] == a && s[5..10] == b && s[10..15] == c && s[15..20] == d && s[20..25] == e && s[25..] == rest
  {}

  lemma RowFrom(r: Exported, flat: map<string, string>, extras: seq<string>,
                a: seq<string>, b: seq<string>, c: seq<string>, d: seq<string>, e: seq<string>)
    requires PlaceShown(r, a) && DamageShown(r, b) && AnswersShown(r, flat, c) && StateShown(r, d) && CodesShown(r, e)
    ensures RowShown(r, flat, extras, a + b + c + d + e + Cells(flat, extras))
  {
    var row := a + b + c + d + e + Cells(flat, extras);
    Fives(a, b, c, d, e, Cells(flat, extras));
    assert forall k :: 0 <= k < |extras| ==> row[25 + k] == row[25..][k];
  }

  lemma RowIsShown(u: Unicode, r: Exported, flat: map<string, string>, extras: seq<string>)
    requires Flattened(u, Fields(r.modular), flat)
    ensures RowShown(r, flat, extras, ShownAll(r, flat, CSV_QUANTITIES) + Cells(flat, extras))
  {
    StableAnswered(u, Fields(r.modular), flat);
    PlaceAndDamage(r);
    AnswersState(r, flat);
    FixedCells(r, flat);
    RowFrom(r, flat, extras, PlaceCells(r), DamageCells(r), AnswerCells(r, flat), StateCells(r), CodeCells(r));
  }

  /** csvRowCells: one cell per column, each the quantity its column names. */
  method CsvRowCells(u: Unicode, r: Exported, extras: seq<string>) returns (row: seq<string>, ghost flat: map<string, string>)
    ensures Flattened(u, Fields(r.modular), flat)
    ensures row == ShownAll(r, flat, CSV_QUANTITIES) + Cells(flat, extras)
    ensures |row| == |CSV_COLUMNS| + |extras|
    ensures RowShown(r, flat, extras, row)
  {
    var answers := FlattenModular(u, r.modular);
    flat := answers;
    row := PlaceCells(r) + DamageCells(r) + AnswerCells(r, answers) + StateCells(r) + CodeCells(r);
    FixedCells(r, flat);
    ghost var fixed := row;
    for k := 0 to |extras|
      invariant row == fixed + Cells(answers, extras[..k])
    {
      row := row + [Cell(answers, extras[k])];
    }
    assert extras[..|extras|] == extras;
    RowIsShown(u, r, flat, extras);
  }

  lemma ShownPlaceCells(r: Exported, flat: map<string, string>)
    ensures ShownAll(r, flat, CSV_1) == PlaceCells(r)
  {}

  lemma ShownDamageCells(r: Exported, flat: map<string, string>)
    ensures ShownAll(r, flat, CSV_2) == DamageCells(r)
  {}

  lemma ShownAnswerCells(r: Exported, flat: map<string, string>)
    ensures ShownAll(r, flat, CSV_3) == AnswerCells(r, flat)
  {}

  lemma ShownStateCells(r: Exported, flat: map<string, string>)
    ensures ShownAll(r, flat, CSV_4) == StateCells(r)
  {}

  lemma ShownCodeCells(r: Exported, flat: map<string, string>)
    ensures ShownAll(r, flat, CSV_5) == CodeCells(r)
  {}

  lemma FixedCells(r: Exported, flat: map<string, string>)
    ensures ShownAll(r, flat, CSV_QUANTITIES)
         == PlaceCells(r) + DamageCells(r) + AnswerCells(r, flat) + StateCells(r) + CodeCells(r)
  {
    ShownJoin(r, flat, CSV_1 + CSV_2 + CSV_3 + CSV_4, CSV_5);
    ShownJoin(r, flat, CSV_1 + CSV_2 + CSV_3, CSV_4);
    ShownJoin(r, flat, CSV_1 + CSV_2, CSV_3);
    ShownJoin(r, flat, CSV_1, CSV_2);
    ShownPlaceCells(r, flat);
    ShownDamageCells(r, flat);
    ShownAnswerCells(r, flat);
    ShownStateCells(r, flat);
    ShownCodeCells(r, flat);
  }

  lemma ShownJoin(r: Exported, flat: map<string, string>, a: seq<Quantity>, b: seq<Quantity>)
    ensures ShownAll(r, flat, a + b) == ShownAll(r, flat, a) + ShownAll(r, flat, b)
  {}

  // ---- GeoPackage --------------------------------------------------------------------------

  /** A bound value: a geometry, a null geometry, an integer flag or a text. */
  datatype Bound = Geometry(blob: string) | NoGeometry | Number(n: int) | Text(s: string)

  function GpkgShown(r: Exported, flat: map<string, string>, q: Quantity): Bound {
    if q == PossiblyDamaged then Number(if r.possiblyDamaged then 1 else 0) else Text(Shown(r, flat, q))
  }

  /** The attribute columns of the feature table, beside fid and geom. */
  function AttributeColumns(extras: seq<string>): seq<string> {
    GPKG_COLUMNS + STABLE + extras
  }

  /** The column clause of the feature table and the placeholders of its insert, geometry first. */
  method Declare(extras: seq<string>) returns (ddl: seq<string>, marks: seq<string>)
    ensures |ddl| == |AttributeColumns(extras)| && |marks| == |ddl| + 1
    ensures |ddl| == 20 + |extras| && forall i :: 0 <= i < 17 ==> GPKG_COLUMNS[i] <= ddl[i]
    ensures ddl[17] == "electricity TEXT" && ddl[18] == "health_services TEXT" && ddl[19] == "pressing_needs TEXT"
    ensures forall k :: 0 <= k < |extras| ==> extras[k] <= ddl[20 + k]
    ensures forall k :: 0 <= k < |marks| ==> marks[k] == "?"
    ensures forall i :: 0 <= i < |ddl| ==>
      ddl[i] == AttributeColumns(extras)[i] + if AttributeColumns(extras)[i] == "possibly_damaged" then " INTEGER" else " TEXT"
  {
    var attrCols := GPKG_COLUMNS + STABLE;
    attrCols := attrCols + extras;
    ddl, marks := [], ["?"];
    for i := 0 to |attrCols|
      invariant |ddl| == i && |marks| == i + 1 && forall k :: 0 <= k < |marks| ==> marks[k] == "?"
      invariant forall j :: 0 <= j < i ==>
        ddl[j] == attrCols[j] + if attrCols[j] == "possibly_damaged" then " INTEGER" else " TEXT"
    {
      var t := "TEXT";
      if attrCols[i] == "possibly_damaged" {
        t := "INTEGER";
      }
      ddl := ddl + [attrCols[i] + " " + t];
      marks := marks + ["?"];
      assert " " + "TEXT" == " TEXT" && " " + "INTEGER" == " INTEGER";
      assert attrCols[i] + " " + t == attrCols[i] + (" " + t);
    }
    ColumnOrder(extras);
  }

  lemma ColumnOrder(extras: seq<string>)
    ensures |GPKG_COLUMNS| == 17 && |AttributeColumns(extras)| == 20 + |extras| && AttributeColumns(extras)[..17] == GPKG_COLUMNS
    ensures AttributeColumns(extras)[17..20] == ["electricity", "health_services", "pressing_needs"]
    ensures AttributeColumns(extras)[20..] == extras
  {}

  function GpkgShownAll(r: Exported, flat: map<string, string>, qs: seq<Quantity>): seq<Bound> {
    seq(|qs|, i requires 0 <= i < |qs| => GpkgShown(r, flat, qs[i]))
  }

  function Texts(flat: map<string, string>, columns: seq<string>): seq<Bound> {
    seq(|columns|, i requires 0 <= i < |columns| => Text(Cell(flat, columns[i])))
  }

  /** gpkgRowArgs: the geometry, then one value for every attribute column, each the one its column names. */
  method GpkgRowArgs(u: Unicode, r: Exported, extras: seq<string>) returns (args: seq<Bound>, ghost flat: map<string, string>)
    ensures Flattened(u, Fields(r.modular), flat)
    ensures args == [if r.position.Some? then Geometry(r.position.value.blob) else NoGeometry]
                    + GpkgShownAll(r, flat, GPKG_QUANTITIES) + Texts(flat, STABLE) + Texts(flat, extras)
    ensures |args| == 1 + |AttributeColumns(extras)|
    ensures ArgsShown(r, flat, extras, args)
  {
    var answers := FlattenModular(u, r.modular);
    flat := answers;
    args := BindFixed(r);
    args := BindTexts(args, answers, STABLE);
    args := BindTexts(args, answers, extras);
    FixedArgs(r, flat);
    ArgsAreShown(u, r, flat, extras);
  }

  /** The geometry and the fixed columns. */
  method BindFixed(r: Exported) returns (args: seq<Bound>)
    ensures args == FixedBound(r)
  {
    var pd := 0;
    if r.possiblyDamaged {
      pd := 1;
    }
    var blob := NoGeometry;
    if r.position.Some? {
      blob := Geometry(r.position.value.blob);
    }
    args := [blob] + WhatArgs(r, pd) + WhichArgs(r) + WhereArgs(r);
  }

  function FixedBound(r: Exported): seq<Bound> {
    [if r.position.Some? then Geometry(r.position.value.blob) else NoGeometry]
    + WhatArgs(r, if r.possiblyDamaged then 1 else 0) + WhichArgs(r) + WhereArgs(r)
  }

  /** The bound values from the report's own fields, and its answers under the stable and dynamic columns. */
  predicate ArgsShown(r: Exported, flat: map<string, string>, extras: seq<string>, args: seq<Bound>) {
    && |args| == 21 + |extras|
    && (r.position.Some? ==> args[0] == Geometry(r.position.value.blob)) && (r.position == None ==> args[0] == NoGeometry)
    && WhatShown(r, args[1..7]) && WhichShown(r, args[7..13]) && WhereShown(r, args[13..18])
    && "electricity" in flat && "health_services" in flat && "pressing_needs" in flat
    && args[18..21] == [Text(flat["electricity"]), Text(flat["health_services"]), Text(flat["pressing_needs"])]
    && forall k :: 0 <= k < |extras| ==> args[21 + k] == Text(if extras[k] in flat then flat[extras[k]] else "")
  }

  lemma ArgsFrom(r: Exported, flat: map<string, string>, extras: seq<string>,
                 blob: Bound, a: seq<Bound>, b: seq<Bound>, c: seq<Bound>, d: seq<Bound>)
    requires blob == if r.position.Some? then Geometry(r.position.value.blob) else NoGeometry
    requires WhatShown(r, a) && WhichShown(r, b) && WhereShown(r, c)
    requires "electricity" in flat && "health_services" in flat && "pressing_needs" in flat
    requires d == [Text(flat["electricity"]), Text(flat["health_services"]), Text(flat["pressing_needs"])]
    ensures ArgsShown(r, flat, extras, [blob] + a + b + c + d + Texts(flat, extras))
  {
    var args := [blob] + a + b + c + d + Texts(flat, extras);
    Slices(blob, a, b, c, d, Texts(flat, extras));
    assert forall k :: 0 <= k < |extras| ==> args[21 + k] == args[21..][k];
  }

  lemma ArgsAreShown(u: Unicode, r: Exported, flat: map<string, string>, extras: seq<string>)
    requires Flattened(u, Fields(r.modular), flat)
    ensures ArgsShown(r, flat, extras, FixedBound(r) + Texts(flat, STABLE) + Texts(flat, extras))
  {
    StableAnswered(u, Fields(r.modular), flat);
    FixedShown(r);
    StableTexts(flat);
    ArgsFrom(r, flat, extras, if r.position.Some? then Geometry(r.position.value.blob) else NoGeometry,
             WhatArgs(r, if r.possiblyDamaged then 1 else 0), WhichArgs(r), WhereArgs(r), Texts(flat, STABLE));
  }

  predicate WhatShown(r: Exported, args: seq<Bound>) {
    && |args| == 6 && args[0] == Text(r.id) && args[1] == Text(r.damage)
    && args[2] == Number(if r.possiblyDamaged then 1 else 0)
    && args[3] == Text(r.verification) && args[4] == Text(Semicolons(r.infra))
    && args[5] == Text(if r.infraName.Some? then r.infraName.value else "")
  }

  predicate WhichShown(r: Exported, args: seq<Bound>) {
    && |args| == 6 && args[1] == Text(Semicolons(r.nature)) && args[2] == Text(r.debris) && args[4] == Text(r.place)
    && args[0] == Text(if r.infraDetail.Some? then r.infraDetail.value else "")
    && args[3] == Text(if r.building.Some? then r.building.value else "")
    && args[5] == Text(if r.note == None then "" else if r.note.value.translated != "" then r.note.value.translated
                       else r.note.value.original)
  }

  predicate WhereShown(r: Exported, args: seq<Bound>) {
    && |args| == 5 && args[3] == Text(r.timestamp)
    && args[0] == Text(if r.plusCode.Some? then r.plusCode.value else "")
    && args[1] == Text(if r.adm2.Some? then r.adm2.value else "")
    && args[2] == Text(if r.adm3.Some? then r.adm3.value else "")
    && args[4] == Text(if r.position.Some? then r.position.value.h3 else "")
  }

  lemma FixedShown(r: Exported)
    ensures WhatShown(r, WhatArgs(r, if r.possiblyDamaged then 1 else 0))
    ensures WhichShown(r, WhichArgs(r)) && WhereShown(r, WhereArgs(r))
  {}

  lemma StableTexts(flat: map<string, string>)
    requires "electricity" in flat && "health_services" in flat && "pressing_needs" in flat
    ensures Texts(flat, STABLE) == [Text(flat["electricity"]), Text(flat["health_services"]), Text(flat["pressing_needs"])]
  {}

  lemma Slices(g: Bound, a: seq<Bound>, b: seq<Bound>, c: seq<Bound>, d: seq<Bound>, rest: seq<Bound>)
    requires |a| == 6 && |b| == 6 && |c| == 5 && |d| == 3
    ensures var s := [g] + a + b + c + d + rest;
      && |s| == 21 + |rest| && s[0] == g
      && s[1..7] == a && s[7..13] == b && s[13..18] == c && s[18..21] == d && s[21..] == rest
  {}

  function WhatArgs(r: Exported, pd: int): seq<Bound> {
    [Text(r.id), Text(r.damage), Number(pd), Text(r.verification), Text(Semicolons(r.infra)), Text(Deref(r.infraName))]
  }

  function WhichArgs(r: Exported): seq<Bound> {
    [Text(Deref(r.infraDetail)), Text(Semicolons(r.nature)), Text(r.debris), Text(Deref(r.building)), Text(r.place),
     Text(Description(r.note))]
  }

  function WhereArgs(r: Exported): seq<Bound> {
    [Text(Deref(r.plusCode)), Text(Deref(r.adm2)), Text(Deref(r.adm3)), Text(r.timestamp), Text(H3(r.position))]
  }

  lemma ShownWhatArgs(r: Exported, flat: map<string, string>)
    ensures GpkgShownAll(r, flat, GPKG_1) == WhatArgs(r, if r.possiblyDamaged then 1 else 0)
  {}

  lemma ShownWhichArgs(r: Exported, flat: map<string, string>)
    ensures GpkgShownAll(r, flat, GPKG_2) == WhichArgs(r)
  {}

  lemma ShownWhereArgs(r: Exported, flat: map<string, string>)
    ensures GpkgShownAll(r, flat, GPKG_3) == WhereArgs(r)
  {}

  lemma FixedArgs(r: Exported, flat: map<string, string>)
    ensures GpkgShownAll(r, flat, GPKG_QUANTITIES)
         == WhatArgs(r, if r.possiblyDamaged then 1 else 0) + WhichArgs(r) + WhereArgs(r)
    ensures FixedBound(r) == [if r.position.Some? then Geometry(r.position.value.blob) else NoGeometry]
                             + GpkgShownAll(r, flat, GPKG_QUANTITIES)
  {
    GpkgShownJoin(r, flat, GPKG_1 + GPKG_2, GPKG_3);
    GpkgShownJoin(r, flat, GPKG_1, GPKG_2);
    ShownWhatArgs(r, flat);
    ShownWhichArgs(r, flat);
    ShownWhereArgs(r, flat);
    ConsJoin(if r.position.Some? then Geometry(r.position.value.blob) else NoGeometry,
             WhatArgs(r, if r.possiblyDamaged then 1 else 0), WhichArgs(r), WhereArgs(r));
  }

  lemma ConsJoin(g: Bound, a: seq<Bound>, b: seq<Bound>, c: seq<Bound>)
    ensures [g] + a + b + c == [g] + (a + b + c)
  {}

  lemma GpkgShownJoin(r: Exported, flat: map<string, string>, a: seq<Quantity>, b: seq<Quantity>)
    ensures GpkgShownAll(r, flat, a + b) == GpkgShownAll(r, flat, a) + GpkgShownAll(r, flat, b)
  {}

  method BindTexts(args0: seq<Bound>, flat: map<string, string>, columns: seq<string>) returns (args: seq<Bound>)
    ensures args == args0 + Texts(flat, columns)
  {
    args := args0;
    for k := 0 to |columns|
      invariant args == args0 + Texts(flat, columns[..k])
    {
      args := args + [Text(Cell(flat, columns[k]))];
    }
    assert columns[..|columns|] == columns;
  }

  /** Lists in fixed columns are joined like list answers. */
  lemma {:induction false} SemicolonsJoin(parts: seq<string>)
    ensures Semicolons(parts) == FlatValue(JArray(Strings(parts)))
    ensures parts != [] && (forall i :: 0 <= i < |parts| ==> ';' !in parts[i]) ==> SplitSemicolons(Semicolons(parts)) == parts
  {
    var items := Strings(parts);
    assert FlatValue(JArray(items)) == JoinedItems(items);
    if |parts| == 1 {
      assert FlatValue(items[0]) == parts[0];
    } else if parts != [] {
      SemicolonsJoin(parts[1..]);
      assert items[1..] == Strings(parts[1..]);
      assert FlatValue(JArray(items[1..])) == JoinedItems(items[1..]);
      assert FlatValue(items[0]) == parts[0];
    }
    if parts != [] && forall i :: 0 <= i < |parts| ==> ';' !in parts[i] {
      ListAnswersReadBack(parts);
    }
  }

  // ---- no two columns alike ------------------------------------------------------------------

  lemma {:induction false} JoinDistinct(a: seq<string>, b: seq<string>)
    requires AllDistinct(a) && AllDistinct(b) && forall c :: c in a ==> c !in b
    ensures AllDistinct(a + b)
  {
    forall i, j | 0 <= i < j < |a + b|
      ensures (a + b)[i] != (a + b)[j]
    {
      if i < |a| <= j {
        assert a[i] in a && b[j - |a|] in b;
      }
    }
  }

  /** A rank per name tells the fixed names of the feature table apart. */
  function Rank(c: string): int {
    if c == "fid" then 0 else if c == "geom" then 1 else if c == "electricity" then 19 else if c == "health_services" then 20
    else if c == "pressing_needs" then 21 else if c == "id" then 2 else if c == "damage" then 3
    else if c == "possibly_damaged" then 4 else if c == "verification" then 5 else if c == "infrastructure" then 6
    else if c == "infrastructure_name" then 7 else if c == "infrastructure_other_detail" then 8 else if c == "crisis" then 9
    else if c == "debris" then 10 else if c == "building_id" then 11 else if c == "place" then 12
    else if c == "description" then 13 else if c == "plus_code" then 14 else if c == "admin2_pcode" then 15
    else if c == "admin3_pcode" then 16 else if c == "captured_at" then 17 else 18
  }

  lemma FixedNamesDistinct()
    ensures AllDistinct(["fid", "geom"] + GPKG_COLUMNS + STABLE)
  {
    var names := ["fid", "geom"] + GPKG_COLUMNS + STABLE;
    assert forall i :: 0 <= i < 22 ==> Rank(names[i]) == i;
  }

  /** Every column of the feature table has a name of its own: fid, geom, fixed, stable and dynamic ones together. */
  lemma GpkgColumnsDistinct(u: Unicode, keys: set<string>, extras: seq<string>)
    requires Planned(u, keys, GPKG_COLUMNS, extras)
    ensures AllDistinct(["fid", "geom"] + AttributeColumns(extras))
  {
    var fixed := ["fid", "geom"] + GPKG_COLUMNS + STABLE;
    PlanIsClean(u, keys, GPKG_COLUMNS, extras);
    FixedNamesDistinct();
    JoinDistinct(fixed, extras);
    assert ["fid", "geom"] + AttributeColumns(extras) == fixed + extras;
  }
}
