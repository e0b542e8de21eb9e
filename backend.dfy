/**
 * The spreadsheet endpoint (sheetscrpt.js). `DoPost` appends one report as a
 * row of the sheet its `reportType` selects, creating that sheet with its
 * header row first when it is missing; `DoGet` turns every sheet into a list
 * of records keyed by the sheet's header row.
 *
 * The spreadsheet is a map from sheet name to rows of text cells. The clock,
 * JSON parsing and the Drive upload are inputs: a timestamp string, an
 * already parsed body (or the parser's error message) and a `Drive` outcome.
 */
module Backend {
  import opened Wrappers
  import Ranking
  import opened Text
  import Types

  // ---- the request ----

  /**
   * A parsed JSON body: each field present, with the text it holds (numbers
   * as their decimal text), and the optional location object.
   */
  datatype Payload = Payload(fields: map<string, string>, location: Option<Types.Location>)

  /** `e.postData.contents` after `JSON.parse`: a body, or the parser's error message. */
  datatype PostData = Parsed(payload: Payload) | Unparsable(message: string)

  /** What the Drive step does with a photo: stores it under a file id, or throws. */
  datatype Drive = Stored(fileId: string) | Refused

  /** `data.key` is truthy: present and not the empty string. */
  predicate Truthy(p: Payload, key: string) {
    key in p.fields && p.fields[key] != ""
  }

  /** `data.key || "-"` */
  function OrDash(p: Payload, key: string): string {
    if Truthy(p, key) then p.fields[key] else "-"
  }

  /** The cell written for `row.push(data.key)`: an absent field leaves the cell blank. */
  function Cell(p: Payload, key: string): string {
    if key in p.fields then p.fields[key] else ""
  }

  /** `data.key` inside a string concatenation: an absent field reads "undefined". */
  function Piece(p: Payload, key: string): string {
    if key in p.fields then p.fields[key] else "undefined"
  }

  /** `data.reportType || 'generic'` */
  function ReportType(p: Payload): string {
    if Truthy(p, "reportType") then p.fields["reportType"] else "generic"
  }

  // ---- which sheet, which columns ----

  /** The report types the script knows, and everything else. */
  datatype Kind =
    | Problem | DamageReport | Inventory | JobCompletion | VehicleLog
    | ModemSetup | PortChange | Improvement | Generic

  /** The `switch(reportType)`: any other value keeps the generic defaults. */
  function KindOf(reportType: string): (k: Kind)
    ensures k == Generic <==>
      reportType !in {"problem", "damage_report", "inventory", "job_completion",
                      "vehicle_log", "modem_setup", "port_change", "improvement"}
  {
    match reportType
    case "problem" => Problem
    case "damage_report" => DamageReport
    case "inventory" => Inventory
    case "job_completion" => JobCompletion
    case "vehicle_log" => VehicleLog
    case "modem_setup" => ModemSetup
    case "port_change" => PortChange
    case "improvement" => Improvement
    case _ => Generic
  }

  function SheetName(k: Kind): string {
    match k
    case Problem => "Sorunlar"
    case DamageReport => "Hasar Tespitleri"
    case Inventory => "Envanter Kayıtları"
    case JobCompletion => "İş Tamamlamalar"
    case VehicleLog => "Araç Kayıtları"
    case ModemSetup => "Modem Kurulumlar"
    case PortChange => "Port Değişimleri"
    case Improvement => "İyileştirmeler"
    case Generic => "Kayıtlar"
  }

  /** Where a column's cell comes from. */
  datatype Source =
    | Stamp                                   // the formatted time of the request
    | Team                                    // `data.ekipKodu || "-"`
    | Field(key: string)                      // `data.key`
    | FieldOrDash(key: string)                // `data.key || "-"`
    | Joined(left: string, sep: string, right: string)  // `data.left + sep + data.right`
    | Place                                   // the location text
    | Picture                                 // the photo cell

  datatype Column = Column(header: string, source: Source)

  const StampColumn := Column("Zaman Damgası", Stamp)
  const TeamColumn := Column("Ekip", Team)

  /**
   * The sheet layout of each report type: the header of every column, in
   * order, with the payload field whose value the script writes under it.
   */
  function Schema(k: Kind): seq<Column> {
    match k
    case Problem => ProblemLayout()
    case DamageReport => DamageLayout()
    case Inventory => InventoryLayout()
    case JobCompletion => JobCompletionLayout()
    case VehicleLog => VehicleLayout()
    case ModemSetup => ModemLayout()
    case PortChange => PortLayout()
    case Improvement => ImprovementLayout()
    case Generic => [StampColumn, TeamColumn]
  }

  function ProblemLayout(): seq<Column> {
    [StampColumn, TeamColumn,
     Column("Hizmet No", Field("hizmetNo")), Column("Saha", Field("saha")),
     Column("Kutu", Field("kutu")), Column("Sorun", Field("sorunTipi")),
     Column("Açıklama", Field("aciklama")), Column("Konum", Place), Column("Foto", Picture)]
  }

  function DamageLayout(): seq<Column> {
    [StampColumn, TeamColumn,
     Column("Proje ID", Field("projeId")), Column("Hasar Yapan", Field("hasarYapanAdSoyad")),
     Column("TC/Vergi", Joined("tcKimlik", "/", "vergiNo")), Column("İletişim", Field("telNo")),
     Column("Adres", Field("hasarYapanAdres")), Column("Tarih/Saat", Joined("hasarTarihi", " ", "hasarSaati")),
     Column("Yer", Field("hasarYeri")), Column("Oluş Şekli", Field("hasarOlusSekli")),
     Column("Miktar", Field("tesisCinsiMiktari")), Column("Abone", Field("etkilenenAboneSayisi")),
     Column("Düzenleyen", Field("duzenleyenPersonel")), Column("Ünvan", Field("duzenleyenUnvan")),
     Column("Tanık", Field("tanikBilgileri")), Column("Güvenlik", Field("guvenlikGorevlisi")),
     Column("İhbar", Field("ihbarEden")), Column("Malzeme", Field("kullanilanMalzemeler")),
     Column("Konum", Place), Column("Foto", Picture)]
  }

  function InventoryLayout(): seq<Column> {
    [StampColumn, TeamColumn,
     Column("İşlem", Field("actionType")), Column("Seri No", Field("serialNumber")),
     Column("Hizmet No", FieldOrDash("hizmetNo")), Column("Tip", Field("deviceType"))]
  }

  function JobCompletionLayout(): seq<Column> {
    [StampColumn, TeamColumn,
     Column("Hizmet No", Field("hizmetNo")), Column("Tip", Field("isTipi")), Column("Adet", Field("isAdedi"))]
  }

  function VehicleLayout(): seq<Column> {
    [StampColumn, TeamColumn, Column("Plaka", Field("plaka")), Column("KM", Field("kilometre"))]
  }

  function ModemLayout(): seq<Column> {
    [StampColumn, TeamColumn,
     Column("Hizmet No", Field("hizmetNo")), Column("Modem", Field("modemTipi")), Column("Notlar", Field("aciklama"))]
  }

  function PortLayout(): seq<Column> {
    [StampColumn, TeamColumn,
     Column("Hizmet No", Field("hizmetNo")), Column("Port", Field("yeniPort")),
     Column("Devre", Field("yeniDevre")), Column("Notlar", Field("aciklama"))]
  }

  function ImprovementLayout(): seq<Column> {
    [StampColumn, TeamColumn,
     Column("Yer", Field("yerlesimAdi")), Column("Tarih", Field("bakimTarihi")),
     Column("Kablo", Field("kabloDurumu")), Column("Menhol", Field("menholDurumu")),
     Column("Direk", Field("direkDurumu")), Column("Donanım", Field("direkDonanimDurumu")),
     Column("Kutu", Field("kutuKabinDurumu")), Column("Puan", Field("takdirPuani")),
     Column("Konum", Place), Column("Foto", Picture)]
  }

  /** The header row written when the sheet is created. */
  function Headers(k: Kind): (h: seq<string>)
    ensures |h| == |Schema(k)|
    ensures forall i | 0 <= i < |h| :: h[i] == Schema(k)[i].header
  {
    seq(|Schema(k)|, i requires 0 <= i < |Schema(k)| => Schema(k)[i].header)
  }

  // ---- the cells ----

  /** `data.location ? (lat + "," + lng) : "-"` */
  function LocationCell(p: Payload): (c: string)
    ensures c == "-" <==> p.location.None?
    ensures p.location.Some? ==> |c| == |p.location.value.lat| + 1 + |p.location.value.lng|
    ensures p.location.Some? ==> c[..|p.location.value.lat|] == p.location.value.lat
    ensures p.location.Some? ==> c[|p.location.value.lat|] == ',' && c[|p.location.value.lat| + 1..] == p.location.value.lng
  {
    match p.location
    case Some(loc) =>
      var c := loc.lat + "," + loc.lng;
      assert c[|loc.lat|] == ',' && c[..|loc.lat|] == loc.lat && c[|loc.lat| + 1..] == loc.lng;
      assert c != "-" by {
        if |c| == 1 { assert loc.lat == [] && c[0] == ','; }
      }
      c
    case None => "-"
  }

  const DriveFallbackTag := "DRIVE_IZIN_YOK_VERI: "

  /** The formula that shows a stored photo in its cell. */
  function ImageFormula(fileId: string): (f: string)
    ensures StartsWith(f, "=IMAGE")
  {
    var f := "=IMAGE" + ("(\"https://drive.google.com/uc?export=view&id=" + fileId + "\")");
    assert f[..|"=IMAGE"|] == "=IMAGE";
    f
  }

  /** The photo is a data URL worth uploading: `data.photo && data.photo.includes("base64")`. */
  predicate HasPhoto(p: Payload) {
    Truthy(p, "photo") && Contains(p.fields["photo"], "base64")
  }

  /**
   * `photoData`: blank without a base64 photo; the image formula when Drive
   * stores it; otherwise the fallback tag and the first 30000 characters of
   * the photo (all of a shorter one). Taking the base64 part needs a ',' in the
   * photo (`split(',')[1]`): without one the upload throws as well.
   */
  function PhotoCell(p: Payload, drive: Drive): (c: string)
    ensures !HasPhoto(p) ==> c == ""
    ensures HasPhoto(p) && drive.Stored? && ',' in p.fields["photo"] ==> c == ImageFormula(drive.fileId)
    ensures HasPhoto(p) && (drive.Refused? || ',' !in p.fields["photo"]) ==>
      c == DriveFallbackTag + Ranking.Top(p.fields["photo"], 30000)
  {
    if !HasPhoto(p) then ""
    else
      var photo := p.fields["photo"];
      if drive.Stored? && ',' in photo then ImageFormula(drive.fileId)
      else
        DriveFallbackTag + Ranking.Top(photo, 30000)
  }

  /**
   * The fallback cell is the tag followed by exactly the first
   * min(|photo|, 30000) characters of the photo.
   */
  lemma PhotoFallbackKeepsStart(p: Payload, drive: Drive)
    requires HasPhoto(p) && (drive.Refused? || ',' !in p.fields["photo"])
    ensures var c := PhotoCell(p, drive);
      var kept := if |p.fields["photo"]| <= 30000 then |p.fields["photo"]| else 30000;
      && StartsWith(c, DriveFallbackTag)
      && |c| == |DriveFallbackTag| + kept
      && c[|DriveFallbackTag|..] == p.fields["photo"][..kept]
  {
    var c := PhotoCell(p, drive);
    assert c[..|DriveFallbackTag|] == DriveFallbackTag;
  }

  function Eval(src: Source, p: Payload, timestamp: string, photo: string): string {
    match src
    case Stamp => timestamp
    case Team => OrDash(p, "ekipKodu")
    case Field(key) => Cell(p, key)
    case FieldOrDash(key) => OrDash(p, key)
    case Joined(left, sep, right) => Piece(p, left) + sep + Piece(p, right)
    case Place => LocationCell(p)
    case Picture => photo
  }

  /** Each column's cell, in order. */
  function Cells(cols: seq<Column>, p: Payload, timestamp: string, photo: string): (row: seq<string>)
    ensures |row| == |cols|
    ensures forall i | 0 <= i < |cols| :: row[i] == Eval(cols[i].source, p, timestamp, photo)
  {
    if cols == [] then []
    else [Eval(cols[0].source, p, timestamp, photo)] + Cells(cols[1..], p, timestamp, photo)
  }

  /** The row the layout of `k` calls for. */
  function SchemaRow(k: Kind, p: Payload, timestamp: string, photo: string): (row: seq<string>)
    ensures |row| == |Headers(k)|
  {
    Cells(Schema(k), p, timestamp, photo)
  }

  // ---- the cells each case of the script's switch pushes, in order ----

  function ProblemPush(p: Payload, place: string, photo: string): seq<string> {
    [Cell(p, "hizmetNo"), Cell(p, "saha"), Cell(p, "kutu"), Cell(p, "sorunTipi"),
     Cell(p, "aciklama"), place, photo]
  }

  function DamagePush(p: Payload, place: string, photo: string): seq<string> {
    [Cell(p, "projeId"), Cell(p, "hasarYapanAdSoyad"),
     Piece(p, "tcKimlik") + "/" + Piece(p, "vergiNo"), Cell(p, "telNo"),
     Cell(p, "hasarYapanAdres"), Piece(p, "hasarTarihi") + " " + Piece(p, "hasarSaati"),
     Cell(p, "hasarYeri"), Cell(p, "hasarOlusSekli"), Cell(p, "tesisCinsiMiktari"),
     Cell(p, "etkilenenAboneSayisi"), Cell(p, "duzenleyenPersonel"),
     Cell(p, "duzenleyenUnvan"), Cell(p, "tanikBilgileri"), Cell(p, "guvenlikGorevlisi"),
     Cell(p, "ihbarEden"), Cell(p, "kullanilanMalzemeler"), place, photo]
  }

  function InventoryPush(p: Payload): seq<string> {
    [Cell(p, "actionType"), Cell(p, "serialNumber"), OrDash(p, "hizmetNo"), Cell(p, "deviceType")]
  }

  function JobCompletionPush(p: Payload): seq<string> {
    [Cell(p, "hizmetNo"), Cell(p, "isTipi"), Cell(p, "isAdedi")]
  }

  function VehiclePush(p: Payload): seq<string> {
    [Cell(p, "plaka"), Cell(p, "kilometre")]
  }

  function ModemPush(p: Payload): seq<string> {
    [Cell(p, "hizmetNo"), Cell(p, "modemTipi"), Cell(p, "aciklama")]
  }

  function PortPush(p: Payload): seq<string> {
    [Cell(p, "hizmetNo"), Cell(p, "yeniPort"), Cell(p, "yeniDevre"), Cell(p, "aciklama")]
  }

  function ImprovementPush(p: Payload, place: string, photo: string): seq<string> {
    [Cell(p, "yerlesimAdi"), Cell(p, "bakimTarihi"), Cell(p, "kabloDurumu"),
     Cell(p, "menholDurumu"), Cell(p, "direkDurumu"), Cell(p, "direkDonanimDurumu"),
     Cell(p, "kutuKabinDurumu"), Cell(p, "takdirPuani"), place, photo]
  }

  /** The two cells every row starts with. */
  function Lead(p: Payload, timestamp: string): seq<string> {
    [timestamp, OrDash(p, "ekipKodu")]
  }

  // ---- each case's pushes line up with its layout, column by column ----

  /** `row` holds, column by column, the cells `cols` call for. */
  predicate Follows(row: seq<string>, cols: seq<Column>, p: Payload, timestamp: string, photo: string) {
    |row| == |cols| && forall i | 0 <= i < |row| :: row[i] == Eval(cols[i].source, p, timestamp, photo)
  }

  lemma FollowsIsCells(row: seq<string>, cols: seq<Column>, p: Payload, timestamp: string, photo: string)
    requires Follows(row, cols, p, timestamp, photo)
    ensures row == Cells(cols, p, timestamp, photo)
  {
  }

  lemma ProblemPushFollowsLayout(p: Payload, timestamp: string, photo: string)
    ensures Follows(Lead(p, timestamp) + ProblemPush(p, LocationCell(p), photo), ProblemLayout(), p, timestamp, photo)
  {
    var row := Lead(p, timestamp) + ProblemPush(p, LocationCell(p), photo);
    var cols := ProblemLayout();
    assert |row| == |cols|;
    forall i | 0 <= i < |row| ensures row[i] == Eval(cols[i].source, p, timestamp, photo) {
      match i
      case 0 => case 1 => case 2 => case 3 => case 4 => case 5 => case 6 => case 7 => case 8 =>
    }
  }

  lemma DamagePushFollowsLayout(p: Payload, timestamp: string, photo: string)
    ensures Follows(Lead(p, timestamp) + DamagePush(p, LocationCell(p), photo), DamageLayout(), p, timestamp, photo)
  {
    DamageFrontFollows(p, timestamp, photo);
    DamageBackFollows(p, timestamp, photo);
  }

  lemma DamageFrontFollows(p: Payload, timestamp: string, photo: string)
    ensures |Lead(p, timestamp) + DamagePush(p, LocationCell(p), photo)| == |DamageLayout()| == 20
    ensures forall i | 0 <= i < 10 :: (Lead(p, timestamp) + DamagePush(p, LocationCell(p), photo))[i]
                                      == Eval(DamageLayout()[i].source, p, timestamp, photo)
  {
    var row := Lead(p, timestamp) + DamagePush(p, LocationCell(p), photo);
    var cols := DamageLayout();
    forall i | 0 <= i < 10 ensures row[i] == Eval(cols[i].source, p, timestamp, photo) {
      match i
      case 0 => case 1 => case 2 => case 3 => case 4 => case 5 => case 6 => case 7 => case 8 => case 9 =>
    }
  }

  lemma DamageBackFollows(p: Payload, timestamp: string, photo: string)
    ensures forall i | 10 <= i < 20 :: (Lead(p, timestamp) + DamagePush(p, LocationCell(p), photo))[i]
                                       == Eval(DamageLayout()[i].source, p, timestamp, photo)
  {
    var row := Lead(p, timestamp) + DamagePush(p, LocationCell(p), photo);
    var cols := DamageLayout();
    assert |row| == |cols| == 20;
    forall i | 10 <= i < 20 ensures row[i] == Eval(cols[i].source, p, timestamp, photo) {
      match i
      case 10 => case 11 => case 12 => case 13 => case 14 => case 15 => case 16 => case 17 => case 18 => case 19 =>
    }
  }

  lemma InventoryPushFollowsLayout(p: Payload, timestamp: string, photo: string)
    ensures Follows(Lead(p, timestamp) + InventoryPush(p), InventoryLayout(), p, timestamp, photo)
  {
    var row := Lead(p, timestamp) + InventoryPush(p);
    var cols := InventoryLayout();
    assert |row| == |cols|;
    forall i | 0 <= i < |row| ensures row[i] == Eval(cols[i].source, p, timestamp, photo) {
      match i
      case 0 => case 1 => case 2 => case 3 => case 4 => case 5 =>
    }
  }

  lemma JobCompletionPushFollowsLayout(p: Payload, timestamp: string, photo: string)
    ensures Follows(Lead(p, timestamp) + JobCompletionPush(p), JobCompletionLayout(), p, timestamp, photo)
  {
    var row := Lead(p, timestamp) + JobCompletionPush(p);
    var cols := JobCompletionLayout();
    assert |row| == |cols|;
    forall i | 0 <= i < |row| ensures row[i] == Eval(cols[i].source, p, timestamp, photo) {
      match i
      case 0 => case 1 => case 2 => case 3 => case 4 =>
    }
  }

  lemma VehiclePushFollowsLayout(p: Payload, timestamp: string, photo: string)
    ensures Follows(Lead(p, timestamp) + VehiclePush(p), VehicleLayout(), p, timestamp, photo)
  {
    var row := Lead(p, timestamp) + VehiclePush(p);
    var cols := VehicleLayout();
    assert |row| == |cols|;
    forall i | 0 <= i < |row| ensures row[i] == Eval(cols[i].source, p, timestamp, photo) {
      match i
      case 0 => case 1 => case 2 => case 3 =>
    }
  }

  lemma ModemPushFollowsLayout(p: Payload, timestamp: string, photo: string)
    ensures Follows(Lead(p, timestamp) + ModemPush(p), ModemLayout(), p, timestamp, photo)
  {
    var row := Lead(p, timestamp) + ModemPush(p);
    var cols := ModemLayout();
    assert |row| == |cols|;
    forall i | 0 <= i < |row| ensures row[i] == Eval(cols[i].source, p, timestamp, photo) {
      match i
      case 0 => case 1 => case 2 => case 3 => case 4 =>
    }
  }

  lemma PortPushFollowsLayout(p: Payload, timestamp: string, photo: string)
    ensures Follows(Lead(p, timestamp) + PortPush(p), PortLayout(), p, timestamp, photo)
  {
    var row := Lead(p, timestamp) + PortPush(p);
    var cols := PortLayout();
    assert |row| == |cols|;
    forall i | 0 <= i < |row| ensures row[i] == Eval(cols[i].source, p, timestamp, photo) {
      match i
      case 0 => case 1 => case 2 => case 3 => case 4 => case 5 =>
    }
  }

  lemma ImprovementPushFollowsLayout(p: Payload, timestamp: string, photo: string)
    ensures Follows(Lead(p, timestamp) + ImprovementPush(p, LocationCell(p), photo), ImprovementLayout(), p, timestamp, photo)
  {
    var row := Lead(p, timestamp) + ImprovementPush(p, LocationCell(p), photo);
    var cols := ImprovementLayout();
    assert |row| == |cols|;
    forall i | 0 <= i < |row| ensures row[i] == Eval(cols[i].source, p, timestamp, photo) {
      match i
      case 0 => case 1 => case 2 => case 3 => case 4 => case 5 => case 6 => case 7 => case 8 => case 9 =>
      case 10 => case 11 =>
    }
  }

  lemma ProblemRowIsSchemaRow(p: Payload, timestamp: string, photo: string)
    ensures Lead(p, timestamp) + ProblemPush(p, LocationCell(p), photo) == SchemaRow(Problem, p, timestamp, photo)
  {
    ProblemPushFollowsLayout(p, timestamp, photo);
    FollowsIsCells(Lead(p, timestamp) + ProblemPush(p, LocationCell(p), photo), ProblemLayout(), p, timestamp, photo);
  }

  lemma DamageRowIsSchemaRow(p: Payload, timestamp: string, photo: string)
    ensures Lead(p, timestamp) + DamagePush(p, LocationCell(p), photo) == SchemaRow(DamageReport, p, timestamp, photo)
  {
    DamagePushFollowsLayout(p, timestamp, photo);
    FollowsIsCells(Lead(p, timestamp) + DamagePush(p, LocationCell(p), photo), DamageLayout(), p, timestamp, photo);
  }

  lemma InventoryRowIsSchemaRow(p: Payload, timestamp: string, photo: string)
    ensures Lead(p, timestamp) + InventoryPush(p) == SchemaRow(Inventory, p, timestamp, photo)
  {
    InventoryPushFollowsLayout(p, timestamp, photo);
    FollowsIsCells(Lead(p, timestamp) + InventoryPush(p), InventoryLayout(), p, timestamp, photo);
  }

  lemma JobCompletionRowIsSchemaRow(p: Payload, timestamp: string, photo: string)
    ensures Lead(p, timestamp) + JobCompletionPush(p) == SchemaRow(JobCompletion, p, timestamp, photo)
  {
    JobCompletionPushFollowsLayout(p, timestamp, photo);
    FollowsIsCells(Lead(p, timestamp) + JobCompletionPush(p), JobCompletionLayout(), p, timestamp, photo);
  }

  lemma VehicleRowIsSchemaRow(p: Payload, timestamp: string, photo: string)
    ensures Lead(p, timestamp) + VehiclePush(p) == SchemaRow(VehicleLog, p, timestamp, photo)
  {
    VehiclePushFollowsLayout(p, timestamp, photo);
    FollowsIsCells(Lead(p, timestamp) + VehiclePush(p), VehicleLayout(), p, timestamp, photo);
  }

  lemma ModemRowIsSchemaRow(p: Payload, timestamp: string, photo: string)
    ensures Lead(p, timestamp) + ModemPush(p) == SchemaRow(ModemSetup, p, timestamp, photo)
  {
    ModemPushFollowsLayout(p, timestamp, photo);
    FollowsIsCells(Lead(p, timestamp) + ModemPush(p), ModemLayout(), p, timestamp, photo);
  }

  lemma PortRowIsSchemaRow(p: Payload, timestamp: string, photo: string)
    ensures Lead(p, timestamp) + PortPush(p) == SchemaRow(PortChange, p, timestamp, photo)
  {
    PortPushFollowsLayout(p, timestamp, photo);
    FollowsIsCells(Lead(p, timestamp) + PortPush(p), PortLayout(), p, timestamp, photo);
  }

  lemma ImprovementRowIsSchemaRow(p: Payload, timestamp: string, photo: string)
    ensures Lead(p, timestamp) + ImprovementPush(p, LocationCell(p), photo) == SchemaRow(Improvement, p, timestamp, photo)
  {
    ImprovementPushFollowsLayout(p, timestamp, photo);
    FollowsIsCells(Lead(p, timestamp) + ImprovementPush(p, LocationCell(p), photo), ImprovementLayout(), p, timestamp, photo);
  }

  /**
   * `let row = [timestamp, data.ekipKodu || "-"]` followed by the pushes of
   * the `switch (reportType)` case: the row the script builds is the one the
   * layout of the report's kind calls for, cell for cell, so it is exactly
   * as wide as the header row written above it.
   */
  method BuildRow(p: Payload, timestamp: string, photo: string) returns (row: seq<string>)
    ensures row == SchemaRow(KindOf(ReportType(p)), p, timestamp, photo)
  {
    var reportType := ReportType(p);
    var locationStr := LocationCell(p);
    row := [timestamp, OrDash(p, "ekipKodu")];
    match reportType
    case "problem" =>
      row := row + ProblemPush(p, locationStr, photo);
      ProblemRowIsSchemaRow(p, timestamp, photo);
    case "damage_report" =>
      row := row + DamagePush(p, locationStr, photo);
      DamageRowIsSchemaRow(p, timestamp, photo);
    case "inventory" =>
      row := row + InventoryPush(p);
      InventoryRowIsSchemaRow(p, timestamp, photo);
    case "job_completion" =>
      row := row + JobCompletionPush(p);
      JobCompletionRowIsSchemaRow(p, timestamp, photo);
    case "vehicle_log" =>
      row := row + VehiclePush(p);
      VehicleRowIsSchemaRow(p, timestamp, photo);
    case "modem_setup" =>
      row := row + ModemPush(p);
      ModemRowIsSchemaRow(p, timestamp, photo);
    case "port_change" =>
      row := row + PortPush(p);
      PortRowIsSchemaRow(p, timestamp, photo);
    case "improvement" =>
      row := row + ImprovementPush(p, locationStr, photo);
      ImprovementRowIsSchemaRow(p, timestamp, photo);
    case _ =>
      FollowsIsCells(row, Schema(Generic), p, timestamp, photo);
  }

  // ---- the spreadsheet ----

  /** The active spreadsheet: each sheet's name and its rows of cells. */
  class Spreadsheet {
    var sheets: map<string, seq<seq<string>>>

    constructor(initial: map<string, seq<seq<string>>>)
      ensures sheets == initial
    {
      sheets := initial;
    }

    /** `ss.insertSheet(name)`: a new, empty sheet. */
    method InsertSheet(name: string)
      requires name !in sheets
      modifies this
      ensures sheets == old(sheets)[name := []]
    {
      sheets := sheets[name := []];
    }

    /** `sheet.appendRow(row)`: `row` becomes the sheet's last row. */
    method AppendRow(name: string, row: seq<string>)
      requires name in sheets
      modifies this
      ensures sheets == old(sheets)[name := old(sheets)[name] + [row]]
    {
      sheets := sheets[name := sheets[name] + [row]];
    }
  }

  /**
   * The sheets after `row` is appended to sheet `name`, which is first
   * created with `header` as its first row when it does not exist.
   */
  function AppendTo(sheets: map<string, seq<seq<string>>>, name: string, header: seq<string>, row: seq<string>)
    : (after: map<string, seq<seq<string>>>)
    ensures after.Keys == sheets.Keys + {name}
    ensures name in sheets ==> after[name] == sheets[name] + [row]
    ensures name !in sheets ==> after[name] == [header, row]
    ensures forall n | n in sheets && n != name :: after[n] == sheets[n]
  {
    var existing := if name in sheets then sheets[name] else [header];
    sheets[name := existing + [row]]
  }

  /** The sheets after a successful post of `p`. */
  function Posted(sheets: map<string, seq<seq<string>>>, p: Payload, timestamp: string, drive: Drive)
    : map<string, seq<seq<string>>>
  {
    var k := KindOf(ReportType(p));
    AppendTo(sheets, SheetName(k), Headers(k), SchemaRow(k, p, timestamp, PhotoCell(p, drive)))
  }

  /**
   * `doPost(e)`: without a body the answer is "Hata: Veri Yok"; a body that
   * does not parse is answered with "Hata: " and the parser's message; both
   * leave the spreadsheet as it was. Otherwise the report's row is appended
   * to its sheet (created with its header row when missing) and the answer
   * is "Başarılı".
   */
  method DoPost(ss: Spreadsheet, request: Option<PostData>, timestamp: string, drive: Drive)
    returns (response: string)
    modifies ss
    ensures request.None? ==> response == "Hata: Veri Yok" && ss.sheets == old(ss.sheets)
    ensures request.Some? && request.value.Unparsable? ==>
      response == "Hata: " + request.value.message && ss.sheets == old(ss.sheets)
    ensures request.Some? && request.value.Parsed? ==>
      response == "Başarılı" && ss.sheets == Posted(old(ss.sheets), request.value.payload, timestamp, drive)
  {
    match request
    case None =>
      return "Hata: Veri Yok";
    case Some(Unparsable(message)) =>
      return "Hata: " + message;
    case Some(Parsed(p)) =>
      var k := KindOf(ReportType(p));
      var sheetName := SheetName(k);
      var headers := Headers(k);
      if sheetName !in ss.sheets {
        ss.InsertSheet(sheetName);
        ss.AppendRow(sheetName, headers);
        assert [] + [headers] == [headers];
        assert ss.sheets == old(ss.sheets)[sheetName := [headers]];
      }
      var photoData := PhotoCell(p, drive);
      var row := BuildRow(p, timestamp, photoData);
      ss.AppendRow(sheetName, row);
      assert ss.sheets == AppendTo(old(ss.sheets), sheetName, headers, row);
      return "Başarılı";
  }

  // ---- reading the sheets back ----

  /** A row as the object `doGet` builds: header text to cell. */
  type Record = map<string, string>

  /** The width of `getDataRange()`: the longest row. */
  function Width(rows: seq<seq<string>>): (w: nat)
    ensures forall i | 0 <= i < |rows| :: |rows[i]| <= w
    ensures rows == [] ==> w == 0
    ensures rows != [] ==> exists i | 0 <= i < |rows| :: |rows[i]| == w
  {
    if rows == [] then 0
    else
      var rest := Width(rows[1..]);
      if |rows[0]| >= rest then |rows[0]|
      else
        assert forall i | 1 <= i < |rows| :: rows[i] == rows[1..][i - 1];
        rest
  }

  /** A row filled up with blank cells to `w` columns. */
  function Pad(row: seq<string>, w: nat): (r: seq<string>)
    requires |row| <= w
    ensures |r| == w && r[..|row|] == row
    ensures forall i | |row| <= i < w :: r[i] == ""
  {
    row + seq(w - |row|, _ => "")
  }

  /** `getDataRange().getValues()`: every row padded to the widest. */
  function Grid(rows: seq<seq<string>>): (g: seq<seq<string>>)
    ensures |g| == |rows|
    ensures forall i | 0 <= i < |g| :: |g[i]| == Width(rows) && g[i][..|rows[i]|] == rows[i]
    ensures forall i, j | 0 <= i < |g| && |rows[i]| <= j < |g[i]| :: g[i][j] == ""
  {
    seq(|rows|, i requires 0 <= i < |rows| => Pad(rows[i], Width(rows)))
  }

  /**
   * `headers.forEach((h, i) => obj[h] = row[i])`: each header names the
   * cell under it; when a header text repeats, the later column wins.
   */
  function RecordOf(headers: seq<string>, row: seq<string>): (obj: Record)
    requires |headers| <= |row|
    ensures obj.Keys == set h | h in headers
    decreases |headers|
  {
    if headers == [] then map[]
    else
      var n := |headers| - 1;
      RecordOf(headers[..n], row)[headers[n] := row[n]]
  }

  /** The records of one sheet: none unless it has a row below the header row. */
  function SheetRecords(rows: seq<seq<string>>): (recs: seq<Record>)
    ensures |recs| == if |rows| > 1 then |rows| - 1 else 0
  {
    var g := Grid(rows);
    if |g| > 1 then seq(|g| - 1, i requires 0 <= i < |g| - 1 => RecordOf(g[0], g[i + 1]))
    else []
  }

  /** What `doGet` answers: every sheet's name with its records. */
  function View(sheets: map<string, seq<seq<string>>>): (v: map<string, seq<Record>>)
    ensures v.Keys == sheets.Keys
  {
    map name | name in sheets :: SheetRecords(sheets[name])
  }

  /** `headers.forEach((h, i) => obj[h] = row[i])`, one header at a time. */
  method MakeRecord(headers: seq<string>, row: seq<string>) returns (obj: Record)
    requires |headers| <= |row|
    ensures obj == RecordOf(headers, row)
  {
    obj := map[];
    var i := 0;
    while i < |headers|
      invariant 0 <= i <= |headers|
      invariant obj == RecordOf(headers[..i], row)
    {
      assert headers[..i + 1][..i] == headers[..i];
      obj := obj[headers[i] := row[i]];
      i := i + 1;
    }
    assert headers[..i] == headers;
  }

  /** One sheet of `doGet`: `data.slice(1).map(...)` when there is a row below the header row. */
  method ReadSheet(rows: seq<seq<string>>) returns (records: seq<Record>)
    ensures records == SheetRecords(rows)
  {
    var data := Grid(rows);
    records := [];
    if |data| > 1 {
      var headers := data[0];
      var j := 1;
      while j < |data|
        invariant 1 <= j <= |data|
        invariant |records| == j - 1
        invariant forall r | 0 <= r < j - 1 :: records[r] == RecordOf(headers, data[r + 1])
      {
        assert |data[j]| == |headers|;
        var obj := MakeRecord(headers, data[j]);
        records := records + [obj];
        j := j + 1;
      }
      assert records == SheetRecords(rows);
    }
  }

  /**
   * `doGet(e)`: every sheet, under its name, with the records of its rows
   * below the header row.
   */
  method DoGet(ss: Spreadsheet) returns (result: map<string, seq<Record>>)
    ensures result == View(ss.sheets)
  {
    result := map[];
    var todo := ss.sheets.Keys;
    while todo != {}
      invariant todo <= ss.sheets.Keys
      invariant result.Keys == ss.sheets.Keys - todo
      invariant forall n | n in result :: result[n] == SheetRecords(ss.sheets[n])
      decreases todo
    {
      var name :| name in todo;
      var records := ReadSheet(ss.sheets[name]);
      result := result[name := records];
      todo := todo - {name};
    }
  }

  // ---- what the endpoint promises ----

  /** Different report kinds go to different sheets. */
  lemma SheetNameInjective(k1: Kind, k2: Kind)
    ensures SheetName(k1) == SheetName(k2) <==> k1 == k2
  {
  }

  /** No header text repeats within a layout, so every column is its own key in a record. */
  lemma HeadersDistinct(k: Kind)
    ensures forall i, j | 0 <= i < j < |Headers(k)| :: Headers(k)[i] != Headers(k)[j]
  {
    match k
    case Problem => ProblemHeadersDistinct();
    case DamageReport => DamageHeadersDistinct();
    case Inventory => InventoryHeadersDistinct();
    case JobCompletion => JobCompletionHeadersDistinct();
    case VehicleLog => VehicleHeadersDistinct();
    case ModemSetup => ModemHeadersDistinct();
    case PortChange => PortHeadersDistinct();
    case Improvement => ImprovementHeadersDistinct();
    case Generic =>
  }

  predicate DistinctHeaders(cols: seq<Column>) {
    forall i, j | 0 <= i < j < |cols| :: cols[i].header != cols[j].header
  }

  lemma ProblemHeadersDistinct() ensures DistinctHeaders(ProblemLayout()) {}
  lemma InventoryHeadersDistinct() ensures DistinctHeaders(InventoryLayout()) {}
  lemma JobCompletionHeadersDistinct() ensures DistinctHeaders(JobCompletionLayout()) {}
  lemma VehicleHeadersDistinct() ensures DistinctHeaders(VehicleLayout()) {}
  lemma ModemHeadersDistinct() ensures DistinctHeaders(ModemLayout()) {}
  lemma PortHeadersDistinct() ensures DistinctHeaders(PortLayout()) {}
  lemma ImprovementHeadersDistinct()
    ensures DistinctHeaders(ImprovementLayout())
  {
    var cols := ImprovementLayout();
    forall i, j | 0 <= i < j < |cols| ensures cols[i].header != cols[j].header {
      match i
      case 0 => case 1 => case 2 => case 3 => case 4 => case 5 =>
      case 6 => case 7 => case 8 => case 9 => case 10 =>
    }
  }
  /** The position of each damage report header, to tell the headers apart. */
  function DamageColumnOf(h: string): int {
    if h == "Zaman Damgası" then 0
    else if h == "Ekip" then 1
    else if h == "Proje ID" then 2
    else if h == "Hasar Yapan" then 3
    else if h == "TC/Vergi" then 4
    else if h == "İletişim" then 5
    else if h == "Adres" then 6
    else if h == "Tarih/Saat" then 7
    else if h == "Yer" then 8
    else if h == "Oluş Şekli" then 9
    else if h == "Miktar" then 10
    else if h == "Abone" then 11
    else if h == "Düzenleyen" then 12
    else if h == "Ünvan" then 13
    else if h == "Tanık" then 14
    else if h == "Güvenlik" then 15
    else if h == "İhbar" then 16
    else if h == "Malzeme" then 17
    else if h == "Konum" then 18
    else if h == "Foto" then 19
    else -1
  }

  lemma DamageHeadersDistinct()
    ensures DistinctHeaders(DamageLayout())
  {
    var cols := DamageLayout();
    DamageColumnsFront();
    DamageColumnsBack();
    assert forall i | 0 <= i < |cols| :: DamageColumnOf(cols[i].header) == i;
  }

  lemma DamageColumnsFront()
    ensures forall i | 0 <= i < 10 :: DamageColumnOf(DamageLayout()[i].header) == i
  {
    var cols := DamageLayout();
    forall i | 0 <= i < 10 ensures DamageColumnOf(cols[i].header) == i {
      match i
      case 0 => case 1 => case 2 => case 3 => case 4 => case 5 => case 6 => case 7 => case 8 => case 9 =>
    }
  }

  lemma DamageColumnsBack()
    ensures |DamageLayout()| == 20
    ensures forall i | 10 <= i < 20 :: DamageColumnOf(DamageLayout()[i].header) == i
  {
    var cols := DamageLayout();
    forall i | 10 <= i < 20 ensures DamageColumnOf(cols[i].header) == i {
      match i
      case 10 => case 11 => case 12 => case 13 => case 14 => case 15 => case 16 => case 17 => case 18 => case 19 =>
    }
  }

  /** A body without a usable `reportType` is written to the generic "Kayıtlar" sheet. */
  lemma UntypedGoesToRecords(p: Payload)
    requires !Truthy(p, "reportType") || KindOf(p.fields["reportType"]) == Generic
    ensures KindOf(ReportType(p)) == Generic && SheetName(KindOf(ReportType(p))) == "Kayıtlar"
  {
  }

  /** The widths of the layouts: the row of each report kind has this many cells. */
  lemma RowWidths(k: Kind, p: Payload, timestamp: string, photo: string)
    ensures |SchemaRow(k, p, timestamp, photo)| ==
      match k
      case Problem => 9
      case DamageReport => 20
      case Inventory => 6
      case JobCompletion => 5
      case VehicleLog => 4
      case ModemSetup => 5
      case PortChange => 6
      case Improvement => 12
      case Generic => 2
  {
  }

  /** Every row starts with the request's timestamp and the team code, or "-" without one. */
  lemma RowStartsWithStampAndTeam(k: Kind, p: Payload, timestamp: string, photo: string)
    ensures |SchemaRow(k, p, timestamp, photo)| >= 2
    ensures SchemaRow(k, p, timestamp, photo)[0] == timestamp
    ensures SchemaRow(k, p, timestamp, photo)[1] == (if Truthy(p, "ekipKodu") then p.fields["ekipKodu"] else "-")
  {
    SchemaLead(k);
  }

  /** Every layout opens with the timestamp and team columns. */
  lemma SchemaLead(k: Kind)
    ensures |Schema(k)| >= 2 && Schema(k)[0] == StampColumn && Schema(k)[1] == TeamColumn
  {
    match k
    case Problem => assert ProblemLayout()[0] == StampColumn && ProblemLayout()[1] == TeamColumn;
    case DamageReport => assert DamageLayout()[0] == StampColumn && DamageLayout()[1] == TeamColumn;
    case Inventory => assert InventoryLayout()[0] == StampColumn && InventoryLayout()[1] == TeamColumn;
    case JobCompletion => assert JobCompletionLayout()[0] == StampColumn && JobCompletionLayout()[1] == TeamColumn;
    case VehicleLog => assert VehicleLayout()[0] == StampColumn && VehicleLayout()[1] == TeamColumn;
    case ModemSetup => assert ModemLayout()[0] == StampColumn && ModemLayout()[1] == TeamColumn;
    case PortChange => assert PortLayout()[0] == StampColumn && PortLayout()[1] == TeamColumn;
    case Improvement => assert ImprovementLayout()[0] == StampColumn && ImprovementLayout()[1] == TeamColumn;
    case Generic =>
  }

  /** An inventory movement without a service number records "-" under "Hizmet No". */
  lemma InventoryWithoutServiceNumber(p: Payload, timestamp: string, photo: string)
    requires KindOf(ReportType(p)) == Inventory && !Truthy(p, "hizmetNo")
    ensures Headers(Inventory)[4] == "Hizmet No"
    ensures SchemaRow(Inventory, p, timestamp, photo)[4] == "-"
  {
    assert Schema(Inventory)[4].source == FieldOrDash("hizmetNo");
  }

  /**
   * The cell of the last column headed `headers[i]` is what the record
   * holds under that text.
   */
  lemma {:induction false} RecordOfLookup(headers: seq<string>, row: seq<string>, i: nat)
    requires |headers| <= |row| && i < |headers|
    requires forall j | i < j < |headers| :: headers[j] != headers[i]
    ensures RecordOf(headers, row)[headers[i]] == row[i]
  {
    var n := |headers| - 1;
    if i < n {
      assert forall j | i < j < n :: headers[..n][j] == headers[j];
      RecordOfLookup(headers[..n], row, i);
    }
  }

  /** The record of a row written by `DoPost` holds each column's cell under that column's header. */
  lemma PostedRecordCells(k: Kind, p: Payload, timestamp: string, photo: string, i: nat)
    requires i < |Headers(k)|
    ensures RecordOf(Headers(k), SchemaRow(k, p, timestamp, photo))[Headers(k)[i]]
      == Eval(Schema(k)[i].source, p, timestamp, photo)
  {
    HeadersDistinct(k);
    RecordOfLookup(Headers(k), SchemaRow(k, p, timestamp, photo), i);
  }

  /** The record of a posted job completion holds the payload's `isAdedi` under "Adet". */
  lemma JobCompletionRecordAdet(p: Payload, timestamp: string, photo: string)
    ensures "Adet" in RecordOf(Headers(JobCompletion), SchemaRow(JobCompletion, p, timestamp, photo))
    ensures RecordOf(Headers(JobCompletion), SchemaRow(JobCompletion, p, timestamp, photo))["Adet"] == Cell(p, "isAdedi")
  {
    assert Headers(JobCompletion)[4] == "Adet" && Schema(JobCompletion)[4].source == Field("isAdedi");
    PostedRecordCells(JobCompletion, p, timestamp, photo, 4);
  }

  /** A sheet as `DoPost` leaves it: the header row, then rows of the same width. */
  predicate Formatted(rows: seq<seq<string>>, header: seq<string>) {
    |rows| >= 1 && rows[0] == header &&
    forall i | 0 <= i < |rows| :: |rows[i]| == |header|
  }

  /** Every report sheet present is formatted for its kind; other sheets may hold anything. */
  predicate Aligned(sheets: map<string, seq<seq<string>>>) {
    forall k: Kind | SheetName(k) in sheets :: Formatted(sheets[SheetName(k)], Headers(k))
  }

  /** Rows that are all as wide come back from the data range as they are. */
  lemma GridUniform(rows: seq<seq<string>>, w: nat)
    requires rows != []
    requires forall i | 0 <= i < |rows| :: |rows[i]| == w
    ensures Grid(rows) == rows
  {
    assert Width(rows) == w;
    forall i | 0 <= i < |rows| ensures Grid(rows)[i] == rows[i] {
      assert Grid(rows)[i] == Grid(rows)[i][..|rows[i]|];
    }
  }

  /** The records of a formatted sheet: its rows below the header row, keyed by the headers. */
  lemma FormattedRecords(rows: seq<seq<string>>, header: seq<string>)
    requires Formatted(rows, header)
    ensures |SheetRecords(rows)| == |rows| - 1
    ensures forall i | 0 <= i < |rows| - 1 :: SheetRecords(rows)[i] == RecordOf(header, rows[i + 1])
  {
    GridUniform(rows, |header|);
  }

  /**
   * Appending a row as wide as the header row to a formatted (or missing)
   * sheet keeps it formatted and adds the row's record at the end of what
   * `DoGet` reads from it; every other sheet reads back as before.
   */
  lemma AppendAddsRecord(sheets: map<string, seq<seq<string>>>, name: string, header: seq<string>, row: seq<string>)
    requires name in sheets ==> Formatted(sheets[name], header)
    requires |row| == |header|
    ensures Formatted(AppendTo(sheets, name, header, row)[name], header)
    ensures View(AppendTo(sheets, name, header, row))[name]
      == (if name in sheets then View(sheets)[name] else []) + [RecordOf(header, row)]
    ensures forall n | n in sheets && n != name :: View(AppendTo(sheets, name, header, row))[n] == View(sheets)[n]
  {
    var after := AppendTo(sheets, name, header, row);
    var before := if name in sheets then sheets[name] else [header];
    assert after[name] == before + [row];
    AppendedRecords(before, header, row);
    assert View(after)[name] == SheetRecords(before + [row]);
    if name in sheets {
      assert View(sheets)[name] == SheetRecords(before);
    } else {
      assert SheetRecords(before) == [];
    }
    forall n | n in sheets && n != name ensures View(after)[n] == View(sheets)[n] {
      assert after[n] == sheets[n];
    }
  }

  /** One more row of the header's width on a formatted sheet is one more record, at the end. */
  lemma AppendedRecords(rows: seq<seq<string>>, header: seq<string>, row: seq<string>)
    requires Formatted(rows, header) && |row| == |header|
    ensures Formatted(rows + [row], header)
    ensures SheetRecords(rows + [row]) == SheetRecords(rows) + [RecordOf(header, row)]
  {
    var more := rows + [row];
    assert Formatted(more, header) by {
      assert more[0] == header;
      forall i | 0 <= i < |more| ensures |more[i]| == |header| {
        if i < |rows| { assert more[i] == rows[i]; }
      }
    }
    FormattedRecords(rows, header);
    FormattedRecords(more, header);
    var recs := SheetRecords(more);
    var want := SheetRecords(rows) + [RecordOf(header, row)];
    assert |recs| == |want|;
    forall i | 0 <= i < |recs| ensures recs[i] == want[i] {
      if i < |rows| - 1 {
        assert more[i + 1] == rows[i + 1];
      }
    }
  }

  /** A successful post keeps every report sheet formatted for its kind. */
  lemma PostKeepsAligned(sheets: map<string, seq<seq<string>>>, p: Payload, timestamp: string, drive: Drive)
    requires Aligned(sheets)
    ensures Aligned(Posted(sheets, p, timestamp, drive))
  {
    var k := KindOf(ReportType(p));
    var row := SchemaRow(k, p, timestamp, PhotoCell(p, drive));
    var after := Posted(sheets, p, timestamp, drive);
    AppendAddsRecord(sheets, SheetName(k), Headers(k), row);
    forall k2: Kind | SheetName(k2) in after ensures Formatted(after[SheetName(k2)], Headers(k2)) {
      SheetNameInjective(k, k2);
    }
  }

  /**
   * After a successful post, what `DoGet` reads back gains exactly one
   * record, at the end of the report's sheet: the layout's headers mapped
   * to the new row. Every other sheet reads back as before.
   */
  lemma PostAddsRecord(sheets: map<string, seq<seq<string>>>, p: Payload, timestamp: string, drive: Drive)
    requires Aligned(sheets)
    ensures View(Posted(sheets, p, timestamp, drive)).Keys == sheets.Keys + {SheetName(KindOf(ReportType(p)))}
    ensures
      var k := KindOf(ReportType(p));
      var before := if SheetName(k) in sheets then View(sheets)[SheetName(k)] else [];
      View(Posted(sheets, p, timestamp, drive))[SheetName(k)]
        == before + [RecordOf(Headers(k), SchemaRow(k, p, timestamp, PhotoCell(p, drive)))]
    ensures forall n | n in sheets && n != SheetName(KindOf(ReportType(p))) ::
      View(Posted(sheets, p, timestamp, drive))[n] == View(sheets)[n]
  {
    var k := KindOf(ReportType(p));
    AppendAddsRecord(sheets, SheetName(k), Headers(k), SchemaRow(k, p, timestamp, PhotoCell(p, drive)));
  }
}
