/**
 * The manager's panel (components/ManagerDashboard.tsx): headline counts,
 * the "Adet" total, per-team activity, the table search, the recent-activity
 * list and how a cell is shown, all computed from what `doGet` answers.
 *
 * The fetched object is a list of sheets in the order its keys come. Lower-
 * casing and the `parseFloat` test of the map-link rule are parameters, and
 * `localeCompare` is the code-point order `LexLe`.
 */
module ManagerDashboard {
  import opened Wrappers
  import opened Text
  import opened Ranking
  import Backend

  type Record = Backend.Record

  /** One key of the fetched object: a sheet's name and its records. */
  datatype Sheet = Sheet(name: string, rows: seq<Record>)

  predicate DistinctNames(data: seq<Sheet>) {
    forall i, j | 0 <= i < j < |data| :: data[i].name != data[j].name
  }

  /** `data` lists the sheets of `view`, each exactly once, in some order. */
  predicate Lists(data: seq<Sheet>, view: map<string, seq<Record>>) {
    && DistinctNames(data)
    && (forall i | 0 <= i < |data| :: data[i].name in view && view[data[i].name] == data[i].rows)
    && (forall n | n in view :: exists i | 0 <= i < |data| :: data[i].name == n)
  }

  /** `data[name]`: the records listed under `name`, if the key is there. */
  function Find(data: seq<Sheet>, name: string): (r: Option<seq<Record>>)
    ensures r.None? <==> forall i | 0 <= i < |data| :: data[i].name != name
    ensures r.Some? ==> exists i | 0 <= i < |data| :: data[i].name == name && data[i].rows == r.value
  {
    if data == [] then None
    else if data[0].name == name then Some(data[0].rows)
    else
      var r := Find(data[1..], name);
      assert forall i | 1 <= i < |data| :: data[i] == data[1..][i - 1];
      r
  }

  /** Looking a name up in a listing of `view` is looking it up in `view`. */
  lemma FindListed(data: seq<Sheet>, view: map<string, seq<Record>>, name: string)
    requires Lists(data, view)
    ensures Find(data, name) == if name in view then Some(view[name]) else None
  {
    if name in view {
      var i :| 0 <= i < |data| && data[i].name == name;
    }
  }

  // ---- stats ----

  /** `data?.[name]?.length || 0` */
  function Count(data: Option<seq<Sheet>>, name: string): nat {
    if data.None? then 0
    else match Find(data.value, name)
      case None => 0
      case Some(rows) => |rows|
  }

  /** `Number(row["Adet"]) || 0`: a missing cell reads as `undefined`, which is not a number. */
  function Adet(row: Record): int {
    if "Adet" in row then NumberOrZero(row["Adet"]) else 0
  }

  /** `rows.reduce((acc, curr) => acc + (Number(curr["Adet"]) || 0), 0)` */
  function AdetSum(rows: seq<Record>): int {
    if rows == [] then 0 else AdetSum(rows[..|rows| - 1]) + Adet(rows[|rows| - 1])
  }

  const JobsSheet := "İş Tamamlamalar"

  /** `totalJobs`: the "Adet" total of the job completion sheet, 0 without one. */
  function TotalJobs(data: Option<seq<Sheet>>): int {
    if data.None? then 0
    else match Find(data.value, JobsSheet)
      case None => 0
      case Some(rows) => AdetSum(rows)
  }

  datatype Stats = Stats(totalProblems: nat, totalDamage: nat, totalJobs: int, totalInventory: nat, activeVehicles: nat)

  /** `stats`: the number of problems, damage reports, inventory moves and vehicle logs, and the jobs done. */
  function ComputeStats(data: Option<seq<Sheet>>): (s: Stats)
    ensures data.None? ==> s == Stats(0, 0, 0, 0, 0)
  {
    Stats(Count(data, "Sorunlar"), Count(data, "Hasar Tespitleri"), TotalJobs(data),
          Count(data, "Envanter Kayıtları"), Count(data, "Araç Kayıtları"))
  }

  lemma {:induction false} AdetSumConcat(a: seq<Record>, b: seq<Record>)
    ensures AdetSum(a + b) == AdetSum(a) + AdetSum(b)
    decreases |b|
  {
    if b != [] {
      var n := |b| - 1;
      assert (a + b)[..|a + b| - 1] == a + b[..n];
      AdetSumConcat(a, b[..n]);
    } else {
      assert a + b == a;
    }
  }

  /** Rows that each hold "1" under "Adet" add up to how many there are. */
  lemma {:induction false} AdetSumOfOnes(rows: seq<Record>)
    requires forall i | 0 <= i < |rows| :: "Adet" in rows[i] && rows[i]["Adet"] == "1"
    ensures AdetSum(rows) == |rows|
  {
    if rows != [] {
      AdetSumOfOnes(rows[..|rows| - 1]);
      NumberOrZeroReadsIntText(1);
      assert IntText(1) == "1";
    }
  }

  /** The counts shown for a listing of `view` are those of `view` itself. */
  lemma CountListed(data: seq<Sheet>, view: map<string, seq<Record>>, name: string)
    requires Lists(data, view)
    ensures Count(Some(data), name) == if name in view then |view[name]| else 0
  {
    FindListed(data, view, name);
  }

  /**
   * After a successful post, the count of the report's sheet is one more
   * and every other count is as before.
   */
  lemma PostCountsOnce(sheets: map<string, seq<seq<string>>>, p: Backend.Payload, timestamp: string,
                       drive: Backend.Drive, before: seq<Sheet>, after: seq<Sheet>)
    requires Backend.Aligned(sheets)
    requires Lists(before, Backend.View(sheets))
    requires Lists(after, Backend.View(Backend.Posted(sheets, p, timestamp, drive)))
    ensures Count(Some(after), Backend.SheetName(Backend.KindOf(Backend.ReportType(p))))
         == Count(Some(before), Backend.SheetName(Backend.KindOf(Backend.ReportType(p)))) + 1
    ensures forall n | n != Backend.SheetName(Backend.KindOf(Backend.ReportType(p))) ::
      Count(Some(after), n) == Count(Some(before), n)
  {
    var name := Backend.SheetName(Backend.KindOf(Backend.ReportType(p)));
    var v := Backend.View(sheets);
    var v' := Backend.View(Backend.Posted(sheets, p, timestamp, drive));
    Backend.PostAddsRecord(sheets, p, timestamp, drive);
    CountListed(before, v, name);
    CountListed(after, v', name);
    forall n | n != name ensures Count(Some(after), n) == Count(Some(before), n) {
      CountListed(before, v, n);
      CountListed(after, v', n);
    }
  }

  /**
   * Posting a job completion adds its `isAdedi` to `totalJobs`; the form
   * always sends 1, so the total rises by one.
   */
  lemma PostAddsJobs(sheets: map<string, seq<seq<string>>>, p: Backend.Payload, timestamp: string,
                     drive: Backend.Drive, before: seq<Sheet>, after: seq<Sheet>)
    requires Backend.Aligned(sheets)
    requires Backend.KindOf(Backend.ReportType(p)) == Backend.JobCompletion
    requires Lists(before, Backend.View(sheets))
    requires Lists(after, Backend.View(Backend.Posted(sheets, p, timestamp, drive)))
    ensures TotalJobs(Some(after)) == TotalJobs(Some(before)) + NumberOrZero(Backend.Cell(p, "isAdedi"))
  {
    var v := Backend.View(sheets);
    var v' := Backend.View(Backend.Posted(sheets, p, timestamp, drive));
    JobsSheetGains(sheets, p, timestamp, drive);
    FindListed(before, v, JobsSheet);
    FindListed(after, v', JobsSheet);
  }

  /** The job completion sheet as read back gains one record, worth the payload's `isAdedi`. */
  lemma JobsSheetGains(sheets: map<string, seq<seq<string>>>, p: Backend.Payload, timestamp: string,
                       drive: Backend.Drive)
    requires Backend.Aligned(sheets)
    requires Backend.KindOf(Backend.ReportType(p)) == Backend.JobCompletion
    ensures JobsSheet in Backend.View(Backend.Posted(sheets, p, timestamp, drive))
    ensures AdetSum(Backend.View(Backend.Posted(sheets, p, timestamp, drive))[JobsSheet])
         == (if JobsSheet in Backend.View(sheets) then AdetSum(Backend.View(sheets)[JobsSheet]) else 0)
            + NumberOrZero(Backend.Cell(p, "isAdedi"))
  {
    var k := Backend.JobCompletion;
    var row := Backend.SchemaRow(k, p, timestamp, Backend.PhotoCell(p, drive));
    var v := Backend.View(sheets);
    var v' := Backend.View(Backend.Posted(sheets, p, timestamp, drive));
    Backend.PostAddsRecord(sheets, p, timestamp, drive);
    var rec := Backend.RecordOf(Backend.Headers(k), row);
    Backend.JobCompletionRecordAdet(p, timestamp, Backend.PhotoCell(p, drive));
    var earlier := if JobsSheet in v then v[JobsSheet] else [];
    assert v'[JobsSheet] == earlier + [rec];
    assert (earlier + [rec])[..|earlier + [rec]| - 1] == earlier;
    assert AdetSum(earlier + [rec]) == AdetSum(earlier) + Adet(rec);
  }

  // ---- team activity ----

  /** `row["Ekip"]`, when it is truthy. */
  function TeamOf(row: Record): Option<string> {
    if "Ekip" in row && row["Ekip"] != "" then Some(row["Ekip"]) else None
  }

  /** The rows of all sheets, sheet after sheet: what `Object.values(data).forEach` visits. */
  function AllRows(data: seq<Sheet>): seq<Record> {
    if data == [] then [] else AllRows(data[..|data| - 1]) + data[|data| - 1].rows
  }

  /** How many of `rows` name team `t`. */
  function Occurrences(rows: seq<Record>, t: string): nat {
    if rows == [] then 0
    else Occurrences(rows[..|rows| - 1], t) + (if TeamOf(rows[|rows| - 1]) == Some(t) then 1 else 0)
  }

  /**
   * The teams of `rows`, each once, in the order they first appear. This is
   * the key order of the `teams` object only when no team code is an
   * integer-like key, since `Object.entries` lists those first in numeric
   * order; with such a code the order among tied teams may differ.
   */
  function Appearances(rows: seq<Record>): (ts: seq<string>)
    ensures Distinct(ts)
    ensures forall t :: t in ts <==> Occurrences(rows, t) > 0
  {
    if rows == [] then []
    else
      var prev := Appearances(rows[..|rows| - 1]);
      match TeamOf(rows[|rows| - 1])
      case Some(t) => if t in prev then prev else prev + [t]
      case None => prev
  }

  /** The sheets of `Object.values(data || {})`. */
  function SheetsOf(data: Option<seq<Sheet>>): seq<Sheet> {
    if data.Some? then data.value else []
  }

  /** `teams` and `order` hold the tally of `seen`: each team's count, teams in order of first appearance. */
  ghost predicate Counted(teams: map<string, nat>, order: seq<string>, seen: seq<Record>) {
    && order == Appearances(seen)
    && (forall t :: t in teams <==> Occurrences(seen, t) > 0)
    && (forall t | t in teams :: teams[t] == Occurrences(seen, t))
  }

  /**
   * The nested `forEach` of `getTeamStats`: every row with a truthy "Ekip"
   * adds one to its team's entry, which starts at `teams[team] || 0`.
   * `order` is the order in which the entries were created.
   */
  method CountTeams(data: seq<Sheet>) returns (teams: map<string, nat>, order: seq<string>)
    ensures order == Appearances(AllRows(data))
    ensures forall t :: t in teams <==> Occurrences(AllRows(data), t) > 0
    ensures forall t | t in teams :: teams[t] == Occurrences(AllRows(data), t)
  {
    teams := map[];
    order := [];
    var i := 0;
    while i < |data|
      invariant 0 <= i <= |data|
      invariant Counted(teams, order, AllRows(data[..i]))
    {
      teams, order := CountSheet(data[i].rows, AllRows(data[..i]), teams, order);
      OneMoreSheet(data, i);
      i := i + 1;
    }
    assert data[..i] == data;
  }

  /** The inner `forEach`: one sheet's rows added to the tally of the rows before it. */
  method CountSheet(rows: seq<Record>, ghost before: seq<Record>, teams0: map<string, nat>, order0: seq<string>)
    returns (teams: map<string, nat>, order: seq<string>)
    requires Counted(teams0, order0, before)
    ensures Counted(teams, order, before + rows)
  {
    teams, order := teams0, order0;
    var j := 0;
    assert before + rows[..0] == before;
    while j < |rows|
      invariant 0 <= j <= |rows|
      invariant Counted(teams, order, before + rows[..j])
    {
      var row := rows[j];
      ghost var seen := before + rows[..j];
      ghost var teams1, order1 := teams, order;
      if "Ekip" in row && row["Ekip"] != "" {
        var team := row["Ekip"];
        if team !in teams {
          order := order + [team];
        }
        teams := teams[team := (if team in teams then teams[team] else 0) + 1];
      }
      CountedStep(teams1, order1, seen, row, teams, order);
      assert before + rows[..j + 1] == seen + [row];
      j := j + 1;
    }
    assert rows[..j] == rows;
  }

  /** Tallying one more row keeps the tally right. */
  lemma CountedStep(teams0: map<string, nat>, order0: seq<string>, seen: seq<Record>, row: Record,
                    teams: map<string, nat>, order: seq<string>)
    requires Counted(teams0, order0, seen)
    requires TeamOf(row).None? ==> teams == teams0 && order == order0
    requires TeamOf(row).Some? ==>
      var t := TeamOf(row).value;
      && order == (if t in teams0 then order0 else order0 + [t])
      && teams == teams0[t := (if t in teams0 then teams0[t] else 0) + 1]
    ensures Counted(teams, order, seen + [row])
  {
    OneMoreRow(seen, row);
  }

  /** A row counts once more for its own team, which is new to the order if it had no row yet. */
  lemma OneMoreRow(seen: seq<Record>, row: Record)
    ensures forall t :: Occurrences(seen + [row], t) == Occurrences(seen, t) + (if TeamOf(row) == Some(t) then 1 else 0)
    ensures Appearances(seen + [row]) ==
      match TeamOf(row)
      case Some(t) => if t in Appearances(seen) then Appearances(seen) else Appearances(seen) + [t]
      case None => Appearances(seen)
  {
    assert (seen + [row])[..|seen|] == seen;
  }

  /** The rows of one more sheet follow the rows of the sheets before it. */
  lemma OneMoreSheet(data: seq<Sheet>, i: nat)
    requires i < |data|
    ensures AllRows(data[..i + 1]) == AllRows(data[..i]) + data[i].rows
  {
    assert data[..i + 1][..i] == data[..i];
  }

  /** `(a, b) => b[1] - a[1]`: `a` may stay ahead of `b` when its count is at least as large. */
  function ByCount(a: (string, nat), b: (string, nat)): bool {
    a.1 >= b.1
  }

  lemma ByCountIsPreorder()
    ensures Total(ByCount) && Transitive(ByCount)
  {
  }

  /**
   * `getTeamStats()`: the ten most active teams, most active first, each
   * with how many records name it. Teams are distinct, every count is at
   * least one, fewer than ten teams are all listed, and no team left out has
   * more records than a team listed.
   */
  method GetTeamStats(data: Option<seq<Sheet>>) returns (top: seq<(string, nat)>)
    ensures var teams := Appearances(AllRows(SheetsOf(data)));
      |top| == if |teams| < 10 then |teams| else 10
    ensures forall i | 0 <= i < |top| ::
      top[i].1 == Occurrences(AllRows(SheetsOf(data)), top[i].0) && top[i].1 >= 1
    ensures forall i, j | 0 <= i < j < |top| :: top[i].0 != top[j].0
    ensures Ranked(top, ByCount)
    ensures forall t | Occurrences(AllRows(SheetsOf(data)), t) > 0 && (forall i | 0 <= i < |top| :: top[i].0 != t) ::
      forall i | 0 <= i < |top| :: top[i].1 >= Occurrences(AllRows(SheetsOf(data)), t)
  {
    var teams, order := CountTeams(SheetsOf(data));
    var entries := seq(|order|, i requires 0 <= i < |order| => (order[i], teams[order[i]]));
    top := Top(Sort(entries, ByCount), 10);
    TeamStatsHold(AllRows(SheetsOf(data)), teams, order, entries, top);
  }

  /** The facts `GetTeamStats` promises, from the ranking of the entries. */
  lemma TeamStatsHold(rows: seq<Record>, teams: map<string, nat>, order: seq<string>,
                      entries: seq<(string, nat)>, top: seq<(string, nat)>)
    requires order == Appearances(rows)
    requires forall t :: t in teams <==> Occurrences(rows, t) > 0
    requires forall t | t in teams :: teams[t] == Occurrences(rows, t)
    requires |entries| == |order| && forall i | 0 <= i < |order| :: entries[i] == (order[i], teams[order[i]])
    requires top == Top(Sort(entries, ByCount), 10)
    ensures |top| == if |order| < 10 then |order| else 10
    ensures forall i | 0 <= i < |top| :: top[i].1 == Occurrences(rows, top[i].0) && top[i].1 >= 1
    ensures forall i, j | 0 <= i < j < |top| :: top[i].0 != top[j].0
    ensures Ranked(top, ByCount)
    ensures forall t | Occurrences(rows, t) > 0 && (forall i | 0 <= i < |top| :: top[i].0 != t) ::
      forall i | 0 <= i < |top| :: top[i].1 >= Occurrences(rows, t)
  {
    ByCountIsPreorder();
    TopOfSort(entries, 10, ByCount);
    DrawnEntries(rows, teams, order, entries, top);
    LeftOutRankLower(rows, teams, order, entries, top);
  }

  /** Entries drawn from the tally are true counts, and no team is drawn twice. */
  lemma DrawnEntries(rows: seq<Record>, teams: map<string, nat>, order: seq<string>,
                     entries: seq<(string, nat)>, top: seq<(string, nat)>)
    requires order == Appearances(rows)
    requires forall t :: t in teams <==> Occurrences(rows, t) > 0
    requires forall t | t in teams :: teams[t] == Occurrences(rows, t)
    requires |entries| == |order| && forall i | 0 <= i < |order| :: entries[i] == (order[i], teams[order[i]])
    requires multiset(top) <= multiset(entries)
    ensures forall i | 0 <= i < |top| :: top[i].1 == Occurrences(rows, top[i].0) && top[i].1 >= 1
    ensures forall i, j | 0 <= i < j < |top| :: top[i].0 != top[j].0
  {
    forall i | 0 <= i < |top| ensures exists a | 0 <= a < |order| :: top[i] == entries[a] {
      assert top[i] in multiset(entries);
    }
    assert Distinct(entries) by {
      forall a, b | 0 <= a < b < |entries| ensures entries[a] != entries[b] {
        assert entries[a].0 == order[a] && entries[b].0 == order[b];
      }
    }
    DistinctPart(entries, top);
    forall i, j | 0 <= i < j < |top| ensures top[i].0 != top[j].0 {
      var a :| 0 <= a < |order| && top[i] == entries[a];
      var b :| 0 <= b < |order| && top[j] == entries[b];
      assert top[i] != top[j];
    }
  }

  /** A team the top leaves out has no more records than any team it keeps. */
  lemma LeftOutRankLower(rows: seq<Record>, teams: map<string, nat>, order: seq<string>,
                         entries: seq<(string, nat)>, top: seq<(string, nat)>)
    requires order == Appearances(rows)
    requires forall t :: t in teams <==> Occurrences(rows, t) > 0
    requires forall t | t in teams :: teams[t] == Occurrences(rows, t)
    requires |entries| == |order| && forall i | 0 <= i < |order| :: entries[i] == (order[i], teams[order[i]])
    requires forall x, y | x in top && y in multiset(entries) - multiset(top) :: ByCount(x, y)
    ensures forall t | Occurrences(rows, t) > 0 && (forall i | 0 <= i < |top| :: top[i].0 != t) ::
      forall i | 0 <= i < |top| :: top[i].1 >= Occurrences(rows, t)
  {
    forall t | Occurrences(rows, t) > 0 && (forall i | 0 <= i < |top| :: top[i].0 != t)
      ensures forall i | 0 <= i < |top| :: top[i].1 >= Occurrences(rows, t)
    {
      var a :| 0 <= a < |order| && order[a] == t;
      var e := entries[a];
      assert e.1 == Occurrences(rows, t);
      assert forall i | 0 <= i < |top| :: top[i] != e;
      assert e in multiset(entries);
      assert e in multiset(entries) - multiset(top);
      forall i | 0 <= i < |top| ensures top[i].1 >= e.1 {
        assert top[i] in top;
        assert ByCount(top[i], e);
      }
    }
  }

  /** A team's "SKOR": twelve points per record. */
  function Score(count: nat): nat {
    12 * count
  }

  /** Down the ranked team list, the scores never rise. */
  lemma ScoresFollowRanking(top: seq<(string, nat)>)
    requires Ranked(top, ByCount)
    ensures forall i, j | 0 <= i < j < |top| :: Score(top[i].1) >= Score(top[j].1)
  {
    forall i, j | 0 <= i < j < |top| ensures Score(top[i].1) >= Score(top[j].1) {
      assert ByCount(top[i], top[j]);
    }
  }

  // ---- the table search ----

  /** Some field of `row`, lower-cased, contains the lower-cased search term. */
  predicate Matches(row: Record, term: string, lower: string -> string) {
    exists k | k in row :: Contains(lower(row[k]), lower(term))
  }

  /** `rows.filter(row => Object.values(row).some(...))` */
  function FilterRows(rows: seq<Record>, term: string, lower: string -> string): (kept: seq<Record>)
    ensures |kept| <= |rows|
    ensures forall r | r in kept :: r in rows && Matches(r, term, lower)
    ensures forall r | r in rows && Matches(r, term, lower) :: r in kept
  {
    if rows == [] then []
    else (if Matches(rows[0], term, lower) then [rows[0]] else []) + FilterRows(rows[1..], term, lower)
  }

  /** The filter keeps the original order: filtering a concatenation concatenates the results. */
  lemma {:induction false} FilterRowsConcat(a: seq<Record>, b: seq<Record>, term: string, lower: string -> string)
    ensures FilterRows(a + b, term, lower) == FilterRows(a, term, lower) + FilterRows(b, term, lower)
  {
    if a == [] {
      assert a + b == b;
    } else {
      assert (a + b)[1..] == a[1..] + b;
      FilterRowsConcat(a[1..], b, term, lower);
    }
  }

  /**
   * With an empty search box every row that has at least one field is shown,
   * provided lower-casing keeps the empty string empty.
   */
  lemma EmptyTermKeepsRows(rows: seq<Record>, lower: string -> string)
    requires lower("") == ""
    ensures forall r | r in rows :: r in FilterRows(rows, "", lower) <==> r != map[]
  {
    forall r | r in rows && r != map[] ensures Matches(r, "", lower) {
      var k :| k in r;
      ContainsEmpty(lower(r[k]));
    }
  }

  // ---- how a cell is shown ----

  datatype CellView =
    | Dash                  // null or undefined
    | ImagePlaceholder      // "Görsel (Sheet'te)" for an image formula
    | MapLink(query: string)  // a "KONUM" link to the map search for the cell
    | Plain(text: string)   // the cell's text

  /** `val.split(',')[0]`: the text before the first comma. */
  function BeforeComma(s: string): (r: string)
    ensures |r| <= |s| && r == s[..|r|] && ',' !in r
    ensures |r| < |s| ==> s[|r|] == ','
  {
    if s == [] || s[0] == ',' then []
    else [s[0]] + BeforeComma(s[1..])
  }

  /**
   * `renderCellValue(val)`: "-" for a missing value, the placeholder for an
   * image formula, a map link for text with a comma whose first part reads
   * as a number (`numeric` stands for `!isNaN(parseFloat(...))`), and the
   * text itself otherwise.
   */
  function RenderCell(val: Option<string>, numeric: string -> bool): (v: CellView)
    ensures v == Dash <==> val.None?
    ensures v == ImagePlaceholder <==> val.Some? && StartsWith(val.value, "=IMAGE")
    ensures v.MapLink? <==>
      val.Some? && !StartsWith(val.value, "=IMAGE") && ',' in val.value && numeric(BeforeComma(val.value))
    ensures v.MapLink? ==> v.query == val.value
    ensures v.Plain? ==> v.text == val.value
  {
    match val
    case None => Dash
    case Some(s) =>
      if StartsWith(s, "=IMAGE") then ImagePlaceholder
      else if ',' in s && numeric(BeforeComma(s)) then MapLink(s)
      else Plain(s)
  }

  /**
   * A photo cell written for a stored upload is shown as the placeholder,
   * when it is read back as the formula text that was written.
   */
  lemma StoredPhotoShowsPlaceholder(fileId: string, numeric: string -> bool)
    ensures RenderCell(Some(Backend.ImageFormula(fileId)), numeric) == ImagePlaceholder
  {
  }

  /** A location cell whose latitude reads as a number is shown as a map link. */
  lemma LocationShowsLink(lat: string, lng: string, numeric: string -> bool)
    requires ',' !in lat && numeric(lat) && (lat == [] || lat[0] != '=')
    ensures RenderCell(Some(lat + "," + lng), numeric) == MapLink(lat + "," + lng)
  {
    var s := lat + "," + lng;
    assert s[|lat|] == ',';
    assert BeforeComma(s) == s[..|lat|] == lat;
    assert s[0] != '=';
    assert !StartsWith(s, "=IMAGE") by {
      assert |s| >= 6 ==> s[..6][0] != "=IMAGE"[0];
    }
  }

  // ---- recent activity ----

  const StampHeader := "Zaman Damgası"

  /** `{...log, _cat: cat}`: a record tagged with the sheet it was listed under. */
  datatype Logged = Logged(cat: string, log: Record)

  /** `categories.flatMap(cat => data[cat].map(...))`: every record, tagged, sheet after sheet. */
  function Tagged(data: seq<Sheet>): (ls: seq<Logged>)
    ensures |ls| == |AllRows(data)|
    ensures forall i | 0 <= i < |ls| :: ls[i].log == AllRows(data)[i]
    ensures forall i | 0 <= i < |ls| :: exists s | 0 <= s < |data| :: data[s].name == ls[i].cat && ls[i].log in data[s].rows
  {
    if data == [] then []
    else
      var last := data[|data| - 1];
      var prev := Tagged(data[..|data| - 1]);
      var tail := seq(|last.rows|, j requires 0 <= j < |last.rows| => Logged(last.name, last.rows[j]));
      assert forall s | 0 <= s < |data| - 1 :: data[..|data| - 1][s] == data[s];
      prev + tail
  }

  /**
   * Each record is tagged with the sheet it was read from: row `j` of sheet
   * `s` sits after the rows of the sheets before it, tagged with `s`'s name.
   */
  lemma {:induction false} TaggedWithOwnSheet(data: seq<Sheet>, s: nat, j: nat)
    requires s < |data| && j < |data[s].rows|
    ensures |AllRows(data[..s])| + j < |Tagged(data)|
    ensures Tagged(data)[|AllRows(data[..s])| + j] == Logged(data[s].name, data[s].rows[j])
    decreases |data|
  {
    var n := |data| - 1;
    var init := data[..n];
    assert Tagged(data) == Tagged(init) + seq(|data[n].rows|, k requires 0 <= k < |data[n].rows| => Logged(data[n].name, data[n].rows[k]));
    if s < n {
      assert init[..s] == data[..s];
      assert init[s] == data[s];
      TaggedWithOwnSheet(init, s, j);
    } else {
      assert data[..s] == init;
    }
  }

  /**
   * `log["Zaman Damgası"]`. A record lacking it is read as the empty text, so
   * it sorts last; the comparator as written handles that case differently.
   */
  function StampOf(l: Logged): string {
    if StampHeader in l.log then l.log[StampHeader] else ""
  }

  /**
   * `(a, b) => b["Zaman Damgası"]?.localeCompare(a["Zaman Damgası"])`: `a`
   * may stay ahead of `b` when `b`'s timestamp text sorts at or before `a`'s.
   */
  function ByStampText(a: Logged, b: Logged): bool {
    LexLe(StampOf(b), StampOf(a))
  }

  /** The "SON İŞLEMLER" list as written: the five records with the greatest timestamp text. */
  function RecentActivityAsWritten(data: Option<seq<Sheet>>): seq<Logged> {
    Top(Sort(Tagged(SheetsOf(data)), ByStampText), 5)
  }

  /** A timestamp as the script formats it: "dd.MM.yyyy HH:mm:ss". */
  predicate WellFormedStamp(s: string) {
    && |s| == 19
    && AllDigits(s[0..2]) && s[2] == '.' && AllDigits(s[3..5]) && s[5] == '.' && AllDigits(s[6..10])
    && s[10] == ' ' && AllDigits(s[11..13]) && s[13] == ':' && AllDigits(s[14..16]) && s[16] == ':'
    && AllDigits(s[17..19])
  }

  /** The instant a well-formed timestamp names, as the number yyyyMMddHHmmss. */
  function Moment(s: string): nat
    requires WellFormedStamp(s)
  {
    var year, month, day := DigitsValue(s[6..10]), DigitsValue(s[3..5]), DigitsValue(s[0..2]);
    var hour, minute, second := DigitsValue(s[11..13]), DigitsValue(s[14..16]), DigitsValue(s[17..19]);
    ((((year * 100 + month) * 100 + day) * 100 + hour) * 100 + minute) * 100 + second
  }

  /** The fields of a well-formed timestamp reordered year first, so that text order is time order. */
  function TimeKey(s: string): string {
    if WellFormedStamp(s) then s[6..10] + s[3..5] + s[0..2] + s[11..13] + s[14..16] + s[17..19]
    else s
  }

  lemma TimeKeyValue(s: string)
    requires WellFormedStamp(s)
    ensures |TimeKey(s)| == 14 && AllDigits(TimeKey(s))
    ensures DigitsValue(TimeKey(s)) == Moment(s)
  {
    var y, mo, d, h, mi, se := s[6..10], s[3..5], s[0..2], s[11..13], s[14..16], s[17..19];
    assert Pow10(2) == 100;
    var k1 := y + mo;
    DigitsValueConcat(y, mo);
    assert DigitsValue(k1) == DigitsValue(y) * 100 + DigitsValue(mo);
    var k2 := k1 + d;
    DigitsValueConcat(k1, d);
    assert DigitsValue(k2) == DigitsValue(k1) * 100 + DigitsValue(d);
    var k3 := k2 + h;
    DigitsValueConcat(k2, h);
    assert DigitsValue(k3) == DigitsValue(k2) * 100 + DigitsValue(h);
    var k4 := k3 + mi;
    DigitsValueConcat(k3, mi);
    assert DigitsValue(k4) == DigitsValue(k3) * 100 + DigitsValue(mi);
    var k5 := k4 + se;
    DigitsValueConcat(k4, se);
    assert DigitsValue(k5) == DigitsValue(k4) * 100 + DigitsValue(se);
    assert TimeKey(s) == k5;
  }

  /** For well-formed timestamps, the order of their keys is the order of the instants they name. */
  lemma TimeKeyOrder(a: string, b: string)
    requires WellFormedStamp(a) && WellFormedStamp(b)
    ensures LexLe(TimeKey(a), TimeKey(b)) <==> Moment(a) <= Moment(b)
  {
    TimeKeyValue(a);
    TimeKeyValue(b);
    LexLeDigits(TimeKey(a), TimeKey(b));
  }

  /** The intended comparator: `a` may stay ahead of `b` when `b` is no later than `a`. */
  function ByTime(a: Logged, b: Logged): bool {
    LexLe(TimeKey(StampOf(b)), TimeKey(StampOf(a)))
  }

  /** The "SON İŞLEMLER" list, latest first: the five most recent records of all sheets. */
  function RecentActivity(data: Option<seq<Sheet>>): seq<Logged> {
    Top(Sort(Tagged(SheetsOf(data)), ByTime), 5)
  }

  lemma ByStampTextIsPreorder()
    ensures Total(ByStampText) && Transitive(ByStampText)
  {
    forall a, b ensures ByStampText(a, b) || ByStampText(b, a) {
      LexLeTotal(StampOf(a), StampOf(b));
    }
    forall a, b, c | ByStampText(a, b) && ByStampText(b, c) ensures ByStampText(a, c) {
      LexLeTransitive(StampOf(c), StampOf(b), StampOf(a));
    }
  }

  lemma ByTimeIsPreorder()
    ensures Total(ByTime) && Transitive(ByTime)
  {
    forall a, b ensures ByTime(a, b) || ByTime(b, a) {
      LexLeTotal(TimeKey(StampOf(a)), TimeKey(StampOf(b)));
    }
    forall a, b, c | ByTime(a, b) && ByTime(b, c) ensures ByTime(a, c) {
      LexLeTransitive(TimeKey(StampOf(c)), TimeKey(StampOf(b)), TimeKey(StampOf(a)));
    }
  }

  /**
   * The list as written holds the first five records (all, when there are
   * fewer), drawn from all sheets and tagged with their sheet, ordered by
   * descending timestamp text, and no record left out has a greater
   * timestamp text than one shown.
   */
  lemma RecentActivityAsWrittenOrder(data: Option<seq<Sheet>>)
    ensures var top := RecentActivityAsWritten(data);
      var all := Tagged(SheetsOf(data));
      && |top| == (if |all| < 5 then |all| else 5)
      && multiset(top) <= multiset(all)
      && (forall i, j | 0 <= i < j < |top| :: LexLe(StampOf(top[j]), StampOf(top[i])))
      && (forall x, y | x in top && y in multiset(all) - multiset(top) :: LexLe(StampOf(y), StampOf(x)))
  {
    var top := RecentActivityAsWritten(data);
    var all := Tagged(SheetsOf(data));
    ByStampTextIsPreorder();
    TopOfSort(all, 5, ByStampText);
    forall i, j | 0 <= i < j < |top| ensures LexLe(StampOf(top[j]), StampOf(top[i])) {
      assert ByStampText(top[i], top[j]);
    }
    forall x, y | x in top && y in multiset(all) - multiset(top) ensures LexLe(StampOf(y), StampOf(x)) {
      assert ByStampText(x, y);
    }
  }

  /**
   * The corrected list holds the five most recent records, latest first:
   * among well-formed timestamps, every record shown is at least as recent
   * as the ones after it and as every record left out.
   */
  lemma RecentActivityOrder(data: Option<seq<Sheet>>)
    ensures var top := RecentActivity(data);
      var all := Tagged(SheetsOf(data));
      && |top| == (if |all| < 5 then |all| else 5)
      && multiset(top) <= multiset(all)
      && (forall i, j | 0 <= i < j < |top| && WellFormedStamp(StampOf(top[i])) && WellFormedStamp(StampOf(top[j])) ::
            Moment(StampOf(top[j])) <= Moment(StampOf(top[i])))
      && (forall x, y | x in top && y in multiset(all) - multiset(top) &&
            WellFormedStamp(StampOf(x)) && WellFormedStamp(StampOf(y)) ::
            Moment(StampOf(y)) <= Moment(StampOf(x)))
  {
    var top := RecentActivity(data);
    var all := Tagged(SheetsOf(data));
    ByTimeIsPreorder();
    TopOfSort(all, 5, ByTime);
    forall i, j | 0 <= i < j < |top| && WellFormedStamp(StampOf(top[i])) && WellFormedStamp(StampOf(top[j]))
      ensures Moment(StampOf(top[j])) <= Moment(StampOf(top[i]))
    {
      assert ByTime(top[i], top[j]);
      TimeKeyOrder(StampOf(top[j]), StampOf(top[i]));
    }
    forall x, y | x in top && y in multiset(all) - multiset(top) &&
        WellFormedStamp(StampOf(x)) && WellFormedStamp(StampOf(y))
      ensures Moment(StampOf(y)) <= Moment(StampOf(x))
    {
      assert ByTime(x, y);
      TimeKeyOrder(StampOf(y), StampOf(x));
    }
  }

  // ---- the day-first ordering of the list as written ----

  const LastDayOfJanuary := "31.01.2025 10:00:00"
  const FirstDayOfFebruary := "01.02.2025 09:00:00"

  lemma DigitPairs()
    ensures forall t: string | t in {"2025", "01", "31", "02", "10", "00", "09"} :: AllDigits(t)
  {
    forall t: string | t in {"2025", "01", "31", "02", "10", "00", "09"} ensures AllDigits(t) {
      forall i | 0 <= i < |t| ensures IsDigit(t[i]) {
        assert i < 4;
        match i case 0 => case 1 => case 2 => case 3 =>
      }
    }
  }

  lemma JanuaryStampReads()
    ensures WellFormedStamp(LastDayOfJanuary) && Moment(LastDayOfJanuary) == 20250131100000
  {
    var a := LastDayOfJanuary;
    DigitPairs();
    assert a[6..10] == "2025";
    assert a[3..5] == "01";
    assert a[0..2] == "31";
    assert a[11..13] == "10";
    assert a[14..16] == "00";
    assert a[17..19] == "00";
    StampDigits();
  }

  lemma FebruaryStampReads()
    ensures WellFormedStamp(FirstDayOfFebruary) && Moment(FirstDayOfFebruary) == 20250201090000
  {
    var b := FirstDayOfFebruary;
    DigitPairs();
    assert b[6..10] == "2025";
    assert b[3..5] == "02";
    assert b[0..2] == "01";
    assert b[11..13] == "09";
    assert b[14..16] == "00";
    assert b[17..19] == "00";
    StampDigits();
  }

  lemma StampDigits()
    ensures DigitsValue("2025") == 2025
    ensures DigitsValue("01") == 1 && DigitsValue("02") == 2 && DigitsValue("31") == 31
    ensures DigitsValue("10") == 10 && DigitsValue("09") == 9 && DigitsValue("00") == 0
  {
    DigitPairs();
    DigitsValueTwo("01");
    DigitsValueTwo("02");
    DigitsValueTwo("31");
    DigitsValueTwo("10");
    DigitsValueTwo("09");
    DigitsValueTwo("00");
    assert AllDigits("20") && AllDigits("25") by {
      assert "2025"[..2] == "20" && "2025"[2..] == "25";
    }
    DigitsValueTwo("20");
    DigitsValueTwo("25");
    DigitsValueFour("2025");
    assert "2025"[..2] == "20" && "2025"[2..] == "25";
  }

  /**
   * Ordering by the timestamp text compares the day of the month first: a
   * record of 31 January ranks strictly above a later one of 1 February,
   * while the corrected order puts the later one first.
   */
  lemma DayFirstOrderMisranks()
    ensures WellFormedStamp(LastDayOfJanuary) && WellFormedStamp(FirstDayOfFebruary)
    ensures Moment(LastDayOfJanuary) < Moment(FirstDayOfFebruary)
    ensures var jan := Logged("Sorunlar", map[StampHeader := LastDayOfJanuary]);
      var feb := Logged("Sorunlar", map[StampHeader := FirstDayOfFebruary]);
      && ByStampText(jan, feb) && !ByStampText(feb, jan)
      && ByTime(feb, jan) && !ByTime(jan, feb)
  {
    JanuaryStampReads();
    FebruaryStampReads();
    TimeKeyOrder(LastDayOfJanuary, FirstDayOfFebruary);
    TimeKeyOrder(FirstDayOfFebruary, LastDayOfJanuary);
  }
}
