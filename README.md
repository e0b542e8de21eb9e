# SahaRapor field reporting: a Dafny model

SahaRapor is a web app for telecom field teams. A team logs in with its team
code. It then records problems, damage reports, job completions, device
movements and similar records. Each record is kept in the browser and posted
as JSON to a Google Apps Script endpoint. The endpoint appends the record as
a row to the sheet for its `reportType`, and it also serves every sheet back
as header-keyed records. A manager panel reads those records to show counts,
the job total, per-team activity, a searchable table and the latest activity.

This project models the core of that system and proves what it promises:

- `backend.dfy` (module `Backend`) models the endpoint `sheetscrpt.js`.
  - The spreadsheet is a class whose one field maps sheet names to rows of text cells.
  - `DoPost` chooses the sheet and header row, creates a missing sheet, builds the row and appends it.
  - `DoGet` reads every sheet back as records.
  - The timestamp, the parsed JSON body and the Drive upload outcome are inputs.
  - The central invariant is that every row lines up, column by column, with its sheet's header row.
- `manager_dashboard.dfy` (module `ManagerDashboard`) models the manager panel. This covers the headline counts, the "Adet" total, the per-team tally (a loop over a map), the top-ten team ranking, the table search, how a cell is shown and the recent-activity list.
- `app.dfy` (module `App`) models the client state handlers as pure reducers.
- The four client forms each have their own module:
  - `job_completion_form.dfy`;
  - `dashboard.dfy`;
  - `inventory_form.dfy`;
  - `pin_entry.dfy`.

  Each form is a class over its state fields, and its handlers are methods.
- Shared modules:
  - `types.dfy`: the record types;
  - `text.dfy`: string search, code-point order, decimal text and `Number(...) || 0`;
  - `ranking.dfy`: an insertion sort by a comparator, then `.slice(0, n)`;
  - `wrappers.dfy`: `Option`.

Upper- and lower-casing, the `parseFloat` test of the map-link rule, ids,
clocks and the network are parameters or inputs of the operations that use
them.

## Model

| member | source | states |
|---|---|---|
| App.Initial | App.tsx:11-23 | the state with nothing saved is logged out, with an empty team code, all eight lists empty and no sheet URL |
| App.Login | App.tsx:30-36 | logging in sets the flag and the team code to the pin; every other field is unchanged |
| App.Logout | App.tsx:38-44 | logging out clears the flag and the team code and keeps every list and the sheet URL |
| App.AddReport | App.tsx:46-48 | the new problem report goes in front of its list, the rest of the list is as before, and every other field is unchanged |
| App.AddImprovementReport | App.tsx:50-52 | the same, for improvement reports |
| App.AddModemReport | App.tsx:54-56 | the same, for modem setups |
| App.AddDamageReport | App.tsx:58-60 | the same, for damage reports |
| App.AddJobCompletion | App.tsx:62-64 | the same, for job completions |
| App.AddVehicleLog | App.tsx:66-68 | the same, for vehicle logs |
| App.AddPortChange | App.tsx:70-72 | the same, for port changes |
| App.AddInventoryLog | App.tsx:74-76 | the same, for inventory logs |
| App.UpdateSheetUrl | App.tsx:78-80 | only the sheet URL changes, and it becomes the new URL |
| App.LogoutUndoesLogin | App.tsx:30-44 | logging out after a login leaves the same state as logging out alone |
| App.UpdateSheetUrlLastWins | App.tsx:78-80 | saving the same URL twice equals saving it once, and a later URL replaces an earlier one |
| App.ApplyKeepsRecords | App.tsx:30-80 | no single handler call drops or changes a stored record; only adding a completion lengthens the completion list, by one |
| App.RunKeepsRecords | App.tsx:30-80 | over any sequence of handler calls, logouts included, every earlier list survives as the tail of its list, and the completion list grows by exactly the number of completions added |
| Backend.KindOf | sheetscrpt.js:43-76 | a report type falls to the generic case exactly when it is none of the eight known types |
| Backend.LocationCell | sheetscrpt.js:88 | the location cell is "-" exactly when there is no location; otherwise it is the latitude, a comma and the longitude |
| Backend.ImageFormula | sheetscrpt.js:100 | the cell for a stored photo starts with "=IMAGE" |
| Backend.PhotoCell | sheetscrpt.js:90-104 | no base64 photo gives a blank cell; an upload Drive stores gives the image formula; a refused upload, or a photo with no comma to split on, gives the fallback tag followed by the photo cut to its first 30000 characters |
| Backend.PhotoFallbackKeepsStart | sheetscrpt.js:102 | the fallback cell is the tag followed by exactly the first min(length, 30000) characters of the photo |
| Backend.SchemaRow | sheetscrpt.js:106-124 | the row a layout calls for is exactly as wide as that layout's header row |
| Backend.ProblemRowIsSchemaRow | sheetscrpt.js:44-47 | the timestamp, the team and the cells of the 'problem' branch are, column by column, the cells the problem headers name (sheetscrpt.js:106-109) |
| Backend.DamageRowIsSchemaRow | sheetscrpt.js:48-51 | the same for 'damage_report', with the two joined text cells (sheetscrpt.js:110-111) |
| Backend.InventoryRowIsSchemaRow | sheetscrpt.js:52-55 | the same for 'inventory', with "-" for a missing service number (sheetscrpt.js:112-113) |
| Backend.JobCompletionRowIsSchemaRow | sheetscrpt.js:56-59 | the same for 'job_completion' (sheetscrpt.js:114-115) |
| Backend.VehicleRowIsSchemaRow | sheetscrpt.js:60-63 | the same for 'vehicle_log' (sheetscrpt.js:116-117) |
| Backend.ModemRowIsSchemaRow | sheetscrpt.js:64-67 | the same for 'modem_setup' (sheetscrpt.js:118-119) |
| Backend.PortRowIsSchemaRow | sheetscrpt.js:68-71 | the same for 'port_change' (sheetscrpt.js:120-121) |
| Backend.ImprovementRowIsSchemaRow | sheetscrpt.js:72-75 | the same for 'improvement' (sheetscrpt.js:122-123) |
| Backend.BuildRow | sheetscrpt.js:106-124 | the row built by the pushes of the report's branch is the row its layout calls for, so it lines up with the header row |
| Backend.RowWidths | sheetscrpt.js:43-76 | rows have 9, 20, 6, 5, 4, 5, 6, 12 and 2 cells for problem, damage, inventory, job completion, vehicle, modem, port, improvement and generic reports |
| Backend.RowStartsWithStampAndTeam | sheetscrpt.js:106 | every row starts with the timestamp, then the team code, or "-" when it is missing or empty |
| Backend.InventoryWithoutServiceNumber | sheetscrpt.js:113 | an inventory row without a service number has "-" under "Hizmet No" |
| Backend.UntypedGoesToRecords | sheetscrpt.js:38-41 | a body without a usable report type is written to the generic sheet "Kayıtlar" |
| Backend.SheetNameInjective | sheetscrpt.js:43-76 | two report kinds share a sheet name only when they are the same kind |
| Backend.HeadersDistinct | sheetscrpt.js:41-75 | no header text repeats within a header row |
| Backend.Spreadsheet.constructor | sheetscrpt.js:36 | the active spreadsheet starts with the given sheets |
| Backend.Spreadsheet.InsertSheet | sheetscrpt.js:80 | inserting a missing sheet adds it empty and changes nothing else |
| Backend.Spreadsheet.AppendRow | sheetscrpt.js:126 | the row becomes the last row of its sheet; no other sheet and no earlier row changes |
| Backend.AppendTo | sheetscrpt.js:78-84 | a missing sheet is created with the header row, then the row is appended; an existing sheet only gains the row at its end; every other sheet is unchanged |
| Backend.DoPost | sheetscrpt.js:32-133 | no body gives "Hata: Veri Yok" and a body that does not parse gives "Hata: " and the message, both with the sheets unchanged; a parsed body gives "Başarılı" and the sheets with its row appended |
| Backend.Grid | sheetscrpt.js:14 | the data range has every row padded with blank cells to the widest row |
| Backend.RecordOf | sheetscrpt.js:17-21 | a row's record has exactly the header texts as keys |
| Backend.RecordOfLookup | sheetscrpt.js:19 | under each header text the record holds the cell of the last column with that header |
| Backend.SheetRecords | sheetscrpt.js:15-25 | a sheet with at most one row has no records; otherwise it has one record per row below the header row |
| Backend.View | sheetscrpt.js:12-26 | there is one entry per sheet, under the sheet's name |
| Backend.MakeRecord | sheetscrpt.js:18-20 | filling the object one header at a time builds the row's record |
| Backend.ReadSheet | sheetscrpt.js:14-25 | one sheet read in a loop gives that sheet's records |
| Backend.DoGet | sheetscrpt.js:7-30 | the answer holds every sheet under its name, with its records |
| Backend.GridUniform | sheetscrpt.js:14 | rows that are all as wide come back from the data range unchanged |
| Backend.FormattedRecords | sheetscrpt.js:15-22 | the records of a formatted sheet are its rows below the header row, in order, keyed by the header row |
| Backend.AppendedRecords | sheetscrpt.js:126 | one more row as wide as the header row adds one record, at the end |
| Backend.AppendAddsRecord | sheetscrpt.js:78-84 | appending to a formatted or missing sheet keeps it formatted and adds the row's record at the end of what is read back; other sheets read back as before |
| Backend.PostKeepsAligned | sheetscrpt.js:78-126 | a successful post keeps every report sheet formatted for its kind: the header row first, then rows of its width |
| Backend.PostAddsRecord | sheetscrpt.js:32-133 | after a successful post, what is read back gains exactly one record, at the end of the report's sheet, and every other sheet reads back as before |
| Backend.PostedRecordCells | sheetscrpt.js:12-26 | the record of a posted row holds each column's cell under that column's header |
| Backend.JobCompletionRecordAdet | sheetscrpt.js:58 | the record of a posted job completion holds the body's `isAdedi` under "Adet" |
| ManagerDashboard.Find | components/ManagerDashboard.tsx:67-71 | looking a sheet name up finds nothing exactly when no listed sheet has that name; otherwise it finds that sheet's records |
| ManagerDashboard.FindListed | components/ManagerDashboard.tsx:64-72 | looking a name up in the fetched listing is looking it up in the sheets `doGet` served |
| ManagerDashboard.ComputeStats | components/ManagerDashboard.tsx:66-72 | with no data every headline count is 0 |
| ManagerDashboard.CountListed | components/ManagerDashboard.tsx:67-71 | a headline count (`Count`) is the length of the named sheet's list, or 0 when that sheet is absent |
| ManagerDashboard.AdetSumConcat | components/ManagerDashboard.tsx:69 | the "Adet" total of two runs of rows is the sum of their totals |
| ManagerDashboard.AdetSumOfOnes | components/ManagerDashboard.tsx:69 | rows each holding "1" under "Adet" add up to how many there are |
| ManagerDashboard.PostCountsOnce | components/ManagerDashboard.tsx:66-72 | after a successful post, the count of the report's sheet is one higher and every other count is as before |
| ManagerDashboard.JobsSheetGains | components/ManagerDashboard.tsx:69 | posting a job completion adds the body's `isAdedi`, read as a number with 0 for unreadable text, to the "Adet" total of the jobs sheet |
| ManagerDashboard.PostAddsJobs | components/ManagerDashboard.tsx:69 | posting a job completion raises `totalJobs` (`TotalJobs`) by its `isAdedi` |
| ManagerDashboard.Appearances | components/ManagerDashboard.tsx:75-84 | the entry order of the team tally has each team once, and exactly the teams that appear in some row |
| ManagerDashboard.CountTeams | components/ManagerDashboard.tsx:75-83 | the nested loops count, for each team, the rows across all sheets whose "Ekip" is that team; teams with no row get no entry; entries are created in order of first appearance |
| ManagerDashboard.CountSheet | components/ManagerDashboard.tsx:78-81 | the inner loop adds one sheet's rows to the tally of the rows before it |
| ManagerDashboard.ByCountIsPreorder | components/ManagerDashboard.tsx:84 | the count comparator relates every two entries and is transitive |
| ManagerDashboard.GetTeamStats | components/ManagerDashboard.tsx:74-85 | the result has ten entries, or every team when there are fewer; each is a distinct team with its true count of at least 1; counts never rise down the list; no team left out has more records than a team shown |
| ManagerDashboard.TeamStatsHold | components/ManagerDashboard.tsx:84 | the facts `GetTeamStats` promises follow from sorting and cutting the tally's entries |
| ManagerDashboard.ScoresFollowRanking | components/ManagerDashboard.tsx:312 | the score (`Score`), 12 points per record, never rises down the ranked team list |
| ManagerDashboard.FilterRows | components/ManagerDashboard.tsx:127-129 | the search keeps exactly the rows with a field whose lower-cased text contains the lower-cased term |
| ManagerDashboard.FilterRowsConcat | components/ManagerDashboard.tsx:127-129 | the search keeps the original row order |
| ManagerDashboard.EmptyTermKeepsRows | components/ManagerDashboard.tsx:127-129 | an empty search box shows every row that has a field |
| ManagerDashboard.BeforeComma | components/ManagerDashboard.tsx:109 | `split(',')[0]` is the longest start of the text without a comma |
| ManagerDashboard.RenderCell | components/ManagerDashboard.tsx:87-123 | a missing value shows "-"; text starting "=IMAGE" shows the image placeholder; text with a comma whose first part reads as a number shows a map link to itself; anything else shows its text |
| ManagerDashboard.StoredPhotoShowsPlaceholder | components/ManagerDashboard.tsx:104-106 | a photo cell written for a stored upload (sheetscrpt.js:100) shows as the placeholder, when it is read back as the formula text that was written |
| ManagerDashboard.LocationShowsLink | components/ManagerDashboard.tsx:109-120 | a location cell whose latitude reads as a number shows as a map link (sheetscrpt.js:88) |
| ManagerDashboard.Tagged | components/ManagerDashboard.tsx:268 | the merged list has every record of every sheet, in sheet order |
| ManagerDashboard.TaggedWithOwnSheet | components/ManagerDashboard.tsx:268 | row j of sheet s sits right after the records of the sheets before s, tagged with the name of s, the sheet it was read from |
| ManagerDashboard.ByStampTextIsPreorder | components/ManagerDashboard.tsx:269 | the timestamp-text comparator relates every two records and is transitive |
| ManagerDashboard.RecentActivityAsWrittenOrder | components/ManagerDashboard.tsx:268-270 | the list as written (`RecentActivityAsWritten`) has five records, or all of them when there are fewer; they are drawn from all sheets and ordered by descending timestamp text; no record left out has a greater timestamp text than one shown |
| ManagerDashboard.DayFirstOrderMisranks | components/ManagerDashboard.tsx:269 | ordering by the timestamp text ranks 31 January above 1 February of the same year, although 1 February is later |
| ManagerDashboard.TimeKeyValue | sheetscrpt.js:87 | a "dd.MM.yyyy HH:mm:ss" timestamp rearranged year first reads as the number yyyyMMddHHmmss of the instant it names |
| ManagerDashboard.TimeKeyOrder | sheetscrpt.js:87 | for well-formed timestamps, the text order of the rearranged keys is the time order |
| ManagerDashboard.ByTimeIsPreorder | components/ManagerDashboard.tsx:269 | the corrected comparator relates every two records and is transitive |
| ManagerDashboard.RecentActivityOrder | components/ManagerDashboard.tsx:268-270 | the corrected list has the five most recent records, latest first: among well-formed timestamps, no record after it or left out is later than one shown |
| JobCompletionForm.OfType | components/JobCompletionForm.tsx:27-28 | the filter keeps exactly the completions of the chosen type |
| JobCompletionForm.OfTypeConcat | components/JobCompletionForm.tsx:27-28 | filtering a concatenation filters each part, so the filter keeps the completions' order and how often each appears |
| JobCompletionForm.OfTypeSingle | components/JobCompletionForm.tsx:27-28 | a single completion is kept exactly when it has the chosen type |
| JobCompletionForm.CountersShareAdedi | components/JobCompletionForm.tsx:27-29 | `totalCount`, the ARIZA count plus the TESİS count, is the `isAdedi` sum of all completions |
| JobCompletionForm.PrependMovesOwnCounter | components/JobCompletionForm.tsx:27-28 | a completion put in front moves only its own type's counter, by its `isAdedi` |
| JobCompletionForm.SubmittedCompletionCountsOne | components/JobCompletionForm.tsx:40-49 | once the app puts a submitted completion in front of its list (App.tsx:62-64), the chosen type's counter rises by one and the other is unchanged |
| JobCompletionForm.Form.constructor | components/JobCompletionForm.tsx:22-24 | the form starts with no service number, ARIZA and not submitting |
| JobCompletionForm.Form.SetHizmetNo | components/JobCompletionForm.tsx:114 | typing sets the service number only |
| JobCompletionForm.Form.SetIsTipi | components/JobCompletionForm.tsx:124-136 | a type button sets the job type only |
| JobCompletionForm.Form.HandleSubmit | components/JobCompletionForm.tsx:31-70 | an empty service number is refused and changes nothing; otherwise it returns a completion of the chosen type worth one job, sent, posted when a sheet URL is set and handed on whatever the post did; the service number is cleared and the type kept |
| JobCompletionForm.CompletionPayloadReads | components/JobCompletionForm.tsx:40-57 | the endpoint reads the posted completion as a 'job_completion' with its `isAdedi` and team |
| JobCompletionForm.PostedCompletionRow | components/JobCompletionForm.tsx:40-57 | the posted completion becomes the row timestamp, team or "-", service number, type and "1" of the jobs sheet (sheetscrpt.js:114-115) |
| JobCompletionForm.PostedCompletionAddsOneJob | components/JobCompletionForm.tsx:44 | posting a completion the form built raises the manager's `totalJobs` by exactly one |
| Dashboard.TotalJobsDone | components/Dashboard.tsx:62 | the jobs-done total equals the job form's `totalCount` |
| Dashboard.FindTab | components/Dashboard.tsx:77 | the lookup finds the first tab with the id, and finds nothing only when no tab has it |
| Dashboard.TabIdsDistinct | components/Dashboard.tsx:64-75 | no two tabs share an id |
| Dashboard.CurrentTabMatches | components/Dashboard.tsx:77 | every id has a tab, so the current tab is always the active tab and the fallback never fires |
| Dashboard.PanelsOnePerTab | components/Dashboard.tsx:153-173 | each tab shows its own panel (`PanelFor`), and the config panel shows exactly for settings |
| Dashboard.Navigation.constructor | components/Dashboard.tsx:59-60 | the screen opens on the vehicle tab with the menu closed |
| Dashboard.Navigation.HandleTabChange | components/Dashboard.tsx:79-83 | choosing a tab from the menu shows it and closes the menu |
| Dashboard.Navigation.SelectTab | components/Dashboard.tsx:142 | a sidebar button shows its tab and leaves the menu as it was |
| Dashboard.Navigation.ToggleMenu | components/Dashboard.tsx:107 | the menu button flips the menu and keeps the tab |
| Dashboard.Navigation.Complete | components/Dashboard.tsx:154-168 | after the problem, improvement, damage, modem, port or vehicle form completes, the history tab shows; the job and inventory forms stay |
| InventoryForm.BuildLog | components/InventoryForm.tsx:96-100 | the log has the upper-cased serial number, no service number exactly when none was typed, the chosen device type, and status sent |
| InventoryForm.Form.constructor | components/InventoryForm.tsx:83-86 | the defaults are receiving a MODEM with nothing typed and the scanner closed |
| InventoryForm.Form.SetActionType | components/InventoryForm.tsx:119 | an action tab changes the action only |
| InventoryForm.Form.ChooseDevice | components/InventoryForm.tsx:148-150 | a device button sets one of MODEM, GPON, DECO and STB and nothing else |
| InventoryForm.Form.Type | components/InventoryForm.tsx:133-139 | typing sets the serial and service numbers only |
| InventoryForm.Form.OpenScanner | components/InventoryForm.tsx:140 | the scan button opens the scanner and changes nothing else |
| InventoryForm.Form.HandleScanSuccess | components/InventoryForm.tsx:88-91 | a scan sets the serial number to the upper-cased text and closes the scanner; the service number and device type are kept |
| InventoryForm.Form.HandleSubmit | components/InventoryForm.tsx:93-105 | the log built from the fields is posted when a sheet URL is set and handed on whatever the post did; serial and service numbers are cleared; action and device type are kept |
| InventoryForm.LogPayloadReads | components/InventoryForm.tsx:96-101 | the endpoint reads the posted log (`LogPayload`, the JSON body, without the fields left undefined) as an inventory movement, field by field, with "-" for a missing service number |
| InventoryForm.SubmittedLogRow | components/InventoryForm.tsx:96-101 | a submitted log becomes the row timestamp, team, action, upper-cased serial number, service number or "-", and device type (sheetscrpt.js:112-113) |
| InventoryForm.ServiceNumberInRow | components/InventoryForm.tsx:130-135 | since the service number is required unless receiving, an install or return row always carries it; only a receive row can show "-" |
| PinEntry.TrimStartRemovesSpace | components/PINEntry.tsx:16 | trimming the front removes only white space and leaves text that starts with something else |
| PinEntry.TrimEndRemovesSpace | components/PINEntry.tsx:16 | trimming the back removes only white space and leaves text that ends with something else |
| PinEntry.TrimKeepsInfix | components/PINEntry.tsx:16 | the trimmed code is the part of the input right after its leading white space |
| PinEntry.TrimDropsTrailingSpace | components/PINEntry.tsx:16 | everything in the input after the trimmed code is white space |
| PinEntry.TrimEdges | components/PINEntry.tsx:16 | the trimmed code neither starts nor ends with white space |
| PinEntry.TrimIdempotent | components/PINEntry.tsx:16-17 | trimming twice gives what trimming once gives |
| PinEntry.Form.constructor | components/PINEntry.tsx:10-11 | the field starts empty with no error |
| PinEntry.Form.SetPin | components/PINEntry.tsx:44-46 | the field keeps at most the first 15 characters typed |
| PinEntry.Form.HandleSubmit | components/PINEntry.tsx:13-22 | a code logs in exactly when its trimmed length is at least 3; the login is the trimmed, upper-cased code of 3 to 15 characters; a rejected code logs nobody in and raises the error flag |
| PinEntry.Form.ClearError | components/PINEntry.tsx:20 | the timer clears the error flag and keeps the code |
| Ranking.Sort | components/ManagerDashboard.tsx:84 | sorting keeps the length and the elements |
| Ranking.SortRanked | components/ManagerDashboard.tsx:84 | with a total, transitive comparator, the sorted list has each element ranked at least as high as every later one |
| Ranking.TopOfSort | components/ManagerDashboard.tsx:84 | the head of the sort is ranked, drawn from the input, as long as the cut allows, and ranks at least as high as everything it leaves out |
| Ranking.Top | sheetscrpt.js:102 | `substring(0, n)` and `.slice(0, n)` give exactly the first n elements, or the whole list when it is shorter |
| Text.NumberOrZeroReadsIntText | components/ManagerDashboard.tsx:69 | the number-or-zero reading of the jobs total reads back the integer whose decimal text was written |
| Text.LexLeDigits | components/ManagerDashboard.tsx:269 | for digit strings of equal length, text order is numeric order |

## Left out

- Network I/O is not modelled.
  - The forms' `fetch` POSTs are modelled only as the request each form hands out: an `Option` of the body, present when a sheet URL is set. The outcome of the post is not modelled, and the record is handed on regardless.
  - The manager panel's GET is replaced by a parameter, the fetched list of sheets.
- Google Apps Script services are inputs or left out.
  - `SpreadsheetApp` is the `Spreadsheet` class.
  - `Utilities.formatDate` is a timestamp string passed in.
  - The Drive upload is a `Drive` input, either stored under a file id or refused. The folder lookup, the file name and the sharing call are left out.
  - Bold headers, frozen rows and row height are left out, because they change no cell.
- `JSON.parse` is replaced by the `PostData` input: a parsed body, or the parser's error message. A parsed body holds each field as the text it would be written as. Any other exception of the script's `try` block is not modelled.
- `localStorage` persistence in App.tsx is left out. The initial state is the one used when nothing is saved.
- The sheet locale is not modelled. A sheet whose locale turns the timestamp into a date value would make `doGet` return a date object. The model keeps every cell as text.
- ManagerDashboard.StoredPhotoShowsPlaceholder: a formula cell is read back as the formula text the script wrote. Apps Script's `getValues()` returns a formula's computed value instead, so an `=IMAGE(...)` cell may not come back starting with "=IMAGE".
- ManagerDashboard.StampOf: a record without "Zaman Damgası" is read as the empty text and sorts last. In the source comparator, a missing stamp on one side reads as `undefined`, so the comparison is not consistent and the order depends on the engine. Sheets that `doPost` wrote always have the stamp, but the spreadsheet may start with other sheets.
- `Object.keys` key order: the fetched object is a list of sheets in some order. JavaScript puts integer-like keys first, and that ordering is not modelled.
- ManagerDashboard.Appearances: the `teams` tally is ordered by each team's first appearance. `Object.entries` lists integer-like keys first, in numeric order, so a team code made only of digits would be listed earlier. JavaScript's sort keeps tied elements in their input order, so that order decides which of several tied teams come first and which survive `.slice(0, 10)`. `GetTeamStats` states nothing about the order among tied teams.
- Character-level Unicode behaviour is not modelled.
  - `toUpperCase`, `toLowerCase` and the `parseFloat` test are function parameters.
  - `localeCompare` is code-point order.
  - The 15-character cap counts characters, not UTF-16 code units.
- ManagerDashboard.Adet: `Number(x) || 0` is modelled only for an optional minus sign followed by decimal digits. Other numeric text, such as "1.5" or " 2", reads as 0, because the job form only ever sends integers.
- The barcode scanner, the audio cue, `crypto.randomUUID` and `toLocaleString` timestamps are outside the model. Ids and timestamps are parameters.
- The report, damage, improvement, modem, port and vehicle forms, the history list and the settings tab are not part of this model. Their records reach the model as payloads for `DoPost` and as records for the `add*` reducers.
- All JSX rendering is left out. The manager panel's rendering is modelled only as the values it shows: counts, ranked teams, filtered rows, cell kinds and the recent list.
- InventoryForm.Form.SetActionType: switching to receive hides the service number field but keeps its text. The model keeps it too, so a hidden service number can still be posted.

## Findings

| source | as written | input that shows it | evidently intended | confidence | as-written member | corrected member |
|---|---|---|---|---|---|---|
| components/ManagerDashboard.tsx:269 | the recent-activity list sorts by comparing the "Zaman Damgası" text, which the script writes as "dd.MM.yyyy HH:mm:ss" (sheetscrpt.js:87), so the day of the month decides first | "31.01.2025 10:00:00" sorts above "01.02.2025 09:00:00", so a record of 31 January is listed as more recent than one of 1 February | the latest records first, ordered by the instant each timestamp names | medium, not executed; a sheet whose locale turns the stamps into dates would order them differently | ManagerDashboard.DayFirstOrderMisranks | ManagerDashboard.RecentActivityOrder |
