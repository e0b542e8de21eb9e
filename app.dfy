/**
 * The client's state and the handlers that change it (App.tsx). Every handler
 * is a reducer: it builds a new state from the previous one with exactly one
 * or two fields replaced, and a new record goes to the front of its own list.
 */
module App {
  import opened Types

  datatype AppState = AppState(
    isLoggedIn: bool,
    ekipKodu: string,
    reports: seq<Report>,
    improvementReports: seq<ImprovementReport>,
    modemReports: seq<ModemSetupReport>,
    damageReports: seq<DamageReport>,
    jobCompletions: seq<JobCompletionReport>,
    vehicleLogs: seq<VehicleLog>,
    portChanges: seq<PortChangeReport>,
    inventoryLogs: seq<InventoryLog>,
    sheetUrl: string)

  /** The fields of the state, to say which ones a handler may change. */
  datatype Slot =
    | LoggedInSlot | EkipKoduSlot | ReportsSlot | ImprovementsSlot | ModemsSlot
    | DamagesSlot | JobsSlot | VehiclesSlot | PortsSlot | InventorySlot | SheetUrlSlot

  /** Every field outside `changed` is the same in `s` and `t`. */
  predicate SameOutside(s: AppState, t: AppState, changed: set<Slot>) {
    && (LoggedInSlot !in changed ==> t.isLoggedIn == s.isLoggedIn)
    && (EkipKoduSlot !in changed ==> t.ekipKodu == s.ekipKodu)
    && (ReportsSlot !in changed ==> t.reports == s.reports)
    && (ImprovementsSlot !in changed ==> t.improvementReports == s.improvementReports)
    && (ModemsSlot !in changed ==> t.modemReports == s.modemReports)
    && (DamagesSlot !in changed ==> t.damageReports == s.damageReports)
    && (JobsSlot !in changed ==> t.jobCompletions == s.jobCompletions)
    && (VehiclesSlot !in changed ==> t.vehicleLogs == s.vehicleLogs)
    && (PortsSlot !in changed ==> t.portChanges == s.portChanges)
    && (InventorySlot !in changed ==> t.inventoryLogs == s.inventoryLogs)
    && (SheetUrlSlot !in changed ==> t.sheetUrl == s.sheetUrl)
  }

  /** `after` is `before` with `x` in front: one longer, `x` first, the rest as it was. */
  predicate Prepended<T(==)>(after: seq<T>, x: T, before: seq<T>) {
    |after| == |before| + 1 && after[0] == x && after[1..] == before
  }

  /** The state with nothing saved: logged out, no team, no records, no sheet URL. */
  function Initial(): (s: AppState)
    ensures !s.isLoggedIn && s.ekipKodu == "" && s.sheetUrl == ""
    ensures s.reports == [] && s.improvementReports == [] && s.modemReports == []
    ensures s.damageReports == [] && s.jobCompletions == [] && s.vehicleLogs == []
    ensures s.portChanges == [] && s.inventoryLogs == []
  {
    AppState(false, "", [], [], [], [], [], [], [], [], "")
  }

  /** `handleLogin` */
  function Login(s: AppState, pin: string): (t: AppState)
    ensures t.isLoggedIn && t.ekipKodu == pin
    ensures SameOutside(s, t, {LoggedInSlot, EkipKoduSlot})
  {
    s.(isLoggedIn := true, ekipKodu := pin)
  }

  /** `handleLogout`: the records and the sheet URL are kept. */
  function Logout(s: AppState): (t: AppState)
    ensures !t.isLoggedIn && t.ekipKodu == ""
    ensures SameOutside(s, t, {LoggedInSlot, EkipKoduSlot})
  {
    s.(isLoggedIn := false, ekipKodu := "")
  }

  /** `addReport` */
  function AddReport(s: AppState, r: Report): (t: AppState)
    ensures Prepended(t.reports, r, s.reports)
    ensures SameOutside(s, t, {ReportsSlot})
  {
    s.(reports := [r] + s.reports)
  }

  /** `addImprovementReport` */
  function AddImprovementReport(s: AppState, r: ImprovementReport): (t: AppState)
    ensures Prepended(t.improvementReports, r, s.improvementReports)
    ensures SameOutside(s, t, {ImprovementsSlot})
  {
    s.(improvementReports := [r] + s.improvementReports)
  }

  /** `addModemReport` */
  function AddModemReport(s: AppState, r: ModemSetupReport): (t: AppState)
    ensures Prepended(t.modemReports, r, s.modemReports)
    ensures SameOutside(s, t, {ModemsSlot})
  {
    s.(modemReports := [r] + s.modemReports)
  }

  /** `addDamageReport` */
  function AddDamageReport(s: AppState, r: DamageReport): (t: AppState)
    ensures Prepended(t.damageReports, r, s.damageReports)
    ensures SameOutside(s, t, {DamagesSlot})
  {
    s.(damageReports := [r] + s.damageReports)
  }

  /** `addJobCompletion` */
  function AddJobCompletion(s: AppState, r: JobCompletionReport): (t: AppState)
    ensures Prepended(t.jobCompletions, r, s.jobCompletions)
    ensures SameOutside(s, t, {JobsSlot})
  {
    s.(jobCompletions := [r] + s.jobCompletions)
  }

  /** `addVehicleLog` */
  function AddVehicleLog(s: AppState, r: VehicleLog): (t: AppState)
    ensures Prepended(t.vehicleLogs, r, s.vehicleLogs)
    ensures SameOutside(s, t, {VehiclesSlot})
  {
    s.(vehicleLogs := [r] + s.vehicleLogs)
  }

  /** `addPortChange` */
  function AddPortChange(s: AppState, r: PortChangeReport): (t: AppState)
    ensures Prepended(t.portChanges, r, s.portChanges)
    ensures SameOutside(s, t, {PortsSlot})
  {
    s.(portChanges := [r] + s.portChanges)
  }

  /** `addInventoryLog` */
  function AddInventoryLog(s: AppState, r: InventoryLog): (t: AppState)
    ensures Prepended(t.inventoryLogs, r, s.inventoryLogs)
    ensures SameOutside(s, t, {InventorySlot})
  {
    s.(inventoryLogs := [r] + s.inventoryLogs)
  }

  /** `updateSheetUrl` */
  function UpdateSheetUrl(s: AppState, url: string): (t: AppState)
    ensures t.sheetUrl == url
    ensures SameOutside(s, t, {SheetUrlSlot})
  {
    s.(sheetUrl := url)
  }

  /** Logging out after logging in leaves what logging out alone leaves. */
  lemma LogoutUndoesLogin(s: AppState, pin: string)
    ensures Logout(Login(s, pin)) == Logout(s)
  {
  }

  /** Saving the same URL twice is saving it once; a later URL replaces an earlier one. */
  lemma UpdateSheetUrlLastWins(s: AppState, first: string, second: string)
    ensures UpdateSheetUrl(UpdateSheetUrl(s, first), first) == UpdateSheetUrl(s, first)
    ensures UpdateSheetUrl(UpdateSheetUrl(s, first), second) == UpdateSheetUrl(s, second)
  {
  }

  // ---- the handlers as a sequence of events ----

  /** One call of a handler that App.tsx hands to its children. */
  datatype Event =
    | LoginEvent(pin: string)
    | LogoutEvent
    | ReportAdded(report: Report)
    | ImprovementAdded(improvement: ImprovementReport)
    | ModemAdded(modem: ModemSetupReport)
    | DamageAdded(damage: DamageReport)
    | JobAdded(job: JobCompletionReport)
    | VehicleAdded(vehicle: VehicleLog)
    | PortAdded(port: PortChangeReport)
    | InventoryAdded(log: InventoryLog)
    | SheetUrlUpdated(url: string)

  function Apply(s: AppState, e: Event): AppState {
    match e
    case LoginEvent(pin) => Login(s, pin)
    case LogoutEvent => Logout(s)
    case ReportAdded(r) => AddReport(s, r)
    case ImprovementAdded(r) => AddImprovementReport(s, r)
    case ModemAdded(r) => AddModemReport(s, r)
    case DamageAdded(r) => AddDamageReport(s, r)
    case JobAdded(r) => AddJobCompletion(s, r)
    case VehicleAdded(r) => AddVehicleLog(s, r)
    case PortAdded(r) => AddPortChange(s, r)
    case InventoryAdded(r) => AddInventoryLog(s, r)
    case SheetUrlUpdated(url) => UpdateSheetUrl(s, url)
  }

  /** The state after the events, applied in order. */
  function Run(s: AppState, events: seq<Event>): AppState
    decreases |events|
  {
    if events == [] then s else Run(Apply(s, events[0]), events[1..])
  }

  predicate IsSuffix<T(==)>(tail: seq<T>, s: seq<T>) {
    |tail| <= |s| && s[|s| - |tail|..] == tail
  }

  /** Every list of `s` survives, unchanged, at the end of the same list of `t`. */
  predicate KeepsRecords(s: AppState, t: AppState) {
    && IsSuffix(s.reports, t.reports)
    && IsSuffix(s.improvementReports, t.improvementReports)
    && IsSuffix(s.modemReports, t.modemReports)
    && IsSuffix(s.damageReports, t.damageReports)
    && IsSuffix(s.jobCompletions, t.jobCompletions)
    && IsSuffix(s.vehicleLogs, t.vehicleLogs)
    && IsSuffix(s.portChanges, t.portChanges)
    && IsSuffix(s.inventoryLogs, t.inventoryLogs)
  }

  function JobEvents(events: seq<Event>): nat {
    if events == [] then 0 else (if events[0].JobAdded? then 1 else 0) + JobEvents(events[1..])
  }

  lemma {:induction false} IsSuffixTransitive<T>(a: seq<T>, b: seq<T>, c: seq<T>)
    requires IsSuffix(a, b) && IsSuffix(b, c)
    ensures IsSuffix(a, c)
  {
    assert c[|c| - |a|..] == c[|c| - |b|..][|b| - |a|..];
  }

  lemma KeepsRecordsTransitive(s: AppState, s': AppState, t: AppState)
    requires KeepsRecords(s, s') && KeepsRecords(s', t)
    ensures KeepsRecords(s, t)
  {
    IsSuffixTransitive(s.reports, s'.reports, t.reports);
    IsSuffixTransitive(s.improvementReports, s'.improvementReports, t.improvementReports);
    IsSuffixTransitive(s.modemReports, s'.modemReports, t.modemReports);
    IsSuffixTransitive(s.damageReports, s'.damageReports, t.damageReports);
    IsSuffixTransitive(s.jobCompletions, s'.jobCompletions, t.jobCompletions);
    IsSuffixTransitive(s.vehicleLogs, s'.vehicleLogs, t.vehicleLogs);
    IsSuffixTransitive(s.portChanges, s'.portChanges, t.portChanges);
    IsSuffixTransitive(s.inventoryLogs, s'.inventoryLogs, t.inventoryLogs);
  }

  /** One handler call keeps every record and adds a completed job only for `JobAdded`. */
  lemma ApplyKeepsRecords(s: AppState, e: Event)
    ensures KeepsRecords(s, Apply(s, e))
    ensures |Apply(s, e).jobCompletions| == |s.jobCompletions| + (if e.JobAdded? then 1 else 0)
  {
    match e
    case LoginEvent(_) =>
    case LogoutEvent =>
    case ReportAdded(_) =>
    case ImprovementAdded(_) =>
    case ModemAdded(_) =>
    case DamageAdded(_) =>
    case JobAdded(_) =>
    case VehicleAdded(_) =>
    case PortAdded(_) =>
    case InventoryAdded(_) =>
    case SheetUrlUpdated(_) =>
  }

  /**
   * No sequence of handler calls ever drops a record, logging out included,
   * and the list of completed jobs grows by exactly one per completion added.
   */
  lemma {:induction false} RunKeepsRecords(s: AppState, events: seq<Event>)
    ensures KeepsRecords(s, Run(s, events))
    ensures |Run(s, events).jobCompletions| == |s.jobCompletions| + JobEvents(events)
    decreases |events|
  {
    if events != [] {
      var s' := Apply(s, events[0]);
      RunKeepsRecords(s', events[1..]);
      ApplyKeepsRecords(s, events[0]);
      KeepsRecordsTransitive(s, s', Run(s', events[1..]));
    } else {
      assert Run(s, events) == s;
    }
  }
}
