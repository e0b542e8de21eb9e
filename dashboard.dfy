/**
 * The team's main screen (components/Dashboard.tsx): the jobs-done total,
 * the table of tabs, which tab and which panel are showing, and the
 * navigation state the tab buttons change.
 */
module Dashboard {
  import opened Wrappers
  import opened Types
  import JobCompletionForm

  /** `totalJobsDone`: the `isAdedi` of every completion; it agrees with the form's `totalCount`. */
  function TotalJobsDone(jobs: seq<JobCompletionReport>): (n: int)
    ensures n == JobCompletionForm.TotalCount(jobs)
  {
    JobCompletionForm.CountersShareAdedi(jobs);
    JobCompletionForm.Adedi(jobs)
  }

  /** The values `activeTab` can take. */
  datatype TabId =
    | VehicleTab | JobTab | InventoryTab | ModemTab | PortTab
    | ProblemTab | ImprovementTab | DamageTab | HistoryTab | SettingsTab

  datatype Tab = Tab(id: TabId, title: string, color: string)

  /** The `tabs` table, in menu order. */
  function Tabs(): seq<Tab> {
    [ Tab(VehicleTab, "İŞBAŞI", "bg-cyan-700"),
      Tab(JobTab, "İŞ BİTİR", "bg-orange-600"),
      Tab(InventoryTab, "ENVANTER", "bg-emerald-600"),
      Tab(ModemTab, "MODEM KURULUM", "bg-indigo-600"),
      Tab(PortTab, "PORT DEĞİŞİM", "bg-violet-700"),
      Tab(ProblemTab, "SORUNLU İŞ BİLDİR", "bg-blue-600"),
      Tab(ImprovementTab, "İYİLEŞTİRME", "bg-teal-600"),
      Tab(DamageTab, "HASAR TESPİT", "bg-red-600"),
      Tab(HistoryTab, "GEÇMİŞ", "bg-slate-800"),
      Tab(SettingsTab, "AYAR", "bg-slate-600") ]
  }

  /** `tabs.find(t => t.id === id)`: the first tab with that id, if any. */
  function FindTab(tabs: seq<Tab>, id: TabId): (r: Option<Tab>)
    ensures r.None? <==> forall i | 0 <= i < |tabs| :: tabs[i].id != id
    ensures r.Some? ==> exists i | 0 <= i < |tabs| :: tabs[i] == r.value && r.value.id == id &&
                          forall j | 0 <= j < i :: tabs[j].id != id
  {
    if tabs == [] then None
    else if tabs[0].id == id then Some(tabs[0])
    else
      var r := FindTab(tabs[1..], id);
      assert forall i | 1 <= i < |tabs| :: tabs[i] == tabs[1..][i - 1];
      r
  }

  /** `currentTab`: the tab of `activeTab`, or the first tab when none has that id. */
  function CurrentTab(activeTab: TabId): Tab {
    match FindTab(Tabs(), activeTab)
    case Some(t) => t
    case None => Tabs()[0]
  }

  /** No two tabs in the table share an id. */
  lemma TabIdsDistinct()
    ensures forall i, j | 0 <= i < j < |Tabs()| :: Tabs()[i].id != Tabs()[j].id
  {
    var ts := Tabs();
    forall i, j | 0 <= i < j < |ts| ensures ts[i].id != ts[j].id {
      assert ts[i].id == IdAt(i) && ts[j].id == IdAt(j);
    }
  }

  /** The id at each position of the table. */
  function IdAt(i: nat): TabId
    requires i < 10
  {
    [VehicleTab, JobTab, InventoryTab, ModemTab, PortTab,
     ProblemTab, ImprovementTab, DamageTab, HistoryTab, SettingsTab][i]
  }

  /** Every id has a tab, so the fallback to the first tab never happens. */
  lemma CurrentTabMatches(activeTab: TabId)
    ensures FindTab(Tabs(), activeTab).Some?
    ensures CurrentTab(activeTab).id == activeTab && CurrentTab(activeTab) in Tabs()
  {
    var ts := Tabs();
    var i := match activeTab
      case VehicleTab => 0 case JobTab => 1 case InventoryTab => 2 case ModemTab => 3
      case PortTab => 4 case ProblemTab => 5 case ImprovementTab => 6 case DamageTab => 7
      case HistoryTab => 8 case SettingsTab => 9;
    assert ts[i].id == activeTab;
  }

  /** What the content area shows. */
  datatype Panel =
    | ReportPanel | InventoryPanel | JobCompletionPanel | ImprovementPanel | DamagePanel
    | ModemPanel | PortChangePanel | VehiclePanel | HistoryPanel | ConfigPanel

  /** The chain of `activeTab === …` tests; whatever none of them matches gets the config panel. */
  function PanelFor(activeTab: TabId): Panel {
    if activeTab == ProblemTab then ReportPanel
    else if activeTab == InventoryTab then InventoryPanel
    else if activeTab == JobTab then JobCompletionPanel
    else if activeTab == ImprovementTab then ImprovementPanel
    else if activeTab == DamageTab then DamagePanel
    else if activeTab == ModemTab then ModemPanel
    else if activeTab == PortTab then PortChangePanel
    else if activeTab == VehicleTab then VehiclePanel
    else if activeTab == HistoryTab then HistoryPanel
    else ConfigPanel
  }

  /** Each tab has a panel of its own, and the config panel belongs to settings. */
  lemma PanelsOnePerTab(a: TabId, b: TabId)
    ensures PanelFor(a) == PanelFor(b) <==> a == b
    ensures PanelFor(a) == ConfigPanel <==> a == SettingsTab
  {
  }

  /** The forms whose `onComplete` switches to the history tab. */
  predicate CompletesToHistory(activeTab: TabId) {
    activeTab in {ProblemTab, ImprovementTab, DamageTab, ModemTab, PortTab, VehicleTab}
  }

  /** The navigation state: the active tab and whether the mobile menu is open. */
  class Navigation {
    var activeTab: TabId
    var isMenuOpen: bool

    /** The screen opens on the vehicle tab with the menu closed. */
    constructor()
      ensures activeTab == VehicleTab && !isMenuOpen
    {
      activeTab := VehicleTab;
      isMenuOpen := false;
    }

    /** `handleTabChange`, used by the mobile menu: show the tab and close the menu. */
    method HandleTabChange(id: TabId)
      modifies this
      ensures activeTab == id && !isMenuOpen
    {
      activeTab := id;
      isMenuOpen := false;
    }

    /** A sidebar button: show the tab; the menu is left as it is. */
    method SelectTab(id: TabId)
      modifies this
      ensures activeTab == id && isMenuOpen == old(isMenuOpen)
    {
      activeTab := id;
    }

    /** The menu button: open or close the menu. */
    method ToggleMenu()
      modifies this
      ensures isMenuOpen == !old(isMenuOpen) && activeTab == old(activeTab)
    {
      isMenuOpen := !isMenuOpen;
    }

    /**
     * A form's `onComplete`: the problem, improvement, damage, modem, port and
     * vehicle forms go to the history tab; the job and inventory forms stay.
     */
    method Complete()
      modifies this
      ensures activeTab == (if CompletesToHistory(old(activeTab)) then HistoryTab else old(activeTab))
      ensures isMenuOpen == old(isMenuOpen)
    {
      if CompletesToHistory(activeTab) {
        activeTab := HistoryTab;
      }
    }
  }
}
