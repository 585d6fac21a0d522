/**
 * Resolution of a requested (dashboard, tab) pair to the canonical
 * dashboard name, tab name and backing test group (findDashboardTab).
 *
 * The configuration snapshot carries the dashboards by canonical name, and
 * two normalized indexes built when the configuration was cached: a
 * normalized dashboard key to the canonical dashboard name, and per
 * normalized dashboard key, a normalized tab key to the canonical tab name.
 * The normalization function is supplied by the configuration package; it is
 * a parameter here, so it is total and deterministic but otherwise unknown.
 */
module NameIndex {
  import opened Wrappers

  datatype DashboardTab = DashboardTab(name: string, testGroupName: string)

  datatype Dashboard = Dashboard(tabs: seq<DashboardTab>)

  datatype ConfigSnapshot = ConfigSnapshot(
    dashboards: map<string, Dashboard>,
    normalDashboard: map<string, string>,
    normalDashboardTab: map<string, map<string, string>>)

  /** The three tiers of lookup failure, plus a missing configuration. */
  datatype LookupError =
    | EmptyConfig
    | DashboardNotFound(dashboardKey: string)
    | TabNotFound(tabKey: string)
    | TestGroupNotFound

  /** The four results of findDashboardTab: three names, partly filled on failure, and an error. */
  datatype Resolution = Resolution(
    dashboardName: string,
    tabName: string,
    testGroupName: string,
    err: Option<LookupError>)

  /** Whether the tab index of the normalized dashboard key holds the normalized tab key. */
  predicate TabIndexed(cfg: ConfigSnapshot, dashboardKey: string, tabKey: string)
  {
    dashboardKey in cfg.normalDashboardTab && tabKey in cfg.normalDashboardTab[dashboardKey]
  }

  /**
   * What findDashboardTab demands of its caller: when the lookup reaches the
   * dashboard's tab list, the canonical dashboard name is a dashboard of the
   * configuration (the source dereferences it without a check).
   */
  predicate LookupDerefs(cfg: Option<ConfigSnapshot>, normalize: string -> string,
                         dashboardInput: string, tabInput: string)
  {
    cfg.Some? ==>
      var c := cfg.value;
      var dk := normalize(dashboardInput);
      dk in c.normalDashboard && TabIndexed(c, dk, normalize(tabInput)) ==>
        c.normalDashboard[dk] in c.dashboards
  }

  /** The test group of the first tab in `tabs` called `tabName`, if any. */
  function FirstTestGroup(tabs: seq<DashboardTab>, tabName: string): (r: Option<string>)
    ensures r.None? <==> forall i :: 0 <= i < |tabs| ==> tabs[i].name != tabName
    ensures r.Some? ==>
      exists i :: 0 <= i < |tabs| && tabs[i].name == tabName && tabs[i].testGroupName == r.value &&
        forall j :: 0 <= j < i ==> tabs[j].name != tabName
  {
    if tabs == [] then None
    else if tabs[0].name == tabName then Some(tabs[0].testGroupName)
    else
      var r := FirstTestGroup(tabs[1..], tabName);
      assert forall i :: 1 <= i < |tabs| ==> tabs[i] == tabs[1..][i - 1];
      r
  }

  /** findDashboardTab. */
  function FindDashboardTab(cfg: Option<ConfigSnapshot>, normalize: string -> string,
                            dashboardInput: string, tabInput: string): (r: Resolution)
    requires LookupDerefs(cfg, normalize, dashboardInput, tabInput)
    // No configuration, or an unknown dashboard: nothing is resolved.
    ensures r.err == Some(EmptyConfig) <==> cfg.None?
    ensures r.err == Some(DashboardNotFound(normalize(dashboardInput))) <==>
      cfg.Some? && normalize(dashboardInput) !in cfg.value.normalDashboard
    ensures r.err.Some? && (r.err.value.EmptyConfig? || r.err.value.DashboardNotFound?) ==>
      r.dashboardName == r.tabName == r.testGroupName == ""
    // Beyond the first tier, the dashboard name is the canonical one the index gives.
    ensures cfg.Some? && normalize(dashboardInput) in cfg.value.normalDashboard ==>
      r.dashboardName == cfg.value.normalDashboard[normalize(dashboardInput)]
    // Known dashboard, unknown tab: only the dashboard name is resolved.
    ensures r.err == Some(TabNotFound(normalize(tabInput))) <==>
      cfg.Some? && normalize(dashboardInput) in cfg.value.normalDashboard &&
      !TabIndexed(cfg.value, normalize(dashboardInput), normalize(tabInput))
    ensures r.err.Some? && r.err.value.TabNotFound? ==> r.tabName == r.testGroupName == ""
    // Both indexed: the tab name is the canonical one, and the test group
    // is that of the first tab of the dashboard carrying that name.
    ensures
      (cfg.Some? && normalize(dashboardInput) in cfg.value.normalDashboard &&
       TabIndexed(cfg.value, normalize(dashboardInput), normalize(tabInput))) ==>
        (var tabs := cfg.value.dashboards[r.dashboardName].tabs;
         && r.tabName == cfg.value.normalDashboardTab[normalize(dashboardInput)][normalize(tabInput)]
         && (r.err.None? || r.err == Some(TestGroupNotFound))
         && (r.err.None? <==> exists i :: 0 <= i < |tabs| && tabs[i].name == r.tabName)
         && (r.err.None? ==> FirstTestGroup(tabs, r.tabName) == Some(r.testGroupName))
         && (r.err.Some? ==> r.testGroupName == ""))
  {
    if cfg.None? then Resolution("", "", "", Some(EmptyConfig))
    else
      var c := cfg.value;
      var dashboardKey := normalize(dashboardInput);
      var tabKey := normalize(tabInput);
      if dashboardKey !in c.normalDashboard then
        Resolution("", "", "", Some(DashboardNotFound(dashboardKey)))
      else
        var dashboardName := c.normalDashboard[dashboardKey];
        if !TabIndexed(c, dashboardKey, tabKey) then
          Resolution(dashboardName, "", "", Some(TabNotFound(tabKey)))
        else
          var tabName := c.normalDashboardTab[dashboardKey][tabKey];
          match FirstTestGroup(c.dashboards[dashboardName].tabs, tabName)
          case Some(group) => Resolution(dashboardName, tabName, group, None)
          case None => Resolution(dashboardName, tabName, "", Some(TestGroupNotFound))
  }

  /** Inputs that normalize alike resolve alike: the lookup sees only the normalized keys. */
  lemma ResolutionIsNormalized(cfg: Option<ConfigSnapshot>, normalize: string -> string,
                               d1: string, t1: string, d2: string, t2: string)
    requires LookupDerefs(cfg, normalize, d1, t1)
    requires normalize(d1) == normalize(d2) && normalize(t1) == normalize(t2)
    ensures LookupDerefs(cfg, normalize, d2, t2)
    ensures FindDashboardTab(cfg, normalize, d1, t1) == FindDashboardTab(cfg, normalize, d2, t2)
  {
  }

  /**
   * A snapshot whose indexes point only at dashboards and tabs that exist:
   * every canonical dashboard name is a dashboard, and every canonical tab
   * name indexed under a dashboard key names a tab of that dashboard.
   */
  predicate IndexesConsistent(c: ConfigSnapshot)
  {
    forall dk :: dk in c.normalDashboard ==>
      && c.normalDashboard[dk] in c.dashboards
      && (dk in c.normalDashboardTab ==>
            forall tk :: tk in c.normalDashboardTab[dk] ==>
              exists i :: 0 <= i < |c.dashboards[c.normalDashboard[dk]].tabs| &&
                c.dashboards[c.normalDashboard[dk]].tabs[i].name == c.normalDashboardTab[dk][tk])
  }

  /** Against a consistent snapshot the lookup is always defined and never reaches the third failure tier. */
  lemma ConsistentIndexesResolveGroups(c: ConfigSnapshot, normalize: string -> string,
                                       dashboardInput: string, tabInput: string)
    requires IndexesConsistent(c)
    ensures LookupDerefs(Some(c), normalize, dashboardInput, tabInput)
    ensures FindDashboardTab(Some(c), normalize, dashboardInput, tabInput).err != Some(TestGroupNotFound)
  {
  }
}
