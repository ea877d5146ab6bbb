/**
 * The root component (frontendFC/src/App.tsx): the active tab, a refresh counter bumped by
 * each successful submission, and the tab dispatch that embeds the counter in the keys of
 * the dashboard and list views, so that React remounts them (and they fetch again) after
 * every submission.
 */
module App {
  import opened Wrappers
  import opened Text

  /** The handler the form receives as `onSubmitSuccess`. */
  datatype Handler = HandleFeedbackSubmit

  /** The element `renderContent` returns; the key fields hold the React key (`None` when there is none). */
  datatype Content =
    | DashboardView(dashboardKey: Option<string>)
    | ListView(listKey: string)
    | FormView(onSubmitSuccess: Handler)

  function DashboardKey(refreshKey: nat): string
  {
    "dashboard-" + NatToString(refreshKey)
  }

  function ListKey(refreshKey: nat): string
  {
    "feedback-" + NatToString(refreshKey)
  }

  /** `renderContent`: the switch over the tab; an unknown tab shows an unkeyed dashboard. */
  function RenderContent(activeTab: string, refreshKey: nat): (c: Content)
    ensures c.FormView? <==> activeTab == "submit"
    ensures c.ListView? <==> activeTab == "feedback"
    ensures c.DashboardView? <==> activeTab != "submit" && activeTab != "feedback"
  {
    match activeTab
    case "dashboard" => DashboardView(Some(DashboardKey(refreshKey)))
    case "feedback" => ListView(ListKey(refreshKey))
    case "submit" => FormView(HandleFeedbackSubmit)
    case _ => DashboardView(None)
  }

  /** Different counter values give different keys, so each refresh remounts the keyed views. */
  lemma KeysDifferAcrossRefreshes(k1: nat, k2: nat)
    requires k1 != k2
    ensures DashboardKey(k1) != DashboardKey(k2)
    ensures ListKey(k1) != ListKey(k2)
  {
    NatToStringInjective(k1, k2);
    assert DashboardKey(k1)[10..] == NatToString(k1) && DashboardKey(k2)[10..] == NatToString(k2);
    assert ListKey(k1)[9..] == NatToString(k1) && ListKey(k2)[9..] == NatToString(k2);
  }

  /** On the dashboard and list tabs, a bump of the counter changes the rendered element. */
  lemma RefreshRemountsKeyedViews(activeTab: string, refreshKey: nat)
    requires activeTab == "dashboard" || activeTab == "feedback"
    ensures RenderContent(activeTab, refreshKey) != RenderContent(activeTab, refreshKey + 1)
  {
    KeysDifferAcrossRefreshes(refreshKey, refreshKey + 1);
  }

  class AppState {
    var activeTab: string
    var refreshKey: nat

    constructor ()
      ensures activeTab == "dashboard" && refreshKey == 0
    {
      activeTab := "dashboard";
      refreshKey := 0;
    }

    /** The header's tab switch. */
    method SetActiveTab(tab: string)
      modifies this
      ensures activeTab == tab && refreshKey == old(refreshKey)
    {
      activeTab := tab;
    }

    /** `handleFeedbackSubmit`: the counter goes up by exactly one; the tab is kept. */
    method HandleFeedbackSubmit()
      modifies this
      ensures refreshKey == old(refreshKey) + 1
      ensures activeTab == old(activeTab)
    {
      refreshKey := refreshKey + 1;
    }
  }
}
