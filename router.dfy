/** The top-level page: the current page id and the switch that picks the panel to show. */
module Router {
  import Layout

  /** The panel components the switch can return. `AdminPanel` is referenced by the
      switch but defined elsewhere; here it is only a tag. */
  datatype Panel =
    | MissionControlView | PharmaStudioView | DigitalTwinView | DataHubView
    | AICopilotView | SustainabilityView | AdminView

  const InitialPage: string := "dashboard"

  /** The ids the switch has a case for, in the order of its cases. */
  const PageIds: seq<string> :=
    ["dashboard", "pharma", "digital-twin", "data-hub", "ai-copilot", "sustainability", "admin"]

  /** The switch: a known id selects its panel, any other string falls back to the dashboard. */
  function RenderPage(page: string): (p: Panel)
    ensures page !in PageIds ==> p == MissionControlView
    ensures page == "dashboard" <==> p == MissionControlView && page in PageIds
  {
    match page
    case "dashboard" => MissionControlView
    case "pharma" => PharmaStudioView
    case "digital-twin" => DigitalTwinView
    case "data-hub" => DataHubView
    case "ai-copilot" => AICopilotView
    case "sustainability" => SustainabilityView
    case "admin" => AdminView
    case _ => MissionControlView
  }

  /** The id whose case yields a given panel. */
  function PageOf(p: Panel): (page: string)
    ensures page in PageIds
    ensures RenderPage(page) == p
  {
    match p
    case MissionControlView => "dashboard"
    case PharmaStudioView => "pharma"
    case DigitalTwinView => "digital-twin"
    case DataHubView => "data-hub"
    case AICopilotView => "ai-copilot"
    case SustainabilityView => "sustainability"
    case AdminView => "admin"
  }

  /** Every known id is the one `PageOf` gives for its panel, so the seven ids select seven distinct panels. */
  lemma KnownPagesRoundTrip(page: string)
    requires page in PageIds
    ensures PageOf(RenderPage(page)) == page
  {
  }

  lemma KnownPagesDistinct(i: nat, j: nat)
    requires i < j < |PageIds|
    ensures RenderPage(PageIds[i]) != RenderPage(PageIds[j])
  {
    KnownPagesRoundTrip(PageIds[i]);
    KnownPagesRoundTrip(PageIds[j]);
  }

  /** An unknown id renders exactly what the initial page renders. */
  lemma UnknownPageFallsBack(page: string)
    requires page !in PageIds
    ensures RenderPage(page) == RenderPage(InitialPage)
  {
  }

  /** Every sidebar entry requests an id the switch handles with its own case, and the
      sidebar and the switch list the same ids in the same order. */
  lemma NavigationIdsAreHandled()
    ensures Layout.NavigationIds() == PageIds
  {
    var ids := Layout.NavigationIds();
    assert |ids| == |PageIds|;
    forall i | 0 <= i < |ids| ensures ids[i] == PageIds[i] {
      assert ids[i] == Layout.NavigationItems[i].id;
    }
  }

  /** The page component's state: which page is shown. */
  class Home {
    var currentPage: string

    constructor ()
      ensures currentPage == InitialPage
      ensures Rendered() == MissionControlView
    {
      currentPage := InitialPage;
    }

    function Rendered(): Panel
      reads this
    {
      RenderPage(currentPage)
    }

    /** The `onPageChange` callback handed to the shell. */
    method OnPageChange(page: string)
      modifies this
      ensures currentPage == page
      ensures Rendered() == RenderPage(page)
    {
      currentPage := page;
    }
  }
}
