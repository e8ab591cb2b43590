/** The navigation shell around every panel: header, collapsible sidebar and theme switch. */
module Layout {
  import opened Wrappers
  import opened Badge

  /** One sidebar entry; the icon is not modelled. */
  datatype NavItem = NavItem(id: string, caption: string, badge: Option<string>)

  const NavigationItems: seq<NavItem> := [
    NavItem("dashboard", "Mission Control", None),
    NavItem("pharma", "Pharma Studio", Some("3")),
    NavItem("digital-twin", "Digital Twin", None),
    NavItem("data-hub", "Data Hub", None),
    NavItem("ai-copilot", "AI Copilot", Some("AI")),
    NavItem("sustainability", "Sustainability", None),
    NavItem("admin", "Admin", None)
  ]

  /** The page ids of the sidebar entries, in menu order. */
  function NavigationIds(): (ids: seq<string>)
    ensures |ids| == |NavigationItems| == 7
    ensures forall i :: 0 <= i < |ids| ==> ids[i] == NavigationItems[i].id
  {
    seq(|NavigationItems|, (i: int) requires 0 <= i < |NavigationItems| => NavigationItems[i].id)
  }

  ghost predicate DistinctIds(items: seq<NavItem>)
  {
    forall i, j :: 0 <= i < j < |items| ==> items[i].id != items[j].id
  }

  lemma NavigationIdsDistinct()
    ensures DistinctIds(NavigationItems)
  {
  }

  /** Whether a sidebar entry is highlighted for the page being shown. */
  predicate IsActive(currentPage: string, item: NavItem)
  {
    currentPage == item.id
  }

  /** How many entries of `items` are highlighted. */
  function ActiveCount(currentPage: string, items: seq<NavItem>): nat
  {
    if items == [] then 0
    else (if IsActive(currentPage, items[0]) then 1 else 0) + ActiveCount(currentPage, items[1..])
  }

  /** With distinct ids, at most one entry is highlighted, and exactly one when the page is among them. */
  lemma {:induction false} ActiveCountDistinct(currentPage: string, items: seq<NavItem>)
    requires DistinctIds(items)
    ensures ActiveCount(currentPage, items) <= 1
    ensures ActiveCount(currentPage, items) == 1 <==> exists i :: 0 <= i < |items| && items[i].id == currentPage
  {
    if items != [] {
      var rest := items[1..];
      assert DistinctIds(rest) by {
        forall i, j | 0 <= i < j < |rest| ensures rest[i].id != rest[j].id {
          assert rest[i] == items[i + 1] && rest[j] == items[j + 1];
        }
      }
      ActiveCountDistinct(currentPage, rest);
      if IsActive(currentPage, items[0]) {
        assert !exists i :: 0 <= i < |rest| && rest[i].id == currentPage by {
          forall i | 0 <= i < |rest| ensures rest[i].id != currentPage {
            assert rest[i] == items[i + 1];
          }
        }
      } else {
        if exists i :: 0 <= i < |items| && items[i].id == currentPage {
          var i :| 0 <= i < |items| && items[i].id == currentPage;
          assert rest[i - 1] == items[i];
        }
        if exists i :: 0 <= i < |rest| && rest[i].id == currentPage {
          var i :| 0 <= i < |rest| && rest[i].id == currentPage;
          assert items[i + 1] == rest[i];
        }
      }
    }
  }

  /** The sidebar highlights exactly one entry for a navigation id and none for any other page. */
  lemma SidebarActiveItem(currentPage: string)
    ensures ActiveCount(currentPage, NavigationItems) == if currentPage in NavigationIds() then 1 else 0
  {
    NavigationIdsDistinct();
    ActiveCountDistinct(currentPage, NavigationItems);
    var ids := NavigationIds();
    if currentPage in ids {
      var i :| 0 <= i < |ids| && ids[i] == currentPage;
      assert NavigationItems[i].id == currentPage;
    } else {
      assert forall i :: 0 <= i < |NavigationItems| ==> NavigationItems[i].id != currentPage by {
        forall i | 0 <= i < |NavigationItems| ensures NavigationItems[i].id != currentPage {
          assert ids[i] == NavigationItems[i].id;
        }
      }
    }
  }

  /** The page requested by clicking the i-th sidebar entry; afterwards that entry, and only it, is highlighted. */
  function NavClickTarget(i: nat): (page: string)
    requires i < |NavigationItems|
    ensures page == NavigationItems[i].id
    ensures IsActive(page, NavigationItems[i])
    ensures ActiveCount(page, NavigationItems) == 1
    ensures forall j :: 0 <= j < |NavigationItems| && j != i ==> !IsActive(page, NavigationItems[j])
  {
    NavigationIdsDistinct();
    SidebarActiveItem(NavigationItems[i].id);
    assert NavigationIds()[i] == NavigationItems[i].id;
    NavigationItems[i].id
  }

  /** The page requested by the voice copilot quick-access button. */
  function QuickAccessTarget(): (page: string)
    ensures page == "ai-copilot"
    ensures page == NavigationItems[4].id
  {
    "ai-copilot"
  }

  /** The badge drawn on a sidebar entry: none for a null or empty badge text,
      the default variant for "AI" and the secondary one for anything else. */
  function BadgeVariant(badge: Option<string>): (shown: Option<Variant>)
    ensures shown == None <==> badge == None || badge == Some("")
    ensures shown == Some(Default) <==> badge == Some("AI")
    ensures shown != None ==> shown == Some(Default) || shown == Some(Secondary)
  {
    match badge
    case None => None
    case Some(text) => if text == "" then None else if text == "AI" then Some(Default) else Some(Secondary)
  }

  lemma SidebarBadges()
    ensures BadgeVariant(NavigationItems[1].badge) == Some(Secondary)
    ensures BadgeVariant(NavigationItems[4].badge) == Some(Default)
    ensures forall i :: 0 <= i < |NavigationItems| && i != 1 && i != 4 ==> BadgeVariant(NavigationItems[i].badge) == None
  {
  }

  /** The shell's own state: whether the sidebar is open and whether dark mode is on. */
  class Shell {
    var sidebarOpen: bool
    var isDarkMode: bool

    constructor ()
      ensures sidebarOpen && isDarkMode
    {
      sidebarOpen := true;
      isDarkMode := true;
    }

    /** The mobile backdrop is drawn only while the sidebar is open. */
    predicate BackdropVisible()
      reads this
    {
      sidebarOpen
    }

    /** The menu button in the header. */
    method ToggleSidebar()
      modifies this
      ensures sidebarOpen == !old(sidebarOpen)
      ensures isDarkMode == old(isDarkMode)
    {
      sidebarOpen := !sidebarOpen;
    }

    /** A click on the backdrop; it closes the sidebar, and a repeated close changes nothing. */
    method CloseSidebar()
      modifies this
      ensures !sidebarOpen && !BackdropVisible()
      ensures isDarkMode == old(isDarkMode)
    {
      sidebarOpen := false;
    }

    /** The theme switch in the header. */
    method ToggleTheme()
      modifies this
      ensures isDarkMode == !old(isDarkMode)
      ensures sidebarOpen == old(sidebarOpen)
    {
      isDarkMode := !isDarkMode;
    }
  }

  /** Pressing the menu button twice, or toggling the theme twice, restores the shell. */
  method ToggleTwiceRestores(shell: Shell)
    modifies shell
    ensures shell.sidebarOpen == old(shell.sidebarOpen) && shell.isDarkMode == old(shell.isDarkMode)
  {
    shell.ToggleSidebar();
    shell.ToggleSidebar();
    shell.ToggleTheme();
    shell.ToggleTheme();
  }
}
