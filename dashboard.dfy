/** The dashboard shell: a sidebar with five navigation items (the last of which
    opens a settings flyout), a mobile overlay, and the content shown for the
    active tab. */
module Dashboard {
  import opened AuthSession

  datatype Tab = Overview | Tasks | Notes | Profile | Settings

  /** The sidebar's navigation items, in order. */
  const NavTabs: seq<Tab> := [Overview, Tasks, Notes, Profile, Settings]

  function NavLabel(tab: Tab): string
  {
    match tab
    case Overview => "Dashboard"
    case Tasks => "Tasks"
    case Notes => "Notes"
    case Profile => "Profile"
    case Settings => "Settings"
  }

  /** The entries of the settings menu; their actions are placeholders that only log. */
  datatype SettingsAction = MyAccount | MyNotifications | ConnectedApps | Plans | BillingAndInvoices | GiveFeedback

  const SettingsMenu: seq<SettingsAction> :=
    [MyAccount, MyNotifications, ConnectedApps, Plans, BillingAndInvoices, GiveFeedback]

  function SettingsLabel(a: SettingsAction): string
  {
    match a
    case MyAccount => "My Account"
    case MyNotifications => "My Notifications"
    case ConnectedApps => "Connected Apps"
    case Plans => "Plans"
    case BillingAndInvoices => "Billing & Invoices"
    case GiveFeedback => "Give Feedback"
  }

  /** The shell's three state fields. */
  datatype NavState = NavState(activeTab: Tab, isSidebarOpen: bool, isSettingsOpen: bool)

  const InitialNav := NavState(Overview, false, false)

  // Transitions, one per click handler

  /** `toggleSidebar`. */
  function SidebarToggled(s: NavState): NavState
  {
    s.(isSidebarOpen := !s.isSidebarOpen)
  }

  /** `toggleSettings`. */
  function SettingsToggled(s: NavState): NavState
  {
    s.(isSettingsOpen := !s.isSettingsOpen)
  }

  /** A click on the navigation item for `tab`. */
  function NavClicked(s: NavState, tab: Tab): NavState
  {
    var s' := s.(activeTab := tab, isSidebarOpen := false);
    if tab == Settings then SettingsToggled(s') else s'.(isSettingsOpen := false)
  }

  /** A click on an entry of the settings flyout: runs the entry's placeholder
      action, then closes the flyout and the sidebar. */
  function SettingsItemClicked(s: NavState, action: SettingsAction): NavState
  {
    s.(isSettingsOpen := false, isSidebarOpen := false)
  }

  /** A click on the mobile overlay. */
  function OverlayClicked(s: NavState): NavState
  {
    s.(isSidebarOpen := false)
  }

  /** Whether the flyout is drawn beside the navigation item for `itemTab`. */
  predicate FlyoutShown(s: NavState, itemTab: Tab)
  {
    itemTab == Settings && s.isSettingsOpen
  }

  /** The flyout is only ever open while the settings tab is active. */
  predicate FlyoutOnSettings(s: NavState)
  {
    s.isSettingsOpen ==> s.activeTab == Settings
  }

  /** What the main area shows. */
  datatype Panel =
    | OverviewPanel(totalTasks: nat, completedTasks: nat, pendingTasks: nat, personalNotes: nat)
    | TaskBoardPanel
    | NotesPanel
    | ProfilePanel(email: string, role: string)
    | SettingsPanel(actions: seq<SettingsAction>)

  /** `DashboardContent`: the panel for each tab (the overview's counters are fixed numbers). */
  function Content(tab: Tab, user: User): Panel
  {
    match tab
    case Overview => OverviewPanel(12, 8, 4, 5)
    case Tasks => TaskBoardPanel
    case Notes => NotesPanel
    case Profile => ProfilePanel(user.email, "Registered User")
    case Settings => SettingsPanel(SettingsMenu)
  }

  // Properties of the transitions

  lemma InitialState()
    ensures InitialNav.activeTab == Overview && !InitialNav.isSidebarOpen && !InitialNav.isSettingsOpen
    ensures FlyoutOnSettings(InitialNav)
  {
  }

  /** Any navigation click selects its tab and closes the sidebar; a click on a
      tab other than settings also closes the flyout, a click on settings flips it. */
  lemma NavClickSelects(s: NavState, tab: Tab)
    ensures NavClicked(s, tab).activeTab == tab
    ensures !NavClicked(s, tab).isSidebarOpen
    ensures tab != Settings ==> !NavClicked(s, tab).isSettingsOpen
    ensures tab == Settings ==> NavClicked(s, tab).isSettingsOpen == !s.isSettingsOpen
  {
  }

  /** Two settings clicks in a row give the flyout back its earlier value. */
  lemma SettingsClickTwice(s: NavState)
    ensures NavClicked(NavClicked(s, Settings), Settings)
         == NavState(Settings, false, s.isSettingsOpen)
  {
  }

  /** A settings menu entry closes both the flyout and the sidebar and keeps the tab. */
  lemma SettingsItemCloses(s: NavState, action: SettingsAction)
    ensures var r := SettingsItemClicked(s, action);
      r.activeTab == s.activeTab && !r.isSettingsOpen && !r.isSidebarOpen
  {
  }

  /** Toggling the sidebar twice is the identity; both toggles touch nothing but the sidebar. */
  lemma ToggleSidebarTwice(s: NavState)
    ensures SidebarToggled(SidebarToggled(s)) == s
    ensures SidebarToggled(s).activeTab == s.activeTab && SidebarToggled(s).isSettingsOpen == s.isSettingsOpen
  {
  }

  /** The overlay click only closes the sidebar. */
  lemma OverlayOnlyClosesSidebar(s: NavState)
    ensures var r := OverlayClicked(s);
      !r.isSidebarOpen && r.activeTab == s.activeTab && r.isSettingsOpen == s.isSettingsOpen
  {
  }

  /** Every handler the user can reach keeps the flyout tied to the settings tab. */
  lemma HandlersKeepFlyoutOnSettings(s: NavState, tab: Tab, action: SettingsAction)
    requires FlyoutOnSettings(s)
    ensures FlyoutOnSettings(NavClicked(s, tab))
    ensures FlyoutOnSettings(SettingsItemClicked(s, action))
    ensures FlyoutOnSettings(SidebarToggled(s))
    ensures FlyoutOnSettings(OverlayClicked(s))
  {
  }

  /** Across the navigation list the flyout is drawn at most once, beside the
      settings item, and it is drawn exactly when it is open. */
  lemma FlyoutOnlyBesideSettings(s: NavState)
    ensures forall t :: t in NavTabs && FlyoutShown(s, t) ==> t == Settings
    ensures forall i, j ::
              0 <= i < |NavTabs| && 0 <= j < |NavTabs| && FlyoutShown(s, NavTabs[i]) && FlyoutShown(s, NavTabs[j])
              ==> i == j
    ensures s.isSettingsOpen <==> exists i :: 0 <= i < |NavTabs| && FlyoutShown(s, NavTabs[i])
  {
    if s.isSettingsOpen {
      assert FlyoutShown(s, NavTabs[4]);
    }
  }

  /** Each tab has its own panel, and the profile panel shows the user's email. */
  lemma ContentPerTab(t1: Tab, t2: Tab, user: User)
    ensures t1 != t2 ==> Content(t1, user) != Content(t2, user)
    ensures Content(Profile, user).email == user.email
  {
  }

  /** The navigation items and the settings entries have distinct labels. */
  lemma LabelsDistinct()
    ensures forall i, j :: 0 <= i < j < |NavTabs| ==> NavLabel(NavTabs[i]) != NavLabel(NavTabs[j])
    ensures forall i, j :: 0 <= i < j < |SettingsMenu| ==> SettingsLabel(SettingsMenu[i]) != SettingsLabel(SettingsMenu[j])
  {
  }

  /** The shell component, holding the signed-in user and the navigation state. */
  class Shell {
    const user: User
    var activeTab: Tab
    var isSidebarOpen: bool
    var isSettingsOpen: bool

    function State(): NavState
      reads this
    {
      NavState(activeTab, isSidebarOpen, isSettingsOpen)
    }

    ghost predicate Valid()
      reads this
    {
      FlyoutOnSettings(State())
    }

    constructor (user: User)
      ensures Valid()
      ensures this.user == user && State() == InitialNav
    {
      this.user := user;
      activeTab := Overview;
      isSidebarOpen := false;
      isSettingsOpen := false;
    }

    /** The panel in the main area. */
    function CurrentContent(): Panel
      reads this
    {
      Content(activeTab, user)
    }

    /** The hamburger button and the sidebar's close button. */
    method ToggleSidebar()
      requires Valid()
      modifies this
      ensures Valid()
      ensures State() == SidebarToggled(old(State()))
    {
      isSidebarOpen := !isSidebarOpen;
    }

    /** Only the settings navigation item calls this. */
    method ToggleSettings()
      modifies this
      ensures State() == SettingsToggled(old(State()))
    {
      isSettingsOpen := !isSettingsOpen;
    }

    method NavClick(tab: Tab)
      requires Valid()
      modifies this
      ensures Valid()
      ensures State() == NavClicked(old(State()), tab)
    {
      activeTab := tab;
      isSidebarOpen := false;
      if tab == Settings {
        ToggleSettings();
      } else {
        isSettingsOpen := false;
      }
    }

    /** The flyout's entries exist only while it is open. */
    method SettingsItemClick(action: SettingsAction)
      requires Valid() && isSettingsOpen
      modifies this
      ensures Valid()
      ensures State() == SettingsItemClicked(old(State()), action)
    {
      isSettingsOpen := false;
      isSidebarOpen := false;
    }

    /** The overlay exists only while the sidebar is open. */
    method OverlayClick()
      requires Valid() && isSidebarOpen
      modifies this
      ensures Valid()
      ensures State() == OverlayClicked(old(State()))
    {
      isSidebarOpen := false;
    }
  }
}
