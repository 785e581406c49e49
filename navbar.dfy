/**
 * The navigation bar: the scrolled look, the mobile menu, and which item
 * carries the active-section indicator.
 */
module NavbarState {
  import opened Wrappers
  import App

  /** Above this scroll offset the bar switches to its scrolled look. */
  const ScrolledThreshold: int := 50

  /** An entry of `navItems`; `title` holds the entry's `label` text. */
  datatype NavItem = NavItem(id: string, title: string)

  /** The navigation entries, in display order. */
  const NavItems: seq<NavItem> := [
    NavItem("hero", "Home"),
    NavItem("about", "About"),
    NavItem("projects", "Work"),
    NavItem("contact", "Contact")
  ]

  /** The entries name the page sections, in the page's order. */
  lemma NavItemsFollowSections(i: nat)
    requires i < |NavItems|
    ensures App.Parse(NavItems[i].id) == Some(App.Order[i])
  {
  }

  /** Whether a desktop entry renders the underline: `activeSection === item.id`. */
  predicate ShowsIndicator(item: NavItem, activeSection: string) {
    activeSection == item.id
  }

  /** With the shell's active section, exactly one entry carries the
      indicator, the one at that section's position. */
  lemma {:induction false} IndicatorOnActiveEntryOnly(active: App.Section, i: nat)
    requires i < |NavItems|
    ensures ShowsIndicator(NavItems[i], App.Name(active)) <==> i == App.Rank(active)
  {
    NavItemsFollowSections(i);
    if ShowsIndicator(NavItems[i], App.Name(active)) {
      assert App.Parse(App.Name(active)) == Some(active);
    }
  }

  /** The entries have distinct ids, so no string marks two of them. */
  lemma AtMostOneIndicator(activeSection: string, i: nat, j: nat)
    requires i < j < |NavItems|
    ensures !(ShowsIndicator(NavItems[i], activeSection) && ShowsIndicator(NavItems[j], activeSection))
  {
  }

  /** The `Navbar` component: its two flags and whether its window `scroll`
      listener is registered. */
  class NavbarComponent {
    var isMobileMenuOpen: bool
    var isScrolled: bool
    var subscribed: bool

    /** First render and the mount effect: both flags false, listener added. */
    constructor ()
      ensures !isMobileMenuOpen && !isScrolled && subscribed
    {
      isMobileMenuOpen := false;
      isScrolled := false;
      subscribed := true;
    }

    /** A window `scroll` event at offset `scrollY`: the bar looks scrolled
        strictly above the threshold. */
    method OnScroll(scrollY: int)
      modifies this`isScrolled
      ensures subscribed ==> (isScrolled <==> scrollY > 50)
      ensures !subscribed ==> isScrolled == old(isScrolled)
    {
      if subscribed {
        isScrolled := scrollY > ScrolledThreshold;
      }
    }

    /** The mount effect's cleanup: the scroll listener is removed. */
    method Unmount()
      modifies this`subscribed
      ensures !subscribed
    {
      subscribed := false;
    }

    /** The menu button flips the mobile menu. */
    method ToggleMenu()
      modifies this`isMobileMenuOpen
      ensures isMobileMenuOpen == !old(isMobileMenuOpen)
    {
      isMobileMenuOpen := !isMobileMenuOpen;
    }

    /** The logo: `scrollToSection('hero')`. */
    method OnLogoClick(app: App.AppComponent, layout: App.Layout, engineRegistered: bool)
      modifies app`scrollCalls
      ensures app.scrollCalls == old(app.scrollCalls) +
                (if layout.hero.Some? then [if engineRegistered then App.EngineScrollTo(App.Hero) else App.NativeScrollIntoView(App.Hero)]
                 else [])
    {
      var _ := app.ScrollToSection("hero", layout, engineRegistered);
    }

    /** A desktop entry: `scrollToSection(item.id)`. */
    method OnDesktopItemClick(app: App.AppComponent, i: nat, layout: App.Layout, engineRegistered: bool)
      requires i < |NavItems|
      modifies app`scrollCalls
      ensures app.scrollCalls == old(app.scrollCalls) +
                (if layout.Slot(App.Order[i]).Some? then
                   [if engineRegistered then App.EngineScrollTo(App.Order[i]) else App.NativeScrollIntoView(App.Order[i])]
                 else [])
    {
      NavItemsFollowSections(i);
      var _ := app.ScrollToSection(NavItems[i].id, layout, engineRegistered);
    }

    /** A mobile entry: `scrollToSection(item.id)`, then the menu closes. */
    method OnMobileItemClick(app: App.AppComponent, i: nat, layout: App.Layout, engineRegistered: bool)
      requires i < |NavItems|
      modifies this`isMobileMenuOpen, app`scrollCalls
      ensures app.scrollCalls == old(app.scrollCalls) +
                (if layout.Slot(App.Order[i]).Some? then
                   [if engineRegistered then App.EngineScrollTo(App.Order[i]) else App.NativeScrollIntoView(App.Order[i])]
                 else [])
      ensures !isMobileMenuOpen
    {
      NavItemsFollowSections(i);
      var _ := app.ScrollToSection(NavItems[i].id, layout, engineRegistered);
      isMobileMenuOpen := false;
    }

    /** The mobile resume entry: the download is started, then the menu closes. */
    method OnMobileResumeClick()
      modifies this`isMobileMenuOpen
      ensures !isMobileMenuOpen
    {
      isMobileMenuOpen := false;
    }
  }
}
