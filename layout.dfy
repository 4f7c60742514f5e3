/** The `Layout` shell: the sidebar width, the content area's left margin, the
    mobile menu flag and its handlers, and which overlays are on screen. */
module Layout {
  import opened SidebarHook

  const COLLAPSED_WIDTH: nat := 80
  const EXPANDED_WIDTH: nat := 260

  /** The sidebar's width in pixels: narrow exactly when collapsed. */
  function SidebarWidth(collapsed: bool): (w: nat)
    ensures w == COLLAPSED_WIDTH <==> collapsed
    ensures w == EXPANDED_WIDTH <==> !collapsed
  {
    if collapsed then COLLAPSED_WIDTH else EXPANDED_WIDTH
  }

  /** The content area's `marginLeft`: nothing on mobile, the sidebar width otherwise. */
  function ContentMarginLeft(isMobile: bool, collapsed: bool): (m: nat)
    ensures m == 0 <==> isMobile
    ensures !isMobile ==> m == SidebarWidth(collapsed)
  {
    if isMobile then 0 else SidebarWidth(collapsed)
  }

  /** What the shell puts on screen besides the page itself. */
  datatype Frame = Frame(marginLeft: nat, backdrop: bool, drawer: bool, bottomNav: bool)

  /** The frame for a sidebar state and the menu flag. Backdrop and drawer share
      one guard, so on desktop they stay hidden even while the flag is still set. */
  function Render(collapsed: bool, isMobile: bool, menuOpen: bool): (f: Frame)
    ensures f.backdrop <==> isMobile && menuOpen
    ensures f.drawer <==> isMobile && menuOpen
    ensures f.bottomNav <==> isMobile
    ensures f.marginLeft == ContentMarginLeft(isMobile, collapsed)
  {
    Frame(ContentMarginLeft(isMobile, collapsed), isMobile && menuOpen, isMobile && menuOpen, isMobile)
  }

  /** On desktop nothing overlays the page and the content clears the sidebar,
      whatever the menu flag holds. */
  lemma DesktopFrame(collapsed: bool, menuOpen: bool)
    ensures !Render(collapsed, false, menuOpen).backdrop
    ensures !Render(collapsed, false, menuOpen).drawer
    ensures !Render(collapsed, false, menuOpen).bottomNav
    ensures Render(collapsed, false, menuOpen).marginLeft in {COLLAPSED_WIDTH, EXPANDED_WIDTH}
  {
  }

  /** On mobile the content starts at the left edge, the bottom bar is shown,
      and the drawer follows the menu flag. */
  lemma MobileFrame(collapsed: bool, menuOpen: bool)
    ensures Render(collapsed, true, menuOpen).marginLeft == 0
    ensures Render(collapsed, true, menuOpen).bottomNav
    ensures Render(collapsed, true, menuOpen).drawer == menuOpen
  {
  }

  /** The menu button, and the three closers: backdrop, close button, drawer link. */
  datatype MenuAction = MenuPressed | MenuClosed

  function MenuStep(open: bool, a: MenuAction): (next: bool)
    ensures a == MenuClosed ==> !next
    ensures a == MenuPressed ==> next != open
  {
    match a
    case MenuPressed => !open
    case MenuClosed => false
  }

  /** Two presses of the menu button restore the flag; closing twice is closing once. */
  lemma MenuStepLaws(open: bool)
    ensures MenuStep(MenuStep(open, MenuPressed), MenuPressed) == open
    ensures MenuStep(MenuStep(open, MenuClosed), MenuClosed) == MenuStep(open, MenuClosed)
  {
  }

  /** One mounted `Layout`: its own `useSidebar` instance and the menu flag. */
  class Shell {
    const sidebar: Sidebar
    var mobileMenuOpen: bool

    /** What is on screen now. */
    function View(): Frame
      reads this, sidebar
    {
      Render(sidebar.collapsed, sidebar.isMobile, mobileMenuOpen)
    }

    /** Mounting: the hook reads the store and the menu starts closed. */
    constructor (hasWindow: bool, storage: map<string, string>)
      ensures fresh(sidebar)
      ensures sidebar.State() == Init(hasWindow, storage)
      ensures !mobileMenuOpen
      ensures !View().drawer && !View().backdrop
    {
      sidebar := new Sidebar(hasWindow, storage);
      mobileMenuOpen := false;
    }

    /** The navbar's menu button negates the flag; the sidebar is untouched. */
    method MenuClick()
      modifies this
      ensures mobileMenuOpen == MenuStep(old(mobileMenuOpen), MenuPressed)
      ensures mobileMenuOpen == !old(mobileMenuOpen)
      ensures sidebar.State() == old(sidebar.State())
    {
      mobileMenuOpen := !mobileMenuOpen;
    }

    /** Backdrop click, the close button and every drawer link: the menu closes
        and the sidebar is untouched. */
    method CloseMenu()
      modifies this
      ensures mobileMenuOpen == MenuStep(old(mobileMenuOpen), MenuClosed)
      ensures !mobileMenuOpen && !View().drawer && !View().backdrop
      ensures sidebar.State() == old(sidebar.State())
    {
      mobileMenuOpen := false;
    }

    /** The sidebar's toggle button: the hook's `toggle`, the menu flag untouched. */
    method SidebarToggle()
      modifies sidebar
      ensures sidebar.State() == Step(old(sidebar.State()), ToggleClicked)
      ensures mobileMenuOpen == old(mobileMenuOpen)
      ensures !sidebar.isMobile ==> View().marginLeft == SidebarWidth(!old(sidebar.collapsed))
    {
      sidebar.Toggle();
    }

    /** A viewport change: the hook's media handler. Widening to desktop hides
        the drawer even though the menu flag is not cleared. */
    method ViewportChanged(width: nat)
      modifies sidebar
      ensures sidebar.State() == Step(old(sidebar.State()), SidebarHook.ViewportChanged(width))
      ensures mobileMenuOpen == old(mobileMenuOpen)
      ensures width > MOBILE_MAX_WIDTH ==> !View().drawer && !View().backdrop && !View().bottomNav
    {
      sidebar.MediaChanged(width);
    }
  }
}
