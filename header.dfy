/** The fixed page header: the mobile menu, the scroll-lock it puts on the
    page body, the "scrolled" style, in-page navigation and the mocked live
    player count. */
module Header {
  import opened Strings
  import opened Dom

  datatype ServerStats = ServerStats(isOnline: bool, playerCount: nat, maxPlayers: nat)

  const InitialStats := ServerStats(true, 127, 128)

  datatype NavItem = NavItem(name: string, href: string)

  const Navigation: seq<NavItem> := [
    NavItem("Home", "#home"),
    NavItem("Features", "#features"),
    NavItem("Community", "#community"),
    NavItem("Gallery", "#gallery"),
    NavItem("Rules", "#rules"),
    NavItem("Contact", "#contact")
  ]

  /** On the page as composed, only the first three entries lead anywhere:
      `#gallery`, `#rules` and `#contact` name no element, so clicking them
      only closes the menu. */
  lemma NavigationTargets(doc: Document)
    requires doc.ids == PageSectionIds
    ensures forall i :: 0 <= i < |Navigation| ==> (doc.AnchorTarget(Navigation[i].href).Some? <==> i < 3)
  {
    forall i | 0 <= i < |Navigation|
      ensures doc.AnchorTarget(Navigation[i].href).Some? <==> i < 3
    {
      var href := Navigation[i].href;
      assert StartsWith(href, "#");
      assert href[1..] in doc.ids <==> i < 3;
    }
  }

  /** Scroll offset, in pixels, past which the header turns solid. */
  const ScrollThreshold: real := 50.0

  /** The mock stats tick, with `r` standing for
      `Math.floor(Math.random() * 5)`: the count lands in 124..128 and the
      other fields are kept. */
  function PlayerTick(prev: ServerStats, r: int): (next: ServerStats)
    requires 0 <= r < 5
    ensures 124 <= next.playerCount <= 128
    ensures next.isOnline == prev.isOnline && next.maxPlayers == prev.maxPlayers
  {
    prev.(playerCount := r + 124)
  }

  /** Every count in 124..128 can come out of a tick, so the range above is
      exact. */
  lemma PlayerTickReaches(prev: ServerStats, count: int)
    requires 124 <= count <= 128
    ensures exists r :: 0 <= r < 5 && PlayerTick(prev, r).playerCount == count
  {
    assert PlayerTick(prev, count - 124).playerCount == count;
  }

  /** The body `overflow` value the scroll-lock effect writes. */
  function ScrollLock(menuOpen: bool): (overflow: string)
    ensures overflow == "hidden" <==> menuOpen
    ensures overflow == "unset" <==> !menuOpen
  {
    if menuOpen then "hidden" else "unset"
  }

  datatype MenuIcon = MenuIcon | CloseIcon

  /** What the header renders from its state. */
  datatype HeaderView = HeaderView(
    solidBar: bool,
    toggleIcon: MenuIcon,
    mobileMenu: bool,
    statusVariant: string,
    statusLabel: string,
    playersLabel: string)

  class HeaderState {
    const doc: Document
    var isMenuOpen: bool
    var isScrolled: bool
    var serverStats: ServerStats

    /** The scroll-lock effect has run for the current menu state. */
    ghost predicate Valid()
      reads this, doc
    {
      doc.bodyOverflow == ScrollLock(isMenuOpen)
    }

    /** Mounting: the initial state, then the first run of the scroll-lock
        effect. */
    constructor (doc: Document)
      modifies doc`bodyOverflow
      ensures this.doc == doc && Valid()
      ensures !isMenuOpen && !isScrolled && serverStats == InitialStats
      ensures doc.bodyOverflow == "unset"
    {
      this.doc := doc;
      isMenuOpen := false;
      isScrolled := false;
      serverStats := InitialStats;
      new;
      doc.SetBodyOverflow(ScrollLock(false));
    }

    /** `setIsMenuOpen(open)` followed by the re-render: when the value
        changed, the old effect's cleanup writes "unset" and the effect runs
        again for the new value; otherwise the effect does not rerun. */
    method SetMenuOpen(open: bool)
      requires Valid()
      modifies this`isMenuOpen, doc`bodyOverflow
      ensures Valid() && isMenuOpen == open
    {
      var changed := open != isMenuOpen;
      isMenuOpen := open;
      if changed {
        doc.SetBodyOverflow("unset");
        doc.SetBodyOverflow(ScrollLock(open));
      }
    }

    /** `toggleMenu`, from the menu button. */
    method ToggleMenu()
      requires Valid()
      modifies this`isMenuOpen, doc`bodyOverflow
      ensures Valid() && isMenuOpen == !old(isMenuOpen)
    {
      SetMenuOpen(!isMenuOpen);
    }

    /** The backdrop click and the close button of the mobile menu. */
    method CloseMenu()
      requires Valid()
      modifies this`isMenuOpen, doc`bodyOverflow
      ensures Valid() && !isMenuOpen
    {
      SetMenuOpen(false);
    }

    /** `handleNavClick`: always closes the menu; scrolls smoothly to the
        start of the target only when `href` is `#id` and that element
        exists. */
    method HandleNavClick(href: string)
      requires Valid()
      modifies this`isMenuOpen, doc`bodyOverflow, doc`scrolls
      ensures Valid() && !isMenuOpen
      ensures doc.scrolls == old(doc.scrolls) +
        (if doc.AnchorTarget(href).Some? then [Scroll(doc.AnchorTarget(href).value, BlockStart)] else [])
    {
      SetMenuOpen(false);
      var target := doc.AnchorTarget(href);
      if target.Some? {
        doc.ScrollIntoView(target.value, BlockStart);
      }
    }

    /** The window `scroll` listener. */
    method HandleScroll(scrollY: real)
      modifies this`isScrolled
      ensures isScrolled <==> scrollY > ScrollThreshold
    {
      isScrolled := scrollY > ScrollThreshold;
    }

    /** The 30-second interval callback. */
    method Tick(r: int)
      requires 0 <= r < 5
      modifies this`serverStats
      ensures serverStats == PlayerTick(old(serverStats), r)
    {
      serverStats := PlayerTick(serverStats, r);
    }

    /** Unmounting runs the scroll-lock cleanup. */
    method Unmount()
      modifies doc`bodyOverflow
      ensures doc.bodyOverflow == "unset"
    {
      doc.SetBodyOverflow("unset");
    }

    /** The rendered header: the solid bar follows `isScrolled`; the toggle
        icon, the backdrop and the mobile menu follow `isMenuOpen`; the
        status badge follows `isOnline`. */
    function View(): (v: HeaderView)
      reads this
      ensures v.solidBar == isScrolled
      ensures v.mobileMenu == isMenuOpen
      ensures v.toggleIcon == CloseIcon <==> isMenuOpen
      ensures (v.statusVariant, v.statusLabel) == (if serverStats.isOnline then ("online", "Online") else ("offline", "Offline"))
      ensures v.playersLabel == RatioText(serverStats.playerCount, serverStats.maxPlayers)
    {
      HeaderView(
        isScrolled,
        if isMenuOpen then CloseIcon else MenuIcon,
        isMenuOpen,
        if serverStats.isOnline then "online" else "offline",
        if serverStats.isOnline then "Online" else "Offline",
        RatioText(serverStats.playerCount, serverStats.maxPlayers))
    }
  }
}
