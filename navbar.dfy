/**
 * The navigation bar: what a click on a link does, the scrolled style and the mobile menu.
 * The document's element ids and the current path are parameters.
 */
module Navbar {
  import opened Strings

  /** What the browser does after the click handler ran. */
  datatype NavOutcome =
    | FollowLink               // the default navigation is not prevented
    | ScrollToTop              // prevented, then `window.scrollTo({ top: 0 })`
    | ScrollToElement(id: string)   // prevented, then the element with that id scrolls into view
    | StayPut                  // prevented, and no element matched

  /** `href.startsWith('/#')` */
  predicate IsHashNavigation(href: string)
  {
    StartsWith(href, "/#")
  }

  /**
   * The decision of `handleNavClick` for a link `href`, on a page that is the home page or not,
   * in a document whose elements carry the ids in `ids`. The hash is `href` without its first
   * character, and `querySelector(hash)` finds an element with the id after the '#'.
   */
  function NavDecision(href: string, isHomePage: bool, ids: set<string>): (o: NavOutcome)
    ensures !IsHashNavigation(href) || !isHomePage <==> o == FollowLink
    ensures o == ScrollToTop <==> IsHashNavigation(href) && isHomePage && href[1..] == "#home"
    ensures o.ScrollToElement? ==>
      IsHashNavigation(href) && isHomePage && href[1..] != "#home" && o.id == href[2..] && o.id in ids
    ensures o == StayPut ==> IsHashNavigation(href) && isHomePage && href[2..] !in ids
  {
    if !IsHashNavigation(href) || !isHomePage then FollowLink
    else
      var hash := href[1..];
      if hash == "#home" then ScrollToTop
      else if hash[1..] in ids then ScrollToElement(hash[1..])
      else StayPut
  }

  /** On the home page a section link `/#<id>` other than home scrolls to that section exactly when it exists. */
  lemma SectionLinkScrolls(id: string, ids: set<string>)
    requires id != "home"
    ensures NavDecision("/#" + id, true, ids) == if id in ids then ScrollToElement(id) else StayPut
  {
    var href := "/#" + id;
    assert href[..2] == "/#" && href[2..] == id;
    assert href[1..] == "#" + id;
    assert href[1..][1..] == id;
  }

  /** The logo link `/#home` scrolls to the top on the home page and is followed elsewhere. */
  lemma HomeLink(isHomePage: bool, ids: set<string>)
    ensures NavDecision("/#home", isHomePage, ids) == if isHomePage then ScrollToTop else FollowLink
  {
    assert "/#home"[..2] == "/#";
  }

  /** `/careers` is always followed. */
  lemma PlainLinkFollowed(isHomePage: bool, ids: set<string>)
    ensures NavDecision("/careers", isHomePage, ids) == FollowLink
  {
    assert "/careers"[1] != '#';
  }

  /** The navigation bar state. */
  class NavbarState {
    var isScrolled: bool
    var isMobileMenuOpen: bool
    /** `window.location.pathname === '/'`, fixed for the life of the component */
    const isHomePage: bool

    constructor(pathname: string)
      ensures !isScrolled && !isMobileMenuOpen && isHomePage == (pathname == "/")
    {
      isScrolled := false;
      isMobileMenuOpen := false;
      isHomePage := pathname == "/";
    }

    /** The scroll listener. */
    method OnScroll(scrollY: int)
      modifies this
      ensures isScrolled <==> scrollY > 50
      ensures isMobileMenuOpen == old(isMobileMenuOpen)
    {
      isScrolled := scrollY > 50;
    }

    /** `handleNavClick`: the menu always closes; the outcome is `NavDecision`. */
    method HandleNavClick(href: string, ids: set<string>) returns (outcome: NavOutcome)
      modifies this
      ensures outcome == NavDecision(href, isHomePage, ids)
      ensures !isMobileMenuOpen && isScrolled == old(isScrolled)
    {
      var isHashNavigation := StartsWith(href, "/#");
      if !isHashNavigation || !isHomePage {
        isMobileMenuOpen := false;
        return FollowLink;
      }
      isMobileMenuOpen := false;
      var hash := href[1..];
      if hash == "#home" {
        outcome := ScrollToTop;
      } else if hash[1..] in ids {
        outcome := ScrollToElement(hash[1..]);
      } else {
        outcome := StayPut;
      }
    }

    /** The menu button. */
    method ToggleMenu()
      modifies this
      ensures isMobileMenuOpen == !old(isMobileMenuOpen) && isScrolled == old(isScrolled)
    {
      isMobileMenuOpen := !isMobileMenuOpen;
    }
  }
}
