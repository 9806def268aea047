/**
 * The navigation bar's state: whether the page has scrolled past the top,
 * whether the bar is shown, the last scroll position seen and whether the
 * mobile menu is open; and which route link is highlighted.
 */
module Navigation {

  datatype Route = Route(name: string, path: string)

  /** The links of the bar, in display order. */
  const Routes: seq<Route> := [Route("Home", "/"), Route("Analytics", "/analytics"), Route("Job Hunt", "/job-hunt")]

  /** Scroll offset beyond which the bar takes its scrolled style. */
  const ScrolledThreshold := 10

  /** A link is highlighted when the current path is exactly its path. */
  predicate IsActive(pathname: string, route: Route)
  {
    pathname == route.path
  }

  /** Some link is highlighted exactly on the three paths of the bar; a sub-path such as "/job-hunt/1" highlights none. */
  lemma ActiveIffListed(pathname: string)
    ensures (exists i :: 0 <= i < |Routes| && IsActive(pathname, Routes[i])) <==> pathname in ["/", "/analytics", "/job-hunt"]
  {
    if pathname in ["/", "/analytics", "/job-hunt"] {
      assert IsActive(pathname, Routes[0]) || IsActive(pathname, Routes[1]) || IsActive(pathname, Routes[2]);
    }
  }

  /** The routes have distinct paths, so at most one link is highlighted for any path. */
  lemma AtMostOneActive(pathname: string, i: nat, j: nat)
    requires i < |Routes| && j < |Routes|
    requires IsActive(pathname, Routes[i]) && IsActive(pathname, Routes[j])
    ensures i == j
  {
  }

  class Navbar {
    var isScrolled: bool
    var isVisible: bool
    var lastScrollY: int
    var isMobileMenuOpen: bool

    /** The scrolled style always reflects the last scroll position seen. */
    ghost predicate Valid()
      reads this
    {
      isScrolled <==> lastScrollY > ScrolledThreshold
    }

    constructor ()
      ensures Valid()
      ensures !isScrolled && isVisible && lastScrollY == 0 && !isMobileMenuOpen
    {
      isScrolled := false;
      isVisible := true;
      lastScrollY := 0;
      isMobileMenuOpen := false;
    }

    /**
     * `handleScroll` for a new offset `currentScrollY`: scrolling down hides
     * the bar, scrolling up or not at all shows it; the offset is remembered
     * and the scrolled style follows it. The menu is left alone.
     */
    method HandleScroll(currentScrollY: int)
      requires Valid()
      modifies this`isScrolled, this`isVisible, this`lastScrollY
      ensures Valid()
      ensures isVisible <==> currentScrollY <= old(lastScrollY)
      ensures lastScrollY == currentScrollY
      ensures isScrolled <==> currentScrollY > ScrolledThreshold
    {
      if currentScrollY > lastScrollY {
        isVisible := false;
      } else {
        isVisible := true;
      }
      lastScrollY := currentScrollY;
      isScrolled := currentScrollY > ScrolledThreshold;
    }

    /** The menu button flips the mobile menu. */
    method ToggleMobileMenu()
      requires Valid()
      modifies this`isMobileMenuOpen
      ensures Valid()
      ensures isMobileMenuOpen == !old(isMobileMenuOpen)
    {
      isMobileMenuOpen := !isMobileMenuOpen;
    }

    /** Following a link in the mobile menu closes it. */
    method CloseMobileMenu()
      requires Valid()
      modifies this`isMobileMenuOpen
      ensures Valid()
      ensures !isMobileMenuOpen
    {
      isMobileMenuOpen := false;
    }
  }

  /**
   * A scroll sequence seen from the outside: scrolling down past the
   * threshold hides the bar and applies the scrolled style; staying at the
   * same offset shows it again; scrolling back near the top drops the style.
   */
  method ScrollScenario() returns (afterDown: bool, afterStay: bool, afterUp: bool, scrolledAtEnd: bool)
    ensures !afterDown && afterStay && afterUp && !scrolledAtEnd
  {
    var bar := new Navbar();
    bar.HandleScroll(50);
    afterDown := bar.isVisible;
    assert bar.isScrolled;
    bar.HandleScroll(50);
    afterStay := bar.isVisible;
    bar.HandleScroll(5);
    afterUp := bar.isVisible;
    scrolledAtEnd := bar.isScrolled;
  }
}
