/**
 * The navigation bar (src/components/Navbar.js): a shadow flag recomputed on
 * every scroll event, a mobile-menu flag flipped by its buttons and links, and
 * link and icon choices that depend only on the current path and theme.
 */
module Navbar {
  import AppRoot

  /** Scroll offset, in CSS pixels, beyond which the bar gets its shadow. */
  const ScrollThreshold: real := 50.0

  /** The four linked routes, in the order the bar shows them. */
  const Routes: seq<string> := ["/", "/about", "/projects", "/contact"]

  /** The shadow flag for a vertical scroll offset (a fractional number in browsers). */
  function ScrolledAt(scrollY: real): (b: bool)
    ensures b <==> scrollY > ScrollThreshold
  {
    scrollY > ScrollThreshold
  }

  /** A link is highlighted exactly when the path is its route, character for character. */
  function LinkActive(pathname: string, route: string): (b: bool)
    ensures b <==> pathname == route
  {
    pathname == route
  }

  /** The number of highlighted links among `routes`. */
  function ActiveCount(pathname: string, routes: seq<string>): (n: nat)
    ensures n <= |routes|
  {
    if routes == [] then 0
    else (if LinkActive(pathname, routes[0]) then 1 else 0) + ActiveCount(pathname, routes[1..])
  }

  /** With distinct routes, one link is highlighted if the path is one of them and none otherwise. */
  lemma {:induction false} ActiveCountIsMembership(pathname: string, routes: seq<string>)
    requires forall i, j :: 0 <= i < j < |routes| ==> routes[i] != routes[j]
    ensures ActiveCount(pathname, routes) == if pathname in routes then 1 else 0
    decreases |routes|
  {
    if routes != [] {
      ActiveCountIsMembership(pathname, routes[1..]);
      if pathname == routes[0] {
        assert pathname !in routes[1..];
      } else {
        assert pathname in routes <==> pathname in routes[1..];
      }
    }
  }

  /** At most one of the bar's four links is highlighted, and exactly one on a linked route. */
  lemma AtMostOneActive(pathname: string)
    ensures ActiveCount(pathname, Routes) <= 1
    ensures ActiveCount(pathname, Routes) == 1 <==> pathname in Routes
    ensures forall i, j ::
              (0 <= i < |Routes| && 0 <= j < |Routes| &&
               LinkActive(pathname, Routes[i]) && LinkActive(pathname, Routes[j])) ==> i == j
  {
    ActiveCountIsMembership(pathname, Routes);
  }

  datatype ThemeIcon = Moon | Sun

  /** The theme button shows the moon exactly in the light theme. */
  function ThemeIconFor(theme: AppRoot.Theme): (icon: ThemeIcon)
    ensures icon == Moon <==> theme == AppRoot.Light
  {
    if theme == AppRoot.Light then Moon else Sun
  }

  /** On the tokens the root holds, the moon shows exactly when the light theme object is applied,
      and every toggle swaps the icon. */
  lemma IconAgreesWithTheme(theme: AppRoot.Theme)
    requires AppRoot.IsThemeToken(theme)
    ensures ThemeIconFor(theme) == Moon <==> AppRoot.ThemeObjectFor(theme) == AppRoot.LightTheme
    ensures ThemeIconFor(AppRoot.Toggled(theme)) != ThemeIconFor(theme)
  {
  }

  class NavbarState {
    var mobileMenuOpen: bool
    var scrolled: bool

    /** Mount: menu closed, no shadow. */
    constructor ()
      ensures !mobileMenuOpen && !scrolled
    {
      mobileMenuOpen := false;
      scrolled := false;
    }

    /** The window scroll listener. */
    method HandleScroll(scrollY: real)
      modifies this
      ensures scrolled == ScrolledAt(scrollY)
      ensures mobileMenuOpen == old(mobileMenuOpen)
    {
      if scrollY > ScrollThreshold {
        scrolled := true;
      } else {
        scrolled := false;
      }
    }

    /** The menu button and the menu's close button flip the menu flag. */
    method ToggleMobileMenu()
      modifies this
      ensures mobileMenuOpen == !old(mobileMenuOpen)
      ensures scrolled == old(scrolled)
    {
      mobileMenuOpen := !mobileMenuOpen;
    }

    /** A link of the mobile menu: it flips the flag too (so an open menu closes) and
        navigates to its route. */
    method MobileLinkClicked(i: nat) returns (target: string)
      requires i < |Routes|
      modifies this
      ensures target == Routes[i]
      ensures mobileMenuOpen == !old(mobileMenuOpen)
      ensures scrolled == old(scrolled)
    {
      ToggleMobileMenu();
      target := Routes[i];
    }

    /** The full-screen menu is rendered exactly while the flag is set. */
    function MobileMenuRendered(): (b: bool)
      reads this
      ensures b <==> mobileMenuOpen
    {
      mobileMenuOpen
    }
  }

  /** The shadow follows the latest scroll offset; the menu opens, a link inside it closes it,
      and two further toggles leave it as it was. */
  method NavigationScenario() returns (shadowAt60: bool, shadowAt50: bool, openAfterButton: bool,
                                       openAfterLink: bool, openAfterTwoToggles: bool)
    ensures shadowAt60 && !shadowAt50
    ensures openAfterButton && !openAfterLink && !openAfterTwoToggles
  {
    var nav := new NavbarState();
    nav.HandleScroll(60.0);
    shadowAt60 := nav.scrolled;
    nav.HandleScroll(50.0);
    shadowAt50 := nav.scrolled;
    nav.ToggleMobileMenu();
    openAfterButton := nav.MobileMenuRendered();
    var target := nav.MobileLinkClicked(2);
    openAfterLink := nav.MobileMenuRendered();
    nav.ToggleMobileMenu();
    nav.ToggleMobileMenu();
    openAfterTwoToggles := nav.MobileMenuRendered();
  }
}
