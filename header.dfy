/** components/Header.tsx: the navigation bar's active-link test and its mobile menu flag. */
module Header {

  datatype NavItem = NavItem(name: string, href: string)

  const NavItems: seq<NavItem> := [
    NavItem("Projects", "/projects"),
    NavItem("About", "/about"),
    NavItem("Blog", "/blog"),
    NavItem("Demos", "/demos"),
    NavItem("Contact", "/contact")
  ]

  /**
   * `isActiveLink`: the root link is active only on the root page itself; any other link is
   * active on every path that starts with its href, as a plain string prefix.
   */
  predicate IsActiveLink(pathname: string, href: string)
    ensures IsActiveLink(pathname, href) ==> href <= pathname
    ensures href != "/" && href <= pathname ==> IsActiveLink(pathname, href)
  {
    if href == "/" then pathname == href else href <= pathname
  }

  /** Two hrefs that are both prefixes of one path agree on every position the shorter has. */
  lemma {:induction false} PrefixesAgree(a: string, b: string, p: string, k: nat)
    requires a <= p && b <= p && k < |a| && k < |b|
    ensures a[k] == b[k]
  {
    assert a[k] == p[k] && b[k] == p[k];
  }

  /** At most one navigation item is active on any path. */
  lemma AtMostOneActive(pathname: string, i: nat, j: nat)
    requires i < |NavItems| && j < |NavItems| && i != j
    ensures !(IsActiveLink(pathname, NavItems[i].href) && IsActiveLink(pathname, NavItems[j].href))
  {
    var a := NavItems[i].href;
    var b := NavItems[j].href;
    if IsActiveLink(pathname, a) && IsActiveLink(pathname, b) {
      PrefixesAgree(a, b, pathname, 1);
      assert false;
    }
  }

  /** The root link is active on "/" and nowhere else. */
  lemma RootOnlyAtRoot(pathname: string)
    ensures IsActiveLink(pathname, "/") <==> pathname == "/"
  {
  }

  /** A project page activates the Projects link. */
  lemma ProjectPageActivatesProjects(slug: string)
    ensures IsActiveLink("/projects/" + slug, NavItems[0].href)
  {
    assert NavItems[0].href == "/projects";
    assert ("/projects/" + slug)[..9] == "/projects";
  }

  class MobileMenu {
    var isMobileMenuOpen: bool

    constructor()
      ensures !isMobileMenuOpen
    {
      isMobileMenuOpen := false;
    }

    /** The menu button. */
    method Toggle()
      modifies this
      ensures isMobileMenuOpen == !old(isMobileMenuOpen)
    {
      isMobileMenuOpen := !isMobileMenuOpen;
    }

    /** Any link of the mobile menu (a navigation item or "Contact me") closes it. */
    method LinkClicked()
      modifies this
      ensures !isMobileMenuOpen
    {
      isMobileMenuOpen := false;
    }
  }
}
