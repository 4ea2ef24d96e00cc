/**
 * The public navigation bar: its background once the page is scrolled,
 * the mobile menu toggle, and the path each of the five menu items links
 * to, checked against the route table.
 */
module Navbar {
  import opened Text
  import opened AppRoutes
  import RouteAccess
  import Breadcrumbs
  import opened Outcomes

  /** The menu, in the order it is shown, on the desktop bar and in the mobile dropdown alike. */
  const Items: seq<string> := ["Home", "About Us", "Services", "Login", "Register"]

  /** The solid background and shadow appear once the page is scrolled more than 50 pixels. */
  const ScrollThreshold: int := 50

  /**
   * The link of a menu item as written: "/" for "Home", otherwise '/'
   * followed by the label with its white space removed, lower-cased.
   */
  function LinkAsWritten(item: string): (path: string)
    ensures item == "Home" ==> path == "/"
    ensures |path| >= 1 && path[0] == '/' && |path| <= |item| + 1
  {
    if item == "Home" then "/" else "/" + Lower(RemoveSpaces(item))
  }

  /** After its leading '/', a link holds no white space and no capital. */
  lemma LinkAsWrittenIsClean(item: string)
    ensures forall i :: 1 <= i < |LinkAsWritten(item)| ==>
      !IsSpace(LinkAsWritten(item)[i]) && !IsUpper(LinkAsWritten(item)[i])
  {
    RemoveSpacesLeavesNone(item);
  }

  /** The pathname a link leads to, as the route table sees it. */
  function Target(path: string): seq<string> {
    Breadcrumbs.Segments(path)
  }

  /** A one-segment link such as "/about" reaches exactly that segment. */
  lemma TargetOfOne(seg: string)
    requires seg != "" && '/' !in seg
    ensures Target("/" + seg) == [seg]
  {
    Breadcrumbs.SegmentsOfNormal([seg]);
  }

  /** "About Us" loses its space. */
  lemma AboutUsSqueezed()
    ensures RemoveSpaces("About Us") == "AboutUs"
  {
    assert "About Us" == "About" + " " + "Us";
    SqueezeTwo("About", "Us");
  }

  /** Two space-free words with one space between them are run together. */
  lemma {:induction false} SqueezeTwo(u: string, v: string)
    requires forall j :: 0 <= j < |u| ==> !IsSpace(u[j])
    requires forall j :: 0 <= j < |v| ==> !IsSpace(v[j])
    ensures RemoveSpaces(u + " " + v) == u + v
  {
    if u == [] {
      assert u + " " + v == [' '] + v;
      assert ([' '] + v)[1..] == v;
      RemoveSpacesOfFree(v);
    } else {
      SqueezeTwo(u[1..], v);
      assert (u + " " + v)[1..] == u[1..] + " " + v;
      assert u + v == [u[0]] + (u[1..] + v);
    }
  }

  /** "About Us" links to /aboutus. */
  lemma AboutUsLinkAsWritten()
    ensures Items[1] == "About Us" && LinkAsWritten(Items[1]) == "/aboutus"
  {
    AboutUsSqueezed();
    assert Lower("AboutUs") == "aboutus";
  }

  /**
   * As written, the "About Us" item leads to a pathname no route declares:
   * the visitor lands on the NotFound page instead of the About page.
   */
  lemma AsWrittenAboutUsIsNotFound()
    ensures Items[1] == "About Us" && LinkAsWritten(Items[1]) == "/aboutus"
    ensures Target(LinkAsWritten(Items[1])) == ["aboutus"]
    ensures Resolve(Target(LinkAsWritten(Items[1]))) == NotFoundRoute
  {
    AboutUsLinkAsWritten();
    AboutUsTarget();
    AboutUsIsUndeclared(Target(LinkAsWritten(Items[1])));
  }

  /** The as-written "About Us" pathname has the single segment "aboutus". */
  lemma AboutUsTarget()
    ensures Target(LinkAsWritten(Items[1])) == ["aboutus"]
  {
    AboutUsLinkAsWritten();
    var seg := "aboutus";
    assert LinkAsWritten(Items[1]) == "/" + seg;
    TargetOfOne(seg);
  }

  /** No route declares the top-level segment "aboutus". */
  lemma AboutUsIsUndeclared(segs: seq<string>)
    requires segs == ["aboutus"]
    ensures Resolve(segs) == NotFoundRoute
  {
    RouteAccess.LowerOfLowerCase(segs[0]);
    RouteAccess.UndeclaredTopLevel(segs);
  }

  /** The intended link: "About Us" goes to the declared /about route, the others as written. */
  function Link(item: string): (path: string)
    ensures item == "About Us" ==> path == "/about"
    ensures item != "About Us" ==> path == LinkAsWritten(item)
  {
    if item == "About Us" then "/about" else LinkAsWritten(item)
  }

  /** A one-word label other than "Home" links to the label lower-cased. */
  lemma WordLink(item: string)
    requires item != "Home" && item != "About Us"
    requires forall j :: 0 <= j < |item| ==> !IsSpace(item[j])
    ensures Link(item) == "/" + Lower(item)
  {
    RemoveSpacesOfFree(item);
  }

  /** A route search skips a route whose pattern does not match. */
  lemma Skip(p: seq<Route>, segs: seq<string>, j: nat)
    requires j < |p| && !Matches(p[j].pattern, segs)
    ensures FirstMatchFrom(p, segs, j) == FirstMatchFrom(p, segs, j + 1)
  {
  }

  /** The public routes are the public children, in the same order, with no prefix. */
  lemma PublicPatterns()
    ensures |PublicRoutes()| == |PublicChildren()|
    ensures forall j :: 0 <= j < |PublicRoutes()| ==> PublicRoutes()[j].pattern == PublicChildren()[j].rest
  {
    forall j | 0 <= j < |PublicRoutes()| ensures PublicRoutes()[j].pattern == PublicChildren()[j].rest {
      assert [] + PublicChildren()[j].rest == PublicChildren()[j].rest;
    }
  }

  /** Searching on from route `j`, the first match of a single segment is route `k`. */
  lemma {:induction false} SearchFrom(seg: string, j: nat, k: nat)
    requires 1 <= j <= k < |PublicChildren()| && PublicChildren()[k].rest == [Lit(seg)]
    requires forall i :: j <= i < k ==> PublicChildren()[i].rest[0] != Lit(seg)
    ensures FirstMatchFrom(PublicRoutes(), [seg], j) == Some(PublicRoutes()[k])
    decreases k - j
  {
    PublicPatterns();
    if j < k {
      assert PublicRoutes()[j].pattern[0] != Lit(seg);
      SearchFrom(seg, j + 1, k);
    } else {
      assert Matches(PublicRoutes()[k].pattern, [seg]);
    }
  }

  /** The first public route matching a single segment that names a public page. */
  lemma OnePublicMatch(seg: string, k: nat)
    requires 1 <= k < |PublicChildren()| && PublicChildren()[k].rest == [Lit(seg)]
    requires forall j :: 1 <= j < k ==> PublicChildren()[j].rest[0] != Lit(seg)
    ensures FirstMatch(PublicRoutes(), [seg]) == Some(PublicRoutes()[k])
  {
    PublicPatterns();
    assert PublicRoutes()[0].pattern == [];
    SearchFrom(seg, 1, k);
  }

  /** A lower-case single segment resolves to the public route it matches first. */
  lemma ResolvesToPublic(seg: string, k: nat)
    requires forall i :: 0 <= i < |seg| ==> !IsUpper(seg[i])
    requires 1 <= k < |PublicChildren()| && PublicChildren()[k].rest == [Lit(seg)]
    requires forall j :: 1 <= j < k ==> PublicChildren()[j].rest[0] != Lit(seg)
    ensures Resolve([seg]) == PublicRoutes()[k]
  {
    RouteAccess.LowerOfLowerCase(seg);
    assert LowerAll([seg]) == [seg];
    OnePublicMatch(seg, k);
    RouteAccess.PublicPathsUnguarded([seg]);
  }

  /** The home link resolves to the landing page. */
  lemma HomeResolves()
    ensures Resolve(Target(Link(Items[0]))) == PublicRoutes()[0]
  {
    var path := Link(Items[0]);
    assert Items[0] == "Home" && path == "/";
    Breadcrumbs.RootHasNoCrumbs(Breadcrumbs.FirstLetter);
    var segs := Target(path);
    assert segs == [];
    PublicPatterns();
    var p := PublicRoutes();
    assert p[0].pattern == [];
    assert FirstMatch(p, segs) == Some(p[0]);
    RouteAccess.PublicPathsUnguarded(segs);
  }

  /** The About link resolves to the About page. */
  lemma AboutReaches(item: string)
    requires item == Items[1]
    ensures Resolve(Target(Link(item))) == PublicRoutes()[8]
  {
    var seg := "about";
    assert item == "About Us";
    assert Link(item) == "/" + seg;
    TargetOfOne(seg);
    ResolvesToPublic(seg, 8);
  }

  /** A label made of ASCII letters only. */
  predicate IsWord(s: string) {
    forall j :: 0 <= j < |s| ==> 'A' <= s[j] <= 'Z' || 'a' <= s[j] <= 'z'
  }

  /** A one-word label resolves to the first public route named by its lower-cased word. */
  lemma WordReaches(item: string, seg: string, k: nat)
    requires item != "" && item != "Home" && item != "About Us" && IsWord(item) && seg == Lower(item)
    requires 1 <= k < |PublicChildren()| && PublicChildren()[k].rest == [Lit(seg)]
    requires forall j :: 1 <= j < k ==> PublicChildren()[j].rest[0] != Lit(seg)
    ensures Resolve(Target(Link(item))) == PublicRoutes()[k]
  {
    assert forall j :: 0 <= j < |item| ==> !IsSpace(item[j]);
    WordLink(item);
    assert forall j :: 0 <= j < |seg| ==> seg[j] != '/' && !IsUpper(seg[j]);
    TargetOfOne(seg);
    ResolvesToPublic(seg, k);
  }

  /** The page each menu item is meant to open, in menu order. */
  const Pages: seq<string> := ["LandingPage", "AboutPage", "ServicesPage", "Login", "Register"]

  /** Where the menu item at `i` should land among the public routes. */
  function RouteIndex(i: nat): nat {
    if i == 0 then 0 else if i == 1 then 8 else if i == 2 then 9 else if i == 3 then 3 else 2
  }

  /**
   * The one-word menu items ("Services", "Login", "Register") reach the
   * public route of their lower-cased word.
   */
  lemma WordItemReaches(item: string, seg: string, k: nat)
    requires (item, seg, k) in {("Services", "services", 9), ("Login", "login", 3), ("Register", "register", 2)}
    ensures k < |PublicRoutes()| && Resolve(Target(Link(item))) == PublicRoutes()[k]
  {
    assert IsWord(item) && Lower(item) == seg;
    assert PublicChildren()[k].rest == [Lit(seg)];
    assert forall j :: 1 <= j < k ==> PublicChildren()[j].rest[0] != Lit(seg);
    WordReaches(item, seg, k);
  }

  /** One menu item reaches its page. */
  lemma ItemReaches(i: nat)
    requires i < |Items|
    ensures RouteIndex(i) < |PublicRoutes()| && Resolve(Target(Link(Items[i]))) == PublicRoutes()[RouteIndex(i)]
  {
    if i == 0 {
      assert Items[i] == "Home";
      HomeResolves();
    } else if i == 1 {
      AboutReaches(Items[i]);
    } else if i == 2 {
      WordItemReaches(Items[i], "services", 9);
    } else if i == 3 {
      WordItemReaches(Items[i], "login", 3);
    } else {
      WordItemReaches(Items[i], "register", 2);
    }
  }

  /**
   * With the intended links every menu item reaches the page it names, on
   * a public route, and none of them shows NotFound.
   */
  lemma LinksReachTheirPages()
    ensures forall i :: 0 <= i < |Items| ==>
      Resolve(Target(Link(Items[i]))).page == Pages[i] && Resolve(Target(Link(Items[i]))).guard == Public
  {
    forall i | 0 <= i < |Items|
      ensures Resolve(Target(Link(Items[i]))).page == Pages[i] && Resolve(Target(Link(Items[i]))).guard == Public
    {
      ItemReaches(i);
      PublicPages(i);
    }
  }

  /** The public route each menu item is meant to reach shows that item's page. */
  lemma PublicPages(i: nat)
    requires i < |Items|
    ensures PublicRoutes()[RouteIndex(i)].page == Pages[i] && PublicRoutes()[RouteIndex(i)].guard == Public
  {
    var c := PublicChildren();
    assert |PublicRoutes()| == |c|;
    assert PublicRoutes()[RouteIndex(i)].page == c[RouteIndex(i)].page;
  }

  /** The icon of the mobile menu button. */
  datatype MenuIcon = Close | Hamburger

  class NavigationBar {
    var scrolled: bool
    var menuOpen: bool

    constructor ()
      ensures !scrolled && !menuOpen
    {
      scrolled := false;
      menuOpen := false;
    }

    /** The close icon while the dropdown is open, the hamburger otherwise. */
    function Icon(): (icon: MenuIcon)
      reads this
      ensures icon == Close <==> menuOpen
    {
      if menuOpen then Close else Hamburger
    }

    /** The scroll listener: the bar is solid exactly when `scrollY` is past the threshold. */
    method OnScroll(scrollY: int)
      modifies this
      ensures scrolled <==> scrollY > ScrollThreshold
      ensures menuOpen == old(menuOpen)
    {
      scrolled := scrollY > ScrollThreshold;
    }

    /** The mobile menu button. */
    method ToggleMenu()
      modifies this
      ensures menuOpen == !old(menuOpen) && scrolled == old(scrolled)
    {
      menuOpen := !menuOpen;
    }

    /**
     * Following an item of the mobile dropdown closes it and goes to the
     * item's link as the code builds it, so "About Us" leads to /aboutus.
     */
    method FollowMobileLink(item: string) returns (path: string)
      modifies this
      ensures path == LinkAsWritten(item) && !menuOpen && scrolled == old(scrolled)
    {
      menuOpen := false;
      path := LinkAsWritten(item);
    }
  }
}
