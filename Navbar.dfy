/**
 * The navigation bar: the links the settings flags allow, shown in the
 * desktop bar and, while it is open, in the mobile menu.
 */
module Navbar {
  import opened Js
  import opened SiteSettings

  /** The pages the bar links to. */
  datatype Page = HomePage | ServicesPage | LawyersPage | BlogPage | NewsPage | AboutPage {
    function Path(): string {
      match this
      case HomePage => "/"
      case ServicesPage => "/services"
      case LawyersPage => "/lawyers"
      case BlogPage => "/blog"
      case NewsPage => "/news"
      case AboutPage => "/about"
    }

    function Text(): string {
      match this
      case HomePage => "Home"
      case ServicesPage => "Services"
      case LawyersPage => "Lawyers"
      case BlogPage => "Blog"
      case NewsPage => "News/Articles"
      case AboutPage => "About Us"
    }
  }

  /** `x` when `shown`, nothing otherwise: a `{flag && <Link …/>}` child. */
  function Gate<T>(shown: bool, x: T): (r: seq<T>)
    ensures x in r <==> shown
    ensures |r| <= 1
  {
    if shown then [x] else []
  }

  /** Home first and About last, always; each other link exactly when its flag is truthy. */
  function Links(settings: Flags): (r: seq<Page>)
    ensures |r| >= 2 && r[0] == HomePage && r[|r| - 1] == AboutPage
    ensures ServicesPage in r <==> Truthy(settings.showServices)
    ensures LawyersPage in r <==> Truthy(settings.showTeam)
    ensures BlogPage in r <==> Truthy(settings.showBlog)
    ensures NewsPage in r <==> Truthy(settings.showNews)
  {
    [HomePage]
    + Gate(Truthy(settings.showServices), ServicesPage)
    + Gate(Truthy(settings.showTeam), LawyersPage)
    + Gate(Truthy(settings.showBlog), BlogPage)
    + Gate(Truthy(settings.showNews), NewsPage)
    + [AboutPage]
  }

  /** With the defaults, all six links show. */
  lemma DefaultLinks()
    ensures Links(Defaults) == [HomePage, ServicesPage, LawyersPage, BlogPage, NewsPage, AboutPage]
  {
  }

  /** A rendered `<Link>`: where it goes and what it says. */
  datatype Anchor = Anchor(to: string, text: string)

  /** The anchor a page's link renders to. */
  function AnchorOf(page: Page): Anchor
  {
    Anchor(page.Path(), page.Text())
  }

  /** The anchors a list of pages renders to, one per page and in the same order. */
  function AnchorsOf(pages: seq<Page>): (r: seq<Anchor>)
    ensures |r| == |pages|
    ensures forall i :: 0 <= i < |pages| ==> r[i] == AnchorOf(pages[i])
  {
    if pages == [] then [] else [AnchorOf(pages[0])] + AnchorsOf(pages[1..])
  }

  lemma {:induction false} AnchorsOfAppend(a: seq<Page>, b: seq<Page>)
    ensures AnchorsOf(a + b) == AnchorsOf(a) + AnchorsOf(b)
  {
    if a != [] {
      assert (a + b)[1..] == a[1..] + b;
      AnchorsOfAppend(a[1..], b);
    }
  }

  /** The links of the open mobile menu, each behind the same flag as in the desktop bar. */
  function MobileMenu(settings: Flags): seq<Anchor>
  {
    [Anchor("/", "Home")]
    + Gate(Truthy(settings.showServices), Anchor("/services", "Services"))
    + Gate(Truthy(settings.showTeam), Anchor("/lawyers", "Lawyers"))
    + Gate(Truthy(settings.showBlog), Anchor("/blog", "Blog"))
    + Gate(Truthy(settings.showNews), Anchor("/news", "News/Articles"))
    + [Anchor("/about", "About Us")]
  }

  lemma AnchorsOfGate(shown: bool, page: Page)
    ensures AnchorsOf(Gate(shown, page)) == Gate(shown, AnchorOf(page))
  {
  }

  lemma AnchorsOfSix(a: seq<Page>, b: seq<Page>, c: seq<Page>, d: seq<Page>, e: seq<Page>, f: seq<Page>)
    ensures AnchorsOf(a + b + c + d + e + f)
         == AnchorsOf(a) + AnchorsOf(b) + AnchorsOf(c) + AnchorsOf(d) + AnchorsOf(e) + AnchorsOf(f)
  {
    AnchorsOfAppend(a, b);
    AnchorsOfAppend(a + b, c);
    AnchorsOfAppend(a + b + c, d);
    AnchorsOfAppend(a + b + c + d, e);
    AnchorsOfAppend(a + b + c + d + e, f);
  }

  lemma PageAnchors()
    ensures AnchorOf(HomePage) == Anchor("/", "Home")
    ensures AnchorOf(ServicesPage) == Anchor("/services", "Services")
    ensures AnchorOf(LawyersPage) == Anchor("/lawyers", "Lawyers")
    ensures AnchorOf(BlogPage) == Anchor("/blog", "Blog")
    ensures AnchorOf(NewsPage) == Anchor("/news", "News/Articles")
    ensures AnchorOf(AboutPage) == Anchor("/about", "About Us")
  {
  }

  /** The mobile menu renders exactly the desktop links: same pages, same order, same paths and texts. */
  lemma MobileMatchesDesktop(settings: Flags)
    ensures MobileMenu(settings) == AnchorsOf(Links(settings))
  {
    PageAnchors();
    AnchorsOfGate(Truthy(settings.showServices), ServicesPage);
    AnchorsOfGate(Truthy(settings.showTeam), LawyersPage);
    AnchorsOfGate(Truthy(settings.showBlog), BlogPage);
    AnchorsOfGate(Truthy(settings.showNews), NewsPage);
    assert AnchorsOf([HomePage]) == [AnchorOf(HomePage)];
    assert AnchorsOf([AboutPage]) == [AnchorOf(AboutPage)];
    AnchorsOfSix([HomePage],
      Gate(Truthy(settings.showServices), ServicesPage),
      Gate(Truthy(settings.showTeam), LawyersPage),
      Gate(Truthy(settings.showBlog), BlogPage),
      Gate(Truthy(settings.showNews), NewsPage),
      [AboutPage]);
  }

  class Bar {
    var open: bool
    var settings: Flags

    constructor ()
      ensures !open && settings == Defaults
    {
      open := false;
      settings := Defaults;
    }

    function DesktopLinks(): seq<Page>
      reads this
    {
      Links(settings)
    }

    /** The mobile menu exists only while open, and then shows the desktop links in the same order. */
    function MobileLinks(): (r: seq<Anchor>)
      reads this
      ensures open ==> r == AnchorsOf(DesktopLinks())
      ensures !open ==> r == []
    {
      MobileMatchesDesktop(settings);
      if open then MobileMenu(settings) else []
    }

    /** The settings request completing. */
    method SettingsLoaded(reply: SettingsReply)
      modifies this`settings
      ensures settings == AfterFetch(old(settings), reply)
    {
      settings := AfterFetch(settings, reply);
    }

    /** The menu button. */
    method Toggle()
      modifies this`open
      ensures open == !old(open)
    {
      open := !open;
    }

    /** The backdrop. */
    method Close()
      modifies this`open
      ensures !open && MobileLinks() == []
    {
      open := false;
    }

    /** A link in the mobile menu: the menu closes and the link's path, one of the desktop bar's, is followed. */
    method FollowMobileLink(link: Anchor) returns (path: string)
      requires link in MobileLinks()
      modifies this`open
      ensures !open
      ensures path == link.to
      ensures exists page :: page in Links(settings) && page.Path() == path
    {
      var i :| 0 <= i < |MobileLinks()| && MobileLinks()[i] == link;
      assert link.to == Links(settings)[i].Path();
      open := false;
      path := link.to;
    }
  }
}
