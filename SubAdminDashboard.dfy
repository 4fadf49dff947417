/**
 * The sub-admin dashboard: a token gate on mount, a permissions request
 * whose reply decides which sections exist, overview counts fetched only
 * for the permitted sections, and an `activeSection` that the sidebar and
 * the overview cards move between the sections they offer.
 */
module SubAdminDashboard {
  import opened Optional
  import opened Js
  import opened DashboardCounts

  const TokenKey: string := "subAdminToken"
  const LoginPath: string := "/admin/login"
  const MeUrl: string := "https://api.guptalawoffices.in/api/subadmin/me"
  /**
   * The values `activeSection` takes: every `setActiveSection` call passes
   * one of the literals "dashboard", "enquiries", "lawyers", "services",
   * "posts" or "news", so the model names them.
   */
  datatype Section = Home | Enquiries | Lawyers | Services | Posts | News

  /** The `canManage*` flag that opens a section; the overview needs none. */
  function FlagOf(section: Section): Option<string> {
    match section
    case Home => None
    case Enquiries => Some("canManageEnquiries")
    case Lawyers => Some("canManageLawyers")
    case Services => Some("canManageServices")
    case Posts => Some("canManagePosts")
    case News => Some("canManageNews")
  }

  /** `permissions.canManageX` is truthy for the section's flag. */
  predicate Permitted(permissions: JsValue, section: Section) {
    FlagOf(section).Some? && Truthy(Get(permissions, FlagOf(section).value))
  }

  /** The sidebar's section buttons after "Dashboard", in order. */
  const SidebarOrder: seq<Section> := [Enquiries, Lawyers, Services, Posts, News]

  /** The sections of `order` whose flag is truthy, in the same order. */
  function PermittedIn(permissions: JsValue, order: seq<Section>): (r: seq<Section>)
    ensures forall s :: s in r <==> s in order && Permitted(permissions, s)
  {
    if order == [] then []
    else (if Permitted(permissions, order[0]) then [order[0]] else []) + PermittedIn(permissions, order[1..])
  }

  /** Filtering keeps at most the sections it was given. */
  lemma {:induction false} PermittedInLength(permissions: JsValue, order: seq<Section>)
    ensures |PermittedIn(permissions, order)| <= |order|
  {
    if order != [] {
      PermittedInLength(permissions, order[1..]);
    }
  }

  /** The sidebar buttons: "dashboard", then each section whose flag is truthy, in sidebar order. */
  function Offered(permissions: JsValue): (r: seq<Section>)
    ensures |r| >= 1 && r[0] == Home
    ensures forall s :: s in r <==> s == Home || Permitted(permissions, s)
  {
    [Home] + PermittedIn(permissions, SidebarOrder)
  }

  /** The count a card shows for its section; the overview itself has none. */
  function CountOf(counts: Counts, section: Section): JsValue
    requires section != Home
  {
    match section
    case News => counts.news
    case Lawyers => counts.lawyers
    case Posts => counts.posts
    case Services => counts.services
    case Enquiries => counts.enquiries
  }

  /** An overview card: its title, the count it shows, and the section a click selects. */
  datatype Card = Card(title: string, count: JsValue, target: Section)

  /** The overview cards' sections, in order. */
  const CardOrder: seq<Section> := [News, Lawyers, Posts, Services, Enquiries]

  function CardTitle(section: Section): string {
    match section
    case Home => "Dashboard"
    case Enquiries => "Enquiries"
    case Lawyers => "Lawyers"
    case Services => "Services"
    case Posts => "Posts"
    case News => "News"
  }

  /** One card per section of `order` whose flag is truthy, each showing its section's count. */
  function CardsIn(permissions: JsValue, counts: Counts, order: seq<Section>): (r: seq<Card>)
    ensures forall card :: card in r ==>
      card.target in order && Permitted(permissions, card.target)
      && card.count == CountOf(counts, card.target) && card.title == CardTitle(card.target)
    ensures forall s :: s in order && Permitted(permissions, s) ==> exists card :: card in r && card.target == s
  {
    if order == [] then []
    else
      var rest := CardsIn(permissions, counts, order[1..]);
      var first := order[0];
      if Permitted(permissions, first) then [Card(CardTitle(first), CountOf(counts, first), first)] + rest else rest
  }

  /** The overview: a card exactly for each permitted section, showing that section's count. */
  function OverviewCards(permissions: JsValue, counts: Counts): (r: seq<Card>)
    ensures forall card :: card in r ==> Permitted(permissions, card.target) && card.count == CountOf(counts, card.target)
    ensures forall s :: Permitted(permissions, s) ==> exists card :: card in r && card.target == s
  {
    CardsIn(permissions, counts, CardOrder)
  }

  /** A click on an overview card selects a section the sidebar offers as well. */
  lemma CardTargetsOffered(permissions: JsValue, counts: Counts)
    ensures forall card :: card in OverviewCards(permissions, counts) ==> card.target in Offered(permissions)
  {
    forall card | card in OverviewCards(permissions, counts)
      ensures card.target in Offered(permissions)
    {
      assert Permitted(permissions, card.target);
    }
  }

  /** The main area: the overview on "dashboard", otherwise the one module matching the section. */
  datatype Main = Overview(cards: seq<Card>) | Module(section: Section)

  function MainContent(activeSection: Section, permissions: JsValue, counts: Counts): (m: Main)
    ensures m.Overview? <==> activeSection == Home
    ensures m.Overview? ==> m.cards == OverviewCards(permissions, counts)
    ensures m.Module? ==> m.section == activeSection
  {
    if activeSection == Home then Overview(OverviewCards(permissions, counts)) else Module(activeSection)
  }

  /** A permitted section's reply, or `{ data: [] }` in place of a request never made. */
  function Gate(permissions: JsValue, section: Section, f: Fetched): Fetched {
    if Permitted(permissions, section) then f else Parsed(Placeholder)
  }

  /**
   * The counts the mount effect sets: only permitted sections are fetched,
   * so only their replies can fail the effect, and every other count is 0.
   */
  function GatedCounts(permissions: JsValue, rs: Replies): (r: Option<Counts>)
    ensures r.None? <==>
      (Permitted(permissions, News) && Throws(rs.news))
      || (Permitted(permissions, Lawyers) && Throws(rs.lawyers))
      || (Permitted(permissions, Posts) && Throws(rs.posts))
      || (Permitted(permissions, Services) && Throws(rs.services))
      || (Permitted(permissions, Enquiries) && Throws(rs.enquiries))
    ensures r.Some? ==> r.value.news == (if Permitted(permissions, News) then Count(rs.news.body) else Num(0))
    ensures r.Some? ==> r.value.lawyers == (if Permitted(permissions, Lawyers) then Count(rs.lawyers.body) else Num(0))
    ensures r.Some? ==> r.value.posts == (if Permitted(permissions, Posts) then Count(rs.posts.body) else Num(0))
    ensures r.Some? ==> r.value.services == (if Permitted(permissions, Services) then Count(rs.services.body) else Num(0))
    ensures r.Some? ==> r.value.enquiries == (if Permitted(permissions, Enquiries) then Num(EnquiryCount(rs.enquiries.body)) else Num(0))
  {
    PlaceholderCountsZero();
    Tally(Replies(Gate(permissions, News, rs.news), Gate(permissions, Lawyers, rs.lawyers),
                  Gate(permissions, Posts, rs.posts), Gate(permissions, Services, rs.services),
                  Gate(permissions, Enquiries, rs.enquiries)))
  }

  /** A section without its flag shows 0, whatever the other replies were. */
  lemma UnpermittedCountIsZero(permissions: JsValue, rs: Replies, section: Section)
    requires GatedCounts(permissions, rs).Some?
    requires section != Home && !Permitted(permissions, section)
    ensures CountOf(GatedCounts(permissions, rs).value, section) == Num(0)
  {
  }

  /** The order in which the effect requests the lists. */
  const FetchOrder: seq<Section> := [News, Lawyers, Posts, Services, Enquiries]

  /** The list endpoint behind a section's count; the overview itself has none. */
  function UrlOf(section: Section): string
    requires section != Home
  {
    match section
    case News => NewsUrl
    case Lawyers => LawyersUrl
    case Posts => PostsUrl
    case Services => ServicesUrl
    case Enquiries => EnquiriesUrl
  }

  function UrlsOf(sections: seq<Section>): (r: seq<string>)
    requires Home !in sections
    ensures |r| == |sections|
    ensures forall i :: 0 <= i < |sections| ==> r[i] == UrlOf(sections[i])
  {
    if sections == [] then [] else [UrlOf(sections[0])] + UrlsOf(sections[1..])
  }

  /** Different sections fetch different endpoints. */
  lemma UrlOfInjective(a: Section, b: Section)
    requires a != Home && b != Home && UrlOf(a) == UrlOf(b)
    ensures a == b
  {
  }

  /** A section's endpoint is among those of `order` exactly when the section is. */
  lemma {:induction false} UrlsOfMember(order: seq<Section>, section: Section)
    requires section != Home && Home !in order
    ensures UrlOf(section) in UrlsOf(order) <==> section in order
  {
    if order != [] {
      UrlsOfMember(order[1..], section);
      assert UrlsOf(order) == [UrlOf(order[0])] + UrlsOf(order[1..]);
      assert order == [order[0]] + order[1..];
      if UrlOf(section) == UrlOf(order[0]) {
        UrlOfInjective(section, order[0]);
      }
    }
  }

  /** The endpoints of the permitted sections, in fetch order, hold a section's endpoint exactly when it is permitted. */
  lemma PermittedUrls(permissions: JsValue)
    ensures Home !in PermittedIn(permissions, FetchOrder)
    ensures forall s {:trigger UrlOf(s)} :: s != Home ==>
      (UrlOf(s) in UrlsOf(PermittedIn(permissions, FetchOrder)) <==> Permitted(permissions, s))
  {
    forall s | s != Home
      ensures UrlOf(s) in UrlsOf(PermittedIn(permissions, FetchOrder)) <==> Permitted(permissions, s)
    {
      UrlsOfMember(PermittedIn(permissions, FetchOrder), s);
    }
  }

  /**
   * The list requests sent after the permissions arrive, one per permitted
   * section in the order news, lawyers, posts, services, enquiries: a list
   * is requested exactly when its section's flag is truthy.
   */
  function CountUrls(permissions: JsValue): (r: seq<string>)
    ensures |r| <= |FetchOrder|
    ensures forall s {:trigger UrlOf(s)} :: s != Home ==> (UrlOf(s) in r <==> Permitted(permissions, s))
  {
    PermittedUrls(permissions);
    PermittedInLength(permissions, FetchOrder);
    UrlsOf(PermittedIn(permissions, FetchOrder))
  }

  /** `localStorage.getItem("subAdminToken")` is truthy. */
  predicate HasToken(storage: map<string, string>) {
    TokenKey in storage && storage[TokenKey] != ""
  }

  /** The permissions request: rejected (or a body that is not JSON), or a status and a parsed body. */
  datatype MeReply = MeThrown | MeReply(ok: bool, body: JsValue)

  /** How the mount effect ends: the permissions kept, the counts set (if any), whether it redirected, the URLs requested. */
  datatype MountOutcome = MountOutcome(permissions: JsValue, counts: Option<Counts>, redirected: bool, requests: seq<string>)

  /**
   * The mount effect. Without a token it redirects before any request. A
   * rejected or non-ok permissions reply redirects. Otherwise the body
   * becomes `permissions`; a `null` body then throws on the first flag read,
   * a failing list reply rejects the `Promise.all`, and both redirect from
   * the `catch`; anything else sets the counts.
   */
  function MountResult(storage: map<string, string>, me: MeReply, rs: Replies): (r: MountOutcome)
    ensures r.redirected <==> r.counts.None?
    ensures r.requests == [] <==> !HasToken(storage)
    ensures r.requests != [] ==> r.requests[0] == MeUrl && |r.requests| <= 1 + |FetchOrder|
    ensures r.counts.Some? ==> me.MeReply? && me.ok && !Nullish(me.body) && r.permissions == me.body
    ensures r.counts.Some? ==> r.counts == GatedCounts(r.permissions, rs)
  {
    if !HasToken(storage) then MountOutcome(Null, None, true, [])
    else if me.MeThrown? || !me.ok then MountOutcome(Null, None, true, [MeUrl])
    else if Nullish(me.body) then MountOutcome(me.body, None, true, [MeUrl])
    else
      var gathered := GatedCounts(me.body, rs);
      MountOutcome(me.body, gathered, gathered.None?, [MeUrl] + CountUrls(me.body))
  }

  /** Without a token nothing is requested and the page redirects. */
  lemma NoTokenNoRequest(storage: map<string, string>, me: MeReply, rs: Replies)
    requires !HasToken(storage)
    ensures MountResult(storage, me, rs).requests == [] && MountResult(storage, me, rs).redirected
  {
  }

  /**
   * The effect redirects exactly when it fails: no token, a refused or
   * rejected permissions request, a `null` body, or a failing reply of a
   * permitted list. Counts are set exactly when it does not.
   */
  lemma RedirectIffFailure(storage: map<string, string>, me: MeReply, rs: Replies)
    ensures var o := MountResult(storage, me, rs);
      o.redirected <==>
        !HasToken(storage) || me.MeThrown? || !me.ok || Nullish(me.body) || GatedCounts(me.body, rs).None?
    ensures var o := MountResult(storage, me, rs);
      o.counts.Some? <==> !o.redirected
  {
  }

  /** Accepted permissions are truthy-or-not exactly as sent, and a refused reply leaves them `null`. */
  lemma PermissionsAsSent(storage: map<string, string>, me: MeReply, rs: Replies)
    requires HasToken(storage)
    ensures me.MeReply? && me.ok ==> MountResult(storage, me, rs).permissions == me.body
    ensures !(me.MeReply? && me.ok) ==> MountResult(storage, me, rs).permissions == Null
  {
  }

  /** The counts the effect sets show 0 for every section the permissions it set do not grant. */
  lemma MountCountsGated(storage: map<string, string>, me: MeReply, rs: Replies, section: Section)
    requires MountResult(storage, me, rs).counts.Some?
    requires section != Home && !Permitted(MountResult(storage, me, rs).permissions, section)
    ensures CountOf(MountResult(storage, me, rs).counts.value, section) == Num(0)
  {
    UnpermittedCountIsZero(me.body, rs, section);
  }

  /** What the page shows: only a spinner until permissions are truthy, then the sidebar and the main area. */
  datatype Screen = Spinner | Panel(sidebar: seq<Section>, main: Main)

  class Dashboard {
    var activeSection: Section
    /** `null` until the permissions reply is accepted. */
    var permissions: JsValue
    var counts: Counts
    var storage: map<string, string>
    /** The paths passed to `navigate`, in order. */
    var navigations: seq<string>
    /** The URLs requested, in order. */
    var requests: seq<string>

    /** The selected section is always one the sidebar offers. */
    ghost predicate Valid()
      reads this
    {
      activeSection == Home || Permitted(permissions, activeSection)
    }

    constructor (storage0: map<string, string>)
      ensures Valid()
      ensures activeSection == Home && permissions == Null && counts == Zero
      ensures storage == storage0 && navigations == [] && requests == []
    {
      activeSection := Home;
      permissions := Null;
      counts := Zero;
      storage := storage0;
      navigations := [];
      requests := [];
    }

    function Render(): (v: Screen)
      reads this
      ensures v.Spinner? <==> !Truthy(permissions)
      ensures v.Panel? ==> v.sidebar == Offered(permissions)
      ensures v.Panel? ==> v.main == MainContent(activeSection, permissions, counts)
    {
      if Truthy(permissions) then Panel(Offered(permissions), MainContent(activeSection, permissions, counts))
      else Spinner
    }

    /** The mount effect, step by step; its outcome is `MountResult`. */
    method Mount(me: MeReply, rs: Replies)
      requires activeSection == Home && permissions == Null && requests == []
      modifies this`permissions, this`counts, this`navigations, this`requests
      ensures activeSection == Home && Valid()
      ensures var o := MountResult(storage, me, rs);
        && permissions == o.permissions && requests == o.requests
        && navigations == old(navigations) + (if o.redirected then [LoginPath] else [])
        && counts == (if o.counts.Some? then o.counts.value else old(counts))
    {
      if !HasToken(storage) {
        navigations := navigations + [LoginPath];
        return;
      }
      requests := requests + [MeUrl];
      if me.MeThrown? || !me.ok {
        navigations := navigations + [LoginPath];
        return;
      }
      permissions := me.body;
      if Nullish(me.body) {
        navigations := navigations + [LoginPath];
        return;
      }
      assert requests == [MeUrl];
      LoadCounts(rs);
    }

    /**
     * The second half of the effect, once permissions are set: one list
     * request per permitted section, then the counts, or a redirect when a
     * permitted reply fails.
     */
    method LoadCounts(rs: Replies)
      modifies this`counts, this`navigations, this`requests
      ensures requests == old(requests) + CountUrls(permissions)
      ensures var gathered := GatedCounts(permissions, rs);
        && navigations == old(navigations) + (if gathered.None? then [LoginPath] else [])
        && counts == (if gathered.Some? then gathered.value else old(counts))
    {
      requests := requests + CountUrls(permissions);
      var gathered := GatedCounts(permissions, rs);
      if gathered.None? {
        navigations := navigations + [LoginPath];
        return;
      }
      counts := gathered.value;
    }

    /** A sidebar button or an overview card: only sections on offer can be selected. */
    method Select(section: Section)
      requires Valid() && Truthy(permissions)
      requires section in Offered(permissions)
      modifies this`activeSection
      ensures Valid() && activeSection == section
    {
      activeSection := section;
    }

    /** The logout button. */
    method Logout()
      modifies this`storage, this`navigations
      ensures storage == old(storage) - {TokenKey}
      ensures TokenKey !in storage
      ensures navigations == old(navigations) + [LoginPath]
    {
      storage := storage - {TokenKey};
      navigations := navigations + [LoginPath];
    }
  }

  /** Whatever the state, the main area is the overview or the module of a permitted section. */
  lemma ShownModulePermitted(d: Dashboard)
    requires d.Valid()
    ensures MainContent(d.activeSection, d.permissions, d.counts).Module? ==> Permitted(d.permissions, d.activeSection)
  {
  }
}
