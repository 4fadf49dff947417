/**
 * The admin dashboard: a fixed eight-section sidebar, overview counts and
 * the homepage-visibility settings fetched on mount, single-field settings
 * updates sent back as a PUT, and a logout that clears a storage key.
 */
module AdminDashboard {
  import opened Optional
  import opened Js
  import Json
  import Text
  import opened DashboardCounts

  const TokenKey: string := "adminToken"
  /** The key logout removes; it is not the key the mount effect reads. */
  const LogoutKey: string := "token"
  const LoginPath: string := "/admin/login"
  const SettingsUrl: string := "https://api.guptalawoffices.in/api/settings"
  const Home: string := "dashboard"

  /** The sidebar, in order. */
  const Sections: seq<string> := ["dashboard", "enquiries", "lawyers", "services", "posts", "news", "subadmins", "settings"]

  /** A sidebar button's text: two fixed labels, otherwise the section with its first letter upper-cased. */
  function SectionLabel(section: string): (r: string)
    ensures section == "posts" ==> r == "Blogs & Articles"
    ensures section == "subadmins" ==> r == "Sub Admins"
    ensures section != "posts" && section != "subadmins" ==> |r| == |section|
    ensures section != "posts" && section != "subadmins" && section != "" ==>
      r[0] == Text.UpperAscii(section[0]) && r[1..] == section[1..]
  {
    if section == "posts" then "Blogs & Articles"
    else if section == "subadmins" then "Sub Admins"
    else Text.Capitalise(section)
  }

  /** The button texts of a run of sections, in order. */
  function Labels(sections: seq<string>): (r: seq<string>)
    ensures |r| == |sections|
    ensures forall i :: 0 <= i < |sections| ==> r[i] == SectionLabel(sections[i])
  {
    if sections == [] then [] else [SectionLabel(sections[0])] + Labels(sections[1..])
  }

  /** The capitalised labels of the first three sections. */
  lemma LeadingLabels()
    ensures SectionLabel("dashboard") == "Dashboard"
    ensures SectionLabel("enquiries") == "Enquiries"
    ensures SectionLabel("lawyers") == "Lawyers"
  {
    assert SectionLabel("dashboard") == Text.Capitalise("dashboard");
    assert SectionLabel("enquiries") == Text.Capitalise("enquiries");
    assert SectionLabel("lawyers") == Text.Capitalise("lawyers");
  }

  /** The capitalised labels of the other three sections without a fixed label. */
  lemma TrailingLabels()
    ensures SectionLabel("services") == "Services"
    ensures SectionLabel("news") == "News"
    ensures SectionLabel("settings") == "Settings"
  {
    assert SectionLabel("services") == Text.Capitalise("services");
    assert SectionLabel("news") == Text.Capitalise("news");
    assert SectionLabel("settings") == Text.Capitalise("settings");
  }

  /** The eight buttons read, in order. */
  lemma SidebarLabels()
    ensures Labels(Sections) ==
      ["Dashboard", "Enquiries", "Lawyers", "Services", "Blogs & Articles", "News", "Sub Admins", "Settings"]
  {
    LeadingLabels();
    TrailingLabels();
    var r := Labels(Sections);
    assert r[0] == SectionLabel("dashboard") && r[1] == SectionLabel("enquiries") && r[2] == SectionLabel("lawyers");
    assert r[3] == SectionLabel("services") && r[4] == SectionLabel("posts") && r[5] == SectionLabel("news");
    assert r[6] == SectionLabel("subadmins") && r[7] == SectionLabel("settings");
  }

  /** The state's initial settings: all four flags on, in declaration order. */
  const InitialSettings: JsValue :=
    Obj([("showNews", Bool(true)), ("showTeam", Bool(true)), ("showServices", Bool(true)), ("showBlog", Bool(true))])

  /**
   * The entries `{ ...v }` copies: an object's own entries, an array's or a
   * string's elements under their decimal indices, nothing for the rest.
   */
  function SpreadEntries(v: JsValue): (r: seq<(string, JsValue)>)
    ensures v.Obj? ==> r == v.entries
    ensures !(v.Obj? || v.Arr? || v.Str?) ==> r == []
  {
    match v
    case Obj(entries) => entries
    case Arr(items) => seq(|items|, i requires 0 <= i < |items| => (NatToDecimal(i), items[i]))
    case Str(s) => seq(|s|, i requires 0 <= i < |s| => (NatToDecimal(i), Str([s[i]])))
    case _ => []
  }

  /** `{ ...settings, [field]: value }` */
  function Updated(settings: JsValue, field: string, value: JsValue): (r: JsValue)
    ensures r.Obj?
    ensures Get(r, field) == value
    ensures forall other :: other != field ==> Get(r, other) == Lookup(SpreadEntries(settings), other)
    ensures settings.Obj? && field in Keys(settings.entries) ==> Keys(r.entries) == Keys(settings.entries)
    ensures settings.Obj? && field !in Keys(settings.entries) ==> Keys(r.entries) == Keys(settings.entries) + [field]
  {
    var entries := SpreadEntries(settings);
    LookupPutSame(entries, field, value);
    forall other | other != field
      ensures Lookup(Put(entries, field, value), other) == Lookup(entries, other)
    {
      LookupPutOther(entries, field, value, other);
    }
    KeysPut(entries, field, value);
    Obj(Put(entries, field, value))
  }

  /** Setting a field to the value it was just set to changes nothing. */
  lemma UpdateIdempotent(settings: JsValue, field: string, value: JsValue)
    ensures Updated(Updated(settings, field, value), field, value) == Updated(settings, field, value)
  {
    PutIdempotent(SpreadEntries(settings), field, value);
  }

  /** On an object, an update touches the named field only: every other field reads as before. */
  lemma UpdateOthersUnchanged(settings: JsValue, field: string, value: JsValue, other: string)
    requires settings.Obj? && other != field
    ensures Get(Updated(settings, field, value), other) == Get(settings, other)
  {
  }

  /** The card titles are the capitalised section names. */
  lemma CardTitles()
    ensures Text.Capitalise("news") == "News" && Text.Capitalise("lawyers") == "Lawyers"
    ensures Text.Capitalise("posts") == "Posts" && Text.Capitalise("services") == "Services"
    ensures Text.Capitalise("enquiries") == "Enquiries"
  {
  }

  /** An overview card: title, count, and the section a click selects. */
  datatype Card = Card(title: string, value: JsValue, key: string)

  /** The overview cards' sections, in grid order. */
  const CardKeys: seq<string> := ["news", "lawyers", "posts", "services", "enquiries"]

  /** The count kept for a card's section. */
  function CountFor(counts: Counts, key: string): JsValue {
    if key == "news" then counts.news
    else if key == "lawyers" then counts.lawyers
    else if key == "posts" then counts.posts
    else if key == "services" then counts.services
    else counts.enquiries
  }

  /**
   * The overview grid: one card per section of `CardKeys`, in that order,
   * each titled with its section capitalised, showing that section's own
   * count.
   */
  function OverviewCards(counts: Counts): (r: seq<Card>)
    ensures |r| == |CardKeys|
    ensures forall i :: 0 <= i < |r| ==> r[i].key == CardKeys[i]
    ensures forall i :: 0 <= i < |r| ==> r[i].value == CountFor(counts, r[i].key)
    ensures forall i :: 0 <= i < |r| ==> r[i].title == Text.Capitalise(r[i].key)
  {
    CardTitles();
    [Card("News", counts.news, "news"), Card("Lawyers", counts.lawyers, "lawyers"),
     Card("Posts", counts.posts, "posts"), Card("Services", counts.services, "services"),
     Card("Enquiries", counts.enquiries, "enquiries")]
  }

  /** A settings checkbox: its field, its caption, and whether it is checked (`settings[field]`). */
  datatype Toggle = Toggle(field: string, caption: string, checked: JsValue)

  /** The flags the settings panel shows, in panel order. */
  const ToggleFields: seq<string> := ["showTeam", "showNews", "showServices", "showBlog"]

  /** The settings panel's checkboxes: one per flag of `ToggleFields`, in that order, each checked by its own flag. */
  function Toggles(settings: JsValue): (r: seq<Toggle>)
    ensures |r| == |ToggleFields|
    ensures forall i :: 0 <= i < |r| ==> r[i].field == ToggleFields[i]
    ensures forall i :: 0 <= i < |r| ==> r[i].checked == Get(settings, r[i].field)
  {
    [Toggle("showTeam", "Show Team Section", Get(settings, "showTeam")),
     Toggle("showNews", "Show News Section", Get(settings, "showNews")),
     Toggle("showServices", "Show Services Section", Get(settings, "showServices")),
     Toggle("showBlog", "Show Blog Section", Get(settings, "showBlog"))]
  }

  /** The main area: overview, one module, the settings panel, or nothing for a section no button sets. */
  datatype Main = Overview(cards: seq<Card>) | Module(section: string) | SettingsPanel(toggles: seq<Toggle>) | Blank

  const ModuleSections: seq<string> := ["lawyers", "enquiries", "posts", "services", "news", "subadmins"]

  function MainContent(activeSection: string, counts: Counts, settings: JsValue): (m: Main)
    ensures m.Overview? <==> activeSection == Home
    ensures m.Overview? ==> m.cards == OverviewCards(counts)
    ensures m.SettingsPanel? <==> activeSection == "settings"
    ensures m.SettingsPanel? ==> m.toggles == Toggles(settings)
    ensures m.Module? <==> activeSection in ModuleSections
    ensures m.Module? ==> m.section == activeSection
  {
    if activeSection == Home then Overview(OverviewCards(counts))
    else if activeSection == "settings" then SettingsPanel(Toggles(settings))
    else if activeSection in ModuleSections then Module(activeSection)
    else Blank
  }

  /** The page heading. */
  function Heading(activeSection: string): (r: string)
    ensures activeSection == "settings" ==> r == "Site Settings"
    ensures activeSection != "settings" ==> r == "Admin Dashboard"
  {
    if activeSection == "settings" then "Site Settings" else "Admin Dashboard"
  }

  /** Every section the sidebar offers shows something in the main area. */
  lemma EverySectionShowsContent(section: string, counts: Counts, settings: JsValue)
    requires section in Sections
    ensures !MainContent(section, counts, settings).Blank?
  {
  }

  class Dashboard {
    var activeSection: string
    var counts: Counts
    var settings: JsValue
    var storage: map<string, string>
    /** The paths passed to `navigate`, in order. */
    var navigations: seq<string>
    /** The URLs requested on mount, in order. */
    var requests: seq<string>
    /** The JSON bodies of the settings PUT requests, in order. */
    var putBodies: seq<string>

    /** The selected section is always one of the sidebar's eight. */
    ghost predicate Valid()
      reads this
    {
      activeSection in Sections
    }

    constructor (storage0: map<string, string>)
      ensures Valid()
      ensures activeSection == Home && counts == Zero && settings == InitialSettings
      ensures storage == storage0 && navigations == [] && requests == [] && putBodies == []
    {
      activeSection := Home;
      counts := Zero;
      settings := InitialSettings;
      storage := storage0;
      navigations := [];
      requests := [];
      putBodies := [];
    }

    /**
     * The mount effect. A missing token only adds a redirect: the requests
     * are still sent. A rejected request or a `null` list body leaves counts
     * and settings as they were; otherwise the counts are set, and a truthy
     * settings body replaces the settings whole.
     */
    method Mount(rs: Replies, settingsReply: Fetched)
      requires requests == []
      modifies this`counts, this`settings, this`navigations, this`requests
      ensures !(TokenKey in storage && storage[TokenKey] != "") ==> navigations == old(navigations) + [LoginPath]
      ensures TokenKey in storage && storage[TokenKey] != "" ==> navigations == old(navigations)
      ensures requests == [NewsUrl, LawyersUrl, PostsUrl, ServicesUrl, EnquiriesUrl, SettingsUrl]
      ensures Tally(rs).None? || settingsReply.Thrown? ==> counts == old(counts) && settings == old(settings)
      ensures Tally(rs).Some? && settingsReply.Parsed? ==> counts == Tally(rs).value
      ensures Tally(rs).Some? && settingsReply.Parsed? && Truthy(settingsReply.body) ==> settings == settingsReply.body
      ensures Tally(rs).Some? && settingsReply.Parsed? && !Truthy(settingsReply.body) ==> settings == old(settings)
    {
      if !(TokenKey in storage && storage[TokenKey] != "") {
        navigations := navigations + [LoginPath];
      }
      requests := requests + [NewsUrl, LawyersUrl, PostsUrl, ServicesUrl, EnquiriesUrl, SettingsUrl];
      var tally := Tally(rs);
      if tally.None? || settingsReply.Thrown? {
        return;
      }
      counts := tally.value;
      if Truthy(settingsReply.body) {
        settings := settingsReply.body;
      }
    }

    /** The main area in the current state: never empty while the state is valid. */
    function Content(): (m: Main)
      reads this
      requires Valid()
      ensures !m.Blank?
      ensures m.Overview? <==> activeSection == Home
      ensures m.Overview? ==> m.cards == OverviewCards(counts)
    {
      EverySectionShowsContent(activeSection, counts, settings);
      MainContent(activeSection, counts, settings)
    }

    /** A sidebar button or an overview card. */
    method Select(section: string)
      requires section in Sections
      modifies this`activeSection
      ensures Valid() && activeSection == section
    {
      activeSection := section;
    }

    /**
     * `updateSetting`: the new record is kept in state and sent, as JSON, as
     * the PUT body; the PUT's outcome changes nothing.
     */
    method UpdateSetting(field: string, value: JsValue)
      modifies this`settings, this`putBodies
      ensures settings == Updated(old(settings), field, value)
      ensures Json.Stringify(settings).Some?
      ensures putBodies == old(putBodies) + [Json.Stringify(settings).value]
    {
      settings := Updated(settings, field, value);
      putBodies := putBodies + [Json.Stringify(settings).value];
    }

    /** The logout button: removes "token", which is not the key the mount effect checks. */
    method Logout()
      modifies this`storage, this`navigations
      ensures storage == old(storage) - {LogoutKey}
      ensures navigations == old(navigations) + [LoginPath]
    {
      storage := storage - {LogoutKey};
      navigations := navigations + [LoginPath];
    }
  }

  /** Every overview card leads to a section the sidebar offers. */
  lemma CardsSelectable(counts: Counts)
    ensures forall card :: card in OverviewCards(counts) ==> card.key in Sections
  {
  }
}
