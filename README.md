# Gupta Law Offices site: a verified model of its decision logic

The site is a React front end for a law firm with a public home page and
an admin panel. This project models the parts of it that decide something.

- **Case-study carousel.** A four-card window wraps around the list, and a start index moves modulo the list length.
- **Blog card.** Content is cut to an excerpt, and the card picks an image source.
- **Login page.** The form runs its checks in order and picks an endpoint by login type. It maps replies to error messages and writes a token and a profile to browser storage.
- **Sub-admin management page.** It has a creation form and a permission summary per sub-admin. Its handlers fetch, create and delete.
- **Sub-admin dashboard.** A token gate runs on mount. The permissions request decides which sections exist and which counts are fetched.
- **Admin dashboard.** It has eight fixed sections and overview counts. The homepage-visibility settings are updated one field at a time and sent back as JSON.
- **Application shell and navigation bar.** Both normalise the visibility flags, and they gate home sections and links with them. The shell also keeps the disclaimer agreement in storage.

Every network reply is a parameter. A reply's JSON body is a `JsValue`, which
models JavaScript values (`undefined`, `null`, booleans, integers, strings,
arrays, objects with ordered entries). The module `Js` gives these values
JavaScript's truthiness, `||`, `??`, property access and the object spread
`{ ...o, [k]: v }`. The module `Json` gives `JSON.stringify` over these values
and a reader for quoted strings.

Each component's state is a class, and each handler is a method on it.
Browser storage is a `map<string, string>` field. Calls to `navigate` are
appended to a `navigations` log, and requests sent are appended to a log of
URLs or bodies. Pure decisions are functions, and the properties relating
several operations are lemmas.

The storage keys are modelled as the code writes them, and they do not agree.

- Login writes `token`.
- The admin dashboard's gate reads `adminToken`, and its logout removes `token`.
- The sub-admin dashboard's gate reads `subAdminToken`.

The module `Session` runs the pieces together and shows the consequences:

- a successful login still leads to a redirect from the admin dashboard when "adminToken" is absent, and from the sub-admin dashboard when "subAdminToken" is absent;
- logging out of the admin dashboard does not close its gate.

There is no separate route-guard function: the gating lives in the
dashboards' mount effects, and that is what is modelled.

The permission summary has an edge case. A granted key that is exactly
`canManage` strips to the empty name. When it is the only granted key, the
join is empty, so the column reads "No Permissions". `SummaryFallback`
states the exact rule. `SummaryFallbackIffNoneGranted` states the intended
"no permission granted" reading for records without such a key.

## Model

| member | source | states |
|---|---|---|
| HomeCaseStudies.NextIndex | src/components/HomeCaseStudies.jsx:70 | ">" gives an index below n: the next one, or 0 after the last |
| HomeCaseStudies.PrevIndex | src/components/HomeCaseStudies.jsx:71 | "<" gives an index below n: the previous one, or n−1 before the first |
| HomeCaseStudies.PrevAfterNext | src/components/HomeCaseStudies.jsx:70-71 | "<" after ">" restores the index |
| HomeCaseStudies.NextAfterPrev | src/components/HomeCaseStudies.jsx:70-71 | ">" after "<" restores the index |
| HomeCaseStudies.Window | src/components/HomeCaseStudies.jsx:65-68 | the window always has exactly four entries |
| HomeCaseStudies.WindowIsSlice | src/components/HomeCaseStudies.jsx:66 | when four cases remain after the index, the window is the plain slice |
| HomeCaseStudies.NextShiftsWindow | src/components/HomeCaseStudies.jsx:66-70 | after ">", each card is the one that was one place to its right |
| HomeCaseStudies.CardOf | src/components/HomeCaseStudies.jsx:96-98 | a falsy title, category or description becomes 'Untitled Case', 'General Law' or 'No description available.'; truthy ones are kept; all three shown are truthy |
| HomeCaseStudies.FirstSliceInWindow | src/components/HomeCaseStudies.jsx:66 | `cases.slice(index, index + 4)` is a prefix of the wrap-around window, ending at a wrap point when short |
| HomeCaseStudies.PushStaysInWindow | src/components/HomeCaseStudies.jsx:67-68 | each push of `cases.slice(0, 4 − length)` extends the prefix of the window |
| HomeCaseStudies.Carousel.constructor | src/components/HomeCaseStudies.jsx:18-21 | index 0, no cases, loading, no error |
| HomeCaseStudies.Carousel.Load | src/components/HomeCaseStudies.jsx:24-36 | a truthy `success` installs the list; a false one or a thrown fetch sets the error text; loading ends on every path |
| HomeCaseStudies.Carousel.Next | src/components/HomeCaseStudies.jsx:70 | the index becomes `NextIndex`, keeping the index a position in the list |
| HomeCaseStudies.Carousel.Prev | src/components/HomeCaseStudies.jsx:71 | the index becomes `PrevIndex`, keeping the index a position in the list |
| HomeCaseStudies.Carousel.VisibleCases | src/components/HomeCaseStudies.jsx:65-68 | the loop ends, and its result is entry k = `cases[(index + k) mod n]` for k < 4, wrapping and repeating when n < 4 |
| HomeCaseStudies.Carousel.Render | src/components/HomeCaseStudies.jsx:38-100 | the spinner while loading, then the error text, then the empty-list message (so the window is never built for n = 0); a `null` or `undefined` case in the window makes the render throw; otherwise four cards, one per window entry |
| BlogCard.Excerpt | src/components/BlogCard.jsx:27 | content of up to 120 characters is kept; longer content becomes its first 120 characters and "..." |
| BlogCard.ExcerptBounds | src/components/BlogCard.jsx:27 | the excerpt has at most 123 characters and at most 3 more than the content; its first min(120, length) characters are the content's |
| BlogCard.ExcerptIdempotent | src/components/BlogCard.jsx:27 | cutting an excerpt again changes nothing |
| BlogCard.PictureFor | src/components/BlogCard.jsx:3-23 | an image exactly for a non-empty path, with source host + path; otherwise the "No Image" placeholder |
| AdminLogin.ValidEmailIffPattern | src/pages/AdminLogin.jsx:21 | the page's email check accepts exactly the strings `^\S+@\S+\.\S+$` matches |
| AdminLogin.Validate | src/pages/AdminLogin.jsx:16-24 | proceed exactly when both fields are filled and the email matches; the missing-field message exactly when one is empty (checked first); the format message otherwise |
| AdminLogin.Endpoint | src/pages/AdminLogin.jsx:29-32 | the admin endpoint exactly for type "admin", the sub-admin endpoint for every other type |
| AdminLogin.ProfileRoundTrip | src/pages/AdminLogin.jsx:49-52 | the profile stored for string `name` and `role` holds exactly those two and decodes back to them |
| AdminLogin.ProfileTextOfStrings | src/pages/AdminLogin.jsx:51 | the stored profile text is `{"name":…,"role":…}` with both values JSON-quoted |
| AdminLogin.StringifyPair | src/pages/AdminLogin.jsx:51 | `JSON.stringify` of a two-entry string object is its two quoted members in order, comma-separated, in braces |
| AdminLogin.LoginPage.constructor | src/pages/AdminLogin.jsx:5-9 | empty fields, not loading, no error, login type "subadmin" |
| AdminLogin.LoginPage.SetEmail | src/pages/AdminLogin.jsx:126 | the email input sets the email to the typed text |
| AdminLogin.LoginPage.SetPassword | src/pages/AdminLogin.jsx:142 | the password input sets the password to the typed text |
| AdminLogin.LoginPage.SetLoginType | src/pages/AdminLogin.jsx:79-90 | the two type buttons set "subadmin" or "admin" |
| AdminLogin.LoginPage.Submit | src/pages/AdminLogin.jsx:12-38 | the error is cleared first; a failed check shows its message with no request and not loading; a passing one sets loading and sends one request to `Endpoint(loginType)` |
| AdminLogin.LoginPage.Receive | src/pages/AdminLogin.jsx:40-62 | non-ok: the server's `error` or "Incorrect email/password", storage untouched; thrown (or a null body): the network message, storage untouched; ok: "token" and the `{name, role}` profile are stored and "/admin" is scheduled; loading is false on every path |
| AdminLogin.RejectedLoginMessage | src/pages/AdminLogin.jsx:43 | an absent `error` gives the default message, a truthy one is shown as sent, and the message is never empty |
| SubAdminModule.NewFieldValue | src/pages/SubAdminModule.jsx:21-22 | a checkbox stores `checked`, any other input its text |
| SubAdminModule.CheckboxLabel | src/pages/SubAdminModule.jsx:83 | a field starting with "canManage" reads "Manage " + the rest; a field without it is unchanged |
| SubAdminModule.PermissionNamesListGranted | src/pages/SubAdminModule.jsx:221-223 | a name is listed exactly when "canManage" + name is a key with a truthy value |
| SubAdminModule.PermissionNamesEmpty | src/pages/SubAdminModule.jsx:221-223 | nothing is listed exactly when no key starting with "canManage" has a truthy value |
| SubAdminModule.PermissionSummary | src/pages/SubAdminModule.jsx:221-224 | the column is never blank; a record granting nothing, or an entry that is not an object, reads "No Permissions" |
| SubAdminModule.MissingRequired | src/pages/SubAdminModule.jsx:27 | a record lacking the email, password or name key, or holding the empty text in one of them, is blocked; one holding non-empty text in all three passes |
| SubAdminModule.SummaryFallback | src/pages/SubAdminModule.jsx:221-224 | the summary is "No Permissions" when the names are none (or only the empty name), else the names joined by ", " |
| SubAdminModule.SummaryFallbackIffNoneGranted | src/pages/SubAdminModule.jsx:221-224 | for records without a bare "canManage" key: "No Permissions" exactly when no permission is granted, else the join |
| SubAdminModule.SubAdminForm.constructor | src/pages/SubAdminModule.jsx:7-18 | empty name, email and password, the six `canManage*` flags false, no error |
| SubAdminModule.SubAdminForm.HandleChange | src/pages/SubAdminModule.jsx:20-23 | the named field reads the new value, every other field reads as before, and an existing field keeps its place |
| SubAdminModule.SubAdminForm.HandleSubmit | src/pages/SubAdminModule.jsx:25-33 | a missing name, email or password shows "All fields are required." and submits nothing; otherwise the error clears and the form is submitted unchanged |
| SubAdminModule.SubAdminPage.constructor | src/pages/SubAdminModule.jsx:108-110 | an empty list, the form closed, not loading, no requests sent |
| SubAdminModule.SubAdminPage.View | src/pages/SubAdminModule.jsx:199-241 | "Loading..." exactly while loading; the empty text exactly for an empty list; otherwise one row per sub-admin with its permission summary |
| SubAdminModule.SubAdminPage.FinishFetch | src/pages/SubAdminModule.jsx:115-125 | the list is replaced only by a reply with truthy `success` and an array `data`; loading ends on every path |
| SubAdminModule.SubAdminPage.StartFetch | src/pages/SubAdminModule.jsx:114 | a fetch sets loading |
| SubAdminModule.SubAdminPage.OpenForm | src/pages/SubAdminModule.jsx:172 | the add button opens the form |
| SubAdminModule.SubAdminPage.CloseForm | src/pages/SubAdminModule.jsx:183-193 | the close and cancel buttons close the form |
| SubAdminModule.SubAdminPage.HandleCreate | src/pages/SubAdminModule.jsx:132-150 | the body sent is the form plus `createdBy: "admin-id"`; a truthy `success` closes the form and refetches; otherwise the form stays as it was |
| SubAdminModule.SubAdminPage.HandleDelete | src/pages/SubAdminModule.jsx:152-163 | nothing happens unless confirmed; a confirmed delete sends the id and refetches unless the request threw |
| DashboardCounts.Count | src/pages/AdminDashboard.jsx:51-54 | an array or string `data` counts its length; absent or null counts 0; the count is 0 or truthy |
| DashboardCounts.EnquiryCount | src/pages/AdminDashboard.jsx:55 | the list length when `data` is an array, 0 otherwise |
| DashboardCounts.PlaceholderCountsZero | src/pages/SubAdminDashboard.jsx:54-87 | the `{ data: [] }` stand-in counts 0 under both expressions |
| DashboardCounts.Tally | src/pages/AdminDashboard.jsx:39-56 | no counts when any reply was rejected or null; otherwise each count from its own reply |
| SubAdminDashboard.Offered | src/pages/SubAdminDashboard.jsx:128-202 | "dashboard" first; a section is offered exactly when it is "dashboard" or its `canManage*` flag is truthy |
| SubAdminDashboard.PermittedIn | src/pages/SubAdminDashboard.jsx:139-202 | the sections kept are exactly the listed ones whose flag is truthy |
| SubAdminDashboard.OverviewCards | src/pages/SubAdminDashboard.jsx:225-308 | a card exactly for each permitted section, each showing that section's count |
| SubAdminDashboard.CardsIn | src/pages/SubAdminDashboard.jsx:225-308 | every card's section is listed and permitted, with its own count and title; every permitted listed section has a card |
| SubAdminDashboard.CardTargetsOffered | src/pages/SubAdminDashboard.jsx:227-295 | every card leads to a section the sidebar offers |
| SubAdminDashboard.MainContent | src/pages/SubAdminDashboard.jsx:223-317 | the overview exactly on "dashboard", otherwise the single module of the active section |
| SubAdminDashboard.GatedCounts | src/pages/SubAdminDashboard.jsx:50-88 | only permitted sections' replies can fail the effect; a permitted section counts its reply, every other section 0 |
| SubAdminDashboard.CountUrls | src/pages/SubAdminDashboard.jsx:43-77 | each list URL is requested exactly when its section's `canManage*` flag is truthy, and at most the five lists are requested |
| SubAdminDashboard.UrlOfInjective | src/pages/SubAdminDashboard.jsx:51-76 | the five list endpoints are pairwise different |
| SubAdminDashboard.UrlsOfMember | src/pages/SubAdminDashboard.jsx:43-77 | a section's endpoint is requested for a run of sections exactly when the section is in the run |
| SubAdminDashboard.PermittedUrls | src/pages/SubAdminDashboard.jsx:50-77 | the endpoints of the permitted sections, taken in fetch order, hold a section's endpoint exactly when its flag is truthy |
| SubAdminDashboard.PermittedInLength | src/pages/SubAdminDashboard.jsx:50-77 | filtering by permission keeps at most the sections it was given |
| SubAdminDashboard.MountResult | src/pages/SubAdminDashboard.jsx:23-96 | the effect redirects exactly when it sets no counts; it requests nothing exactly when the token is missing, and otherwise the permissions URL first and at most the five lists after it; counts are set only after an ok, non-null permissions reply that is kept as sent, and they are then the gated counts |
| SubAdminDashboard.NoTokenNoRequest | src/pages/SubAdminDashboard.jsx:24-25 | without a token the effect redirects and sends no request |
| SubAdminDashboard.RedirectIffFailure | src/pages/SubAdminDashboard.jsx:24-92 | the effect redirects exactly when the token is missing, the permissions request is rejected or not ok, its body is null, or a permitted list reply fails; the counts are set exactly when it does not redirect |
| SubAdminDashboard.PermissionsAsSent | src/pages/SubAdminDashboard.jsx:30-40 | an ok permissions reply is kept as sent; a rejected or refused one leaves permissions null |
| SubAdminDashboard.MountCountsGated | src/pages/SubAdminDashboard.jsx:50-88 | counts set by the effect are 0 for every section the kept permissions do not grant |
| SubAdminDashboard.Dashboard.constructor | src/pages/SubAdminDashboard.jsx:12-21 | "dashboard", null permissions, zero counts, no requests |
| SubAdminDashboard.Dashboard.Render | src/pages/SubAdminDashboard.jsx:98-320 | only a spinner while permissions are falsy; then the offered sidebar and the main area |
| SubAdminDashboard.Dashboard.Mount | src/pages/SubAdminDashboard.jsx:23-96 | permissions, requests, redirect and counts are exactly those `MountResult` gives for the storage and the replies; the active section stays "dashboard" |
| SubAdminDashboard.Dashboard.LoadCounts | src/pages/SubAdminDashboard.jsx:42-88 | one request per permitted list; a failing permitted reply redirects and keeps the counts, otherwise the gated counts are set |
| SubAdminDashboard.Dashboard.Select | src/pages/SubAdminDashboard.jsx:134-295 | only an offered section can be selected, so the active section stays in {dashboard} ∪ permitted |
| SubAdminDashboard.ShownModulePermitted | src/pages/SubAdminDashboard.jsx:313-317 | in every valid state, a module shown in the main area belongs to a permitted section |
| SubAdminDashboard.Dashboard.Logout | src/pages/SubAdminDashboard.jsx:207-210 | "subAdminToken" is removed and the login page is navigated to |
| AdminDashboard.SectionLabel | src/pages/AdminDashboard.jsx:111-115 | "posts" reads "Blogs & Articles", "subadmins" reads "Sub Admins", any other section has its first letter upper-cased |
| AdminDashboard.Labels | src/pages/AdminDashboard.jsx:101-117 | one label per section, in order |
| AdminDashboard.LeadingLabels | src/pages/AdminDashboard.jsx:111-115 | "dashboard", "enquiries" and "lawyers" read Dashboard, Enquiries, Lawyers |
| AdminDashboard.TrailingLabels | src/pages/AdminDashboard.jsx:111-115 | "services", "news" and "settings" read Services, News, Settings |
| AdminDashboard.SidebarLabels | src/pages/AdminDashboard.jsx:101-117 | the eight buttons read Dashboard, Enquiries, Lawyers, Services, Blogs & Articles, News, Sub Admins, Settings |
| AdminDashboard.UpdateOthersUnchanged | src/pages/AdminDashboard.jsx:68-70 | on an object, updating one field leaves every other field reading as before |
| AdminDashboard.Updated | src/pages/AdminDashboard.jsx:70 | the spread result is an object whose named field is the new value, every other field reads as the old record's, and the key order is kept (the new key goes last) |
| AdminDashboard.UpdateIdempotent | src/pages/AdminDashboard.jsx:70 | applying the same update twice gives the same settings as once |
| AdminDashboard.SpreadEntries | src/pages/AdminDashboard.jsx:70 | spreading an object copies its entries; `null`, booleans and numbers copy nothing |
| AdminDashboard.OverviewCards | src/pages/AdminDashboard.jsx:141-157 | five cards for news, lawyers, posts, services and enquiries in that order, each titled with its section capitalised and showing that section's own count |
| AdminDashboard.CardTitles | src/pages/AdminDashboard.jsx:143-147 | the card titles News, Lawyers, Posts, Services and Enquiries are the capitalised section keys |
| AdminDashboard.CardsSelectable | src/pages/AdminDashboard.jsx:141-152 | every card selects one of the eight sidebar sections |
| AdminDashboard.Toggles | src/pages/AdminDashboard.jsx:175-190 | four checkboxes for showTeam, showNews, showServices and showBlog in that order, each checked by its own field of the settings |
| AdminDashboard.MainContent | src/pages/AdminDashboard.jsx:138-193 | the overview, with the five count cards, exactly on "dashboard"; the settings panel with the four toggles exactly on "settings"; the matching module exactly for the six module sections |
| AdminDashboard.EverySectionShowsContent | src/pages/AdminDashboard.jsx:101-193 | every section the sidebar offers fills the main area |
| AdminDashboard.Heading | src/pages/AdminDashboard.jsx:133-135 | "Site Settings" on the settings section, "Admin Dashboard" elsewhere |
| AdminDashboard.Dashboard.constructor | src/pages/AdminDashboard.jsx:13-29 | "dashboard", zero counts, all four visibility settings true |
| AdminDashboard.Dashboard.Mount | src/pages/AdminDashboard.jsx:31-65 | a missing "adminToken" adds a redirect but the six requests are still sent; any failure leaves counts and settings; otherwise counts are set and a truthy settings body replaces the settings whole |
| AdminDashboard.Dashboard.Content | src/pages/AdminDashboard.jsx:138-193 | in a valid state the main area is never empty; it is the overview with the current counts' cards exactly on "dashboard" |
| AdminDashboard.Dashboard.Select | src/pages/AdminDashboard.jsx:101-150 | the active section stays one of the eight |
| AdminDashboard.Dashboard.UpdateSetting | src/pages/AdminDashboard.jsx:68-85 | the settings become `Updated(old, field, value)` and the PUT body is exactly their JSON text |
| AdminDashboard.Dashboard.Logout | src/pages/AdminDashboard.jsx:122-125 | "token" is removed and the login page is navigated to |
| SiteSettings.Flag | src/App.jsx:51-54 | an absent or null flag becomes true; anything else is kept, including an explicit false |
| SiteSettings.Normalise | src/App.jsx:50-55 | each of the four flags is the reply's own property of that name, or true when that property is missing or null |
| SiteSettings.AfterFetch | src/App.jsx:45-58 | only an ok reply changes the settings; a rejected or non-ok fetch keeps the current ones |
| App.LayoutFixed | src/App.jsx:89-98 | hero, about, stats and testimonials always show, the hero first |
| App.LayoutOptional | src/App.jsx:89-98 | services, lawyer team, case studies and consultation each show exactly when their switch is on |
| App.HomeSections | src/App.jsx:89-98 | hero, about, stats and testimonials always; services, team and case studies exactly when `showServices`, `showTeam` and `showNews` are truthy; the consultation form exactly after agreement |
| App.Shell.Home | src/App.jsx:89-98 | the consultation form shows exactly after agreement, the case studies exactly when `showNews` is truthy |
| App.DefaultHome | src/App.jsx:89-98 | with the default settings and no agreement, seven sections show |
| App.Shell.constructor | src/App.jsx:31-40 | not agreed, no modal, default settings |
| App.Shell.Mount | src/App.jsx:63-65 | stored "true" sets `hasAgreed`, anything else `showDisclaimer`; exactly one of the two |
| App.Shell.SettingsLoaded | src/App.jsx:42-61 | the settings become `AfterFetch` of the reply |
| App.Shell.HandleAgree | src/App.jsx:68-72 | "true" is stored, `hasAgreed` set and the modal cleared |
| App.AgreeThenReload | src/App.jsx:63-72 | after agreeing, a reload from the storage left behind never shows the modal and shows the consultation form |
| Navbar.Links | src/components/Navbar.jsx:109-124 | Home first and About Us last, always; Services, Lawyers, Blog and News/Articles exactly when their flags are truthy |
| Navbar.DefaultLinks | src/components/Navbar.jsx:109-124 | with the default settings all six links show |
| Navbar.Bar.constructor | src/components/Navbar.jsx:8-15 | menu closed, default settings |
| Navbar.Gate | src/components/Navbar.jsx:111-122 | a `{flag && <Link/>}` child renders its link exactly when the flag is true, and at most that one |
| Navbar.AnchorsOf | src/components/Navbar.jsx:110-123 | one anchor per page, in order, with the page's path and text |
| Navbar.MobileMatchesDesktop | src/components/Navbar.jsx:161-174 | the mobile menu's six gated links are exactly the desktop bar's links: same pages, order, paths and texts |
| Navbar.Bar.MobileLinks | src/components/Navbar.jsx:150-178 | the open menu shows the desktop links' anchors in the same order; a closed menu shows none |
| Navbar.Bar.SettingsLoaded | src/components/Navbar.jsx:18-37 | the settings become `AfterFetch` of the reply |
| Navbar.Bar.Toggle | src/components/Navbar.jsx:129 | the button flips `open` |
| Navbar.Bar.Close | src/components/Navbar.jsx:154 | the backdrop closes the menu |
| Navbar.Bar.FollowMobileLink | src/components/Navbar.jsx:161-174 | a mobile link closes the menu and goes to its path, which is one of the desktop links' paths |
| Session.SuccessfulLogin | src/pages/AdminLogin.jsx:12-62 | a login that passes both checks and gets an ok reply sends one request to the chosen endpoint, stores "token" and the profile, and schedules "/admin" |
| Session.LoginThenAdminDashboard | src/pages/AdminDashboard.jsx:32-33 | a successful login stores "token" (src/pages/AdminLogin.jsx line 48), yet the admin dashboard opened next still redirects when "adminToken" was absent |
| Session.LoginThenSubAdminDashboard | src/pages/SubAdminDashboard.jsx:24-25 | a successful login stores "token" (src/pages/AdminLogin.jsx line 48), yet the sub-admin dashboard redirects before any request and shows only a spinner when "subAdminToken" was absent |
| Session.LogoutThenReturn | src/pages/AdminDashboard.jsx:122-123 | logout removes "token" only, so a set "adminToken" survives and the next visit passes the gate at lines 32-33 without a redirect |
| Js.PutIdempotent | src/pages/AdminDashboard.jsx:70 | a spread update repeated with the same value changes nothing |
| Js.LookupAbsent | src/pages/SubAdminModule.jsx:27 | a property the object does not have reads as `undefined` |
| Js.KeysPut | src/pages/SubAdminModule.jsx:22 | a spread update keeps the key order, appending a new key at the end |
| Json.QuoteRoundTrip | src/pages/AdminLogin.jsx:51 | a JSON-quoted string reads back as the same string, leaving the rest of the text |

## Left out

- Network requests, `Promise.all` and the order in which replies arrive. Each reply is a method parameter. Each mount effect is one method (the sub-admin dashboard's two awaits included), so the render between two awaits is not modelled.
- `setTimeout`, `window.confirm` and `console.error`. The delay before the post-login navigation is dropped, and the navigation is logged at once. The confirmation is a boolean parameter.
- The browser's own form validation. The login inputs carry `required`, and the email input has `type="email"` (src/pages/AdminLogin.jsx lines 120-145). The `<form>` at lines 71-72 has no `noValidate`, so the browser checks the fields before `handleSubmit` runs. The model covers `handleSubmit` only, and its own checks are modelled as written.
- The request headers, including the `Authorization: Bearer` token, and the server side of every endpoint.
- Route tables and the pages they mount. `navigate(path)` only records the path.
- The static "about us" page.
- The scroll-progress bar in the navigation bar: floating-point division over DOM geometry and event listeners.
- Locale date formatting on the blog card, which is a foreign `toLocaleDateString` call.
- JSX markup and styling, icons, and the static texts of cards and buttons, beyond the titles and labels listed above.
- Numbers are integers: fractions, NaN and the number formatting of `JSON.stringify` and `String()` are not modelled.
- String lengths count Unicode scalar values, not UTF-16 code units. `Text.IsWhitespace` is the `\s` class of JavaScript regular expressions, listed by code point.
- JavaScript objects here keep plain insertion order. The rule that integer-like keys come first is not modelled.
- HomeCaseStudies.Carousel.Load: a reply whose `data` is not an array is not modelled. A reply with a `null` body, whose `success` read throws, is folded into `Thrown`.
- SubAdminModule.PermissionSummary: a `null` or `undefined` list entry is summarised as "No Permissions", whereas the page throws on it already at `s.id`. Other non-object entries read "No Permissions" in the page too, since none of their keys starts with "canManage".
- AdminDashboard.SectionLabel: capitalising upper-cases ASCII letters only, and keeps the length. JavaScript's `toUpperCase` maps every letter and can lengthen a string ("ß" becomes "SS"). The eight sections the sidebar uses are lower-case ASCII, where the two agree.
- DashboardCounts.Count: an object `data` yields its `length` property as `||` leaves it. Only "0 or truthy" is stated about it.
- AdminDashboard.SpreadEntries: arrays and strings spread their elements under decimal index keys. Only the object and primitive cases are stated.
- Navbar.Bar.FollowMobileLink: the route change itself is not modelled, only the path it returns.
- HomeCaseStudies.CardOf: a `null` or `undefined` entry would get the three fallback texts, whereas the page throws at `c.title`; `Carousel.Render` never applies it to such an entry and yields `Crashed` instead.
- AdminLogin.LoginPage.SetEmail and AdminLogin.LoginPage.SetPassword do not require the page to be idle, although the inputs are disabled while loading.
