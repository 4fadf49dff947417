/**
 * The homepage-visibility flags as the public site reads them. The app shell
 * and the navigation bar each fetch the settings on mount and keep their
 * own copy; both normalise the reply the same way: a flag that is missing
 * or `null` counts as on, anything else is kept as sent.
 */
module SiteSettings {
  import opened Js

  const SettingsUrl: string := "https://api.guptalawoffices.in/api/settings"

  /** The four flags, each kept as the value the reply carried. */
  datatype Flags = Flags(showTeam: JsValue, showNews: JsValue, showServices: JsValue, showBlog: JsValue)

  /** The state both components start from: every flag on. */
  const Defaults: Flags := Flags(Bool(true), Bool(true), Bool(true), Bool(true))

  /** `data?.name ?? true` */
  function Flag(data: JsValue, name: string): (r: JsValue)
    ensures Nullish(Get(data, name)) ==> r == Bool(true)
    ensures !Nullish(Get(data, name)) ==> r == Get(data, name)
    ensures !Nullish(r)
  {
    Coalesce(Get(data, name), Bool(true))
  }

  /**
   * The record `setSettings` receives from a parsed reply: each flag is the
   * reply's own property of that name, or `true` when that one is missing or `null`.
   */
  function Normalise(data: JsValue): (r: Flags)
    ensures Nullish(Get(data, "showTeam")) ==> r.showTeam == Bool(true)
    ensures !Nullish(Get(data, "showTeam")) ==> r.showTeam == Get(data, "showTeam")
    ensures Nullish(Get(data, "showNews")) ==> r.showNews == Bool(true)
    ensures !Nullish(Get(data, "showNews")) ==> r.showNews == Get(data, "showNews")
    ensures Nullish(Get(data, "showServices")) ==> r.showServices == Bool(true)
    ensures !Nullish(Get(data, "showServices")) ==> r.showServices == Get(data, "showServices")
    ensures Nullish(Get(data, "showBlog")) ==> r.showBlog == Bool(true)
    ensures !Nullish(Get(data, "showBlog")) ==> r.showBlog == Get(data, "showBlog")
  {
    Flags(Flag(data, "showTeam"), Flag(data, "showNews"), Flag(data, "showServices"), Flag(data, "showBlog"))
  }

  /** An explicit `false` turns its section off; an absent or `null` flag leaves it on. */
  lemma FalseKeptMissingOn(data: JsValue, name: string)
    ensures Get(data, name) == Bool(false) ==> !Truthy(Flag(data, name))
    ensures Nullish(Get(data, name)) ==> Truthy(Flag(data, name))
  {
  }

  /** A `null` body, or one that is not an object, normalises to the defaults. */
  lemma NonObjectGivesDefaults(data: JsValue)
    requires !data.Obj?
    ensures Normalise(data) == Defaults
  {
  }

  /** The settings request: it failed (rejected, or a body that is not JSON), or a status and the parsed body. */
  datatype SettingsReply = Failed | Reply(ok: bool, body: JsValue)

  /** `fetchSettings`: a non-ok status throws before the body is read, so only an ok reply is used. */
  function AfterFetch(current: Flags, reply: SettingsReply): (r: Flags)
    ensures reply.Reply? && reply.ok ==> r == Normalise(reply.body)
    ensures !(reply.Reply? && reply.ok) ==> r == current
  {
    if reply.Reply? && reply.ok then Normalise(reply.body) else current
  }
}
