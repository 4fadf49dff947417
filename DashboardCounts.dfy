/**
 * The overview counts both dashboards derive from their list endpoints:
 * `res.data?.length || 0` for news, lawyers, posts and services, and
 * `Array.isArray(res.data) ? res.data.length : 0` for enquiries. The five
 * replies arrive together (`Promise.all`); one rejected request, or one
 * reply whose parsed body is `null` (reading `.data` of it throws), sends
 * the whole effect to its `catch`.
 */
module DashboardCounts {
  import opened Optional
  import opened Js

  const NewsUrl: string := "https://api.guptalawoffices.in/api/news/"
  const LawyersUrl: string := "https://api.guptalawoffices.in/api/lawyers"
  const PostsUrl: string := "https://api.guptalawoffices.in/api/posts/"
  const ServicesUrl: string := "https://api.guptalawoffices.in/api/services/"
  const EnquiriesUrl: string := "https://api.guptalawoffices.in/api/admin/enquiries?limit=1000"

  /** The `counts` state record. */
  datatype Counts = Counts(news: JsValue, lawyers: JsValue, posts: JsValue, services: JsValue, enquiries: JsValue)

  const Zero: Counts := Counts(Num(0), Num(0), Num(0), Num(0), Num(0))

  /** One list request: it was rejected (network failure or a body that is not JSON), or its parsed body. */
  datatype Fetched = Thrown | Parsed(body: JsValue)

  /** The five list replies, in the order the effect requests them. */
  datatype Replies = Replies(news: Fetched, lawyers: Fetched, posts: Fetched, services: Fetched, enquiries: Fetched)

  /** The reply stands in for a list the sub-admin may not manage: `{ data: [] }`. */
  const Placeholder: JsValue := Obj([("data", Arr([]))])

  /** Using this reply in the count expressions throws. */
  predicate Throws(f: Fetched) {
    f.Thrown? || Nullish(f.body)
  }

  /** `v?.length`: arrays and strings have a length, an object whatever its `length` property holds. */
  function LengthOf(v: JsValue): JsValue {
    match v
    case Arr(items) => Num(|items|)
    case Str(s) => Num(|s|)
    case Obj(_) => Get(v, "length")
    case _ => Undefined
  }

  /** `body.data?.length || 0` */
  function Count(body: JsValue): (r: JsValue)
    ensures Get(body, "data").Arr? ==> r == Num(|Get(body, "data").items|)
    ensures Get(body, "data").Str? ==> r == Num(|Get(body, "data").s|)
    ensures !Get(body, "data").Obj? ==> r.Num? && r.n >= 0
    ensures Nullish(Get(body, "data")) ==> r == Num(0)
    ensures r == Num(0) || Truthy(r)
  {
    Or(LengthOf(Get(body, "data")), Num(0))
  }

  /** `Array.isArray(body.data) ? body.data.length : 0` */
  function EnquiryCount(body: JsValue): (r: nat)
    ensures Get(body, "data").Arr? ==> r == |Get(body, "data").items|
    ensures !Get(body, "data").Arr? ==> r == 0
  {
    var data := Get(body, "data");
    if data.Arr? then |data.items| else 0
  }

  /** The placeholder reply counts as zero under both count expressions. */
  lemma PlaceholderCountsZero()
    ensures Count(Placeholder) == Num(0)
    ensures EnquiryCount(Placeholder) == 0
  {
    assert Get(Placeholder, "data") == Arr([]);
  }

  /** `setCounts(...)` after `Promise.all`: no counts when any reply throws. */
  function Tally(rs: Replies): (r: Option<Counts>)
    ensures r.None? <==>
      Throws(rs.news) || Throws(rs.lawyers) || Throws(rs.posts) || Throws(rs.services) || Throws(rs.enquiries)
    ensures r.Some? ==> r.value.news == Count(rs.news.body) && r.value.lawyers == Count(rs.lawyers.body)
    ensures r.Some? ==> r.value.posts == Count(rs.posts.body) && r.value.services == Count(rs.services.body)
    ensures r.Some? ==> r.value.enquiries == Num(EnquiryCount(rs.enquiries.body))
  {
    if Throws(rs.news) || Throws(rs.lawyers) || Throws(rs.posts) || Throws(rs.services) || Throws(rs.enquiries) then None
    else Some(Counts(Count(rs.news.body), Count(rs.lawyers.body), Count(rs.posts.body),
                     Count(rs.services.body), Num(EnquiryCount(rs.enquiries.body))))
  }
}
