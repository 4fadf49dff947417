/**
 * A blog post's card: the image (taken from the backend host when the post
 * has an image path) and a content excerpt cut at 120 characters.
 */
module BlogCard {
  import opened Optional

  const ApiBaseUrl: string := "https://law-firm-backend-e082.onrender.com"
  /** The longest content shown in full. */
  const ExcerptLimit: nat := 120
  const Ellipsis: string := "..."

  datatype Picture = Image(src: string) | NoImagePlaceholder

  /** `content.length > 120 ? content.slice(0, 120) + '...' : content` */
  function Excerpt(content: string): (r: string)
    ensures |content| <= ExcerptLimit ==> r == content
    ensures |content| > ExcerptLimit ==> r == content[..ExcerptLimit] + Ellipsis
  {
    if |content| > ExcerptLimit then content[..ExcerptLimit] + Ellipsis else content
  }

  /** The excerpt is never longer than 123 characters and starts with the content. */
  lemma ExcerptBounds(content: string)
    ensures |Excerpt(content)| <= ExcerptLimit + |Ellipsis|
    ensures |Excerpt(content)| <= |content| + |Ellipsis|
    ensures var m := if |content| < ExcerptLimit then |content| else ExcerptLimit;
      Excerpt(content)[..m] == content[..m]
  {
  }

  /** Cutting an excerpt again changes nothing. */
  lemma ExcerptIdempotent(content: string)
    ensures Excerpt(Excerpt(content)) == Excerpt(content)
  {
    if |content| > ExcerptLimit {
      var e := Excerpt(content);
      assert e[..ExcerptLimit] == content[..ExcerptLimit];
    }
  }

  /** `imageUrl ? <img src={API_BASE_URL + imageUrl}> : "No Image"` for a string (or missing) path. */
  function PictureFor(imageUrl: Option<string>): (r: Picture)
    ensures r.Image? <==> imageUrl.Some? && imageUrl.value != ""
    ensures r.Image? ==> r.src == ApiBaseUrl + imageUrl.value
  {
    if imageUrl.Some? && imageUrl.value != "" then Image(ApiBaseUrl + imageUrl.value)
    else NoImagePlaceholder
  }
}
