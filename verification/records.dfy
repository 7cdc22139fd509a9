/**
 * The two document collections of the backend: shortened links (`Url`) and
 * click events (`Click`). Times are integers, milliseconds since the epoch.
 */
module Records {
  import opened Wrappers
  import opened Js

  /** `3 * 24 * 60 * 60 * 1000`: the default lifetime of a link. */
  const ThreeDaysMs: int := 259200000

  /** One shortened link. `shortId` is unique across the collection. */
  datatype Url = Url(
    originalUrl: string,
    shortId: string,
    userId: Option<string>,
    createdAt: int,
    expiresAt: Option<int>,
    clicks: nat)

  /** One recorded visit of a short link. */
  datatype Click = Click(
    shortId: string,
    timestamp: int,
    ip: Option<string>,
    browser: Option<string>,
    os: Option<string>,
    deviceType: string)

  /** What the schema's `required` validators accept: a required string is present and not empty. */
  predicate UrlValid(u: Url) {
    u.originalUrl != "" && u.shortId != ""
  }

  predicate ClickValid(c: Click) {
    c.shortId != "" && c.deviceType != ""
  }

  /**
   * `Url.create({ originalUrl, shortId, userId, expiresAt })`: validation, then
   * the schema defaults (`clicks` 0, `createdAt` now). `None` is a validation error.
   */
  function CreateUrl(originalUrl: Option<string>, shortId: string, userId: Option<string>,
                     expiresAt: Option<int>, now: int): (r: Option<Url>)
    ensures r.Some? <==> Truthy(originalUrl) && shortId != ""
    ensures r.Some? ==> UrlValid(r.value)
    ensures r.Some? ==> r.value.originalUrl == originalUrl.value && r.value.shortId == shortId
                        && r.value.userId == userId && r.value.expiresAt == expiresAt
    ensures r.Some? ==> r.value.clicks == 0 && r.value.createdAt == now
  {
    if Truthy(originalUrl) && shortId != "" then
      Some(Url(originalUrl.value, shortId, userId, now, expiresAt, 0))
    else
      None
  }
}
