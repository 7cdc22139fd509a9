/**
 * The link registry and the redirect path of the backend: shortening,
 * deleting with its click cascade, listing by owner, click information,
 * click logging and redirect resolution.
 *
 * The functions on `Db` say what each request handler does to the two
 * collections and what it answers; the class `Store` holds the collections
 * and its methods update them in place, each proved to agree with its function.
 * Every handler is one atomic step.
 */
module Registry {
  import opened Wrappers
  import opened Js
  import opened Records
  import opened ClickLog
  import opened Tallies

  /** The two collections of the document store: links by `shortId`, and clicks in insertion order. */
  datatype Db = Db(urls: map<string, Url>, clicks: seq<Click>)

  /**
   * The store's invariant: each link is filed under its own `shortId` (which
   * makes `shortId` unique) and passed the schema's validation, and so did every click.
   */
  ghost predicate Consistent(db: Db) {
    && (forall id | id in db.urls :: db.urls[id].shortId == id && UrlValid(db.urls[id]))
    && (forall i | 0 <= i < |db.clicks| :: ClickValid(db.clicks[i]))
  }

  // ---------------------------------------------------------------- outcomes

  datatype ShortenResult =
    | Created(shortUrl: string, originalUrl: string, shortId: string, expiresAt: Option<int>)
    | AliasTaken
    | ShortenError
  {
    function Status(): int {
      match this
      case Created(_, _, _, _) => 201
      case AliasTaken => 400
      case ShortenError => 500
    }
  }

  datatype DeleteResult = Deleted | UrlNotFound | NotAuthorized | DeleteError
  {
    function Status(): int {
      match this
      case Deleted => 200
      case UrlNotFound => 404
      case NotAuthorized => 403
      case DeleteError => 500
    }
  }

  datatype UserUrlsResult = UserUrls(urls: map<string, Url>) | NoUrlsFound
  {
    function Status(): int {
      if UserUrls? then 200 else 404
    }
  }

  /** The link's six fields (a `Url` holds exactly those) and its clicks. */
  datatype ClickInfoResult = Info(url: Url, clicks: seq<Click>) | InfoUrlNotFound | NoClickInfo
  {
    function Status(): int {
      if Info? then 200 else 404
    }
  }

  datatype RedirectResult = RedirectTo(location: string) | RedirectNotFound | Expired
  {
    function Status(): int {
      match this
      case RedirectTo(_) => 302
      case RedirectNotFound => 404
      case Expired => 410
    }
  }

  // ---------------------------------------------------------- click queries

  /** `Click.find({ shortId: id })`: the clicks of one link, in collection order. */
  function ClicksOf(cs: seq<Click>, id: string): (r: seq<Click>)
    ensures forall c :: c in r <==> c in cs && c.shortId == id
  {
    if cs == [] then []
    else (if cs[0].shortId == id then [cs[0]] else []) + ClicksOf(cs[1..], id)
  }

  /** What `Click.deleteMany({ shortId: id })` leaves, in collection order. */
  function ClicksNotOf(cs: seq<Click>, id: string): (r: seq<Click>)
    ensures forall c :: c in r <==> c in cs && c.shortId != id
  {
    if cs == [] then []
    else (if cs[0].shortId != id then [cs[0]] else []) + ClicksNotOf(cs[1..], id)
  }

  /** The clicks of a link and the rest split the collection: nothing is lost or duplicated. */
  lemma {:induction false} ClicksSplit(cs: seq<Click>, id: string)
    ensures multiset(ClicksOf(cs, id)) + multiset(ClicksNotOf(cs, id)) == multiset(cs)
    ensures |ClicksOf(cs, id)| + |ClicksNotOf(cs, id)| == |cs|
  {
    if cs != [] {
      ClicksSplit(cs[1..], id);
      assert cs == [cs[0]] + cs[1..];
    }
  }

  /** Both queries keep the collection's order. */
  lemma {:induction false} ClicksInOrder(cs: seq<Click>, id: string)
    ensures SubsequenceOf(ClicksOf(cs, id), cs)
    ensures SubsequenceOf(ClicksNotOf(cs, id), cs)
  {
    if cs != [] {
      ClicksInOrder(cs[1..], id);
      var of, notOf := ClicksOf(cs[1..], id), ClicksNotOf(cs[1..], id);
      if cs[0].shortId == id {
        assert ClicksOf(cs, id) == [cs[0]] + of;
        assert ([cs[0]] + of)[1..] == of;
        assert ClicksNotOf(cs, id) == notOf;
      } else {
        assert ClicksNotOf(cs, id) == [cs[0]] + notOf;
        assert ([cs[0]] + notOf)[1..] == notOf;
        assert ClicksOf(cs, id) == of;
      }
    }
  }

  // --------------------------------------------------------------- shorten

  /** `customAlias || shortid.generate()`: an empty alias falls through to the generator. */
  function ChooseId(customAlias: Option<string>, generatedId: string): (id: string)
    ensures Truthy(customAlias) ==> id == customAlias.value
    ensures !Truthy(customAlias) ==> id == generatedId
  {
    if Truthy(customAlias) then customAlias.value else generatedId
  }

  /** `expiresAt ? new Date(expiresAt) : new Date(Date.now() + 3 days)`, where `0` is falsy. */
  function StoredExpiry(expiresAt: Option<int>, now: int): (t: int)
    ensures expiresAt.Some? && expiresAt.value != 0 ==> t == expiresAt.value
    ensures expiresAt.None? || expiresAt.value == 0 ==> t == now + ThreeDaysMs
  {
    if expiresAt.Some? && expiresAt.value != 0 then expiresAt.value else now + ThreeDaysMs
  }

  /** `POST /shorten`: the new collections and the answer. */
  function Shorten(db: Db, frontendUrl: string, originalUrl: Option<string>, customAlias: Option<string>,
                   expiresAt: Option<int>, userId: Option<string>, generatedId: string, now: int): (r: (Db, ShortenResult))
    ensures r.1.AliasTaken? <==> ChooseId(customAlias, generatedId) in db.urls
    ensures r.1.ShortenError? <==>
              ChooseId(customAlias, generatedId) !in db.urls && !(Truthy(originalUrl) && ChooseId(customAlias, generatedId) != "")
    ensures !r.1.Created? ==> r.0 == db
    ensures r.1.Created? ==> r.0.clicks == db.clicks && r.0.urls.Keys == db.urls.Keys + {r.1.shortId}
  {
    var shortId := ChooseId(customAlias, generatedId);
    if shortId in db.urls then (db, AliasTaken)
    else
      var doc := CreateUrl(originalUrl, shortId, userId, Some(StoredExpiry(expiresAt, now)), now);
      if doc.None? then (db, ShortenError)
      else (db.(urls := db.urls[shortId := doc.value]),
            Created(frontendUrl + "/" + shortId, originalUrl.value, shortId, expiresAt))
  }

  /** An id that is already taken is refused whatever the target, and nothing changes. */
  lemma ShortenRejectsTakenId(db: Db, frontendUrl: string, originalUrl: Option<string>, customAlias: Option<string>,
                              expiresAt: Option<int>, userId: Option<string>, generatedId: string, now: int)
    requires ChooseId(customAlias, generatedId) in db.urls
    ensures Shorten(db, frontendUrl, originalUrl, customAlias, expiresAt, userId, generatedId, now) == (db, AliasTaken)
  {
  }

  /** The id is the alias when it is non-empty, and the generated id otherwise. */
  lemma ShortenIdChoice(db: Db, frontendUrl: string, originalUrl: Option<string>, customAlias: Option<string>,
                        expiresAt: Option<int>, userId: Option<string>, generatedId: string, now: int)
    ensures var r := Shorten(db, frontendUrl, originalUrl, customAlias, expiresAt, userId, generatedId, now).1;
      r.Created? ==> r.shortId == (if customAlias.Some? && customAlias.value != "" then customAlias.value else generatedId)
  {
  }

  /**
   * A free id and a non-empty target give 201 and exactly one new link, with
   * the request's fields, no clicks, created now and expiring at the stored
   * expiry; every other link and every click stays as it was.
   */
  lemma ShortenAddsOneLink(db: Db, frontendUrl: string, originalUrl: Option<string>, customAlias: Option<string>,
                           expiresAt: Option<int>, userId: Option<string>, generatedId: string, now: int)
    requires Consistent(db)
    requires ChooseId(customAlias, generatedId) !in db.urls && ChooseId(customAlias, generatedId) != ""
    requires originalUrl.Some? && originalUrl.value != ""
    ensures var (db', r) := Shorten(db, frontendUrl, originalUrl, customAlias, expiresAt, userId, generatedId, now);
      var id := ChooseId(customAlias, generatedId);
      && r.Created? && r.Status() == 201
      && db'.urls.Keys == db.urls.Keys + {id}
      && |db'.urls| == |db.urls| + 1
      && (forall k | k in db.urls :: db'.urls[k] == db.urls[k])
      && db'.urls[id] == Url(originalUrl.value, id, userId, now, Some(StoredExpiry(expiresAt, now)), 0)
      && db'.clicks == db.clicks
      && Consistent(db')
  {
  }

  /** Without an expiry in the request the link expires three days after it was created. */
  lemma ShortenDefaultExpiry(db: Db, frontendUrl: string, originalUrl: Option<string>, customAlias: Option<string>,
                             expiresAt: Option<int>, userId: Option<string>, generatedId: string, now: int)
    ensures var (db', r) := Shorten(db, frontendUrl, originalUrl, customAlias, expiresAt, userId, generatedId, now);
      r.Created? ==>
        && db'.urls[r.shortId].expiresAt == Some(if expiresAt.None? || expiresAt == Some(0) then now + 259200000 else expiresAt.value)
        && db'.urls[r.shortId].createdAt == now
  {
  }

  /** The answer's short link is the front-end address, a slash and the id; its expiry echoes the request, not the stored value. */
  lemma ShortenResponse(db: Db, frontendUrl: string, originalUrl: Option<string>, customAlias: Option<string>,
                        expiresAt: Option<int>, userId: Option<string>, generatedId: string, now: int)
    ensures var r := Shorten(db, frontendUrl, originalUrl, customAlias, expiresAt, userId, generatedId, now).1;
      r.Created? ==> r.shortUrl == frontendUrl + "/" + r.shortId && r.expiresAt == expiresAt
                     && originalUrl == Some(r.originalUrl)
  {
  }

  /** A missing or empty target (or an empty id) fails validation: 500, and nothing changes. */
  lemma ShortenValidationError(db: Db, frontendUrl: string, originalUrl: Option<string>, customAlias: Option<string>,
                               expiresAt: Option<int>, userId: Option<string>, generatedId: string, now: int)
    requires ChooseId(customAlias, generatedId) !in db.urls
    requires originalUrl.None? || originalUrl.value == "" || ChooseId(customAlias, generatedId) == ""
    ensures Shorten(db, frontendUrl, originalUrl, customAlias, expiresAt, userId, generatedId, now) == (db, ShortenError)
  {
  }

  // ---------------------------------------------------------------- delete

  /**
   * `Url.findOneAndDelete({ shortId: id })` with its pre-hook: when a link
   * matches, the clicks carrying its `shortId` go first, then the link.
   */
  function FindOneAndDelete(db: Db, id: string): (r: Db)
    ensures r.urls == db.urls - {id}
    ensures id !in db.urls ==> r == db
    ensures id in db.urls ==> forall c :: c in r.clicks <==> c in db.clicks && c.shortId != db.urls[id].shortId
  {
    if id in db.urls then
      var doc := db.urls[id];
      Db(db.urls - {id}, ClicksNotOf(db.clicks, doc.shortId))
    else db
  }

  /** When no link matches, the hook deletes no click. */
  lemma FindOneAndDeleteNoMatch(db: Db, id: string)
    requires id !in db.urls
    ensures FindOneAndDelete(db, id) == db
  {
  }

  /** `DELETE /:shortId` by the authenticated `requester`. */
  function Delete(db: Db, id: string, requester: string): (r: (Db, DeleteResult))
    ensures r.1.UrlNotFound? <==> id !in db.urls
    ensures r.1.DeleteError? <==> id in db.urls && db.urls[id].userId.None?
    ensures r.1.Deleted? <==> id in db.urls && db.urls[id].userId == Some(requester)
    ensures !r.1.Deleted? ==> r.0 == db
    ensures r.1.Deleted? ==> r.0 == FindOneAndDelete(db, id)
  {
    if id !in db.urls then (db, UrlNotFound)
    else
      var doc := db.urls[id];
      if doc.userId.None? then (db, DeleteError)   // `url.userId.toString()` throws
      else if doc.userId.value != requester then (db, NotAuthorized)
      else (FindOneAndDelete(db, id), Deleted)
  }

  /** Deleting an unknown id answers 404 and changes nothing. */
  lemma DeleteUnknown(db: Db, id: string, requester: string)
    requires id !in db.urls
    ensures Delete(db, id, requester) == (db, UrlNotFound)
  {
  }

  /** Another user's link is refused with 403; a link without owner gives 500; the link and its clicks stay. */
  lemma DeleteRefused(db: Db, id: string, requester: string)
    requires id in db.urls && db.urls[id].userId != Some(requester)
    ensures var (db', r) := Delete(db, id, requester);
      && db' == db
      && (r == if db.urls[id].userId.None? then DeleteError else NotAuthorized)
      && ClicksOf(db'.clicks, id) == ClicksOf(db.clicks, id)
  {
  }

  /**
   * The owner's delete removes the link and exactly the clicks with its id:
   * the remaining clicks are the others in their order, every other link is
   * untouched, and the click information for the id is then "URL not found".
   */
  lemma DeleteCascades(db: Db, id: string, requester: string)
    requires Consistent(db)
    requires id in db.urls && db.urls[id].userId == Some(requester)
    ensures var (db', r) := Delete(db, id, requester);
      && r == Deleted
      && db'.urls.Keys == db.urls.Keys - {id}
      && (forall k | k in db'.urls :: db'.urls[k] == db.urls[k])
      && db'.clicks == ClicksNotOf(db.clicks, id)
      && SubsequenceOf(db'.clicks, db.clicks)
      && multiset(db'.clicks) + multiset(ClicksOf(db.clicks, id)) == multiset(db.clicks)
      && |db'.clicks| == |db.clicks| - |ClicksOf(db.clicks, id)|
      && ClicksOf(db'.clicks, id) == []
      && ClickInfo(db', id) == InfoUrlNotFound
      && Consistent(db')
  {
    var db' := FindOneAndDelete(db, id);
    assert Delete(db, id, requester) == (db', Deleted);
    assert db'.clicks == ClicksNotOf(db.clicks, id);
    ClicksSplit(db.clicks, id);
    ClicksInOrder(db.clicks, id);
    NothingLeftOf(db.clicks, id);
    CascadeKeepsConsistent(db, id);
  }

  /** The cascade leaves a consistent store: what survives was valid before. */
  lemma CascadeKeepsConsistent(db: Db, id: string)
    requires Consistent(db)
    ensures Consistent(FindOneAndDelete(db, id))
  {
    var db' := FindOneAndDelete(db, id);
    forall i | 0 <= i < |db'.clicks| ensures ClickValid(db'.clicks[i]) {
      assert db'.clicks[i] in db.clicks;
    }
  }

  /** After the cascade no click of the deleted id is left. */
  lemma {:induction false} NothingLeftOf(cs: seq<Click>, id: string)
    ensures ClicksOf(ClicksNotOf(cs, id), id) == []
  {
    if cs != [] {
      NothingLeftOf(cs[1..], id);
      if cs[0].shortId != id {
        assert ClicksNotOf(cs, id) == [cs[0]] + ClicksNotOf(cs[1..], id);
        assert ClicksNotOf(cs, id)[1..] == ClicksNotOf(cs[1..], id);
        assert ClicksOf(ClicksNotOf(cs, id), id) == ClicksOf(ClicksNotOf(cs[1..], id), id);
      } else {
        assert ClicksNotOf(cs, id) == ClicksNotOf(cs[1..], id);
      }
    }
  }

  // --------------------------------------------------------------- queries

  /** `GET /user/urls`: the requester's links, or 404 when there are none. */
  function GetUserUrls(db: Db, owner: string): (r: UserUrlsResult)
    ensures r.NoUrlsFound? <==> forall k | k in db.urls :: db.urls[k].userId != Some(owner)
    ensures r.UserUrls? ==> forall k :: k in r.urls <==> k in db.urls && db.urls[k].userId == Some(owner)
    ensures r.UserUrls? ==> forall k | k in r.urls :: r.urls[k] == db.urls[k]
  {
    var mine := map k | k in db.urls && db.urls[k].userId == Some(owner) :: db.urls[k];
    if |mine| == 0 then
      assert forall k | k in db.urls :: db.urls[k].userId != Some(owner) by {
        assert forall k | k in db.urls && db.urls[k].userId == Some(owner) :: k in mine;
      }
      NoUrlsFound
    else
      assert exists k :: k in mine;
      UserUrls(mine)
  }

  /** `GET /click/:shortId`: the link and exactly its clicks, or one of two 404s. */
  function ClickInfo(db: Db, id: string): (r: ClickInfoResult)
    ensures r.InfoUrlNotFound? <==> id !in db.urls
    ensures r.NoClickInfo? <==> id in db.urls && forall i | 0 <= i < |db.clicks| :: db.clicks[i].shortId != id
    ensures r.Info? ==> && r.url == db.urls[id]
                        && r.clicks == ClicksOf(db.clicks, id)
                        && r.clicks != []
                        && forall c :: c in r.clicks <==> c in db.clicks && c.shortId == id
  {
    if id !in db.urls then InfoUrlNotFound
    else
      var clicks := ClicksOf(db.clicks, id);
      if clicks == [] then
        assert forall i | 0 <= i < |db.clicks| :: db.clicks[i].shortId != id by {
          forall i | 0 <= i < |db.clicks| ensures db.clicks[i].shortId != id {
            assert db.clicks[i] in db.clicks;
          }
        }
        NoClickInfo
      else
        assert clicks[0] in clicks;
        Info(db.urls[id], clicks)
  }

  // -------------------------------------------------------------- redirect

  /** The handler of `GET /:shortId`: lookup, expiry check, counter increment. */
  function Redirect(db: Db, id: string, now: int): (r: (Db, RedirectResult))
    ensures r.1.RedirectNotFound? <==> id !in db.urls
    ensures r.1.Expired? <==> id in db.urls && db.urls[id].expiresAt.Some? && db.urls[id].expiresAt.value < now
    ensures !r.1.RedirectTo? ==> r.0 == db
    ensures r.1.RedirectTo? ==> id in db.urls && id in r.0.urls && r.1.location == db.urls[id].originalUrl && r.0.urls[id].clicks == db.urls[id].clicks + 1
    ensures r.0.clicks == db.clicks && r.0.urls.Keys == db.urls.Keys
  {
    if id !in db.urls then (db, RedirectNotFound)
    else
      var doc := db.urls[id];
      if doc.expiresAt.Some? && doc.expiresAt.value < now then (db, Expired)
      else (db.(urls := db.urls[id := doc.(clicks := doc.clicks + 1)]), RedirectTo(doc.originalUrl))
  }

  /** An unknown id answers 404 and no counter moves. */
  lemma RedirectUnknown(db: Db, id: string, now: int)
    requires id !in db.urls
    ensures Redirect(db, id, now) == (db, RedirectNotFound)
  {
  }

  /** A link whose expiry lies strictly before now answers 410 and its counter stays. */
  lemma RedirectExpired(db: Db, id: string, now: int)
    requires id in db.urls && db.urls[id].expiresAt.Some? && db.urls[id].expiresAt.value < now
    ensures Redirect(db, id, now) == (db, Expired)
  {
  }

  /**
   * Otherwise (no expiry, or an expiry at or after now) the counter grows by
   * exactly one, nothing else about the link or any other link changes, and
   * the answer redirects to the target.
   */
  lemma RedirectCounts(db: Db, id: string, now: int)
    requires Consistent(db)
    requires id in db.urls && (db.urls[id].expiresAt.None? || now <= db.urls[id].expiresAt.value)
    ensures var (db', r) := Redirect(db, id, now);
      && r == RedirectTo(db.urls[id].originalUrl)
      && db'.urls.Keys == db.urls.Keys
      && db'.urls[id].clicks == db.urls[id].clicks + 1
      && db'.urls[id].(clicks := 0) == db.urls[id].(clicks := 0)
      && (forall k | k in db.urls && k != id :: db'.urls[k] == db.urls[k])
      && db'.clicks == db.clicks
      && Consistent(db')
  {
  }

  /** A link that expires exactly now still redirects. */
  lemma RedirectAtExpiryInstant(db: Db, id: string, now: int)
    requires id in db.urls && db.urls[id].expiresAt == Some(now)
    ensures Redirect(db, id, now).1.RedirectTo?
  {
  }

  // ----------------------------------------------------------- click logging

  /** The middleware's effect: one click appended when the save succeeds; a failed save is swallowed. */
  function LogClick(db: Db, req: ClickRequest, now: int, storeUp: bool): (r: Db)
    ensures r.urls == db.urls
    ensures db.clicks <= r.clicks && |r.clicks| <= |db.clicks| + 1
    ensures |r.clicks| == |db.clicks| + 1 ==> r.clicks[|db.clicks|] == MakeClick(req, now)
  {
    var click := MakeClick(req, now);
    if storeUp && ClickValid(click) then db.(clicks := db.clicks + [click]) else db
  }

  /** A saved click carries the path parameter and now; the links never change. */
  lemma LogClickAppendsOne(db: Db, req: ClickRequest, now: int, storeUp: bool)
    requires Consistent(db)
    ensures var db' := LogClick(db, req, now, storeUp);
      && db'.urls == db.urls
      && Consistent(db')
      && (storeUp && req.shortId != "" ==>
            |db'.clicks| == |db.clicks| + 1 && db'.clicks[..|db.clicks|] == db.clicks
            && db'.clicks[|db.clicks|] == MakeClick(req, now)
            && db'.clicks[|db.clicks|].shortId == req.shortId && db'.clicks[|db.clicks|].timestamp == now)
      && (!storeUp || req.shortId == "" ==> db' == db)
  {
    ClickValidIffShortId(req, now);
    assert (db.clicks + [MakeClick(req, now)])[..|db.clicks|] == db.clicks;
  }

  /** The route `GET /:shortId`: the logging middleware, then the redirect handler. */
  function HandleRedirect(db: Db, req: ClickRequest, now: int, storeUp: bool): (r: (Db, RedirectResult))
    ensures r.1 == Redirect(db, req.shortId, now).1
    ensures r.0.clicks == LogClick(db, req, now, storeUp).clicks
    ensures r.0 == Redirect(db, req.shortId, now).0.(clicks := LogClick(db, req, now, storeUp).clicks)
  {
    Redirect(LogClick(db, req, now, storeUp), req.shortId, now)
  }

  /**
   * Logging runs before the lookup: a click is recorded even when the id is
   * unknown or expired, and logging never changes how the request resolves.
   */
  lemma ClickLoggedBeforeLookup(db: Db, req: ClickRequest, now: int, storeUp: bool)
    requires Consistent(db)
    requires storeUp && req.shortId != ""
    ensures var (db', r) := HandleRedirect(db, req, now, storeUp);
      && r == Redirect(db, req.shortId, now).1
      && |db'.clicks| == |db.clicks| + 1
      && db'.clicks[|db.clicks|].shortId == req.shortId
  {
    LogClickAppendsOne(db, req, now, storeUp);
  }

  /**
   * A visit to an id nobody has created yet leaves a click behind; a link
   * created later under that alias shows that click as its own.
   */
  lemma EarlierVisitCountsForLaterAlias(req: ClickRequest, now: int, later: int)
    requires req.shortId == "promo"
    ensures var (db1, r1) := HandleRedirect(Db(map[], []), req, now, true);
      var (db2, r2) := Shorten(db1, "https://short.example", Some("https://example.com"), Some("promo"),
                               None, Some("u1"), "x1", later);
      && r1 == RedirectNotFound
      && r2.Created?
      && ClickInfo(db2, "promo").Info?
      && |ClickInfo(db2, "promo").clicks| == 1
  {
    var db1 := HandleRedirect(Db(map[], []), req, now, true).0;
    assert db1.clicks == [MakeClick(req, now)];
    var db2 := Shorten(db1, "https://short.example", Some("https://example.com"), Some("promo"),
                       None, Some("u1"), "x1", later).0;
    assert db2.clicks == db1.clicks;
    assert ClicksOf(db2.clicks, "promo") == [MakeClick(req, now)];
  }

  /** Shortening the same alias twice: the second request is refused with 400. */
  lemma SameAliasTwice(db: Db, target1: string, target2: string, now: int)
    requires "promo" !in db.urls && target1 != ""
    ensures var (db1, r1) := Shorten(db, "https://short.example", Some(target1), Some("promo"), None, Some("u1"), "g1", now);
      var (db2, r2) := Shorten(db1, "https://short.example", Some(target2), Some("promo"), None, Some("u2"), "g2", now);
      r1.Created? && r2 == AliasTaken && db2 == db1
  {
  }

  // ------------------------------------------------------------- the store

  /** The document store, holding both collections and updating them in place. */
  class Store {
    const frontendUrl: string
    var urls: map<string, Url>
    var clicks: seq<Click>

    function Contents(): Db
      reads this
    {
      Db(urls, clicks)
    }

    ghost predicate Valid()
      reads this
    {
      Consistent(Contents())
    }

    constructor (frontendUrl: string)
      ensures this.frontendUrl == frontendUrl
      ensures Contents() == Db(map[], []) && Valid()
    {
      this.frontendUrl := frontendUrl;
      urls := map[];
      clicks := [];
    }

    /** `shortenUrl`: look the id up, then create the link. */
    method ShortenUrl(originalUrl: Option<string>, customAlias: Option<string>, expiresAt: Option<int>,
                      userId: Option<string>, generatedId: string, now: int) returns (r: ShortenResult)
      requires Valid()
      modifies this`urls
      ensures Valid()
      ensures (Contents(), r) == Shorten(old(Contents()), frontendUrl, originalUrl, customAlias,
                                         expiresAt, userId, generatedId, now)
    {
      var shortId := ChooseId(customAlias, generatedId);
      if shortId in urls {
        return AliasTaken;
      }
      var doc := CreateUrl(originalUrl, shortId, userId, Some(StoredExpiry(expiresAt, now)), now);
      if doc.None? {
        return ShortenError;
      }
      urls := urls[shortId := doc.value];
      r := Created(frontendUrl + "/" + shortId, originalUrl.value, shortId, expiresAt);
    }

    /** `findOneAndDelete` with its pre-hook: the link's clicks first, then the link. */
    method FindOneAndDeleteUrl(id: string)
      requires Valid()
      modifies this
      ensures Valid()
      ensures Contents() == FindOneAndDelete(old(Contents()), id)
    {
      if id in urls {
        var doc := urls[id];
        clicks := ClicksNotOf(clicks, doc.shortId);
        urls := urls - {id};
      }
      assert Contents() == FindOneAndDelete(old(Contents()), id);
      forall i | 0 <= i < |clicks| ensures ClickValid(clicks[i]) {
        assert clicks[i] in old(clicks);
      }
    }

    /** `deleteUrl`: existence, then ownership, then the cascading delete. */
    method DeleteUrl(id: string, requester: string) returns (r: DeleteResult)
      requires Valid()
      modifies this
      ensures Valid()
      ensures (Contents(), r) == Delete(old(Contents()), id, requester)
    {
      if id !in urls {
        return UrlNotFound;
      }
      var doc := urls[id];
      if doc.userId.None? {
        return DeleteError;
      }
      if doc.userId.value != requester {
        return NotAuthorized;
      }
      FindOneAndDeleteUrl(id);
      r := Deleted;
    }

    /** `redirectToOriginal`: the counter of a live link is incremented and saved. */
    method RedirectToOriginal(id: string, now: int) returns (r: RedirectResult)
      requires Valid()
      modifies this`urls
      ensures Valid()
      ensures (Contents(), r) == Redirect(old(Contents()), id, now)
    {
      if id !in urls {
        return RedirectNotFound;
      }
      var doc := urls[id];
      if doc.expiresAt.Some? && doc.expiresAt.value < now {
        return Expired;
      }
      doc := doc.(clicks := doc.clicks + 1);
      urls := urls[id := doc];
      r := RedirectTo(doc.originalUrl);
    }

    /** `logClickMiddleware`: build the click and save it; a failed save is swallowed. */
    method LogClickMiddleware(req: ClickRequest, now: int, storeUp: bool)
      requires Valid()
      modifies this`clicks
      ensures Valid()
      ensures Contents() == LogClick(old(Contents()), req, now, storeUp)
    {
      var click := MakeClick(req, now);
      if storeUp && ClickValid(click) {
        clicks := clicks + [click];
      }
    }

    /** `GET /:shortId`: the middleware always hands on to the redirect handler. */
    method HandleRedirectRequest(req: ClickRequest, now: int, storeUp: bool) returns (r: RedirectResult)
      requires Valid()
      modifies this
      ensures Valid()
      ensures (Contents(), r) == HandleRedirect(old(Contents()), req, now, storeUp)
    {
      LogClickMiddleware(req, now, storeUp);
      r := RedirectToOriginal(req.shortId, now);
    }
  }
}
