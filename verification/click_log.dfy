/** The click-logging middleware that runs before every `GET /:shortId`. */
module ClickLog {
  import opened Wrappers
  import opened Js
  import opened Records

  /** What the user-agent parser reports; each name may be missing. */
  datatype UaResult = UaResult(browser: Option<string>, os: Option<string>, deviceType: Option<string>)

  /** The parts of the incoming request that the middleware reads. */
  datatype ClickRequest = ClickRequest(
    shortId: string,                   // the `:shortId` path parameter
    forwardedFor: Option<string>,      // the `x-forwarded-for` header
    connectionAddress: Option<string>, // `req.connection.remoteAddress`
    socketAddress: Option<string>,     // `req.socket.remoteAddress`
    ua: UaResult)                      // the parsed `User-Agent`

  const DefaultBrowser: string := "chrome"
  const DefaultOs: string := "windows"
  const DefaultDeviceType: string := "desktop"

  /** `header.split(',')[0]`: everything before the first comma, untrimmed. */
  function FirstPiece(header: string): (r: string)
    ensures r <= header
    ensures ',' !in r
    ensures |r| < |header| ==> header[|r|] == ','
  {
    if header == [] || header[0] == ',' then "" else [header[0]] + FirstPiece(header[1..])
  }

  /** The first piece of `x-forwarded-for`, or `undefined` when there is no such header. */
  function ForwardedIp(forwardedFor: Option<string>): (r: Option<string>)
    ensures r.Some? <==> forwardedFor.Some?
    ensures r.Some? ==> r.value <= forwardedFor.value && ',' !in r.value
    ensures r.Some? && |r.value| < |forwardedFor.value| ==> forwardedFor.value[|r.value|] == ','
  {
    if forwardedFor.Some? then Some(FirstPiece(forwardedFor.value)) else None
  }

  /** The client address: forwarded first piece, else connection address, else socket address. */
  function ClientIp(req: ClickRequest): (ip: Option<string>)
    ensures Truthy(ForwardedIp(req.forwardedFor)) ==> ip == Some(FirstPiece(req.forwardedFor.value))
    ensures !Truthy(ForwardedIp(req.forwardedFor)) && Truthy(req.connectionAddress) ==> ip == req.connectionAddress
    ensures !Truthy(ForwardedIp(req.forwardedFor)) && !Truthy(req.connectionAddress) ==> ip == req.socketAddress
  {
    Or(Or(ForwardedIp(req.forwardedFor), req.connectionAddress), req.socketAddress)
  }

  /** The click document the middleware builds, with the parser's fallbacks applied. */
  function MakeClick(req: ClickRequest, now: int): (c: Click)
    ensures c.shortId == req.shortId && c.timestamp == now && c.ip == ClientIp(req)
    ensures c.browser == Some(if Truthy(req.ua.browser) then req.ua.browser.value else DefaultBrowser)
    ensures c.os == Some(if Truthy(req.ua.os) then req.ua.os.value else DefaultOs)
    ensures c.deviceType == if Truthy(req.ua.deviceType) then req.ua.deviceType.value else DefaultDeviceType
    ensures c.deviceType != "" && c.browser.value != "" && c.os.value != ""
  {
    Click(req.shortId, now, ClientIp(req),
          Some(OrElse(req.ua.browser, DefaultBrowser)),
          Some(OrElse(req.ua.os, DefaultOs)),
          OrElse(req.ua.deviceType, DefaultDeviceType))
  }

  /** The device-type fallback means that only an empty path parameter can make the save fail validation. */
  lemma ClickValidIffShortId(req: ClickRequest, now: int)
    ensures ClickValid(MakeClick(req, now)) <==> req.shortId != ""
  {
  }
}
