/**
 * The gateway's room routes: each forwards the request to the room service
 * with three identity headers derived from the authentication step, then
 * passes the room service's answer back. The HTTP client resolves on a 2xx
 * status and rejects otherwise, carrying the response when there was one.
 */
module GatewayRoutes {
  import opened Json
  import opened GatewayAuth
  import RoomRoutes

  /** `userHeaders(req)`; `None` is a header whose value is `undefined`. */
  datatype UserHeaders = UserHeaders(userId: Option<Json>, userType: string, userEmail: Option<Json>)

  /** `req.user` is truthy. */
  predicate HasUser(user: Option<Json>) {
    user.Some? && Truthy(user.value)
  }

  /** `x-user-id`, `x-user-type` and `x-user-email`, each decided by whether `req.user` is truthy. */
  function UserHeadersOf(user: Option<Json>, userEmail: Option<Json>): (h: UserHeaders)
    ensures h.userType == (if HasUser(user) then "auth" else "guest")
    ensures HasUser(user) ==> h.userId == Prop(user.value, "sub") && h.userEmail == userEmail
    ensures !HasUser(user) ==> h.userId.None? && h.userEmail.None?
  {
    if HasUser(user) then UserHeaders(Prop(user.value, "sub"), "auth", userEmail)
    else UserHeaders(None, "guest", None)
  }

  /** A header value as the room service reads it; only a string value arrives as that string. */
  function HeaderValue(v: Option<Json>): Option<string> {
    if v.Some? && v.value.JStr? then Some(v.value.s) else None
  }

  /** The caller headers the room service sees for a forwarded request. */
  function RoomHeaders(h: UserHeaders): RoomRoutes.Headers {
    RoomRoutes.Headers(Some(h.userType), HeaderValue(h.userId))
  }

  /** The headers forwarded after authentication. */
  function ForwardedHeaders(id: Identity): RoomRoutes.Headers {
    RoomHeaders(UserHeadersOf(id.user, id.userEmail))
  }

  /** A guest at the gateway sends no user id and no email, so the room service takes its guest path. */
  lemma GatewayGuestIsRoomGuest(id: Identity)
    requires !HasUser(id.user)
    ensures RoomRoutes.IsGuestCaller(ForwardedHeaders(id))
    ensures UserHeadersOf(id.user, id.userEmail).userEmail.None?
  {
  }

  /**
   * End to end: a request without an Authorization header, or whose token
   * fails any claim check, is served from the guest tier.
   */
  lemma FailedAuthLandsInGuestTier(authHeader: Option<string>, idTokenHeader: Option<string>, clientId: Option<string>,
                                   verify: string -> VerifyOutcome, decode: string -> DecodeOutcome, userId0: Option<Json>)
    requires !Present(authHeader) || !ClaimsAccepted(verify(StripBearer(authHeader.value)), clientId)
    ensures RoomRoutes.IsGuestCaller(ForwardedHeaders(Authenticate(authHeader, idTokenHeader, clientId, verify, decode, userId0)))
  {
    AuthenticatedIff(authHeader, idTokenHeader, clientId, verify, decode, userId0);
    GatewayGuestIsRoomGuest(Authenticate(authHeader, idTokenHeader, clientId, verify, decode, userId0));
  }

  /**
   * End to end: the durable tier serves a request exactly when its token
   * passes every check and its claims carry a non-empty string `sub`, which
   * then becomes the room service's caller id.
   */
  lemma DurableTierIff(authHeader: Option<string>, idTokenHeader: Option<string>, clientId: Option<string>,
                       verify: string -> VerifyOutcome, decode: string -> DecodeOutcome, userId0: Option<Json>)
    ensures !RoomRoutes.IsGuestCaller(ForwardedHeaders(Authenticate(authHeader, idTokenHeader, clientId, verify, decode, userId0))) <==>
      && Present(authHeader)
      && ClaimsAccepted(verify(StripBearer(authHeader.value)), clientId)
      && HeaderValue(Prop(verify(StripBearer(authHeader.value)).decoded, "sub")).Some?
      && HeaderValue(Prop(verify(StripBearer(authHeader.value)).decoded, "sub")).value != ""
    ensures !RoomRoutes.IsGuestCaller(ForwardedHeaders(Authenticate(authHeader, idTokenHeader, clientId, verify, decode, userId0))) ==>
      ForwardedHeaders(Authenticate(authHeader, idTokenHeader, clientId, verify, decode, userId0)).userId ==
        HeaderValue(Prop(verify(StripBearer(authHeader.value)).decoded, "sub"))
  {
    AuthenticatedIff(authHeader, idTokenHeader, clientId, verify, decode, userId0);
  }

  /** What the room service sent back, or a failure with no response at all. */
  datatype Upstream = Responded(status: int, data: Json) | NoResponse(message: string)

  /** The HTTP client's result: resolved with a 2xx response, or rejected with the response if any. */
  datatype ClientResult = Resolved(status: int, data: Json) | RejectedWith(response: Option<(int, Json)>, message: string)

  predicate IsSuccess(status: int) {
    200 <= status < 300
  }

  /** The client's default status validation. */
  function ClientCall(u: Upstream): (r: ClientResult)
    ensures r.Resolved? <==> u.Responded? && IsSuccess(u.status)
  {
    match u
    case Responded(s, d) => if IsSuccess(s) then Resolved(s, d) else RejectedWith(Some((s, d)), "")
    case NoResponse(m) => RejectedWith(None, m)
  }

  /** What the gateway does with the client's result. */
  datatype GatewayReply = JsonReply(status: int, body: Json) | StatusReply(status: int) | PassToNext(message: string)

  /** The list, get, create, update and share handlers: status and body out, either way. */
  function Forward(r: ClientResult): GatewayReply {
    match r
    case Resolved(s, d) => JsonReply(s, d)
    case RejectedWith(Some(resp), _) => JsonReply(resp.0, resp.1)
    case RejectedWith(None, m) => PassToNext(m)
  }

  /** The delete handler: a success sends only its status. */
  function ForwardDelete(r: ClientResult): GatewayReply {
    match r
    case Resolved(s, _) => StatusReply(s)
    case RejectedWith(Some(resp), _) => JsonReply(resp.0, resp.1)
    case RejectedWith(None, m) => PassToNext(m)
  }

  /**
   * The proxy is transparent: any answer of the room service, success or
   * error, reaches the caller with the same status and body; only a failure
   * without a response is handed on.
   */
  lemma ForwardTransparent(u: Upstream)
    ensures u.Responded? ==> Forward(ClientCall(u)) == JsonReply(u.status, u.data)
    ensures u.NoResponse? ==> Forward(ClientCall(u)) == PassToNext(u.message)
  {
  }

  /** Delete answers a success with its status alone and forwards an error like the other routes. */
  lemma ForwardDeleteStatusOnly(u: Upstream)
    ensures u.Responded? && IsSuccess(u.status) ==> ForwardDelete(ClientCall(u)) == StatusReply(u.status)
    ensures !(u.Responded? && IsSuccess(u.status)) ==> ForwardDelete(ClientCall(u)) == Forward(ClientCall(u))
  {
  }

  /** The error middleware's body: `{error: err.message || "Internal Server Error"}`. */
  function ErrorBody(errorMessage: string): Json {
    JObj(map["error" := JStr(if errorMessage != "" then errorMessage else "Internal Server Error")])
  }

  /** The response a room-service reply puts on the wire; a failure becomes a 500 with its message. */
  function Wire(r: RoomRoutes.Reply, errorMessage: string): (u: Upstream)
    ensures u.Responded? && u.status == RoomRoutes.StatusOf(r)
    ensures RoomRoutes.BodyOf(r).Some? ==> u.data == RoomRoutes.BodyOf(r).value
    ensures r.ServerError? ==> u.status == 500 && u.data == ErrorBody(errorMessage)
  {
    match r
    case ServerError => Responded(500, ErrorBody(errorMessage))
    case _ => Responded(RoomRoutes.StatusOf(r), RoomRoutes.BodyOf(r).value)
  }

  /**
   * Every room-service reply, the 403, 400 and 404 answers included, reaches
   * the caller unchanged; a failure reaches it as the 500 error body.
   */
  lemma RoomReplyReachesCaller(r: RoomRoutes.Reply, errorMessage: string)
    ensures Forward(ClientCall(Wire(r, errorMessage))).JsonReply?
    ensures Forward(ClientCall(Wire(r, errorMessage))).status == RoomRoutes.StatusOf(r)
    ensures RoomRoutes.BodyOf(r).Some? ==> Forward(ClientCall(Wire(r, errorMessage))).body == RoomRoutes.BodyOf(r).value
    ensures r.ServerError? ==> Forward(ClientCall(Wire(r, errorMessage))) == JsonReply(500, ErrorBody(errorMessage))
  {
    ForwardTransparent(Wire(r, errorMessage));
  }
}
