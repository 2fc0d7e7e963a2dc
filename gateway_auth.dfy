/**
 * The gateway's optional authentication step. It never rejects a request:
 * it either attaches the verified access-token claims (and, when an ID
 * token is sent alongside, its email claim) or marks the request as a
 * guest's. Signature verification and token decoding are library calls,
 * so their outcomes are inputs: `verify` maps the token text to what
 * `jwt.verify` reports and `decode` maps the ID-token text to what
 * `jwt.decode` returns or whether it throws.
 */
module GatewayAuth {
  import opened Json

  /** What `jwt.verify` hands its callback: an error, or the decoded payload. */
  datatype VerifyOutcome = VerifyFailed | Verified(decoded: Json)

  /** What `jwt.decode` does: throw, or return a payload (`null` for an unreadable token). */
  datatype DecodeOutcome = DecodeThrew | Decoded(payload: Json)

  const BearerPrefix: string := "Bearer "

  predicate OccursAt(s: string, p: string, i: nat) {
    i + |p| <= |s| && s[i..i + |p|] == p
  }

  /** The first position at or after `from` where `p` occurs in `s`. */
  function FirstOccurrence(s: string, p: string, from: nat): (r: Option<nat>)
    requires from <= |s|
    ensures r.Some? ==> from <= r.value && OccursAt(s, p, r.value)
    ensures r.Some? ==> forall j :: from <= j < r.value ==> !OccursAt(s, p, j)
    ensures r.None? ==> forall j :: from <= j <= |s| ==> !OccursAt(s, p, j)
    decreases |s| - from
  {
    if OccursAt(s, p, from) then Some(from)
    else if from == |s| then None
    else FirstOccurrence(s, p, from + 1)
  }

  /**
   * `authHeader.replace('Bearer ', '')`: the first occurrence of "Bearer ",
   * wherever it is, is cut out; a header without one is used as it is.
   */
  function StripBearer(header: string): (token: string)
    ensures (forall j :: 0 <= j <= |header| ==> !OccursAt(header, BearerPrefix, j)) ==> token == header
    ensures forall i ::
      (0 <= i <= |header| && OccursAt(header, BearerPrefix, i) && forall j :: 0 <= j < i ==> !OccursAt(header, BearerPrefix, j))
      ==> token == header[..i] + header[i + |BearerPrefix|..]
  {
    match FirstOccurrence(header, BearerPrefix, 0)
    case None => header
    case Some(i) => header[..i] + header[i + |BearerPrefix|..]
  }

  /** The usual `Bearer <token>` header yields exactly the token. */
  lemma StripBearerPrefixed(token: string)
    ensures StripBearer(BearerPrefix + token) == token
  {
    var h := BearerPrefix + token;
    assert OccursAt(h, BearerPrefix, 0);
    assert h[0 + |BearerPrefix|..] == token;
  }

  /** A header value is present and not the empty string (`!authHeader` fails). */
  predicate Present(header: Option<string>) {
    header.Some? && header.value != ""
  }

  /** `process.env.COGNITO_APP_CLIENT_ID` as a value: `undefined` when unset. */
  function ConfiguredClientId(clientId: Option<string>): Option<Json> {
    if clientId.Some? then Some(JStr(clientId.value)) else None
  }

  /**
   * The callback's acceptance test: no error, truthy claims,
   * `token_use === "access"` and `client_id === CLIENT_ID`.
   */
  predicate ClaimsAccepted(v: VerifyOutcome, clientId: Option<string>) {
    && v.Verified?
    && Truthy(v.decoded)
    && Prop(v.decoded, "token_use") == Some(JStr("access"))
    && StrictEqualsOpt(Prop(v.decoded, "client_id"), ConfiguredClientId(clientId))
  }

  /** With a client id configured, a verified object payload passes exactly when it is an access token issued to that client. */
  lemma ClaimsAcceptedConfigured(claims: Obj, id: string)
    ensures ClaimsAccepted(Verified(JObj(claims)), Some(id)) <==>
      && "token_use" in claims && claims["token_use"] == JStr("access")
      && "client_id" in claims && claims["client_id"] == JStr(id)
  {
  }

  /** Only a successful verification whose payload is an object can pass. */
  lemma AcceptedClaimsAreObjects(v: VerifyOutcome, clientId: Option<string>)
    ensures ClaimsAccepted(v, clientId) ==> v.Verified? && v.decoded.JObj?
  {
  }

  /** With no client id configured, a token carrying no `client_id` claim passes the client check. */
  lemma UnsetClientIdAcceptsMissingClaim(claims: Obj)
    requires "token_use" in claims && claims["token_use"] == JStr("access")
    requires "client_id" !in claims
    ensures ClaimsAccepted(Verified(JObj(claims)), None)
    ensures forall id :: !ClaimsAccepted(Verified(JObj(claims)), Some(id))
  {
  }

  /** `req.userEmail` after the ID token is considered: its truthy `email` claim, or `null`. */
  function EmailFrom(idTokenHeader: Option<string>, decode: string -> DecodeOutcome): (email: Json)
    ensures email != JNull ==> Present(idTokenHeader)
    ensures email != JNull ==>
      (decode(idTokenHeader.value).Decoded? && Prop(decode(idTokenHeader.value).payload, "email") == Some(email) && Truthy(email))
    ensures Present(idTokenHeader) && decode(idTokenHeader.value).Decoded? ==>
      var p := decode(idTokenHeader.value).payload;
      (Prop(p, "email").Some? && Truthy(Prop(p, "email").value)) ==> email == Prop(p, "email").value
  {
    if !Present(idTokenHeader) then JNull
    else
      match decode(idTokenHeader.value)
      case DecodeThrew => JNull
      case Decoded(p) =>
        if Truthy(p) && Prop(p, "email").Some? && Truthy(Prop(p, "email").value) then Prop(p, "email").value
        else JNull
  }

  /** The request fields the middleware leaves behind; `None` stands for a field never assigned. */
  datatype Identity = Identity(user: Option<Json>, userEmail: Option<Json>, userId: Option<Json>)

  /** The outcome of `optionalAuthenticateJWT` on a request whose `userId` was `userId0` before. */
  function Authenticate(authHeader: Option<string>, idTokenHeader: Option<string>, clientId: Option<string>,
                        verify: string -> VerifyOutcome, decode: string -> DecodeOutcome,
                        userId0: Option<Json>): (id: Identity)
    ensures id.user.Some? && id.userEmail.Some?
    ensures id.user == Some(JNull) ==> id.userEmail == Some(JNull) && id.userId == userId0
    ensures id.user != Some(JNull) ==> Truthy(id.user.value) && id.userId == Prop(id.user.value, "sub")
  {
    if !Present(authHeader) then Identity(Some(JNull), Some(JNull), userId0)
    else
      var outcome := verify(StripBearer(authHeader.value));
      if !ClaimsAccepted(outcome, clientId) then Identity(Some(JNull), Some(JNull), userId0)
      else Identity(Some(outcome.decoded), Some(EmailFrom(idTokenHeader, decode)), Prop(outcome.decoded, "sub"))
  }

  /** `req.user` is a truthy value, i.e. the request counts as authenticated. */
  predicate IsAuthenticated(id: Identity) {
    id.user.Some? && Truthy(id.user.value)
  }

  /**
   * Authentication succeeds exactly when an Authorization header is present
   * and the claims of its stripped token pass every check; the user is then
   * the claims and the user id their `sub`. Otherwise user and email are
   * `null` and the user id is left as it was.
   */
  lemma AuthenticatedIff(authHeader: Option<string>, idTokenHeader: Option<string>, clientId: Option<string>,
                         verify: string -> VerifyOutcome, decode: string -> DecodeOutcome, userId0: Option<Json>)
    ensures IsAuthenticated(Authenticate(authHeader, idTokenHeader, clientId, verify, decode, userId0)) <==>
      Present(authHeader) && ClaimsAccepted(verify(StripBearer(authHeader.value)), clientId)
    ensures IsAuthenticated(Authenticate(authHeader, idTokenHeader, clientId, verify, decode, userId0)) ==>
      var claims := verify(StripBearer(authHeader.value)).decoded;
      Authenticate(authHeader, idTokenHeader, clientId, verify, decode, userId0) ==
        Identity(Some(claims), Some(EmailFrom(idTokenHeader, decode)), Prop(claims, "sub"))
    ensures !IsAuthenticated(Authenticate(authHeader, idTokenHeader, clientId, verify, decode, userId0)) ==>
      Authenticate(authHeader, idTokenHeader, clientId, verify, decode, userId0) == Identity(Some(JNull), Some(JNull), userId0)
  {
    if Present(authHeader) {
      var outcome := verify(StripBearer(authHeader.value));
      if ClaimsAccepted(outcome, clientId) {
        assert Truthy(outcome.decoded);
      }
    }
  }

  /** An email is attached only to an authenticated request that sent an ID token carrying it. */
  lemma EmailNeedsIdToken(authHeader: Option<string>, idTokenHeader: Option<string>, clientId: Option<string>,
                          verify: string -> VerifyOutcome, decode: string -> DecodeOutcome, userId0: Option<Json>)
    ensures var id := Authenticate(authHeader, idTokenHeader, clientId, verify, decode, userId0);
      id.userEmail.Some? && id.userEmail.value != JNull ==>
        IsAuthenticated(id) && Present(idTokenHeader) && decode(idTokenHeader.value).Decoded?
        && Prop(decode(idTokenHeader.value).payload, "email") == id.userEmail
  {
    AuthenticatedIff(authHeader, idTokenHeader, clientId, verify, decode, userId0);
  }

  /** An Express request as far as the middleware touches it. */
  class Request {
    var user: Option<Json>
    var userEmail: Option<Json>
    var userId: Option<Json>
    /** How many times `next()` has been called for this request. */
    var nextCalls: nat

    constructor ()
      ensures user == None && userEmail == None && userId == None && nextCalls == 0
    {
      user, userEmail, userId, nextCalls := None, None, None, 0;
    }

    /** `next()` */
    method Next()
      modifies this
      ensures nextCalls == old(nextCalls) + 1
      ensures user == old(user) && userEmail == old(userEmail) && userId == old(userId)
    {
      nextCalls := nextCalls + 1;
    }

    /** `optionalAuthenticateJWT(req, res, next)`: assigns the identity fields, then calls `next` once. */
    method OptionalAuthenticate(authHeader: Option<string>, idTokenHeader: Option<string>, clientId: Option<string>,
                                verify: string -> VerifyOutcome, decode: string -> DecodeOutcome)
      modifies this
      ensures Identity(user, userEmail, userId) == Authenticate(authHeader, idTokenHeader, clientId, verify, decode, old(userId))
      ensures nextCalls == old(nextCalls) + 1
    {
      if authHeader.None? || authHeader.value == "" {
        user := Some(JNull);
        userEmail := Some(JNull);
        Next();
        return;
      }
      var accessToken := StripBearer(authHeader.value);
      var idToken := if idTokenHeader.Some? && idTokenHeader.value != "" then Some(idTokenHeader.value) else None;
      var outcome := verify(accessToken);
      if outcome.VerifyFailed? || !Truthy(outcome.decoded)
         || Prop(outcome.decoded, "token_use") != Some(JStr("access"))
         || !StrictEqualsOpt(Prop(outcome.decoded, "client_id"), ConfiguredClientId(clientId)) {
        user := Some(JNull);
        userEmail := Some(JNull);
        Next();
        return;
      }
      user := Some(outcome.decoded);
      userId := Prop(outcome.decoded, "sub");
      if idToken.Some? {
        match decode(idToken.value)
        case DecodeThrew =>
          userEmail := Some(JNull);
        case Decoded(idDecoded) =>
          userEmail := Some(if Truthy(idDecoded) && Prop(idDecoded, "email").Some? && Truthy(Prop(idDecoded, "email").value)
                            then Prop(idDecoded, "email").value else JNull);
      } else {
        userEmail := Some(JNull);
      }
      Next();
    }
  }
}
