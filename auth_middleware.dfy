/**
 * The bearer-token gate of `src/middleware/authMiddleware.ts`.
 *
 * The token is the `Authorization` header with its FIRST occurrence of "Bearer " removed,
 * wherever that occurrence is. A missing header or an empty token is rejected as missing;
 * otherwise the token goes to `jwt.verify`, modelled as the parameter `verify`, a partial
 * function from (token, key) to the decoded payload (`None` when verification throws: a bad
 * signature, a wrong key, an expired token). The only write, `req.user`, is returned as the
 * `Admitted` result; `Admitted` is also the only result on which `next()` is called.
 */
module AuthMiddleware {
  import opened Wrappers
  import JsString

  const BearerPrefix: string := "Bearer "
  /** The verification key used when `JWT_SECRET_KEY` is unset or empty. */
  const DefaultSecretKey: string := "your-secret-key"

  const MsgTokenRequired := "Authorization token required"
  const MsgInvalidToken := "Invalid or expired token"

  /** The claims of a verified token, as `jwt.verify` decodes them. */
  datatype Payload = Payload(id: Option<nat>, email: Option<string>)

  /** `req.user`. */
  datatype RequestUser = RequestUser(id: Option<nat>, email: Option<string>)

  /** A 401 response without `next()`, or `next()` with `req.user` set. */
  datatype GateResult = Rejected(status: nat, error: string) | Admitted(user: RequestUser)

  /** `process.env.JWT_SECRET_KEY || "your-secret-key"`. */
  function SecretKey(envVar: Option<string>): string {
    JsString.Or(envVar, DefaultSecretKey)
  }

  /** `req.header("Authorization")?.replace("Bearer ", "")`. */
  function ExtractToken(header: Option<string>): (token: Option<string>)
    ensures token.Some? <==> header.Some?
    ensures header.Some? && JsString.IndexOf(header.value, BearerPrefix).None? ==> token == header
    ensures header.Some? && JsString.IndexOf(header.value, BearerPrefix).Some? ==>
      var i := JsString.IndexOf(header.value, BearerPrefix).value;
      token.value == header.value[..i] + header.value[i + 7..] && |token.value| == |header.value| - 7
  {
    match header
    case None => None
    case Some(h) => Some(JsString.ReplaceFirst(h, BearerPrefix, ""))
  }

  /** `authMiddleware`. */
  function Gate(header: Option<string>, key: string, verify: (string, string) -> Option<Payload>)
    : (g: GateResult)
    ensures g.Rejected? ==> g.status == 401
    ensures g == Rejected(401, MsgTokenRequired) <==> ExtractToken(header) in {None, Some("")}
    ensures g == Rejected(401, MsgInvalidToken) <==>
      ExtractToken(header) !in {None, Some("")} && verify(ExtractToken(header).value, key).None?
    ensures g.Admitted? <==>
      ExtractToken(header) !in {None, Some("")} && verify(ExtractToken(header).value, key).Some?
    ensures g.Admitted? ==>
      var p := verify(ExtractToken(header).value, key).value;
      g.user == RequestUser(p.id, p.email)
  {
    var token := ExtractToken(header);
    if token.None? || token.value == "" then Rejected(401, MsgTokenRequired)
    else match verify(token.value, key)
      case None => Rejected(401, MsgInvalidToken)
      case Some(decoded) => Admitted(RequestUser(decoded.id, decoded.email))
  }

  /** Without an `Authorization` header the request is refused as missing its token. */
  lemma AbsentHeaderRejected(key: string, verify: (string, string) -> Option<Payload>)
    ensures Gate(None, key, verify) == Rejected(401, MsgTokenRequired)
  {
  }

  /** "Bearer " followed by `t` yields exactly `t`, even when `t` itself contains "Bearer ". */
  lemma BearerTokenExtracted(t: string)
    ensures ExtractToken(Some(BearerPrefix + t)) == Some(t)
  {
    JsString.ReplaceLeading(BearerPrefix, t, "");
    assert "" + t == t;
  }

  /** The header "Bearer " alone leaves an empty token, which is refused as missing. */
  lemma BareBearerRejected(key: string, verify: (string, string) -> Option<Payload>)
    ensures Gate(Some(BearerPrefix), key, verify) == Rejected(401, MsgTokenRequired)
  {
  }

  /** A header of the form "Bearer <t>", t non-empty, is decided by `verify(t, key)` alone. */
  lemma BearerHeaderVerified(t: string, key: string, verify: (string, string) -> Option<Payload>)
    requires t != ""
    ensures verify(t, key).None? ==> Gate(Some(BearerPrefix + t), key, verify) == Rejected(401, MsgInvalidToken)
    ensures verify(t, key).Some? ==>
      Gate(Some(BearerPrefix + t), key, verify) ==
        Admitted(RequestUser(verify(t, key).value.id, verify(t, key).value.email))
  {
    BearerTokenExtracted(t);
  }
}
