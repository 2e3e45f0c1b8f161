/** `checkJwt` and `getSigningKey`: the bearer-token admission gate in front
    of every task route. Token decoding, key-set lookup and signature
    verification are library calls and are taken as oracles (`Jose`); what is
    modelled exactly is the token extraction, the order of the steps, which
    failure produces which 401 message, and what happens to the request on
    the one success path. */
module KeycloakMiddleware {
  import opened Wrappers
  import opened JsText

  // ---------------------------------------------------------------------
  // Token extraction: `req.headers['authorization']?.split(' ')[1]`

  /** The second space-separated field of the Authorization header, or
      `None` (JavaScript `undefined`) when the header is absent or has no
      space. The scheme word in front is not looked at. */
  function TokenOf(authorization: Option<string>): (token: Option<string>)
    ensures token.Some? ==> authorization.Some? && ' ' in authorization.value
    ensures token.Some? ==> ' ' !in token.value && |token.value| < |authorization.value|
  {
    match authorization
    case None => None
    case Some(h) =>
      var fields := Split(h, ' ');
      if |fields| >= 2 then
        SplitFieldsFree(h, ' ');
        SecondFieldExtent(h, ' ');
        Some(fields[1])
      else None
  }

  /** The token is the text between the first and the second space (or the
      end): any scheme word `w` may come first, anything may follow. */
  lemma TokenShape(w: string, t: string, rest: string)
    requires ' ' !in w && ' ' !in t
    requires rest == [] || rest[0] == ' '
    ensures TokenOf(Some(w + [' '] + t + rest)) == Some(t)
  {
    var tail := t + rest;
    var h := w + ([' '] + tail);
    assert w + [' '] + t + rest == h;
    IndexOfPrefix(w, [' '] + tail, ' ');
    assert h[..|w|] == w;
    assert h[|w| + 1..] == tail;
    SplitAtFirst(h, ' ');
    SplitFirstField(t, rest, ' ');
    assert Split(h, ' ')[1] == Split(tail, ' ')[0];
  }

  /** Conversely, whenever a token is found the header has exactly that
      shape: scheme word, one space, the token, then nothing or a space. */
  lemma TokenDecomposes(h: string)
    requires TokenOf(Some(h)).Some?
    ensures var w := Split(h, ' ')[0];
            var t := TokenOf(Some(h)).value;
            var n := |w| + 1 + |t|;
            ' ' !in w && ' ' !in t && n <= |h| &&
            h[..|w|] == w && h[|w|] == ' ' && h[|w| + 1..n] == t &&
            (n == |h| || h[n] == ' ')
  {
    SecondFieldExtent(h, ' ');
    SplitFieldsFree(h, ' ');
  }

  /** No token at all exactly when the header is absent or has no space. */
  lemma {:induction false} TokenAbsentIff(authorization: Option<string>)
    ensures TokenOf(authorization).None? <==>
            authorization.None? || ' ' !in authorization.value
  {
    if authorization.Some? {
      var h := authorization.value;
      var i := IndexOf(h, ' ');
      IndexOfFirst(h, ' ');
      if i < |h| {
        SplitAtFirst(h, ' ');
      } else {
        assert Split(h, ' ') == [h];
      }
    }
  }

  /** The scheme word is not checked: `Basic <t>` yields the same token as
      `Bearer <t>`. */
  lemma SchemeIgnored(scheme1: string, scheme2: string, t: string)
    requires ' ' !in scheme1 && ' ' !in scheme2 && ' ' !in t
    ensures TokenOf(Some(scheme1 + [' '] + t)) == TokenOf(Some(scheme2 + [' '] + t)) == Some(t)
  {
    TokenShape(scheme1, t, []);
    TokenShape(scheme2, t, []);
    assert scheme1 + [' '] + t + [] == scheme1 + [' '] + t;
    assert scheme2 + [' '] + t + [] == scheme2 + [' '] + t;
  }

  // ---------------------------------------------------------------------
  // The libraries: jsonwebtoken and jwks-rsa, as oracles

  /** The JOSE header of a token (RFC 7515): `kid` names the signing key
      (section 4.1.4), `alg` the signature algorithm (section 4.1.1). */
  datatype JoseHeader = JoseHeader(kid: JsonValue, alg: JsonValue)

  /** A key of the JWK Set (section 5 of RFC 7517) as jwks-rsa hands it
      back: a certificate-derived `publicKey` and/or an `rsaPublicKey`. */
  datatype SigningKey = SigningKey(publicKey: Option<string>, rsaPublicKey: Option<string>)

  /** The verified claim set of a token (RFC 7519). */
  type Claims = map<string, JsonValue>

  /** The three library calls the gate makes.
      - `decode`: `jwt.decode(token, {complete: true})`, the header of the
        token without checking its signature, or `None` (null).
      - `getSigningKey`: `jwksClient.getSigningKey(kid, cb)`, the key of the
        remote key set with that `kid`, or an error.
      - `verify`: `jwt.verify(token, key, {algorithms}, cb)`, the claims of
        a token whose signature and claims check out, or an error. */
  datatype Jose = Jose(
    decode: string -> Option<JoseHeader>,
    getSigningKey: JsonValue -> Result<SigningKey, string>,
    verify: (string, Option<string>, seq<string>) -> Result<Claims, string>)

  /** The one algorithm the gate allows. */
  const AllowedAlgorithms: seq<string> := ["RS256"]

  /** A verifier that keeps to its allow-list: it accepts a token only if
      the token decodes and declares one of the allowed algorithms. */
  ghost predicate HonoursAllowList(jose: Jose)
  {
    forall token, key, algorithms ::
      jose.verify(token, key, algorithms).Success? ==>
        jose.decode(token).Some? &&
        jose.decode(token).value.alg.Str? &&
        jose.decode(token).value.alg.s in algorithms
  }

  // ---------------------------------------------------------------------
  // getSigningKey

  /** `key.publicKey || key.rsaPublicKey`: the public key when it is
      truthy (a non-empty string), otherwise whatever the RSA key is
      (possibly `undefined`). */
  function SelectKey(key: SigningKey): (pem: Option<string>)
    ensures Truthy(OptionalString(key.publicKey)) ==> pem == key.publicKey
    ensures !Truthy(OptionalString(key.publicKey)) ==> pem == key.rsaPublicKey
    ensures Truthy(OptionalString(pem)) <==>
              Truthy(OptionalString(key.publicKey)) || Truthy(OptionalString(key.rsaPublicKey))
  {
    if Truthy(OptionalString(key.publicKey)) then key.publicKey else key.rsaPublicKey
  }

  /** The promise `getSigningKey(kid)`: rejected when the key-set lookup
      fails, otherwise resolved with the selected key material. */
  function GetSigningKey(jose: Jose, kid: JsonValue): (r: Result<Option<string>, string>)
    ensures r.Failure? <==> jose.getSigningKey(kid).Failure?
    ensures r.Success? ==> r.value == SelectKey(jose.getSigningKey(kid).value)
  {
    match jose.getSigningKey(kid)
    case Failure(e) => Failure(e)
    case Success(key) => Success(SelectKey(key))
  }

  // ---------------------------------------------------------------------
  // checkJwt as a decision

  const Unauthorized: nat := 401
  const MissingMessage: string := "Token missing or invalid"
  const InvalidMessage: string := "Invalid token"
  const VerificationFailedMessage: string := "Token verification failed"

  /** What the gate does with a request: reject it with a status and the
      `message` of the JSON body, or admit it with the verified claims. */
  datatype Outcome = Reject(status: nat, message: string) | Admit(claims: Claims)

  /** A library call the gate made, with its arguments. */
  datatype Call =
    | DecodeCall(token: string)
    | LookupCall(kid: JsonValue)
    | VerifyCall(token: string, key: Option<string>, algorithms: seq<string>)

  /** The outcome together with the library calls made on the way, in order. */
  datatype Decision = Decision(outcome: Outcome, calls: seq<Call>)

  /** `!token`: no second field, or an empty one. */
  predicate TokenMissing(token: Option<string>): (missing: bool)
    ensures missing <==> !Truthy(OptionalString(token))
  {
    token.None? || token.value == ""
  }

  /** `!decodedToken || !decodedToken.header.kid`: unusable exactly when the
      token did not decode or its `kid` is absent, `null`, `false`, `0` or "". */
  predicate HeaderUnusable(header: Option<JoseHeader>): (unusable: bool)
    ensures unusable <==> header.None? || header.value.kid in Falsy
  {
    header.None? || !Truthy(header.value.kid)
  }

  /** The calls are the steps decode, key lookup, verify, in this order,
      stopping early: each call is the one that step makes for `token`. */
  ghost predicate StepsInOrder(calls: seq<Call>, token: string, jose: Jose)
  {
    |calls| <= 3 &&
    (|calls| >= 1 ==> calls[0] == DecodeCall(token)) &&
    (|calls| >= 2 ==> jose.decode(token).Some? &&
                      calls[1] == LookupCall(jose.decode(token).value.kid)) &&
    (|calls| == 3 ==> jose.getSigningKey(jose.decode(token).value.kid).Success? &&
                      calls[2] == VerifyCall(token,
                                    SelectKey(jose.getSigningKey(jose.decode(token).value.kid).value),
                                    AllowedAlgorithms))
  }

  /** `checkJwt(req, res, next)` for a request whose Authorization header is
      `authorization`. */
  function Gate(authorization: Option<string>, jose: Jose): (d: Decision)
    ensures d.outcome.Reject? ==> d.outcome.status == Unauthorized
    ensures TokenMissing(TokenOf(authorization)) <==> d.calls == []
    ensures d.calls != [] ==> StepsInOrder(d.calls, TokenOf(authorization).value, jose)
    ensures d.outcome.Admit? ==> |d.calls| == 3
  {
    var token := TokenOf(authorization);
    if TokenMissing(token) then
      Decision(Reject(Unauthorized, MissingMessage), [])
    else
      var t := token.value;
      var header := jose.decode(t);
      if HeaderUnusable(header) then
        Decision(Reject(Unauthorized, InvalidMessage), [DecodeCall(t)])
      else
        var kid := header.value.kid;
        match GetSigningKey(jose, kid)
        case Failure(_) =>
          Decision(Reject(Unauthorized, VerificationFailedMessage), [DecodeCall(t), LookupCall(kid)])
        case Success(key) =>
          var calls := [DecodeCall(t), LookupCall(kid), VerifyCall(t, key, AllowedAlgorithms)];
          match jose.verify(t, key, AllowedAlgorithms)
          case Failure(_) => Decision(Reject(Unauthorized, InvalidMessage), calls)
          case Success(claims) => Decision(Admit(claims), calls)
  }

  /** Every step succeeded: a token was found, its header decodes with a
      truthy `kid`, the key set has that key, and the token verifies under
      the selected key with RS256 only, giving `claims`. */
  ghost predicate AllStepsSucceed(authorization: Option<string>, jose: Jose, claims: Claims)
  {
    var token := TokenOf(authorization);
    !TokenMissing(token) &&
    !HeaderUnusable(jose.decode(token.value)) &&
    jose.getSigningKey(jose.decode(token.value).value.kid).Success? &&
    jose.verify(token.value,
                SelectKey(jose.getSigningKey(jose.decode(token.value).value.kid).value),
                AllowedAlgorithms) == Success(claims)
  }

  // ---------------------------------------------------------------------
  // Which failure gives which response, and what is never reached

  /** 'Token missing or invalid' exactly when the header is absent, has no
      space, or has an empty second field; no library call is made then. */
  lemma MissingTokenRejected(authorization: Option<string>, jose: Jose)
    ensures Gate(authorization, jose).outcome == Reject(Unauthorized, MissingMessage) <==>
            authorization.None? || ' ' !in authorization.value || TokenOf(authorization) == Some("")
    ensures Gate(authorization, jose).outcome == Reject(Unauthorized, MissingMessage) ==>
            Gate(authorization, jose).calls == []
  {
    TokenAbsentIff(authorization);
  }

  /** A token whose unverified header does not decode, or has no truthy
      `kid`, gets 'Invalid token' after the decode alone: no key lookup. */
  lemma UndecodableTokenRejected(authorization: Option<string>, jose: Jose)
    requires !TokenMissing(TokenOf(authorization))
    requires HeaderUnusable(jose.decode(TokenOf(authorization).value))
    ensures Gate(authorization, jose).outcome == Reject(Unauthorized, InvalidMessage)
    ensures Gate(authorization, jose).calls == [DecodeCall(TokenOf(authorization).value)]
  {
  }

  /** A `kid` the key set cannot resolve gets 'Token verification failed',
      and verification is never attempted. */
  lemma UnknownKeyRejected(authorization: Option<string>, jose: Jose)
    requires !TokenMissing(TokenOf(authorization))
    requires !HeaderUnusable(jose.decode(TokenOf(authorization).value))
    requires jose.getSigningKey(jose.decode(TokenOf(authorization).value).value.kid).Failure?
    ensures Gate(authorization, jose).outcome == Reject(Unauthorized, VerificationFailedMessage)
    ensures forall c :: c in Gate(authorization, jose).calls ==> !c.VerifyCall?
  {
  }

  /** A resolved key under which the token does not verify (RS256 only)
      gets 'Invalid token'. */
  lemma UnverifiedTokenRejected(authorization: Option<string>, jose: Jose)
    requires !TokenMissing(TokenOf(authorization))
    requires !HeaderUnusable(jose.decode(TokenOf(authorization).value))
    requires jose.getSigningKey(jose.decode(TokenOf(authorization).value).value.kid).Success?
    requires jose.verify(TokenOf(authorization).value,
                         SelectKey(jose.getSigningKey(jose.decode(TokenOf(authorization).value).value.kid).value),
                         AllowedAlgorithms).Failure?
    ensures Gate(authorization, jose).outcome == Reject(Unauthorized, InvalidMessage)
    ensures |Gate(authorization, jose).calls| == 3
  {
  }

  /** A request is admitted, with claims `claims`, exactly when every step
      succeeded and verification produced those claims. */
  lemma AdmittedIffAllStepsSucceed(authorization: Option<string>, jose: Jose, claims: Claims)
    ensures Gate(authorization, jose).outcome == Admit(claims) <==>
            AllStepsSucceed(authorization, jose, claims)
  {
  }

  /** The three messages partition the rejections by the step that failed:
      a later step's message is never given for an earlier failure. */
  lemma RejectionMessages(authorization: Option<string>, jose: Jose)
    ensures var o := Gate(authorization, jose).outcome;
            var calls := Gate(authorization, jose).calls;
            o.Reject? ==>
              o.status == Unauthorized &&
              (o.message == MissingMessage <==> |calls| == 0) &&
              (o.message == VerificationFailedMessage <==> |calls| == 2) &&
              (o.message == InvalidMessage <==> |calls| == 1 || |calls| == 3)
  {
  }

  /** With a verifier that keeps to its allow-list, an admitted token
      declares RS256; in particular a token declaring `none` is never
      admitted, whatever its `kid`. */
  lemma AdmittedTokensUseRS256(authorization: Option<string>, jose: Jose)
    requires HonoursAllowList(jose)
    requires Gate(authorization, jose).outcome.Admit?
    ensures TokenOf(authorization).Some?
    ensures jose.decode(TokenOf(authorization).value).Some?
    ensures jose.decode(TokenOf(authorization).value).value.alg == Str("RS256")
  {
    var t := TokenOf(authorization).value;
    var key := SelectKey(jose.getSigningKey(jose.decode(t).value.kid).value);
    assert jose.verify(t, key, AllowedAlgorithms).Success?;
  }

  /** The decision depends on the header only through the extracted token. */
  lemma SameTokenSameDecision(h1: Option<string>, h2: Option<string>, jose: Jose)
    requires TokenOf(h1) == TokenOf(h2)
    ensures Gate(h1, jose) == Gate(h2, jose)
  {
  }

  /** `Basic abc` is treated exactly like `Bearer abc`. */
  lemma SchemeWordExample(jose: Jose)
    ensures Gate(Some("Basic abc"), jose) == Gate(Some("Bearer abc"), jose)
  {
    var basic, bearer := "Basic abc", "Bearer abc";
    assert basic == "Basic" + [' '] + "abc";
    assert bearer == "Bearer" + [' '] + "abc";
    SchemeIgnored("Basic", "Bearer", "abc");
    SameTokenSameDecision(Some(basic), Some(bearer), jose);
  }

  /** `Bearer  x` (two spaces) has an empty second field and is rejected as
      a missing token. */
  lemma DoubleSpaceExample(jose: Jose)
    ensures TokenOf(Some("Bearer  x")) == Some("")
    ensures Gate(Some("Bearer  x"), jose).outcome == Reject(Unauthorized, MissingMessage)
    ensures Gate(Some("Bearer  x"), jose).calls == []
  {
    var h := "Bearer  x";
    assert h == "Bearer" + [' '] + "" + " x";
    TokenShape("Bearer", "", " x");
    assert TokenOf(Some(h)) == Some("");
  }

  // ---------------------------------------------------------------------
  // checkJwt acting on the request and the response

  /** The part of Express's `req` the gate touches. */
  class Request {
    const authorization: Option<string>
    var user: Option<Claims>

    constructor (authorization: Option<string>)
      ensures this.authorization == authorization && user == None
    {
      this.authorization := authorization;
      user := None;
    }
  }

  /** The part of Express's `res` the gate touches: the status and the
      `message` of the JSON body sent, if any. */
  class Response {
    var statusCode: nat
    var message: Option<string>

    constructor ()
      ensures statusCode == 200 && message == None
    {
      statusCode := 200;
      message := None;
    }
  }

  /** The middleware itself, step by step with early returns. It returns
      whether `next()` is called. On admission it sets `req.user` and leaves
      the response alone; on rejection it sends 401 with the message and
      leaves `req.user` alone. */
  method CheckJwt(req: Request, res: Response, jose: Jose) returns (callsNext: bool)
    modifies req`user, res
    ensures var o := Gate(req.authorization, jose).outcome;
            callsNext <==> o.Admit?
    ensures var o := Gate(req.authorization, jose).outcome;
            o.Admit? ==> req.user == Some(o.claims) && unchanged(res)
    ensures var o := Gate(req.authorization, jose).outcome;
            o.Reject? ==> req.user == old(req.user) &&
                          res.statusCode == Unauthorized && res.message == Some(o.message)
  {
    var token := TokenOf(req.authorization);
    if TokenMissing(token) {
      res.statusCode, res.message := Unauthorized, Some(MissingMessage);
      return false;
    }
    var header := jose.decode(token.value);
    if HeaderUnusable(header) {
      res.statusCode, res.message := Unauthorized, Some(InvalidMessage);
      return false;
    }
    var kid := header.value.kid;
    var publicKey := GetSigningKey(jose, kid);
    if publicKey.Failure? {
      res.statusCode, res.message := Unauthorized, Some(VerificationFailedMessage);
      return false;
    }
    var verified := jose.verify(token.value, publicKey.value, AllowedAlgorithms);
    if verified.Failure? {
      res.statusCode, res.message := Unauthorized, Some(InvalidMessage);
      return false;
    }
    req.user := Some(verified.value);
    callsNext := true;
  }
}
