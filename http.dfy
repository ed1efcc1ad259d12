/** What a middleware of the HTTP layer sees and decides: the request fields
    the guards read and write, the token-verification oracle, and the three
    ways a middleware can end (call `next`, answer, or let an exception
    escape to the framework). */
module Http {
  import opened Base

  /** The claims a verified token decodes to (`req.user`). */
  datatype Claims = Claims(id: Option<int>, userId: Option<int>, role: string)

  /** A stored user or driver record (`req.userData`). */
  datatype Profile = Profile(id: int, nom: string)

  datatype Request = Request(
    authorization: Option<string>,
    user: Option<Claims>,
    userData: Option<Profile>)

  /** `jwt.verify` with the server secret: the tokens it accepts and what each
      decodes to. A token outside the map makes `jwt.verify` throw; the empty
      token is always refused. */
  type Verifier = v: map<string, Claims> | "" !in v witness map[]

  datatype FieldError = FieldError(field: string, msg: string)

  datatype ReplyBody = Error(text: string) | Errors(list: seq<FieldError>)

  datatype Reply = Reply(status: nat, body: ReplyBody)

  /** `Next`: the middleware called `next()`. `Respond`: it answered.
      `Throw`: an exception escaped it and the framework answers 500. */
  datatype Outcome = Next | Respond(reply: Reply) | Throw

  /** A middleware's outcome together with the request as it leaves it. */
  datatype Step = Step(outcome: Outcome, req: Request)

  const Secretaire := "secretaire"
  const Chauffeur := "chauffeur"
  const Admin := "admin"
  const BearerPrefix := "Bearer "

  /** The claims a request's token verifies to: the text after the
      `Bearer ` prefix, looked up in the verifier. */
  function TokenClaims(req: Request, verify: Verifier): Option<Claims>
  {
    if req.authorization.Some? && StartsWith(req.authorization.value, BearerPrefix)
       && req.authorization.value[|BearerPrefix|..] in verify
    then Some(verify[req.authorization.value[|BearerPrefix|..]])
    else None
  }

  /** The header carries `token` exactly when it is `"Bearer " + token`. */
  lemma {:induction false} BearerShape(header: string, token: string)
    ensures (StartsWith(header, BearerPrefix) && header[|BearerPrefix|..] == token)
            <==> header == BearerPrefix + token
  {
    if header == BearerPrefix + token {
      assert header[..|BearerPrefix|] == BearerPrefix;
      assert header[|BearerPrefix|..] == token;
    }
    if StartsWith(header, BearerPrefix) && header[|BearerPrefix|..] == token {
      assert header == header[..|BearerPrefix|] + header[|BearerPrefix|..];
    }
  }
}
