/** `requireAdmin` of backend/src/middleware/adminAuth.js: token check and role
    check in one middleware. */
module AdminAuth {
  import opened Base
  import opened Http
  import Auth

  const AdminOnly := "Accès réservé aux administrateurs"

  function RequireAdmin(req: Request, verify: Verifier): (r: Step)
    ensures r.outcome.Next? || r.req == req
  {
    if req.authorization.None? || !StartsWith(req.authorization.value, BearerPrefix) then
      Step(Respond(Reply(401, Error(Auth.TokenMissing))), req)
    else
      var token := req.authorization.value[7..];
      if token !in verify then Step(Respond(Reply(401, Error(Auth.TokenInvalid))), req)
      else if verify[token].role != Admin then Step(Respond(Reply(403, Error(AdminOnly))), req)
      else Step(Next, req.(user := Some(verify[token])))
  }

  /** Only a verified admin token passes, and `req.user` is then its claims.
      A verified non-admin token gets 403 and `req.user` is not set; an
      unverified token gets 401, a missing one 401 "Token non fourni". */
  lemma RequireAdminSpec(req: Request, verify: Verifier)
    ensures var r := RequireAdmin(req, verify);
      var c := TokenClaims(req, verify);
      (r.outcome.Next? <==> c.Some? && c.value.role == Admin)
      && (r.outcome.Next? ==> r.req == req.(user := c))
      && (c.Some? && c.value.role != Admin ==> r == Step(Respond(Reply(403, Error(AdminOnly))), req))
      && (c.None? ==> r.outcome.Respond? && r.outcome.reply.status == 401)
  {
  }

  /** An admin token passes `requireAdmin` exactly as it passes `verifyToken`,
      and every other role that `verifyToken` lets through is refused. */
  lemma RequireAdminRefinesVerifyToken(req: Request, verify: Verifier)
    ensures RequireAdmin(req, verify).outcome.Next? ==>
              Auth.VerifyToken(req, verify) == RequireAdmin(req, verify)
    ensures !Auth.VerifyToken(req, verify).outcome.Next? ==>
              RequireAdmin(req, verify) == Auth.VerifyToken(req, verify)
  {
  }
}
