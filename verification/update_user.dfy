/** The `POST /api/admin/update-user` handler: it requires an id and a
  * password, sends only the password to the identity provider, and checks
  * neither the caller's session nor their role itself. */
module UpdateUser {

  import opened Text
  import opened Http
  import Proxy

  /** The JSON body as the staff form sends it. */
  datatype UpdateRequest = UpdateRequest(
    id: Option<string>, password: Option<string>, name: Option<string>,
    email: Option<string>, mobile: Option<string>, role: Option<string>)

  /** The only call: a password update of one identity record. */
  datatype Call = UpdatePassword(id: string, password: string)

  datatype Body = Error(error: string) | Updated(success: bool, message: string)

  datatype Outcome = Outcome(reply: Reply<Body>, calls: seq<Call>)

  const Path := "/api/admin/update-user"

  /** `updateError`: the identity update's error message, if it fails. */
  function Update(req: UpdateRequest, updateError: Option<string>): (r: Outcome)
    ensures !(Truthy(req.id) && Truthy(req.password)) <==>
              r.reply == Reply(400, Error("User ID and Password are required"))
    ensures !(Truthy(req.id) && Truthy(req.password)) ==> r.calls == []
    ensures Truthy(req.id) && Truthy(req.password) ==> r.calls == [UpdatePassword(req.id.value, req.password.value)]
    ensures r.reply.status == 200 <==> Truthy(req.id) && Truthy(req.password) && updateError.None?
    ensures r.reply.status == 200 ==> r.reply.body == Updated(true, "Password updated successfully")
    ensures r.reply.status == 500 <==> Truthy(req.id) && Truthy(req.password) && updateError.Some?
    ensures r.reply.status == 500 ==> r.reply.body == Error(CaughtMessage(updateError.value, "Internal Server Error"))
  {
    if !Truthy(req.id) || !Truthy(req.password) then
      Outcome(Reply(400, Error("User ID and Password are required")), [])
    else
      var call := UpdatePassword(req.id.value, req.password.value);
      match updateError
      case Some(message) => Outcome(Reply(500, Error(CaughtMessage(message, "Internal Server Error"))), [call])
      case None => Outcome(Reply(200, Updated(true, "Password updated successfully")), [call])
  }

  /** Name, e-mail, mobile and role in the body change nothing: two requests
    * with the same id and password are handled identically. */
  lemma ProfileFieldsIgnored(a: UpdateRequest, b: UpdateRequest, updateError: Option<string>)
    requires a.id == b.id && a.password == b.password
    ensures Update(a, updateError) == Update(b, updateError)
  {
  }

  /** The middleware's no-session check is the only guard on this route: any
    * signed-in caller, whatever their role, reaches the handler, and a body
    * with an id and a password updates that identity's password. */
  lemma OnlySessionGuardsPasswordReset(req: UpdateRequest, updateError: Option<string>)
    ensures Proxy.Route(Path, false) == Proxy.Unauthorized
    ensures Proxy.Route(Path, true) == Proxy.Pass
    ensures Truthy(req.id) && Truthy(req.password) ==>
              Update(req, updateError).calls == [UpdatePassword(req.id.value, req.password.value)]
  {
    assert StartsWith(Path, "/api/admin");
    Proxy.PathClassesExclusive(Path);
  }
}
