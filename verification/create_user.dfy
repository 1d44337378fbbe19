/** The `POST /api/admin/create-user` handler: session and admin checks,
  * required fields, role normalisation, creation of the identity record,
  * and the profile-row insert that runs only when no row was synchronised
  * for the new identity already. */
module CreateUser {

  import opened Text
  import opened Http
  import opened Database

  /** The JSON body; every field may be missing. */
  datatype CreateRequest = CreateRequest(
    email: Option<string>, password: Option<string>, name: Option<string>,
    role: Option<string>, mobile: Option<string>)

  /** `user_metadata` of the new identity record. */
  datatype Metadata = Metadata(name: Option<string>, role: UserRole, mobile: Option<string>)

  /** The profile row inserted into `users`. */
  datatype ProfileRow = ProfileRow(id: string, email: string, name: Option<string>, role: UserRole, mobile: Option<string>)

  /** The calls this handler makes with the privileged client, in order. */
  datatype Call =
    | CreateIdentity(email: string, password: string, emailConfirm: bool, metadata: Metadata)
    | FindProfile(id: string)
    | InsertProfile(row: ProfileRow)

  datatype Body = Error(error: string) | Created(id: string)

  datatype Outcome = Outcome(reply: Reply<Body>, calls: seq<Call>)

  const ProfileFailure := "Failed to create user profile in database"

  /** The role written for a requested role: ADMIN and MANAGER are kept,
    * anything else (missing, "USER", "admin", ...) becomes USER. */
  function NormaliseRole(role: Option<string>): (r: UserRole)
    ensures role.Some? && ParseRole(role.value) == Some(Admin) ==> r == Admin
    ensures role.Some? && ParseRole(role.value) == Some(Manager) ==> r == Manager
    ensures r != User ==> role == Some(RoleName(r))
  {
    if role == Some("ADMIN") then Admin
    else if role == Some("MANAGER") then Manager
    else User
  }

  /** The caller passes the session and admin checks and supplies both required fields. */
  predicate Admitted(signedIn: bool, callerRole: Option<string>, req: CreateRequest)
  {
    signedIn && callerRole == Some(RoleName(Admin)) && Truthy(req.email) && Truthy(req.password)
  }

  /** The identity-creation call for an admitted request. */
  function IdentityCall(req: CreateRequest): Call
    requires Truthy(req.email) && Truthy(req.password)
  {
    CreateIdentity(req.email.value, req.password.value, true,
                   Metadata(req.name, NormaliseRole(req.role), req.mobile))
  }

  /**
    * `signedIn`: the session resolves to a user. `callerRole`: the caller's
    * profile role, `None` when the lookup fails. `identity`: the new
    * identity's id, or the provider's error. `profileExists`: a row with that
    * id is already present. `insertError`: the profile insert fails.
    */
  function Create(signedIn: bool, callerRole: Option<string>, req: CreateRequest,
                  identity: Result<string>, profileExists: bool, insertError: bool): (r: Outcome)
    // Guards: nothing is created unless all of them pass.
    ensures !signedIn <==> r.reply == Reply(401, Error("Unauthorized"))
    ensures signedIn && callerRole != Some("ADMIN") <==> r.reply.status == 403
    ensures !Admitted(signedIn, callerRole, req) <==> r.calls == []
    ensures r.reply.status == 403 ==> r.reply.body == Error("Forbidden: Admin access required")
    // The identity is created first, with the normalised role.
    ensures Admitted(signedIn, callerRole, req) ==> r.calls[0] == IdentityCall(req)
    // A provider error stops the request before any profile lookup.
    ensures Admitted(signedIn, callerRole, req) && identity.Err? ==>
              r == Outcome(Reply(400, Error(identity.message)), [IdentityCall(req)])
    // The profile row is inserted only when none exists, with the same role as the identity.
    ensures forall i :: 0 <= i < |r.calls| && r.calls[i].InsertProfile? ==>
              identity.Ok? && !profileExists &&
              r.calls[i].row == ProfileRow(identity.value, req.email.value, req.name, r.calls[0].metadata.role, req.mobile)
    ensures Admitted(signedIn, callerRole, req) && identity.Ok? ==>
              2 <= |r.calls| && r.calls[..2] == [IdentityCall(req), FindProfile(identity.value)]
              && (|r.calls| == 3 <==> !profileExists)
    ensures |r.calls| <= 3
    // Replies after the identity exists.
    ensures r.reply.status == 200 <==> Admitted(signedIn, callerRole, req) && identity.Ok? && (profileExists || !insertError)
    ensures r.reply.status == 200 ==> r.reply.body == Created(identity.value)
    ensures r.reply.status == 500 <==> Admitted(signedIn, callerRole, req) && identity.Ok? && !profileExists && insertError
    ensures r.reply.status == 500 ==> r.reply.body == Error(ProfileFailure)
  {
    if !signedIn then
      Outcome(Reply(401, Error("Unauthorized")), [])
    else if callerRole != Some("ADMIN") then
      Outcome(Reply(403, Error("Forbidden: Admin access required")), [])
    else if !Truthy(req.email) || !Truthy(req.password) then
      Outcome(Reply(400, Error("Email and password are required")), [])
    else
      var dbRole := NormaliseRole(req.role);
      var create := CreateIdentity(req.email.value, req.password.value, true, Metadata(req.name, dbRole, req.mobile));
      match identity
      case Err(message) =>
        Outcome(Reply(400, Error(message)), [create])
      case Ok(newId) =>
        var lookup := [create, FindProfile(newId)];
        if profileExists then
          Outcome(Reply(200, Created(newId)), lookup)
        else
          var insert := lookup + [InsertProfile(ProfileRow(newId, req.email.value, req.name, dbRole, req.mobile))];
          if insertError then Outcome(Reply(500, Error(CaughtMessage(ProfileFailure, "Internal Server Error"))), insert)
          else Outcome(Reply(200, Created(newId)), insert)
  }

  /** Every role outside ADMIN and MANAGER, including lower-case spellings, is stored as USER. */
  lemma NormaliseRoleDefaults()
    ensures NormaliseRole(None) == User
    ensures NormaliseRole(Some("USER")) == User
    ensures NormaliseRole(Some("admin")) == User
    ensures NormaliseRole(Some("Manager")) == User
    ensures forall r :: NormaliseRole(Some(RoleName(r))) == r
  {
  }

  /** A missing or empty e-mail or password is refused before any call. */
  lemma MissingCredentialsRefused(callerRole: Option<string>, req: CreateRequest, identity: Result<string>,
                                  profileExists: bool, insertError: bool)
    requires callerRole == Some("ADMIN")
    requires !Truthy(req.email) || !Truthy(req.password)
    ensures Create(true, callerRole, req, identity, profileExists, insertError)
              == Outcome(Reply(400, Error("Email and password are required")), [])
  {
  }
}
