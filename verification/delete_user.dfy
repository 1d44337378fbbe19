/** The `DELETE /api/admin/delete-user` handler: session and admin checks,
  * the identity deletion, and the classification of its errors by message
  * text, with a fall-back that removes a profile row whose identity record
  * is already gone. */
module DeleteUser {

  import opened Text
  import opened Http
  import Database

  datatype Body = Error(error: string) | Message(message: string)

  /** The writes this handler asks the hosted service for, in order. */
  datatype Call = DeleteIdentity(id: string) | DeleteProfile(id: string)

  datatype Outcome = Outcome(reply: Reply<Body>, calls: seq<Call>)

  const ActiveJobsMessage := "Cannot delete user: This user has active production jobs. Please reassign their jobs first."
  const ReferencedMessage := "Cannot delete user: This user is referenced in existing jobs."

  /** The lower-cased error text contains `phrase`. */
  predicate Mentions(message: string, phrase: string)
    ensures Mentions(message, phrase) <==> exists i :: OccursAt(Lower(message), phrase, i)
  {
    ContainsAt(Lower(message), phrase);
    Contains(Lower(message), phrase)
  }

  /** The caller passes both guards and names a user to delete. */
  predicate Admitted(signedIn: bool, callerRole: Option<string>, id: Option<string>)
  {
    signedIn && callerRole == Some(Database.RoleName(Database.Admin)) && Truthy(id)
  }

  /** The identity record is already gone: only the profile row is left. */
  predicate GhostPath(identityError: Option<string>)
  {
    identityError.Some? && Mentions(identityError.value, "user not found")
  }

  /**
    * `signedIn`: the session cookie resolves to a user. `callerRole`: the
    * caller's profile role, `None` when the row is missing. `id`: the body's
    * `id`. `identityError` and `profileError`: the error messages of the
    * identity deletion and of the profile-row deletion, if those calls are
    * made and fail.
    */
  function Delete(signedIn: bool, callerRole: Option<string>, id: Option<string>,
                  identityError: Option<string>, profileError: Option<string>): (r: Outcome)
    // The guards, in order, and no write before all of them pass.
    ensures !signedIn <==> r.reply.status == 401
    ensures signedIn && callerRole != Some("ADMIN") <==> r.reply.status == 403
    ensures !Admitted(signedIn, callerRole, id) <==> r.calls == []
    // The identity is always deleted first; the profile row only on the ghost path.
    ensures Admitted(signedIn, callerRole, id) ==> r.calls[0] == DeleteIdentity(id.value)
    ensures |r.calls| == 2 <==> Admitted(signedIn, callerRole, id) && GhostPath(identityError)
    ensures |r.calls| == 2 ==> r.calls[1] == DeleteProfile(id.value)
    ensures |r.calls| <= 2
    // Success, and every error after the guards that is not a foreign-key error, is decided by the calls.
    ensures r.reply.status == 200 <==>
              Admitted(signedIn, callerRole, id) && (identityError.None? || (GhostPath(identityError) && profileError.None?))
    ensures r.reply.status == 500 ==> Admitted(signedIn, callerRole, id) && identityError.Some?
    ensures r.reply.status in {200, 400, 401, 403, 500}
  {
    if !signedIn then
      Outcome(Reply(401, Error("Unauthorized")), [])
    else if callerRole.None? || callerRole.value != "ADMIN" then
      Outcome(Reply(403, Error("Access Denied: Admin privileges required")), [])
    else if !Truthy(id) then
      Outcome(Reply(400, Error("User ID is required")), [])
    else
      var target := id.value;
      match identityError
      case None =>
        Outcome(Reply(200, Message("User deleted successfully")), [DeleteIdentity(target)])
      case Some(authMessage) =>
        if Mentions(authMessage, "user not found") then
          var calls := [DeleteIdentity(target), DeleteProfile(target)];
          match profileError
          case None =>
            Outcome(Reply(200, Message("Database-only user record cleaned up successfully")), calls)
          case Some(dbMessage) =>
            if Mentions(dbMessage, "foreign key") then Outcome(Reply(400, Error(ActiveJobsMessage)), calls)
            else Outcome(Reply(500, Error(CaughtMessage(dbMessage, "Failed to delete user"))), calls)
        else if Mentions(authMessage, "foreign key") then
          Outcome(Reply(400, Error(ReferencedMessage)), [DeleteIdentity(target)])
        else
          Outcome(Reply(500, Error(CaughtMessage(authMessage, "Failed to delete user"))), [DeleteIdentity(target)])
  }

  /** The three guard replies, each given exactly when its guard is the first to fail. */
  lemma DeleteGuardReplies(signedIn: bool, callerRole: Option<string>, id: Option<string>,
                           identityError: Option<string>, profileError: Option<string>)
    ensures var r := Delete(signedIn, callerRole, id, identityError, profileError);
      && (!signedIn <==> r.reply == Reply(401, Error("Unauthorized")))
      && (signedIn && callerRole != Some("ADMIN") <==>
            r.reply == Reply(403, Error("Access Denied: Admin privileges required")))
      && (signedIn && callerRole == Some("ADMIN") && !Truthy(id) <==>
            r.reply == Reply(400, Error("User ID is required")))
  {
  }

  /** The two success messages tell a full deletion from a ghost clean-up. */
  lemma DeleteSuccessReplies(signedIn: bool, callerRole: Option<string>, id: Option<string>,
                             identityError: Option<string>, profileError: Option<string>)
    ensures var r := Delete(signedIn, callerRole, id, identityError, profileError);
      && (r.reply == Reply(200, Message("User deleted successfully")) <==>
            Admitted(signedIn, callerRole, id) && identityError.None?)
      && (r.reply == Reply(200, Message("Database-only user record cleaned up successfully")) <==>
            Admitted(signedIn, callerRole, id) && GhostPath(identityError) && profileError.None?)
  {
  }

  /** A foreign-key error is a 400 with a message that depends on which
    * deletion reported it; "user not found" is tested first. */
  lemma DeleteForeignKeyReplies(signedIn: bool, callerRole: Option<string>, id: Option<string>,
                                identityError: Option<string>, profileError: Option<string>)
    ensures var r := Delete(signedIn, callerRole, id, identityError, profileError);
      && (r.reply == Reply(400, Error(ActiveJobsMessage)) <==>
            Admitted(signedIn, callerRole, id) && GhostPath(identityError)
            && profileError.Some? && Mentions(profileError.value, "foreign key"))
      && (r.reply == Reply(400, Error(ReferencedMessage)) <==>
            Admitted(signedIn, callerRole, id) && !GhostPath(identityError)
            && identityError.Some? && Mentions(identityError.value, "foreign key"))
  {
  }

  /** Every other failure is a 500 carrying the failing call's message,
    * or "Failed to delete user" when that message is empty. */
  lemma DeleteServerErrors(signedIn: bool, callerRole: Option<string>, id: Option<string>,
                           identityError: Option<string>, profileError: Option<string>)
    ensures var r := Delete(signedIn, callerRole, id, identityError, profileError);
      && (r.reply.status == 500 && GhostPath(identityError) ==>
            profileError.Some? && !Mentions(profileError.value, "foreign key")
            && r.reply.body == Error(CaughtMessage(profileError.value, "Failed to delete user")))
      && (r.reply.status == 500 && !GhostPath(identityError) ==>
            identityError.Some? && !Mentions(identityError.value, "foreign key")
            && r.reply.body == Error(CaughtMessage(identityError.value, "Failed to delete user")))
  {
  }

  /** A manager is refused exactly like an unprivileged user. */
  lemma ManagerCannotDelete(id: Option<string>, identityError: Option<string>, profileError: Option<string>)
    ensures Delete(true, Some(Database.RoleName(Database.Manager)), id, identityError, profileError).reply.status == 403
    ensures Delete(true, Some(Database.RoleName(Database.Manager)), id, identityError, profileError).calls == []
  {
  }

  /** A message that mentions both phrases takes the ghost path: the profile
    * row is deleted and the "referenced in existing jobs" reply is never given. */
  lemma NotFoundBeforeForeignKey(id: string, identityError: string, profileError: Option<string>)
    requires id != ""
    requires Mentions(identityError, "user not found") && Mentions(identityError, "foreign key")
    ensures Delete(true, Some("ADMIN"), Some(id), Some(identityError), profileError).calls
              == [DeleteIdentity(id), DeleteProfile(id)]
    ensures Delete(true, Some("ADMIN"), Some(id), Some(identityError), profileError).reply
              != Reply(400, Error(ReferencedMessage))
  {
  }

  /** The lookup is case-insensitive in ASCII: the provider's "User not found" takes the ghost path. */
  lemma ProviderWordingIsGhost()
    ensures GhostPath(Some("User not found"))
  {
    assert Lower("User not found") == "user not found";
    assert StartsWith(Lower("User not found"), "user not found");
  }
}
