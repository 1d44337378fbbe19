/** The enumerations of the database schema (types/database.ts). */
module Database {

  import opened Text

  /** `UserRole`: the `role` column of a profile row. */
  datatype UserRole = Admin | Manager | User

  /** `JobStatus`: the `status` column of a job. No handler sets `Pause`. */
  datatype JobStatus = Pending | InProgress | Pause | Completed

  /** The text stored in the `role` column. */
  function RoleName(r: UserRole): string
  {
    match r
    case Admin => "ADMIN"
    case Manager => "MANAGER"
    case User => "USER"
  }

  /** Reads the `role` column back; text outside the enumeration is `None`. */
  function ParseRole(s: string): (r: Option<UserRole>)
    ensures r.Some? ==> RoleName(r.value) == s
    ensures r.None? ==> forall u: UserRole :: RoleName(u) != s
  {
    if s == "ADMIN" then Some(Admin)
    else if s == "MANAGER" then Some(Manager)
    else if s == "USER" then Some(User)
    else None
  }

  /** Writing a role and reading it back gives the same role. */
  lemma ParseRoleName(r: UserRole)
    ensures ParseRole(RoleName(r)) == Some(r)
  {
  }
}
