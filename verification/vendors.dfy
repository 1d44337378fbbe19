/** The `/api/vendors` route: bearer-token authorisation for ADMIN and
  * MANAGER callers, the paginated and searchable `GET`, and the `POST` that
  * validates a new vendor before inserting it. */
module Vendors {

  import opened Text
  import opened Http
  import opened Formats
  import opened Paging
  import Database

  // ---------------------------------------------------------------------
  // The Authorization header

  /** `s.split(sep)` for a one-character separator. */
  function Split(s: string, sep: char): (parts: seq<string>)
    ensures |parts| >= 1
    ensures forall i :: 0 <= i < |parts| ==> sep !in parts[i]
  {
    if s == [] then [[]]
    else
      var rest := Split(s[1..], sep);
      if s[0] == sep then [[]] + rest
      else [[s[0]] + rest[0]] + rest[1..]
  }

  /** `parts.join(sep)`. */
  function Join(parts: seq<string>, sep: char): string
    requires |parts| >= 1
  {
    if |parts| == 1 then parts[0] else parts[0] + [sep] + Join(parts[1..], sep)
  }

  /** Splitting loses nothing: joining the parts gives the header back. */
  lemma {:induction false} JoinSplit(s: string, sep: char)
    ensures Join(Split(s, sep), sep) == s
  {
    if s != [] {
      JoinSplit(s[1..], sep);
      var rest := Split(s[1..], sep);
      if s[0] != sep && |rest| > 1 {
        assert Join(rest, sep) == rest[0] + [sep] + Join(rest[1..], sep);
        assert [s[0]] + rest[0] + [sep] + Join(rest[1..], sep) == [s[0]] + Join(rest, sep);
      }
      assert [s[0]] + s[1..] == s;
    }
  }

  /** Text without the separator splits into itself... */
  lemma {:induction false} SplitWithoutSeparator(s: string, sep: char)
    requires sep !in s
    ensures Split(s, sep) == [s]
  {
    if s != [] {
      SplitWithoutSeparator(s[1..], sep);
      assert [s[0]] + s[1..] == s;
    }
  }

  /** ...and a leading separator-free word splits off as the first part. */
  lemma {:induction false} SplitAfterWord(a: string, sep: char, b: string)
    requires sep !in a
    ensures Split(a + [sep] + b, sep) == [a] + Split(b, sep)
  {
    if a != [] {
      SplitAfterWord(a[1..], sep, b);
      assert (a + [sep] + b)[1..] == a[1..] + [sep] + b;
      assert [a[0]] + a[1..] == a;
    } else {
      assert ([sep] + b)[1..] == b;
    }
  }

  /**
    * `authHeader?.split(' ')[1]`: the text between the first and the second space.
    * `BearerTokenOfHeader` states the token that a `<scheme> <token>` header yields.
    */
  function BearerToken(header: Option<string>): (token: Option<string>)
    ensures token.Some? ==> header.Some? && ' ' in header.value && ' ' !in token.value
  {
    match header
    case None => None
    case Some(h) =>
      if ' ' !in h then SplitWithoutSeparator(h, ' '); None
      else
        var parts := Split(h, ' ');
        if |parts| > 1 then Some(parts[1]) else None
  }

  /** A header `<scheme> <token>` with no other space yields the token. */
  lemma BearerTokenOfHeader(scheme: string, token: string)
    requires ' ' !in scheme && ' ' !in token
    ensures BearerToken(Some(scheme + " " + token)) == Some(token)
  {
    SplitAfterWord(scheme, ' ', token);
    SplitWithoutSeparator(token, ' ');
  }

  // ---------------------------------------------------------------------
  // verifyAuth

  datatype AuthResult = Authorized | Denied(error: string, status: int)

  /** The roles that may use this route. */
  predicate StaffManager(callerRole: Option<string>)
  {
    callerRole == Some(Database.RoleName(Database.Admin)) || callerRole == Some(Database.RoleName(Database.Manager))
  }

  /**
    * `sessionFor(t)`: the identity provider resolves token `t` to a user.
    * `callerRole`: that user's profile role, `None` when the lookup fails.
    */
  function VerifyAuth(header: Option<string>, sessionFor: string -> bool, callerRole: Option<string>): (r: AuthResult)
    ensures !Truthy(BearerToken(header)) <==> r == Denied("Unauthorized", 401)
    ensures Truthy(BearerToken(header)) && !sessionFor(BearerToken(header).value) <==>
              r == Denied("Invalid Session", 401)
    ensures r == Authorized <==>
              Truthy(BearerToken(header)) && sessionFor(BearerToken(header).value) && StaffManager(callerRole)
    ensures r.Denied? && r.status == 403 ==> r.error == "Forbidden: Admin access required"
    ensures r.Denied? ==> r.status in {401, 403}
  {
    var token := BearerToken(header);
    if !Truthy(token) then Denied("Unauthorized", 401)
    else if !sessionFor(token.value) then Denied("Invalid Session", 401)
    else if !(callerRole == Some("ADMIN") || callerRole == Some("MANAGER")) then
      Denied("Forbidden: Admin access required", 403)
    else Authorized
  }

  // ---------------------------------------------------------------------
  // GET

  datatype ListBody = ListError(error: string) | ListPage(count: Option<nat>, page: int, limit: int, totalPages: Option<int>)

  datatype ListOutcome = ListOutcome(reply: Reply<ListBody>, query: Option<Query>)

  /**
    * `page`, `limit`: the integers parsed from the query string, `None` when
    * the parameter is missing or empty. `search`: the search parameter.
    * `result`: the row count the query reports (`None` for null), or its error.
    */
  function List(header: Option<string>, sessionFor: string -> bool, callerRole: Option<string>,
                page: Option<int>, limit: Option<int>, search: Option<string>,
                result: Result<Option<nat>>): (r: ListOutcome)
    ensures VerifyAuth(header, sessionFor, callerRole).Denied? ==>
              var d := VerifyAuth(header, sessionFor, callerRole);
              r == ListOutcome(Reply(d.status, ListError(d.error)), None)
    ensures r.query.Some? <==> VerifyAuth(header, sessionFor, callerRole) == Authorized
    // Defaults 1 and 10, and a range of exactly `limit` rows.
    ensures r.query.Some? ==>
              var p := if page.Some? then page.value else 1;
              var l := if limit.Some? then limit.value else 10;
              r.query.value.start == (p - 1) * l && r.query.value.end - r.query.value.start + 1 == l
    ensures r.query.Some? ==> (r.query.value.search.Some? <==> Truthy(search))
    ensures r.query.Some? && Truthy(search) ==> r.query.value.search == search
    ensures r.reply.status == 200 <==> r.query.Some? && result.Ok?
    // The page count is the ceiling of the row count (null counted as 0) over the limit.
    ensures r.reply.status == 200 ==>
              var count := if result.value.Some? then result.value.value else 0;
              r.reply.body.ListPage? && r.reply.body.count == result.value &&
              r.reply.body.page == (if page.Some? then page.value else 1) &&
              r.reply.body.limit == (if limit.Some? then limit.value else 10) &&
              r.reply.body.totalPages == CeilDiv(count, r.reply.body.limit)
    ensures r.query.Some? && result.Err? ==> r.reply == Reply(500, ListError(result.message))
  {
    var auth := VerifyAuth(header, sessionFor, callerRole);
    if auth.Denied? then ListOutcome(Reply(auth.status, ListError(auth.error)), None)
    else
      var p := if page.Some? then page.value else 1;
      var l := if limit.Some? then limit.value else 10;
      var query := Query(if Truthy(search) then search else None, RangeStart(p, l), RangeEnd(p, l));
      match result
      case Err(message) => ListOutcome(Reply(500, ListError(message)), Some(query))
      case Ok(count) =>
        var total := CeilDiv(if count.Some? then count.value else 0, l);
        ListOutcome(Reply(200, ListPage(count, p, l, total)), Some(query))
  }

  // ---------------------------------------------------------------------
  // POST

  /** The JSON body of a new vendor. */
  datatype VendorRequest = VendorRequest(
    studioName: Option<string>, contactPerson: Option<string>, mobile: Option<string>,
    email: Option<string>, location: Option<string>, notes: Option<string>)

  /** The row inserted into `vendors`. */
  datatype VendorRow = VendorRow(
    studioName: string, contactPerson: string, mobile: string,
    email: Option<string>, location: Option<string>, notes: Option<string>)

  datatype CreateBody = CreateError(error: string) | Vendor(id: string, row: VendorRow)

  datatype CreateOutcome = CreateOutcome(reply: Reply<CreateBody>, inserted: Option<VendorRow>)

  const MissingFields := "Missing required fields: studio_name, contact_person, mobile"
  const BadMobile := "Invalid mobile number format. Must be 10 digits."
  const BadEmail := "Invalid email format"

  predicate HasRequired(req: VendorRequest)
  {
    Truthy(req.studioName) && Truthy(req.contactPerson) && Truthy(req.mobile)
  }

  /** The body passes every check of `POST`, in order. */
  predicate ValidVendor(req: VendorRequest)
  {
    HasRequired(req) && IsMobile(req.mobile.value) && (Truthy(req.email) ==> IsEmail(req.email.value))
  }

  /** `insert`: the new row's id, or the insert's error. */
  function Create(header: Option<string>, sessionFor: string -> bool, callerRole: Option<string>,
                  req: VendorRequest, insert: Result<string>): (r: CreateOutcome)
    ensures r.inserted.Some? <==> VerifyAuth(header, sessionFor, callerRole) == Authorized && ValidVendor(req)
    // An authorisation failure is returned as it is.
    ensures VerifyAuth(header, sessionFor, callerRole).Denied? ==>
              var d := VerifyAuth(header, sessionFor, callerRole);
              r.reply == Reply(d.status, CreateError(d.error))
    // The checks run in order and the first failure decides the reply.
    ensures VerifyAuth(header, sessionFor, callerRole) == Authorized ==>
              && (!HasRequired(req) ==> r.reply == Reply(400, CreateError(MissingFields)))
              && (HasRequired(req) && !IsMobile(req.mobile.value) ==> r.reply == Reply(400, CreateError(BadMobile)))
              && (HasRequired(req) && IsMobile(req.mobile.value) && Truthy(req.email) && !IsEmail(req.email.value) ==>
                    r.reply == Reply(400, CreateError(BadEmail)))
    // Missing optional fields are stored as null.
    ensures r.inserted.Some? ==>
              r.inserted.value == VendorRow(req.studioName.value, req.contactPerson.value, req.mobile.value,
                                            OrNull(req.email), OrNull(req.location), OrNull(req.notes))
    ensures r.reply.status == 201 <==> r.inserted.Some? && insert.Ok?
    ensures r.reply.status == 201 ==> r.reply.body == Vendor(insert.value, r.inserted.value)
    ensures r.reply.status == 500 <==> r.inserted.Some? && insert.Err?
    ensures r.reply.status == 500 ==> r.reply.body == CreateError(insert.message)
  {
    var auth := VerifyAuth(header, sessionFor, callerRole);
    if auth.Denied? then CreateOutcome(Reply(auth.status, CreateError(auth.error)), None)
    else if !HasRequired(req) then CreateOutcome(Reply(400, CreateError(MissingFields)), None)
    else if !IsMobile(req.mobile.value) then CreateOutcome(Reply(400, CreateError(BadMobile)), None)
    else if Truthy(req.email) && !IsEmail(req.email.value) then CreateOutcome(Reply(400, CreateError(BadEmail)), None)
    else
      var row := VendorRow(req.studioName.value, req.contactPerson.value, req.mobile.value,
                           OrNull(req.email), OrNull(req.location), OrNull(req.notes));
      match insert
      case Err(message) => CreateOutcome(Reply(500, CreateError(message)), Some(row))
      case Ok(id) => CreateOutcome(Reply(201, Vendor(id, row)), Some(row))
  }

  /** Mobile numbers of the wrong length or with a non-digit are refused. */
  lemma MalformedMobilesRefused()
    ensures !IsMobile("12345")
    ensures !IsMobile("12345678901")
    ensures !IsMobile("12345abcde")
    ensures IsMobile("9876543210")
  {
    assert !IsDigit("12345abcde"[5]);
  }
}
