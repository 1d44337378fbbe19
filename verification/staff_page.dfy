/** The admin staff page: the paged, searchable staff list, the
  * commission rows of the staff form, and the submit procedure that creates
  * or updates the user through the admin API and then rewrites the user's
  * rows of `staff_service_configs`. */
module Staff {

  import opened Text
  import opened Http
  import opened Database
  import opened Formats
  import opened Paging
  import CreateUser
  import UpdateUser

  const ItemsPerPage := 10

  /** One commission row of the form: a service id ("" until chosen) and a percentage. */
  datatype Commission = Commission(serviceId: string, percentage: real)

  /** A row of `staff_service_configs`. */
  datatype ConfigRow = ConfigRow(staffId: string, serviceId: string, percentage: real)

  /** A row of the staff list. */
  datatype Member = Member(id: string, name: string, email: string, mobile: string, role: UserRole)

  datatype Form = Form(name: string, email: string, mobile: string, password: string, role: UserRole)

  datatype Mode = Creating | Editing

  /** The notification shown, and whether it is an error. */
  datatype Notice = Notice(message: string, isError: bool)

  /** The admin API requests the page sends. */
  datatype Request = CreateCall(create: CreateUser.CreateRequest) | UpdateCall(update: UpdateUser.UpdateRequest)

  /** `updateCommission(index, field, value)`, the value already a number for the percentage. */
  datatype CommissionEdit = SetServiceId(serviceId: string) | SetPercentage(percentage: real) | OtherField

  const BlankForm := Form("", "", "", "", User)
  const BadEmailNotice := "Please enter a valid email address."
  const BadMobileNotice := "Please enter a valid 10-digit mobile number."
  const SaveFailed := "Error occurred while saving user."

  // ---------------------------------------------------------------------
  // Commission rows

  /** `s.splice(index, 1)` on a copy of `s`. */
  function Splice<T>(s: seq<T>, index: int): (r: seq<T>)
    // An index below `-|s|` clamps to the first row; one past the end removes nothing.
    ensures |r| == if s != [] && index < |s| then |s| - 1 else |s|
    ensures multiset(r) <= multiset(s)
  {
    var k := RelativeIndex(index, |s|);
    if k < |s| then
      assert s == s[..k] + [s[k]] + s[k + 1..];
      s[..k] + s[k + 1..]
    else s
  }

  /** Removing row `i` keeps the rows before and after it, in order, and
    * loses exactly that row. */
  lemma SpliceRemovesOne<T>(s: seq<T>, i: int)
    requires 0 <= i < |s|
    ensures var r := Splice(s, i);
            && |r| == |s| - 1 && r[..i] == s[..i] && r[i..] == s[i + 1..]
            && multiset(r) + multiset{s[i]} == multiset(s)
  {
    assert s == s[..i] + [s[i]] + s[i + 1..];
  }

  /** A negative index counts from the end, one below `-|s|` removes the
    * first row, and an index past the end removes nothing. */
  lemma SpliceOutOfRange<T>(s: seq<T>, i: int)
    ensures -|s| <= i < 0 ==> Splice(s, i) == Splice(s, |s| + i)
    ensures i >= |s| ==> Splice(s, i) == s
    ensures s != [] && i < -|s| ==> Splice(s, i) == s[1..]
  {
  }

  function EditCommission(c: Commission, e: CommissionEdit): Commission
  {
    match e
    case SetServiceId(id) => c.(serviceId := id)
    case SetPercentage(p) => c.(percentage := p)
    case OtherField => c
  }

  /** The commission list after `updateCommission`: an index outside the
    * list throws before the list is replaced, so nothing changes. */
  function UpdateAt(s: seq<Commission>, index: int, e: CommissionEdit): (r: seq<Commission>)
    ensures |r| == |s|
    ensures forall k :: 0 <= k < |s| && k != index ==> r[k] == s[k]
    ensures 0 <= index < |s| && e.SetServiceId? ==>
              r[index].serviceId == e.serviceId && r[index].percentage == s[index].percentage
    ensures 0 <= index < |s| && e.SetPercentage? ==>
              r[index].percentage == e.percentage && r[index].serviceId == s[index].serviceId
    ensures e.OtherField? ==> r == s
  {
    if 0 <= index < |s| then s[index := EditCommission(s[index], e)] else s
  }

  // ---------------------------------------------------------------------
  // Commission rows and the config table

  /** The rows inserted for user `staffId`: commissions with a chosen service,
    * in order, tagged with the user. */
  function ConfigRows(cs: seq<Commission>, staffId: string): (rows: seq<ConfigRow>)
    ensures |rows| <= |cs|
    ensures forall r :: r in rows ==> r.staffId == staffId && r.serviceId != ""
  {
    if cs == [] then []
    else (if cs[0].serviceId != "" then [ConfigRow(staffId, cs[0].serviceId, cs[0].percentage)] else [])
         + ConfigRows(cs[1..], staffId)
  }

  /** The commissions with a chosen service. */
  function Chosen(cs: seq<Commission>): (r: seq<Commission>)
    ensures |r| <= |cs|
    ensures forall c :: c in r ==> c in cs && c.serviceId != ""
  {
    if cs == [] then []
    else (if cs[0].serviceId != "" then [cs[0]] else []) + Chosen(cs[1..])
  }

  /** `.delete().eq('staff_id', staffId)`: every other row is kept, in order. */
  function WithoutStaff(configs: seq<ConfigRow>, staffId: string): (r: seq<ConfigRow>)
    ensures forall c :: c in r ==> c in configs && c.staffId != staffId
  {
    if configs == [] then []
    else (if configs[0].staffId != staffId then [configs[0]] else []) + WithoutStaff(configs[1..], staffId)
  }

  /** `.select('*').eq('staff_id', staffId)`: the user's rows, in table order. */
  function ConfigsOf(configs: seq<ConfigRow>, staffId: string): (r: seq<ConfigRow>)
    ensures forall c :: c in r ==> c in configs && c.staffId == staffId
  {
    if configs == [] then []
    else (if configs[0].staffId == staffId then [configs[0]] else []) + ConfigsOf(configs[1..], staffId)
  }

  /** `data.map(c => ({ serviceId: c.service_id, percentage: Number(c.percentage) }))`. */
  function ToCommissions(rows: seq<ConfigRow>): (cs: seq<Commission>)
    ensures |cs| == |rows|
  {
    seq(|rows|, i requires 0 <= i < |rows| => Commission(rows[i].serviceId, rows[i].percentage))
  }

  /** Exactly the commissions with a chosen service are kept... */
  lemma {:induction false} ChosenKeepsChosen(cs: seq<Commission>, c: Commission)
    ensures c in Chosen(cs) <==> c in cs && c.serviceId != ""
  {
    if cs != [] {
      ChosenKeepsChosen(cs[1..], c);
      assert c in cs <==> c == cs[0] || c in cs[1..];
    }
  }

  /** ...in their order in the form. */
  lemma {:induction false} ChosenConcat(a: seq<Commission>, b: seq<Commission>)
    ensures Chosen(a + b) == Chosen(a) + Chosen(b)
  {
    if a != [] {
      var head := if a[0].serviceId != "" then [a[0]] else [];
      assert (a + b)[0] == a[0] && (a + b)[1..] == a[1..] + b;
      assert Chosen(a + b) == head + Chosen(a[1..] + b);
      assert Chosen(a) == head + Chosen(a[1..]);
      ChosenConcat(a[1..], b);
    } else {
      assert a + b == b;
    }
  }

  /** The user's query returns every row of that user in the table, and no other row. */
  lemma {:induction false} ConfigsOfKeeps(configs: seq<ConfigRow>, staffId: string, c: ConfigRow)
    ensures c in ConfigsOf(configs, staffId) <==> c in configs && c.staffId == staffId
  {
    if configs != [] {
      ConfigsOfKeeps(configs[1..], staffId, c);
      assert c in configs <==> c == configs[0] || c in configs[1..];
    }
  }

  /** Deleting a user's rows keeps every row of every other user. */
  lemma {:induction false} WithoutStaffKeepsOthers(configs: seq<ConfigRow>, staffId: string, c: ConfigRow)
    ensures c in WithoutStaff(configs, staffId) <==> c in configs && c.staffId != staffId
  {
    if configs != [] {
      WithoutStaffKeepsOthers(configs[1..], staffId, c);
      assert c in configs <==> c == configs[0] || c in configs[1..];
    }
  }

  lemma {:induction false} ConfigsOfConcat(a: seq<ConfigRow>, b: seq<ConfigRow>, staffId: string)
    ensures ConfigsOf(a + b, staffId) == ConfigsOf(a, staffId) + ConfigsOf(b, staffId)
  {
    if a != [] {
      ConfigsOfConcat(a[1..], b, staffId);
      assert (a + b)[1..] == a[1..] + b;
    } else {
      assert a + b == b;
    }
  }

  lemma {:induction false} ConfigsOfOwnRows(cs: seq<Commission>, staffId: string)
    ensures ConfigsOf(ConfigRows(cs, staffId), staffId) == ConfigRows(cs, staffId)
  {
    if cs != [] {
      ConfigsOfOwnRows(cs[1..], staffId);
      var head := if cs[0].serviceId != "" then [ConfigRow(staffId, cs[0].serviceId, cs[0].percentage)] else [];
      ConfigsOfConcat(head, ConfigRows(cs[1..], staffId), staffId);
    }
  }

  lemma ToCommissionsConcat(a: seq<ConfigRow>, b: seq<ConfigRow>)
    ensures ToCommissions(a + b) == ToCommissions(a) + ToCommissions(b)
  {
  }

  /** Loading the inserted rows back gives the chosen commissions. */
  lemma {:induction false} ToCommissionsOfRows(cs: seq<Commission>, staffId: string)
    ensures ToCommissions(ConfigRows(cs, staffId)) == Chosen(cs)
  {
    if cs != [] {
      ToCommissionsOfRows(cs[1..], staffId);
      var head := if cs[0].serviceId != "" then [ConfigRow(staffId, cs[0].serviceId, cs[0].percentage)] else [];
      var chosenHead := if cs[0].serviceId != "" then [cs[0]] else [];
      assert ConfigRows(cs, staffId) == head + ConfigRows(cs[1..], staffId);
      assert Chosen(cs) == chosenHead + Chosen(cs[1..]);
      assert ToCommissions(head) == chosenHead;
      ToCommissionsConcat(head, ConfigRows(cs[1..], staffId));
    }
  }

  /** Rows of other users only: the user's query finds nothing. */
  lemma {:induction false} ConfigsOfNone(rows: seq<ConfigRow>, staffId: string)
    requires forall c :: c in rows ==> c.staffId != staffId
    ensures ConfigsOf(rows, staffId) == []
  {
    if rows != [] {
      assert rows[0] in rows;
      ConfigsOfNone(rows[1..], staffId);
    }
  }

  /** Saving a USER's commissions and opening the form again loads back
    * exactly the rows with a chosen service, in order. */
  lemma SaveThenLoad(configs: seq<ConfigRow>, staffId: string, cs: seq<Commission>)
    ensures ToCommissions(ConfigsOf(WithoutStaff(configs, staffId) + ConfigRows(cs, staffId), staffId)) == Chosen(cs)
  {
    ConfigsOfConcat(WithoutStaff(configs, staffId), ConfigRows(cs, staffId), staffId);
    ConfigsOfNone(WithoutStaff(configs, staffId), staffId);
    ConfigsOfOwnRows(cs, staffId);
    ToCommissionsOfRows(cs, staffId);
    assert [] + ConfigRows(cs, staffId) == ConfigRows(cs, staffId);
  }

  // ---------------------------------------------------------------------
  // The request bodies of the submit

  /** The create-user body. */
  function CreateBody(f: Form): CreateUser.CreateRequest
  {
    CreateUser.CreateRequest(Some(f.email), Some(f.password), Some(f.name), Some(RoleName(f.role)), Some(f.mobile))
  }

  /** The update-user body; an empty password is sent as `undefined`. */
  function UpdateBody(id: string, f: Form): UpdateUser.UpdateRequest
  {
    UpdateUser.UpdateRequest(Some(id), if f.password == "" then None else Some(f.password),
                             Some(f.name), Some(f.email), Some(f.mobile), Some(RoleName(f.role)))
  }

  /** A form that passes the e-mail check is admitted by create-user whenever
    * a password is typed, and the role the form shows is the role created. */
  lemma CreateBodyAdmitted(f: Form)
    requires IsEmail(f.email) && f.password != ""
    ensures CreateUser.Admitted(true, Some("ADMIN"), CreateBody(f))
    ensures CreateUser.NormaliseRole(CreateBody(f).role) == f.role
  {
    var at, dot :| 0 <= at < |f.email| && 0 <= dot < |f.email| && EmailSplit(f.email, at, dot);
  }

  /** Editing a member without typing a new password sends no password, and
    * update-user refuses such a body before any call. */
  lemma EditWithoutPasswordRefused(id: string, f: Form, updateError: Option<string>)
    requires id != "" && f.password == ""
    ensures UpdateUser.Update(UpdateBody(id, f), updateError) ==
              UpdateUser.Outcome(Reply(400, UpdateUser.Error("User ID and Password are required")), [])
  {
  }

  // ---------------------------------------------------------------------
  // The page state

  class StaffPage {
    var staff: seq<Member>
    var totalCount: nat
    var searchTerm: string
    var currentPage: int
    var mode: Mode
    var editingId: Option<string>
    var form: Form
    var commissions: seq<Commission>
    var showModal: bool
    var notice: Option<Notice>
    /** The `staff_service_configs` table. */
    var configs: seq<ConfigRow>
    /** The admin API requests sent so far. */
    var requests: seq<Request>

    constructor (table: seq<ConfigRow>)
      ensures staff == [] && totalCount == 0 && searchTerm == "" && currentPage == 1
      ensures mode == Creating && editingId == None && form == BlankForm && commissions == []
      ensures !showModal && notice == None && configs == table && requests == []
    {
      staff, totalCount, searchTerm, currentPage := [], 0, "", 1;
      mode, editingId, form, commissions := Creating, None, BlankForm, [];
      showModal, notice, configs, requests := false, None, table, [];
    }

    /** The query `fetchStaff` sends: ten rows of the current page, filtered
      * by name or e-mail when the search box is not empty. */
    function ListQuery(): (q: Query)
      reads this
      ensures q.start == (currentPage - 1) * ItemsPerPage && q.end - q.start + 1 == ItemsPerPage
      ensures q.search.Some? <==> searchTerm != ""
      ensures q.search.Some? ==> q.search.value == searchTerm
      ensures currentPage >= 1 ==> q.start >= 0
    {
      Query(if searchTerm != "" then Some(searchTerm) else None,
            RangeStart(currentPage, ItemsPerPage), RangeEnd(currentPage, ItemsPerPage))
    }

    /** `totalPages`. */
    function TotalPages(): (n: nat)
      reads this
      ensures n == 0 <==> totalCount == 0
      ensures (n - 1) * ItemsPerPage < totalCount <= n * ItemsPerPage
    {
      PageCount(totalCount, ItemsPerPage)
    }

    /** The form's field checks, e-mail first. */
    predicate Validated()
      reads this
    {
      IsEmail(form.email) && IsMobile(form.mobile)
    }

    /** The submit gets past the checks and sends a request. */
    predicate Proceeds()
      reads this
    {
      Validated() && (mode == Creating || Truthy(editingId))
    }

    /** The request a proceeding submit sends. */
    function SubmitRequest(): Request
      reads this
      requires Proceeds()
    {
      if mode == Creating then CreateCall(CreateBody(form)) else UpdateCall(UpdateBody(editingId.value, form))
    }

    /** The search box's `onChange` and the effect it triggers: the page goes back to 1. */
    method SetSearchTerm(term: string)
      modifies this`searchTerm, this`currentPage
      ensures searchTerm == term && currentPage == 1
      ensures ListQuery().start == 0
    {
      searchTerm := term;
      if currentPage != 1 {
        currentPage := 1;
      }
    }

    /** `onPageChange` of the pagination control. */
    method SetPage(page: int)
      modifies this`currentPage
      ensures currentPage == page
      ensures ListQuery().start == (page - 1) * ItemsPerPage
    {
      currentPage := page;
    }

    /** `fetchStaff` given what the query returns: the rows and the count
      * (`None` for null), or an error that leaves the list as it was. */
    method FetchStaff(result: Result<(seq<Member>, Option<nat>)>)
      modifies this`staff, this`totalCount
      ensures result.Ok? ==> staff == result.value.0 && totalCount == (if result.value.1.Some? then result.value.1.value else 0)
      ensures result.Err? ==> staff == old(staff) && totalCount == old(totalCount)
    {
      if result.Ok? {
        staff := result.value.0;
        totalCount := if result.value.1.Some? then result.value.1.value else 0;
      }
    }

    /** `handleAddCommission`: one blank row at the end. */
    method AddCommission()
      modifies this`commissions
      ensures commissions == old(commissions) + [Commission("", 0.0)]
    {
      commissions := commissions + [Commission("", 0.0)];
    }

    /** `handleRemoveCommission(index)`. */
    method RemoveCommission(index: int)
      modifies this`commissions
      ensures commissions == Splice(old(commissions), index)
      ensures 0 <= index < |old(commissions)| ==>
                |commissions| == |old(commissions)| - 1 &&
                commissions == old(commissions)[..index] + old(commissions)[index + 1..]
    {
      if 0 <= index < |commissions| {
        SpliceRemovesOne(commissions, index);
        assert Splice(commissions, index)[..index] + Splice(commissions, index)[index..] == Splice(commissions, index);
      }
      commissions := Splice(commissions, index);
    }

    /** `updateCommission(index, field, value)`. */
    method UpdateCommission(index: int, e: CommissionEdit)
      modifies this`commissions
      ensures commissions == UpdateAt(old(commissions), index, e)
    {
      if 0 <= index < |commissions| {
        commissions := commissions[index := EditCommission(commissions[index], e)];
      }
    }

    /** The mobile input's `onChange`: digits only, at most ten. */
    method SetMobileInput(text: string)
      modifies this`form
      ensures form == old(form).(mobile := SanitizeMobile(text))
      ensures |form.mobile| <= 10 && (IsMobile(form.mobile) <==> |DigitsOf(text)| >= 10)
    {
      form := form.(mobile := SanitizeMobile(text));
      SanitizedMobileValid(text);
    }

    /** `handleOpenCreate`. */
    method OpenCreate()
      modifies this`mode, this`editingId, this`form, this`commissions, this`showModal
      ensures mode == Creating && editingId == None && form == BlankForm && commissions == [] && showModal
    {
      mode, editingId, form, commissions, showModal := Creating, None, BlankForm, [], true;
    }

    /** `handleEdit(member)`: the form is loaded from the member with an empty
      * password, and the commissions from the member's config rows unless
      * that query fails. */
    method Edit(member: Member, queryFails: bool)
      modifies this`mode, this`editingId, this`form, this`commissions, this`showModal
      ensures mode == Editing && editingId == Some(member.id) && showModal
      ensures form == Form(member.name, member.email, member.mobile, "", member.role)
      ensures commissions == if queryFails then [] else ToCommissions(ConfigsOf(configs, member.id))
    {
      mode, editingId := Editing, Some(member.id);
      form := Form(member.name, member.email, member.mobile, "", member.role);
      commissions := if queryFails then [] else ToCommissions(ConfigsOf(configs, member.id));
      showModal := true;
    }

    /**
      * `handleSubmit`. `created`: the create-user reply's id, or the text of
      * its `error` field ("" when it has none). `updated`: `None` when the
      * update-user reply is ok, else the text of its `error` field.
      * `deleteFails`: the unchecked delete of the user's config rows fails.
      * `insertError`: the insert of the new config rows fails with this message.
      */
    method Submit(created: Result<string>, updated: Option<string>, deleteFails: bool, insertError: Option<string>)
      modifies this`requests, this`configs, this`showModal, this`notice
      // E-mail is checked before mobile; a failed check sends nothing.
      ensures !IsEmail(form.email) ==>
                notice == Some(Notice(BadEmailNotice, true)) && requests == old(requests) &&
                configs == old(configs) && showModal == old(showModal)
      ensures IsEmail(form.email) && !IsMobile(form.mobile) ==>
                notice == Some(Notice(BadMobileNotice, true)) && requests == old(requests) &&
                configs == old(configs) && showModal == old(showModal)
      ensures Validated() && !Proceeds() ==>
                notice == old(notice) && requests == old(requests) && configs == old(configs) && showModal == old(showModal)
      ensures Proceeds() ==> requests == old(requests) + [SubmitRequest()]
      // A refused create or update changes no config row.
      ensures Proceeds() && mode == Creating && created.Err? ==>
                configs == old(configs) && showModal == old(showModal) &&
                notice == Some(Notice(CaughtMessage(CaughtMessage(created.message, "Failed to create user"), SaveFailed), true))
      ensures Proceeds() && mode == Editing && updated.Some? ==>
                configs == old(configs) && showModal == old(showModal) &&
                notice == Some(Notice(CaughtMessage(CaughtMessage(updated.value, "Failed to update user"), SaveFailed), true))
      // After a save: the edited user's old rows go, then the chosen rows of a USER come in.
      ensures Proceeds() && mode == Creating && created.Ok? ==>
                Saved(old(configs), created.value, insertError, old(showModal))
      ensures Proceeds() && mode == Editing && updated.None? ==>
                Saved(if deleteFails then old(configs) else WithoutStaff(old(configs), editingId.value),
                      editingId.value, insertError, old(showModal))
      // Switching an edited user away from USER leaves them no config rows.
      ensures Proceeds() && mode == Editing && updated.None? && !deleteFails && form.role != User ==>
                forall c :: c in configs ==> c.staffId != editingId.value
    {
      if !IsEmail(form.email) {
        notice := Some(Notice(BadEmailNotice, true));
        return;
      }
      if !IsMobile(form.mobile) {
        notice := Some(Notice(BadMobileNotice, true));
        return;
      }
      if mode == Creating {
        requests := requests + [CreateCall(CreateBody(form))];
        if created.Err? {
          notice := Some(Notice(CaughtMessage(CaughtMessage(created.message, "Failed to create user"), SaveFailed), true));
          return;
        }
        SaveCommissions(created.value, insertError);
      } else if Truthy(editingId) {
        SubmitEdit(updated, deleteFails, insertError);
      }
    }

    /** The edit branch of `handleSubmit`: the update-user request, then the
      * unchecked delete of the user's config rows and the save. */
    method SubmitEdit(updated: Option<string>, deleteFails: bool, insertError: Option<string>)
      requires editingId.Some?
      modifies this`requests, this`configs, this`showModal, this`notice
      ensures requests == old(requests) + [UpdateCall(UpdateBody(editingId.value, form))]
      ensures updated.Some? ==>
                configs == old(configs) && showModal == old(showModal) &&
                notice == Some(Notice(CaughtMessage(CaughtMessage(updated.value, "Failed to update user"), SaveFailed), true))
      ensures updated.None? ==>
                Saved(if deleteFails then old(configs) else WithoutStaff(old(configs), editingId.value),
                      editingId.value, insertError, old(showModal))
    {
      var userId := editingId.value;
      requests := requests + [UpdateCall(UpdateBody(userId, form))];
      if updated.Some? {
        notice := Some(Notice(CaughtMessage(CaughtMessage(updated.value, "Failed to update user"), SaveFailed), true));
        return;
      }
      if !deleteFails {
        configs := WithoutStaff(configs, userId);
      }
      SaveCommissions(userId, insertError);
    }

    /** The state after the user was saved, given the table `kept` before
      * the insert: a USER's chosen rows are appended unless their insert
      * fails, which leaves the modal open with its message; otherwise the
      * modal closes with the success notice. */
    ghost predicate Saved(kept: seq<ConfigRow>, userId: string, insertError: Option<string>, wasOpen: bool)
      reads this
    {
      var rows := if form.role == User then ConfigRows(commissions, userId) else [];
      && configs == (if |rows| > 0 && insertError.None? then kept + rows else kept)
      && (|rows| > 0 && insertError.Some? ==>
            showModal == wasOpen && notice == Some(Notice(CaughtMessage(insertError.value, SaveFailed), true)))
      && (!(|rows| > 0 && insertError.Some?) ==>
            !showModal &&
            notice == Some(Notice(if mode == Creating then "User created successfully" else "User updated successfully", false)))
    }

    /** The end of a save, once the user exists. */
    method SaveCommissions(userId: string, insertError: Option<string>)
      modifies this`configs, this`showModal, this`notice
      ensures Saved(old(configs), userId, insertError, old(showModal))
    {
      if form.role == User && |commissions| > 0 {
        var rows := ConfigRows(commissions, userId);
        if |rows| > 0 {
          if insertError.Some? {
            notice := Some(Notice(CaughtMessage(insertError.value, SaveFailed), true));
            return;
          }
          configs := configs + rows;
        }
      }
      showModal := false;
      notice := Some(Notice(if mode == Creating then "User created successfully" else "User updated successfully", false));
    }
  }
}
