/** The staff member's job list page: the status update with its timestamp
  * side effects and the local merge of the update, the search filter over
  * service name and description, and the ten-per-page slicing. */
module MyJobs {

  import opened Text
  import opened Database
  import opened Paging
  import Pagination

  const ItemsPerPage := 10

  /** A job row as the page holds it; the service name is the joined
    * `service.name`. */
  datatype Job = Job(
    id: string, status: JobStatus,
    startedAt: Option<string>, completedAt: Option<string>, updatedAt: Option<string>,
    serviceName: Option<string>, description: Option<string>)

  /** The job columns an update payload (or the caller's `extraData`) sets;
    * `None` is a key the object does not have. */
  datatype Patch = Patch(
    status: Option<JobStatus>, startedAt: Option<string>,
    completedAt: Option<string>, updatedAt: Option<string>)

  /** `extraData` left at its default `{}`. */
  const NoExtra := Patch(None, None, None, None)

  /** `{ ...a, ...b }` for two patches: a key of `b` wins. */
  function Spread(a: Patch, b: Patch): Patch
  {
    Patch(if b.status.Some? then b.status else a.status,
          if b.startedAt.Some? then b.startedAt else a.startedAt,
          if b.completedAt.Some? then b.completedAt else a.completedAt,
          if b.updatedAt.Some? then b.updatedAt else a.updatedAt)
  }

  /** What the update payload says, column by column. `now` stands for every
    * `new Date().toISOString()` of one update. */
  function Payload(newStatus: JobStatus, extra: Patch, now: string): (p: Patch)
    // The update time comes last and no extra key can replace it.
    ensures p.updatedAt == Some(now)
    ensures extra.status.None? ==> p.status == Some(newStatus)
    ensures newStatus == InProgress ==> p.startedAt == Some(now)
    ensures newStatus != InProgress ==> p.startedAt == extra.startedAt
    ensures newStatus != Completed ==> p.completedAt == extra.completedAt
    ensures newStatus == Completed ==> p.completedAt == Some(now)
  {
    Patch(Some(if extra.status.Some? then extra.status.value else newStatus),
          if newStatus == InProgress then Some(now) else extra.startedAt,
          if newStatus == Completed then Some(now) else extra.completedAt,
          Some(now))
  }

  /** `{ ...job, ...patch }`. */
  function Apply(job: Job, p: Patch): (j: Job)
    // The columns outside the payload, the joined service included, are kept.
    ensures j.id == job.id && j.serviceName == job.serviceName && j.description == job.description
    // A key the payload has wins; a key it lacks keeps the job's value.
    ensures j.status == (if p.status.Some? then p.status.value else job.status)
    ensures p.startedAt.Some? ==> j.startedAt == p.startedAt
    ensures p.startedAt.None? ==> j.startedAt == job.startedAt
    ensures p.completedAt.Some? ==> j.completedAt == p.completedAt
    ensures p.completedAt.None? ==> j.completedAt == job.completedAt
    ensures p.updatedAt.Some? ==> j.updatedAt == p.updatedAt
    ensures p.updatedAt.None? ==> j.updatedAt == job.updatedAt
  {
    job.(status := if p.status.Some? then p.status.value else job.status,
         startedAt := if p.startedAt.Some? then p.startedAt else job.startedAt,
         completedAt := if p.completedAt.Some? then p.completedAt else job.completedAt,
         updatedAt := if p.updatedAt.Some? then p.updatedAt else job.updatedAt)
  }

  /** `jobs.map(j => j.id === jobId ? { ...j, ...payload } : j)`. */
  function Merge(jobs: seq<Job>, jobId: string, p: Patch): (m: seq<Job>)
    ensures |m| == |jobs|
    ensures forall i :: 0 <= i < |m| ==> m[i] == if jobs[i].id == jobId then Apply(jobs[i], p) else jobs[i]
  {
    seq(|jobs|, i requires 0 <= i < |jobs| => if jobs[i].id == jobId then Apply(jobs[i], p) else jobs[i])
  }

  /** The merge keeps the list's length and order of ids and rewrites only the
    * jobs with the updated id; their other columns are kept. */
  lemma MergeTouchesOnlyMatching(jobs: seq<Job>, jobId: string, p: Patch)
    ensures var m := Merge(jobs, jobId, p);
            && |m| == |jobs|
            && (forall i :: 0 <= i < |m| ==> m[i].id == jobs[i].id)
            && (forall i :: 0 <= i < |m| && jobs[i].id != jobId ==> m[i] == jobs[i])
            && (forall i :: 0 <= i < |m| && jobs[i].id == jobId ==>
                  m[i].serviceName == jobs[i].serviceName && m[i].description == jobs[i].description)
  {
  }

  /** Repeating the same update changes nothing more. */
  lemma MergeIdempotent(jobs: seq<Job>, jobId: string, p: Patch)
    ensures Merge(Merge(jobs, jobId, p), jobId, p) == Merge(jobs, jobId, p)
  {
  }

  /** The effect of the three status buttons (which pass no extra data) on a job. */
  lemma StatusButtonEffects(job: Job, newStatus: JobStatus, now: string)
    ensures var j := Apply(job, Payload(newStatus, NoExtra, now));
            && j.id == job.id && j.status == newStatus && j.updatedAt == Some(now)
            && j.startedAt == (if newStatus == InProgress then Some(now) else job.startedAt)
            && j.completedAt == (if newStatus == Completed then Some(now) else job.completedAt)
  {
  }

  /** Moving a job back to PENDING leaves both of its timestamps as they were. */
  lemma PendingKeepsTimestamps(job: Job, now: string)
    ensures Apply(job, Payload(Pending, NoExtra, now)).startedAt == job.startedAt
    ensures Apply(job, Payload(Pending, NoExtra, now)).completedAt == job.completedAt
  {
  }

  // ---------------------------------------------------------------------
  // Search

  /** A missing column searches as the empty text. */
  function Field(o: Option<string>): string
  {
    if o.Some? then o.value else ""
  }

  /** The filter test of one job. */
  predicate Matches(job: Job, term: string)
  {
    term == [] ||
    Contains(Lower(Field(job.serviceName)), Lower(term)) ||
    Contains(Lower(Field(job.description)), Lower(term))
  }

  /** `jobs.filter(...)`. */
  function FilterJobs(jobs: seq<Job>, term: string): (r: seq<Job>)
    ensures |r| <= |jobs|
    ensures forall j :: j in r ==> j in jobs && Matches(j, term)
  {
    if jobs == [] then []
    else (if Matches(jobs[0], term) then [jobs[0]] else []) + FilterJobs(jobs[1..], term)
  }

  /** A job is kept exactly when it is in the list and matches. */
  lemma {:induction false} FilterKeepsMatches(jobs: seq<Job>, term: string, j: Job)
    ensures j in FilterJobs(jobs, term) <==> j in jobs && Matches(j, term)
  {
    if jobs != [] {
      FilterKeepsMatches(jobs[1..], term, j);
      assert j in jobs <==> j == jobs[0] || j in jobs[1..];
    }
  }

  /** Filtering preserves order: it distributes over concatenation. */
  lemma {:induction false} FilterConcat(a: seq<Job>, b: seq<Job>, term: string)
    ensures FilterJobs(a + b, term) == FilterJobs(a, term) + FilterJobs(b, term)
  {
    if a != [] {
      FilterConcat(a[1..], b, term);
      assert (a + b)[1..] == a[1..] + b;
    } else {
      assert a + b == b;
    }
  }

  /** An empty search keeps every job. */
  lemma {:induction false} EmptySearchKeepsAll(jobs: seq<Job>)
    ensures FilterJobs(jobs, "") == jobs
  {
    if jobs != [] {
      EmptySearchKeepsAll(jobs[1..]);
      assert [jobs[0]] + jobs[1..] == jobs;
    }
  }

  /** Searching twice for the same term is searching once. */
  lemma {:induction false} FilterIdempotent(jobs: seq<Job>, term: string)
    ensures FilterJobs(FilterJobs(jobs, term), term) == FilterJobs(jobs, term)
  {
    if jobs != [] {
      FilterIdempotent(jobs[1..], term);
      if Matches(jobs[0], term) {
        assert FilterJobs(jobs, term) == [jobs[0]] + FilterJobs(jobs[1..], term);
        assert FilterJobs(jobs, term)[1..] == FilterJobs(jobs[1..], term);
      } else {
        assert FilterJobs(jobs, term) == FilterJobs(jobs[1..], term);
      }
    }
  }

  // ---------------------------------------------------------------------
  // Page slicing

  /** `items.slice(a, b)`. */
  function Slice<T>(items: seq<T>, a: int, b: int): (r: seq<T>)
    ensures |r| <= |items|
    ensures forall x :: x in r ==> x in items
    // Bounds from 0 select `items[a..b]`, the end clamped to the list.
    ensures 0 <= a <= b <= |items| ==> r == items[a..b]
    ensures 0 <= a <= |items| <= b ==> r == items[a..]
    ensures 0 <= b <= a || |items| <= a ==> r == []
    // A negative bound counts from the end: `slice(-k)` keeps the last k items.
    ensures -|items| <= a < 0 && |items| <= b ==> r == items[|items| + a..]
  {
    var lo, hi := RelativeIndex(a, |items|), RelativeIndex(b, |items|);
    if lo < hi then items[lo..hi] else []
  }

  /** `filteredJobs.slice((page - 1) * 10, page * 10)`. */
  function PageOf<T>(items: seq<T>, page: int): (r: seq<T>)
    ensures forall x :: x in r ==> x in items
    ensures page >= 1 ==> |r| <= ItemsPerPage
  {
    Slice(items, (page - 1) * ItemsPerPage, page * ItemsPerPage)
  }

  /** A page from 1 on holds at most ten items, in list order. */
  lemma PageBounds<T>(items: seq<T>, page: int)
    requires page >= 1
    ensures |PageOf(items, page)| <= ItemsPerPage
    ensures (page - 1) * ItemsPerPage < |items| ==>
              PageOf(items, page) == items[(page - 1) * ItemsPerPage .. if page * ItemsPerPage < |items| then page * ItemsPerPage else |items|]
    ensures (page - 1) * ItemsPerPage >= |items| ==> PageOf(items, page) == []
  {
    assert (page - 1) * ItemsPerPage >= 0;
  }

  /** Item `i` is shown on page `i / 10 + 1`, at position `i % 10`. */
  lemma ItemOnItsPage<T>(items: seq<T>, i: nat)
    requires i < |items|
    ensures var page := i / ItemsPerPage + 1;
            i % ItemsPerPage < |PageOf(items, page)| && PageOf(items, page)[i % ItemsPerPage] == items[i]
  {
    var page := i / ItemsPerPage + 1;
    RowOnOnePage(i, page, ItemsPerPage);
    PageBounds(items, page);
  }

  /** Pages 1..PageCount are the non-empty ones. */
  lemma NonEmptyPages<T>(items: seq<T>, page: int)
    requires page >= 1
    ensures |PageOf(items, page)| > 0 <==> page <= PageCount(|items|, ItemsPerPage)
  {
    PageBounds(items, page);
    var n, c := |items|, PageCount(|items|, ItemsPerPage);
    if page <= c {
      assert (page - 1) * ItemsPerPage <= (c - 1) * ItemsPerPage by {
        assert (c - page) * ItemsPerPage >= 0;
      }
    } else {
      assert (page - 1) * ItemsPerPage >= c * ItemsPerPage by {
        assert (page - 1 - c) * ItemsPerPage >= 0;
      }
    }
  }

  // ---------------------------------------------------------------------
  // The page state

  class MyJobsPage {
    var jobs: seq<Job>
    var selectedJob: Option<Job>
    var showViewModal: bool
    var searchTerm: string
    var currentPage: int

    constructor ()
      ensures jobs == [] && selectedJob == None && !showViewModal && searchTerm == "" && currentPage == 1
    {
      jobs, selectedJob, showViewModal, searchTerm, currentPage := [], None, false, "", 1;
    }

    /** `filteredJobs`. */
    function Filtered(): (r: seq<Job>)
      reads this
      ensures forall j :: j in r ==> j in jobs && Matches(j, searchTerm)
      ensures searchTerm == "" ==> r == jobs
    {
      EmptySearchKeepsAll(jobs);
      FilterJobs(jobs, searchTerm)
    }

    /** `paginatedJobs`: the rows the table shows. */
    function Visible(): (r: seq<Job>)
      reads this
      ensures forall j :: j in r ==> j in jobs && Matches(j, searchTerm)
      ensures currentPage >= 1 ==> |r| <= ItemsPerPage
    {
      PageOf(Filtered(), currentPage)
    }

    /** `totalPages`. */
    function TotalPages(): (n: nat)
      reads this
      ensures n == 0 <==> |Filtered()| == 0
      ensures (n - 1) * ItemsPerPage < |Filtered()| <= n * ItemsPerPage
    {
      PageCount(|Filtered()|, ItemsPerPage)
    }

    /** The pagination control is mounted only beside a non-empty table, and
      * then renders only when there is more than one page. */
    predicate ShowsPagination()
      reads this
    {
      |Visible()| > 0 && Pagination.Render(currentPage, TotalPages()).Some?
    }

    /** `openViewModal(job)`. */
    method OpenView(job: Job)
      modifies this`selectedJob, this`showViewModal
      ensures selectedJob == Some(job) && showViewModal
    {
      selectedJob := Some(job);
      showViewModal := true;
    }

    /** `closeModal()`. */
    method CloseView()
      modifies this`selectedJob, this`showViewModal
      ensures selectedJob == None && !showViewModal
    {
      showViewModal := false;
      selectedJob := None;
    }

    /** `onPageChange` of the pagination control. */
    method SetPage(page: int)
      modifies this`currentPage
      ensures currentPage == page
    {
      currentPage := page;
    }

    /** `handleUpdateStatus(jobId, newStatus, extraData)`. `dbError`: the
      * update of the `jobs` row fails. */
    method UpdateStatus(jobId: string, newStatus: JobStatus, extra: Patch, now: string, dbError: bool)
      modifies this`jobs, this`selectedJob
      ensures dbError ==> jobs == old(jobs) && selectedJob == old(selectedJob)
      ensures !dbError ==> jobs == Merge(old(jobs), jobId, Payload(newStatus, extra, now))
      ensures !dbError ==>
                selectedJob == if old(selectedJob).Some? && old(selectedJob).value.id == jobId
                               then Some(Apply(old(selectedJob).value, Payload(newStatus, extra, now)))
                               else old(selectedJob)
    {
      var payload := Spread(Spread(Patch(Some(newStatus), None, None, None), extra), Patch(None, None, None, Some(now)));
      if newStatus == InProgress {
        payload := payload.(startedAt := Some(now));
      }
      if newStatus == Completed {
        payload := payload.(completedAt := Some(now));
      }
      if dbError {
        return;
      }
      jobs := Merge(jobs, jobId, payload);
      if selectedJob.Some? && selectedJob.value.id == jobId {
        selectedJob := Some(Apply(selectedJob.value, payload));
      }
    }

    /** The search box's `onChange` as written: the current page is kept. */
    method SetSearchTerm(term: string)
      modifies this`searchTerm
      ensures searchTerm == term
    {
      searchTerm := term;
    }

    /** The search box's `onChange` with the page reset the staff page
      * performs: whenever some job matches, the table shows one. */
    method SetSearchTermFromFirstPage(term: string)
      modifies this`searchTerm, this`currentPage
      ensures searchTerm == term && currentPage == 1
      ensures |Filtered()| > 0 ==> |Visible()| > 0
    {
      searchTerm := term;
      currentPage := 1;
      NonEmptyPages(Filtered(), 1);
    }
  }

  /** Searching from a later page as written: when the new term leaves at
    * most ten matches, the kept page shows no rows although page 1 would, and
    * the pagination control, mounted only beside a non-empty table, is not
    * there to leave it. */
  lemma SearchKeepsStalePage(page: MyJobsPage)
    requires page.currentPage >= 2
    requires 0 < |page.Filtered()| <= ItemsPerPage
    ensures page.Visible() == [] && !page.ShowsPagination()
    ensures PageOf(page.Filtered(), 1) != []
  {
    PageBounds(page.Filtered(), page.currentPage);
    PageBounds(page.Filtered(), 1);
  }
}
