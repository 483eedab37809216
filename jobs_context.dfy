/** The job directory store: the list of all listings, the signed-in user's
    own listings, the search query, the category filters, the salary range
    and a loading flag, with the operations that fetch, search, create,
    like, apply to and delete listings through the backend's `jobs` table.

    Every awaited backend call is an `Outcome` parameter: it either succeeds
    or reports an error. A thrown exception and a returned error take the
    same path in the store, so one outcome stands for both. The messages the
    store shows to the user are returned as a `Notice`. */
module JobsContext {
  import opened Types
  import opened Seqs
  import opened Text

  datatype Outcome = Ok | Failed

  /** A transient message to the user: none, a success toast or an error
      toast. */
  datatype Notice = Silent | Success(text: string) | Error(text: string)

  // ---------------------------------------------------------------------
  // Search query and category filters
  // ---------------------------------------------------------------------

  datatype SearchQuery = SearchQuery(tags: string, location: string, title: string)

  datatype SearchField = TagsField | LocationField | TitleField

  function QueryField(q: SearchQuery, f: SearchField): string
  {
    match f
    case TagsField => q.tags
    case LocationField => q.location
    case TitleField => q.title
  }

  /** The query with field `f` overwritten by `v`. */
  function WithQueryField(q: SearchQuery, f: SearchField, v: string): (r: SearchQuery)
    ensures QueryField(r, f) == v
    ensures forall g :: g != f ==> QueryField(r, g) == QueryField(q, g)
  {
    match f
    case TagsField => q.(tags := v)
    case LocationField => q.(location := v)
    case TitleField => q.(title := v)
  }

  datatype FilterName =
    | FullTime | PartTime | Internship | Contract
    | FullStack | Backend | DevOps | UiUx

  datatype Filters = Filters(
    fullTime: bool, partTime: bool, internship: bool, contract: bool,
    fullStack: bool, backend: bool, devOps: bool, uiUx: bool)

  /** Every category filter off, as the store starts. */
  const NoFilters := Filters(false, false, false, false, false, false, false, false)

  const InitialMinSalary := 30000
  const InitialMaxSalary := 120000

  function Flag(fs: Filters, f: FilterName): bool
  {
    match f
    case FullTime => fs.fullTime
    case PartTime => fs.partTime
    case Internship => fs.internship
    case Contract => fs.contract
    case FullStack => fs.fullStack
    case Backend => fs.backend
    case DevOps => fs.devOps
    case UiUx => fs.uiUx
  }

  /** The filters with flag `f` negated and every other flag kept. */
  function ToggleFilter(fs: Filters, f: FilterName): (r: Filters)
    ensures Flag(r, f) == !Flag(fs, f)
    ensures forall g :: g != f ==> Flag(r, g) == Flag(fs, g)
  {
    match f
    case FullTime => fs.(fullTime := !fs.fullTime)
    case PartTime => fs.(partTime := !fs.partTime)
    case Internship => fs.(internship := !fs.internship)
    case Contract => fs.(contract := !fs.contract)
    case FullStack => fs.(fullStack := !fs.fullStack)
    case Backend => fs.(backend := !fs.backend)
    case DevOps => fs.(devOps := !fs.devOps)
    case UiUx => fs.(uiUx := !fs.uiUx)
  }

  /** Flipping the same filter twice restores the filters. */
  lemma ToggleFilterTwice(fs: Filters, f: FilterName)
    ensures ToggleFilter(ToggleFilter(fs, f), f) == fs
  {
    match f
    case FullTime =>
    case PartTime =>
    case Internship =>
    case Contract =>
    case FullStack =>
    case Backend =>
    case DevOps =>
    case UiUx =>
  }

  // ---------------------------------------------------------------------
  // Listing lookups and the lists written back for likes and applicants
  // ---------------------------------------------------------------------

  /** A listing holds no profile id twice among its likes or applicants. */
  ghost predicate Sane(j: Job)
  {
    NoDup(j.likes) && NoDup(j.applicants)
  }

  /** Index `k` holds the first listing in `jobs` with that id. */
  ghost predicate FirstWithId(jobs: seq<Job>, id: string, k: int)
  {
    0 <= k < |jobs| && jobs[k].id == id && forall i :: 0 <= i < k ==> jobs[i].id != id
  }

  /** `jobs.find(j => j.id === id)`: the first listing with that id. */
  function Find(jobs: seq<Job>, id: string): (r: Option<Job>)
    ensures r.None? <==> forall j :: j in jobs ==> j.id != id
    ensures r.Some? ==> r.value in jobs && r.value.id == id
    ensures r.Some? ==> exists k :: FirstWithId(jobs, id, k) && jobs[k] == r.value
  {
    if jobs == [] then None
    else if jobs[0].id == id then
      assert FirstWithId(jobs, id, 0);
      Some(jobs[0])
    else
      var r := Find(jobs[1..], id);
      assert forall j :: j in jobs[1..] ==> j in jobs;
      assert forall j :: j in jobs && j != jobs[0] ==> j in jobs[1..];
      assert r.Some? ==> exists k :: FirstWithId(jobs, id, k) && jobs[k] == r.value by {
        if r.Some? {
          var k :| FirstWithId(jobs[1..], id, k) && jobs[1..][k] == r.value;
          assert FirstWithId(jobs, id, k + 1);
        }
      }
      r
  }

  /** The likes list `likeJob` writes back: the caller's id removed (every
      occurrence) when present, appended once when absent. */
  function ToggleLike(likes: seq<string>, uid: string): (r: seq<string>)
    ensures uid in r <==> uid !in likes
    ensures forall x :: x != uid ==> multiset(r)[x] == multiset(likes)[x]
    ensures uid in likes ==> IsSubsequence(r, likes)
    ensures uid !in likes ==> |r| == |likes| + 1 && r[..|likes|] == likes && r[|likes|] == uid
    ensures NoDup(likes) ==> NoDup(r)
  {
    if uid in likes then Filter(likes, x => x != uid) else likes + [uid]
  }

  /** Toggling twice from "not liked" restores the exact list. */
  lemma ToggleLikeTwiceRestores(likes: seq<string>, uid: string)
    requires uid !in likes
    ensures ToggleLike(ToggleLike(likes, uid), uid) == likes
  {
    var p := (x: string) => x != uid;
    FilterAppend(likes, [uid], p);
    FilterAll(likes, p);
    assert Filter([uid], p) == [];
  }

  /** Toggling twice from "liked at most once" restores the same ids, each
      as often as before; only the position of the caller's id may move. */
  lemma ToggleLikeTwiceSameIds(likes: seq<string>, uid: string)
    requires multiset(likes)[uid] <= 1
    ensures multiset(ToggleLike(ToggleLike(likes, uid), uid)) == multiset(likes)
  {
    var once := ToggleLike(likes, uid);
    var twice := ToggleLike(once, uid);
    if uid in likes {
      assert uid !in once;
      assert multiset(twice) == multiset(once) + multiset{uid} by {
        assert twice == once + [uid];
      }
      forall x ensures multiset(twice)[x] == multiset(likes)[x] {
        if x == uid {
          assert multiset(once)[uid] == 0;
          assert multiset(likes)[uid] == 1;
        }
      }
    } else {
      ToggleLikeTwiceRestores(likes, uid);
    }
  }

  /** The applicants list after `applyToJob`: unchanged when the caller has
      already applied, otherwise the caller's id appended once. */
  function Applied(applicants: seq<string>, uid: string): (r: seq<string>)
    ensures uid in r
    ensures multiset(r)[uid] == if uid in applicants then multiset(applicants)[uid] else 1
    ensures forall x :: x != uid ==> multiset(r)[x] == multiset(applicants)[x]
    ensures |r| >= |applicants| && r[..|applicants|] == applicants
    ensures NoDup(applicants) ==> NoDup(r)
  {
    if uid in applicants then applicants
    else
      assert multiset(applicants + [uid]) == multiset(applicants) + multiset{uid};
      applicants + [uid]
  }

  /** Applying twice is applying once: the second call writes nothing new. */
  lemma AppliedIdempotent(applicants: seq<string>, uid: string)
    ensures Applied(Applied(applicants, uid), uid) == Applied(applicants, uid)
  {
  }

  /** Applying twice with an id not yet present leaves exactly one entry. */
  lemma {:induction false} AppliedTwiceOneEntry(applicants: seq<string>, uid: string)
    requires uid !in applicants
    ensures multiset(Applied(Applied(applicants, uid), uid))[uid] == 1
  {
    AppliedIdempotent(applicants, uid);
  }

  /** The two id lists a listing carries, which `likeJob` and `applyToJob`
      write back. */
  datatype Column = LikesColumn | ApplicantsColumn

  function ColumnOf(j: Job, c: Column): seq<string>
  {
    match c
    case LikesColumn => j.likes
    case ApplicantsColumn => j.applicants
  }

  /** The listing with column `c` replaced by `ids`: the other column and
      every other field are kept. */
  function WithColumn(j: Job, c: Column, ids: seq<string>): (k: Job)
    ensures ColumnOf(k, c) == ids
    ensures forall d :: d != c ==> ColumnOf(k, d) == ColumnOf(j, d)
    ensures k.(likes := j.likes, applicants := j.applicants) == j
  {
    match c
    case LikesColumn => j.(likes := ids)
    case ApplicantsColumn => j.(applicants := ids)
  }

  /** The rows after `update({ likes })` or `update({ applicants })` with
      `.eq('id', id)`: each row with that id gets the new column, every
      other row is left as it was. */
  function SetColumn(rows: seq<Job>, id: string, c: Column, ids: seq<string>): (r: seq<Job>)
    ensures |r| == |rows|
    ensures forall i :: 0 <= i < |rows| ==> r[i] == if rows[i].id == id then WithColumn(rows[i], c, ids) else rows[i]
  {
    seq(|rows|, i requires 0 <= i < |rows| => if rows[i].id == id then WithColumn(rows[i], c, ids) else rows[i])
  }

  /** Writing a duplicate-free id list keeps every row sane. */
  lemma SetColumnSane(rows: seq<Job>, id: string, c: Column, ids: seq<string>)
    requires forall j :: j in rows ==> Sane(j)
    requires NoDup(ids)
    ensures forall j :: j in SetColumn(rows, id, c, ids) ==> Sane(j)
  {
    var r := SetColumn(rows, id, c, ids);
    forall j | j in r ensures Sane(j) {
      var i :| 0 <= i < |r| && r[i] == j;
      assert rows[i] in rows;
    }
  }

  /** Every row with that id carries `ids` in column `c`. */
  ghost predicate ColumnAt(rows: seq<Job>, id: string, c: Column, ids: seq<string>)
  {
    forall j :: j in rows && j.id == id ==> ColumnOf(j, c) == ids
  }

  /** After the write every row with that id carries the written list. */
  lemma SetColumnAt(rows: seq<Job>, id: string, c: Column, ids: seq<string>)
    ensures ColumnAt(SetColumn(rows, id, c, ids), id, c, ids)
  {
    var r := SetColumn(rows, id, c, ids);
    forall j | j in r && j.id == id ensures ColumnOf(j, c) == ids {
      var i :| 0 <= i < |r| && r[i] == j;
    }
  }

  /** The write changes no row's id, so the same listing is found. */
  lemma SetColumnKeepsIds(rows: seq<Job>, id: string, c: Column, ids: seq<string>)
    ensures Find(SetColumn(rows, id, c, ids), id).Some? == Find(rows, id).Some?
  {
    var r := SetColumn(rows, id, c, ids);
    if Find(rows, id).Some? {
      var k :| 0 <= k < |rows| && rows[k] == Find(rows, id).value;
      assert r[k] in r;
    }
    if Find(r, id).Some? {
      var k :| 0 <= k < |r| && r[k] == Find(r, id).value;
      assert rows[k] in rows;
    }
  }

  // ---------------------------------------------------------------------
  // Queries: own listings, search, delete
  // ---------------------------------------------------------------------

  /** The rows of `.eq('created_by', owner)`, in table order. */
  function JobsOf(rows: seq<Job>, owner: string): (r: seq<Job>)
    ensures forall j :: j in r <==> j in rows && j.createdBy == owner
    ensures forall j: Job :: j.createdBy == owner ==> multiset(r)[j] == multiset(rows)[j]
    ensures IsSubsequence(r, rows)
  {
    Filter(rows, (j: Job) => j.createdBy == owner)
  }

  /** The local list with every listing of that id removed, everything else
      kept in its original order. */
  function WithoutJob(jobs: seq<Job>, id: string): (r: seq<Job>)
    ensures forall j :: j in r ==> j.id != id
    ensures forall j: Job :: j.id != id ==> multiset(r)[j] == multiset(jobs)[j]
    ensures IsSubsequence(r, jobs)
  {
    Filter(jobs, (j: Job) => j.id != id)
  }

  /** The rows after `delete().eq('id', id).eq('created_by', owner)`: only a
      row with that id AND that owner goes. */
  function DeleteOwned(rows: seq<Job>, id: string, owner: string): (r: seq<Job>)
    ensures forall j :: j in r ==> !(j.id == id && j.createdBy == owner)
    ensures forall j: Job :: !(j.id == id && j.createdBy == owner) ==> multiset(r)[j] == multiset(rows)[j]
    ensures IsSubsequence(r, rows)
  {
    Filter(rows, (j: Job) => !(j.id == id && j.createdBy == owner))
  }

  /** A delete by anyone who owns no row with that id removes no row. */
  lemma DeleteByNonOwnerKeepsRows(rows: seq<Job>, id: string, caller: string)
    requires forall j :: j in rows && j.id == id ==> j.createdBy != caller
    ensures DeleteOwned(rows, id, caller) == rows
  {
    FilterAll(rows, (j: Job) => !(j.id == id && j.createdBy == caller));
  }

  /** A search argument is applied only when it is a non-empty string
      (JavaScript's `if (title)`). */
  predicate Given(arg: Option<string>)
  {
    arg.Some? && arg.value != ""
  }

  /** The backend's search filter: `ilike` on title and location, array
      containment of the one tag. */
  predicate MatchesSearch(j: Job, tags: Option<string>, location: Option<string>, title: Option<string>)
  {
    && (Given(title) ==> ILikeContains(j.title, title.value))
    && (Given(location) ==> ILikeContains(j.location, location.value))
    && (Given(tags) ==> tags.value in j.tags)
  }

  /** The rows `searchJobs` fetches, in table order. */
  function SearchResults(rows: seq<Job>, tags: Option<string>, location: Option<string>, title: Option<string>): (r: seq<Job>)
    ensures forall j :: j in r <==> j in rows && MatchesSearch(j, tags, location, title)
    ensures forall j: Job :: MatchesSearch(j, tags, location, title) ==> multiset(r)[j] == multiset(rows)[j]
    ensures IsSubsequence(r, rows)
  {
    Filter(rows, (j: Job) => MatchesSearch(j, tags, location, title))
  }

  /** With no non-empty argument the search returns the whole table. */
  lemma SearchWithoutArgumentsIsAll(rows: seq<Job>, tags: Option<string>, location: Option<string>, title: Option<string>)
    requires !Given(tags) && !Given(location) && !Given(title)
    ensures SearchResults(rows, tags, location, title) == rows
  {
    FilterAll(rows, (j: Job) => MatchesSearch(j, tags, location, title));
  }

  /** Every listing a title search returns contains the title query,
      ignoring case. */
  lemma SearchByTitleNarrows(rows: seq<Job>, title: string)
    requires title != ""
    ensures forall j :: j in SearchResults(rows, None, None, Some(title)) ==> ILikeContains(j.title, title)
  {
  }

  function LowerArg(arg: Option<string>): Option<string>
  {
    if arg.Some? then Some(Lower(arg.value)) else None
  }

  /** Upper or lower case in the title and location queries gives the same
      results. */
  lemma SearchIgnoresCase(rows: seq<Job>, tags: Option<string>, location: Option<string>, title: Option<string>)
    ensures SearchResults(rows, tags, LowerArg(location), LowerArg(title)) == SearchResults(rows, tags, location, title)
  {
    forall j: Job ensures MatchesSearch(j, tags, LowerArg(location), LowerArg(title)) == MatchesSearch(j, tags, location, title) {
      if title.Some? { ILikeIgnoresCase(j.title, title.value); }
      if location.Some? { ILikeIgnoresCase(j.location, location.value); }
    }
    FilterCongruent(rows, (j: Job) => MatchesSearch(j, tags, LowerArg(location), LowerArg(title)),
                          (j: Job) => MatchesSearch(j, tags, location, title));
  }

  // ---------------------------------------------------------------------
  // Creating a listing
  // ---------------------------------------------------------------------

  /** The fields `createJob` sends from the post form. */
  datatype JobDraft = JobDraft(
    title: string,
    description: string,
    location: string,
    salary: int,
    salaryType: SalaryType,
    jobType: seq<string>,
    tags: seq<string>,
    skills: seq<string>,
    negotiable: bool)

  /** The row the backend stores for an insert: the draft's fields, the
      caller as owner, the id and timestamp the backend assigns, and no
      likes or applicants yet. */
  function NewRow(d: JobDraft, id: string, owner: string, stamp: string): (j: Job)
    ensures j.id == id && j.createdBy == owner
    ensures j.likes == [] && j.applicants == [] && Sane(j)
    ensures j.title == d.title && j.description == d.description && j.location == d.location
    ensures j.salary == d.salary && j.salaryType == d.salaryType && j.negotiable == d.negotiable
    ensures j.jobType == d.jobType && j.tags == d.tags && j.skills == d.skills
  {
    Job(id, d.title, d.description, d.location, d.salary, d.salaryType, d.negotiable,
        d.jobType, d.tags, [], d.skills, [], owner, stamp, stamp)
  }

  // ---------------------------------------------------------------------
  // The backend table and the store
  // ---------------------------------------------------------------------

  /** The backend's `jobs` table, its rows kept newest first. */
  class JobsTable {
    var rows: seq<Job>

    ghost predicate Valid()
      reads this
    {
      forall j :: j in rows ==> Sane(j)
    }

    constructor (rows: seq<Job>)
      requires forall j :: j in rows ==> Sane(j)
      ensures Valid() && this.rows == rows
    {
      this.rows := rows;
    }
  }

  datatype StoreState = StoreState(
    jobs: seq<Job>,
    userJobs: seq<Job>,
    loading: bool,
    searchQuery: SearchQuery,
    filters: Filters,
    minSalary: int,
    maxSalary: int)

  class JobsProvider {
    const table: JobsTable
    var jobs: seq<Job>
    var userJobs: seq<Job>
    var loading: bool
    var searchQuery: SearchQuery
    var filters: Filters
    var minSalary: int
    var maxSalary: int

    /** No listing the store or the backend holds has a duplicate like or
        applicant. */
    ghost predicate Valid()
      reads this, table
    {
      && table.Valid()
      && (forall j :: j in jobs ==> Sane(j))
      && (forall j :: j in userJobs ==> Sane(j))
    }

    /** The store's fields as one value. */
    function State(): StoreState
      reads this
    {
      StoreState(jobs, userJobs, loading, searchQuery, filters, minSalary, maxSalary)
    }

    constructor (table: JobsTable)
      requires table.Valid()
      ensures this.table == table && Valid()
      ensures State() == StoreState([], [], false, SearchQuery("", "", ""), NoFilters, InitialMinSalary, InitialMaxSalary)
    {
      this.table := table;
      jobs, userJobs, loading := [], [], false;
      searchQuery := SearchQuery("", "", "");
      filters := NoFilters;
      minSalary, maxSalary := InitialMinSalary, InitialMaxSalary;
    }

    /** `getJobs`: the whole table replaces `jobs`; on an error `jobs` is
        kept. The loading flag ends off either way. */
    method GetJobs(fetch: Outcome)
      requires Valid()
      modifies this
      ensures Valid()
      ensures State() == old(State()).(jobs := if fetch.Ok? then table.rows else old(jobs), loading := false)
    {
      loading := true;
      if fetch.Ok? {
        jobs := table.rows;
      }
      loading := false;
    }

    /** `getUserJobs(userId)`: the rows owned by `userId` replace
        `userJobs`; on an error `userJobs` is kept. */
    method GetUserJobs(userId: string, fetch: Outcome)
      requires Valid()
      modifies this
      ensures Valid()
      ensures State() == old(State()).(userJobs := if fetch.Ok? then JobsOf(table.rows, userId) else old(userJobs),
                                       loading := false)
    {
      loading := true;
      if fetch.Ok? {
        userJobs := JobsOf(table.rows, userId);
      }
      loading := false;
    }

    /** `searchJobs(tags, location, title)`: the matching rows replace
        `jobs` wholesale; on an error `jobs` is kept. */
    method SearchJobs(tags: Option<string>, location: Option<string>, title: Option<string>, fetch: Outcome)
      requires Valid()
      modifies this
      ensures Valid()
      ensures State() == old(State()).(jobs := if fetch.Ok? then SearchResults(table.rows, tags, location, title) else old(jobs),
                                       loading := false)
    {
      loading := true;
      if fetch.Ok? {
        jobs := SearchResults(table.rows, tags, location, title);
      }
      loading := false;
    }

    /** `createJob(draft)`. Signed out, or when the insert fails, nothing
        changes. Otherwise the new row is prepended to the table and to
        `jobs`, the owner's listings are re-fetched when a profile id is
        known, the whole list is re-fetched, and the view is sent to the
        new listing's page. `insert` is the insert's outcome, `newId` and
        `stamp` the id and timestamp the backend gives the row, `mineFetch`
        and `allFetch` the outcomes of the two re-fetches. */
    method CreateJob(user: Option<User>, profile: Option<Profile>, draft: JobDraft,
                     insert: Outcome, newId: string, stamp: string,
                     mineFetch: Outcome, allFetch: Outcome)
      returns (notice: Notice, route: Option<string>)
      requires Valid()
      modifies this, table
      ensures Valid()
      ensures user.None? ==>
        && notice == Error("Please sign in to create a job") && route == None
        && State() == old(State()) && table.rows == old(table.rows)
      ensures user.Some? && insert.Failed? ==>
        && notice == Error("Error creating job") && route == None
        && State() == old(State()) && table.rows == old(table.rows)
      ensures user.Some? && insert.Ok? ==>
        var row := NewRow(draft, newId, user.value.id, stamp);
        && table.rows == [row] + old(table.rows)
        && notice == Success("Job created successfully")
        && route == Some("/job/" + newId)
        && State() == old(State()).(
             jobs := if allFetch.Ok? then table.rows else [row] + old(jobs),
             userJobs := if HasProfileId(profile) && mineFetch.Ok? then JobsOf(table.rows, profile.value.id)
                         else old(userJobs),
             loading := false)
    {
      if user.None? {
        return Error("Please sign in to create a job"), None;
      }
      if insert.Failed? {
        return Error("Error creating job"), None;
      }
      var row := NewRow(draft, newId, user.value.id, stamp);
      table.rows := [row] + table.rows;
      notice := Success("Job created successfully");
      jobs := [row] + jobs;
      if HasProfileId(profile) {
        GetUserJobs(profile.value.id, mineFetch);
      }
      GetJobs(allFetch);
      route := Some("/job/" + newId);
    }

    /** `likeJob(jobId)`. Signed out, or with no local listing of that id,
        nothing is written. Otherwise the likes list computed from the
        LOCAL listing by `ToggleLike` is written to every row with that id
        and, when the write succeeds, the whole list is re-fetched. */
    method LikeJob(user: Option<User>, jobId: string, update: Outcome, refetch: Outcome)
      returns (notice: Notice)
      requires Valid()
      modifies this, table
      ensures Valid()
      ensures user.None? ==>
        notice == Error("Please sign in to like jobs") && State() == old(State()) && table.rows == old(table.rows)
      ensures user.Some? && Find(old(jobs), jobId).None? ==>
        notice == Silent && State() == old(State()) && table.rows == old(table.rows)
      ensures user.Some? && Find(old(jobs), jobId).Some? ==>
        var job := Find(old(jobs), jobId).value;
        var liked := user.value.id in job.likes;
        if update.Failed? then
          notice == Error("Error liking job") && State() == old(State()) && table.rows == old(table.rows)
        else
          && table.rows == SetColumn(old(table.rows), jobId, LikesColumn, ToggleLike(job.likes, user.value.id))
          && notice == Success(if liked then "Job unliked" else "Job liked")
          && State() == old(State()).(jobs := if refetch.Ok? then table.rows else old(jobs), loading := false)
    {
      if user.None? {
        return Error("Please sign in to like jobs");
      }
      var found := Find(jobs, jobId);
      if found.None? {
        return Silent;
      }
      var job := found.value;
      var uid := user.value.id;
      var liked := uid in job.likes;
      var updatedLikes := ToggleLike(job.likes, uid);
      if update.Failed? {
        return Error("Error liking job");
      }
      assert Sane(job);
      SetColumnSane(table.rows, jobId, LikesColumn, updatedLikes);
      table.rows := SetColumn(table.rows, jobId, LikesColumn, updatedLikes);
      notice := Success(if liked then "Job unliked" else "Job liked");
      GetJobs(refetch);
    }

    /** `applyToJob(jobId)`. Signed out, with no local listing of that id,
        or when the caller is already among the LOCAL listing's applicants,
        nothing is written. Otherwise the local applicants with the caller
        appended are written to every row with that id and, when the write
        succeeds, the whole list is re-fetched. */
    method ApplyToJob(user: Option<User>, jobId: string, update: Outcome, refetch: Outcome)
      returns (notice: Notice)
      requires Valid()
      modifies this, table
      ensures Valid()
      ensures user.None? ==>
        notice == Error("Please sign in to apply for jobs") && State() == old(State()) && table.rows == old(table.rows)
      ensures user.Some? && Find(old(jobs), jobId).None? ==>
        notice == Silent && State() == old(State()) && table.rows == old(table.rows)
      ensures user.Some? && Find(old(jobs), jobId).Some? ==>
        var job := Find(old(jobs), jobId).value;
        if user.value.id in job.applicants then
          notice == Error("You have already applied to this job") && State() == old(State()) && table.rows == old(table.rows)
        else if update.Failed? then
          notice == Error("Error applying to job") && State() == old(State()) && table.rows == old(table.rows)
        else
          && table.rows == SetColumn(old(table.rows), jobId, ApplicantsColumn, Applied(job.applicants, user.value.id))
          && notice == Success("Applied to job successfully")
          && State() == old(State()).(jobs := if refetch.Ok? then table.rows else old(jobs), loading := false)
    {
      if user.None? {
        return Error("Please sign in to apply for jobs");
      }
      var found := Find(jobs, jobId);
      if found.None? {
        return Silent;
      }
      var job := found.value;
      var uid := user.value.id;
      if uid in job.applicants {
        return Error("You have already applied to this job");
      }
      var updatedApplicants := Applied(job.applicants, uid);
      if update.Failed? {
        return Error("Error applying to job");
      }
      assert Sane(job);
      SetColumnSane(table.rows, jobId, ApplicantsColumn, updatedApplicants);
      table.rows := SetColumn(table.rows, jobId, ApplicantsColumn, updatedApplicants);
      notice := Success("Applied to job successfully");
      GetJobs(refetch);
    }

    /** `deleteJob(jobId)`. Signed out, or when the delete reports an error,
        nothing changes. Otherwise the backend drops the row only if the
        caller owns it, while BOTH local lists drop every listing with that
        id whether or not a row was deleted. */
    method DeleteJob(user: Option<User>, jobId: string, delete: Outcome)
      returns (notice: Notice)
      requires Valid()
      modifies this, table
      ensures Valid()
      ensures user.None? ==>
        notice == Error("Please sign in to delete jobs") && State() == old(State()) && table.rows == old(table.rows)
      ensures user.Some? && delete.Failed? ==>
        notice == Error("Error deleting job") && State() == old(State()) && table.rows == old(table.rows)
      ensures user.Some? && delete.Ok? ==>
        && table.rows == DeleteOwned(old(table.rows), jobId, user.value.id)
        && notice == Success("Job deleted successfully")
        && State() == old(State()).(jobs := WithoutJob(old(jobs), jobId), userJobs := WithoutJob(old(userJobs), jobId))
    {
      if user.None? {
        return Error("Please sign in to delete jobs");
      }
      if delete.Failed? {
        return Error("Error deleting job");
      }
      table.rows := DeleteOwned(table.rows, jobId, user.value.id);
      jobs := WithoutJob(jobs, jobId);
      userJobs := WithoutJob(userJobs, jobId);
      notice := Success("Job deleted successfully");
    }

    /** `handleSearchChange(field, value)`: one query field overwritten. */
    method HandleSearchChange(field: SearchField, value: string)
      requires Valid()
      modifies this
      ensures Valid()
      ensures State() == old(State()).(searchQuery := WithQueryField(old(searchQuery), field, value))
    {
      searchQuery := WithQueryField(searchQuery, field, value);
    }

    /** `handleFilterChange(name)`: one category flag flipped. */
    method HandleFilterChange(name: FilterName)
      requires Valid()
      modifies this
      ensures Valid()
      ensures State() == old(State()).(filters := ToggleFilter(old(filters), name))
    {
      filters := ToggleFilter(filters, name);
    }

    method SetSearchQuery(q: SearchQuery)
      requires Valid()
      modifies this
      ensures Valid()
      ensures State() == old(State()).(searchQuery := q)
    {
      searchQuery := q;
    }

    method SetFilters(fs: Filters)
      requires Valid()
      modifies this
      ensures Valid()
      ensures State() == old(State()).(filters := fs)
    {
      filters := fs;
    }

    method SetMinSalary(amount: int)
      requires Valid()
      modifies this
      ensures Valid()
      ensures State() == old(State()).(minSalary := amount)
    {
      minSalary := amount;
    }

    method SetMaxSalary(amount: int)
      requires Valid()
      modifies this
      ensures Valid()
      ensures State() == old(State()).(maxSalary := amount)
    {
      maxSalary := amount;
    }
  }
}
