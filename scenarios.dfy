/** Two successive calls on the job store, as a user double-clicks. Both
    writes succeed; whether the list re-fetch after the first call succeeds
    decides what the second call computes, because `likeJob` and
    `applyToJob` work from the LOCAL listing. */
module StoreScenarios {
  import opened Types
  import opened JobsContext

  /** Liking twice from "not liked": with a successful re-fetch in between
      the backend rows end with the local likes restored; when that re-fetch
      fails the second call recomputes from the stale local listing and the
      rows stay liked. */
  method LikeTwice(store: JobsProvider, user: User, jobId: string, refetch1: Outcome, refetch2: Outcome)
    requires store.Valid()
    requires Find(store.jobs, jobId).Some?
    requires user.id !in Find(store.jobs, jobId).value.likes
    modifies store, store.table
    ensures store.Valid()
    ensures var before := Find(old(store.jobs), jobId).value.likes;
            forall j :: j in store.table.rows && j.id == jobId ==>
              j.likes == if refetch1.Ok? then before else ToggleLike(before, user.id)
  {
    var before := Find(store.jobs, jobId).value.likes;
    var once := ToggleLike(before, user.id);
    var rows0 := store.table.rows;
    var n1 := store.LikeJob(Some(user), jobId, Ok, refetch1);
    assert store.table.rows == SetColumn(rows0, jobId, LikesColumn, once);
    SetColumnAt(rows0, jobId, LikesColumn, once);
    var local := Find(store.jobs, jobId);
    if refetch1.Ok? {
      assert store.jobs == store.table.rows;
      assert local.Some? ==> local.value.likes == once;
    } else {
      assert store.jobs == old(store.jobs);
    }
    ToggleLikeTwiceRestores(before, user.id);
    var rows1 := store.table.rows;
    var n2 := store.LikeJob(Some(user), jobId, Ok, refetch2);
    if local.Some? {
      assert store.table.rows == SetColumn(rows1, jobId, LikesColumn, ToggleLike(local.value.likes, user.id));
      SetColumnAt(rows1, jobId, LikesColumn, ToggleLike(local.value.likes, user.id));
    } else {
      assert store.table.rows == rows1;
    }
  }

  /** Applying twice: every row with that id ends with the caller's id
      appended once to the local applicants. The second call reports
      "already applied" exactly when the re-fetch after the first call
      succeeded; otherwise it writes the same list again. */
  method ApplyTwice(store: JobsProvider, user: User, jobId: string, refetch1: Outcome, refetch2: Outcome)
    returns (second: Notice)
    requires store.Valid()
    requires Find(store.jobs, jobId).Some?
    requires user.id !in Find(store.jobs, jobId).value.applicants
    modifies store, store.table
    ensures store.Valid()
    ensures var before := Find(old(store.jobs), jobId).value.applicants;
            forall j :: j in store.table.rows && j.id == jobId ==>
              j.applicants == Applied(before, user.id) && multiset(j.applicants)[user.id] == 1
    ensures second == if refetch1.Failed? then Success("Applied to job successfully")
                      else if Find(old(store.table.rows), jobId).Some? then Error("You have already applied to this job")
                      else Silent
  {
    var before := Find(store.jobs, jobId).value.applicants;
    var once := Applied(before, user.id);
    AppliedTwiceOneEntry(before, user.id);
    AppliedIdempotent(before, user.id);
    assert multiset(once)[user.id] == 1 && user.id in once;
    ApplyFirst(store, user, jobId, before, refetch1);
    if refetch1.Ok? {
      second := ApplyAfterRefresh(store, user, jobId, once, refetch2);
    } else {
      second := ApplyFromStale(store, user, jobId, before, refetch2);
    }
    ApplicantsAt(store.table.rows, jobId, once);
  }

  /** `ColumnAt` for the applicants column, read as the field itself. */
  lemma ApplicantsAt(rows: seq<Job>, id: string, ids: seq<string>)
    requires ColumnAt(rows, id, ApplicantsColumn, ids)
    ensures forall j :: j in rows && j.id == id ==> j.applicants == ids
  {
  }

  /** The first apply of `ApplyTwice`: the caller is appended to the local
      applicants, written to every row with that id, and the local list is
      the table again exactly when the re-fetch succeeds. */
  method ApplyFirst(store: JobsProvider, user: User, jobId: string, before: seq<string>, refetch: Outcome)
    requires store.Valid()
    requires Find(store.jobs, jobId).Some? && Find(store.jobs, jobId).value.applicants == before
    requires user.id !in before
    modifies store, store.table
    ensures store.Valid()
    ensures ColumnAt(store.table.rows, jobId, ApplicantsColumn, Applied(before, user.id))
    ensures Find(store.table.rows, jobId).Some? == Find(old(store.table.rows), jobId).Some?
    ensures refetch.Ok? ==> store.jobs == store.table.rows
    ensures refetch.Failed? ==> store.jobs == old(store.jobs)
  {
    var rows0 := store.table.rows;
    var once := Applied(before, user.id);
    var n := store.ApplyToJob(Some(user), jobId, Ok, refetch);
    SetColumnAt(rows0, jobId, ApplicantsColumn, once);
    SetColumnKeepsIds(rows0, jobId, ApplicantsColumn, once);
  }

  /** The second apply of `ApplyTwice` when the local list was re-fetched:
      the caller is already among the applicants the store shows, so nothing
      is written. */
  method ApplyAfterRefresh(store: JobsProvider, user: User, jobId: string, once: seq<string>, refetch: Outcome)
    returns (notice: Notice)
    requires store.Valid()
    requires store.jobs == store.table.rows
    requires user.id in once
    requires ColumnAt(store.table.rows, jobId, ApplicantsColumn, once)
    modifies store, store.table
    ensures store.Valid()
    ensures store.table.rows == old(store.table.rows)
    ensures notice == if Find(old(store.table.rows), jobId).Some? then Error("You have already applied to this job") else Silent
  {
    var local := Find(store.jobs, jobId);
    assert local.Some? ==> ColumnOf(local.value, ApplicantsColumn) == once;
    notice := store.ApplyToJob(Some(user), jobId, Ok, refetch);
  }

  /** The second apply of `ApplyTwice` when the re-fetch failed: the store
      still shows the listing without the caller, so the same list is
      written again. */
  method ApplyFromStale(store: JobsProvider, user: User, jobId: string, before: seq<string>, refetch: Outcome)
    returns (notice: Notice)
    requires store.Valid()
    requires Find(store.jobs, jobId).Some? && Find(store.jobs, jobId).value.applicants == before
    requires user.id !in before
    modifies store, store.table
    ensures store.Valid()
    ensures ColumnAt(store.table.rows, jobId, ApplicantsColumn, Applied(before, user.id))
    ensures notice == Success("Applied to job successfully")
  {
    var rows1 := store.table.rows;
    notice := store.ApplyToJob(Some(user), jobId, Ok, refetch);
    SetColumnAt(rows1, jobId, ApplicantsColumn, Applied(before, user.id));
  }
}
