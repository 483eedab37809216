/** The "my jobs" page: a tab selector between the user's own listings and
    the listings the user has liked, with an empty-state message per tab. */
module MyJobsPage {
  import opened Types
  import opened Seqs
  import JobsContext

  datatype Tab = Posts | Likes

  /** `profile?.id || ''`. */
  function UserIdOrEmpty(profile: Option<Profile>): string
  {
    if profile.Some? then profile.value.id else ""
  }

  /** The listings whose likes contain the user's id, in list order, each
      as often as in `jobs`. */
  function LikedJobs(jobs: seq<Job>, profile: Option<Profile>): (r: seq<Job>)
    ensures forall j :: j in r <==> j in jobs && UserIdOrEmpty(profile) in j.likes
    ensures forall j: Job :: UserIdOrEmpty(profile) in j.likes ==> multiset(r)[j] == multiset(jobs)[j]
    ensures IsSubsequence(r, jobs)
  {
    var uid := UserIdOrEmpty(profile);
    Filter(jobs, (j: Job) => uid in j.likes)
  }

  datatype Screen =
    | Blank                                         // rendered as nothing
    | Shown(message: Option<string>, listed: seq<Job>)

  const NoPostsMessage := "No job posts found."
  const NoLikesMessage := "No liked jobs found."

  /** The page for the given authentication-loading flag, tab and lists. */
  function Render(authLoading: bool, tab: Tab, userJobs: seq<Job>, jobs: seq<Job>, profile: Option<Profile>): (v: Screen)
    ensures v.Blank? <==> authLoading
    ensures v.Shown? ==> (v.message == Some(NoPostsMessage) <==> tab == Posts && userJobs == [])
    ensures v.Shown? ==> (v.message == Some(NoLikesMessage) <==> tab == Likes && LikedJobs(jobs, profile) == [])
    ensures v.Shown? ==> v.listed == if tab == Posts then userJobs else LikedJobs(jobs, profile)
    ensures v.Shown? ==> (v.message.Some? <==> v.listed == [])
  {
    if authLoading then Blank
    else
      match tab
      case Posts => Shown(if userJobs == [] then Some(NoPostsMessage) else None, userJobs)
      case Likes =>
        var liked := LikedJobs(jobs, profile);
        Shown(if liked == [] then Some(NoLikesMessage) else None, liked)
  }

  /** After a like by the profile's owner is written, every row with that
      id is among the liked jobs exactly when the local listing the like
      was computed from was not liked yet. */
  lemma LikeWriteShowsInLikedTab(rows: seq<Job>, id: string, local: Job, profile: Option<Profile>)
    requires profile.Some?
    ensures var uid := profile.value.id;
            var written := JobsContext.SetColumn(rows, id, JobsContext.LikesColumn, JobsContext.ToggleLike(local.likes, uid));
            forall j :: j in written && j.id == id ==> (j in LikedJobs(written, profile) <==> uid !in local.likes)
  {
    var uid := profile.value.id;
    var written := JobsContext.SetColumn(rows, id, JobsContext.LikesColumn, JobsContext.ToggleLike(local.likes, uid));
    forall j | j in written && j.id == id
      ensures j in LikedJobs(written, profile) <==> uid !in local.likes
    {
      var i :| 0 <= i < |written| && written[i] == j;
      assert j.likes == JobsContext.ToggleLike(local.likes, uid);
    }
  }

  /** The tab selector. */
  class MyJobsView {
    var activeTab: Tab

    constructor ()
      ensures activeTab == Posts
    {
      activeTab := Posts;
    }

    /** The "My Job Posts" button. */
    method SelectPosts()
      modifies this
      ensures activeTab == Posts
    {
      activeTab := Posts;
    }

    /** The "Liked Jobs" button. */
    method SelectLikes()
      modifies this
      ensures activeTab == Likes
    {
      activeTab := Likes;
    }
  }
}
