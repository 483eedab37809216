/** The card of a listing on the "my jobs" page: the same bookmark flag as
    the listing card, plus edit and delete controls offered to the
    listing's owner only. */
module MyJobView {
  import opened Types
  import opened JobCardView

  datatype Control = EditControl | DeleteControl

  /** What pressing a control asks the store to do. */
  datatype Action = NoAction | DeleteRequest(id: string)

  /** `job.created_by === profile?.id`: false when there is no profile. */
  predicate IsOwner(job: Job, profile: Option<Profile>)
  {
    profile.Some? && job.createdBy == profile.value.id
  }

  /** The controls the card offers. */
  function Controls(job: Job, profile: Option<Profile>): (cs: seq<Control>)
    ensures cs != [] <==> IsOwner(job, profile)
    ensures cs != [] ==> cs == [EditControl, DeleteControl]
  {
    if IsOwner(job, profile) then [EditControl, DeleteControl] else []
  }

  /** The edit control has no handler; the delete control asks for
      `deleteJob(job.id)`. */
  function Press(c: Control, job: Job): (a: Action)
    ensures a.DeleteRequest? <==> c == DeleteControl
    ensures a.DeleteRequest? ==> a.id == job.id
  {
    match c
    case EditControl => NoAction
    case DeleteControl => DeleteRequest(job.id)
  }

  /** Only the owner can reach a delete request, and only for this card's
      listing. */
  lemma DeleteReachableOnlyByOwner(job: Job, profile: Option<Profile>, c: Control)
    requires c in Controls(job, profile)
    ensures IsOwner(job, profile)
    ensures Press(c, job).DeleteRequest? ==> Press(c, job).id == job.id && job.createdBy == profile.value.id
  {
  }

  class MyJob {
    const job: Job
    const flag: LikeFlag

    constructor (job: Job)
      ensures this.job == job && fresh(flag) && !flag.isLiked
    {
      this.job := job;
      flag := new LikeFlag();
    }

    /** `handleLike(id)`: a no-op when signed out; otherwise the flag flips
        and `likeJob(id)` is requested once. */
    method HandleLike(user: Option<User>, id: string) returns (request: Option<string>)
      modifies flag
      ensures user.None? ==> flag.isLiked == old(flag.isLiked) && request == None
      ensures user.Some? ==> flag.isLiked == !old(flag.isLiked) && request == Some(id)
    {
      request := flag.HandleLike(user, id);
    }

    /** The re-sync effect on this card's listing. */
    method Sync(profile: Option<Profile>)
      modifies flag
      ensures HasProfileId(profile) ==> flag.isLiked == (profile.value.id in job.likes)
      ensures !HasProfileId(profile) ==> flag.isLiked == old(flag.isLiked)
    {
      flag.Sync(job.likes, profile);
    }
  }
}
