/** What a listing card derives from its listing (badge colours, the pay
    period suffix, the applicant count label, the shortened description)
    and its bookmark flag, which `handleLike` flips and the like list
    re-synchronises. */
module JobCardView {
  import opened Types

  const GreenBadge := "bg-green-500/20 text-green-600"
  const PurpleBadge := "bg-purple-500/20 text-purple-600"
  const RedBadge := "bg-red-500/20 text-red-600"
  const IndigoBadge := "bg-indigo-500/20 text-indigo-600"
  const GrayBadge := "bg-gray-500/20 text-gray-600"

  /** The job types that have a colour of their own. */
  const KnownJobTypes: set<string> := {"Full Time", "Part Time", "Contract", "Internship"}

  /** `jobTypeBg`: the badge classes of a job type. */
  function JobTypeBg(t: string): (cls: string)
    ensures cls in {GreenBadge, PurpleBadge, RedBadge, IndigoBadge, GrayBadge}
    ensures cls == GrayBadge <==> t !in KnownJobTypes
    ensures t == "Full Time" ==> cls == GreenBadge
    ensures t == "Part Time" ==> cls == PurpleBadge
    ensures t == "Contract" ==> cls == RedBadge
    ensures t == "Internship" ==> cls == IndigoBadge
  {
    if t == "Full Time" then GreenBadge
    else if t == "Part Time" then PurpleBadge
    else if t == "Contract" then RedBadge
    else if t == "Internship" then IndigoBadge
    else GrayBadge
  }

  /** The four known job types get four different colours. */
  lemma JobTypeBgDistinguishesKnown(a: string, b: string)
    requires a in KnownJobTypes && b in KnownJobTypes && a != b
    ensures JobTypeBg(a) != JobTypeBg(b)
  {
  }

  /** The suffix shown after the salary, chosen by comparing the stored
      pay period name; every name other than the first three gives "ph". */
  function SalarySuffix(salaryType: string): (suffix: string)
    ensures suffix in {"pa", "pcm", "pw", "ph"}
    ensures suffix == "ph" <==> salaryType !in {"Yearly", "Monthly", "Weekly"}
    ensures salaryType == "Yearly" ==> suffix == "pa"
    ensures salaryType == "Monthly" ==> suffix == "pcm"
    ensures salaryType == "Weekly" ==> suffix == "pw"
  {
    if salaryType == "Yearly" then "pa"
    else if salaryType == "Monthly" then "pcm"
    else if salaryType == "Weekly" then "pw"
    else "ph"
  }

  /** Over the four pay periods the suffix is total and tells them apart;
      an hourly salary reads "ph". */
  lemma SalarySuffixOfPayPeriods(a: SalaryType, b: SalaryType)
    ensures SalarySuffix(SalaryTypeName(Hourly)) == "ph"
    ensures SalarySuffix(SalaryTypeName(a)) == SalarySuffix(SalaryTypeName(b)) ==> a == b
  {
  }

  /** The word after the applicant count: plural only above one. */
  function ApplicantLabel(count: nat): (word: string)
    ensures word == "Applicants" <==> count > 1
    ensures word != "Applicants" ==> word == "Applicant"
  {
    if count > 1 then "Applicants" else "Applicant"
  }

  const DescriptionLimit := 100

  /** A text longer than 100 characters is cut to its first 100 characters
      followed by "..."; a shorter one is shown as it is. */
  function Truncate(s: string): (r: string)
    ensures |s| > DescriptionLimit ==> |r| == DescriptionLimit + 3 && r[..DescriptionLimit] == s[..DescriptionLimit] && r[DescriptionLimit..] == "..."
    ensures |s| <= DescriptionLimit ==> r == s
  {
    if |s| > DescriptionLimit then s[..DescriptionLimit] + "..." else s
  }

  /** The fixed placeholder text the card shows as the company description. */
  const CompanyDescription := "Lorem ipsum dolor sit amet, consectetur adipiscing elit. Sed ut purus eget nunc."

  /** The placeholder is shorter than the limit, so the card shows it whole. */
  lemma CompanyDescriptionShownWhole()
    ensures Truncate(CompanyDescription) == CompanyDescription
  {
  }

  /** The bookmark flag of one card. */
  class LikeFlag {
    var isLiked: bool

    constructor ()
      ensures !isLiked
    {
      isLiked := false;
    }

    /** `handleLike(id)`: signed out nothing happens; signed in the flag
        flips at once and `likeJob(id)` is requested, exactly once. The
        request is returned rather than performed. */
    method HandleLike(user: Option<User>, id: string) returns (request: Option<string>)
      modifies this
      ensures user.None? ==> isLiked == old(isLiked) && request == None
      ensures user.Some? ==> isLiked == !old(isLiked) && request == Some(id)
    {
      if user.None? {
        return None;
      }
      isLiked := !isLiked;
      request := Some(id);
    }

    /** The effect run when the listing's likes or the profile id change:
        with a profile id the flag becomes "my id is among the likes",
        without one it is left as it was. */
    method Sync(likes: seq<string>, profile: Option<Profile>)
      modifies this
      ensures HasProfileId(profile) ==> isLiked == (profile.value.id in likes)
      ensures !HasProfileId(profile) ==> isLiked == old(isLiked)
    {
      if HasProfileId(profile) {
        isLiked := profile.value.id in likes;
      }
    }
  }
}
