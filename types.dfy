/** The records the client exchanges with the backend: a job listing and a
    profile, with their enumerations. Timestamps are kept as the strings the
    backend sends. */
module Types {

  datatype Option<T> = None | Some(value: T)

  /** The pay period of a listing's salary. */
  datatype SalaryType = Yearly | Monthly | Weekly | Hourly

  /** The name the backend stores for a pay period. */
  function SalaryTypeName(t: SalaryType): (name: string)
    ensures name in {"Yearly", "Monthly", "Weekly", "Hourly"}
  {
    match t
    case Yearly => "Yearly"
    case Monthly => "Monthly"
    case Weekly => "Weekly"
    case Hourly => "Hourly"
  }

  /** Distinct pay periods are stored under distinct names. */
  lemma SalaryTypeNameInjective(a: SalaryType, b: SalaryType)
    requires SalaryTypeName(a) == SalaryTypeName(b)
    ensures a == b
  {
  }

  datatype Role = Jobseeker | Recruiter

  /** A row of the `jobs` table. `likes` and `applicants` hold profile ids;
      `createdBy` is the id of the owning profile. */
  datatype Job = Job(
    id: string,
    title: string,
    description: string,
    location: string,
    salary: int,
    salaryType: SalaryType,
    negotiable: bool,
    jobType: seq<string>,
    tags: seq<string>,
    likes: seq<string>,
    skills: seq<string>,
    applicants: seq<string>,
    createdBy: string,
    createdAt: string,
    updatedAt: string)

  /** A row of the `profiles` table. */
  datatype Profile = Profile(
    id: string,
    email: string,
    name: Option<string>,
    profilePicture: Option<string>,
    bio: Option<string>,
    profession: Option<string>,
    role: Role,
    createdAt: string,
    updatedAt: string)

  /** The signed-in identity as the authentication service reports it. */
  datatype User = User(id: string)

  /** JavaScript's `profile?.id` used as a condition: a profile is present
      and its id is a non-empty string. */
  predicate HasProfileId(profile: Option<Profile>)
  {
    profile.Some? && profile.value.id != ""
  }
}
