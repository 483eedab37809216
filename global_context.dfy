/** The job-post form state: one field per form input, each overwritten by
    its setter, the title and description normalised by `trimStart`, and a
    reset that restores the starting values. */
module GlobalContext {
  import opened Text

  datatype Location = Location(country: string, city: string, address: string)

  /** The form's fields as one value. */
  datatype JobForm = JobForm(
    jobTitle: string,
    jobDescription: string,
    salary: int,
    activeEmploymentTypes: seq<string>,
    salaryType: string,
    negotiable: bool,
    tags: seq<string>,
    skills: seq<string>,
    location: Location)

  /** The values the form starts with and returns to on reset. */
  const BlankForm := JobForm("", "", 0, [], "Yearly", false, [], [], Location("", "", ""))

  class GlobalContextProvider {
    var jobTitle: string
    var jobDescription: string
    var salary: int
    var activeEmploymentTypes: seq<string>
    var salaryType: string
    var negotiable: bool
    var tags: seq<string>
    var skills: seq<string>
    var location: Location

    function Form(): JobForm
      reads this
    {
      JobForm(jobTitle, jobDescription, salary, activeEmploymentTypes, salaryType,
              negotiable, tags, skills, location)
    }

    constructor ()
      ensures Form() == BlankForm
    {
      jobTitle, jobDescription, salary := "", "", 0;
      activeEmploymentTypes, salaryType, negotiable := [], "Yearly", false;
      tags, skills := [], [];
      location := Location("", "", "");
    }

    /** `handleTitleChange`: the input stored without its leading
        whitespace. */
    method HandleTitleChange(value: string)
      modifies this
      ensures Form() == old(Form()).(jobTitle := TrimStart(value))
      ensures jobTitle == [] || !IsWhitespace(jobTitle[0])
    {
      jobTitle := TrimStart(value);
    }

    /** `handleDescriptionChange`: normalised like the title. */
    method HandleDescriptionChange(value: string)
      modifies this
      ensures Form() == old(Form()).(jobDescription := TrimStart(value))
      ensures jobDescription == [] || !IsWhitespace(jobDescription[0])
    {
      jobDescription := TrimStart(value);
    }

    /** `handleSalaryChange`, given the number the input converts to. */
    method HandleSalaryChange(amount: int)
      modifies this
      ensures Form() == old(Form()).(salary := amount)
    {
      salary := amount;
    }

    method SetActiveEmploymentTypes(types: seq<string>)
      modifies this
      ensures Form() == old(Form()).(activeEmploymentTypes := types)
    {
      activeEmploymentTypes := types;
    }

    /** The raw description setter: unlike the change handler it stores the
        text as given. */
    method SetJobDescription(text: string)
      modifies this
      ensures Form() == old(Form()).(jobDescription := text)
    {
      jobDescription := text;
    }

    method SetSalaryType(t: string)
      modifies this
      ensures Form() == old(Form()).(salaryType := t)
    {
      salaryType := t;
    }

    method SetNegotiable(b: bool)
      modifies this
      ensures Form() == old(Form()).(negotiable := b)
    {
      negotiable := b;
    }

    method SetTags(ts: seq<string>)
      modifies this
      ensures Form() == old(Form()).(tags := ts)
    {
      tags := ts;
    }

    method SetSkills(ss: seq<string>)
      modifies this
      ensures Form() == old(Form()).(skills := ss)
    {
      skills := ss;
    }

    method SetLocation(loc: Location)
      modifies this
      ensures Form() == old(Form()).(location := loc)
    {
      location := loc;
    }

    /** `resetJobForm`: every field back to its starting value. */
    method ResetJobForm()
      modifies this
      ensures Form() == BlankForm
    {
      jobTitle := "";
      jobDescription := "";
      salary := 0;
      activeEmploymentTypes := [];
      salaryType := "Yearly";
      negotiable := false;
      tags := [];
      skills := [];
      location := Location("", "", "");
    }
  }
}
