/**
 * The preferences form: the job title, job type and experience level are
 * each held as a list of at most one value.  Typing or a chip sets the title,
 * focusing the title field clears it when it shows the held title, the two
 * selects set their own list, and submitting hands the three lists over.
 * A chip is a `<button>` without a `type` inside the form, so clicking it
 * also submits the form.  The option texts are inputs.
 */
module SelectPreferences {

  /** The object passed to `onSubmit`. */
  datatype Preferences = Preferences(jobTitle: seq<string>, jobType: seq<string>, experienceLevel: seq<string>)

  /** The form's state. */
  class PreferencesForm {
    var jobTitle: seq<string>
    var jobType: seq<string>
    var experienceLevel: seq<string>

    /** No list ever holds more than one value. */
    ghost predicate Valid()
      reads this
    {
      |jobTitle| <= 1 && |jobType| <= 1 && |experienceLevel| <= 1
    }

    constructor ()
      ensures Valid()
      ensures jobTitle == [] && jobType == [] && experienceLevel == []
    {
      jobTitle, jobType, experienceLevel := [], [], [];
    }

    /** `handleSelectChange`: the select named `jobType` or `experienceLevel` sets its own list; any other name changes nothing. */
    method HandleSelectChange(name: string, value: string)
      requires Valid()
      modifies this
      ensures Valid()
      ensures jobTitle == old(jobTitle)
      ensures jobType == (if name == "jobType" then [value] else old(jobType))
      ensures experienceLevel == (if name == "experienceLevel" then [value] else old(experienceLevel))
    {
      if name == "jobType" {
        jobType := [value];
      } else if name == "experienceLevel" {
        experienceLevel := [value];
      }
    }

    /** Typing in the title field. */
    method TitleChange(value: string)
      requires Valid()
      modifies this
      ensures Valid()
      ensures jobTitle == [value]
      ensures jobType == old(jobType) && experienceLevel == old(experienceLevel)
    {
      jobTitle := [value];
    }

    /** Focusing the title field, whose current text is `inputValue`. */
    method TitleFocus(inputValue: string)
      requires Valid()
      modifies this
      ensures Valid()
      ensures jobTitle == (if inputValue in old(jobTitle) then [""] else old(jobTitle))
      ensures jobType == old(jobType) && experienceLevel == old(experienceLevel)
    {
      if inputValue in jobTitle {
        jobTitle := [""];
      }
    }

    /**
     * A title chip: sets the title and, being a submit button by default,
     * submits the form; the click's state update is committed before the
     * `submit` event, so `handleSubmit` forwards the chip's title.
     */
    method ChipClick(option: string) returns (submitted: Preferences)
      requires Valid()
      modifies this
      ensures Valid()
      ensures jobTitle == [option] && ChipSelected(option)
      ensures jobType == old(jobType) && experienceLevel == old(experienceLevel)
      ensures submitted == Preferences([option], old(jobType), old(experienceLevel))
    {
      jobTitle := [option];
      submitted := HandleSubmit();
    }

    /** The title field's value, `jobTitle[0] || ''`. */
    function TitleInputValue(): (v: string)
      reads this
      ensures jobTitle == [] ==> v == ""
      ensures jobTitle != [] ==> v == jobTitle[0]
    {
      if jobTitle != [] then jobTitle[0] else ""
    }

    /** A chip is highlighted while its option is the held title. */
    predicate ChipSelected(option: string)
      reads this
    {
      option in jobTitle
    }

    /** At most one chip is highlighted, and it is the one the title field shows. */
    lemma AtMostOneChip(a: string, b: string)
      requires Valid()
      ensures ChipSelected(a) && ChipSelected(b) ==> a == b
      ensures ChipSelected(a) ==> TitleInputValue() == a
    {
    }

    /** `handleSubmit`: forwards the three lists as they are and changes nothing. */
    method HandleSubmit() returns (payload: Preferences)
      requires Valid()
      ensures payload == Preferences(jobTitle, jobType, experienceLevel)
      ensures |payload.jobTitle| <= 1 && |payload.jobType| <= 1 && |payload.experienceLevel| <= 1
    {
      payload := Preferences(jobTitle, jobType, experienceLevel);
    }
  }
}
