/**
 * The résumé editor of src/components/DataEditor.tsx: a copy of the parsed
 * résumé that the user edits field by field, three input buffers for new
 * list entries, and the handlers that change them. The functional updates
 * React applies (`setEditedData(prev => …)`) become assignments.
 */
module DataEditor {
  import opened Text
  import opened Seqs
  import opened ResumeParser

  /** The text fields `handleInputChange` is called with. */
  datatype TextField = Name | Email | Phone | Location | Summary | RawText

  /** `{ ...data, [field]: value }` for a text field. */
  function WithField(data: ParsedResumeData, field: TextField, value: string): (r: ParsedResumeData)
    ensures r.skills == data.skills && r.experience == data.experience && r.education == data.education
    ensures r.name == (if field == Name then value else data.name)
    ensures r.email == (if field == Email then value else data.email)
    ensures r.phone == (if field == Phone then value else data.phone)
    ensures r.location == (if field == Location then value else data.location)
    ensures r.summary == (if field == Summary then value else data.summary)
    ensures r.rawText == (if field == RawText then value else data.rawText)
  {
    match field
    case Name => data.(name := value)
    case Email => data.(email := value)
    case Phone => data.(phone := value)
    case Location => data.(location := value)
    case Summary => data.(summary := value)
    case RawText => data.(rawText := value)
  }

  /** The value of a text field. */
  function FieldOf(data: ParsedResumeData, field: TextField): string
  {
    match field
    case Name => data.name
    case Email => data.email
    case Phone => data.phone
    case Location => data.location
    case Summary => data.summary
    case RawText => data.rawText
  }

  /** Setting a field and reading it back gives the value; setting it to what it holds changes nothing. */
  lemma WithFieldReadBack(data: ParsedResumeData, field: TextField, value: string)
    ensures FieldOf(WithField(data, field, value), field) == value
    ensures WithField(data, field, FieldOf(data, field)) == data
    ensures forall g :: g != field ==> FieldOf(WithField(data, field, value), g) == FieldOf(data, g)
  {
  }

  /** A list with the trimmed input appended, or the list unchanged when the input is blank. */
  function AddEntry(entries: seq<string>, input: string): (r: seq<string>)
    ensures IsBlank(input) ==> r == entries
    ensures !IsBlank(input) ==> r == entries + [Trim(input)] && IsTrimmed(r[|entries|]) && r[|entries|] != []
  {
    TrimSpec(input);
    if Trim(input) != [] then entries + [Trim(input)] else entries
  }

  /** Removing the entry just added gives the list back. */
  lemma AddThenRemove(entries: seq<string>, input: string)
    requires !IsBlank(input)
    ensures RemoveAt(AddEntry(entries, input), |entries|) == entries
  {
    assert (entries + [Trim(input)])[..|entries|] == entries;
  }

  class Editor {
    var editedData: ParsedResumeData
    var newSkill: string
    var newExperience: string
    var newEducation: string

    /**
     * The editor opens on a copy of the data with empty input buffers; a
     * record is a value here, so the spread copy is the data itself.
     */
    constructor (userData: ParsedResumeData)
      ensures editedData == userData
      ensures newSkill == "" && newExperience == "" && newEducation == ""
    {
      editedData := userData;
      newSkill := "";
      newExperience := "";
      newEducation := "";
    }

    /** `handleInputChange`: only the named field changes. */
    method HandleInputChange(field: TextField, value: string)
      modifies this
      ensures editedData == WithField(old(editedData), field, value)
      ensures newSkill == old(newSkill) && newExperience == old(newExperience) && newEducation == old(newEducation)
    {
      editedData := WithField(editedData, field, value);
    }

    /** Typing into the skill input. */
    method SetNewSkill(value: string)
      modifies this
      ensures newSkill == value
      ensures editedData == old(editedData) && newExperience == old(newExperience) && newEducation == old(newEducation)
    {
      newSkill := value;
    }

    /** Typing into the experience input. */
    method SetNewExperience(value: string)
      modifies this
      ensures newExperience == value
      ensures editedData == old(editedData) && newSkill == old(newSkill) && newEducation == old(newEducation)
    {
      newExperience := value;
    }

    /** Typing into the education input. */
    method SetNewEducation(value: string)
      modifies this
      ensures newEducation == value
      ensures editedData == old(editedData) && newSkill == old(newSkill) && newExperience == old(newExperience)
    {
      newEducation := value;
    }

    /** A non-blank skill is appended trimmed and its input cleared; a blank one changes nothing. */
    method AddSkill()
      modifies this
      ensures editedData == old(editedData).(skills := AddEntry(old(editedData).skills, old(newSkill)))
      ensures newSkill == (if IsBlank(old(newSkill)) then old(newSkill) else "")
      ensures newExperience == old(newExperience) && newEducation == old(newEducation)
    {
      TrimSpec(newSkill);
      if Trim(newSkill) != [] {
        editedData := editedData.(skills := editedData.skills + [Trim(newSkill)]);
        newSkill := "";
      }
    }

    /** `skills.filter((_, i) => i !== index)` */
    method RemoveSkill(index: int)
      modifies this
      ensures editedData == old(editedData).(skills := RemoveAt(old(editedData).skills, index))
      ensures newSkill == old(newSkill) && newExperience == old(newExperience) && newEducation == old(newEducation)
    {
      editedData := editedData.(skills := RemoveAt(editedData.skills, index));
    }

    /** A non-blank experience entry is appended trimmed and its input cleared; a blank one changes nothing. */
    method AddExperience()
      modifies this
      ensures editedData == old(editedData).(experience := AddEntry(old(editedData).experience, old(newExperience)))
      ensures newExperience == (if IsBlank(old(newExperience)) then old(newExperience) else "")
      ensures newSkill == old(newSkill) && newEducation == old(newEducation)
    {
      TrimSpec(newExperience);
      if Trim(newExperience) != [] {
        editedData := editedData.(experience := editedData.experience + [Trim(newExperience)]);
        newExperience := "";
      }
    }

    /** `experience.filter((_, i) => i !== index)` */
    method RemoveExperience(index: int)
      modifies this
      ensures editedData == old(editedData).(experience := RemoveAt(old(editedData).experience, index))
      ensures newSkill == old(newSkill) && newExperience == old(newExperience) && newEducation == old(newEducation)
    {
      editedData := editedData.(experience := RemoveAt(editedData.experience, index));
    }

    /** A non-blank education entry is appended trimmed and its input cleared; a blank one changes nothing. */
    method AddEducation()
      modifies this
      ensures editedData == old(editedData).(education := AddEntry(old(editedData).education, old(newEducation)))
      ensures newEducation == (if IsBlank(old(newEducation)) then old(newEducation) else "")
      ensures newSkill == old(newSkill) && newExperience == old(newExperience)
    {
      TrimSpec(newEducation);
      if Trim(newEducation) != [] {
        editedData := editedData.(education := editedData.education + [Trim(newEducation)]);
        newEducation := "";
      }
    }

    /** `education.filter((_, i) => i !== index)` */
    method RemoveEducation(index: int)
      modifies this
      ensures editedData == old(editedData).(education := RemoveAt(old(editedData).education, index))
      ensures newSkill == old(newSkill) && newExperience == old(newExperience) && newEducation == old(newEducation)
    {
      editedData := editedData.(education := RemoveAt(editedData.education, index));
    }

    /** `handleSave`: the edited résumé, as it stands, is what the callback receives. */
    method HandleSave() returns (saved: ParsedResumeData)
      ensures saved == editedData
    {
      saved := editedData;
    }
  }
}
