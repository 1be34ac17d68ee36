/** np/components/workspace/CreateWorkspaceForm.tsx: the form's two fields,
    their error messages, the validation that sets them, and the submit that
    hands the trimmed values on. Lengths are JavaScript `.length`, in UTF-16
    code units. */
module CreateWorkspaceForm {
  import opened Text

  const NameRequired := "Workspace name is required"
  const NameTooShort := "Workspace name must be at least 3 characters"
  const DescriptionTooLong := "Description must be less than 500 characters"

  /** The name check: required once trimmed, and then at least 3 long. */
  function NameError(name: string): (e: string)
    ensures e == "" <==> Utf16Length(Trim(name)) >= 3
    ensures Trim(name) == "" ==> e == NameRequired
    ensures Trim(name) != "" && Utf16Length(Trim(name)) < 3 ==> e == NameTooShort
  {
    var t := Trim(name);
    if t == "" then NameRequired
    else if Utf16Length(t) < 3 then NameTooShort
    else ""
  }

  /** The description check: at most 500 once trimmed (500 itself passes). */
  function DescriptionError(description: string): (e: string)
    ensures e == "" <==> Utf16Length(Trim(description)) <= 500
    ensures e != "" ==> e == DescriptionTooLong
  {
    if Utf16Length(Trim(description)) > 500 then DescriptionTooLong else ""
  }

  /** A name is reported missing exactly when it is all white space. */
  lemma NameRequiredIffBlank(name: string)
    ensures NameError(name) == NameRequired <==> forall i :: 0 <= i < |name| ==> IsJsSpace(name[i])
  {
    TrimEmptyIffBlank(name);
  }

  /** The form's state. `submitted` records the values each `onSubmit` call
      received. */
  class Form {
    var name: string
    var description: string
    var nameError: string
    var descriptionError: string
    var submitted: seq<(string, string)>

    constructor ()
      ensures name == "" && description == "" && nameError == "" && descriptionError == ""
      ensures submitted == []
    {
      name := "";
      description := "";
      nameError := "";
      descriptionError := "";
      submitted := [];
    }

    /** Typing into the name field. */
    method SetName(value: string)
      modifies this
      ensures name == value
      ensures description == old(description) && nameError == old(nameError)
      ensures descriptionError == old(descriptionError) && submitted == old(submitted)
    {
      name := value;
    }

    /** Typing into the description field. */
    method SetDescription(value: string)
      modifies this
      ensures description == value
      ensures name == old(name) && nameError == old(nameError)
      ensures descriptionError == old(descriptionError) && submitted == old(submitted)
    {
      description := value;
    }

    /** `validateForm`: both fields are checked on every call, each error is
      set or cleared, and the form is valid exactly when neither check
      failed. */
    method ValidateForm() returns (isValid: bool)
      modifies this
      ensures nameError == NameError(name) && descriptionError == DescriptionError(description)
      ensures isValid <==> nameError == "" && descriptionError == ""
      ensures isValid <==> Utf16Length(Trim(name)) >= 3 && Utf16Length(Trim(description)) <= 500
      ensures name == old(name) && description == old(description) && submitted == old(submitted)
    {
      nameError := NameError(name);
      descriptionError := DescriptionError(description);
      isValid := nameError == "" && descriptionError == "";
    }

    /** `handleSubmit`: after validation, `onSubmit` receives the trimmed name
      and description, and only when the form is valid. */
    method HandleSubmit()
      modifies this
      ensures nameError == NameError(name) && descriptionError == DescriptionError(description)
      ensures nameError == "" && descriptionError == "" ==>
        submitted == old(submitted) + [(Trim(name), Trim(description))]
      ensures !(nameError == "" && descriptionError == "") ==> submitted == old(submitted)
      ensures forall i :: |old(submitted)| <= i < |submitted| ==>
        Utf16Length(submitted[i].0) >= 3 && Utf16Length(submitted[i].1) <= 500
      ensures name == old(name) && description == old(description)
    {
      var valid := ValidateForm();
      if valid {
        submitted := submitted + [(Trim(name), Trim(description))];
      }
    }

    /** The submit button is disabled while loading or while the trimmed name
      is empty. */
    predicate SubmitDisabled(loading: bool)
      reads this
    {
      loading || Trim(name) == ""
    }
  }

  /** The button is disabled, when not loading, exactly for the names that
      validation reports missing. */
  lemma SubmitDisabledIffNameRequired(f: Form, loading: bool)
    ensures f.SubmitDisabled(loading) <==> loading || NameError(f.name) == NameRequired
  {
  }

  /** An enabled submit button does not mean a valid form: a name of one or
      two characters once trimmed enables it and is then refused as too
      short. */
  lemma EnabledButTooShort(f: Form)
    requires Trim(f.name) != "" && Utf16Length(Trim(f.name)) < 3
    ensures !f.SubmitDisabled(false) && NameError(f.name) == NameTooShort
  {
  }
}
