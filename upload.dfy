/** The upload page of app/routes/upload.tsx: the validation of the job
    fields when the form is submitted, the clearing of the validation error
    when a file is chosen, the choice between the general and the
    job-specific prompt, and the record stored for a new analysis. */
module Upload {
  import opened Wrappers
  import opened Strings
  import opened Constants

  const NoFileError := "Please upload a resume file."
  const CompanyNeedsJobError :=
    "If you provide a company name, both Job Title and Job Description are required."
  const AllOrNothingError :=
    "Please either fill in all job details (Company Name, Job Title, and Job Description) or leave them all empty for general resume analysis."

  /** The chosen resume file; its contents never reach the validation. */
  datatype ResumeFile = ResumeFile(name: string, size: nat)

  /** The three text inputs of the form, as the form data hands them over. */
  datatype FormFields = FormFields(companyName: string, jobTitle: string, jobDescription: string)

  /** `field?.trim()` is truthy. */
  predicate Filled(field: string) {
    !Blank(field)
  }

  predicate AllFilled(form: FormFields) {
    Filled(form.companyName) && Filled(form.jobTitle) && Filled(form.jobDescription)
  }

  predicate NoneFilled(form: FormFields) {
    !Filled(form.companyName) && !Filled(form.jobTitle) && !Filled(form.jobDescription)
  }

  datatype Verdict = Accepted | Rejected(message: string)

  /** The checks of `handleSubmit`, in their order: a file is required; a
      company name requires a title and a description; and the three job
      fields are filled in all together or not at all. */
  function Validate(file: Option<ResumeFile>, form: FormFields): (v: Verdict)
    ensures v == Accepted <==> file.Some? && (AllFilled(form) || NoneFilled(form))
    ensures v == Rejected(NoFileError) <==> file.None?
    ensures v == Rejected(CompanyNeedsJobError) <==>
      file.Some? && Filled(form.companyName) && !(Filled(form.jobTitle) && Filled(form.jobDescription))
    ensures v == Rejected(AllOrNothingError) <==>
      file.Some? && !Filled(form.companyName) && (Filled(form.jobTitle) || Filled(form.jobDescription))
  {
    var hasAnyJobField := Filled(form.companyName) || Filled(form.jobTitle) || Filled(form.jobDescription);
    var hasAllJobFields := AllFilled(form);
    if file.None? then
      Rejected(NoFileError)
    else if Filled(form.companyName) && (!Filled(form.jobTitle) || !Filled(form.jobDescription)) then
      Rejected(CompanyNeedsJobError)
    else if hasAnyJobField && !hasAllJobFields then
      Rejected(AllOrNothingError)
    else
      Accepted
  }

  /** The whitespace that blanks a field is exactly the whitespace `trim`
      removes, so a field of spaces, tabs or line breaks counts as empty. */
  lemma FilledIffNotAllWhitespace(field: string)
    ensures Filled(field) <==> !AllWhitespace(field)
  {
    BlankIffAllWhitespace(field);
  }

  // ---------------------------------------------------------------------------
  // Page state
  // ---------------------------------------------------------------------------

  /** What `handleAnalyses` receives when validation passes. */
  datatype AnalysisRequest = AnalysisRequest(
    companyName: string, jobTitle: string, jobDescription: string, file: ResumeFile)

  /** The `file` and `validationError` state of the page ("" is no error). */
  datatype UploadState = UploadState(file: Option<ResumeFile>, validationError: string)

  /** `handleFileSelect`: the file is replaced, and a validation error is
      cleared only when a file (not `null`) was chosen. */
  function FileSelected(s: UploadState, file: Option<ResumeFile>): UploadState {
    UploadState(file, if file.Some? && s.validationError != "" then "" else s.validationError)
  }

  /** `handleSubmit`: the new state and the request it starts, if any. */
  function Submit(s: UploadState, form: FormFields): (UploadState, Option<AnalysisRequest>) {
    match Validate(s.file, form)
    case Rejected(message) => (UploadState(s.file, message), None)
    case Accepted =>
      (UploadState(s.file, ""),
       Some(AnalysisRequest(form.companyName, form.jobTitle, form.jobDescription, s.file.value)))
  }

  class UploadPage {
    var file: Option<ResumeFile>
    var validationError: string

    function State(): UploadState
      reads this
    {
      UploadState(file, validationError)
    }

    constructor ()
      ensures State() == UploadState(None, "")
    {
      file := None;
      validationError := "";
    }

    method HandleFileSelect(selected: Option<ResumeFile>)
      modifies this
      ensures State() == FileSelected(old(State()), selected)
    {
      file := selected;
      if selected.Some? && validationError != "" {
        validationError := "";
      }
    }

    /** Clears the previous error, validates, and either records the first
        failing check's message or hands the fields and the file on. */
    method HandleSubmit(form: FormFields) returns (request: Option<AnalysisRequest>)
      modifies this
      ensures (State(), request) == Submit(old(State()), form)
    {
      validationError := "";
      var verdict := Validate(file, form);
      if verdict.Rejected? {
        validationError := verdict.message;
        request := None;
        return;
      }
      request := Some(AnalysisRequest(form.companyName, form.jobTitle, form.jobDescription, file.value));
    }
  }

  /** An analysis starts exactly when a file is chosen and the job fields are
      all filled or all blank; it carries the fields untrimmed, and the page
      then shows no error. */
  lemma SubmitStartsAnalysisIff(s: UploadState, form: FormFields)
    ensures Submit(s, form).1.Some? <==> s.file.Some? && (AllFilled(form) || NoneFilled(form))
    ensures Submit(s, form).1.Some? ==>
      && Submit(s, form).0.validationError == ""
      && Submit(s, form).1.value ==
           AnalysisRequest(form.companyName, form.jobTitle, form.jobDescription, s.file.value)
    ensures Submit(s, form).0.file == s.file
  {
  }

  /** A rejected submit shows a non-empty message that names its reason, and
      starts nothing. */
  lemma RejectedSubmitShowsMessage(s: UploadState, form: FormFields)
    requires Submit(s, form).1.None?
    ensures Submit(s, form).0.validationError in {NoFileError, CompanyNeedsJobError, AllOrNothingError}
    ensures Submit(s, form).0.validationError != ""
  {
  }

  /** Every submit starts from a cleared error: its outcome depends on the
      chosen file and the fields only, never on the error shown before. */
  lemma SubmitForgetsPreviousError(s: UploadState, t: UploadState, form: FormFields)
    requires s.file == t.file
    ensures Submit(s, form) == Submit(t, form)
  {
  }

  /** Choosing a file clears the error; choosing none keeps it. */
  lemma FileSelectionClearsError(s: UploadState, file: Option<ResumeFile>)
    ensures FileSelected(s, file).file == file
    ensures file.Some? ==> FileSelected(s, file).validationError == ""
    ensures file.None? ==> FileSelected(s, file).validationError == s.validationError
  {
  }

  // ---------------------------------------------------------------------------
  // handleAnalyses: prompt choice and stored record
  // ---------------------------------------------------------------------------

  /** A JavaScript string (or absent value) is truthy when present and non-empty. */
  predicate Truthy(value: Option<string>) {
    value.Some? && value.value != ""
  }

  /** `value || ''`: a present string is kept as typed (the empty string
      included), a missing one becomes "", and the result is empty exactly
      when the value is falsy. */
  function OrEmpty(value: Option<string>): (r: string)
    ensures r == value.GetOr("")
    ensures r == "" <==> !Truthy(value)
  {
    if Truthy(value) then value.value else ""
  }

  /** `useJobSpecificAnalysis`: the title and the description are both
      present and non-empty, untrimmed. */
  predicate UseJobSpecificAnalysis(jobTitle: Option<string>, jobDescription: Option<string>) {
    Truthy(jobTitle) && Truthy(jobDescription)
  }

  /** The instructions `handleAnalyses` sends with the resume. */
  function InstructionsFor(jobTitle: Option<string>, jobDescription: Option<string>): string {
    if UseJobSpecificAnalysis(jobTitle, jobDescription) then
      PrepareInstructions(jobTitle.value, jobDescription.value)
    else
      PrepareInstructions(GeneralTitle, GeneralDescription)
  }

  /** The general prompt is sent exactly when the title or the description is
      missing or empty, or is itself the general title or description;
      otherwise the job-specific prompt names both. */
  lemma InstructionsChoice(jobTitle: Option<string>, jobDescription: Option<string>)
    ensures InstructionsFor(jobTitle, jobDescription) == GeneralPrompt() <==>
      !UseJobSpecificAnalysis(jobTitle, jobDescription)
      || IsGeneralAnalysis(jobTitle.value, jobDescription.value)
    ensures (UseJobSpecificAnalysis(jobTitle, jobDescription)
             && !IsGeneralAnalysis(jobTitle.value, jobDescription.value)) ==>
      && InstructionsFor(jobTitle, jobDescription) == JobSpecificPrompt(jobTitle.value, jobDescription.value)
      && IsInfix(SpecificIndent + TitleLead + jobTitle.value, InstructionsFor(jobTitle, jobDescription))
      && IsInfix(SpecificIndent + DescriptionLead + jobDescription.value, InstructionsFor(jobTitle, jobDescription))
  {
    if UseJobSpecificAnalysis(jobTitle, jobDescription) && !IsGeneralAnalysis(jobTitle.value, jobDescription.value) {
      JobSpecificPromptStatesJob(jobTitle.value, jobDescription.value);
    }
  }

  /** A title or description of whitespace only is never the general one. */
  lemma WhitespaceIsNotGeneral(jobTitle: string, jobDescription: string)
    requires AllWhitespace(jobTitle) && jobTitle != ""
    requires AllWhitespace(jobDescription) && jobDescription != ""
    ensures !IsGeneralAnalysis(jobTitle, jobDescription)
  {
    assert IsWhitespace(jobTitle[0]) && IsWhitespace(jobDescription[0]);
    assert GeneralTitle[0] == 'G' && GeneralDescription[0] == 'G';
  }

  /** Fields that pass validation as "all left empty" because they hold only
      whitespace are still non-empty strings, so they select the job-specific
      prompt, with a blank title and description. */
  lemma WhitespaceFieldsSelectSpecificPrompt(file: ResumeFile, form: FormFields)
    requires AllWhitespace(form.companyName)
    requires AllWhitespace(form.jobTitle) && form.jobTitle != ""
    requires AllWhitespace(form.jobDescription) && form.jobDescription != ""
    ensures Validate(Some(file), form) == Accepted
    ensures InstructionsFor(Some(form.jobTitle), Some(form.jobDescription))
         == JobSpecificPrompt(form.jobTitle, form.jobDescription)
         != GeneralPrompt()
  {
    BlankIffAllWhitespace(form.companyName);
    BlankIffAllWhitespace(form.jobTitle);
    BlankIffAllWhitespace(form.jobDescription);
    WhitespaceIsNotGeneral(form.jobTitle, form.jobDescription);
    InstructionsChoice(Some(form.jobTitle), Some(form.jobDescription));
  }

  /** The record stored under `resume:<id>` before the analysis. */
  datatype StoredRecord = StoredRecord(
    id: string, resumePath: string, imagePath: string,
    companyName: string, jobTitle: string, jobDescription: string,
    feedback: string)

  function NewRecord(id: string, resumePath: string, imagePath: string,
                     companyName: Option<string>, jobTitle: Option<string>,
                     jobDescription: Option<string>): StoredRecord
  {
    StoredRecord(id, resumePath, imagePath,
      OrEmpty(companyName), OrEmpty(jobTitle), OrEmpty(jobDescription), "")
  }

  /** A new record has no feedback yet, defaults every missing job field to
      the empty string, and keeps a submitted field exactly as typed. */
  lemma NewRecordDefaults(id: string, resumePath: string, imagePath: string,
                          companyName: Option<string>, jobTitle: Option<string>,
                          jobDescription: Option<string>)
    ensures var r := NewRecord(id, resumePath, imagePath, companyName, jobTitle, jobDescription);
      && r.feedback == ""
      && r.id == id && r.resumePath == resumePath && r.imagePath == imagePath
      && (companyName.None? ==> r.companyName == "")
      && (jobTitle.None? ==> r.jobTitle == "")
      && (jobDescription.None? ==> r.jobDescription == "")
      && (forall v :: companyName == Some(v) ==> r.companyName == v)
      && (forall v :: jobTitle == Some(v) ==> r.jobTitle == v)
      && (forall v :: jobDescription == Some(v) ==> r.jobDescription == v)
  {
  }
}
