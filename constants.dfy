/** The prompt constants and `prepareInstructions` of app/constants/index.ts,
    and the sample resumes the home page lists. Both prompt templates are
    reproduced character for character, line breaks and indentation included. */
module Constants {
  import opened FeedbackTypes
  import opened Strings

  /** The response schema embedded in every prompt (`AIResponseFormat`). */
  const AIResponseFormat: string :=
    "\n      interface Feedback {\n      overallScore: number; //max 100\n      ATS: {\n        score: number; //rate based on ATS suitability\n        tips: {\n          type: \"good\" | \"improve\";\n          tip: string; //give 3-4 tips\n        }[];\n      };\n      toneAndStyle: {\n        score: number; //max 100\n        tips: {\n          type: \"good\" | \"improve\";\n          tip: string; //make it a short \"title\" for the actual explanation\n          explanation: string; //explain in detail here\n        }[]; //give 3-4 tips\n      };\n      content: {\n        score: number; //max 100\n        tips: {\n          type: \"good\" | \"improve\";\n          tip: string; //make it a short \"title\" for the actual explanation\n          explanation: string; //explain in detail here\n        }[]; //give 3-4 tips\n      };\n      structure: {\n        score: number; //max 100\n        tips: {\n          type: \"good\" | \"improve\";\n          tip: string; //make it a short \"title\" for the actual explanation\n          explanation: string; //explain in detail here\n        }[]; //give 3-4 tips\n      };\n      skills: {\n        score: number; //max 100\n        tips: {\n          type: \"good\" | \"improve\";\n          tip: string; //make it a short \"title\" for the actual explanation\n          explanation: string; //explain in detail here\n        }[]; //give 3-4 tips\n      };\n    }"

  /** Continuation-line prefixes of the two templates: the general template is
      indented by four spaces, the job-specific one by two. */
  const GeneralIndent := "\n    "
  const SpecificIndent := "\n  "

  const TitleLead := "The job title is: "
  const DescriptionLead := "The job description is: "
  const LastLine := "Do not include any other text or comments."

  const GeneralTitle := "General"
  const GeneralDescription := "General resume analysis"

  const FormatLead := "Provide the feedback using the following format: "

  const ReturnLine := "Return the analysis as a JSON object, without any other text and without the backticks."

  /** The first seven lines of the general template, with their line breaks
      and four-space indentation. */
  const GeneralHead: string :=
    "You are an expert in ATS (Applicant Tracking System) and resume analysis.\n    Please analyze and rate this resume and suggest how to improve it.\n    The rating can be low if the resume is bad.\n    Be thorough and detailed. Don't be afraid to point out any mistakes or areas for improvement.\n    If there is a lot to improve, don't hesitate to give low scores. This is to help the user to improve their resume.\n    Provide general feedback that would be applicable across various job roles and industries.\n    Focus on overall resume structure, formatting, content quality, and ATS compatibility."

  /** The first seven lines of the job-specific template, with their line
      breaks and two-space indentation. */
  const SpecificHead: string :=
    "You are an expert in ATS (Applicant Tracking System) and resume analysis.\n  Please analyze and rate this resume and suggest how to improve it.\n  The rating can be low if the resume is bad.\n  Be thorough and detailed. Don't be afraid to point out any mistakes or areas for improvement.\n  If there is a lot to improve, don't hesitate to give low scores. This is to help the user to improve their resume.\n  Use the job description for the job user is applying to to give more detailed feedback.\n  Take the job description into consideration and provide specific recommendations for this role."

  /** The general template around a given head and response schema. */
  function GeneralTemplate(head: string, format: string): string {
    head
      + (GeneralIndent + (FormatLead + format))
      + (GeneralIndent + ReturnLine)
      + (GeneralIndent + LastLine)
  }

  /** The job-specific template around a given head and response schema. */
  function SpecificTemplate(head: string, format: string, jobTitle: string, jobDescription: string): string {
    head
      + (SpecificIndent + TitleLead + jobTitle)
      + (SpecificIndent + DescriptionLead + jobDescription)
      + (SpecificIndent + (FormatLead + format))
      + (SpecificIndent + ReturnLine)
      + (SpecificIndent + LastLine)
  }

  /** The template used for a general analysis. */
  function GeneralPrompt(): string {
    GeneralTemplate(GeneralHead, AIResponseFormat)
  }

  /** The template used for a specific job. */
  function JobSpecificPrompt(jobTitle: string, jobDescription: string): string {
    SpecificTemplate(SpecificHead, AIResponseFormat, jobTitle, jobDescription)
  }

  /** `isGeneralAnalysis` */
  predicate IsGeneralAnalysis(jobTitle: string, jobDescription: string) {
    jobTitle == GeneralTitle || jobDescription == GeneralDescription
  }

  /** `prepareInstructions({jobTitle, jobDescription})`: the general prompt is
      returned exactly when the title is "General" or the description is
      "General resume analysis"; it is then one fixed text, whatever else was
      passed. */
  function PrepareInstructions(jobTitle: string, jobDescription: string): (r: string)
    ensures r == GeneralPrompt() <==> IsGeneralAnalysis(jobTitle, jobDescription)
  {
    if !IsGeneralAnalysis(jobTitle, jobDescription) then
      SpecificPromptIsNotGeneral(jobTitle, jobDescription);
      JobSpecificPrompt(jobTitle, jobDescription)
    else
      GeneralPrompt()
  }

  /** The two templates never coincide, whatever their heads and schemas:
      three characters before their common last line, the general one still
      has indentation where the job-specific one has its line break. */
  lemma TemplatesDiffer(generalHead: string, specificHead: string, format: string,
                        jobTitle: string, jobDescription: string)
    ensures SpecificTemplate(specificHead, format, jobTitle, jobDescription)
         != GeneralTemplate(generalHead, format)
  {
    var g := GeneralTemplate(generalHead, format);
    var s := SpecificTemplate(specificHead, format, jobTitle, jobDescription);
    var gLast := GeneralIndent + LastLine;
    var sLast := SpecificIndent + LastLine;
    assert g[|g| - |gLast| + 2] == gLast[2] == ' ';
    assert s[|s| - |sLast|] == sLast[0] == '\n';
  }

  lemma SpecificPromptIsNotGeneral(jobTitle: string, jobDescription: string)
    ensures JobSpecificPrompt(jobTitle, jobDescription) != GeneralPrompt()
  {
    TemplatesDiffer(GeneralHead, SpecificHead, AIResponseFormat, jobTitle, jobDescription);
  }

  /** The job-specific template states the title and the description, each
      on a line of its own after its lead-in text. */
  lemma SpecificTemplateStatesJob(head: string, format: string, jobTitle: string, jobDescription: string)
    ensures IsInfix(SpecificIndent + TitleLead + jobTitle,
                    SpecificTemplate(head, format, jobTitle, jobDescription))
    ensures IsInfix(SpecificIndent + DescriptionLead + jobDescription,
                    SpecificTemplate(head, format, jobTitle, jobDescription))
  {
    var title := SpecificIndent + TitleLead + jobTitle;
    var description := SpecificIndent + DescriptionLead + jobDescription;
    var schema := SpecificIndent + (FormatLead + format);
    var returning := SpecificIndent + ReturnLine;
    var last := SpecificIndent + LastLine;
    InfixOfSuffix(head, title);
    InfixExtend(title, head + title, description);
    InfixOfSuffix(head + title, description);
    InfixExtend(title, head + title + description, schema);
    InfixExtend(description, head + title + description, schema);
    InfixExtend(title, head + title + description + schema, returning);
    InfixExtend(description, head + title + description + schema, returning);
    InfixExtend(title, head + title + description + schema + returning, last);
    InfixExtend(description, head + title + description + schema + returning, last);
  }

  /** The general template embeds the response schema verbatim, on the line
      that introduces it. */
  lemma GeneralTemplateEmbedsFormat(head: string, format: string)
    ensures IsInfix(FormatLead + format, GeneralTemplate(head, format))
  {
    var lead := FormatLead + format;
    var schema := GeneralIndent + lead;
    InfixOfSuffix(GeneralIndent, lead);
    InfixPrepend(lead, head, schema);
    InfixExtend(lead, head + schema, GeneralIndent + ReturnLine);
    InfixExtend(lead, head + schema + (GeneralIndent + ReturnLine), GeneralIndent + LastLine);
  }

  /** The job-specific template embeds the response schema verbatim, on the
      line that introduces it. */
  lemma SpecificTemplateEmbedsFormat(head: string, format: string, jobTitle: string, jobDescription: string)
    ensures IsInfix(FormatLead + format, SpecificTemplate(head, format, jobTitle, jobDescription))
  {
    var lead := FormatLead + format;
    var schema := SpecificIndent + lead;
    var pre := head + (SpecificIndent + TitleLead + jobTitle)
      + (SpecificIndent + DescriptionLead + jobDescription);
    InfixOfSuffix(SpecificIndent, lead);
    InfixPrepend(lead, pre, schema);
    InfixExtend(lead, pre + schema, SpecificIndent + ReturnLine);
    InfixExtend(lead, pre + schema + (SpecificIndent + ReturnLine), SpecificIndent + LastLine);
  }

  /** The job-specific prompt states the title and the description. */
  lemma JobSpecificPromptStatesJob(jobTitle: string, jobDescription: string)
    ensures IsInfix(SpecificIndent + TitleLead + jobTitle, JobSpecificPrompt(jobTitle, jobDescription))
    ensures IsInfix(SpecificIndent + DescriptionLead + jobDescription, JobSpecificPrompt(jobTitle, jobDescription))
  {
    SpecificTemplateStatesJob(SpecificHead, AIResponseFormat, jobTitle, jobDescription);
  }

  /** Whichever template is chosen, the prompt embeds the response schema. */
  lemma PromptsEmbedFormat(jobTitle: string, jobDescription: string)
    ensures IsInfix(FormatLead + AIResponseFormat, PrepareInstructions(jobTitle, jobDescription))
  {
    GeneralTemplateEmbedsFormat(GeneralHead, AIResponseFormat);
    SpecificTemplateEmbedsFormat(SpecificHead, AIResponseFormat, jobTitle, jobDescription);
  }

  // ---------------------------------------------------------------------------
  // Sample resumes (`resumes`)
  // ---------------------------------------------------------------------------

  datatype Resume = Resume(
    id: string, companyName: string, jobTitle: string,
    imagePath: string, resumePath: string, feedback: Feedback)

  /** Every sample shares this feedback apart from its overall score: each
      section scores 90 and has no tips. */
  function SampleFeedback(overallScore: int): Feedback {
    Feedback(overallScore, AtsSection(90, []),
      Category(90, []), Category(90, []), Category(90, []), Category(90, []))
  }

  const Resumes: seq<Resume> := [
    Resume("1", "Google", "Frontend Developer", "public/images/resume_01.png", "/resumes/resume-1.pdf", SampleFeedback(85)),
    Resume("2", "Microsoft", "Cloud Engineer", "public/images/resume_02.png", "/resumes/resume-2.pdf", SampleFeedback(55)),
    Resume("3", "Apple", "iOS Developer", "public/images/resume_03.png", "/resumes/resume-3.pdf", SampleFeedback(75)),
    Resume("4", "Apple", "iOS Developer", "public/images/resume_01.png", "/resumes/resume-1.pdf", SampleFeedback(75)),
    Resume("5", "Apple", "iOS Developer", "public/images/resume_02.png", "/resumes/resume-2.pdf", SampleFeedback(75)),
    Resume("6", "Apple", "iOS Developer", "public/images/resume_03.png", "/resumes/resume-3.pdf", SampleFeedback(75))
  ]

  /** Six samples with the ids "1" to "6" in order, hence distinct; every
      overall score lies in 0..100 and every section scores 90 with no tips. */
  lemma SampleResumesWellFormed()
    ensures |Resumes| == 6
    ensures forall i :: 0 <= i < 6 ==> Resumes[i].id == IntToString(i + 1)
    ensures forall i, j :: 0 <= i < j < 6 ==> Resumes[i].id != Resumes[j].id
    ensures forall i :: 0 <= i < 6 ==> 0 <= Resumes[i].feedback.overallScore <= 100
    ensures forall i :: 0 <= i < 6 ==>
      var f := Resumes[i].feedback;
      && f.ats == AtsSection(90, [])
      && f.toneAndStyle == Category(90, []) && f.content == Category(90, [])
      && f.structure == Category(90, []) && f.skills == Category(90, [])
  {
  }
}
