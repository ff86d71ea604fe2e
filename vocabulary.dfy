/**
  The fixed subject list and content templates of the synthetic mail
  generators. generator/request_generator.go and generator/data_generator.go
  each declare the same two lists; they are declared once here.
*/
module Vocabulary {
  import opened GoStrings

  const Subjects: seq<string> := [
    "Meeting Update", "Project Status", "Quick Question",
    "Follow Up", "Important Notice", "Weekly Report",
    "Team Sync", "Budget Review", "Action Required"
  ]

  /** A content template, stored as the text before and after its single
      `%s` verb. */
  datatype Template = Template(before: string, after: string)

  const ContentTemplates: seq<Template> := [
    Template("Hi team, I wanted to follow up on our discussion about ", ". Please review and provide feedback."),
    Template("This is regarding the ", " project. We need to discuss the next steps."),
    Template("Can you please take a look at ", "? Your input would be valuable."),
    Template("Update on ", ": We've made significant progress this week."),
    Template("Reminder about ", ". Please complete by end of day.")
  ]

  /** The template text as written in the source, with its `%s` verb. */
  function TemplateText(t: Template): string {
    t.before + "%s" + t.after
  }

  /** `fmt.Sprintf(template, subject)` for a template with one `%s` verb. */
  function Fill(t: Template, subject: string): (content: string)
    ensures |content| == |TemplateText(t)| - 2 + |subject|
    ensures SubAt(content, subject, |t.before|)
  {
    var c := t.before + subject + t.after;
    assert c[|t.before|..|t.before| + |subject|] == subject;
    c
  }

  /** Filling a template leaves the subject readable inside the content. */
  lemma FillContainsSubject(t: Template, subject: string)
    ensures Contains(Fill(t, subject), subject)
  {
    ContainsSlice(Fill(t, subject), subject, |t.before|);
  }
}
