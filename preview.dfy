/**
 * The sample document `demo_template_view` (core/views.py) renders into a
 * template preview: a fixed CV with rows in every section.
 */
module Preview {
  import opened Wrappers
  import opened Models
  import opened Registry

  const PREVIEW_PERSONAL := PersonalDetail(
    "Alex Rivera",
    "alex.rivera@example.com",
    "+1 (555) 123-4567",
    "San Francisco, CA",
    "linkedin.com/in/alexrivera",
    "alexrivera.design",
    "Innovative Creative Director with 8+ years of experience in digital branding and UI/UX design. "
    + "Proven track record of leading high-performance teams to deliver award-winning campaigns. "
    + "Passionate about user-centric design and storytelling.")

  /** The mock's end date of a current role is the text "Present", not a missing date. */
  const PREVIEW_EXPERIENCE: seq<Experience> := [
    Experience("TechFlow Inc.", "Senior Product Designer", "2020-03", Some("Present"), true,
      "Lead design systems and manage a team of 5 designers. Increased user engagement by 40% through UI overhaul."),
    Experience("CreativAgency", "UX Designer", "2017-06", Some("2020-02"), false,
      "Designed web and mobile interfaces for Fortune 500 clients. Conducted user research and usability testing.")
  ]

  const PREVIEW_EDUCATION: seq<Education> := [
    Education("Design Academy", "Master of Interaction Design", "2015", Some("2017"), false,
      "Focus on Human-Computer Interaction."),
    Education("University of Arts", "Bachelor of Fine Arts", "2011", Some("2015"), false,
      "Major in Graphic Design.")
  ]

  const PREVIEW_SKILLS: seq<Skill> := [
    Skill("UI/UX Design", 95), Skill("Figma & Sketch", 90), Skill("HTML/CSS", 80),
    Skill("Brand Identity", 85), Skill("Team Leadership", 90)
  ]

  const PREVIEW_RESEARCH: seq<Research> := [
    Research("User Empathy in Digital Products",
      "Published research on how emotional design affects user retention.", Some("2019"))
  ]

  const PREVIEW_PUBLICATIONS: seq<Publication> := [
    Publication("The Future of Minimalist UI", "Design Weekly", Some("2021"), "designweekly.com/minimalist")
  ]

  const PREVIEW_AWARDS: seq<Award> := [
    Award("Best Mobile App Design", "Tech Design Awards", Some("2022"))
  ]

  /**
   * The mock resume: a CV labelled "CV", as the real label lookup would
   * label it, with rows in every one of the six sections.
   */
  function PreviewDocument(): (d: DocumentView)
    ensures d.docType == "cv" && d.docTypeLabel == "CV" && d.docTypeLabel == DocTypeDisplay(d.docType)
    ensures forall k :: RowCount(d.sections, k) > 0
    ensures SectionsFor(d.docType) == ALL_SECTIONS
  {
    DocumentView("cv", "CV", PREVIEW_PERSONAL,
      Sections(PREVIEW_EDUCATION, PREVIEW_EXPERIENCE, PREVIEW_SKILLS,
               PREVIEW_RESEARCH, PREVIEW_PUBLICATIONS, PREVIEW_AWARDS))
  }

  /** Every skill of the mock has a percentage between 0 and 100, and the mock's one current role is its first. */
  lemma PreviewRows()
    ensures var s := PreviewDocument().sections;
            (forall i :: 0 <= i < |s.skills| ==> 0 <= s.skills[i].proficiency <= 100)
            && s.experience[0].isCurrent
            && (forall i :: 0 < i < |s.experience| ==> !s.experience[i].isCurrent)
            && (forall i :: 0 <= i < |s.education| ==> !s.education[i].isCurrent)
  {
  }
}
