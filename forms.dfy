/**
 * What the model forms of core/forms.py accept. Each form takes its fields
 * from a model of core/models.py, and its validity follows from that model's
 * field declarations: a required field must be non-empty, a `max_length`
 * bounds the length, a `choices` field takes one of its keys.
 *
 * Every form text field also refuses a NUL character, and an integer field
 * takes only the database's integer range.
 *
 * The checks that go beyond those declarations are one flag per post: the
 * syntax of e-mail addresses, URLs and dates, NUL characters in the text
 * fields, the uploaded image, and a formset's management data and deletions. `PersonalPost.formatOk` is that
 * flag for the personal form; `FormsetPost.accepted` holds the kinds whose
 * formset passed it.
 */
module Forms {
  import opened Models
  import opened Registry

  /** The cleaned fields of a `ResumeForm` submission. */
  datatype ResumePost = ResumePost(title: string, templateName: string, docType: string)

  /** A `PersonalDetailForm` submission. */
  datatype PersonalPost = PersonalPost(detail: PersonalDetail, formatOk: bool)

  /**
   * The section formsets of one submission: the rows each formset would keep
   * (deleted and untouched extra forms dropped), and the kinds whose formset
   * passed the checks that are not field declarations.
   */
  datatype FormsetPost = FormsetPost(rows: Sections, accepted: set<SectionKind>)

  /** A required text field: non-empty and within its `max_length`. */
  predicate Required(s: string, maxLength: nat) {
    0 < |s| <= maxLength
  }

  /** A `blank=True` text field: only the length is bounded. */
  predicate Optional(s: string, maxLength: nat) {
    |s| <= maxLength
  }

  /**
   * `title`, `template_name` and `doc_type` of `Resume`: the last two are
   * `choices` fields, and the title, a text field, may not hold a NUL character.
   */
  function ResumeFormValid(p: ResumePost): (ok: bool)
    ensures ok <==> && 0 < |p.title| <= 100 && '\0' !in p.title
                    && p.templateName in TEMPLATE_KEYS && (p.docType == "resume" || p.docType == "cv")
  {
    DocTypeTable();
    Required(p.title, TITLE_MAX) && '\0' !in p.title && p.templateName in TEMPLATE_KEYS && p.docType in DOC_TYPE_KEYS
  }

  predicate PersonalFieldsValid(pd: PersonalDetail) {
    && Required(pd.fullName, FULL_NAME_MAX)
    && Required(pd.email, EMAIL_MAX)
    && Required(pd.phone, PHONE_MAX)
    && Optional(pd.address, ADDRESS_MAX)
    && Optional(pd.linkedinUrl, URL_MAX)
    && Optional(pd.portfolioUrl, URL_MAX)
  }

  /** A full name, an e-mail address and a phone number are required; the other fields may be blank. */
  function PersonalFormValid(p: PersonalPost): (ok: bool)
    ensures ok <==> && p.formatOk
                    && 0 < |p.detail.fullName| <= 200 && 0 < |p.detail.email| <= 254 && 0 < |p.detail.phone| <= 20
                    && |p.detail.address| <= 255 && |p.detail.linkedinUrl| <= 200 && |p.detail.portfolioUrl| <= 200
  {
    PersonalFieldsValid(p.detail) && p.formatOk
  }

  function EducationValid(e: Education): (ok: bool)
    ensures ok <==> 0 < |e.institution| <= 200 && 0 < |e.degree| <= 200 && e.startDate != ""
  {
    Required(e.institution, 200) && Required(e.degree, 200) && e.startDate != ""
  }

  function ExperienceValid(e: Experience): (ok: bool)
    ensures ok <==> 0 < |e.company| <= 200 && 0 < |e.position| <= 200 && e.startDate != ""
  {
    Required(e.company, 200) && Required(e.position, 200) && e.startDate != ""
  }

  /** A skill needs a name; its proficiency may be any integer the database column holds. */
  function SkillValid(s: Skill): (ok: bool)
    ensures ok <==> 0 < |s.name| <= 100 && -2147483648 <= s.proficiency <= 2147483647
  {
    Required(s.name, 100) && INTEGER_FIELD_MIN <= s.proficiency <= INTEGER_FIELD_MAX
  }

  function ResearchValid(r: Research): (ok: bool)
    ensures ok <==> 0 < |r.title| <= 255
  {
    Required(r.title, 255)
  }

  function PublicationValid(p: Publication): (ok: bool)
    ensures ok <==> 0 < |p.title| <= 255 && |p.publisher| <= 255 && |p.url| <= 200
  {
    Required(p.title, 255) && Optional(p.publisher, 255) && Optional(p.url, URL_MAX)
  }

  function AwardValid(a: Award): (ok: bool)
    ensures ok <==> 0 < |a.title| <= 200 && 0 < |a.issuer| <= 200
  {
    Required(a.title, 200) && Required(a.issuer, 200)
  }

  /** Every row of kind `k` satisfies its model's field declarations. */
  predicate KindRowsValid(s: Sections, k: SectionKind) {
    match k
    case EducationRows => forall i :: 0 <= i < |s.education| ==> EducationValid(s.education[i])
    case ExperienceRows => forall i :: 0 <= i < |s.experience| ==> ExperienceValid(s.experience[i])
    case SkillRows => forall i :: 0 <= i < |s.skills| ==> SkillValid(s.skills[i])
    case ResearchRows => forall i :: 0 <= i < |s.research| ==> ResearchValid(s.research[i])
    case PublicationRows => forall i :: 0 <= i < |s.publications| ==> PublicationValid(s.publications[i])
    case AwardRows => forall i :: 0 <= i < |s.awards| ==> AwardValid(s.awards[i])
  }

  predicate SectionsValid(s: Sections) {
    forall k :: KindRowsValid(s, k)
  }

  /** `fs.is_valid()` for the formset of kind `k`. */
  function FormsetValid(f: FormsetPost, k: SectionKind): (ok: bool)
    ensures ok <==> k in f.accepted && KindRowsValid(f.rows, k)
    ensures RowCount(f.rows, k) == 0 ==> (ok <==> k in f.accepted)
  {
    k in f.accepted && KindRowsValid(f.rows, k)
  }

  /** `all(fs.is_valid() for fs in formsets.values())`. */
  function AllFormsetsValid(f: FormsetPost, kinds: seq<SectionKind>): (ok: bool)
    ensures ok <==> forall k :: k in kinds ==> FormsetValid(f, k)
    ensures kinds == [] ==> ok
  {
    forall i :: 0 <= i < |kinds| ==> FormsetValid(f, kinds[i])
  }

  /**
   * A valid `ResumeForm` always carries a doc type, and a known one: the
   * `if not resume.doc_type` fallback of `create_resume` never fires.
   */
  lemma DocTypeAfterValidation(p: ResumePost)
    requires ResumeFormValid(p)
    ensures p.docType != "" && (p.docType == "resume" || p.docType == "cv")
  {
    DocTypeTable();
  }

  /** A resume left at its declared defaults passes the form. */
  lemma DefaultsPassResumeForm()
    ensures ResumeFormValid(ResumePost(DEFAULT_TITLE, DEFAULT_TEMPLATE, DEFAULT_DOC_TYPE))
  {
    TemplateTable();
    DocTypeTable();
  }

  /** Rows that equal valid rows of the same kind are valid. */
  lemma SameRowsKeepValidity(a: Sections, b: Sections, k: SectionKind)
    requires SameRows(a, b, k) && KindRowsValid(b, k)
    ensures KindRowsValid(a, k)
  {
  }

  /** With no rows, every kind is valid. */
  lemma NoRowsValid()
    ensures SectionsValid(NO_ROWS)
  {
  }

  /** Saving formsets that all passed validation keeps every stored row valid. */
  lemma SavedRowsValid(stored: Sections, kinds: seq<SectionKind>, f: FormsetPost)
    requires SectionsValid(stored) && AllFormsetsValid(f, kinds)
    ensures SectionsValid(SavedRows(stored, kinds, f.rows))
  {
    var r := SavedRows(stored, kinds, f.rows);
    forall k
      ensures KindRowsValid(r, k)
    {
      if k in kinds {
        var i :| 0 <= i < |kinds| && kinds[i] == k;
        assert FormsetValid(f, kinds[i]);
        SameRowsKeepValidity(r, f.rows, k);
      } else {
        assert KindRowsValid(stored, k);
        SameRowsKeepValidity(r, stored, k);
      }
    }
  }
}
