/**
 * Which section formsets take part in a create or edit submission, and the
 * normalisation of the requested document type (core/views.py).
 */
module Registry {
  import opened Wrappers
  import opened Models

  /** The six related row lists a resume owns. */
  datatype SectionKind =
    | EducationRows | ExperienceRows | SkillRows
    | ResearchRows | PublicationRows | AwardRows

  /** Every section kind, in the order the handlers and the text export list them. */
  const ALL_SECTIONS: seq<SectionKind> :=
    [EducationRows, ExperienceRows, SkillRows, ResearchRows, PublicationRows, AwardRows]

  /** The sections only a CV edits. */
  predicate IsCvSection(k: SectionKind) {
    k == ResearchRows || k == PublicationRows || k == AwardRows
  }

  /**
   * `create_resume`'s doc type: the `type` query parameter, `'resume'` when it
   * is missing, and `'resume'` again for any value other than the two known ones.
   */
  function NormalizeDocType(query: Option<string>): (docType: string)
    ensures docType == "resume" || docType == "cv"
    ensures docType == "cv" <==> query == Some("cv")
    ensures docType in DOC_TYPE_KEYS
  {
    var requested := query.GetOr("resume");
    if requested !in ["resume", "cv"] then "resume" else requested
  }

  /**
   * The keys of the `formsets` dict a POST builds, in insertion order:
   * education, experience and skill always; research, publication and award
   * only when the doc type is exactly `'cv'`.
   */
  function SectionsFor(docType: string): (kinds: seq<SectionKind>)
    ensures |kinds| >= 3 && kinds[..3] == [EducationRows, ExperienceRows, SkillRows]
    ensures forall k :: !IsCvSection(k) ==> k in kinds
    ensures forall k :: IsCvSection(k) ==> (k in kinds <==> docType == "cv")
    ensures forall i, j :: 0 <= i < j < |kinds| ==> kinds[i] != kinds[j]
    ensures docType == "cv" ==> kinds == ALL_SECTIONS
  {
    var core := [EducationRows, ExperienceRows, SkillRows];
    if docType == "cv" then core + [ResearchRows, PublicationRows, AwardRows] else core
  }

  /** How many rows of kind `k` a resume has. */
  function RowCount(s: Sections, k: SectionKind): nat {
    match k
    case EducationRows => |s.education|
    case ExperienceRows => |s.experience|
    case SkillRows => |s.skills|
    case ResearchRows => |s.research|
    case PublicationRows => |s.publications|
    case AwardRows => |s.awards|
  }

  /** `a` and `b` hold the same rows of kind `k`. */
  predicate SameRows(a: Sections, b: Sections, k: SectionKind) {
    match k
    case EducationRows => a.education == b.education
    case ExperienceRows => a.experience == b.experience
    case SkillRows => a.skills == b.skills
    case ResearchRows => a.research == b.research
    case PublicationRows => a.publications == b.publications
    case AwardRows => a.awards == b.awards
  }

  /**
   * What `fs.save()` leaves behind for the formset of kind `k`: the rows of
   * that kind become `submitted`'s, every other kind is untouched.
   */
  function SaveRows(stored: Sections, k: SectionKind, submitted: Sections): (r: Sections)
    ensures SameRows(r, submitted, k)
    ensures forall k' :: k' != k ==> SameRows(r, stored, k')
  {
    match k
    case EducationRows => stored.(education := submitted.education)
    case ExperienceRows => stored.(experience := submitted.experience)
    case SkillRows => stored.(skills := submitted.skills)
    case ResearchRows => stored.(research := submitted.research)
    case PublicationRows => stored.(publications := submitted.publications)
    case AwardRows => stored.(awards := submitted.awards)
  }

  /**
   * What saving the formsets of `kinds` one after another leaves behind: the
   * kinds in `kinds` hold the submitted rows, every other kind its stored rows.
   */
  function SavedRows(stored: Sections, kinds: seq<SectionKind>, submitted: Sections): (r: Sections)
    ensures forall k :: k in kinds ==> SameRows(r, submitted, k)
    ensures forall k :: k !in kinds ==> SameRows(r, stored, k)
  {
    if |kinds| == 0 then stored
    else
      var init, last := kinds[..|kinds| - 1], kinds[|kinds| - 1];
      assert forall k :: k in kinds <==> k in init || k == last;
      var prev := SavedRows(stored, init, submitted);
      var r := SaveRows(prev, last, submitted);
      SameRowsCompose(r, prev, stored, submitted);
      r
  }

  /** Rows kept through one save and then another are the rows of the first. */
  lemma SameRowsCompose(a: Sections, b: Sections, c: Sections, submitted: Sections)
    ensures forall k :: SameRows(a, b, k) && SameRows(b, c, k) ==> SameRows(a, c, k)
    ensures forall k :: SameRows(a, b, k) && SameRows(b, submitted, k) ==> SameRows(a, submitted, k)
  {
  }

  /** Saving every kind's formset replaces all the rows by the submitted ones. */
  lemma SavedRowsAll(stored: Sections, submitted: Sections)
    ensures SavedRows(stored, ALL_SECTIONS, submitted) == submitted
  {
    forall k
      ensures SameRows(SavedRows(stored, ALL_SECTIONS, submitted), submitted, k)
    {
      assert k in ALL_SECTIONS;
    }
    SameRowsEverywhere(SavedRows(stored, ALL_SECTIONS, submitted), submitted);
  }

  /** A save for any doc type other than "cv" leaves the research, publication and award rows as stored. */
  lemma NonCvSaveKeepsCvRows(stored: Sections, docType: string, submitted: Sections)
    requires docType != "cv"
    ensures forall k :: IsCvSection(k) ==> SameRows(SavedRows(stored, SectionsFor(docType), submitted), stored, k)
  {
  }

  /** Submitting the stored rows again keeps every kind, in stored order. */
  lemma SavedRowsResubmitted(stored: Sections, kinds: seq<SectionKind>)
    ensures SavedRows(stored, kinds, stored) == stored
  {
    SameRowsEverywhere(SavedRows(stored, kinds, stored), stored);
  }

  /** Sections that agree on every kind are equal. */
  lemma SameRowsEverywhere(a: Sections, b: Sections)
    requires forall k :: SameRows(a, b, k)
    ensures a == b
  {
    assert SameRows(a, b, EducationRows) && SameRows(a, b, ExperienceRows) && SameRows(a, b, SkillRows);
    assert SameRows(a, b, ResearchRows) && SameRows(a, b, PublicationRows) && SameRows(a, b, AwardRows);
  }
}
