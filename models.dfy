/**
 * The record shapes, constant choice tables, field defaults, field limits and
 * string forms declared in core/models.py.
 *
 * Dates are opaque strings (as `str(date)` prints them); a nullable date is an
 * `Option<string>`. Primary keys, foreign keys and timestamps are not fields of
 * these records: the store in module Views keys every record by its resume's id.
 */
module Models {
  import opened Wrappers

  /** One entry of a Django `choices` list: the stored key and its display text. */
  datatype Choice = Choice(key: string, display: string)

  /**
   * The allowlist: the keys of `Resume.TEMPLATE_CHOICES`, in declaration order
   * (`[t[0] for t in Resume.TEMPLATE_CHOICES]`). Their display names are read
   * only by the gallery page and are not modelled.
   */
  const TEMPLATE_KEYS: seq<string> := GENERIC_TEMPLATES + CITY_SIDEBAR_LEFT + CITY_CLASSIC + CITY_SIDEBAR_RIGHT

  /** The generic layouts. */
  const GENERIC_TEMPLATES: seq<string> := [
    "modern", "classic", "creative", "elegant", "executive", "minimalist",
    "timeline", "tech", "academic", "designer", "compact"
  ]

  /** City collection, sidebar on the left. */
  const CITY_SIDEBAR_LEFT: seq<string> := [
    "newyork", "london", "paris", "tokyo", "sidney", "dubai",
    "singapore", "hongkong", "losangeles", "toronto"
  ]

  /** City collection, classic. */
  const CITY_CLASSIC: seq<string> := [
    "berlin", "rome", "madrid", "lisbon", "vienna", "prague",
    "budapest", "warsaw", "oslo", "stockholm"
  ]

  /** City collection, sidebar on the right. */
  const CITY_SIDEBAR_RIGHT: seq<string> := [
    "chicago", "miami", "seattle", "austin", "denver", "boston",
    "atlanta", "houston", "phoenix", "lasvegas"
  ]

  /** `Resume.DOC_TYPE_CHOICES`. */
  const DOC_TYPE_CHOICES: seq<Choice> := [Choice("resume", "Resume"), Choice("cv", "CV")]

  const DOC_TYPE_KEYS: seq<string> := Keys(DOC_TYPE_CHOICES)

  /** `[t[0] for t in choices]`. */
  function Keys(choices: seq<Choice>): (keys: seq<string>)
    ensures |keys| == |choices|
    ensures forall i :: 0 <= i < |choices| ==> keys[i] == choices[i].key
  {
    if |choices| == 0 then [] else [choices[0].key] + Keys(choices[1..])
  }

  // Field defaults.
  const DEFAULT_DOC_TYPE := "resume"
  const DEFAULT_TITLE := "My Document"
  const DEFAULT_TEMPLATE := "modern"
  const DEFAULT_IS_CURRENT := false
  const DEFAULT_PROFICIENCY := 50

  // Field limits (`max_length`), as a model form checks them.
  const TITLE_MAX := 100
  const FULL_NAME_MAX := 200
  const EMAIL_MAX := 254
  const PHONE_MAX := 20
  const ADDRESS_MAX := 255
  const URL_MAX := 200

  // The range Django's `IntegerField` validators take from the database,
  // at the default bounds of a 32-bit integer column.
  const INTEGER_FIELD_MIN := -2147483648
  const INTEGER_FIELD_MAX := 2147483647

  /** A person or document owner, by username. */
  type Username = string

  datatype Resume = Resume(user: Username, docType: string, title: string, templateName: string)

  /** The image field is not part of this record; see README. */
  datatype PersonalDetail = PersonalDetail(
    fullName: string, email: string, phone: string, address: string,
    linkedinUrl: string, portfolioUrl: string, summary: string)

  datatype Education = Education(
    institution: string, degree: string, startDate: string,
    endDate: Option<string>, isCurrent: bool, description: string)

  datatype Experience = Experience(
    company: string, position: string, startDate: string,
    endDate: Option<string>, isCurrent: bool, description: string)

  datatype Skill = Skill(name: string, proficiency: int)

  datatype Research = Research(title: string, description: string, date: Option<string>)

  datatype Publication = Publication(title: string, publisher: string, date: Option<string>, url: string)

  datatype Award = Award(title: string, issuer: string, date: Option<string>)

  /** The six related row lists of one resume, each in stored order. */
  datatype Sections = Sections(
    education: seq<Education>, experience: seq<Experience>, skills: seq<Skill>,
    research: seq<Research>, publications: seq<Publication>, awards: seq<Award>)

  const NO_ROWS := Sections([], [], [], [], [], [])

  /**
   * What an export encoder or a template reads of a document: the real
   * resume with its related rows, or the preview mock.
   */
  datatype DocumentView = DocumentView(
    docType: string, docTypeLabel: string, personal: PersonalDetail, sections: Sections)

  /** `get_doc_type_display()`: the label of a known key, else the raw value. */
  function DocTypeDisplay(docType: string): (display: string)
    ensures docType == "resume" ==> display == "Resume"
    ensures docType == "cv" ==> display == "CV"
    ensures docType !in DOC_TYPE_KEYS ==> display == docType
  {
    assert DOC_TYPE_CHOICES[1..] == [Choice("cv", "CV")];
    Lookup(DOC_TYPE_CHOICES, docType)
  }

  /**
   * `dict(choices).get(key, key)`, searching from the front: the two agree on
   * a list with distinct keys, as `DOC_TYPE_CHOICES` is.
   */
  function Lookup(choices: seq<Choice>, key: string): (value: string)
    ensures key !in Keys(choices) ==> value == key
    ensures |choices| > 0 && choices[0].key == key ==> value == choices[0].display
    ensures forall i :: 0 <= i < |choices| && choices[i].key == key && (forall j :: 0 <= j < i ==> choices[j].key != key) ==>
              value == choices[i].display
  {
    if |choices| == 0 then key
    else if choices[0].key == key then choices[0].display
    else Lookup(choices[1..], key)
  }

  /** A resume as a user starts it: every field at its declared default. */
  function NewResume(user: Username): (r: Resume)
    ensures r.user == user
    ensures r.templateName == DEFAULT_TEMPLATE
    ensures r.docType == DEFAULT_DOC_TYPE
    ensures r.title == "My Document"
  {
    Resume(user, DEFAULT_DOC_TYPE, DEFAULT_TITLE, DEFAULT_TEMPLATE)
  }

  /** An education row with only its required fields given. */
  function NewEducation(institution: string, degree: string, startDate: string): (e: Education)
    ensures !e.isCurrent && e.endDate == None && e.description == ""
    ensures e.institution == institution && e.degree == degree && e.startDate == startDate
  {
    Education(institution, degree, startDate, None, DEFAULT_IS_CURRENT, "")
  }

  /** An experience row with only its required fields given. */
  function NewExperience(company: string, position: string, startDate: string): (e: Experience)
    ensures !e.isCurrent && e.endDate == None && e.description == ""
    ensures e.company == company && e.position == position && e.startDate == startDate
  {
    Experience(company, position, startDate, None, DEFAULT_IS_CURRENT, "")
  }

  /** A skill row with only its name given. */
  function NewSkill(name: string): (s: Skill)
    ensures s.name == name && s.proficiency == 50
  {
    Skill(name, DEFAULT_PROFICIENCY)
  }

  /** `Resume.__str__`: "<username> - <title> (<doc-type label>)". */
  function ResumeStr(r: Resume): (s: string)
    ensures |s| == |r.user| + |r.title| + |DocTypeDisplay(r.docType)| + 6
    ensures s[..|r.user|] == r.user && s[|r.user|..|r.user| + 3] == " - "
    ensures s[|r.user| + 3..|r.user| + 3 + |r.title|] == r.title
    ensures s[|r.user| + 3 + |r.title|..|r.user| + 5 + |r.title|] == " ("
    ensures s[|r.user| + 5 + |r.title|..|s| - 1] == DocTypeDisplay(r.docType) && s[|s| - 1] == ')'
  {
    r.user + " - " + r.title + " (" + DocTypeDisplay(r.docType) + ")"
  }

  /** `Education.__str__`: "<degree> at <institution>". */
  function EducationStr(e: Education): (s: string)
    ensures |s| == |e.degree| + 4 + |e.institution|
    ensures s[..|e.degree|] == e.degree && s[|e.degree|..|e.degree| + 4] == " at "
    ensures s[|e.degree| + 4..] == e.institution
  {
    e.degree + " at " + e.institution
  }

  /** `Experience.__str__`: "<position> at <company>". */
  function ExperienceStr(e: Experience): (s: string)
    ensures |s| == |e.position| + 4 + |e.company|
    ensures s[..|e.position|] == e.position && s[|e.position|..|e.position| + 4] == " at "
    ensures s[|e.position| + 4..] == e.company
  {
    e.position + " at " + e.company
  }

  /** The allowlist has 41 entries, "modern" first; it holds the default template. */
  lemma TemplateTable()
    ensures |TEMPLATE_KEYS| == 41
    ensures TEMPLATE_KEYS[0] == "modern" && DEFAULT_TEMPLATE in TEMPLATE_KEYS
  {
  }

  /**
   * Where a template key stands in the allowlist, told apart by its length and
   * first two characters; it inverts `TEMPLATE_KEYS`, so no key is listed twice.
   */
  function Position(s: string): int {
    if |s| < 2 then -1
    else if |s| == 6 && s[0] == 'm' && s[1] == 'o' then 0
    else if |s| == 7 && s[0] == 'c' && s[1] == 'l' then 1
    else if |s| == 8 && s[0] == 'c' && s[1] == 'r' then 2
    else if |s| == 7 && s[0] == 'e' && s[1] == 'l' then 3
    else if |s| == 9 && s[0] == 'e' && s[1] == 'x' then 4
    else if |s| == 10 && s[0] == 'm' && s[1] == 'i' then 5
    else if |s| == 8 && s[0] == 't' && s[1] == 'i' then 6
    else if |s| == 4 && s[0] == 't' && s[1] == 'e' then 7
    else if |s| == 8 && s[0] == 'a' && s[1] == 'c' then 8
    else if |s| == 8 && s[0] == 'd' && s[1] == 'e' then 9
    else if |s| == 7 && s[0] == 'c' && s[1] == 'o' then 10
    else if |s| == 7 && s[0] == 'n' && s[1] == 'e' then 11
    else if |s| == 6 && s[0] == 'l' && s[1] == 'o' then 12
    else if |s| == 5 && s[0] == 'p' && s[1] == 'a' then 13
    else if |s| == 5 && s[0] == 't' && s[1] == 'o' then 14
    else if |s| == 6 && s[0] == 's' && s[1] == 'i' then 15
    else if |s| == 5 && s[0] == 'd' && s[1] == 'u' then 16
    else if |s| == 9 && s[0] == 's' && s[1] == 'i' then 17
    else if |s| == 8 && s[0] == 'h' && s[1] == 'o' then 18
    else if |s| == 10 && s[0] == 'l' && s[1] == 'o' then 19
    else if |s| == 7 && s[0] == 't' && s[1] == 'o' then 20
    else if |s| == 6 && s[0] == 'b' && s[1] == 'e' then 21
    else if |s| == 4 && s[0] == 'r' && s[1] == 'o' then 22
    else if |s| == 6 && s[0] == 'm' && s[1] == 'a' then 23
    else if |s| == 6 && s[0] == 'l' && s[1] == 'i' then 24
    else if |s| == 6 && s[0] == 'v' && s[1] == 'i' then 25
    else if |s| == 6 && s[0] == 'p' && s[1] == 'r' then 26
    else if |s| == 8 && s[0] == 'b' && s[1] == 'u' then 27
    else if |s| == 6 && s[0] == 'w' && s[1] == 'a' then 28
    else if |s| == 4 && s[0] == 'o' && s[1] == 's' then 29
    else if |s| == 9 && s[0] == 's' && s[1] == 't' then 30
    else if |s| == 7 && s[0] == 'c' && s[1] == 'h' then 31
    else if |s| == 5 && s[0] == 'm' && s[1] == 'i' then 32
    else if |s| == 7 && s[0] == 's' && s[1] == 'e' then 33
    else if |s| == 6 && s[0] == 'a' && s[1] == 'u' then 34
    else if |s| == 6 && s[0] == 'd' && s[1] == 'e' then 35
    else if |s| == 6 && s[0] == 'b' && s[1] == 'o' then 36
    else if |s| == 7 && s[0] == 'a' && s[1] == 't' then 37
    else if |s| == 7 && s[0] == 'h' && s[1] == 'o' then 38
    else if |s| == 7 && s[0] == 'p' && s[1] == 'h' then 39
    else if |s| == 8 && s[0] == 'l' && s[1] == 'a' then 40
    else -1
  }

  lemma PositionsGenericTemplates()
    ensures forall i :: 0 <= i < |GENERIC_TEMPLATES| ==> Position(GENERIC_TEMPLATES[i]) == 0 + i
  {
    assert Position(GENERIC_TEMPLATES[0]) == 0;
    assert Position(GENERIC_TEMPLATES[1]) == 1;
    assert Position(GENERIC_TEMPLATES[2]) == 2;
    assert Position(GENERIC_TEMPLATES[3]) == 3;
    assert Position(GENERIC_TEMPLATES[4]) == 4;
    assert Position(GENERIC_TEMPLATES[5]) == 5;
    assert Position(GENERIC_TEMPLATES[6]) == 6;
    assert Position(GENERIC_TEMPLATES[7]) == 7;
    assert Position(GENERIC_TEMPLATES[8]) == 8;
    assert Position(GENERIC_TEMPLATES[9]) == 9;
    assert Position(GENERIC_TEMPLATES[10]) == 10;
  }

  lemma PositionsCitySidebarLeft()
    ensures forall i :: 0 <= i < |CITY_SIDEBAR_LEFT| ==> Position(CITY_SIDEBAR_LEFT[i]) == 11 + i
  {
    assert Position(CITY_SIDEBAR_LEFT[0]) == 11;
    assert Position(CITY_SIDEBAR_LEFT[1]) == 12;
    assert Position(CITY_SIDEBAR_LEFT[2]) == 13;
    assert Position(CITY_SIDEBAR_LEFT[3]) == 14;
    assert Position(CITY_SIDEBAR_LEFT[4]) == 15;
    assert Position(CITY_SIDEBAR_LEFT[5]) == 16;
    assert Position(CITY_SIDEBAR_LEFT[6]) == 17;
    assert Position(CITY_SIDEBAR_LEFT[7]) == 18;
    assert Position(CITY_SIDEBAR_LEFT[8]) == 19;
    assert Position(CITY_SIDEBAR_LEFT[9]) == 20;
  }

  lemma PositionsCityClassic()
    ensures forall i :: 0 <= i < |CITY_CLASSIC| ==> Position(CITY_CLASSIC[i]) == 21 + i
  {
    assert Position(CITY_CLASSIC[0]) == 21;
    assert Position(CITY_CLASSIC[1]) == 22;
    assert Position(CITY_CLASSIC[2]) == 23;
    assert Position(CITY_CLASSIC[3]) == 24;
    assert Position(CITY_CLASSIC[4]) == 25;
    assert Position(CITY_CLASSIC[5]) == 26;
    assert Position(CITY_CLASSIC[6]) == 27;
    assert Position(CITY_CLASSIC[7]) == 28;
    assert Position(CITY_CLASSIC[8]) == 29;
    assert Position(CITY_CLASSIC[9]) == 30;
  }

  lemma PositionsCitySidebarRight()
    ensures forall i :: 0 <= i < |CITY_SIDEBAR_RIGHT| ==> Position(CITY_SIDEBAR_RIGHT[i]) == 31 + i
  {
    assert Position(CITY_SIDEBAR_RIGHT[0]) == 31;
    assert Position(CITY_SIDEBAR_RIGHT[1]) == 32;
    assert Position(CITY_SIDEBAR_RIGHT[2]) == 33;
    assert Position(CITY_SIDEBAR_RIGHT[3]) == 34;
    assert Position(CITY_SIDEBAR_RIGHT[4]) == 35;
    assert Position(CITY_SIDEBAR_RIGHT[5]) == 36;
    assert Position(CITY_SIDEBAR_RIGHT[6]) == 37;
    assert Position(CITY_SIDEBAR_RIGHT[7]) == 38;
    assert Position(CITY_SIDEBAR_RIGHT[8]) == 39;
    assert Position(CITY_SIDEBAR_RIGHT[9]) == 40;
  }

  /** `Position` inverts the allowlist. */
  lemma PositionsOfTemplateKeys()
    ensures forall i :: 0 <= i < |TEMPLATE_KEYS| ==> Position(TEMPLATE_KEYS[i]) == i
  {
    PositionsGenericTemplates();
    PositionsCitySidebarLeft();
    PositionsCityClassic();
    PositionsCitySidebarRight();
    var a, b, c := |GENERIC_TEMPLATES|, |CITY_SIDEBAR_LEFT|, |CITY_CLASSIC|;
    forall i | 0 <= i < |TEMPLATE_KEYS| ensures Position(TEMPLATE_KEYS[i]) == i {
      if i < a {
        assert TEMPLATE_KEYS[i] == GENERIC_TEMPLATES[i];
      } else if i < a + b {
        assert TEMPLATE_KEYS[i] == CITY_SIDEBAR_LEFT[i - a];
      } else if i < a + b + c {
        assert TEMPLATE_KEYS[i] == CITY_CLASSIC[i - a - b];
      } else {
        assert TEMPLATE_KEYS[i] == CITY_SIDEBAR_RIGHT[i - a - b - c];
      }
    }
  }

  /** No template key is listed twice. */
  lemma TemplateKeysDistinct()
    ensures forall i, j :: 0 <= i < j < |TEMPLATE_KEYS| ==> TEMPLATE_KEYS[i] != TEMPLATE_KEYS[j]
  {
    PositionsOfTemplateKeys();
  }

  /** The doc-type keys are exactly "resume" and "cv"; the default is one of them. */
  lemma DocTypeTable()
    ensures DOC_TYPE_KEYS == ["resume", "cv"]
    ensures forall k :: k in DOC_TYPE_KEYS <==> k == "resume" || k == "cv"
    ensures DEFAULT_DOC_TYPE in DOC_TYPE_KEYS
    ensures DocTypeDisplay("resume") == "Resume" && DocTypeDisplay("cv") == "CV"
  {
  }
}
