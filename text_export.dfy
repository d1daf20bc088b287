/**
 * The plain-text export of `export_resume` (core/views.py): a list of lines
 * built in a fixed order and joined with newlines.
 *
 * `TextLines` states the list as a value; `BuildText` builds it the way the
 * handler does, by appending inside one loop per section. The lemmas say what
 * the list holds: the personal block first, one header per non-empty section
 * in a fixed order, every row in stored order, "Present" for current rows.
 */
module TextExport {
  import opened Wrappers
  import opened Models
  import opened Registry
  import opened Text

  const EDUCATION_HEADER := "\nEDUCATION:"
  const EXPERIENCE_HEADER := "\nEXPERIENCE:"
  const SKILLS_HEADER := "\nSKILLS:"
  const RESEARCH_HEADER := "\nRESEARCH:"
  const PUBLICATIONS_HEADER := "\nPUBLICATIONS:"
  const AWARDS_HEADER := "\nAWARDS:"

  /** The line that opens the section of kind `k`. */
  function Header(k: SectionKind): string {
    match k
    case EducationRows => EDUCATION_HEADER
    case ExperienceRows => EXPERIENCE_HEADER
    case SkillRows => SKILLS_HEADER
    case ResearchRows => RESEARCH_HEADER
    case PublicationRows => PUBLICATIONS_HEADER
    case AwardRows => AWARDS_HEADER
  }

  predicate IsHeader(line: string) {
    || line == EDUCATION_HEADER || line == EXPERIENCE_HEADER || line == SKILLS_HEADER
    || line == RESEARCH_HEADER || line == PUBLICATIONS_HEADER || line == AWARDS_HEADER
  }

  /** The first line of a row: "- " and the row's fields. */
  predicate IsRowHead(line: string) {
    "- " <= line
  }

  /** The indented description line under an education or experience row. */
  predicate IsDescription(line: string) {
    "  " <= line
  }

  /** A line a section contributes: its header, a row line or a description line. */
  predicate IsSectionLine(line: string) {
    IsHeader(line) || IsRowHead(line) || IsDescription(line)
  }

  /** A nullable field inside an f-string: Python prints a missing value as "None". */
  function OptText(o: Option<string>): (text: string)
    ensures o == None ==> text == "None"
    ensures o.Some? ==> text == o.value
  {
    match o
    case Some(s) => s
    case None => "None"
  }

  /** The end position of an education or experience row. */
  function EndText(isCurrent: bool, endDate: Option<string>): string {
    if isCurrent then "Present" else OptText(endDate)
  }

  /** A row line: "- " and the row's fields. */
  function Bullet(text: string): string {
    "- " + text
  }

  /** A description line, indented by two spaces. */
  function Indented(text: string): string {
    "  " + text
  }

  function DescriptionLines(description: string): seq<string> {
    if description != "" then [Indented(description)] else []
  }

  /** "- <text> (<start> - <end>)": a dated row line. */
  function DatedLine(text: string, start: string, end: string): (line: string)
    ensures var head := "- " + text + " (" + start;
            var tail := " - " + end + ")";
            |line| == |head| + |tail| && line[..|head|] == head && line[|head|..] == tail
  {
    var line := Bullet(text + " (" + start + " - " + end + ")");
    assert line == ("- " + text + " (" + start) + (" - " + end + ")");
    line
  }

  /** "- <degree> at <institution> (<start> - <end>)": the row's `__str__`, then its dates. */
  function EducationHead(e: Education): (line: string)
    ensures var head := "- " + EducationStr(e) + " (" + e.startDate;
            var tail := " - " + EndText(e.isCurrent, e.endDate) + ")";
            |line| == |head| + |tail| && line[..|head|] == head && line[|head|..] == tail
  {
    DatedLine(e.degree + " at " + e.institution, e.startDate, EndText(e.isCurrent, e.endDate))
  }

  function EducationLines(e: Education): seq<string> {
    [EducationHead(e)] + DescriptionLines(e.description)
  }

  /** "- <position> at <company> (<start> - <end>)": the row's `__str__`, then its dates. */
  function ExperienceHead(e: Experience): (line: string)
    ensures var head := "- " + ExperienceStr(e) + " (" + e.startDate;
            var tail := " - " + EndText(e.isCurrent, e.endDate) + ")";
            |line| == |head| + |tail| && line[..|head|] == head && line[|head|..] == tail
  {
    DatedLine(e.position + " at " + e.company, e.startDate, EndText(e.isCurrent, e.endDate))
  }

  function ExperienceLines(e: Experience): seq<string> {
    [ExperienceHead(e)] + DescriptionLines(e.description)
  }

  /** "- <name> (<proficiency>%)". */
  function SkillLine(s: Skill): (line: string)
    ensures var n := |s.name| + 4;
            |line| == n + |IntToString(s.proficiency)| + 2
            && line[..n] == "- " + s.name + " (" && line[n..|line| - 2] == IntToString(s.proficiency)
            && line[|line| - 2..] == "%)"
  {
    var head, digits := "- " + s.name + " (", IntToString(s.proficiency);
    var line := Bullet(s.name + " (" + digits + "%)");
    assert line == head + digits + "%)";
    assert line[..|head|] == head;
    assert line[|head|..|line| - 2] == digits;
    line
  }

  function SkillLines(s: Skill): seq<string> {
    [SkillLine(s)]
  }

  /** "- <title> (<date>): <description>". */
  function ResearchLine(r: Research): (line: string)
    ensures var head := "- " + r.title + " (" + OptText(r.date) + "): ";
            |line| == |head| + |r.description| && line[..|head|] == head && line[|head|..] == r.description
  {
    var line := Bullet(r.title + " (" + OptText(r.date) + "): " + r.description);
    assert line == ("- " + r.title + " (" + OptText(r.date) + "): ") + r.description;
    line
  }

  function ResearchLines(r: Research): seq<string> {
    [ResearchLine(r)]
  }

  /** "- <title> (<publisher>, <date>)". */
  function PublicationLine(p: Publication): (line: string)
    ensures var head := "- " + p.title + " (" + p.publisher + ", ";
            |line| == |head| + |OptText(p.date)| + 1 && line[..|head|] == head
            && line[|head|..] == OptText(p.date) + ")"
  {
    var line := Bullet(p.title + " (" + p.publisher + ", " + OptText(p.date) + ")");
    assert line == ("- " + p.title + " (" + p.publisher + ", ") + (OptText(p.date) + ")");
    line
  }

  function PublicationLines(p: Publication): seq<string> {
    [PublicationLine(p)]
  }

  /** "- <title> (<issuer>, <date>)". */
  function AwardLine(a: Award): (line: string)
    ensures var head := "- " + a.title + " (" + a.issuer + ", ";
            |line| == |head| + |OptText(a.date)| + 1 && line[..|head|] == head
            && line[|head|..] == OptText(a.date) + ")"
  {
    var line := Bullet(a.title + " (" + a.issuer + ", " + OptText(a.date) + ")");
    assert line == ("- " + a.title + " (" + a.issuer + ", ") + (OptText(a.date) + ")");
    line
  }

  function AwardLines(a: Award): seq<string> {
    [AwardLine(a)]
  }

  /** The lines of every row, rows in stored order. */
  function Flatten<T>(rows: seq<T>, render: T -> seq<string>): seq<string> {
    if |rows| == 0 then [] else Flatten(rows[..|rows| - 1], render) + render(rows[|rows| - 1])
  }

  /** One more row rendered after the first `i` extends their flattening by that row's lines. */
  lemma FlattenStep<T>(start: seq<string>, rows: seq<T>, i: nat, render: T -> seq<string>)
    requires i < |rows|
    ensures start + Flatten(rows[..i], render) + render(rows[i]) == start + Flatten(rows[..i + 1], render)
  {
    assert rows[..i + 1][..i] == rows[..i];
  }

  /** A section: emitted only when it has rows, header first. */
  function Block<T>(header: string, rows: seq<T>, render: T -> seq<string>): seq<string> {
    if |rows| == 0 then [] else [header] + Flatten(rows, render)
  }

  function PersonalLines(pd: PersonalDetail): seq<string> {
    ["NAME: " + pd.fullName, "EMAIL: " + pd.email, "PHONE: " + pd.phone, "ADDRESS: " + pd.address]
    + (if pd.linkedinUrl != "" then ["LINKEDIN: " + pd.linkedinUrl] else [])
    + (if pd.portfolioUrl != "" then ["PORTFOLIO: " + pd.portfolioUrl] else [])
    + ["\nSUMMARY:\n" + pd.summary + "\n"]
  }

  /** The `content` list of the txt branch. */
  function TextLines(d: DocumentView): (lines: seq<string>)
    ensures |PersonalLines(d.personal)| <= |lines|
    ensures lines[..|PersonalLines(d.personal)|] == PersonalLines(d.personal)
    ensures lines == PersonalLines(d.personal) <==> forall k :: RowCount(d.sections, k) == 0
  {
    var s := d.sections;
    var p := PersonalLines(d.personal);
    var b1, b2, b3 := Block(EDUCATION_HEADER, s.education, EducationLines),
                      Block(EXPERIENCE_HEADER, s.experience, ExperienceLines), Block(SKILLS_HEADER, s.skills, SkillLines);
    var b4, b5, b6 := Block(RESEARCH_HEADER, s.research, ResearchLines),
                      Block(PUBLICATIONS_HEADER, s.publications, PublicationLines), Block(AWARDS_HEADER, s.awards, AwardLines);
    var lines := p + b1 + b2 + b3 + b4 + b5 + b6;
    PrefixExtend(p, p, b1);
    PrefixExtend(p, p + b1, b2);
    PrefixExtend(p, p + b1 + b2, b3);
    PrefixExtend(p, p + b1 + b2 + b3, b4);
    PrefixExtend(p, p + b1 + b2 + b3 + b4, b5);
    PrefixExtend(p, p + b1 + b2 + b3 + b4 + b5, b6);
    assert (forall k :: RowCount(s, k) == 0) <==> |b1| + |b2| + |b3| + |b4| + |b5| + |b6| == 0 by {
      assert RowCount(s, EducationRows) == |s.education| && RowCount(s, ExperienceRows) == |s.experience|;
      assert RowCount(s, SkillRows) == |s.skills| && RowCount(s, ResearchRows) == |s.research|;
      assert RowCount(s, PublicationRows) == |s.publications| && RowCount(s, AwardRows) == |s.awards|;
    }
    lines
  }

  lemma PrefixExtend(a: seq<string>, b: seq<string>, c: seq<string>)
    requires |a| <= |b| && b[..|a|] == a
    ensures |a| <= |b + c| && (b + c)[..|a|] == a
  {
    assert (b + c)[..|a|] == b[..|a|];
  }

  /** The body of the txt download: `'\n'.join(content)`. */
  function TextBody(d: DocumentView): (body: string)
    ensures "NAME: " + d.personal.fullName + "\n" <= body
  {
    var lines := TextLines(d);
    assert lines[0] == lines[..|PersonalLines(d.personal)|][0];
    JoinLines(lines)
  }

  /** The txt branch's loops: append the personal block, then each non-empty section row by row. */
  method BuildText(d: DocumentView) returns (content: seq<string>)
    ensures content == TextLines(d)
  {
    content := PersonalBlock(d.personal);
    var s := d.sections;
    content := AppendEducation(content, s.education);
    content := AppendExperience(content, s.experience);
    content := AppendRows(content, SKILLS_HEADER, s.skills, SkillLines);
    content := AppendRows(content, RESEARCH_HEADER, s.research, ResearchLines);
    content := AppendRows(content, PUBLICATIONS_HEADER, s.publications, PublicationLines);
    content := AppendRows(content, AWARDS_HEADER, s.awards, AwardLines);
  }

  /** The four contact lines, the two optional link lines and the summary. */
  method PersonalBlock(pd: PersonalDetail) returns (content: seq<string>)
    ensures content == PersonalLines(pd)
  {
    content := [];
    content := content + ["NAME: " + pd.fullName];
    content := content + ["EMAIL: " + pd.email];
    content := content + ["PHONE: " + pd.phone];
    content := content + ["ADDRESS: " + pd.address];
    if pd.linkedinUrl != "" {
      content := content + ["LINKEDIN: " + pd.linkedinUrl];
    }
    if pd.portfolioUrl != "" {
      content := content + ["PORTFOLIO: " + pd.portfolioUrl];
    }
    content := content + ["\nSUMMARY:\n" + pd.summary + "\n"];
  }

  /** The education loop: the header, then each row's line and its description line when it has one. */
  method AppendEducation(content: seq<string>, rows: seq<Education>) returns (r: seq<string>)
    ensures r == content + Block(EDUCATION_HEADER, rows, EducationLines)
  {
    r := content;
    if |rows| > 0 {
      r := r + [EDUCATION_HEADER];
      ghost var started := r;
      for i := 0 to |rows|
        invariant r == started + Flatten(rows[..i], EducationLines)
      {
        var edu := rows[i];
        ghost var before := r;
        r := r + [EducationHead(edu)];
        if edu.description != "" {
          r := r + [Indented(edu.description)];
        }
        assert r == before + EducationLines(edu);
        FlattenStep(started, rows, i, EducationLines);
      }
      assert rows[..|rows|] == rows;
    }
  }

  /** The experience loop, shaped like the education one. */
  method AppendExperience(content: seq<string>, rows: seq<Experience>) returns (r: seq<string>)
    ensures r == content + Block(EXPERIENCE_HEADER, rows, ExperienceLines)
  {
    r := content;
    if |rows| > 0 {
      r := r + [EXPERIENCE_HEADER];
      ghost var started := r;
      for i := 0 to |rows|
        invariant r == started + Flatten(rows[..i], ExperienceLines)
      {
        var exp := rows[i];
        ghost var before := r;
        r := r + [ExperienceHead(exp)];
        if exp.description != "" {
          r := r + [Indented(exp.description)];
        }
        assert r == before + ExperienceLines(exp);
        FlattenStep(started, rows, i, ExperienceLines);
      }
      assert rows[..|rows|] == rows;
    }
  }

  /** The skill, research, publication and award loops: the header, then each row's lines. */
  method AppendRows<T>(content: seq<string>, header: string, rows: seq<T>, render: T -> seq<string>)
    returns (r: seq<string>)
    ensures r == content + Block(header, rows, render)
  {
    r := content;
    if |rows| > 0 {
      r := r + [header];
      for i := 0 to |rows|
        invariant r == content + [header] + Flatten(rows[..i], render)
      {
        r := r + render(rows[i]);
        assert rows[..i + 1][..i] == rows[..i];
      }
      assert rows[..|rows|] == rows;
    }
  }

  // Reading the list back: which lines of each kind it holds, and in which order.

  /** The lines satisfying `p`, in list order. */
  function Filter(lines: seq<string>, p: string -> bool): (r: seq<string>)
    ensures |r| <= |lines|
    ensures forall i :: 0 <= i < |r| ==> p(r[i])
  {
    if |lines| == 0 then []
    else Filter(lines[..|lines| - 1], p) + (if p(lines[|lines| - 1]) then [lines[|lines| - 1]] else [])
  }

  lemma {:induction false} FilterAppend(a: seq<string>, b: seq<string>, p: string -> bool)
    ensures Filter(a + b, p) == Filter(a, p) + Filter(b, p)
  {
    if |b| == 0 {
      assert a + b == a;
    } else {
      var b' := b[..|b| - 1];
      FilterAppend(a, b', p);
      assert (a + b)[..|a + b| - 1] == a + b';
    }
  }

  /** A line `p` accepts survives the filter exactly when it is in the list. */
  lemma {:induction false} FilterMember(lines: seq<string>, p: string -> bool, x: string)
    requires p(x)
    ensures x in Filter(lines, p) <==> x in lines
  {
    if |lines| > 0 {
      var init := lines[..|lines| - 1];
      FilterMember(init, p, x);
      assert lines == init + [lines[|lines| - 1]];
    }
  }

  /** One line per row, rows in stored order. */
  function MapLines<T>(rows: seq<T>, f: T -> string): (r: seq<string>)
    ensures |r| == |rows|
    ensures forall i :: 0 <= i < |rows| ==> r[i] == f(rows[i])
  {
    if |rows| == 0 then [] else MapLines(rows[..|rows| - 1], f) + [f(rows[|rows| - 1])]
  }

  /** When each row contributes exactly one line to the filter, the filter lists those lines in row order. */
  lemma {:induction false} FilterFlatten<T>(rows: seq<T>, render: T -> seq<string>, p: string -> bool, head: T -> string)
    requires forall x :: Filter(render(x), p) == [head(x)]
    ensures Filter(Flatten(rows, render), p) == MapLines(rows, head)
  {
    if |rows| > 0 {
      var init := rows[..|rows| - 1];
      FilterFlatten(init, render, p, head);
      FilterAppend(Flatten(init, render), render(rows[|rows| - 1]), p);
    }
  }

  lemma {:induction false} FilterFlattenNone<T>(rows: seq<T>, render: T -> seq<string>, p: string -> bool)
    requires forall x :: Filter(render(x), p) == []
    ensures Filter(Flatten(rows, render), p) == []
  {
    if |rows| > 0 {
      var init := rows[..|rows| - 1];
      FilterFlattenNone(init, render, p);
      FilterAppend(Flatten(init, render), render(rows[|rows| - 1]), p);
    }
  }

  /** A section contributes its header to the header lines exactly when it has rows. */
  lemma BlockHeaders<T>(header: string, rows: seq<T>, render: T -> seq<string>)
    requires IsHeader(header)
    requires forall x :: Filter(render(x), IsHeader) == []
    ensures Filter(Block(header, rows, render), IsHeader) == if |rows| > 0 then [header] else []
  {
    if |rows| > 0 {
      FilterFlattenNone(rows, render, IsHeader);
      FilterAppend([header], Flatten(rows, render), IsHeader);
      assert Filter([header], IsHeader) == [header] by {
        assert [header][..0] == [];
      }
    }
  }

  /** A section contributes one row line per row, in stored order, and nothing else. */
  lemma BlockRowHeads<T>(header: string, rows: seq<T>, render: T -> seq<string>, head: T -> string)
    requires IsHeader(header)
    requires forall x :: Filter(render(x), IsRowHead) == [head(x)]
    ensures Filter(Block(header, rows, render), IsRowHead) == MapLines(rows, head)
  {
    HeaderIsNotRowHead(header);
    if |rows| > 0 {
      FilterFlatten(rows, render, IsRowHead, head);
      FilterAppend([header], Flatten(rows, render), IsRowHead);
      assert Filter([header], IsRowHead) == [] by {
        assert [header][..0] == [];
      }
    }
  }

  lemma HeaderIsNotRowHead(line: string)
    requires IsHeader(line)
    ensures |line| > 0 && line[0] == '\n' && !IsRowHead(line) && !IsDescription(line)
  {
  }

  /** The filter of the lines of one row with a description line or none. */
  lemma RowFilter(head: string, description: string, p: string -> bool)
    requires p(head) && !p(Indented(description))
    ensures Filter([head] + DescriptionLines(description), p) == [head]
  {
    var lines := [head] + DescriptionLines(description);
    assert lines[..1] == [head];
    assert [head][..0] == [];
  }

  lemma RowFilterNone(head: string, description: string, p: string -> bool)
    requires !p(head) && !p(Indented(description))
    ensures Filter([head] + DescriptionLines(description), p) == []
  {
    var lines := [head] + DescriptionLines(description);
    assert lines[..1] == [head];
    assert [head][..0] == [];
  }

  lemma SingleFilter(line: string, p: string -> bool)
    ensures Filter([line], p) == if p(line) then [line] else []
  {
    assert [line][..0] == [];
  }

  /** Row lines start with "- ", description lines with two spaces. */
  lemma RowLineShapes(x: string)
    ensures IsRowHead(Bullet(x)) && !IsHeader(Bullet(x)) && !IsDescription(Bullet(x))
    ensures IsDescription(Indented(x)) && !IsHeader(Indented(x)) && !IsRowHead(Indented(x))
  {
    assert ("- " + x)[..2] == "- " && ("- " + x)[0] == '-';
    assert ("  " + x)[..2] == "  " && ("  " + x)[0] == ' ';
  }

  lemma PersonalHasNoHeaderOrRow(pd: PersonalDetail)
    ensures Filter(PersonalLines(pd), IsHeader) == []
    ensures Filter(PersonalLines(pd), IsRowHead) == []
  {
    var lines := PersonalLines(pd);
    forall i | 0 <= i < |lines|
      ensures !IsHeader(lines[i]) && !IsRowHead(lines[i])
    {
      PersonalLineStarts(pd, i);
    }
    FilterNone(lines, IsHeader);
    FilterNone(lines, IsRowHead);
  }

  lemma {:induction false} FilterNone(lines: seq<string>, p: string -> bool)
    requires forall i :: 0 <= i < |lines| ==> !p(lines[i])
    ensures Filter(lines, p) == []
  {
    if |lines| > 0 {
      FilterNone(lines[..|lines| - 1], p);
    }
  }

  /**
   * Every line of the personal block begins with its own field label, so it is
   * neither a section header nor a row line.
   */
  lemma PersonalLineStarts(pd: PersonalDetail, i: nat)
    requires i < |PersonalLines(pd)|
    ensures var line := PersonalLines(pd)[i];
            !IsHeader(line) && !IsRowHead(line) && !IsDescription(line)
            && ("LINKEDIN: " <= line ==> i == 4 && pd.linkedinUrl != "")
            && ("PORTFOLIO: " <= line ==> pd.portfolioUrl != "")
  {
    var lines := PersonalLines(pd);
    var links := (if pd.linkedinUrl != "" then ["LINKEDIN: " + pd.linkedinUrl] else [])
      + (if pd.portfolioUrl != "" then ["PORTFOLIO: " + pd.portfolioUrl] else []);
    assert lines == ["NAME: " + pd.fullName, "EMAIL: " + pd.email, "PHONE: " + pd.phone, "ADDRESS: " + pd.address]
      + links + ["\nSUMMARY:\n" + pd.summary + "\n"];
    if i == 0 {
      LabelStart("NAME: ", pd.fullName);
    } else if i == 1 {
      LabelStart("EMAIL: ", pd.email);
    } else if i == 2 {
      LabelStart("PHONE: ", pd.phone);
    } else if i == 3 {
      LabelStart("ADDRESS: ", pd.address);
    } else if i < 4 + |links| {
      assert lines[i] == links[i - 4];
      if pd.linkedinUrl != "" && i == 4 {
        LabelStart("LINKEDIN: ", pd.linkedinUrl);
      } else {
        LabelStart("PORTFOLIO: ", pd.portfolioUrl);
      }
    } else {
      assert lines[i] == "\nSUMMARY:\n" + (pd.summary + "\n");
      LabelStart("\nSUMMARY:\n", pd.summary + "\n");
    }
  }

  /** A labelled line keeps its label's first three characters. */
  lemma LabelStart(tag: string, value: string)
    requires |tag| >= 3
    ensures var line := tag + value;
            line[0] == tag[0] && line[1] == tag[1] && line[2] == tag[2] && tag <= line
  {
  }

  /** Each row contributes no header line and exactly its own row line. */
  lemma EducationFilters()
    ensures forall e :: Filter(EducationLines(e), IsHeader) == [] && Filter(EducationLines(e), IsRowHead) == [EducationHead(e)]
    ensures forall e, j :: 0 <= j < |EducationLines(e)| ==> IsSectionLine(EducationLines(e)[j])
  {
    forall e: Education
      ensures Filter(EducationLines(e), IsHeader) == [] && Filter(EducationLines(e), IsRowHead) == [EducationHead(e)]
      ensures forall j :: 0 <= j < |EducationLines(e)| ==> IsSectionLine(EducationLines(e)[j])
    {
      RowLineShapes(e.degree + " at " + e.institution + " (" + e.startDate + " - " + EndText(e.isCurrent, e.endDate) + ")");
      RowLineShapes(e.description);
      RowFilterNone(EducationHead(e), e.description, IsHeader);
      RowFilter(EducationHead(e), e.description, IsRowHead);
    }
  }

  lemma ExperienceFilters()
    ensures forall e :: Filter(ExperienceLines(e), IsHeader) == [] && Filter(ExperienceLines(e), IsRowHead) == [ExperienceHead(e)]
    ensures forall e, j :: 0 <= j < |ExperienceLines(e)| ==> IsSectionLine(ExperienceLines(e)[j])
  {
    forall e: Experience
      ensures Filter(ExperienceLines(e), IsHeader) == [] && Filter(ExperienceLines(e), IsRowHead) == [ExperienceHead(e)]
      ensures forall j :: 0 <= j < |ExperienceLines(e)| ==> IsSectionLine(ExperienceLines(e)[j])
    {
      RowLineShapes(e.position + " at " + e.company + " (" + e.startDate + " - " + EndText(e.isCurrent, e.endDate) + ")");
      RowLineShapes(e.description);
      RowFilterNone(ExperienceHead(e), e.description, IsHeader);
      RowFilter(ExperienceHead(e), e.description, IsRowHead);
    }
  }

  lemma SkillFilters()
    ensures forall x :: Filter(SkillLines(x), IsHeader) == [] && Filter(SkillLines(x), IsRowHead) == [SkillLine(x)]
    ensures forall x, j :: 0 <= j < |SkillLines(x)| ==> IsSectionLine(SkillLines(x)[j])
  {
    forall x: Skill
      ensures Filter(SkillLines(x), IsHeader) == [] && Filter(SkillLines(x), IsRowHead) == [SkillLine(x)]
      ensures forall j :: 0 <= j < |SkillLines(x)| ==> IsSectionLine(SkillLines(x)[j])
    {
      RowLineShapes(x.name + " (" + IntToString(x.proficiency) + "%)");
      SingleFilter(SkillLine(x), IsHeader);
      SingleFilter(SkillLine(x), IsRowHead);
    }
  }

  lemma ResearchFilters()
    ensures forall x :: Filter(ResearchLines(x), IsHeader) == [] && Filter(ResearchLines(x), IsRowHead) == [ResearchLine(x)]
    ensures forall x, j :: 0 <= j < |ResearchLines(x)| ==> IsSectionLine(ResearchLines(x)[j])
  {
    forall x: Research
      ensures Filter(ResearchLines(x), IsHeader) == [] && Filter(ResearchLines(x), IsRowHead) == [ResearchLine(x)]
      ensures forall j :: 0 <= j < |ResearchLines(x)| ==> IsSectionLine(ResearchLines(x)[j])
    {
      RowLineShapes(x.title + " (" + OptText(x.date) + "): " + x.description);
      SingleFilter(ResearchLine(x), IsHeader);
      SingleFilter(ResearchLine(x), IsRowHead);
    }
  }

  lemma PublicationFilters()
    ensures forall x :: Filter(PublicationLines(x), IsHeader) == [] && Filter(PublicationLines(x), IsRowHead) == [PublicationLine(x)]
    ensures forall x, j :: 0 <= j < |PublicationLines(x)| ==> IsSectionLine(PublicationLines(x)[j])
  {
    forall x: Publication
      ensures Filter(PublicationLines(x), IsHeader) == [] && Filter(PublicationLines(x), IsRowHead) == [PublicationLine(x)]
      ensures forall j :: 0 <= j < |PublicationLines(x)| ==> IsSectionLine(PublicationLines(x)[j])
    {
      RowLineShapes(x.title + " (" + x.publisher + ", " + OptText(x.date) + ")");
      SingleFilter(PublicationLine(x), IsHeader);
      SingleFilter(PublicationLine(x), IsRowHead);
    }
  }

  lemma AwardFilters()
    ensures forall x :: Filter(AwardLines(x), IsHeader) == [] && Filter(AwardLines(x), IsRowHead) == [AwardLine(x)]
    ensures forall x, j :: 0 <= j < |AwardLines(x)| ==> IsSectionLine(AwardLines(x)[j])
  {
    forall x: Award
      ensures Filter(AwardLines(x), IsHeader) == [] && Filter(AwardLines(x), IsRowHead) == [AwardLine(x)]
      ensures forall j :: 0 <= j < |AwardLines(x)| ==> IsSectionLine(AwardLines(x)[j])
    {
      RowLineShapes(x.title + " (" + x.issuer + ", " + OptText(x.date) + ")");
      SingleFilter(AwardLine(x), IsHeader);
      SingleFilter(AwardLine(x), IsRowHead);
    }
  }

  /** The headers of the kinds in `kinds` that have rows, in the order of `kinds`. */
  function HeadersOf(kinds: seq<SectionKind>, s: Sections): seq<string> {
    if |kinds| == 0 then []
    else (if RowCount(s, kinds[0]) > 0 then [Header(kinds[0])] else []) + HeadersOf(kinds[1..], s)
  }

  /** The header a section contributes: its own when it has rows, none otherwise. */
  function HeaderIfAny<T>(header: string, rows: seq<T>): seq<string> {
    if |rows| > 0 then [header] else []
  }

  lemma HeadersOfAll(s: Sections)
    ensures HeadersOf(ALL_SECTIONS, s)
            == HeaderIfAny(EDUCATION_HEADER, s.education) + HeaderIfAny(EXPERIENCE_HEADER, s.experience)
               + HeaderIfAny(SKILLS_HEADER, s.skills) + HeaderIfAny(RESEARCH_HEADER, s.research)
               + HeaderIfAny(PUBLICATIONS_HEADER, s.publications) + HeaderIfAny(AWARDS_HEADER, s.awards)
  {
    var k := ALL_SECTIONS;
    assert k[1..][1..][1..][1..][1..][1..] == [];
    var h6 := HeaderIfAny(AWARDS_HEADER, s.awards);
    var h5 := HeaderIfAny(PUBLICATIONS_HEADER, s.publications);
    var h4 := HeaderIfAny(RESEARCH_HEADER, s.research);
    var h3 := HeaderIfAny(SKILLS_HEADER, s.skills);
    var h2 := HeaderIfAny(EXPERIENCE_HEADER, s.experience);
    var h1 := HeaderIfAny(EDUCATION_HEADER, s.education);
    assert HeadersOf(k[1..][1..][1..][1..][1..], s) == h6;
    assert HeadersOf(k[1..][1..][1..][1..], s) == h5 + h6;
    assert HeadersOf(k[1..][1..][1..], s) == h4 + (h5 + h6);
    assert HeadersOf(k[1..][1..], s) == h3 + (h4 + (h5 + h6));
    assert HeadersOf(k[1..], s) == h2 + (h3 + (h4 + (h5 + h6)));
    assert HeadersOf(k, s) == h1 + (h2 + (h3 + (h4 + (h5 + h6))));
  }

  /**
   * The section headers of the text, in order: one for each section that has
   * rows, in the fixed order education, experience, skills, research,
   * publications, awards; an empty section leaves no header.
   */
  lemma HeadersInOrder(d: DocumentView)
    ensures Filter(TextLines(d), IsHeader) == HeadersOf(ALL_SECTIONS, d.sections)
  {
    var s := d.sections;
    var b1 := Block(EDUCATION_HEADER, s.education, EducationLines);
    var b2 := Block(EXPERIENCE_HEADER, s.experience, ExperienceLines);
    var b3 := Block(SKILLS_HEADER, s.skills, SkillLines);
    var b4 := Block(RESEARCH_HEADER, s.research, ResearchLines);
    var b5 := Block(PUBLICATIONS_HEADER, s.publications, PublicationLines);
    var b6 := Block(AWARDS_HEADER, s.awards, AwardLines);
    var p0 := PersonalLines(d.personal);
    var p1 := p0 + b1;
    var p2 := p1 + b2;
    var p3 := p2 + b3;
    var p4 := p3 + b4;
    var p5 := p4 + b5;
    assert Filter(p0, IsHeader) == [] by {
      PersonalHasNoHeaderOrRow(d.personal);
    }
    assert Filter(b1, IsHeader) == HeaderIfAny(EDUCATION_HEADER, s.education) by {
      EducationFilters();
      BlockHeaders(EDUCATION_HEADER, s.education, EducationLines);
    }
    assert Filter(b2, IsHeader) == HeaderIfAny(EXPERIENCE_HEADER, s.experience) by {
      ExperienceFilters();
      BlockHeaders(EXPERIENCE_HEADER, s.experience, ExperienceLines);
    }
    assert Filter(b3, IsHeader) == HeaderIfAny(SKILLS_HEADER, s.skills) by {
      SkillFilters();
      BlockHeaders(SKILLS_HEADER, s.skills, SkillLines);
    }
    assert Filter(b4, IsHeader) == HeaderIfAny(RESEARCH_HEADER, s.research) by {
      ResearchFilters();
      BlockHeaders(RESEARCH_HEADER, s.research, ResearchLines);
    }
    assert Filter(b5, IsHeader) == HeaderIfAny(PUBLICATIONS_HEADER, s.publications) by {
      PublicationFilters();
      BlockHeaders(PUBLICATIONS_HEADER, s.publications, PublicationLines);
    }
    assert Filter(b6, IsHeader) == HeaderIfAny(AWARDS_HEADER, s.awards) by {
      AwardFilters();
      BlockHeaders(AWARDS_HEADER, s.awards, AwardLines);
    }
    FilterAppend(p0, b1, IsHeader);
    FilterAppend(p1, b2, IsHeader);
    FilterAppend(p2, b3, IsHeader);
    FilterAppend(p3, b4, IsHeader);
    FilterAppend(p4, b5, IsHeader);
    FilterAppend(p5, b6, IsHeader);
    assert [] + HeaderIfAny(EDUCATION_HEADER, s.education) == HeaderIfAny(EDUCATION_HEADER, s.education);
    HeadersOfAll(s);
  }

  lemma HeaderInjective(a: SectionKind, b: SectionKind)
    ensures Header(a) == Header(b) <==> a == b
  {
  }

  lemma {:induction false} HeadersOfMember(kinds: seq<SectionKind>, s: Sections, k: SectionKind)
    ensures Header(k) in HeadersOf(kinds, s) <==> k in kinds && RowCount(s, k) > 0
  {
    if |kinds| > 0 {
      HeadersOfMember(kinds[1..], s, k);
      HeaderInjective(kinds[0], k);
      assert kinds == [kinds[0]] + kinds[1..];
    }
  }

  /** A section's header is in the text exactly when the section has rows. */
  lemma HeaderPresentIff(d: DocumentView, k: SectionKind)
    ensures Header(k) in TextLines(d) <==> RowCount(d.sections, k) > 0
  {
    HeadersInOrder(d);
    FilterMember(TextLines(d), IsHeader, Header(k));
    HeadersOfMember(ALL_SECTIONS, d.sections, k);
  }

  /**
   * The row lines of the text, in order: every education row, then every
   * experience row, skill, research entry, publication and award, each
   * section's rows in stored order, one line per row.
   */
  lemma RowsInStoredOrder(d: DocumentView)
    ensures var s := d.sections;
            Filter(TextLines(d), IsRowHead)
            == MapLines(s.education, EducationHead) + MapLines(s.experience, ExperienceHead)
               + MapLines(s.skills, SkillLine) + MapLines(s.research, ResearchLine)
               + MapLines(s.publications, PublicationLine) + MapLines(s.awards, AwardLine)
  {
    var s := d.sections;
    var b1 := Block(EDUCATION_HEADER, s.education, EducationLines);
    var b2 := Block(EXPERIENCE_HEADER, s.experience, ExperienceLines);
    var b3 := Block(SKILLS_HEADER, s.skills, SkillLines);
    var b4 := Block(RESEARCH_HEADER, s.research, ResearchLines);
    var b5 := Block(PUBLICATIONS_HEADER, s.publications, PublicationLines);
    var b6 := Block(AWARDS_HEADER, s.awards, AwardLines);
    var p0 := PersonalLines(d.personal);
    var p1 := p0 + b1;
    var p2 := p1 + b2;
    var p3 := p2 + b3;
    var p4 := p3 + b4;
    var p5 := p4 + b5;
    assert Filter(p0, IsRowHead) == [] by {
      PersonalHasNoHeaderOrRow(d.personal);
    }
    assert Filter(b1, IsRowHead) == MapLines(s.education, EducationHead) by {
      EducationFilters();
      BlockRowHeads(EDUCATION_HEADER, s.education, EducationLines, EducationHead);
    }
    assert Filter(b2, IsRowHead) == MapLines(s.experience, ExperienceHead) by {
      ExperienceFilters();
      BlockRowHeads(EXPERIENCE_HEADER, s.experience, ExperienceLines, ExperienceHead);
    }
    assert Filter(b3, IsRowHead) == MapLines(s.skills, SkillLine) by {
      SkillFilters();
      BlockRowHeads(SKILLS_HEADER, s.skills, SkillLines, SkillLine);
    }
    assert Filter(b4, IsRowHead) == MapLines(s.research, ResearchLine) by {
      ResearchFilters();
      BlockRowHeads(RESEARCH_HEADER, s.research, ResearchLines, ResearchLine);
    }
    assert Filter(b5, IsRowHead) == MapLines(s.publications, PublicationLine) by {
      PublicationFilters();
      BlockRowHeads(PUBLICATIONS_HEADER, s.publications, PublicationLines, PublicationLine);
    }
    assert Filter(b6, IsRowHead) == MapLines(s.awards, AwardLine) by {
      AwardFilters();
      BlockRowHeads(AWARDS_HEADER, s.awards, AwardLines, AwardLine);
    }
    FilterAppend(p0, b1, IsRowHead);
    FilterAppend(p1, b2, IsRowHead);
    FilterAppend(p2, b3, IsRowHead);
    FilterAppend(p3, b4, IsRowHead);
    FilterAppend(p4, b5, IsRowHead);
    FilterAppend(p5, b6, IsRowHead);
    assert [] + MapLines(s.education, EducationHead) == MapLines(s.education, EducationHead);
  }

  /** Every line of a section lies in one of the three section-line kinds. */
  lemma {:induction false} FlattenShape<T>(rows: seq<T>, render: T -> seq<string>)
    requires forall x, j :: 0 <= j < |render(x)| ==> IsSectionLine(render(x)[j])
    ensures forall j :: 0 <= j < |Flatten(rows, render)| ==> IsSectionLine(Flatten(rows, render)[j])
  {
    if |rows| > 0 {
      FlattenShape(rows[..|rows| - 1], render);
    }
  }

  lemma BlockShape<T>(header: string, rows: seq<T>, render: T -> seq<string>)
    requires IsHeader(header)
    requires forall x, j :: 0 <= j < |render(x)| ==> IsSectionLine(render(x)[j])
    ensures forall j :: 0 <= j < |Block(header, rows, render)| ==> IsSectionLine(Block(header, rows, render)[j])
  {
    FlattenShape(rows, render);
  }

  lemma AppendShape(a: seq<string>, b: seq<string>, from: nat)
    requires from <= |a|
    requires forall j :: from <= j < |a| ==> IsSectionLine(a[j])
    requires forall j :: 0 <= j < |b| ==> IsSectionLine(b[j])
    ensures forall j :: from <= j < |a + b| ==> IsSectionLine((a + b)[j])
  {
  }

  /** After the personal block, every line is a section header, a row line or a description line. */
  lemma SectionsAfterPersonal(d: DocumentView)
    ensures |PersonalLines(d.personal)| <= |TextLines(d)|
    ensures forall j :: |PersonalLines(d.personal)| <= j < |TextLines(d)| ==> IsSectionLine(TextLines(d)[j])
  {
    var s := d.sections;
    var b1 := Block(EDUCATION_HEADER, s.education, EducationLines);
    var b2 := Block(EXPERIENCE_HEADER, s.experience, ExperienceLines);
    var b3 := Block(SKILLS_HEADER, s.skills, SkillLines);
    var b4 := Block(RESEARCH_HEADER, s.research, ResearchLines);
    var b5 := Block(PUBLICATIONS_HEADER, s.publications, PublicationLines);
    var b6 := Block(AWARDS_HEADER, s.awards, AwardLines);
    var p0 := PersonalLines(d.personal);
    var n := |p0|;
    EducationFilters();
    BlockShape(EDUCATION_HEADER, s.education, EducationLines);
    AppendShape(p0, b1, n);
    ExperienceFilters();
    BlockShape(EXPERIENCE_HEADER, s.experience, ExperienceLines);
    AppendShape(p0 + b1, b2, n);
    SkillFilters();
    BlockShape(SKILLS_HEADER, s.skills, SkillLines);
    AppendShape(p0 + b1 + b2, b3, n);
    ResearchFilters();
    BlockShape(RESEARCH_HEADER, s.research, ResearchLines);
    AppendShape(p0 + b1 + b2 + b3, b4, n);
    PublicationFilters();
    BlockShape(PUBLICATIONS_HEADER, s.publications, PublicationLines);
    AppendShape(p0 + b1 + b2 + b3 + b4, b5, n);
    AwardFilters();
    BlockShape(AWARDS_HEADER, s.awards, AwardLines);
    AppendShape(p0 + b1 + b2 + b3 + b4 + b5, b6, n);
  }

  /** A section line starts with a newline, a dash or a space, so it carries no personal-field label. */
  lemma SectionLineUnlabelled(line: string, tag: string)
    requires IsSectionLine(line)
    requires |tag| > 0 && tag[0] != '\n' && tag[0] != '-' && tag[0] != ' '
    ensures !(tag <= line)
  {
    if IsHeader(line) {
      HeaderIsNotRowHead(line);
    } else if IsRowHead(line) {
      assert line[..2] == "- ";
    } else {
      assert line[..2] == "  ";
    }
  }

  /** A line of `lines` starts with `prefix`. */
  predicate HasLine(lines: seq<string>, prefix: string) {
    exists i :: 0 <= i < |lines| && prefix <= lines[i]
  }

  /**
   * The text opens with the personal block: name, email, phone and address
   * lines; a LINKEDIN line exactly when the LinkedIn URL is set and a
   * PORTFOLIO line exactly when the portfolio URL is set (nowhere else in the
   * text); then the summary.
   */
  lemma OpensWithPersonalBlock(d: DocumentView)
    ensures var lines := TextLines(d);
            var pd := d.personal;
            var links := (if pd.linkedinUrl != "" then 1 else 0) + (if pd.portfolioUrl != "" then 1 else 0);
            |lines| >= 5 + links
            && lines[0] == "NAME: " + pd.fullName && lines[1] == "EMAIL: " + pd.email
            && lines[2] == "PHONE: " + pd.phone && lines[3] == "ADDRESS: " + pd.address
            && (pd.linkedinUrl != "" ==> lines[4] == "LINKEDIN: " + pd.linkedinUrl)
            && lines[4 + links] == "\nSUMMARY:\n" + pd.summary + "\n"
            && (HasLine(lines, "LINKEDIN: ") <==> pd.linkedinUrl != "")
            && (HasLine(lines, "PORTFOLIO: ") <==> pd.portfolioUrl != "")
  {
    var lines := TextLines(d);
    var pd := d.personal;
    var p0 := PersonalLines(pd);
    assert lines[..|p0|] == p0;
    SectionsAfterPersonal(d);
    if pd.linkedinUrl != "" {
      assert "LINKEDIN: " <= lines[4];
    }
    if pd.portfolioUrl != "" {
      var k := if pd.linkedinUrl != "" then 5 else 4;
      assert lines[k] == "PORTFOLIO: " + pd.portfolioUrl;
      assert "PORTFOLIO: " <= lines[k];
    }
    forall i | 0 <= i < |lines|
      ensures "LINKEDIN: " <= lines[i] ==> pd.linkedinUrl != ""
      ensures "PORTFOLIO: " <= lines[i] ==> pd.portfolioUrl != ""
    {
      if i < |p0| {
        assert lines[i] == p0[i];
        PersonalLineStarts(pd, i);
      } else {
        SectionLineUnlabelled(lines[i], "LINKEDIN: ");
        SectionLineUnlabelled(lines[i], "PORTFOLIO: ");
      }
    }
  }

  predicate EndsWith(s: string, suffix: string) {
    |suffix| <= |s| && s[|s| - |suffix|..] == suffix
  }

  /** The row line and its two dates regrouped as "- <text> (<start>" and " - <end>)". */
  lemma DatedLineShape(text: string, start: string, end: string)
    ensures Bullet(text + " (" + start + " - ") <= DatedLine(text, start, end)
    ensures EndsWith(DatedLine(text, start, end), " - " + end + ")")
  {
    var line := DatedLine(text, start, end);
    var head := "- " + text + " (" + start;
    var tail := " - " + end + ")";
    assert line == line[..|head|] + line[|head|..];
    assert line[..|head| + 3] == head + " - ";
    assert Bullet(text + " (" + start + " - ") == head + " - ";
  }

  /**
   * An education row's line: "- ", the row's `__str__` ("<degree> at
   * <institution>"), the start date, then "Present" while the row is current,
   * whatever end date is stored, and the end date (or "None") otherwise. The
   * description gets a line of its own exactly when it is non-empty.
   */
  lemma EducationRow(e: Education, otherEnd: Option<string>)
    ensures Bullet(EducationStr(e) + " (" + e.startDate + " - ") <= EducationHead(e)
    ensures e.isCurrent ==> EndsWith(EducationHead(e), " - Present)")
    ensures e.isCurrent ==> EducationHead(e.(endDate := otherEnd)) == EducationHead(e)
    ensures !e.isCurrent ==> EndsWith(EducationHead(e), " - " + OptText(e.endDate) + ")")
  {
    DatedLineShape(EducationStr(e), e.startDate, EndText(e.isCurrent, e.endDate));
    if e.isCurrent {
      var moved := e.(endDate := otherEnd);
      assert EndText(moved.isCurrent, moved.endDate) == EndText(e.isCurrent, e.endDate);
    }
  }

  /** A row's description gets a line of its own, under the row line, exactly when it is non-empty. */
  lemma EducationDescriptionLine(e: Education)
    ensures EducationLines(e)[0] == EducationHead(e)
    ensures Indented(e.description) in EducationLines(e) <==> e.description != ""
    ensures |EducationLines(e)| == if e.description == "" then 1 else 2
  {
    RowLineShapes(e.description);
    RowLineShapes(EducationHead(e)[2..]);
    assert Bullet(EducationHead(e)[2..]) == EducationHead(e);
  }

  /** The same for an experience row: "<position> at <company>", then the dates. */
  lemma ExperienceRow(e: Experience, otherEnd: Option<string>)
    ensures Bullet(ExperienceStr(e) + " (" + e.startDate + " - ") <= ExperienceHead(e)
    ensures e.isCurrent ==> EndsWith(ExperienceHead(e), " - Present)")
    ensures e.isCurrent ==> ExperienceHead(e.(endDate := otherEnd)) == ExperienceHead(e)
    ensures !e.isCurrent ==> EndsWith(ExperienceHead(e), " - " + OptText(e.endDate) + ")")
  {
    DatedLineShape(ExperienceStr(e), e.startDate, EndText(e.isCurrent, e.endDate));
    if e.isCurrent {
      var moved := e.(endDate := otherEnd);
      assert EndText(moved.isCurrent, moved.endDate) == EndText(e.isCurrent, e.endDate);
    }
  }

  /** A row's description gets a line of its own, under the row line, exactly when it is non-empty. */
  lemma ExperienceDescriptionLine(e: Experience)
    ensures ExperienceLines(e)[0] == ExperienceHead(e)
    ensures Indented(e.description) in ExperienceLines(e) <==> e.description != ""
    ensures |ExperienceLines(e)| == if e.description == "" then 1 else 2
  {
    RowLineShapes(e.description);
    RowLineShapes(ExperienceHead(e)[2..]);
    assert Bullet(ExperienceHead(e)[2..]) == ExperienceHead(e);
  }

  /** The proficiency printed between the skill's name and "%)" reads back as the stored number. */
  lemma SkillProficiencyReadBack(x: Skill)
    ensures var line := SkillLine(x);
            |x.name| + 4 <= |line| - 2 && line[..|x.name| + 4] == "- " + x.name + " (" && EndsWith(line, "%)")
            && var digits := line[|x.name| + 4..|line| - 2];
               IsIntText(digits) && ParseInt(digits) == x.proficiency
  {
    var digits := IntToString(x.proficiency);
    var line := SkillLine(x);
    assert line == "- " + x.name + " (" + digits + "%)";
    assert line[|x.name| + 4..|line| - 2] == digits;
    IntRoundTrip(x.proficiency);
  }

  /** The first four lines of the text are the contact lines. */
  lemma ContactLines(d: DocumentView)
    ensures var lines := TextLines(d);
            var pd := d.personal;
            |lines| >= 5 && lines[..4] == ["NAME: " + pd.fullName, "EMAIL: " + pd.email, "PHONE: " + pd.phone, "ADDRESS: " + pd.address]
  {
    var p0 := PersonalLines(d.personal);
    assert TextLines(d)[..|p0|] == p0;
    assert TextLines(d)[..4] == p0[..4];
  }

  /** The downloaded text starts with the four contact lines, each followed by a newline. */
  lemma TextBodyStartsWithContact(d: DocumentView)
    ensures var pd := d.personal;
            var name, email, phone, address := "NAME: " + pd.fullName, "EMAIL: " + pd.email, "PHONE: " + pd.phone, "ADDRESS: " + pd.address;
            name + "\n" + email + "\n" + phone + "\n" + address + "\n" <= TextBody(d)
  {
    var lines := TextLines(d);
    var pd := d.personal;
    ContactLines(d);
    JoinPrefix(lines, 4);
    JoinFour("NAME: " + pd.fullName, "EMAIL: " + pd.email, "PHONE: " + pd.phone, "ADDRESS: " + pd.address);
  }
}
