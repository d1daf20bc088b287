/**
 * The request handlers of core/views.py that decide something: creating and
 * editing a document, viewing it through a template, previewing a template,
 * and exporting. The database is a `Store` keyed by resume id; a handler's
 * response says which page, redirect or download it produces.
 */
module Views {
  import opened Wrappers
  import opened Models
  import opened Text
  import opened Registry
  import opened Forms
  import opened TemplateResolver
  import opened TextExport
  import opened Export
  import opened Preview

  /** What a handler answers with. Status codes and headers are not modelled. */
  datatype Response =
    | Redirect(to: string, message: Option<string>)
      /** The `resume_form.html` page: its title, its doc type and the section formsets it shows. */
    | FormPage(title: string, docType: string, formsets: seq<SectionKind>)
    | NotFound
      /** An exception escaped the handler. */
    | ServerError
    | TemplatePage(templateFile: string)
    | PreviewPage(templateFile: string, document: DocumentView)
    | TextAttachment(filename: string, body: string)
      /** The doc branch: a rendered template relabelled as a Word document, with no filename. */
    | WordPage(templateFile: string)
    | PdfAttachment(filename: string, templateFile: string)

  /** What an export encoder reads of a stored resume. */
  function DocumentOf(r: Resume, pd: PersonalDetail, s: Sections): (d: DocumentView)
    ensures d.docType == r.docType && d.docTypeLabel == DocTypeDisplay(r.docType)
    ensures d.personal == pd && d.sections == s
  {
    DocumentView(r.docType, DocTypeDisplay(r.docType), pd, s)
  }

  /** A stored resume passed `ResumeForm` when it was saved. */
  predicate StoredResumeValid(r: Resume) {
    ResumeFormValid(ResumePost(r.title, r.templateName, r.docType))
  }

  /** The form page of `create_resume` and `edit_resume`: "Create CV", "Edit RESUME", ... */
  function FormTitle(verb: string, docType: string): (title: string)
    ensures |title| == |verb| + 1 + |docType|
    ensures title[..|verb| + 1] == verb + " " && title[|verb| + 1..] == Upper(docType)
  {
    verb + " " + Upper(docType)
  }

  /** The two titles a form page can carry: "Create CV", "Edit RESUME", ... */
  lemma DocTypeTitles(verb: string)
    ensures FormTitle(verb, "cv") == verb + " CV"
    ensures FormTitle(verb, "resume") == verb + " RESUME"
  {
    UpperCv();
    UpperResume();
    assert " " + "CV" == " CV" && " " + "RESUME" == " RESUME";
    assert FormTitle(verb, "cv") == verb + (" " + "CV");
    assert FormTitle(verb, "resume") == verb + (" " + "RESUME");
  }

  /** `create_resume` on GET: every section formset, the title from the normalised `type`. */
  function CreatePage(query: Option<string>): (resp: Response)
    ensures resp.FormPage? && resp.formsets == ALL_SECTIONS
    ensures query == Some("cv") ==> resp.docType == "cv" && resp.title == FormTitle("Create", "cv")
    ensures query != Some("cv") ==> resp.docType == "resume" && resp.title == FormTitle("Create", "resume")
  {
    var docType := NormalizeDocType(query);
    FormPage(FormTitle("Create", docType), docType, ALL_SECTIONS)
  }

  /**
   * The create re-render as written (core/views.py:85-92): on a POST the
   * context reads `formsets`, which the handler binds only once both forms
   * passed validation; unbound, the read raises and the request fails.
   */
  function CreateRerenderAsWritten(docType: string, bound: Option<seq<SectionKind>>): (resp: Response)
    ensures bound == None <==> resp == ServerError
    ensures bound.Some? ==> resp == FormPage(FormTitle("Create", docType), docType, bound.value)
  {
    match bound
    case None => ServerError
    case Some(kinds) => FormPage(FormTitle("Create", docType), docType, kinds)
  }

  /** The formsets `create_resume` has bound when it reaches the context: only when both forms passed. */
  function BoundFormsets(form: ResumePost, personal: PersonalPost): (bound: Option<seq<SectionKind>>)
    ensures bound.Some? <==> ResumeFormValid(form) && PersonalFormValid(personal)
  {
    if ResumeFormValid(form) && PersonalFormValid(personal) then Some(SectionsFor(form.docType)) else None
  }

  /** A POST with an empty title fails with an error instead of showing the form again. */
  lemma EmptyTitleCreateFails(query: Option<string>, personal: PersonalPost)
    ensures CreateRerenderAsWritten(NormalizeDocType(query), BoundFormsets(ResumePost("", "modern", "resume"), personal))
            == ServerError
  {
  }

  /**
   * The create re-render as evidently intended: the form page again, with the
   * section formsets of the submission, and never an error.
   */
  function CreateRerender(docType: string, kinds: seq<SectionKind>): (resp: Response)
    ensures resp != ServerError && resp.FormPage?
    ensures resp.docType == docType && resp.formsets == kinds
    ensures resp.title == FormTitle("Create", docType)
  {
    FormPage(FormTitle("Create", docType), docType, kinds)
  }

  /**
   * The store invariant: every resume has a row record and at most one
   * personal detail; every taken id is below `nextId`; every stored record
   * passed its form, so every stored template name is on the allowlist.
   */
  ghost predicate StoreValid(resumes: map<nat, Resume>, details: map<nat, PersonalDetail>,
                             rows: map<nat, Sections>, nextId: nat) {
    && rows.Keys == resumes.Keys
    && details.Keys <= resumes.Keys
    && (forall id :: id in resumes ==> id < nextId)
    && (forall id :: id in resumes ==> StoredResumeValid(resumes[id]))
    && (forall id :: id in details ==> PersonalFieldsValid(details[id]))
    && (forall id :: id in rows ==> SectionsValid(rows[id]))
  }

  /** Writing one resume with its detail and rows, all valid, keeps the invariant. */
  lemma PutKeepsValid(resumes: map<nat, Resume>, details: map<nat, PersonalDetail>, rows: map<nat, Sections>,
                      nextId: nat, id: nat, r: Resume, pd: PersonalDetail, s: Sections, next: nat)
    requires StoreValid(resumes, details, rows, nextId)
    requires StoredResumeValid(r) && PersonalFieldsValid(pd) && SectionsValid(s)
    requires id < next && nextId <= next
    ensures StoreValid(resumes[id := r], details[id := pd], rows[id := s], next)
  {
  }

  /** The in-memory database: one resume per id, its personal detail if any, and its rows. */
  class Store {
    var resumes: map<nat, Resume>
    var details: map<nat, PersonalDetail>
    var rows: map<nat, Sections>
    var nextId: nat

    ghost predicate Valid()
      reads this
    {
      StoreValid(resumes, details, rows, nextId)
    }

    constructor()
      ensures Valid()
      ensures resumes == map[] && details == map[] && rows == map[] && nextId == 0
    {
      resumes, details, rows, nextId := map[], map[], map[], 0;
    }

    /** `get_object_or_404(Resume, pk=id, user=user)` finds the resume. */
    function Owned(id: nat, user: Username): (ok: bool)
      reads this
      ensures ok <==> id in resumes && resumes[id].user == user
      ensures ok && Valid() ==> id in rows && id < nextId
    {
      id in resumes && resumes[id].user == user
    }

    lemma StoredTemplateAllowed(id: nat)
      requires Valid() && id in resumes
      ensures resumes[id].templateName in TEMPLATE_KEYS
      ensures resumes[id].docType == "resume" || resumes[id].docType == "cv"
    {
      DocTypeTable();
    }

    /** The loop `for fs in formsets.values(): fs.save()`, for the resume `id`. */
    method SaveFormsets(id: nat, kinds: seq<SectionKind>, submitted: Sections)
      requires id in rows
      modifies this
      ensures rows == old(rows)[id := SavedRows(old(rows)[id], kinds, submitted)]
      ensures resumes == old(resumes) && details == old(details) && nextId == old(nextId)
    {
      assert old(rows)[id := SavedRows(old(rows)[id], kinds[..0], submitted)] == old(rows);
      for i := 0 to |kinds|
        invariant rows == old(rows)[id := SavedRows(old(rows)[id], kinds[..i], submitted)]
        invariant resumes == old(resumes) && details == old(details) && nextId == old(nextId)
      {
        rows := rows[id := SaveRows(rows[id], kinds[i], submitted)];
        assert kinds[..i + 1][..i] == kinds[..i];
      }
      assert kinds[..|kinds|] == kinds;
    }

    /**
     * `create_resume` on POST. Once the resume and personal forms pass, the
     * resume (owned by `user`, under a fresh id) and its personal detail are
     * saved at once, before the section formsets are looked at; the rows are
     * saved only when every participating formset passes. Otherwise the form
     * page is shown again, titled from the normalised `type` parameter.
     */
    method CreateResume(user: Username, query: Option<string>, form: ResumePost, personal: PersonalPost,
                        posted: FormsetPost)
      returns (resp: Response)
      requires Valid()
      modifies this
      ensures Valid()
      ensures resp != ServerError
      ensures !(ResumeFormValid(form) && PersonalFormValid(personal)) ==>
                unchanged(this) && resp == CreateRerender(NormalizeDocType(query), SectionsFor(NormalizeDocType(query)))
      ensures ResumeFormValid(form) && PersonalFormValid(personal) ==>
                var id := old(nextId);
                var kinds := SectionsFor(form.docType);
                && id !in old(resumes)
                && nextId == id + 1
                && resumes == old(resumes)[id := Resume(user, form.docType, form.title, form.templateName)]
                && details == old(details)[id := personal.detail]
                && (AllFormsetsValid(posted, kinds) ==>
                      && rows == old(rows)[id := SavedRows(NO_ROWS, kinds, posted.rows)]
                      && resp == Redirect("dashboard", Some(DocTypeDisplay(form.docType) + " created successfully!")))
                && (!AllFormsetsValid(posted, kinds) ==>
                      && rows == old(rows)[id := NO_ROWS]
                      && resp == CreateRerender(NormalizeDocType(query), kinds))
    {
      var docType := NormalizeDocType(query);
      if !(ResumeFormValid(form) && PersonalFormValid(personal)) {
        resp := CreateRerender(docType, SectionsFor(docType));
        return;
      }
      DocTypeAfterValidation(form);
      var resume := Resume(user, form.docType, form.title, form.templateName);
      if resume.docType == "" {
        resume := resume.(docType := docType);
      }
      var id := nextId;
      assert id !in resumes;
      ghost var stored, known, saved := resumes, details, rows;
      nextId := nextId + 1;
      resumes := resumes[id := resume];
      rows := rows[id := NO_ROWS];
      details := details[id := personal.detail];

      var kinds := SectionsFor(resume.docType);
      if AllFormsetsValid(posted, kinds) {
        SaveFormsets(id, kinds, posted.rows);
        assert rows == saved[id := SavedRows(NO_ROWS, kinds, posted.rows)];
        NoRowsValid();
        SavedRowsValid(NO_ROWS, kinds, posted);
        PutKeepsValid(stored, known, saved, id, id, resume, personal.detail, SavedRows(NO_ROWS, kinds, posted.rows),
                      id + 1);
        resp := Redirect("dashboard", Some(DocTypeDisplay(resume.docType) + " created successfully!"));
      } else {
        NoRowsValid();
        PutKeepsValid(stored, known, saved, id, id, resume, personal.detail, NO_ROWS, id + 1);
        resp := CreateRerender(docType, kinds);
      }
    }

    /**
     * `edit_resume` on POST. The formsets follow the STORED doc type. Nothing
     * is saved unless the resume form, the personal form and every
     * participating formset pass; then the resume's fields, its personal
     * detail (created when it had none) and the rows of those formsets are
     * all saved, and the message names the new doc type.
     */
    method EditResume(id: nat, user: Username, form: ResumePost, personal: PersonalPost, posted: FormsetPost)
      returns (resp: Response)
      requires Valid()
      modifies this
      ensures Valid()
      ensures !old(Owned(id, user)) ==> unchanged(this) && resp == NotFound
      ensures old(Owned(id, user)) ==>
                var stored := old(resumes[id]);
                var kinds := SectionsFor(stored.docType);
                if ResumeFormValid(form) && PersonalFormValid(personal) && AllFormsetsValid(posted, kinds) then
                  && resumes == old(resumes)[id := stored.(title := form.title, templateName := form.templateName,
                                                           docType := form.docType)]
                  && details == old(details)[id := personal.detail]
                  && rows == old(rows)[id := SavedRows(old(rows)[id], kinds, posted.rows)]
                  && nextId == old(nextId)
                  && resp == Redirect("dashboard", Some(DocTypeDisplay(form.docType) + " updated successfully!"))
                else
                  unchanged(this) && resp == FormPage(FormTitle("Edit", stored.docType), stored.docType, kinds)
      ensures old(Owned(id, user)) && posted.rows == old(rows[id]) ==> rows == old(rows)
    {
      if !Owned(id, user) {
        return NotFound;
      }
      var resume := resumes[id];
      var docType := resume.docType;
      var kinds := SectionsFor(docType);
      if !(ResumeFormValid(form) && PersonalFormValid(personal) && AllFormsetsValid(posted, kinds)) {
        return FormPage(FormTitle("Edit", docType), docType, kinds);
      }
      resume := resume.(title := form.title, templateName := form.templateName, docType := form.docType);
      ghost var stored, known, saved := resumes, details, rows;
      resumes := resumes[id := resume];
      // An existing personal detail is overwritten; a missing one is created for this resume.
      details := details[id := personal.detail];
      SaveFormsets(id, kinds, posted.rows);
      SavedRowsValid(saved[id], kinds, posted);
      if posted.rows == saved[id] {
        SavedRowsResubmitted(saved[id], kinds);
        assert rows == saved;
      }
      PutKeepsValid(stored, known, saved, nextId, id, resume, personal.detail,
                    SavedRows(saved[id], kinds, posted.rows), nextId);
      resp := Redirect("dashboard", Some(DocTypeDisplay(resume.docType) + " updated successfully!"));
    }

    /** `edit_resume` on GET: every section formset, the title from the stored doc type. */
    function EditPage(id: nat, user: Username): (resp: Response)
      reads this
      ensures !Owned(id, user) ==> resp == NotFound
      ensures Owned(id, user) ==>
                && resp.FormPage? && resp.formsets == ALL_SECTIONS && resp.docType == resumes[id].docType
                && resp.title == FormTitle("Edit", resumes[id].docType)
      ensures Owned(id, user) && Valid() ==>
                resp.title == FormTitle("Edit", "resume") || resp.title == FormTitle("Edit", "cv")
    {
      if !Owned(id, user) then NotFound
      else
        var docType := resumes[id].docType;
        assert Valid() ==> docType == "resume" || docType == "cv" by {
          if Valid() {
            StoredTemplateAllowed(id);
          }
        }
        FormPage(FormTitle("Edit", docType), docType, ALL_SECTIONS)
    }

    /**
     * `view_resume`: the `template` parameter, else the stored template name,
     * passed through the allowlist.
     */
    function ViewResume(id: nat, user: Username, template: Option<string>): (resp: Response)
      reads this
      ensures !Owned(id, user) ==> resp == NotFound
      ensures Owned(id, user) ==> resp.TemplatePage?
      ensures Owned(id, user) && template.Some? && template.value in TEMPLATE_KEYS ==>
                resp.templateFile == TemplateFile(template.value)
      ensures Owned(id, user) && template.Some? && template.value !in TEMPLATE_KEYS ==>
                resp.templateFile == TemplateFile("modern")
      ensures Owned(id, user) && template == None && Valid() ==>
                resp.templateFile == TemplateFile(resumes[id].templateName)
    {
      if !Owned(id, user) then NotFound
      else
        assert Valid() ==> resumes[id].templateName in TEMPLATE_KEYS by {
          if Valid() {
            StoredTemplateAllowed(id);
          }
        }
        TemplatePage(TemplateFile(Resolve(template.GetOr(resumes[id].templateName))))
    }

    /**
     * `export_resume`. The filename needs the personal detail, so a resume
     * without one fails for every format. The txt branch sends the text
     * export; doc and pdf render the stored template directly, without the
     * allowlist (under `Valid` it is on the allowlist anyway); any other
     * format redirects to the dashboard.
     */
    method ExportResume(id: nat, user: Username, query: Option<string>) returns (resp: Response)
      requires Valid()
      ensures !Owned(id, user) ==> resp == NotFound
      ensures Owned(id, user) && id !in details ==> resp == ServerError
      ensures Owned(id, user) && id in details ==>
                var r := resumes[id];
                var format := ExportFormat(query);
                var filename := Filename(details[id].fullName, r.docType, format);
                match Dispatch(format)
                case PlainText => resp == TextAttachment(filename, TextBody(DocumentOf(r, details[id], rows[id])))
                case WordDocument => resp == WordPage(TemplateFile(r.templateName))
                case PdfDocument => resp == PdfAttachment(filename, TemplateFile(r.templateName))
                case NoExport => resp == Redirect("dashboard", None)
      ensures resp.WordPage? || resp.PdfAttachment? ==>
                Owned(id, user) && resp.templateFile == TemplateFile(Resolve(resumes[id].templateName))
    {
      if !Owned(id, user) {
        return NotFound;
      }
      var resume := resumes[id];
      StoredTemplateAllowed(id);
      var format := ExportFormat(query);
      if id !in details {
        return ServerError;
      }
      var pd := details[id];
      var filename := Filename(pd.fullName, resume.docType, format);
      if format == "txt" {
        var content := BuildText(DocumentOf(resume, pd, rows[id]));
        resp := TextAttachment(filename, JoinLines(content));
      } else if format == "doc" {
        resp := WordPage(TemplateFile(resume.templateName));
      } else if format == "pdf" {
        resp := PdfAttachment(filename, TemplateFile(resume.templateName));
      } else {
        resp := Redirect("dashboard", None);
      }
    }
  }

  /** `demo_template_view`: the preview mock through the allowlisted template. */
  function DemoTemplate(templateName: string): (resp: Response)
    ensures resp.PreviewPage? && resp.document == PreviewDocument()
    ensures templateName in TEMPLATE_KEYS ==> resp.templateFile == TemplateFile(templateName)
    ensures templateName !in TEMPLATE_KEYS ==> resp.templateFile == TemplateFile("modern")
  {
    PreviewPage(TemplateFile(Resolve(templateName)), PreviewDocument())
  }
}
