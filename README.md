# Resume builder core, modelled in Dafny

This project models the core of a Django resume/CV builder. Each user owns
documents of type `resume` or `cv`. A document has a title, a template name
from a fixed allowlist of 41 templates, one personal detail, and rows in six
section kinds:

- education, experience and skills, which every document edits;
- research, publications and awards, which only a CV edits.

The model covers these parts of the system:

- **Models** (`models.dfy`): the `TEMPLATE_CHOICES` and `DOC_TYPE_CHOICES`
  tables, the field defaults, the record shapes with their optional dates,
  the `__str__` formats and `get_doc_type_display`.
- **Text** (`text.dfy`): the Python string operations the handlers use.
  These are `'\n'.join`, `replace(' ', '_')`, ASCII `upper()`, and `str()` of
  an integer, which reads back exactly.
- **Registry** (`registry.dfy`): normalising the `type` query parameter,
  choosing which section formsets take part, and what saving those formsets
  does to the stored rows.
- **TemplateResolver** (`resolver.dfy`): the allowlist check that protects
  template lookups from path traversal.
- **Forms** (`forms.dfy`): when the model forms accept a submission. This
  follows the model field declarations: required fields, `max_length` and
  `choices`.
- **TextExport** (`text_export.dfy`): the plain-text serializer of
  `export_resume`. It is a method that builds the line list loop by loop,
  proved equal to a specification function; lemmas then prove the layout of
  that function.
- **Export** (`export.dfy`): the download filename and the format dispatch.
- **Preview** (`preview.dfy`): the mock CV that `demo_template_view` renders.
- **Views** (`views.dfy`): the handlers, over a `Store` class holding the
  database as maps keyed by resume id. Creating and editing are methods that
  change the store; viewing and exporting read it.

The store invariant `Views.StoreValid` says that:

- every resume has a rows record and at most one personal detail;
- every taken id is below `nextId`;
- every stored record satisfies its form.

Every state-changing handler preserves this invariant. The model assumes
that these handlers are the only writers of the store: the Django admin and
direct ORM writes are outside it. Under that assumption, the doc and pdf
exports, which skip the allowlist, still render an allowlisted template.

Two behaviours of the code the model keeps:

- **Edit message.** The edit success message uses the doc type just
  submitted. Formset selection and the re-rendered title use the stored doc
  type (core/views.py:101, 116, 137).
- **Create on invalid forms.** As written, a rejected create submission
  cannot re-render the form: the request fails. `Views.CreateRerenderAsWritten`
  and `Views.EmptyTitleCreateFails` model that failure. `Views.Store.CreateResume`
  uses the corrected re-render `Views.CreateRerender` instead (see Findings).

## Model

| member | source | states |
|---|---|---|
| `Models.Lookup` | core/models.py:51-54 | a key that is not in the table comes back unchanged, and otherwise the first entry with the key gives its label |
| `Models.DocTypeDisplay` | core/models.py:51-54 | "resume" is labelled "Resume" and "cv" is labelled "CV"; any other value is shown unchanged |
| `Models.NewResume` | core/models.py:55-58 | a new resume has doc type "resume", title "My Document" and template "modern", and belongs to its user |
| `Models.NewEducation` | core/models.py:81-86 | a new education row is not current, has no end date and has an empty description |
| `Models.NewExperience` | core/models.py:93-98 | a new experience row is not current, has no end date and has an empty description |
| `Models.NewSkill` | core/models.py:105-106 | a new skill has proficiency 50 |
| `Models.ResumeStr` | core/models.py:62-63 | a resume prints as its username, " - ", its title, then its doc-type label in parentheses |
| `Models.EducationStr` | core/models.py:88-89 | an education row prints as "<degree> at <institution>" |
| `Models.ExperienceStr` | core/models.py:100-101 | an experience row prints as "<position> at <company>" |
| `Models.TemplateTable` | core/models.py:5-50 | the allowlist has 41 keys, starts with "modern", and contains the default template |
| `Models.PositionsOfTemplateKeys` | core/models.py:5-50 | `Position` decodes each key back to its own index |
| `Models.TemplateKeysDistinct` | core/models.py:5-50 | no template key appears twice |
| `Models.DocTypeTable` | core/models.py:51-56 | the doc-type keys are exactly "resume" and "cv", with labels "Resume" and "CV"; the default "resume" is one of them |
| `Text.JoinLines` | core/views.py:305 | a join starts with its first line; a newline follows that line when there are more lines; a single line is joined to itself |
| `Text.JoinPrefix` | core/views.py:305 | joining a list starts with the join of any proper prefix of it, followed by a newline |
| `Text.ReplaceSpaces` | core/views.py:258 | every space becomes an underscore, every other character stays in place, and no space is left |
| `Text.Upper` | core/views.py:89 | the length is kept, and each character becomes its `UpperChar` at the same position |
| `Text.UpperChar` | core/views.py:89 | a lower-case ASCII letter becomes its capital, 32 code points lower; every other character is kept |
| `Text.UpperLeavesNoLowercase` | core/views.py:89 | no lower-case ASCII letter is left, and every character that changed was a lower-case letter |
| `Text.UpperCv` | core/views.py:89 | "cv" upper-cases to "CV" |
| `Text.UpperResume` | core/views.py:155 | "resume" upper-cases to "RESUME" |
| `Text.NatToString` | core/views.py:287 | a natural number prints as decimal digits with no leading zero |
| `Text.IntToString` | core/views.py:287 | an integer prints starting with a digit exactly when it is not negative |
| `Text.NatRoundTrip` | core/views.py:287 | the printed digits of a natural number parse back to that number |
| `Text.IntRoundTrip` | core/views.py:287 | a printed integer is a sign and digits, and it parses back to the same integer |
| `Registry.NormalizeDocType` | core/views.py:36-38 | the doc type is "resume" or "cv"; it is "cv" exactly when the query is "cv", and missing or unknown values give "resume" |
| `Registry.SectionsFor` | core/views.py:56-66 | education, experience and skill come first and always take part; research, publication and award take part exactly when the doc type is "cv"; no kind appears twice (edit selects the same way, lines 111-121) |
| `Registry.SaveRows` | core/views.py:69-70 | saving one formset replaces that kind's rows with the submitted ones and keeps every other kind |
| `Registry.SavedRows` | core/views.py:134-135 | saving a list of formsets replaces exactly the listed kinds and keeps the rest |
| `Registry.SavedRowsAll` | core/views.py:116-121 | saving all six formsets stores exactly the submitted rows |
| `Registry.SavedRowsResubmitted` | core/views.py:134-135 | saving the stored rows again, over any kinds, leaves the rows unchanged |
| `Registry.NonCvSaveKeepsCvRows` | core/views.py:111-116 | saving a non-CV document never changes its research, publication or award rows |
| `TemplateResolver.Resolve` | core/views.py:171-173 | the result is always on the allowlist; an allowlisted name is kept, and any other name becomes "modern" (the same check as lines 190-192) |
| `TemplateResolver.ResolveIdempotent` | core/views.py:190-192 | resolving twice gives the same name as resolving once |
| `TemplateResolver.TemplateFile` | core/views.py:176 | the template file is the name followed by ".html" |
| `TemplateResolver.TemplateFileInjective` | core/views.py:176 | two requests render the same file exactly when they resolve to the same name |
| `Forms.ResumeFormValid` | core/models.py:56-58 | the form passes exactly when the title is non-empty, at most 100 characters and free of NUL characters, the template is on the allowlist, and the doc type is "resume" or "cv" |
| `Forms.PersonalFormValid` | core/models.py:68-73 | the form passes exactly when the e-mail and URL formats pass, a full name (at most 200), an e-mail (at most 254) and a phone (at most 20) are given, and the address and both URLs stay within 255, 200 and 200 characters |
| `Forms.EducationValid` | core/models.py:81-86 | a row passes exactly when the institution and degree are non-empty and at most 200 characters and a start date is given |
| `Forms.ExperienceValid` | core/models.py:93-98 | a row passes exactly when the company and position are non-empty and at most 200 characters and a start date is given |
| `Forms.SkillValid` | core/models.py:105-106 | a skill passes exactly when its name is non-empty and at most 100 characters and its proficiency is within the 32-bit integer range |
| `Forms.ResearchValid` | core/models.py:113-115 | a research row passes exactly when its title is non-empty and at most 255 characters |
| `Forms.PublicationValid` | core/models.py:125-128 | a publication passes exactly when its title is non-empty and at most 255 characters, its publisher at most 255 and its URL at most 200 |
| `Forms.AwardValid` | core/models.py:135-137 | an award passes exactly when its title and issuer are non-empty and at most 200 characters |
| `Forms.FormsetValid` | core/views.py:68 | a formset passes exactly when its submission is accepted and every row of its kind passes; with no rows it passes exactly when accepted |
| `Forms.AllFormsetsValid` | core/views.py:123-124 | the formsets pass exactly when every listed kind's formset passes; an empty list passes |
| `Forms.DocTypeAfterValidation` | core/views.py:48-49 | a valid resume form always has the doc type "resume" or "cv", so the empty doc-type fallback never fires |
| `Forms.DefaultsPassResumeForm` | core/models.py:56-58 | a resume left at its defaults passes its form |
| `Forms.SavedRowsValid` | core/views.py:123-135 | saving formsets that all passed over valid rows leaves only valid rows |
| `TextExport.TextLines` | core/views.py:262-303 | the text opens with the personal lines, and it is only those lines exactly when no section has rows |
| `TextExport.TextBody` | core/views.py:305 | the downloaded text starts with the name line and a newline |
| `TextExport.OptText` | core/views.py:275 | a missing date prints as "None", and a set one as itself |
| `TextExport.DatedLine` | core/views.py:275 | a dated row line is "- ", the text, " (" and the start, followed by " - ", the end and ")" |
| `TextExport.EducationHead` | core/views.py:275 | an education line is "- ", the row's `__str__`, " (" and the start date, followed by " - ", "Present" or the end date, and ")" |
| `TextExport.ExperienceHead` | core/views.py:281 | the same as `EducationHead`, for experience rows |
| `TextExport.SkillLine` | core/views.py:287 | a skill line is "- ", the name, " (", the printed proficiency and "%)" |
| `TextExport.ResearchLine` | core/views.py:293 | a research line is "- ", the title, " (", the date (or "None") and "): ", then the description |
| `TextExport.PublicationLine` | core/views.py:298 | a publication line is "- ", the title, " (", the publisher and ", ", then the date (or "None") and ")" |
| `TextExport.AwardLine` | core/views.py:303 | an award line is "- ", the title, " (", the issuer and ", ", then the date (or "None") and ")" |
| `TextExport.BuildText` | core/views.py:262-303 | the lines the loops append are exactly the specification `TextLines` |
| `TextExport.PersonalBlock` | core/views.py:263-270 | appends name, email, phone and address, then the LinkedIn and portfolio lines only when set, then the summary block |
| `TextExport.AppendEducation` | core/views.py:272-276 | appends nothing for no rows; otherwise appends the header, then each row line and its description line if non-empty |
| `TextExport.AppendExperience` | core/views.py:278-282 | the same as `AppendEducation`, for experience rows |
| `TextExport.AppendRows` | core/views.py:284-303 | appends nothing for no rows; otherwise appends the header, then each row's lines in stored order |
| `TextExport.HeadersInOrder` | core/views.py:272-303 | the section headers appear in the fixed order education, experience, skills, research, publications, awards, one for each section that has rows |
| `TextExport.HeaderPresentIff` | core/views.py:272-303 | a section's header is in the text exactly when the section has rows, whatever the doc type |
| `TextExport.RowsInStoredOrder` | core/views.py:272-303 | the text has one line per row: all education rows, then experience, skills, research, publications and awards, each section in stored order |
| `TextExport.SectionsAfterPersonal` | core/views.py:270-303 | every line after the personal block is a section header, a row line or a description line |
| `TextExport.PersonalLineStarts` | core/views.py:264-270 | no personal line looks like a header, a row or a description; a LinkedIn line shows a set LinkedIn URL, at index 4 |
| `TextExport.OpensWithPersonalBlock` | core/views.py:264-270 | the text opens with the name, email, phone and address lines; the summary follows; a LinkedIn or portfolio line appears anywhere exactly when that field is set |
| `TextExport.EducationRow` | core/views.py:275 | a row starts with "- ", the row's `__str__` and its start date; a current row ends with "Present" whatever end date it has, and any other row ends with its end date (or "None") |
| `TextExport.EducationDescriptionLine` | core/views.py:275-276 | the row line comes first, and the indented description line follows exactly when the description is non-empty |
| `TextExport.ExperienceRow` | core/views.py:281 | the same as `EducationRow`, for experience rows |
| `TextExport.ExperienceDescriptionLine` | core/views.py:281-282 | the same as `EducationDescriptionLine`, for experience rows |
| `TextExport.SkillProficiencyReadBack` | core/views.py:287 | a skill line starts with "- ", the name and " (", ends with "%)", and the digits between the name and "%)" parse back to the stored proficiency |
| `TextExport.ContactLines` | core/views.py:264-267 | the first four lines are the name, email, phone and address lines |
| `TextExport.TextBodyStartsWithContact` | core/views.py:305 | the downloaded text starts with the four contact lines, each followed by a newline |
| `Export.ExportFormat` | core/views.py:257 | the format is the query value, or "txt" when it is missing |
| `Export.Filename` | core/views.py:258 | the filename is the full name with every space made an underscore, then "_", the doc-type label, "." and the format exactly as requested |
| `Export.Dispatch` | core/views.py:260-340 | "txt", "doc" and "pdf" each select their own branch, and every other format falls through |
| `Export.DefaultIsPlainText` | core/views.py:257-260 | with no format given, the export is plain text |
| `Export.SpacesAndUnderscoresCollide` | core/views.py:258 | names that differ only by spaces and underscores get the same filename |
| `Preview.PreviewDocument` | core/views.py:236-246 | the mock is a CV labelled "CV", the real label of "cv"; all six sections have rows, and all six would take part in a form |
| `Preview.PreviewRows` | core/views.py:205-221 | every mock proficiency is between 0 and 100; the first experience is the only current row |
| `Views.FormTitle` | core/views.py:89 | the title is the verb, a space, then the upper-cased doc type |
| `Views.DocTypeTitles` | core/views.py:89 | for either verb, the page is titled with "CV" or "RESUME" after it: "Create CV", "Create RESUME", and "Edit CV" or "Edit RESUME" for the edit page (line 155) |
| `Views.CreatePage` | core/views.py:73-96 | the create page shows all six formsets; its title and doc type are the CV ones exactly when the query asks for "cv" |
| `Views.BoundFormsets` | core/views.py:44-56 | create binds its formsets exactly when the resume form and the personal form both pass |
| `Views.CreateRerenderAsWritten` | core/views.py:85-92 | the create re-render fails exactly when the formsets were never bound |
| `Views.EmptyTitleCreateFails` | core/views.py:91-92 | a create submission with an empty title makes the request fail instead of showing the form again |
| `Views.CreateRerender` | core/views.py:85-96 | the corrected re-render always shows the form page again, with the given doc type, title and formsets |
| `Views.PutKeepsValid` | core/views.py:45-54 | storing one resume whose detail and rows are all valid keeps the store invariant |
| `Views.Store.Owned` | core/views.py:100 | a resume is reachable exactly when it is stored under that id and belongs to the requesting user; in a valid store it then has rows and an id below `nextId` (the same lookup as lines 167 and 256) |
| `Views.Store.StoredTemplateAllowed` | core/models.py:56-58 | a stored resume has an allowlisted template and a doc type of "resume" or "cv" |
| `Views.Store.SaveFormsets` | core/views.py:69-70 | the save loop leaves the resume's rows equal to `SavedRows` over the participating kinds, and touches nothing else |
| `Views.Store.CreateResume` | core/views.py:40-72 | see the create item below the table |
| `Views.Store.EditResume` | core/views.py:107-138 | see the edit item below the table |
| `Views.Store.EditPage` | core/views.py:139-162 | see the edit page item below the table |
| `Views.Store.ViewResume` | core/views.py:166-176 | see the view item below the table |
| `Views.Store.ExportResume` | core/views.py:255-340 | see the export item below the table |
| `Views.DemoTemplate` | core/views.py:183-252 | the preview always renders the mock CV, through the requested template if it is allowlisted and through "modern" otherwise |

What the handler contracts state:

- **`Views.Store.CreateResume`** keeps the store invariant.
  - If the resume or personal form is rejected, nothing is stored.
  - Otherwise the resume (owned by the user, under a fresh id) and its
    personal detail are stored before the formsets are checked.
  - Rows are saved only when every participating formset passes; the handler
    then redirects to the dashboard with "<label> created successfully!".
  - Otherwise the resume's rows stay empty and the form is shown again.
  - The request never fails.
- **`Views.Store.EditResume`** keeps the store invariant.
  - Another user's resume gives "not found", and nothing changes.
  - The formsets follow the stored doc type.
  - If any form or participating formset is rejected, nothing changes, and
    the form is shown again, titled from the stored doc type.
  - Otherwise the fields, the personal detail (created if missing) and the
    participating rows are all saved, and the message uses the new label.
  - Submitting the stored rows unchanged leaves every stored row as it was.
- **`Views.Store.EditPage`**: another user's resume gives "not found".
  Otherwise the page shows all six formsets with the stored doc type, titled
  "Edit RESUME" or "Edit CV".
- **`Views.Store.ViewResume`**: another user's resume gives "not found".
  Otherwise the `template` query is rendered if it is allowlisted, "modern"
  if it is not, and without a query the stored template, which is
  allowlisted.
- **`Views.Store.ExportResume`**:
  - another user's resume gives "not found";
  - a missing personal detail fails for every format;
  - txt sends `TextBody` under `Filename`;
  - doc and pdf render the stored template, which equals its resolved name;
  - any other format redirects to the dashboard.

## Left out

- Django rendering, `HttpResponse` headers and content types, including the doc branch's `application/msword` relabel. These are framework I/O. A response is one constructor naming the page, file or redirect.
- HTML rendering of the templates. A page is represented only by its template file name.
- PDF generation through WeasyPrint (core/views.py:328-337). It is a foreign library, so the pdf branch is the attachment name plus the template file.
- `home`, `register` and `dashboard`, the `login_required` decorators, and `template_gallery`. These are authentication, registration, an ORM query ordered by timestamps, and a static listing.
- The image upload on `PersonalDetail` and the `created_at`/`updated_at` timestamps.
- Dates are opaque strings, and `None` prints as "None". Calendar semantics and the `YYYY-MM-DD` formatting are not modelled.
- Form internals: field widgets, the formsets' management forms and `extra` counts, deletion checkboxes, the syntax of e-mail addresses, URLs and dates, and the NUL-character check on the personal and row text fields.
  - The model abstracts these as one flag per post: `PersonalPost.formatOk`, and `FormsetPost.accepted` for the formsets.
  - Validity by the model field declarations (required, `max_length`, `choices`, the integer range of `proficiency`) is modelled, and so is the NUL-character check on the resume title.
  - Whitespace stripping of submitted text is not modelled.
- `Forms.SkillValid`: the proficiency range is Django's default 32-bit `IntegerField` range. The database settings are not part of this model, and a backend with another integer range would move these bounds.
- The `__str__` methods that return a single field (core/models.py:77, 109, 121, 131, 140). Each one is the identity on that field.
- `Text.Upper`: only ASCII letters are upper-cased, unlike Python's Unicode `upper()`, because the doc types it is applied to are ASCII.
- URL routing (core/urls.py) is not part of this model.
- Concurrent requests. Each handler is one atomic step on the store.
- A database failure while saving. Each `save()` succeeds.

## Findings

| source | as written | input that shows it | evidently intended | confidence | as-written member | corrected member |
|---|---|---|---|---|---|---|
| core/views.py:91-92 | `create_resume` binds `formsets` only after both forms pass (line 56), but a POST always reads it when building the context (line 92). A rejected resume or personal form therefore raises `UnboundLocalError` | a POST to create whose resume form has an empty title (template "modern", doc type "resume") | show the form again with its errors and the doc type's section formsets, as the formset-failure path already does | high, not executed | `Views.CreateRerenderAsWritten` with `Views.EmptyTitleCreateFails` | `Views.CreateRerender`, which `Views.Store.CreateResume` uses |
