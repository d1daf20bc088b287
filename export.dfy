/**
 * The parts of `export_resume` (core/views.py) that do not depend on the
 * store: the requested format, the download filename, and which branch a
 * format takes.
 */
module Export {
  import opened Wrappers
  import opened Models
  import opened Text

  /** `request.GET.get('format', 'txt')`. */
  function ExportFormat(query: Option<string>): (format: string)
    ensures query == None ==> format == "txt"
    ensures query.Some? ==> format == query.value
  {
    query.GetOr("txt")
  }

  /**
   * The download filename: the full name with every space turned into an
   * underscore, `_`, the doc-type label, `.`, and the format exactly as
   * requested.
   */
  function Filename(fullName: string, docType: string, format: string): (name: string)
    ensures var display := DocTypeDisplay(docType);
            var n := |fullName|;
            |name| == n + |display| + |format| + 2
            && ' ' !in name[..n]
            && (forall i :: 0 <= i < n ==> name[i] == (if fullName[i] == ' ' then '_' else fullName[i]))
            && name[n] == '_'
            && name[n + 1..n + 1 + |display|] == display
            && name[n + 1 + |display|] == '.'
            && name[n + 2 + |display|..] == format
  {
    var stem := ReplaceSpaces(fullName);
    var display := DocTypeDisplay(docType);
    var name := stem + "_" + display + "." + format;
    assert name[..|fullName|] == stem;
    assert name[|fullName| + 1..|fullName| + 1 + |display|] == display;
    assert name[|fullName| + 2 + |display|..] == format;
    name
  }

  /** Which branch of the handler a format takes. */
  datatype ExportKind = PlainText | WordDocument | PdfDocument | NoExport

  function Dispatch(format: string): (kind: ExportKind)
    ensures kind == PlainText <==> format == "txt"
    ensures kind == WordDocument <==> format == "doc"
    ensures kind == PdfDocument <==> format == "pdf"
    ensures kind == NoExport <==> format !in ["txt", "doc", "pdf"]
  {
    if format == "txt" then PlainText
    else if format == "doc" then WordDocument
    else if format == "pdf" then PdfDocument
    else NoExport
  }

  /** Without a format, the export is plain text. */
  lemma DefaultIsPlainText()
    ensures Dispatch(ExportFormat(None)) == PlainText
  {
  }

  /** Names that differ only by spaces and underscores get the same file name. */
  lemma SpacesAndUnderscoresCollide(a: string, b: string, docType: string, format: string)
    requires |a| == |b|
    requires forall i :: 0 <= i < |a| ==> a[i] == b[i] || (a[i] in " _" && b[i] in " _")
    ensures Filename(a, docType, format) == Filename(b, docType, format)
  {
    var fa, fb := Filename(a, docType, format), Filename(b, docType, format);
    assert |fa| == |fb|;
    forall i | 0 <= i < |fa|
      ensures fa[i] == fb[i]
    {
      var n, display := |a|, DocTypeDisplay(docType);
      if i < n {
      } else if i == n {
      } else if i < n + 1 + |display| {
        assert fa[i] == fa[n + 1..n + 1 + |display|][i - n - 1];
        assert fb[i] == fb[n + 1..n + 1 + |display|][i - n - 1];
      } else if i == n + 1 + |display| {
      } else {
        assert fa[i] == fa[n + 2 + |display|..][i - n - 2 - |display|];
        assert fb[i] == fb[n + 2 + |display|..][i - n - 2 - |display|];
      }
    }
  }
}
