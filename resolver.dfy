/**
 * The template-name allowlist check of `view_resume` and `demo_template_view`
 * (core/views.py): a requested name is kept when it is a key of
 * `Resume.TEMPLATE_CHOICES`, otherwise it becomes `'modern'`.
 */
module TemplateResolver {
  import opened Models

  function Resolve(requested: string): (name: string)
    ensures name in TEMPLATE_KEYS
    ensures requested in TEMPLATE_KEYS ==> name == requested
    ensures requested !in TEMPLATE_KEYS ==> name == "modern"
  {
    assert TEMPLATE_KEYS[0] == "modern";
    if requested !in TEMPLATE_KEYS then "modern" else requested
  }

  /** Resolving twice is resolving once. */
  lemma ResolveIdempotent(requested: string)
    ensures Resolve(Resolve(requested)) == Resolve(requested)
  {
  }

  /** The file a render call looks up: `f'{template_name}.html'`. */
  function TemplateFile(name: string): (file: string)
    ensures |file| == |name| + 5 && file[..|name|] == name && file[|name|..] == ".html"
  {
    name + ".html"
  }

  /**
   * Two requests get the same template file exactly when they resolve to the
   * same name: no two allowlisted names share a file.
   */
  lemma TemplateFileInjective(a: string, b: string)
    ensures TemplateFile(Resolve(a)) == TemplateFile(Resolve(b)) <==> Resolve(a) == Resolve(b)
  {
    var fa, fb := TemplateFile(Resolve(a)), TemplateFile(Resolve(b));
    if fa == fb {
      assert |Resolve(a)| == |Resolve(b)|;
      assert Resolve(a) == fa[..|Resolve(a)|] == fb[..|Resolve(b)|] == Resolve(b);
    }
  }
}
