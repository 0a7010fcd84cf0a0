/** Rendering every template of a scheme into a cache directory
    (src/cache/renderer.rs), over the explicit filesystem model. Loading the
    palette goes through ThemeLoader; the template engine itself is a parameter. */
module CacheRenderer {
  import opened Wrappers
  import opened FileSystem
  import opened Errors
  import opened ColorMaps
  import opened Schemes
  import opened Configs
  import opened CachePaths
  import opened ThemeLoader

  /** The template engine: renders a template text against a palette, or fails
      with the engine's message. */
  type Render = (string, ColorMap) -> Result<string, string>

  /** The foreign components a render needs: the theme file parsers and the
      template engine. */
  datatype Engine = Engine(parsers: Parsers, render: Render)

  // ----- `Path::extension` and `Path::file_stem` on a file name -----

  /** Position of the last '.' in `n`, or -1. */
  function LastDot(n: string): (i: int)
    ensures -1 <= i < |n|
    ensures i >= 0 ==> n[i] == '.'
    ensures forall j | i < j < |n| :: n[j] != '.'
  {
    if |n| == 0 then -1
    else if n[|n| - 1] == '.' then |n| - 1
    else LastDot(n[..|n| - 1])
  }

  /** `Path::extension`: the text after the last '.', unless that dot starts
      the name (a hidden file) or the name is "..". */
  function FileExtension(n: string): Option<string> {
    if n == ".." then None
    else
      var i := LastDot(n);
      if i <= 0 then None else Some(n[i + 1..])
  }

  /** `Path::file_stem`: the name without its extension. */
  function FileStem(n: string): string {
    if n == ".." then n
    else
      var i := LastDot(n);
      if i <= 0 then n else n[..i]
  }

  /** The names the renderer treats as templates. */
  predicate IsTemplateName(n: string) {
    |n| > 6 && n[|n| - 6..] == ".vogix"
  }

  /** A name has extension "vogix" exactly when it ends in ".vogix" after at
      least one other character, and then its stem is the name without that
      suffix: "test.toml.vogix" renders to "test.toml", ".vogix" is skipped. */
  lemma VogixExtension(n: string)
    ensures FileExtension(n) == Some("vogix") <==> IsTemplateName(n)
    ensures IsTemplateName(n) ==> FileStem(n) == n[..|n| - 6] && FileStem(n) + ".vogix" == n
  {
    if IsTemplateName(n) {
      var k := |n| - 6;
      assert n[k] == '.';
      forall j | k < j < |n|
        ensures n[j] != '.'
      {
        assert n[j] == n[k..][j - k];
      }
      LastDotIs(n, k);
      assert n[k + 1..] == n[k..][1..] == "vogix";
      assert n == n[..k] + ".vogix";
    }
    if FileExtension(n) == Some("vogix") {
      var i := LastDot(n);
      assert n[i + 1..] == "vogix";
      assert |n| == i + 6;
      assert n[|n| - 6..] == [n[i]] + n[i + 1..];
    }
  }

  /** The last dot is the one no other dot follows. */
  lemma LastDotIs(n: string, k: int)
    requires 0 <= k < |n| && n[k] == '.'
    requires forall j | k < j < |n| :: n[j] != '.'
    ensures LastDot(n) == k
  {
  }

  function Last(p: Path): string
    requires |p| > 0
  {
    p[|p| - 1]
  }

  /** Where the output for templates named `s` + ".vogix" goes. */
  function OutputPath(cachePath: Path, s: string): Path {
    cachePath + [s]
  }

  /** The template whose output is named `s`. */
  function TemplatePath(dir: Path, s: string): Path {
    dir + [s + ".vogix"]
  }

  /** A direct child of `cachePath`: the only paths rendering writes. */
  predicate IsOutputSlot(cachePath: Path, q: Path) {
    |q| == |cachePath| + 1 && IsPrefix(cachePath, q)
  }

  /** `q` is the same in both filesystems. */
  predicate Same(a: Fs, b: Fs, q: Path) {
    (q in a <==> q in b) && (q in a ==> a[q] == b[q])
  }

  /** `render_template` (src/template/render.rs): read the template, then render
      it; an unreadable template is reported as a missing file. */
  function RenderTemplate(fs: Fs, t: Path, colors: ColorMap, render: Render): (r: Result<string, Error>)
    ensures ReadToString(fs, t).None? <==> r == Err(ConfigNotFound(t))
    ensures r.Ok? <==> ReadToString(fs, t).Some? && render(fs[t].content, colors).Ok?
    ensures r.Ok? ==> r.value == render(fs[t].content, colors).value
    ensures r.Err? && ReadToString(fs, t).Some? ==> r == Err(Template(render(fs[t].content, colors).error))
  {
    match ReadToString(fs, t)
    case None => Err(ConfigNotFound(t))
    case Some(content) =>
      match render(content, colors)
      case Ok(s) => Ok(s)
      case Err(m) => Err(Template(m))
  }

  /** `render_template_file`: the output is the template's stem inside
      `cachePath`, and it receives exactly the rendered text. */
  function RenderTemplateFile(fs: Fs, t: Path, cachePath: Path, colors: ColorMap, render: Render): (r: Result<Fs, Error>)
    requires |t| > 0
    ensures RenderTemplate(fs, t, colors, render).Err? ==> r == Err(RenderTemplate(fs, t, colors, render).error)
    ensures RenderTemplate(fs, t, colors, render).Ok? ==>
              var out := OutputPath(cachePath, FileStem(Last(t)));
              r == (match WriteFile(fs, out, RenderTemplate(fs, t, colors, render).value)
                    case None => Err(Io)
                    case Some(f) => Ok(f))
    ensures r.Ok? ==> r.value == fs[OutputPath(cachePath, FileStem(Last(t))) := File(RenderTemplate(fs, t, colors, render).value)]
  {
    var outputPath := OutputPath(cachePath, FileStem(Last(t)));
    var rendered :- RenderTemplate(fs, t, colors, render);
    match WriteFile(fs, outputPath, rendered)
    case None => Err(Io)
    case Some(f) => Ok(f)
  }

  /** The output named `s` holds the rendering of the template `s` + ".vogix"
      found among the entries of `dir` in `before`. */
  predicate Produced(before: Fs, after: Fs, dir: Path, cachePath: Path, s: string, colors: ColorMap, render: Render) {
    var t := TemplatePath(dir, s);
    && t in ChildPaths(before, dir)
    && IsTemplateName(s + ".vogix")
    && RenderTemplate(before, t, colors, render).Ok?
    && OutputPath(cachePath, s) in after
    && after[OutputPath(cachePath, s)] == File(RenderTemplate(before, t, colors, render).value)
  }

  /** Reading a template that is the same in two filesystems gives the same
      rendering. */
  lemma RenderTemplateOnSame(a: Fs, b: Fs, t: Path, colors: ColorMap, render: Render)
    requires Same(a, b, t)
    ensures RenderTemplate(a, t, colors, render) == RenderTemplate(b, t, colors, render)
  {
  }

  /** The directories are those of `fs1`, and nothing outside the output slots
      of `cachePath` changes. */
  ghost predicate Kept(fs1: Fs, cur: Fs, cachePath: Path) {
    && (forall q :: IsDir(fs1, q) <==> IsDir(cur, q))
    && (forall q | !IsOutputSlot(cachePath, q) :: Same(fs1, cur, q))
  }

  /** Every output that differs from before holds a rendering. */
  ghost predicate OutputsProduced(fs1: Fs, cur: Fs, dir: Path, cachePath: Path, colors: ColorMap, render: Render) {
    forall s | !Same(fs1, cur, OutputPath(cachePath, s)) :: Produced(fs1, cur, dir, cachePath, s, colors, render)
  }

  /** Every template among `done` has its output. */
  ghost predicate AllProduced(fs1: Fs, cur: Fs, dir: Path, cachePath: Path, colors: ColorMap, render: Render, done: set<Path>) {
    forall t | t in done && |t| > 0 && IsTemplateName(Last(t)) ::
      Produced(fs1, cur, dir, cachePath, FileStem(Last(t)), colors, render)
  }

  /** One successful template write keeps the frame. */
  lemma WriteKeeps(fs1: Fs, cur: Fs, t: Path, cachePath: Path, colors: ColorMap, render: Render)
    requires |t| > 0
    requires Kept(fs1, cur, cachePath)
    requires RenderTemplateFile(cur, t, cachePath, colors, render).Ok?
    ensures Kept(fs1, RenderTemplateFile(cur, t, cachePath, colors, render).value, cachePath)
  {
    var out := OutputPath(cachePath, FileStem(Last(t)));
    var next := RenderTemplateFile(cur, t, cachePath, colors, render).value;
    assert IsOutputSlot(cachePath, out);
    assert !IsDir(cur, out);
    forall q
      ensures IsDir(fs1, q) <==> IsDir(next, q)
    {
      assert IsDir(fs1, q) <==> IsDir(cur, q);
    }
  }

  /** Every template among `ts` renders and its output can be written, judged
      in the filesystem `fs1` the loop started from. */
  ghost predicate AllRenderable(fs1: Fs, cachePath: Path, colors: ColorMap, render: Render, ts: set<Path>) {
    forall t | t in ts && |t| > 0 && IsTemplateName(Last(t)) ::
      RenderTemplateFile(fs1, t, cachePath, colors, render).Ok?
  }

  /** Some template of `dir` fails with `e` when rendered and written in `fs1`. */
  ghost predicate SomeTemplateFails(fs1: Fs, dir: Path, cachePath: Path, colors: ColorMap, render: Render, e: Error) {
    exists t | t in ChildPaths(fs1, dir) && |t| > 0 && IsTemplateName(Last(t)) ::
      RenderTemplateFile(fs1, t, cachePath, colors, render) == Err(e)
  }

  /** Rendering keeps every template and every directory as it was, so a
      template renders and writes in a later state exactly as it would have in
      `fs1`, failing with the same error. */
  lemma RenderFileAsBefore(fs1: Fs, cur: Fs, dir: Path, t: Path, cachePath: Path, colors: ColorMap, render: Render)
    requires t in ChildPaths(fs1, dir)
    requires cachePath != dir
    requires Kept(fs1, cur, cachePath)
    ensures RenderTemplateFile(cur, t, cachePath, colors, render).Ok?
            <==> RenderTemplateFile(fs1, t, cachePath, colors, render).Ok?
    ensures RenderTemplateFile(cur, t, cachePath, colors, render).Err? ==>
              RenderTemplateFile(cur, t, cachePath, colors, render) == RenderTemplateFile(fs1, t, cachePath, colors, render)
  {
    assert t == dir + [Last(t)];
    assert !IsOutputSlot(cachePath, t);
    RenderTemplateOnSame(fs1, cur, t, colors, render);
    var out := OutputPath(cachePath, FileStem(Last(t)));
    assert out[..|out| - 1] == cachePath;
    assert IsDir(fs1, cachePath) <==> IsDir(cur, cachePath);
    assert IsDir(fs1, out) <==> IsDir(cur, out);
  }

  /** Facts about one successful write of template `t`: it fills the output
      slot named after `t` with the rendering it read from `fs1`, and the other
      slots keep what they held. */
  lemma WriteFacts(fs1: Fs, cur: Fs, dir: Path, t: Path, cachePath: Path, colors: ColorMap, render: Render)
    requires t in ChildPaths(fs1, dir) && IsTemplateName(Last(t))
    requires cachePath != dir
    requires Kept(fs1, cur, cachePath)
    requires RenderTemplateFile(cur, t, cachePath, colors, render).Ok?
    ensures var next := RenderTemplateFile(cur, t, cachePath, colors, render).value;
            && Produced(fs1, next, dir, cachePath, FileStem(Last(t)), colors, render)
            && forall s | s != FileStem(Last(t)) :: Same(cur, next, OutputPath(cachePath, s))
  {
    var stem := FileStem(Last(t));
    var out := OutputPath(cachePath, stem);
    var next := RenderTemplateFile(cur, t, cachePath, colors, render).value;
    VogixExtension(Last(t));
    assert t == dir + [Last(t)];
    assert TemplatePath(dir, stem) == t;
    assert !IsOutputSlot(cachePath, t);
    RenderTemplateOnSame(fs1, cur, t, colors, render);
    forall s | s != stem
      ensures Same(cur, next, OutputPath(cachePath, s))
    {
      assert OutputPath(cachePath, s) != out by {
        assert OutputPath(cachePath, s)[|cachePath|] == s;
      }
    }
  }

  /** One successful write of template `t` records its output and keeps the
      outputs written before. */
  lemma WriteProduces(fs1: Fs, cur: Fs, dir: Path, t: Path, cachePath: Path, colors: ColorMap, render: Render,
                      done: set<Path>)
    requires t in ChildPaths(fs1, dir) && IsTemplateName(Last(t))
    requires cachePath != dir
    requires Kept(fs1, cur, cachePath)
    requires OutputsProduced(fs1, cur, dir, cachePath, colors, render)
    requires AllProduced(fs1, cur, dir, cachePath, colors, render, done)
    requires RenderTemplateFile(cur, t, cachePath, colors, render).Ok?
    ensures var next := RenderTemplateFile(cur, t, cachePath, colors, render).value;
            && OutputsProduced(fs1, next, dir, cachePath, colors, render)
            && AllProduced(fs1, next, dir, cachePath, colors, render, done + {t})
  {
    var stem := FileStem(Last(t));
    var next := RenderTemplateFile(cur, t, cachePath, colors, render).value;
    WriteFacts(fs1, cur, dir, t, cachePath, colors, render);
    forall s | !Same(fs1, next, OutputPath(cachePath, s))
      ensures Produced(fs1, next, dir, cachePath, s, colors, render)
    {
      if s != stem {
        assert Same(cur, next, OutputPath(cachePath, s));
        assert Produced(fs1, cur, dir, cachePath, s, colors, render);
      }
    }
    forall u | u in done + {t} && |u| > 0 && IsTemplateName(Last(u))
      ensures Produced(fs1, next, dir, cachePath, FileStem(Last(u)), colors, render)
    {
      var su := FileStem(Last(u));
      if su != stem {
        assert Same(cur, next, OutputPath(cachePath, su));
        assert Produced(fs1, cur, dir, cachePath, su, colors, render);
      }
    }
  }

  /** An entry that is not a template adds no obligation. */
  lemma SkipKeepsProduced(fs1: Fs, cur: Fs, dir: Path, t: Path, cachePath: Path, colors: ColorMap, render: Render,
                          done: set<Path>)
    requires |t| > 0 && !IsTemplateName(Last(t))
    requires AllProduced(fs1, cur, dir, cachePath, colors, render, done)
    ensures AllProduced(fs1, cur, dir, cachePath, colors, render, done + {t})
  {
  }

  /** The loop of `render_to_cache` over the entries of `dir`, visited in
      whatever order the directory lists them; only entries with extension
      "vogix" are rendered, and the first failure ends the loop with the files
      already written left in place. Whatever the order, the loop succeeds
      exactly when every template renders and can be written, and a failure is
      the error of one of them. */
  method RenderTemplates(fs1: Fs, dir: Path, cachePath: Path, colors: ColorMap, render: Render)
    returns (fs': Fs, r: Result<(), Error>)
    ensures Kept(fs1, fs', cachePath)
    ensures cachePath != dir ==> OutputsProduced(fs1, fs', dir, cachePath, colors, render)
    ensures cachePath != dir && r.Ok? ==> AllProduced(fs1, fs', dir, cachePath, colors, render, ChildPaths(fs1, dir))
    ensures cachePath != dir ==> (r.Ok? <==> AllRenderable(fs1, cachePath, colors, render, ChildPaths(fs1, dir)))
    ensures cachePath != dir && r.Err? ==> SomeTemplateFails(fs1, dir, cachePath, colors, render, r.error)
    ensures r.Err? ==> r.error == Io || r.error.ConfigNotFound? || r.error.Template?
  {
    var entries := ChildPaths(fs1, dir);
    var remaining := entries;
    fs' := fs1;
    r := Ok(());
    while remaining != {}
      invariant remaining <= entries
      invariant r.Ok?
      invariant Kept(fs1, fs', cachePath)
      invariant cachePath != dir ==> OutputsProduced(fs1, fs', dir, cachePath, colors, render)
      invariant cachePath != dir ==> AllProduced(fs1, fs', dir, cachePath, colors, render, entries - remaining)
      invariant cachePath != dir ==> AllRenderable(fs1, cachePath, colors, render, entries - remaining)
      decreases |remaining|
    {
      var t :| t in remaining;
      ghost var done := entries - remaining;
      remaining := remaining - {t};
      assert entries - remaining == done + {t};
      fs', r := RenderEntry(fs1, fs', dir, t, cachePath, colors, render, done);
      if r.Err? {
        return;
      }
    }
  }

  /** One iteration of the loop: render entry `t` when its extension is
      "vogix", skip it otherwise. */
  method RenderEntry(fs1: Fs, cur: Fs, dir: Path, t: Path, cachePath: Path, colors: ColorMap, render: Render,
                     ghost done: set<Path>)
    returns (next: Fs, r: Result<(), Error>)
    requires t in ChildPaths(fs1, dir)
    requires Kept(fs1, cur, cachePath)
    requires cachePath != dir ==> OutputsProduced(fs1, cur, dir, cachePath, colors, render)
    requires cachePath != dir ==> AllProduced(fs1, cur, dir, cachePath, colors, render, done)
    ensures r.Err? ==> next == cur && (r.error == Io || r.error.ConfigNotFound? || r.error.Template?)
    ensures r.Ok? ==> Kept(fs1, next, cachePath)
    ensures r.Ok? && cachePath != dir ==> OutputsProduced(fs1, next, dir, cachePath, colors, render)
    ensures r.Ok? && cachePath != dir ==> AllProduced(fs1, next, dir, cachePath, colors, render, done + {t})
    ensures r.Ok? && cachePath != dir && IsTemplateName(Last(t)) ==>
              RenderTemplateFile(fs1, t, cachePath, colors, render).Ok?
    ensures r.Err? && cachePath != dir ==>
              IsTemplateName(Last(t)) && RenderTemplateFile(fs1, t, cachePath, colors, render) == Err(r.error)
  {
    VogixExtension(Last(t));
    if FileExtension(Last(t)) != Some("vogix") {
      if cachePath != dir {
        SkipKeepsProduced(fs1, cur, dir, t, cachePath, colors, render, done);
      }
      return cur, Ok(());
    }
    var step := RenderTemplateFile(cur, t, cachePath, colors, render);
    if cachePath != dir {
      RenderFileAsBefore(fs1, cur, dir, t, cachePath, colors, render);
    }
    if step.Err? {
      return cur, Err(step.error);
    }
    WriteKeeps(fs1, cur, t, cachePath, colors, render);
    if cachePath != dir {
      WriteProduces(fs1, cur, dir, t, cachePath, colors, render, done);
    }
    return step.value, Ok(());
  }

  /** The directory holding the scheme's templates. */
  function SchemeTemplatesPath(templatesPath: Path, scheme: Scheme): Path {
    templatesPath + [Name(scheme)]
  }

  /** The palette `render_to_cache` renders with, read after the cache
      directory is created. */
  function ColorsFor(fs1: Fs, sources: ThemeSourcesConfig, scheme: Scheme, theme: string, variant: string,
                     parsers: Parsers): Result<ColorMap, Error> {
    LoadThemeColors(fs1, ThemeVariantPath(sources, scheme, theme, variant), scheme, parsers)
  }

  /** What `render_to_cache` has done once the cache directory exists (`fs1`),
      given the palette it loaded and the scheme's templates directory `dir`:
      a palette that fails to load, or a templates directory that is missing
      or a plain file, stops it with nothing more changed; success needs a
      palette and a templates directory; and only the cache directory's direct
      children can change. */
  ghost predicate SetupOutcome(fs1: Fs, fs': Fs, r: Result<(), Error>, cachePath: Path, dir: Path,
                         colors: Result<ColorMap, Error>) {
    && (colors.Err? ==> fs' == fs1 && r == Err(colors.error))
    && (colors.Ok? && dir !in fs1 ==> fs' == fs1 && r == Err(Error.Config(TemplatesDirNotFound(dir))))
    && (colors.Ok? && dir in fs1 && fs1[dir].File? ==> fs' == fs1 && r == Err(Io))
    && (r.Ok? ==> colors.Ok? && IsDir(fs1, dir))
    && (forall q | !IsOutputSlot(cachePath, q) :: Same(fs1, fs', q))
  }

  /** What rendering with palette `colors` has written, when the templates
      directory is not the cache directory itself: every output that changed
      holds the rendering of the template it is named after, and on success
      every template has been rendered. With an existing templates directory,
      the render succeeds exactly when every template renders and can be
      written, and otherwise fails with the error of one of them. */
  ghost predicate RenderOutcome(fs1: Fs, fs': Fs, r: Result<(), Error>, cachePath: Path, dir: Path,
                          colors: ColorMap, render: Render) {
    cachePath != dir ==>
      && OutputsProduced(fs1, fs', dir, cachePath, colors, render)
      && (r.Ok? ==> AllProduced(fs1, fs', dir, cachePath, colors, render, ChildPaths(fs1, dir)))
      && (IsDir(fs1, dir) ==> (r.Ok? <==> AllRenderable(fs1, cachePath, colors, render, ChildPaths(fs1, dir))))
      && (IsDir(fs1, dir) && r.Err? ==> SomeTemplateFails(fs1, dir, cachePath, colors, render, r.error))
  }

  /** Rendering an existing templates directory ends in both outcomes. */
  lemma RenderTemplatesOutcome(fs1: Fs, fs': Fs, r: Result<(), Error>, cachePath: Path, dir: Path,
                               colors: ColorMap, render: Render)
    requires IsDir(fs1, dir)
    requires Kept(fs1, fs', cachePath)
    requires cachePath != dir ==> OutputsProduced(fs1, fs', dir, cachePath, colors, render)
    requires cachePath != dir && r.Ok? ==> AllProduced(fs1, fs', dir, cachePath, colors, render, ChildPaths(fs1, dir))
    requires cachePath != dir ==> (r.Ok? <==> AllRenderable(fs1, cachePath, colors, render, ChildPaths(fs1, dir)))
    requires cachePath != dir && r.Err? ==> SomeTemplateFails(fs1, dir, cachePath, colors, render, r.error)
    ensures SetupOutcome(fs1, fs', r, cachePath, dir, Ok(colors))
    ensures RenderOutcome(fs1, fs', r, cachePath, dir, colors, render)
  {
  }

  /** Once the cache directory exists (`fs1`), `render_to_cache` loads the
      variant's palette and renders the scheme's templates directory with it,
      with the setup and rendering outcomes above. */
  ghost predicate RenderedToCache(fs1: Fs, fs': Fs, r: Result<(), Error>, cachePath: Path, templatesPath: Path,
                                  sources: ThemeSourcesConfig, scheme: Scheme, theme: string, variant: string,
                                  engine: Engine) {
    var colors := ColorsFor(fs1, sources, scheme, theme, variant, engine.parsers);
    var dir := SchemeTemplatesPath(templatesPath, scheme);
    && SetupOutcome(fs1, fs', r, cachePath, dir, colors)
    && (colors.Ok? ==> RenderOutcome(fs1, fs', r, cachePath, dir, colors.value, engine.render))
  }

  /** `render_to_cache`. The cache directory is created first, so it exists
      whatever happens next; a palette that fails to load, or a missing
      templates directory, stops the call before any template is read; only
      direct children of the cache directory are written, each holding the
      rendering of the template it is named after; on success every template
      has been rendered. */
  method RenderToCache(fs: Fs, cachePath: Path, templatesPath: Path, sources: ThemeSourcesConfig,
                       scheme: Scheme, theme: string, variant: string, engine: Engine)
    returns (fs': Fs, r: Result<(), Error>)
    ensures CreateDirAll(fs, cachePath).None? ==> fs' == fs && r == Err(Io)
    ensures CreateDirAll(fs, cachePath).Some? && |cachePath| > 0 ==> IsDir(fs', cachePath)
    ensures CreateDirAll(fs, cachePath).Some? ==>
              RenderedToCache(CreateDirAll(fs, cachePath).value, fs', r, cachePath, templatesPath,
                              sources, scheme, theme, variant, engine)
  {
    var created := CreateDirAll(fs, cachePath);
    if created.None? {
      return fs, Err(Io);
    }
    var colors := ColorsFor(created.value, sources, scheme, theme, variant, engine.parsers);
    fs', r := RenderWithPalette(created.value, cachePath, SchemeTemplatesPath(templatesPath, scheme),
                                colors, engine.render);
  }

  /** The part of `render_to_cache` after the cache directory exists: given the
      palette as loaded, check the templates directory and render every
      template in it. */
  method RenderWithPalette(fs1: Fs, cachePath: Path, dir: Path, colors: Result<ColorMap, Error>, render: Render)
    returns (fs': Fs, r: Result<(), Error>)
    ensures Kept(fs1, fs', cachePath)
    ensures SetupOutcome(fs1, fs', r, cachePath, dir, colors)
    ensures colors.Ok? ==> RenderOutcome(fs1, fs', r, cachePath, dir, colors.value, render)
  {
    if colors.Err? {
      return fs1, Err(colors.error);
    }
    if dir !in fs1 {
      return fs1, Err(Error.Config(TemplatesDirNotFound(dir)));
    }
    if fs1[dir].File? {
      return fs1, Err(Io);
    }
    fs', r := RenderTemplates(fs1, dir, cachePath, colors.value, render);
    RenderTemplatesOutcome(fs1, fs', r, cachePath, dir, colors.value, render);
  }
}
