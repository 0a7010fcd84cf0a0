/** The rendered-configuration cache (`ThemeCache` in src/cache/mod.rs): cache
    keys, the cache-through render, and the removal of directories left by
    older template sets. */
module ThemeCaches {
  import opened Wrappers
  import opened FileSystem
  import opened Errors
  import opened Schemes
  import opened Configs
  import opened CachePaths
  import opened CacheRenderer

  datatype ThemeCache = ThemeCache(cacheDir: Path, templates: TemplatesConfig, themeSources: ThemeSourcesConfig)

  /** `from_config_with_cache_dir`: both the templates and the theme sources
      must be configured. */
  function FromConfigWithCacheDir(config: Config, cacheDir: Path): (r: Result<ThemeCache, Error>)
    ensures r.Ok? <==> config.templates.Some? && config.themeSources.Some?
    ensures config.templates.None? ==> r == Err(Error.Config(NoTemplatesConfig))
    ensures config.templates.Some? && config.themeSources.None? ==> r == Err(Error.Config(NoThemeSourcesConfig))
    ensures r.Ok? ==> r.value.cacheDir == cacheDir
                      && Some(r.value.templates) == config.templates
                      && Some(r.value.themeSources) == config.themeSources
  {
    var templates :- if config.templates.Some? then Ok(config.templates.value)
                     else Err(Error.Config(NoTemplatesConfig));
    var themeSources :- if config.themeSources.Some? then Ok(config.themeSources.value)
                        else Err(Error.Config(NoThemeSourcesConfig));
    Ok(ThemeCache(cacheDir, templates, themeSources))
  }

  /** `ThemeCache::variant_cache_path`: the key's directory below the directory
      of the current templates hash. */
  function CachePathOf(c: ThemeCache, scheme: Scheme, theme: string, variant: string): (r: Path)
    ensures |r| == |c.cacheDir| + 4 && IsPrefix(c.cacheDir + [c.templates.hash], r)
    ensures r[|c.cacheDir| + 1..] == [Name(scheme), theme, variant]
  {
    VariantCachePath(c.cacheDir, c.templates.hash, scheme, theme, variant)
  }

  /** `is_cached`: the key's cache path exists and is a directory. */
  predicate IsCached(fs: Fs, c: ThemeCache, scheme: Scheme, theme: string, variant: string): (r: bool)
    ensures r <==> CachePathOf(c, scheme, theme, variant) in fs && fs[CachePathOf(c, scheme, theme, variant)].Dir?
  {
    IsDir(fs, CachePathOf(c, scheme, theme, variant))
  }

  /** Rendering one key leaves every other key of the same cache as cached as
      it was: the two cache paths have the same length, so neither is an
      ancestor or an output slot of the other. */
  lemma OtherKeysStayCached(fs: Fs, fs': Fs, c: ThemeCache, scheme: Scheme, theme: string, variant: string,
                            scheme2: Scheme, theme2: string, variant2: string)
    requires forall q | q !in Ancestors(CachePathOf(c, scheme, theme, variant))
                        && !IsOutputSlot(CachePathOf(c, scheme, theme, variant), q) :: Same(fs, fs', q)
    requires (scheme2, theme2, variant2) != (scheme, theme, variant)
    ensures IsCached(fs', c, scheme2, theme2, variant2) <==> IsCached(fs, c, scheme2, theme2, variant2)
  {
    var p := CachePathOf(c, scheme, theme, variant);
    var p2 := CachePathOf(c, scheme2, theme2, variant2);
    if p2 == p {
      VariantCachePathInjective(c.cacheDir, c.templates.hash, scheme, theme, variant,
                                c.templates.hash, scheme2, theme2, variant2);
      assert false;
    }
    assert forall i | 1 <= i <= |p| :: p[..i] != p2;
    assert Same(fs, fs', p2);
  }

  /** `clean_stale` never evicts a key of the current templates hash: a key
      cached before the clean is cached after it. */
  lemma CleanKeepsCached(fs: Fs, fs': Fs, c: ThemeCache, scheme: Scheme, theme: string, variant: string)
    requires IsDir(fs, c.cacheDir)
    requires forall q :: q in fs' <==> q in fs && !Under(c.cacheDir, Stale(fs, c), q)
    requires forall q | q in fs' :: q in fs && fs'[q] == fs[q]
    requires IsCached(fs, c, scheme, theme, variant)
    ensures IsCached(fs', c, scheme, theme, variant)
  {
    var p := CachePathOf(c, scheme, theme, variant);
    assert p[..|c.cacheDir| + 1] == c.cacheDir + [c.templates.hash];
    assert !Under(c.cacheDir, Stale(fs, c), p);
  }

  /** `render_variant`. A hit returns the cache path without touching the
      filesystem. A miss renders into that path; on success the key is cached
      afterwards. Because the directory is created before anything can fail, a
      miss whose directory creation succeeds leaves the key reported as cached
      even when the render then fails, and the next call is a hit. Only the
      cache path, its ancestors and its direct children can change. */
  method RenderVariant(fs: Fs, c: ThemeCache, scheme: Scheme, theme: string, variant: string, engine: Engine)
    returns (fs': Fs, r: Result<Path, Error>)
    ensures IsCached(fs, c, scheme, theme, variant) ==> fs' == fs && r == Ok(CachePathOf(c, scheme, theme, variant))
    ensures r.Ok? ==> r.value == CachePathOf(c, scheme, theme, variant) && IsCached(fs', c, scheme, theme, variant)
    ensures !IsCached(fs, c, scheme, theme, variant) && CreateDirAll(fs, CachePathOf(c, scheme, theme, variant)).None? ==>
              fs' == fs && r == Err(Io)
    ensures CreateDirAll(fs, CachePathOf(c, scheme, theme, variant)).Some? ==> IsCached(fs', c, scheme, theme, variant)
    ensures forall q | q !in Ancestors(CachePathOf(c, scheme, theme, variant))
                       && !IsOutputSlot(CachePathOf(c, scheme, theme, variant), q) :: Same(fs, fs', q)
    ensures !IsCached(fs, c, scheme, theme, variant) && CreateDirAll(fs, CachePathOf(c, scheme, theme, variant)).Some? ==>
              MissRendered(fs, fs', r, c, scheme, theme, variant, engine)
  {
    if IsCached(fs, c, scheme, theme, variant) {
      return fs, Ok(CachePathOf(c, scheme, theme, variant));
    }
    fs', r := RenderMiss(fs, c, scheme, theme, variant, engine);
  }

  /** The miss branch of `render_variant`: render into the cache path and
      return it, or pass the render's error on. */
  method RenderMiss(fs: Fs, c: ThemeCache, scheme: Scheme, theme: string, variant: string, engine: Engine)
    returns (fs': Fs, r: Result<Path, Error>)
    ensures r.Ok? ==> r.value == CachePathOf(c, scheme, theme, variant)
    ensures CreateDirAll(fs, CachePathOf(c, scheme, theme, variant)).None? ==> fs' == fs && r == Err(Io)
    ensures CreateDirAll(fs, CachePathOf(c, scheme, theme, variant)).Some? ==> IsCached(fs', c, scheme, theme, variant)
    ensures forall q | q !in Ancestors(CachePathOf(c, scheme, theme, variant))
                       && !IsOutputSlot(CachePathOf(c, scheme, theme, variant), q) :: Same(fs, fs', q)
    ensures CreateDirAll(fs, CachePathOf(c, scheme, theme, variant)).Some? ==>
              MissRendered(fs, fs', r, c, scheme, theme, variant, engine)
  {
    var cachePath := CachePathOf(c, scheme, theme, variant);
    var rendered;
    fs', rendered := RenderToCache(fs, cachePath, c.templates.path, c.themeSources, scheme, theme, variant, engine);
    r := if rendered.Ok? then Ok(cachePath) else Err(rendered.error);
    if CreateDirAll(fs, cachePath).Some? {
      CreateThenRenderFrame(fs, CreateDirAll(fs, cachePath).value, fs', cachePath);
      MissRenderedFrom(fs, fs', rendered, r, c, scheme, theme, variant, engine);
    }
  }

  /** A miss whose cache directory could be created did what `render_to_cache`
      does for that path: `r` is the cache path when the render succeeds and
      the render's error otherwise. */
  ghost predicate MissRendered(fs: Fs, fs': Fs, r: Result<Path, Error>, c: ThemeCache, scheme: Scheme,
                               theme: string, variant: string, engine: Engine)
    requires CreateDirAll(fs, CachePathOf(c, scheme, theme, variant)).Some?
  {
    var p := CachePathOf(c, scheme, theme, variant);
    var rendered: Result<(), Error> := if r.Ok? then Ok(()) else Err(r.error);
    RenderedToCache(CreateDirAll(fs, p).value, fs', rendered, p, c.templates.path, c.themeSources,
                    scheme, theme, variant, engine)
  }

  /** Returning the cache path for a successful render and the render's error
      otherwise is what `MissRendered` asks of a miss. */
  lemma MissRenderedFrom(fs: Fs, fs': Fs, rendered: Result<(), Error>, r: Result<Path, Error>, c: ThemeCache,
                         scheme: Scheme, theme: string, variant: string, engine: Engine)
    requires CreateDirAll(fs, CachePathOf(c, scheme, theme, variant)).Some?
    requires RenderedToCache(CreateDirAll(fs, CachePathOf(c, scheme, theme, variant)).value, fs', rendered,
                             CachePathOf(c, scheme, theme, variant), c.templates.path, c.themeSources,
                             scheme, theme, variant, engine)
    requires r == if rendered.Ok? then Ok(CachePathOf(c, scheme, theme, variant)) else Err(rendered.error)
    ensures MissRendered(fs, fs', r, c, scheme, theme, variant, engine)
  {
    var back: Result<(), Error> := if r.Ok? then Ok(()) else Err(r.error);
    match rendered
    case Ok(u) => assert u == () && back == rendered;
    case Err(e) => assert back == rendered;
  }

  /** Creating the cache path changes only its ancestors, and rendering only
      its direct children; everything else is as before. */
  lemma CreateThenRenderFrame(fs: Fs, fs1: Fs, fs': Fs, cachePath: Path)
    requires CreateDirAll(fs, cachePath) == Some(fs1)
    requires forall q | !IsOutputSlot(cachePath, q) :: Same(fs1, fs', q)
    ensures forall q | q !in Ancestors(cachePath) && !IsOutputSlot(cachePath, q) :: Same(fs, fs', q)
  {
  }

  /** `get_or_render`: the cache-through entry point, which is `render_variant`. */
  method GetOrRender(fs: Fs, c: ThemeCache, scheme: Scheme, theme: string, variant: string, engine: Engine)
    returns (fs': Fs, r: Result<Path, Error>)
    ensures IsCached(fs, c, scheme, theme, variant) ==> fs' == fs && r == Ok(CachePathOf(c, scheme, theme, variant))
    ensures r.Ok? ==> r.value == CachePathOf(c, scheme, theme, variant) && IsCached(fs', c, scheme, theme, variant)
    ensures !IsCached(fs, c, scheme, theme, variant) && CreateDirAll(fs, CachePathOf(c, scheme, theme, variant)).None? ==>
              fs' == fs && r == Err(Io)
    ensures CreateDirAll(fs, CachePathOf(c, scheme, theme, variant)).Some? ==> IsCached(fs', c, scheme, theme, variant)
    ensures forall q | q !in Ancestors(CachePathOf(c, scheme, theme, variant))
                       && !IsOutputSlot(CachePathOf(c, scheme, theme, variant), q) :: Same(fs, fs', q)
    ensures !IsCached(fs, c, scheme, theme, variant) && CreateDirAll(fs, CachePathOf(c, scheme, theme, variant)).Some? ==>
              MissRendered(fs, fs', r, c, scheme, theme, variant, engine)
  {
    fs', r := RenderVariant(fs, c, scheme, theme, variant, engine);
  }

  /** The entries `clean_stale` removes: directories directly under the cache
      directory whose name is not the current templates hash. */
  function Stale(fs: Fs, c: ThemeCache): set<Path> {
    set q | q in ChildPaths(fs, c.cacheDir) && fs[q].Dir? && q[|q| - 1] != c.templates.hash
  }

  /** `q` lies at or below one of the entries `s` (all of them direct children
      of the cache directory). */
  predicate Under(cacheDir: Path, s: set<Path>, q: Path) {
    |q| > |cacheDir| && q[..|cacheDir| + 1] in s
  }

  /** `fs` with every subtree rooted at an entry of `s` removed. */
  function WithoutSubtrees(fs: Fs, cacheDir: Path, s: set<Path>): Fs {
    map q | q in fs && !Under(cacheDir, s, q) :: fs[q]
  }

  /** Removing one more subtree. */
  lemma RemoveOneMore(fs: Fs, cacheDir: Path, s: set<Path>, t: Path)
    requires |t| == |cacheDir| + 1
    ensures RemoveAll(WithoutSubtrees(fs, cacheDir, s), t) == WithoutSubtrees(fs, cacheDir, s + {t})
  {
    var a := RemoveAll(WithoutSubtrees(fs, cacheDir, s), t);
    var b := WithoutSubtrees(fs, cacheDir, s + {t});
    forall q
      ensures q in a <==> q in b
    {
      if |q| > |cacheDir| {
        assert IsPrefix(t, q) <==> q[..|cacheDir| + 1] == t;
      }
    }
  }

  /** One visit of the removal loop: entry `t` is removed exactly when it is
      stale, and the removed set grows by exactly the stale entries visited. */
  lemma StaleStep(fs: Fs, c: ThemeCache, remaining: set<Path>, removedSet: set<Path>, t: Path)
    requires remaining <= ChildPaths(fs, c.cacheDir) && t in remaining
    requires removedSet == Stale(fs, c) - remaining
    ensures |t| == |c.cacheDir| + 1
    ensures var cur := WithoutSubtrees(fs, c.cacheDir, removedSet);
            IsDir(cur, t) && t[|t| - 1] != c.templates.hash <==> t in Stale(fs, c)
    ensures t !in removedSet
    ensures t in Stale(fs, c) ==> removedSet + {t} == Stale(fs, c) - (remaining - {t})
    ensures t !in Stale(fs, c) ==> removedSet == Stale(fs, c) - (remaining - {t})
  {
    assert t[..|c.cacheDir| + 1] == t;
    assert !Under(c.cacheDir, removedSet, t);
  }

  /** `clean_stale`. A missing cache directory gives 0 and no change; otherwise
      every stale directory is removed with everything below it, nothing else
      changes (plain files and the current-hash directory stay), and the count
      is the number of directories removed. */
  method CleanStale(fs: Fs, c: ThemeCache) returns (fs': Fs, r: Result<nat, Error>)
    ensures c.cacheDir !in fs ==> fs' == fs && r == Ok(0)
    ensures c.cacheDir in fs && fs[c.cacheDir].File? ==> fs' == fs && r == Err(Io)
    ensures IsDir(fs, c.cacheDir) ==> r == Ok(|Stale(fs, c)|)
    ensures IsDir(fs, c.cacheDir) ==>
              forall q :: q in fs' <==> q in fs && !Under(c.cacheDir, Stale(fs, c), q)
    ensures forall q | q in fs' :: q in fs && fs'[q] == fs[q]
  {
    if c.cacheDir !in fs {
      return fs, Ok(0);
    }
    if fs[c.cacheDir].File? {
      return fs, Err(Io);
    }
    var entries := ChildPaths(fs, c.cacheDir);
    var remaining := entries;
    ghost var removedSet: set<Path> := {};
    var removed := 0;
    fs' := fs;
    while remaining != {}
      invariant remaining <= entries
      invariant removedSet == Stale(fs, c) - remaining
      invariant removed == |removedSet|
      invariant fs' == WithoutSubtrees(fs, c.cacheDir, removedSet)
      decreases |remaining|
    {
      var t :| t in remaining;
      StaleStep(fs, c, remaining, removedSet, t);
      remaining := remaining - {t};
      if IsDir(fs', t) && t[|t| - 1] != c.templates.hash {
        RemoveOneMore(fs, c.cacheDir, removedSet, t);
        fs' := RemoveAll(fs', t);
        removedSet := removedSet + {t};
        removed := removed + 1;
      }
    }
    r := Ok(removed);
  }

  /** A plain file directly in the cache directory, and the directory of the
      current templates hash, are never stale, so clean_stale keeps them. */
  lemma CleanStaleKeeps(fs: Fs, c: ThemeCache, q: Path)
    requires q in ChildPaths(fs, c.cacheDir)
    requires fs[q].File? || q[|q| - 1] == c.templates.hash
    ensures !Under(c.cacheDir, Stale(fs, c), q)
  {
    assert q[..|c.cacheDir| + 1] == q;
  }
}
