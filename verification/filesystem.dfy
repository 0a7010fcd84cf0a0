/** An explicit model of the part of the filesystem the cache touches: a finite map
    from paths (sequences of components) to nodes. Only the operations the cache
    code calls are modelled; each returns None where the real call reports an
    I/O error. */
module FileSystem {
  import opened Wrappers

  /** A path as its sequence of components; joining appends a component. */
  type Path = seq<string>

  datatype Node = Dir | File(content: string)

  type Fs = map<Path, Node>

  predicate IsPrefix(a: Path, b: Path) {
    |a| <= |b| && b[..|a|] == a
  }

  predicate IsDir(fs: Fs, p: Path) {
    p in fs && fs[p].Dir?
  }

  /** The non-empty prefixes of `p`, `p` itself included. */
  function Ancestors(p: Path): set<Path> {
    set i | 1 <= i <= |p| :: p[..i]
  }

  /** `fs::read_to_string`: the content of a file; nothing for a directory or a
      missing path. */
  function ReadToString(fs: Fs, p: Path): (r: Option<string>)
    ensures r.Some? <==> p in fs && fs[p].File?
    ensures r.Some? ==> fs[p] == File(r.value)
  {
    if p in fs && fs[p].File? then Some(fs[p].content) else None
  }

  /** `fs::create_dir_all`: makes `p` and every missing ancestor a directory. It
      fails when one of them is a file. */
  function CreateDirAll(fs: Fs, p: Path): (r: Option<Fs>)
    ensures r.None? <==> exists i | 1 <= i <= |p| :: p[..i] in fs && fs[p[..i]].File?
    ensures r.Some? && |p| > 0 ==> IsDir(r.value, p)
    ensures r.Some? ==> forall q | q in Ancestors(p) :: IsDir(r.value, q)
    ensures r.Some? ==> forall q | q !in Ancestors(p) ::
              (q in r.value <==> q in fs) && (q in fs ==> r.value[q] == fs[q])
    ensures r.Some? ==> forall q | q in fs :: q in r.value && (fs[q].File? ==> r.value[q] == fs[q])
  {
    if exists i | 1 <= i <= |p| :: p[..i] in fs && fs[p[..i]].File? then None
    else
      var added := map q | q in Ancestors(p) :: Dir;
      assert |p| > 0 ==> p == p[..|p|] && p in Ancestors(p);
      Some(fs + added)
  }

  /** `fs::write`: creates or replaces the file at `p`. It fails when `p` is a
      directory or its parent is not one. */
  function WriteFile(fs: Fs, p: Path, content: string): (r: Option<Fs>)
    ensures r.Some? <==> |p| > 0 && IsDir(fs, p[..|p| - 1]) && !IsDir(fs, p)
    ensures r.Some? ==> r.value == fs[p := File(content)]
  {
    if |p| > 0 && IsDir(fs, p[..|p| - 1]) && !IsDir(fs, p) then Some(fs[p := File(content)])
    else None
  }

  /** The entries `fs::read_dir(d)` lists, as full paths. */
  function ChildPaths(fs: Fs, d: Path): (r: set<Path>)
    ensures forall q :: q in r <==> q in fs && |q| == |d| + 1 && IsPrefix(d, q)
  {
    set q | q in fs && |q| == |d| + 1 && q[..|d|] == d
  }

  /** `fs::remove_dir_all(d)`: removes `d` and everything below it. */
  function RemoveAll(fs: Fs, d: Path): (r: Fs)
    ensures forall q :: q in r <==> q in fs && !IsPrefix(d, q)
    ensures forall q | q in r :: r[q] == fs[q]
  {
    map q | q in fs && !IsPrefix(d, q) :: fs[q]
  }
}
