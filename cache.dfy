/**
 * Where both extractors cache a parsed file: under ".cache", at the file's
 * path relative to the source directory, with its extension replaced by
 * "json". Paths are sequences of plain components (no root, no ".", no "..").
 */
module CachePaths {
  import opened Wrappers
  import opened Text

  type Path = seq<string>

  /** `Path::strip_prefix`: the components after `base`, when `base` leads `path`. */
  function StripPrefix(path: Path, base: Path): (r: Option<Path>)
    ensures r.Some? <==> |base| <= |path| && path[..|base|] == base
    ensures r.Some? ==> r.value == path[|base|..]
  {
    if |base| <= |path| && path[..|base|] == base then Some(path[|base|..]) else None
  }

  /** `Path::file_stem` of a component: up to its last '.', unless that '.' is its first character. */
  function FileStem(name: string): string {
    if name == ".." then name
    else match LastIndexOf(name, '.')
      case None => name
      case Some(i) => if i == 0 then name else name[..i]
  }

  /** `with_extension("json")` applied to the last component. */
  function WithJsonExtension(name: string): (r: string)
    ensures EndsWith(r, ".json")
  {
    FileStem(name) + ".json"
  }

  /** The cache file of `file`, given the source directory `source`. */
  function CachePath(file: Path, source: Path): (p: Path)
    ensures |p| >= 1 && EndsWith(p[|p| - 1], ".json")
    ensures StripPrefix(file, source).None? ==> |p| == 2 && p[0] == ".cache"
    ensures StripPrefix(file, source).Some? && |file| > |source| ==>
      p == [".cache"] + file[|source|..|file| - 1] + [WithJsonExtension(file[|file| - 1])]
  {
    var relative := match StripPrefix(file, source)
      case Some(rest) => rest
      case None => [if file == [] then "unknown" else file[|file| - 1]];
    var joined := [".cache"] + relative;
    joined[..|joined| - 1] + [WithJsonExtension(joined[|joined| - 1])]
  }

  /** A ".py" file's cache name swaps "py" for "json". */
  lemma {:induction false} PythonFileCacheName(name: string)
    requires |name| >= 4 && EndsWith(name, ".py")
    ensures WithJsonExtension(name) == name[..|name| - 3] + ".json"
  {
    var n := |name|;
    assert name[n - 3] == '.' && name[n - 2..] == "py";
    assert '.' !in name[n - 3 + 1..];
    assert LastIndexOf(name, '.') == Some(n - 3);
  }

  /** Different ".py" names have different cache names. */
  lemma {:induction false} PythonCacheNameInjective(a: string, b: string)
    requires |a| >= 4 && EndsWith(a, ".py") && |b| >= 4 && EndsWith(b, ".py")
    requires WithJsonExtension(a) == WithJsonExtension(b)
    ensures a == b
  {
    PythonFileCacheName(a);
    PythonFileCacheName(b);
    var sa := a[..|a| - 3];
    var sb := b[..|b| - 3];
    assert |sa| == |sb|;
    assert sa == (sa + ".json")[..|sa|];
    assert sb == (sb + ".json")[..|sb|];
    assert a == sa + ".py" && b == sb + ".py";
  }

  /** Two ".py" files under the source directory share a cache file only if they are the same file. */
  lemma {:induction false} CachePathInjective(f: Path, g: Path, source: Path)
    requires StripPrefix(f, source).Some? && StripPrefix(g, source).Some?
    requires |f| > |source| && |g| > |source|
    requires |f[|f| - 1]| >= 4 && EndsWith(f[|f| - 1], ".py")
    requires |g[|g| - 1]| >= 4 && EndsWith(g[|g| - 1], ".py")
    requires CachePath(f, source) == CachePath(g, source)
    ensures f == g
  {
    var mf, mg := f[|source|..|f| - 1], g[|source|..|g| - 1];
    var wf, wg := WithJsonExtension(f[|f| - 1]), WithJsonExtension(g[|g| - 1]);
    SameFrameSameParts(".cache", mf, wf, mg, wg);
    PythonCacheNameInjective(f[|f| - 1], g[|g| - 1]);
    SplitPath(f, source);
    SplitPath(g, source);
  }

  /** Equal paths with the same first component agree on the middle and on the last component. */
  lemma SameFrameSameParts(head: string, a: Path, x: string, b: Path, y: string)
    requires [head] + a + [x] == [head] + b + [y]
    ensures a == b && x == y
  {
    var p := [head] + a + [x];
    assert a == p[1..|a| + 1];
    assert b == ([head] + b + [y])[1..|b| + 1];
  }

  /** A path below `source` is `source`, the components in between, and its last component. */
  lemma SplitPath(f: Path, source: Path)
    requires |f| > |source| && f[..|source|] == source
    ensures f == source + f[|source|..|f| - 1] + [f[|f| - 1]]
  {
  }
}
