/**
 * The documentation downloader's receive loop: every crawled page of
 * https://iterm2.com/python-api/ is mapped to a file under the output
 * directory "../docs/python-api", and two counters record the pages seen
 * and the pages saved. The crawler, URL parsing and the file system are
 * outside the model: a page arrives with its URL already parsed and with
 * the file system's answer to the write it would cause.
 */
module DownloadDocs {
  import opened Wrappers
  import opened Text

  const OutputDir: string := "../docs/python-api"

  /** What `parse::<Url>()` gives: an error, a URL without a hierarchical path (such as "mailto:"), or a path. */
  datatype ParsedUrl = Unparsable | CannotBeBase | Hierarchical(path: string)

  /** How the file system answers the two steps of saving a page. */
  datatype WriteOutcome = DirectoryFailed | WriteFailed | Written

  datatype Page = Page(url: ParsedUrl, html: string, io: WriteOutcome)

  datatype SavedFile = SavedFile(path: string, contents: string)

  /**
   * `path_segments()` with an empty default: the pieces of the path after its
   * leading '/'. Only a URL without a hierarchical path has none.
   */
  function PathSegments(url: ParsedUrl): (r: seq<string>)
    ensures r == [] <==> !url.Hierarchical?
    ensures forall k :: 0 <= k < |r| ==> '/' !in r[k]
  {
    match url
    case Hierarchical(path) => Split(if StartsWith(path, "/") then path[1..] else path, '/')
    case _ => []
  }

  /** The segments of a path are exactly what follows its leading '/': joining them with '/' gives it back. */
  lemma PathSegmentsRoundTrip(rest: string)
    ensures Join(PathSegments(Hierarchical("/" + rest)), "/") == rest
  {
    assert StartsWith("/" + rest, "/");
    assert ("/" + rest)[1..] == rest;
    JoinSplit(rest, '/');
  }

  /**
   * The naming rule applied to the joined segments: the API root is
   * "index.html", a directory gets "index.html", a name without any '.'
   * gets ".html", and anything else is kept.
   */
  function NameFile(joined: string): (r: string)
    ensures r != [] && !EndsWith(r, "/") && '.' in r
    ensures StartsWith(r, joined)
    ensures joined == [] ==> r == "index.html"
    ensures joined != [] && EndsWith(joined, "/") ==> r == joined + "index.html"
    ensures joined != [] && !EndsWith(joined, "/") && '.' !in joined ==> r == joined + ".html"
    ensures r == joined <==> joined != [] && !EndsWith(joined, "/") && '.' in joined
    ensures StartsWith(r, "/") <==> StartsWith(joined, "/")
  {
    if joined == [] then "index.html"
    else if EndsWith(joined, "/") then
      assert (joined + "index.html")[|joined + "index.html"| - 1] == 'l';
      assert (joined + "index.html")[|joined| + 5] == '.';
      assert (joined + "index.html")[..|joined|] == joined;
      assert (joined + "index.html")[..1] == joined[..1];
      joined + "index.html"
    else if '.' !in joined then
      assert (joined + ".html")[|joined + ".html"| - 1] == 'l';
      assert (joined + ".html")[|joined|] == '.';
      assert (joined + ".html")[..|joined|] == joined;
      assert (joined + ".html")[..1] == joined[..1];
      joined + ".html"
    else joined
  }

  /**
   * The relative file path of a page with these path segments, as written:
   * none unless the first segment is "python-api"; otherwise the naming rule
   * applied to the remaining segments joined with '/'.
   */
  function FilePathFor(segments: seq<string>): (r: Option<string>)
    ensures r.None? <==> segments == [] || segments[0] != "python-api"
    ensures r.Some? ==> r.value != [] && !EndsWith(r.value, "/") && '.' in r.value && StartsWith(r.value, Join(segments[1..], "/"))
  {
    if segments == [] || segments[0] != "python-api" then None
    else Some(NameFile(Join(segments[1..], "/")))
  }

  /** Rust's `Path::join`: an absolute `rel` replaces `base`; otherwise a '/' separates them when needed. */
  function PathJoin(base: string, rel: string): (r: string)
    ensures StartsWith(rel, "/") ==> r == rel
    ensures !StartsWith(rel, "/") && base != [] && !EndsWith(base, "/") ==> r == base + "/" + rel
  {
    if StartsWith(rel, "/") then rel
    else if base == [] || EndsWith(base, "/") then base + rel
    else base + "/" + rel
  }

  /** The output directory is relative and does not end with a separator. */
  lemma OutputDirShape()
    ensures OutputDir != [] && OutputDir[0] == '.' && !EndsWith(OutputDir, "/")
  {
    assert OutputDir[|OutputDir| - 1] == 'i';
  }

  /** The segments of a path are the pieces after its leading '/'. */
  lemma SegmentsAfterRoot(rest: string)
    ensures PathSegments(Hierarchical("/" + rest)) == Split(rest, '/')
  {
    assert ("/" + rest)[..1] == "/" && ("/" + rest)[1..] == rest;
  }

  /** A doubled '/' after the first segment gives an empty second segment. */
  lemma DoubledSlashGivesEmptySegment(first: string, name: string)
    requires '/' !in first && '/' !in name
    ensures PathSegments(Hierarchical("/" + (first + "//" + name))) == [first, "", name]
  {
    SegmentsAfterRoot(first + "//" + name);
    SplitDoubledSlash(first, name);
  }

  lemma SplitDoubledSlash(first: string, name: string)
    requires '/' !in first && '/' !in name
    ensures Split(first + "//" + name, '/') == [first, "", name]
  {
    assert first + "//" + name == first + ['/'] + ([] + ['/'] + name);
    SplitAtFirst(first, [] + ['/'] + name, '/');
    SplitAtFirst([], name, '/');
  }

  /**
   * An empty segment right after "python-api" (a URL path such as
   * "/python-api//etc") leaves the joined path absolute, and `Path::join`
   * then discards `OutputDir`: the page is written outside it.
   */
  lemma EmptySegmentEscapesOutputDir(segments: seq<string>)
    requires |segments| >= 3 && segments[0] == "python-api" && segments[1] == ""
    ensures FilePathFor(segments).Some? && StartsWith(FilePathFor(segments).value, "/")
    ensures PathJoin(OutputDir, FilePathFor(segments).value) == FilePathFor(segments).value
    ensures !StartsWith(PathJoin(OutputDir, FilePathFor(segments).value), OutputDir)
  {
    var p := FilePathFor(segments).value;
    assert StartsWith(Join(segments[1..], "/"), "/") by {
      var tail := segments[1..];
      assert tail[0] == "" && |tail| >= 2;
      assert Join(tail, "/") == "" + "/" + Join(tail[1..], "/");
    }
    assert p[0] == '/' by {
      assert p[..1] == "/";
    }
    OutputDirShape();
    if |OutputDir| <= |p| {
      assert p[..|OutputDir|][0] != OutputDir[0];
    }
  }

  /** The leading '/' characters of `s` removed. */
  function TrimLeadingSlashes(s: string): (r: string)
    ensures !StartsWith(r, "/")
    ensures |r| <= |s| && r == s[|s| - |r|..]
    ensures forall k :: 0 <= k < |s| - |r| ==> s[k] == '/'
  {
    if s != [] && s[0] == '/' then
      var r := TrimLeadingSlashes(s[1..]);
      assert s[1..][|s[1..]| - |r|..] == s[|s| - |r|..];
      r
    else s
  }

  /**
   * The relative file path with the leading '/' characters of the joined
   * segments removed, so that it never leaves the output directory.
   */
  function ContainedFilePath(segments: seq<string>): (r: Option<string>)
    ensures r.None? <==> segments == [] || segments[0] != "python-api"
    ensures r.Some? ==> r.value != [] && !EndsWith(r.value, "/") && '.' in r.value && !StartsWith(r.value, "/")
  {
    if segments == [] || segments[0] != "python-api" then None
    else Some(NameFile(TrimLeadingSlashes(Join(segments[1..], "/"))))
  }

  /** Where the joined segments are relative, the corrected rule is the rule as written. */
  lemma ContainedAgreesWhenRelative(segments: seq<string>)
    requires segments != [] && segments[0] == "python-api"
    requires !StartsWith(Join(segments[1..], "/"), "/")
    ensures ContainedFilePath(segments) == FilePathFor(segments)
  {
    var joined := Join(segments[1..], "/");
    if joined != [] {
      assert joined[..1] == [joined[0]];
    }
  }

  /** Every corrected path lands strictly inside `OutputDir`. */
  lemma ContainedPathStaysInside(segments: seq<string>)
    requires ContainedFilePath(segments).Some?
    ensures PathJoin(OutputDir, ContainedFilePath(segments).value) == OutputDir + "/" + ContainedFilePath(segments).value
  {
    OutputDirShape();
  }

  /** The loop's own steps: the segment list loses its first element, the rest is joined and named. */
  method PageFilePath(segments: seq<string>) returns (filePath: Option<string>)
    ensures filePath == FilePathFor(segments)
  {
    var pathSegments := segments;
    if pathSegments == [] {
      return None;
    }
    var dir := pathSegments[0];
    pathSegments := pathSegments[1..];
    if dir != "python-api" {
      return None;
    }
    var path := Join(pathSegments, "/");
    if path == [] {
      path := "index.html";
    } else if EndsWith(path, "/") {
      path := path + "index.html";
    } else if '.' !in path {
      path := path + ".html";
    }
    return Some(path);
  }

  /**
   * The file one page leaves behind, if any, when `rule` maps path segments
   * to a relative file path: `FilePathFor` as written, or `ContainedFilePath`.
   */
  function SavedBy(page: Page, rule: seq<string> -> Option<string>): (r: seq<SavedFile>)
    ensures |r| <= 1
    ensures r != [] <==> page.url.Hierarchical? && rule(PathSegments(page.url)).Some? && page.io == Written
    ensures r != [] ==> r[0] == SavedFile(PathJoin(OutputDir, rule(PathSegments(page.url)).value), page.html)
  {
    if page.url.Hierarchical? && page.io == Written then
      match rule(PathSegments(page.url))
      case Some(rel) => [SavedFile(PathJoin(OutputDir, rel), page.html)]
      case None => []
    else []
  }

  /** The files a sequence of pages leaves behind, in order. */
  function SavedFiles(pages: seq<Page>, rule: seq<string> -> Option<string>): seq<SavedFile> {
    if pages == [] then [] else SavedFiles(pages[..|pages| - 1], rule) + SavedBy(pages[|pages| - 1], rule)
  }

  lemma SavedFilesStep(pages: seq<Page>, i: nat, rule: seq<string> -> Option<string>)
    requires i < |pages|
    ensures SavedFiles(pages[..i + 1], rule) == SavedFiles(pages[..i], rule) + SavedBy(pages[i], rule)
  {
    assert pages[..i + 1][..i] == pages[..i];
  }

  /** No more files are saved than pages are received. */
  lemma {:induction false} SavedAtMostReceived(pages: seq<Page>, rule: seq<string> -> Option<string>)
    ensures |SavedFiles(pages, rule)| <= |pages|
  {
    if pages != [] {
      SavedAtMostReceived(pages[..|pages| - 1], rule);
    }
  }

  /** Under the corrected rule every saved file lands inside `OutputDir`. */
  lemma {:induction false} SavedFilesStayInside(pages: seq<Page>)
    ensures forall k :: 0 <= k < |SavedFiles(pages, ContainedFilePath)| ==>
      StartsWith(SavedFiles(pages, ContainedFilePath)[k].path, OutputDir + "/")
  {
    if pages != [] {
      var init := pages[..|pages| - 1];
      SavedFilesStayInside(init);
      var page := pages[|pages| - 1];
      if SavedBy(page, ContainedFilePath) != [] {
        var rel := ContainedFilePath(PathSegments(page.url)).value;
        ContainedPathStaysInside(PathSegments(page.url));
        assert (OutputDir + "/" + rel)[..|OutputDir + "/"|] == OutputDir + "/";
      }
    }
  }

  /** As written, a saved page whose path has an empty segment right after "python-api" lies outside `OutputDir`. */
  lemma EscapingPageSaved(page: Page)
    requires page.url.Hierarchical? && page.io == Written
    requires |PathSegments(page.url)| >= 3 && PathSegments(page.url)[0] == "python-api" && PathSegments(page.url)[1] == ""
    ensures |SavedBy(page, FilePathFor)| == 1 && !StartsWith(SavedBy(page, FilePathFor)[0].path, OutputDir)
  {
    EmptySegmentEscapesOutputDir(PathSegments(page.url));
  }

  /**
   * The spawned receive loop: every page counts as processed; a page is
   * skipped for an unparsable URL, a URL without path segments, a first
   * segment other than "python-api" or a failed directory creation; a page
   * whose write succeeds counts as downloaded.
   */
  method ReceivePages(pages: seq<Page>) returns (processed: nat, downloaded: nat, saved: seq<SavedFile>)
    ensures processed == |pages|
    ensures saved == SavedFiles(pages, FilePathFor)
    ensures downloaded == |saved| && downloaded <= processed
  {
    processed, downloaded, saved := 0, 0, [];
    for i := 0 to |pages|
      invariant processed == i
      invariant saved == SavedFiles(pages[..i], FilePathFor) && downloaded == |saved|
    {
      SavedFilesStep(pages, i, FilePathFor);
      var page := pages[i];
      processed := processed + 1;
      if page.url.Unparsable? {
        continue;
      }
      var segments := PathSegments(page.url);
      if segments == [] {
        continue;
      }
      var filePath := PageFilePath(segments);
      if filePath.None? {
        continue;
      }
      var fullPath := PathJoin(OutputDir, filePath.value);
      if page.io == DirectoryFailed {
        continue;
      }
      if page.io == Written {
        downloaded := downloaded + 1;
        saved := saved + [SavedFile(fullPath, page.html)];
      }
    }
    assert pages[..|pages|] == pages;
    SavedAtMostReceived(pages, FilePathFor);
  }
}
