/** `scanReact` of src/scan/react.ts: the regex-only React scanner. Every
    listed file that can be stat'ed, is a regular file and can be read is
    searched for `<Route … path="…" …>` elements; the trimmed, non-blank
    `path` values go into an insertion-ordered set whose members are
    returned. The glob listing and the file system are inputs. */
module SimpleReactScan {
  import opened JsText
  import opened Patterns
  import opened Routes
  import opened FileUtils
  import opened Parsers
  import opened PathSets

  /** The path one `<Route …>` text contributes (react.ts:47-52): the first
      `path="…"` value, trimmed, unless the value or its trimmed form is empty. */
  function RoutePath(m: string): Option<string> {
    match Match(PathProp, m)
    case Some(p) =>
      if p.group == [] then None
      else
        var v := Trim(p.group);
        if v == [] then None else Some(v)
    case None => None
  }

  /** Every `<Route>` text the scan finds has a `path="…"` value, so it
      contributes no path exactly when that value is blank. */
  lemma RoutePathDropsOnlyBlankPaths(code: string, m: string)
    requires m in MatchAll(RouteComponent, code)
    ensures Match(PathProp, m).Some?
    ensures RoutePath(m).None? <==> Trim(Match(PathProp, m).value.group) == []
  {
    RouteComponentHasPath(code);
    var g := Match(PathProp, m).value.group;
    if g == [] {
      assert |Trim(g)| == 0;
    }
  }

  /** The paths of a sequence of `<Route …>` texts, in order, repeats kept. */
  function RoutePaths(ms: seq<string>): seq<string>
    decreases |ms|
  {
    if ms == [] then []
    else
      var last := RoutePath(ms[|ms| - 1]);
      RoutePaths(ms[..|ms| - 1]) + (if last.Some? then [last.value] else [])
  }

  /** The paths one file's text contributes, in match order (react.ts:42-54). */
  function FilePaths(code: string): seq<string> {
    RoutePaths(MatchAll(RouteComponent, code))
  }

  /** One listed path: nothing when it cannot be stat'ed, is not a regular
      file or cannot be read (react.ts:24-39). */
  function ListedPaths(fs: map<string, Entry>, file: string): seq<string> {
    match Read(fs, file)
    case None => []
    case Some(code) => FilePaths(code)
  }

  /** Every path added to the set, in the order of the `add` calls. */
  function AddedPaths(fs: map<string, Entry>, files: seq<string>): seq<string>
    decreases |files|
  {
    if files == [] then []
    else AddedPaths(fs, files[..|files| - 1]) + ListedPaths(fs, files[|files| - 1])
  }

  /** What `scanReact` returns: the members of the set after every `add`. */
  function SimpleScanResult(fs: map<string, Entry>, files: seq<string>): seq<string> {
    AddedAll([], AddedPaths(fs, files))
  }

  /** react.ts:14-58. */
  method ScanReact(files: seq<string>, fs: map<string, Entry>) returns (result: seq<string>)
    ensures result == SimpleScanResult(fs, files)
  {
    var routes := new PathSet();
    var k := 0;
    while k < |files|
      invariant 0 <= k <= |files|
      invariant routes.items == AddedAll([], AddedPaths(fs, files[..k]))
    {
      AddedPathsStep(fs, files, k);
      AddListedPaths(fs, files[k], routes);
      k := k + 1;
    }
    assert files[..k] == files;
    result := routes.items;
  }

  /** react.ts:24-54 for one listed path. */
  method AddListedPaths(fs: map<string, Entry>, file: string, routes: PathSet)
    modifies routes
    ensures routes.items == AddedAll(old(routes.items), ListedPaths(fs, file))
  {
    var code := Read(fs, file);
    if code.Some? {
      AddFilePaths(code.value, routes);
    }
  }

  /** react.ts:42-54 for one file's text. */
  method AddFilePaths(code: string, routes: PathSet)
    modifies routes
    ensures routes.items == AddedAll(old(routes.items), FilePaths(code))
  {
    var routeMatches := MatchAll(RouteComponent, code);
    AddRoutePaths(routeMatches, routes);
  }

  /** The loop of react.ts:46-54 over the `<Route …>` texts. */
  method AddRoutePaths(ms: seq<string>, routes: PathSet)
    modifies routes
    ensures routes.items == AddedAll(old(routes.items), RoutePaths(ms))
  {
    ghost var items0 := routes.items;
    var k := 0;
    while k < |ms|
      invariant 0 <= k <= |ms|
      invariant routes.items == AddedAll(items0, RoutePaths(ms[..k]))
    {
      RoutePathsStep(items0, ms, k);
      AddRoutePath(ms[k], routes);
      k := k + 1;
    }
    assert ms[..k] == ms;
  }

  /** react.ts:47-53 for one `<Route …>` text. */
  method AddRoutePath(m: string, routes: PathSet)
    modifies routes
    ensures routes.items == AddedAll(old(routes.items), RoutePaths([m]))
  {
    assert [m][..0] == [];
    var pathMatch := Match(PathProp, m);
    if pathMatch.Some? && pathMatch.value.group != [] {
      var pathValue := Trim(pathMatch.value.group);
      if pathValue != [] {
        routes.Add(pathValue);
        assert [pathValue][..0] == [];
      }
    }
  }

  /** One turn of the loop over `<Route …>` texts, on the set. */
  lemma RoutePathsStep(items: seq<string>, ms: seq<string>, k: nat)
    requires k < |ms|
    ensures AddedAll(items, RoutePaths(ms[..k + 1])) == AddedAll(AddedAll(items, RoutePaths(ms[..k])), RoutePaths([ms[k]]))
  {
    assert ms[..k + 1][..k] == ms[..k];
    assert [ms[k]][..0] == [];
    AddedAllAppend(items, RoutePaths(ms[..k]), RoutePaths([ms[k]]));
  }

  /** One turn of the loop over the listing, on the set. */
  lemma AddedPathsStep(fs: map<string, Entry>, files: seq<string>, k: nat)
    requires k < |files|
    ensures AddedAll([], AddedPaths(fs, files[..k + 1])) == AddedAll(AddedAll([], AddedPaths(fs, files[..k])), ListedPaths(fs, files[k]))
  {
    assert files[..k + 1][..k] == files[..k];
    AddedAllAppend([], AddedPaths(fs, files[..k]), ListedPaths(fs, files[k]));
  }

  // ----------------------------------------------------------- properties

  /** Every path is non-empty and trimmed. */
  lemma {:induction false} RoutePathsNonBlank(ms: seq<string>)
    ensures forall p :: p in RoutePaths(ms) ==> p != [] && Trimmed(p)
    decreases |ms|
  {
    if ms != [] {
      RoutePathsNonBlank(ms[..|ms| - 1]);
      var last := RoutePath(ms[|ms| - 1]);
      assert last.Some? ==> last.value != [] && Trimmed(last.value);
      assert RoutePaths(ms) == RoutePaths(ms[..|ms| - 1]) + (if last.Some? then [last.value] else []);
    }
  }

  lemma {:induction false} AddedPathsNonBlank(fs: map<string, Entry>, files: seq<string>)
    ensures forall p :: p in AddedPaths(fs, files) ==> p != [] && Trimmed(p)
    decreases |files|
  {
    if files != [] {
      AddedPathsNonBlank(fs, files[..|files| - 1]);
      match Read(fs, files[|files| - 1])
      case None =>
      case Some(code) => RoutePathsNonBlank(MatchAll(RouteComponent, code));
    }
  }

  /** The result holds each added path exactly once, every one of them
      non-blank and trimmed, in the order the paths were first found. */
  lemma SimpleScanIsOrderedSet(fs: map<string, Entry>, files: seq<string>)
    ensures var r := SimpleScanResult(fs, files);
      && Distinct(r)
      && (forall p :: p in r <==> p in AddedPaths(fs, files))
      && (forall p :: p in r ==> p != [] && Trimmed(p))
      && InFirstOccurrenceOrder(r, AddedPaths(fs, files))
  {
    AddedAllDistinct([], AddedPaths(fs, files));
    AddedAllMembers([], AddedPaths(fs, files));
    AddedPathsNonBlank(fs, files);
    AddedAllFirstOccurrenceOrder(AddedPaths(fs, files));
  }

  /** The simple scanner keeps the key the full scanner's component pass
      writes for the same `<Route …>` text, except a blank one: it reads the
      same `path` value and trims it the same way (react.ts:47-52,
      parsers.ts:148-161). */
  lemma RoutePathIsComponentKey(code: string, m: string)
    ensures RoutePath(m).Some? <==> ComponentRoute(code, m) != [] && ComponentRoute(code, m)[0].path != []
    ensures RoutePath(m).Some? ==> RoutePath(m).value == ComponentRoute(code, m)[0].path
  {
  }
}
