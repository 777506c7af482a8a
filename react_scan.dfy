/** `scanReact` of src/scan/react/index.ts: every file of the listing is
    stat'ed and read, the seven parsers run on it in a fixed order against
    one shared `Map<string, Route>`, and the map's values are returned in
    key-insertion order. The directory listing (the glob) and the file
    system are inputs. */
module ReactScan {
  import opened JsText
  import opened Patterns
  import opened Routes
  import opened FileUtils
  import opened Parsers

  /** The routes one file's text writes, pass by pass (index.ts:78-93). A
      throw in the provider pass abandons the file: the routes-file pass that
      follows it never runs, and what the earlier passes wrote stays. */
  function FileRoutes(code: string, file: string, fs: map<string, Entry>): seq<Route> {
    ExportedRoutes(code) + ImportedRoutes(code, file, fs) + ComponentRoutes(code)
      + ConstantRoutes(code) + ObjectPatternRoutes(code)
      + (if ProvidersOutcome(code).None? then RoutesFileRoutes(code, file) else [])
  }

  /** One entry of the listing: a path `statSync` cannot find, one that is
      not a regular file, and a file that cannot be read all write nothing. */
  function ListedRoutes(fs: map<string, Entry>, file: string): seq<Route> {
    match Read(fs, file)
    case None => []
    case Some(code) => FileRoutes(code, file, fs)
  }

  function ScanWrites(fs: map<string, Entry>, files: seq<string>): seq<Route>
    decreases |files|
  {
    if files == [] then []
    else ScanWrites(fs, files[..|files| - 1]) + ListedRoutes(fs, files[|files| - 1])
  }

  /** What `scanReact` returns: nothing when the root directory is missing,
      otherwise the map's values after all the writes. */
  function ScanResult(rootExists: bool, files: seq<string>, fs: map<string, Entry>): seq<Route> {
    if !rootExists then []
    else
      PutAllValid(Empty, ScanWrites(fs, files));
      Values(PutAll(Empty, ScanWrites(fs, files)))
  }

  /** The body of the `try` at index.ts:66-94 for one file's text. */
  method ScanFile(code: string, file: string, fs: map<string, Entry>, routes: RouteMap)
    modifies routes
    ensures routes.State() == PutAll(old(routes.State()), FileRoutes(code, file, fs))
  {
    ghost var st0 := routes.State();
    ParseExportedRoutes(code, file, routes);
    ParseImportedRoutes(code, file, fs, routes);
    PutAllAppend(st0, ExportedRoutes(code), ImportedRoutes(code, file, fs));
    ghost var ws := ExportedRoutes(code) + ImportedRoutes(code, file, fs);
    ParseRouteComponents(code, routes);
    PutAllAppend(st0, ws, ComponentRoutes(code));
    ws := ws + ComponentRoutes(code);
    ParseRouteConstants(code, routes);
    PutAllAppend(st0, ws, ConstantRoutes(code));
    ws := ws + ConstantRoutes(code);
    ParseRouteObjectPatterns(code, routes);
    PutAllAppend(st0, ws, ObjectPatternRoutes(code));
    ws := ws + ObjectPatternRoutes(code);
    var thrown := ParseRouterProviders(code, file, routes);
    if thrown.None? {
      ParseRoutesFile(code, file, routes);
      PutAllAppend(st0, ws, RoutesFileRoutes(code, file));
    } else {
      PutAllStep(st0, ws, []);
    }
  }

  /** index.ts:47-106. */
  method ScanReactRoutes(rootExists: bool, files: seq<string>, fs: map<string, Entry>) returns (result: seq<Route>)
    ensures result == ScanResult(rootExists, files, fs)
  {
    if !rootExists {
      return [];
    }
    var routes := new RouteMap();
    ScanFiles(files, fs, routes);
    PutAllValid(Empty, ScanWrites(fs, files));
    result := routes.ValuesInOrder();
  }

  /** The loop of index.ts:65-98 over the listing. */
  method ScanFiles(files: seq<string>, fs: map<string, Entry>, routes: RouteMap)
    modifies routes
    ensures routes.State() == PutAll(old(routes.State()), ScanWrites(fs, files))
  {
    ghost var st0 := routes.State();
    var k := 0;
    while k < |files|
      invariant 0 <= k <= |files|
      invariant routes.State() == PutAll(st0, ScanWrites(fs, files[..k]))
    {
      ScanWritesStep(st0, fs, files, k);
      ScanListed(fs, files[k], routes);
      k := k + 1;
    }
    assert files[..k] == files;
  }

  /** One turn of the loop over the listing, on the map. */
  lemma ScanWritesStep(st: Store, fs: map<string, Entry>, files: seq<string>, k: nat)
    requires k < |files|
    ensures PutAll(st, ScanWrites(fs, files[..k + 1]))
      == PutAll(PutAll(st, ScanWrites(fs, files[..k])), ListedRoutes(fs, files[k]))
  {
    assert files[..k + 1][..k] == files[..k];
    PutAllAppend(st, ScanWrites(fs, files[..k]), ListedRoutes(fs, files[k]));
  }

  /** One listed path: `statSync`, `isFile`, `readFileSync`, the passes;
      an error from any of them ends the file's turn. */
  method ScanListed(fs: map<string, Entry>, file: string, routes: RouteMap)
    modifies routes
    ensures routes.State() == PutAll(old(routes.State()), ListedRoutes(fs, file))
  {
    var code := Read(fs, file);
    if code.Some? {
      ScanFile(code.value, file, fs, routes);
    }
  }

  // ----------------------------------------------------------- properties

  /** With the root directory present, the result lists every written path
      once, each with the last route written under it, in the order the
      paths were first written. */
  lemma ScanResultIsLastWritePerPath(files: seq<string>, fs: map<string, Entry>)
    ensures var ws := ScanWrites(fs, files);
      var r := ScanResult(true, files, fs);
      && Distinct(Paths(r))
      && (forall i :: 0 <= i < |r| ==> LastWrite(ws, r[i].path) == Some(r[i]))
      && (forall p :: p in Paths(ws) <==> p in Paths(r))
      && (forall i, j :: 0 <= i < j < |r| ==> FirstIndex(Paths(ws), r[i].path) < FirstIndex(Paths(ws), r[j].path))
  {
    ValuesAreLastWrites(ScanWrites(fs, files));
  }

  /** A missing root directory gives no routes. */
  lemma MissingRootHasNoRoutes(files: seq<string>, fs: map<string, Entry>)
    ensures ScanResult(false, files, fs) == []
  {
  }

  /** A file the provider pass throws on contributes nothing from `routes.tsx` parsing. */
  lemma ProviderThrowSkipsRoutesFile(code: string, file: string, fs: map<string, Entry>)
    requires ProvidersOutcome(code).Some?
    ensures FileRoutes(code, file, fs)
      == ExportedRoutes(code) + ImportedRoutes(code, file, fs) + ComponentRoutes(code)
  {
    ConstantsNeverWrite(code);
    ObjectPatternsNeverWrite(code);
  }

  /** Every path written, and so every key of the result, is trimmed. */
  lemma {:induction false} ScanPathsTrimmed(fs: map<string, Entry>, files: seq<string>)
    ensures forall r :: r in ScanWrites(fs, files) ==> Trimmed(r.path)
    decreases |files|
  {
    if files != [] {
      ScanPathsTrimmed(fs, files[..|files| - 1]);
      var file := files[|files| - 1];
      match Read(fs, file)
      case None =>
      case Some(code) => FilePathsTrimmed(code, file, fs);
    }
  }

  lemma FilePathsTrimmed(code: string, file: string, fs: map<string, Entry>)
    ensures forall r :: r in FileRoutes(code, file, fs) ==> Trimmed(r.path)
  {
    ExportedPathsTrimmed(code);
    ImportedPathsTrimmed(fs, file, ExportConst, MatchAll(ImportNamed, code));
    ImportedPathsTrimmed(fs, file, ExportDefault, MatchAll(ImportDefault, code));
    ComponentsRoutesShape(code, MatchAll(RouteComponent, code));
    ConstantsNeverWrite(code);
    ObjectPatternsNeverWrite(code);
    RoutesFilePathsTrimmed(code, file);
  }

  lemma ExportedPathsTrimmed(code: string)
    ensures forall r :: r in ExportedRoutes(code) ==> Trimmed(r.path)
  {
    TextsRoutesShape(code, RouteObjectPath, BracketGroups(MatchAll(Decl(ExportConst), code)));
    TextsRoutesShape(code, RouteObjectPath, BracketGroups(MatchAll(Decl(ExportDefault), code)));
  }

  lemma RoutesFilePathsTrimmed(code: string, file: string)
    ensures forall r :: r in RoutesFileRoutes(code, file) ==> Trimmed(r.path)
  {
    TextsRoutesShape(code, RouteObject, MatchAll(Decl(Plain), code));
    TextsRoutesShape(code, RouteObject, [TypedRoutesArray(code)]);
  }

  lemma {:induction false} ImportedPathsTrimmed(fs: map<string, Entry>, file: string, kind: DeclKind, imps: seq<string>)
    ensures forall r :: r in ImportsRoutes(fs, file, kind, imps) ==> Trimmed(r.path)
    decreases |imps|
  {
    if imps != [] {
      ImportedPathsTrimmed(fs, file, kind, imps[..|imps| - 1]);
      match ImportTarget(file, imps[|imps| - 1])
      case None =>
      case Some(target) =>
        match Read(fs, target)
        case None =>
        case Some(importedCode) =>
          TextsRoutesShape(importedCode, RouteObjectPath, BracketGroups(MatchAll(Decl(kind), importedCode)));
    }
  }
}
