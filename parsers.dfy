/** The seven route parsers of src/scan/react/parsers.ts. Each one reads a
    file's text and writes routes into the shared map with `routes.set(path,
    route)`; its effect is stated as the sequence of routes it writes, in
    order, so that the map afterwards is `PutAll` of the map before. */
module Parsers {
  import opened JsText
  import opened Patterns
  import opened Routes
  import opened Extractors
  import opened FileUtils

  // ----------------------------------------------- route arrays, shared step

  /** The routes one route-array text yields: every match of `p` in it that
      has a non-empty `path: "…"` value, with tags looked up in `tagSource`
      and children in the array text itself. */
  function ArrayRoutes(tagSource: string, p: Pattern, routeArray: string): seq<Route> {
    ObjectRoutes(tagSource, routeArray, MatchAll(p, routeArray), |routeArray| + 1)
  }

  /** The routes of a sequence of route-array texts, in order. */
  function TextsRoutes(tagSource: string, p: Pattern, texts: seq<string>): seq<Route>
    decreases |texts|
  {
    if texts == [] then []
    else
      TextsRoutes(tagSource, p, texts[..|texts| - 1]) + TextRoutes(tagSource, p, texts[|texts| - 1])
  }

  /** An empty text (a failed or empty capture, JavaScript's falsy value) yields no routes. */
  function TextRoutes(tagSource: string, p: Pattern, t: string): seq<Route> {
    if t == [] then [] else ArrayRoutes(tagSource, p, t)
  }

  /** The inner loop every parser repeats: `routeArray.match(p)`, and for each
      object with a path value, `routes.set(path, { path, tags, children })`. */
  method SetArrayRoutes(tagSource: string, p: Pattern, routeArray: string, routes: RouteMap)
    modifies routes
    ensures routes.State() == PutAll(old(routes.State()), ArrayRoutes(tagSource, p, routeArray))
  {
    var objs := MatchAll(p, routeArray);
    SetObjectRoutes(tagSource, routeArray, objs, |routeArray| + 1, routes);
  }

  /** `if (routeArray)` around the inner loop. */
  method SetTextRoutes(tagSource: string, p: Pattern, routeArray: string, routes: RouteMap)
    modifies routes
    ensures routes.State() == PutAll(old(routes.State()), TextRoutes(tagSource, p, routeArray))
  {
    if routeArray != [] {
      SetArrayRoutes(tagSource, p, routeArray, routes);
    }
  }

  /** The loop over the object texts of one route array. */
  method SetObjectRoutes(tagSource: string, routeArray: string, objs: seq<string>, ghost bound: nat, routes: RouteMap)
    requires forall j :: 0 <= j < |objs| ==> |objs[j]| < bound
    modifies routes
    ensures routes.State() == PutAll(old(routes.State()), ObjectRoutes(tagSource, routeArray, objs, bound))
  {
    ghost var st0 := routes.State();
    var k := 0;
    while k < |objs|
      invariant 0 <= k <= |objs|
      invariant routes.State() == PutAll(st0, ObjectRoutes(tagSource, routeArray, objs[..k], bound))
    {
      ObjectRoutesStep(st0, tagSource, routeArray, objs, k, bound);
      SetObjectRoute(tagSource, routeArray, objs[k], bound, routes);
      k := k + 1;
    }
    assert objs[..k] == objs;
  }

  /** One object text: `routes.set(path, …)` when it yields a route. */
  method SetObjectRoute(tagSource: string, routeArray: string, obj: string, ghost bound: nat, routes: RouteMap)
    requires |obj| < bound
    modifies routes
    ensures routes.State() == PutAll(old(routes.State()), ObjectRoutes(tagSource, routeArray, [obj], bound))
  {
    ghost var st := routes.State();
    var kid := ExtractObjectRoute(tagSource, routeArray, obj, bound);
    PutAllStep(st, [], kid);
    assert [] + kid == kid;
    if kid != [] {
      routes.Set(kid[0].path, kid[0]);
    }
  }

  /** One turn of the loop over object texts, on the map. */
  lemma ObjectRoutesStep(st: Store, tagSource: string, context: string, objs: seq<string>, k: nat, bound: nat)
    requires k < |objs| && forall j :: 0 <= j < |objs| ==> |objs[j]| < bound
    ensures PutAll(st, ObjectRoutes(tagSource, context, objs[..k + 1], bound))
      == PutAll(PutAll(st, ObjectRoutes(tagSource, context, objs[..k], bound)), ObjectRoutes(tagSource, context, [objs[k]], bound))
  {
    ObjectRoutesSnoc(tagSource, context, objs, k, bound);
    PutAllAppend(st, ObjectRoutes(tagSource, context, objs[..k], bound), ObjectRoutes(tagSource, context, [objs[k]], bound));
  }

  /** The outer loop over route-array texts, skipping the empty ones. */
  method SetTextsRoutes(tagSource: string, p: Pattern, texts: seq<string>, routes: RouteMap)
    modifies routes
    ensures routes.State() == PutAll(old(routes.State()), TextsRoutes(tagSource, p, texts))
  {
    ghost var st0 := routes.State();
    var k := 0;
    while k < |texts|
      invariant 0 <= k <= |texts|
      invariant routes.State() == PutAll(st0, TextsRoutes(tagSource, p, texts[..k]))
    {
      TextsRoutesStep(st0, tagSource, p, texts, k);
      SetTextRoutes(tagSource, p, texts[k], routes);
      k := k + 1;
    }
    assert texts[..k] == texts;
  }

  lemma ObjectRoutesSnoc(tagSource: string, context: string, objs: seq<string>, k: nat, bound: nat)
    requires k < |objs| && forall j :: 0 <= j < |objs| ==> |objs[j]| < bound
    ensures ObjectRoutes(tagSource, context, objs[..k + 1], bound)
      == ObjectRoutes(tagSource, context, objs[..k], bound) + ObjectRoutes(tagSource, context, [objs[k]], bound)
  {
    assert objs[..k + 1][..k] == objs[..k];
    assert [objs[k]][..0] == [];
  }

  lemma TextsRoutesSnoc(tagSource: string, p: Pattern, texts: seq<string>, k: nat)
    requires k < |texts|
    ensures TextsRoutes(tagSource, p, texts[..k + 1]) == TextsRoutes(tagSource, p, texts[..k]) + TextRoutes(tagSource, p, texts[k])
  {
    assert texts[..k + 1][..k] == texts[..k];
  }

  /** One turn of the loop over array texts, on the map. */
  lemma TextsRoutesStep(st: Store, tagSource: string, p: Pattern, texts: seq<string>, k: nat)
    requires k < |texts|
    ensures PutAll(st, TextsRoutes(tagSource, p, texts[..k + 1]))
      == PutAll(PutAll(st, TextsRoutes(tagSource, p, texts[..k])), TextRoutes(tagSource, p, texts[k]))
  {
    TextsRoutesSnoc(tagSource, p, texts, k);
    PutAllAppend(st, TextsRoutes(tagSource, p, texts[..k]), TextRoutes(tagSource, p, texts[k]));
  }

  // ------------------------------------------------------- exported routes

  /** `match.match(/\[([\s\S]*?)\]/)?.[1]`: the text between the first `[`
      and the next `]`, or nothing. */
  function BracketGroup(decl: string): (g: string)
    ensures |g| <= |decl|
    ensures Match(Bracket, decl).None? ==> g == []
  {
    match Match(Bracket, decl)
    case Some(b) =>
      AtSound(Bracket, decl, b.start);
      b.group
    case None => []
  }

  function BracketGroups(decls: seq<string>): (gs: seq<string>)
    ensures |gs| == |decls| && forall k :: 0 <= k < |decls| ==> gs[k] == BracketGroup(decls[k])
  {
    seq(|decls|, k requires 0 <= k < |decls| => BracketGroup(decls[k]))
  }

  /** The routes of the declarations of one kind in `code`, tags looked up in `tagSource`. */
  function DeclRoutes(tagSource: string, kind: DeclKind, code: string): seq<Route> {
    TextsRoutes(tagSource, RouteObjectPath, BracketGroups(MatchAll(Decl(kind), code)))
  }

  /** parsers.ts:8-58: `export const NAME = [ … ]` and `export default [ … ]` arrays. */
  function ExportedRoutes(code: string): seq<Route> {
    DeclRoutes(code, ExportConst, code) + DeclRoutes(code, ExportDefault, code)
  }

  method SetDeclRoutes(tagSource: string, kind: DeclKind, code: string, routes: RouteMap)
    modifies routes
    ensures routes.State() == PutAll(old(routes.State()), DeclRoutes(tagSource, kind, code))
  {
    var matches := MatchAll(Decl(kind), code);
    var routeArrays := BracketGroups(matches);
    SetTextsRoutes(tagSource, RouteObjectPath, routeArrays, routes);
  }

  /** `parseExportedRoutes`. */
  method ParseExportedRoutes(code: string, file: string, routes: RouteMap)
    modifies routes
    ensures routes.State() == PutAll(old(routes.State()), ExportedRoutes(code))
  {
    ghost var st0 := routes.State();
    SetDeclRoutes(code, ExportConst, code, routes);
    SetDeclRoutes(code, ExportDefault, code, routes);
    PutAllAppend(st0, DeclRoutes(code, ExportConst, code), DeclRoutes(code, ExportDefault, code));
  }

  // ------------------------------------------------------- imported routes

  /** The file an import statement names, when its `from '…'` specifier
      resolves (parsers.ts:65-69). */
  function ImportTarget(file: string, imp: string): Option<string> {
    match Match(FromClause, imp)
    case None => None
    case Some(f) => if f.group == [] then None else ResolveImportPath(file, f.group)
  }

  /** The routes one import brings in: the declarations of `kind` in the
      imported file, with tags looked up in that file; an unresolved
      specifier or a failed read (the caught error) brings none. */
  function ImportRoutes(fs: map<string, Entry>, file: string, kind: DeclKind, imp: string): seq<Route> {
    match ImportTarget(file, imp)
    case None => []
    case Some(target) =>
      match Read(fs, target)
      case None => []
      case Some(importedCode) => DeclRoutes(importedCode, kind, importedCode)
  }

  function ImportsRoutes(fs: map<string, Entry>, file: string, kind: DeclKind, imps: seq<string>): seq<Route>
    decreases |imps|
  {
    if imps == [] then []
    else ImportsRoutes(fs, file, kind, imps[..|imps| - 1]) + ImportRoutes(fs, file, kind, imps[|imps| - 1])
  }

  lemma ImportsRoutesSnoc(fs: map<string, Entry>, file: string, kind: DeclKind, imps: seq<string>, k: nat)
    requires k < |imps|
    ensures ImportsRoutes(fs, file, kind, imps[..k + 1]) == ImportsRoutes(fs, file, kind, imps[..k]) + ImportRoutes(fs, file, kind, imps[k])
  {
    assert imps[..k + 1][..k] == imps[..k];
  }

  /** One turn of the loop over imports, on the map. */
  lemma ImportsRoutesStep(st: Store, fs: map<string, Entry>, file: string, kind: DeclKind, imps: seq<string>, k: nat)
    requires k < |imps|
    ensures PutAll(st, ImportsRoutes(fs, file, kind, imps[..k + 1]))
      == PutAll(PutAll(st, ImportsRoutes(fs, file, kind, imps[..k])), ImportRoutes(fs, file, kind, imps[k]))
  {
    ImportsRoutesSnoc(fs, file, kind, imps, k);
    PutAllAppend(st, ImportsRoutes(fs, file, kind, imps[..k]), ImportRoutes(fs, file, kind, imps[k]));
  }

  /** parsers.ts:60-142: named imports bring in the imported file's
      `export const` arrays, default imports its `export default` arrays. */
  function ImportedRoutes(code: string, file: string, fs: map<string, Entry>): seq<Route> {
    ImportsRoutes(fs, file, ExportConst, MatchAll(ImportNamed, code))
      + ImportsRoutes(fs, file, ExportDefault, MatchAll(ImportDefault, code))
  }

  method SetImportsRoutes(fs: map<string, Entry>, file: string, kind: DeclKind, imps: seq<string>, routes: RouteMap)
    modifies routes
    ensures routes.State() == PutAll(old(routes.State()), ImportsRoutes(fs, file, kind, imps))
  {
    ghost var st0 := routes.State();
    var k := 0;
    while k < |imps|
      invariant 0 <= k <= |imps|
      invariant routes.State() == PutAll(st0, ImportsRoutes(fs, file, kind, imps[..k]))
    {
      ImportsRoutesStep(st0, fs, file, kind, imps, k);
      SetImportRoutes(fs, file, kind, imps[k], routes);
      k := k + 1;
    }
    assert imps[..k] == imps;
  }

  /** One import: resolve, read (a failed read is caught and skipped), and
      walk the imported file's declarations. */
  method SetImportRoutes(fs: map<string, Entry>, file: string, kind: DeclKind, imp: string, routes: RouteMap)
    modifies routes
    ensures routes.State() == PutAll(old(routes.State()), ImportRoutes(fs, file, kind, imp))
  {
    var importedFilePath := ImportTarget(file, imp);
    if importedFilePath.Some? {
      var importedCode := Read(fs, importedFilePath.value);
      if importedCode.Some? {
        SetDeclRoutes(importedCode.value, kind, importedCode.value, routes);
      }
    }
  }

  /** `parseImportedRoutes`. */
  method ParseImportedRoutes(code: string, file: string, fs: map<string, Entry>, routes: RouteMap)
    modifies routes
    ensures routes.State() == PutAll(old(routes.State()), ImportedRoutes(code, file, fs))
  {
    ghost var st0 := routes.State();
    var named := MatchAll(ImportNamed, code);
    SetImportsRoutes(fs, file, ExportConst, named, routes);
    var defaults := MatchAll(ImportDefault, code);
    SetImportsRoutes(fs, file, ExportDefault, defaults, routes);
    PutAllAppend(st0, ImportsRoutes(fs, file, ExportConst, named), ImportsRoutes(fs, file, ExportDefault, defaults));
  }

  // ------------------------------------------------------ Route components

  /** `elementMatch?.[1]?.trim()`: the trimmed `element={…}` text, if any. */
  function ElementOf(m: string): Option<string> {
    match Match(ElementProp, m)
    case Some(e) => Some(Trim(e.group))
    case None => None
  }

  /** The route one `<Route … path="…" …>` text yields: none when its
      `path="…"` value is empty; no children. */
  function ComponentRoute(code: string, m: string): seq<Route> {
    match Match(PathProp, m)
    case Some(p) =>
      if p.group == [] then [] else [Route(Trim(p.group), ElementOf(m), Tags(code, m), None)]
    case None => []
  }

  /** Every `<Route>` text the scan finds has a `path="…"` value, so it
      yields no route exactly when that value is empty. */
  lemma ComponentRouteDropsOnlyEmptyPaths(code: string, m: string)
    requires m in MatchAll(RouteComponent, code)
    ensures Match(PathProp, m).Some?
    ensures ComponentRoute(code, m) == [] <==> Match(PathProp, m).value.group == []
  {
    RouteComponentHasPath(code);
  }

  function ComponentsRoutes(code: string, ms: seq<string>): seq<Route>
    decreases |ms|
  {
    if ms == [] then []
    else ComponentsRoutes(code, ms[..|ms| - 1]) + ComponentRoute(code, ms[|ms| - 1])
  }

  /** One turn of the loop over `<Route …>` texts, on the map. */
  lemma ComponentsRoutesStep(st: Store, code: string, ms: seq<string>, k: nat)
    requires k < |ms|
    ensures PutAll(st, ComponentsRoutes(code, ms[..k + 1]))
      == PutAll(PutAll(st, ComponentsRoutes(code, ms[..k])), ComponentRoute(code, ms[k]))
  {
    assert ms[..k + 1][..k] == ms[..k];
    PutAllAppend(st, ComponentsRoutes(code, ms[..k]), ComponentRoute(code, ms[k]));
  }

  /** parsers.ts:144-163. */
  function ComponentRoutes(code: string): seq<Route> {
    ComponentsRoutes(code, MatchAll(RouteComponent, code))
  }

  /** The loop body of parsers.ts:148-161 for one `<Route …>` text. */
  method SetComponentRoute(code: string, m: string, routes: RouteMap)
    modifies routes
    ensures routes.State() == PutAll(old(routes.State()), ComponentRoute(code, m))
  {
    var pathMatch := Match(PathProp, m);
    if pathMatch.Some? && pathMatch.value.group != [] {
      var path := Trim(pathMatch.value.group);
      var component := ElementOf(m);
      var tags := ExtractTags(code, m);
      ghost var st0 := routes.State();
      routes.Set(path, Route(path, component, tags, None));
      PutAllStep(st0, [], [Route(path, component, tags, None)]);
    }
  }

  /** `parseRouteComponents`. */
  method ParseRouteComponents(code: string, routes: RouteMap)
    modifies routes
    ensures routes.State() == PutAll(old(routes.State()), ComponentRoutes(code))
  {
    ghost var st0 := routes.State();
    var routeMatches := MatchAll(RouteComponent, code);
    var k := 0;
    while k < |routeMatches|
      invariant 0 <= k <= |routeMatches|
      invariant routes.State() == PutAll(st0, ComponentsRoutes(code, routeMatches[..k]))
    {
      ComponentsRoutesStep(st0, code, routeMatches, k);
      SetComponentRoute(code, routeMatches[k], routes);
      k := k + 1;
    }
    assert routeMatches[..k] == routeMatches;
  }

  // ------------------------------------ route constants and RouteObject arrays

  /** `match[2]` on a match TEXT: its third character, not a capture group. */
  function ThirdChar(m: string): (r: string)
    ensures |r| <= 1
  {
    if |m| > 2 then [m[2]] else []
  }

  function ThirdChars(ms: seq<string>): (rs: seq<string>)
    ensures |rs| == |ms| && forall k :: 0 <= k < |ms| ==> rs[k] == ThirdChar(ms[k])
  {
    seq(|ms|, k requires 0 <= k < |ms| => ThirdChar(ms[k]))
  }

  /** parsers.ts:165-199: route objects looked for in the third character of
      each `const NAME = [ … ]` match. */
  function ConstantRoutes(code: string): seq<Route> {
    TextsRoutes(code, RouteObject, ThirdChars(MatchAll(Decl(Plain), code)))
  }

  /** The declarations parsers.ts:201-254 walks: the `: RouteObject[]` typed
      ones when there are any, the untyped ones otherwise. */
  function ObjectPatternMatches(code: string): seq<string> {
    var typed := MatchAll(Decl(TypedRouteObject), code);
    if typed != [] then typed else MatchAll(Decl(Plain), code)
  }

  /** parsers.ts:201-254: like the constants pass, over `ObjectPatternMatches`. */
  function ObjectPatternRoutes(code: string): seq<Route> {
    TextsRoutes(code, RouteObjectPath, ThirdChars(ObjectPatternMatches(code)))
  }

  /** `parseRouteConstants`. */
  method ParseRouteConstants(code: string, routes: RouteMap)
    modifies routes
    ensures routes.State() == PutAll(old(routes.State()), ConstantRoutes(code))
  {
    var constMatches := MatchAll(Decl(Plain), code);
    var routeArrays := ThirdChars(constMatches);
    SetTextsRoutes(code, RouteObject, routeArrays, routes);
  }

  /** `parseRouteObjectPatterns`. */
  method ParseRouteObjectPatterns(code: string, routes: RouteMap)
    modifies routes
    ensures routes.State() == PutAll(old(routes.State()), ObjectPatternRoutes(code))
  {
    var routeObjectArrayMatch := MatchAll(Decl(TypedRouteObject), code);
    var routeObjectConstMatch := MatchAll(Decl(Plain), code);
    var routeObjectMatches := if routeObjectArrayMatch != [] then routeObjectArrayMatch else routeObjectConstMatch;
    var routeArrays := ThirdChars(routeObjectMatches);
    SetTextsRoutes(code, RouteObjectPath, routeArrays, routes);
  }

  /** Texts of at most one character hold no route object. */
  lemma {:induction false} CharTextsHaveNoRoutes(code: string, p: Pattern, texts: seq<string>)
    requires p == RouteObject || p == RouteObjectPath
    requires forall k :: 0 <= k < |texts| ==> |texts[k]| <= 1
    ensures TextsRoutes(code, p, texts) == []
    decreases |texts|
  {
    if texts != [] {
      CharTextsHaveNoRoutes(code, p, texts[..|texts| - 1]);
      ShortTextHasNoRouteObject(texts[|texts| - 1]);
    }
  }

  /** The constants pass never writes: one character cannot hold a route object. */
  lemma ConstantsNeverWrite(code: string)
    ensures ConstantRoutes(code) == []
  {
    CharTextsHaveNoRoutes(code, RouteObject, ThirdChars(MatchAll(Decl(Plain), code)));
  }

  /** Nor does the `RouteObject` pass, for the same reason. */
  lemma ObjectPatternsNeverWrite(code: string)
    ensures ObjectPatternRoutes(code) == []
  {
    CharTextsHaveNoRoutes(code, RouteObjectPath, ThirdChars(ObjectPatternMatches(code)));
  }

  // ------------------------------------------------------------ routes.tsx

  /** The third `: RoutesObject[]` declaration's whole text, when the file
      declares a `type RoutesObject` (`routesConstMatch?.[2]` indexes the
      list of match texts of a global pattern). */
  function TypedRoutesArray(code: string): string {
    if Match(RoutesObjectType, code).None? then []
    else
      var decls := MatchAll(Decl(TypedRoutesObject), code);
      if |decls| > 2 then decls[2] else []
  }

  /** parsers.ts:256-318: only in a file whose name ends with `routes.tsx`;
      each `const NAME = [ … ]` match is searched, and is the children
      context, as a whole; then the typed array above. */
  function RoutesFileRoutes(code: string, file: string): seq<Route> {
    if !EndsWith(file, "routes.tsx") then []
    else
      TextsRoutes(code, RouteObject, MatchAll(Decl(Plain), code))
        + TextsRoutes(code, RouteObject, [TypedRoutesArray(code)])
  }

  /** `parseRoutesFile`. */
  method ParseRoutesFile(code: string, file: string, routes: RouteMap)
    modifies routes
    ensures routes.State() == PutAll(old(routes.State()), RoutesFileRoutes(code, file))
  {
    if EndsWith(file, "routes.tsx") {
      ghost var st0 := routes.State();
      var simpleRoutesMatch := MatchAll(Decl(Plain), code);
      SetTextsRoutes(code, RouteObject, simpleRoutesMatch, routes);
      ghost var simple := TextsRoutes(code, RouteObject, simpleRoutesMatch);
      var routesArray := TypedRoutesArray(code);
      SetTextsRoutes(code, RouteObject, [routesArray], routes);
      PutAllAppend(st0, simple, TextsRoutes(code, RouteObject, [routesArray]));
    }
  }

  /** No file but a `routes.tsx` one gets routes from this pass. */
  lemma RoutesFileOnly(code: string, file: string)
    ensures RoutesFileRoutes(code, file) != [] ==> EndsWith(file, "routes.tsx")
  {
  }

  /** The typed branch reads nothing unless there are at least three typed declarations. */
  lemma TypedBranchNeedsThree(code: string)
    requires |MatchAll(Decl(TypedRoutesObject), code)| < 3
    ensures TextsRoutes(code, RouteObject, [TypedRoutesArray(code)]) == []
  {
    assert [TypedRoutesArray(code)][..0] == [];
  }

  // ------------------------------------------------------- router providers

  /** What `parseRouterProviders` throws: reading `routerMatch[1]` of a
      one-element list gives `undefined`, whose `.match` is a `TypeError`;
      with two or more calls, the `new RegExp` on parsers.ts:348 is given a
      pattern with an unmatched `)` and throws a `SyntaxError`. */
  datatype Thrown = TypeError | SyntaxError

  const Providers: seq<Pattern> := [RouterProvider, RoutingProvider]
  const Builders: seq<Builder> := [CreateHashRouter, CreateBrowserRouter, CreateMemoryRouter, CreateRoutesFromElements]

  /** How many calls of builder `b` the router content holds (`routerContent.match(createX)`). */
  function CallCount(content: string, b: Builder): nat {
    |MatchAll(Create(b), content)|
  }

  /** The first builder in `bs` that the content calls decides the throw. */
  function ContentOutcome(content: string, bs: seq<Builder>): Option<Thrown>
    decreases |bs|
  {
    if bs == [] then None
    else if CallCount(content, bs[0]) == 0 then ContentOutcome(content, bs[1..])
    else if CallCount(content, bs[0]) == 1 then Some(TypeError)
    else Some(SyntaxError)
  }

  /** `match.match(/{([^}]+)}/)?.[1]`: the text inside the first braces, or nothing. */
  function RouterContent(m: string): string {
    match Match(Braces, m)
    case Some(h) => h.group
    case None => []
  }

  function RouterContents(ms: seq<string>): (cs: seq<string>)
    ensures |cs| == |ms| && forall k :: 0 <= k < |ms| ==> cs[k] == RouterContent(ms[k])
  {
    seq(|ms|, k requires 0 <= k < |ms| => RouterContent(ms[k]))
  }

  /** The router contents of one provider pattern's matches, in order; an
      empty content is skipped (`if (routerContent)`). */
  function ContentsOutcome(cs: seq<string>, bs: seq<Builder>): Option<Thrown>
    decreases |cs|
  {
    if cs == [] then None
    else
      var o := if cs[0] == [] then None else ContentOutcome(cs[0], bs);
      if o.Some? then o else ContentsOutcome(cs[1..], bs)
  }

  /** The provider patterns `ps` in order: the first one whose matches throw decides. */
  function PatternsOutcome(code: string, ps: seq<Pattern>): Option<Thrown>
    decreases |ps|
  {
    if ps == [] then None
    else
      var o := ContentsOutcome(RouterContents(MatchAll(ps[0], code)), Builders);
      if o.Some? then o else PatternsOutcome(code, ps[1..])
  }

  /** parsers.ts:320-429: `None` when the pass returns normally. */
  function ProvidersOutcome(code: string): Option<Thrown> {
    PatternsOutcome(code, Providers)
  }

  /** `parseRouterProviders`. It has no `modifies` clause: the map is never
      written, since every path towards a `routes.set` throws first. */
  method ParseRouterProviders(code: string, file: string, routes: RouteMap) returns (thrown: Option<Thrown>)
    ensures thrown == ProvidersOutcome(code)
  {
    var i := 0;
    while i < |Providers|
      invariant 0 <= i <= |Providers|
      invariant PatternsOutcome(code, Providers[i..]) == ProvidersOutcome(code)
    {
      var providerMatches := MatchAll(Providers[i], code);
      thrown := ScanProviderMatches(providerMatches);
      if thrown.Some? {
        return;
      }
      assert Providers[i..][1..] == Providers[i + 1..];
      i := i + 1;
    }
    thrown := None;
  }

  /** The loop over one provider pattern's matches. */
  method ScanProviderMatches(ms: seq<string>) returns (thrown: Option<Thrown>)
    ensures thrown == ContentsOutcome(RouterContents(ms), Builders)
  {
    ghost var cs := RouterContents(ms);
    var k := 0;
    while k < |ms|
      invariant 0 <= k <= |ms|
      invariant ContentsOutcome(cs[k..], Builders) == ContentsOutcome(cs, Builders)
    {
      ContentsOutcomeStep(cs, Builders, k);
      var routerContent := RouterContent(ms[k]);
      if routerContent != [] {
        thrown := ScanBuilders(routerContent);
        if thrown.Some? {
          return;
        }
      }
      k := k + 1;
    }
    thrown := None;
  }

  /** One turn of the loop over the router contents. */
  lemma ContentsOutcomeStep(cs: seq<string>, bs: seq<Builder>, k: nat)
    requires k < |cs|
    ensures ContentsOutcome(cs[k..], bs)
      == if cs[k] != [] && ContentOutcome(cs[k], bs).Some? then ContentOutcome(cs[k], bs) else ContentsOutcome(cs[k + 1..], bs)
  {
    assert cs[k..][1..] == cs[k + 1..];
  }

  /** The loop over the four builders for one router content. */
  method ScanBuilders(routerContent: string) returns (thrown: Option<Thrown>)
    ensures thrown == ContentOutcome(routerContent, Builders)
  {
    var j := 0;
    while j < |Builders|
      invariant 0 <= j <= |Builders|
      invariant ContentOutcome(routerContent, Builders[j..]) == ContentOutcome(routerContent, Builders)
    {
      var routerMatch := MatchAll(Create(Builders[j]), routerContent);
      if |routerMatch| == 1 {
        return Some(TypeError);
      } else if |routerMatch| > 1 {
        return Some(SyntaxError);
      }
      assert Builders[j..][1..] == Builders[j + 1..];
      j := j + 1;
    }
    thrown := None;
  }

  /** A content that calls none of the builders throws nothing, and conversely. */
  lemma {:induction false} NoCallsNoThrow(content: string, bs: seq<Builder>)
    ensures ContentOutcome(content, bs).None? <==> forall k :: 0 <= k < |bs| ==> CallCount(content, bs[k]) == 0
    decreases |bs|
  {
    if bs != [] {
      NoCallsNoThrow(content, bs[1..]);
      if CallCount(content, bs[0]) == 0 {
        assert ContentOutcome(content, bs) == ContentOutcome(content, bs[1..]);
        assert forall k :: 1 <= k < |bs| ==> bs[k] == bs[1..][k - 1];
      } else {
        assert ContentOutcome(content, bs).Some?;
      }
    }
  }

  /** `\s`-free at both ends: what `trim()` returns. */
  predicate Trimmed(t: string) {
    t == [] || (!IsSpace(t[0]) && !IsSpace(t[|t| - 1]))
  }

  /** Every route built from route-object texts has a trimmed path and no component. */
  lemma {:induction false} ObjectRoutesShape(tagSource: string, context: string, objs: seq<string>, bound: nat)
    requires forall k :: 0 <= k < |objs| ==> |objs[k]| < bound
    ensures forall r :: r in ObjectRoutes(tagSource, context, objs, bound) ==> Trimmed(r.path) && r.component == None
    decreases |objs|
  {
    if objs != [] {
      ObjectRoutesShape(tagSource, context, objs[..|objs| - 1], bound);
      var last := objs[|objs| - 1];
      match Match(ObjectPath, last)
      case Some(p) =>
      case None =>
    }
  }

  /** The same for the routes of any sequence of route-array texts. */
  lemma {:induction false} TextsRoutesShape(tagSource: string, p: Pattern, texts: seq<string>)
    ensures forall r :: r in TextsRoutes(tagSource, p, texts) ==> Trimmed(r.path) && r.component == None
    decreases |texts|
  {
    if texts != [] {
      TextsRoutesShape(tagSource, p, texts[..|texts| - 1]);
      TextRoutesShape(tagSource, p, texts[|texts| - 1]);
    }
  }

  lemma TextRoutesShape(tagSource: string, p: Pattern, t: string)
    ensures forall r :: r in TextRoutes(tagSource, p, t) ==> Trimmed(r.path) && r.component == None
  {
    if t != [] {
      ObjectRoutesShape(tagSource, t, MatchAll(p, t), |t| + 1);
    }
  }

  /** A `<Route>` component route has a trimmed path, a trimmed component if
      any, and never children. */
  lemma {:induction false} ComponentsRoutesShape(code: string, ms: seq<string>)
    ensures forall r :: r in ComponentsRoutes(code, ms) ==>
      Trimmed(r.path) && r.children == None && (r.component.Some? ==> Trimmed(r.component.value))
    decreases |ms|
  {
    if ms != [] {
      ComponentsRoutesShape(code, ms[..|ms| - 1]);
    }
  }

  /** The content calls some builder. */
  ghost predicate CallsBuilder(content: string) {
    exists b: Builder :: CallCount(content, b) > 0
  }

  /** A content throws exactly when it calls a builder; the `TypeError` comes
      from a builder called once, the `SyntaxError` from one called twice or more. */
  lemma ContentThrowsIffCall(content: string)
    ensures ContentOutcome(content, Builders).Some? <==> CallsBuilder(content)
    ensures ContentOutcome(content, Builders) == Some(TypeError) ==> exists b :: CallCount(content, b) == 1
    ensures ContentOutcome(content, Builders) == Some(SyntaxError) ==> exists b :: CallCount(content, b) >= 2
  {
    NoCallsNoThrow(content, Builders);
    CallsListedBuilder(content);
    FirstCallDecides(content, Builders);
  }

  /** `Builders` lists every builder. */
  lemma CallsListedBuilder(content: string)
    ensures CallsBuilder(content) <==> !forall k :: 0 <= k < |Builders| ==> CallCount(content, Builders[k]) == 0
  {
    if CallsBuilder(content) {
      var b: Builder :| CallCount(content, b) > 0;
      assert b == Builders[0] || b == Builders[1] || b == Builders[2] || b == Builders[3];
    }
  }

  lemma {:induction false} FirstCallDecides(content: string, bs: seq<Builder>)
    ensures ContentOutcome(content, bs) == Some(TypeError) ==> exists b :: b in bs && CallCount(content, b) == 1
    ensures ContentOutcome(content, bs) == Some(SyntaxError) ==> exists b :: b in bs && CallCount(content, b) >= 2
    decreases |bs|
  {
    if bs != [] && CallCount(content, bs[0]) == 0 {
      FirstCallDecides(content, bs[1..]);
      assert forall b :: b in bs[1..] ==> b in bs;
    }
  }

  /** An empty text holds no builder call. */
  lemma EmptyContentCallsNothing()
    ensures !CallsBuilder([])
  {
  }

  /** Some content in the list calls a builder. */
  ghost predicate AnyCalls(cs: seq<string>) {
    exists k :: 0 <= k < |cs| && CallsBuilder(cs[k])
  }

  /** The content throws on its own. */
  predicate Throws(c: string, bs: seq<Builder>) {
    c != [] && ContentOutcome(c, bs).Some?
  }

  /** A list of router contents throws exactly when one of them does. */
  lemma {:induction false} ContentsThrowIffOneThrows(cs: seq<string>, bs: seq<Builder>)
    ensures ContentsOutcome(cs, bs).Some? <==> exists k :: 0 <= k < |cs| && Throws(cs[k], bs)
    decreases |cs|
  {
    if cs != [] {
      var rest := cs[1..];
      ContentsThrowIffOneThrows(rest, bs);
      if !Throws(cs[0], bs) {
        assert ContentsOutcome(cs, bs) == ContentsOutcome(rest, bs);
        if exists k :: 0 <= k < |cs| && Throws(cs[k], bs) {
          var k :| 0 <= k < |cs| && Throws(cs[k], bs);
          assert rest[k - 1] == cs[k];
        }
        if exists k :: 0 <= k < |rest| && Throws(rest[k], bs) {
          var k :| 0 <= k < |rest| && Throws(rest[k], bs);
          assert cs[k + 1] == rest[k];
        }
      } else {
        assert ContentsOutcome(cs, bs) == ContentOutcome(cs[0], bs);
        assert 0 < |cs| && Throws(cs[0], bs);
      }
    }
  }

  /** A list of router contents throws exactly when one of them calls a builder. */
  lemma ContentsThrowIffCall(cs: seq<string>)
    ensures ContentsOutcome(cs, Builders).Some? <==> AnyCalls(cs)
  {
    ContentsThrowIffOneThrows(cs, Builders);
    EmptyContentCallsNothing();
    forall k | 0 <= k < |cs|
      ensures Throws(cs[k], Builders) <==> CallsBuilder(cs[k])
    {
      ContentThrowsIffCall(cs[k]);
    }
  }

  /** A provider pattern whose matches include one whose braces call a builder. */
  ghost predicate PatternCalls(code: string, p: Pattern) {
    AnyCalls(RouterContents(MatchAll(p, code)))
  }

  /** The first provider pattern throws exactly when its matches call a builder. */
  lemma PatternsOutcomeStep(code: string, ps: seq<Pattern>)
    requires ps != []
    ensures PatternsOutcome(code, ps).Some? <==> PatternCalls(code, ps[0]) || PatternsOutcome(code, ps[1..]).Some?
  {
    ContentsThrowIffCall(RouterContents(MatchAll(ps[0], code)));
  }

  /** `parseRouterProviders` throws exactly when a `<RouterProvider router={…}>`
      or `<RoutingProvider routes={…}>` tag's braces call one of the four
      router builders; otherwise it returns having written nothing. */
  lemma ProvidersThrowIffBuilderCall(code: string)
    ensures ProvidersOutcome(code).Some? <==> PatternCalls(code, RouterProvider) || PatternCalls(code, RoutingProvider)
  {
    assert Providers[1..] == [RoutingProvider] && Providers[1..][1..] == [];
    PatternsOutcomeStep(code, Providers);
    PatternsOutcomeStep(code, Providers[1..]);
  }
}
