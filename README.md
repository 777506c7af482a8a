# create-ai-e2e route discovery and spec generation, in Dafny

`create-ai-e2e` writes one Playwright smoke test per page of a front-end
application. It never runs or compiles the application. It finds the pages
by reading the source text, and this project models that core:

- **Full React scanner** (`src/scan/react/index.ts` and its helpers). Each
  listed file is stat'ed and read. Seven parsers then run on it in a fixed
  order and write `Route` records into one `Map<string, Route>`, keyed by
  path. The parsers look for:
  - exported route arrays;
  - the arrays of imported modules;
  - `<Route path=…>` elements;
  - local route constants;
  - `RouteObject[]` arrays;
  - `<RouterProvider>` / `<RoutingProvider>` builder calls;
  - `routes.tsx` files.

  The result is the map's values in key-insertion order. Two helpers do
  shared work: tags come from `// @tags a, b` comments above a declaration,
  and `children: [...]` blocks become child routes.
- **Simple React scanner** (`src/scan/react.ts`). It matches only
  `<Route … path="…">` elements and collects the trimmed paths in an
  insertion-ordered set.
- **Vue scanner** (`src/scan/vue.ts`). It collects the `to` targets of
  `<router-link>` in component templates, then the string `path`
  properties of the router modules. It keeps the non-empty ones that do
  not start with `:`.
- **Test generation** (`src/gen.ts`, `src/gen/testTemplate.ts`). For each
  route it writes `tests/<slug>.spec.ts`. The spec may carry extra
  assertions from the first AI provider that does not throw, tried in the
  order Claude, OpenAI, Hugging Face.

The model follows the code's shape. Code that updates objects in place is
imperative Dafny:
- the route `Map` is the class `Routes.RouteMap`;
- the `Set` is `PathSets.PathSet`;
- the `tests/` directory is `Gen.TestsDir`.

Each parser, scanner and generator is a method with a loop. Its `ensures`
ties the new state to a specification function of the old state and the
input, for example `routes.State() == PutAll(old(routes.State()), ExportedRoutes(code))`.
Lemmas then prove what those functions promise: last write wins,
first-write order, set semantics, the tag and children rules, the throw
conditions of the provider pass, the spec file's line layout, and how file
names collide.

There is no regular-expression library here. Each regex the core uses is
written as a scanner in `Patterns`, and each scanner returns the match
JavaScript's backtracking matcher finds:
- `Patterns.At(p, s, i)` is the match of `p` that starts exactly at `i`;
- `Search` is the leftmost match (`match` without the `g` flag);
- `All` and `MatchAll` are the successive matches of a `g` search.

## Where the model follows the code as written

- **Constants and RouteObject passes.** `parseRouteConstants` and
  `parseRouteObjectPatterns` take the match TEXT and read `match[2]` from it
  (parsers.ts:175, 227). That is the third character of the text, not a
  capture group. A route object does not fit in one character, so neither
  pass ever writes a route: `Parsers.ConstantsNeverWrite`,
  `Parsers.ObjectPatternsNeverWrite`. A plain `const routes = [...]` file
  therefore only yields routes when its name ends in `routes.tsx`, through
  `parseRoutesFile`.
- **Typed `RoutesObject[]` branch.** This branch of `parseRoutesFile` reads
  `routesConstMatch?.[2]`, which is the third typed declaration's whole text
  (parsers.ts:294).
- **Exceptions in `parseRouterProviders`.**
  - A builder call that matches once leaves `routerMatch[1]` undefined, and
    reading it throws a `TypeError`.
  - A builder call that matches two or more times builds a `RegExp` from a
    template literal (parsers.ts:348). Cooking the template turns `\s`, `\[`
    and `\]` into `s`, `[` and `]`, so the pattern ends in `[(([sS]*?)]`.
    Both `(` fall inside the character class `[(([sS]`, and the `)` after
    `*?` has no partner. The constructor throws a `SyntaxError`.
  - Either exception is caught per file (index.ts:95-97), so the
    `routes.tsx` pass after it does not run. What the earlier passes wrote
    stays.
- **Empty paths.** A path is the trimmed `path: "…"` value. The full
  scanner stores it even when trimming leaves it empty; only the simple
  scanner drops empty paths.
- **File-name collisions.** Routes whose slugs coincide (`/about/team` and
  `/about_team`, `/` and `/home`) write the same spec file, and the later
  one wins.

## Model

| member | source | states |
|---|---|---|
| JsText.Trim | src/scan/react/parsers.ts:22 | `trim()` returns text with no whitespace at either end |
| JsText.TrimIsInfix | src/scan/react/parsers.ts:22 | `trim()` returns a contiguous piece of its input and drops only whitespace before and after that piece |
| JsText.TrimIdempotent | src/scan/react/parsers.ts:22 | trimming twice is trimming once |
| JsText.JoinSplit | src/scan/react/extractorUtils.ts:8 | joining the pieces of `split(c)` with `c` gives the original text back |
| JsText.SplitJoin | src/gen/testTemplate.ts:10 | splitting a join of `c`-free pieces on `c` gives the pieces back |
| JsText.SplitCount | src/scan/react/extractorUtils.ts:19 | `split(',')` yields one piece more than there are commas |
| JsText.LastIndexOf | src/scan/react/fileUtils.ts:8 | `lastIndexOf` finds the last occurrence, and -1 exactly when there is none |
| JsText.ReplaceAllChar | src/gen.ts:40 | `replace(/\//g, "_")` keeps the length, turns every `/` into `_` and leaves every other character as it is |
| Routes.Values | src/scan/react/index.ts:105 | `Array.from(map.values())` lists one value per key, in key-insertion order |
| Routes.PutAllValid | src/scan/react/index.ts:63-98 | any sequence of `set` calls keeps each key listed once and every route stored under its own path |
| Routes.PutAllLookup | src/scan/react/index.ts:63-98 | after the writes, a key holds the last route written under it; an unwritten key keeps its old presence and value |
| Routes.PutAllKeys | src/scan/react/index.ts:63-98 | a key is present after the writes iff it was present before or some route was written under it |
| Routes.PutAllFirstWriteOrder | src/scan/react/index.ts:63-105 | starting from an empty map, keys are ordered by the first time each was written |
| Routes.ValuesAreLastWrites | src/scan/react/index.ts:63-105 | the values of a map filled from empty hold each written path once, with its last write, in first-write order |
| Routes.RouteMap.constructor | src/scan/react/index.ts:63 | `new Map()` is empty |
| Routes.RouteMap.Set | src/scan/react/parsers.ts:25 | `map.set(path, route)` is `Put` on the abstract map state |
| Routes.RouteMap.ValuesInOrder | src/scan/react/index.ts:105 | returns the values in key-insertion order |
| Patterns.At | src/scan/react/patterns.ts:1-42 | a match found at `i` starts at `i`, ends inside the text, and its capture lies inside the matched text |
| Patterns.AtSound | src/scan/react/patterns.ts:1-42 | every match has its pattern's shape: the attribute inside the element, the quoted value closed by a quote, a declaration body closed by the first terminated `]`, and so on |
| Patterns.Search | src/scan/react/parsers.ts:14 | a non-`g` `match` returns a match of the pattern at or after the start position |
| Patterns.SearchIsLeftmost | src/scan/react/parsers.ts:14 | the match returned is the leftmost one, and none means the pattern matches nowhere |
| Patterns.All | src/scan/react/parsers.ts:10 | the matches of a `g` search are ordered and do not overlap, and there are none iff the non-`g` search finds none |
| Patterns.AllAreMatches | src/scan/react/parsers.ts:10 | each match of a `g` search is the pattern's match at its own start, with the pattern's shape |
| Patterns.AllMatchesCover | src/scan/react/parsers.ts:10 | every position where the matcher matches lies inside some hit of the `g` iteration, so the iteration skips only matches that start inside an earlier hit |
| Patterns.AllCoversEveryMatch | src/scan/react/parsers.ts:10 | every match of the pattern lies inside some match of its `g` search |
| Patterns.RouteComponentHasPath | src/scan/react/patterns.ts:3-4 | every text `routeComponent` matches holds a quoted `path=` attribute, so `pathProp` finds a match in it |
| Patterns.ElementHasPath | src/scan/react/patterns.ts:3-4 | a `<Route …>` element hit that captured a `path="…"` attribute holds a `pathProp` match |
| Patterns.QuotedAttrSlice | src/scan/react/patterns.ts:4 | a quoted attribute that ends inside a slice of the text is found in the slice, with the same value |
| Patterns.MatchAll | src/scan/react/parsers.ts:10 | `code.match(p)` with `g` returns the matched texts of those matches, in order |
| Patterns.TagElementAt | src/scan/react/patterns.ts:3 | an element match starts with `<`, optional whitespace and the tag name, has no `>` between the tag name and the captured attribute, and ends at the first `>` after the attribute |
| Patterns.PathAt | src/scan/react/patterns.ts:4 | the captured `path` value is delimited by quotes in the text |
| Patterns.ElementPropAt | src/scan/react/patterns.ts:5 | the captured `element={…}` content is non-empty and holds no `}` |
| Patterns.ClosingBracket | src/scan/react/patterns.ts:8 | the lazy body ends at the first `]` that is followed by optional whitespace and then `;` or the end of the text |
| Patterns.DeclAt | src/scan/react/patterns.ts:8 | an array-declaration match has the declaration's shape, with its body closed by that bracket |
| Patterns.RouteObjectAt | src/scan/react/patterns.ts:9 | a `{ path: "…"` match starts at a brace and ends at the quote that closes the path |
| Patterns.RouteObjectPathAt | src/scan/react/patterns.ts:41 | a route-object match extends that head to the first `}` after it |
| Patterns.CreateAt | src/scan/react/patterns.ts:16-19 | a builder-call match captures non-empty arguments |
| Patterns.RoutesObjectTypeAt | src/scan/react/patterns.ts:35 | a `type RoutesObject = {…}` match lies inside the text |
| Patterns.ImportNamedAt | src/scan/react/patterns.ts:28 | a named-import match lies inside the text |
| Patterns.ImportDefaultAt | src/scan/react/patterns.ts:29 | a default-import match lies inside the text |
| Patterns.FromClauseAt | src/scan/react/parsers.ts:66 | the captured import specifier is non-empty and holds no quote |
| Patterns.BracketAt | src/scan/react/parsers.ts:14 | the capture runs from just after the first `[` to the next `]` and holds no `]` |
| Patterns.BracesAt | src/scan/react/parsers.ts:332 | the captured router content is non-empty and holds no `}` |
| Patterns.ChildrenBlockAt | src/scan/react/extractorUtils.ts:32 | a `children: [` match captures the text up to the next `]` |
| Patterns.TagMarkerAt | src/scan/react/extractorUtils.ts:17 | an `@tags` payload is non-empty and stays on one line |
| Patterns.RouterLinkAt | src/scan/vue.ts:23 | a `<router-link>` target is non-empty and holds no quote |
| Patterns.QuoteFreeTextHasNoRouteObject | src/scan/react/patterns.ts:9 | a text without quotes holds no `{ path: "…"` object |
| Patterns.ShortTextHasNoRouteObject | src/scan/react/patterns.ts:9 | a text shorter than eight characters holds no route object of either pattern |
| Extractors.AnchorFrom | src/scan/react/extractorUtils.ts:9 | `findIndex` returns the first line containing the match, or reports that none does |
| Extractors.TagList | src/scan/react/extractorUtils.ts:19 | the tags are the comma-separated pieces of the payload, each trimmed |
| Extractors.TagListShape | src/scan/react/extractorUtils.ts:19 | a marker yields one tag more than it has commas, and each tag is trimmed and comma-free |
| Extractors.ExtractTags | src/scan/react/extractorUtils.ts:6-25 | `extractTags` returns the tags of the specification function `Tags` |
| Extractors.ScanLinesUp | src/scan/react/extractorUtils.ts:13-22 | the upward loop returns what the recursive `ScanUp` returns |
| Extractors.ScanUpNearestMarker | src/scan/react/extractorUtils.ts:13-22 | within an unbroken comment run above the declaration, the nearest `@tags` line wins; a code line stops the scan with no tags |
| Extractors.ScanUpNoMarker | src/scan/react/extractorUtils.ts:13-22 | comments without a marker all the way to the top give no tags |
| Extractors.MultiLineMatchHasNoTags | src/scan/react/extractorUtils.ts:8-11 | a match text spanning several lines is found on no line, so it gets no tags |
| Extractors.MarkerNeedsPayload | src/scan/react/extractorUtils.ts:17 | `@tags` followed by nothing but line breaks is not a marker (plain spaces are not enough: `\s+` gives one back to the payload) |
| Extractors.BareMarkerIsNoMarker | src/scan/react/extractorUtils.ts:14-21 | a comment line whose trimmed text ends in `@tags`, with no `@tags` before, is a comment without a marker, so the upward scan goes on past it |
| Extractors.Children | src/scan/react/extractorUtils.ts:30-52 | `extractChildren` returns `undefined` rather than an empty list |
| Extractors.ObjectRoute | src/scan/react/extractorUtils.ts:39-47 | one object text yields at most one child route |
| Extractors.ExtractChildren | src/scan/react/extractorUtils.ts:30-52 | the recursive method returns the specification function `Children` |
| Extractors.ExtractChildList | src/scan/react/extractorUtils.ts:38-48 | the loop over child objects returns the routes they build, in order |
| Extractors.ExtractObjectRoute | src/scan/react/extractorUtils.ts:39-47 | one child object yields at most one route, the one `ObjectRoutes` gives |
| Extractors.ChildObjectsAreShorter | src/scan/react/extractorUtils.ts:32-44 | each child object is shorter than the text it was found in, so the recursion terminates |
| Extractors.ObjectTextHasNoChildren | src/scan/react/extractorUtils.ts:36-44 | a child object's text ends at its path's closing quote, so any `children` block in it lies inside the quote-free path value and `extractChildren` finds no child route |
| Extractors.GrandchildrenAbsent | src/scan/react/extractorUtils.ts:44 | child routes never have children of their own: nesting stops after one level |
| FileUtils.DirOf | src/scan/react/fileUtils.ts:8 | the directory is the text before the last `/`, or empty without one |
| FileUtils.RootOf | src/scan/react/fileUtils.ts:15 | the root is a prefix of the file containing no `src/`, and is followed by `src/` whenever the file contains one; it is empty when the file contains none |
| FileUtils.Expand | src/scan/react/fileUtils.ts:9 | a replacement text without `$` is inserted unchanged |
| FileUtils.WithExtension | src/scan/react/fileUtils.ts:10 | `.tsx` is appended exactly when the path ends in neither `.tsx` nor `.ts` |
| FileUtils.WithExtensionIdempotent | src/scan/react/fileUtils.ts:10 | applying the extension step twice is applying it once |
| FileUtils.ResolveImportPath | src/scan/react/fileUtils.ts:4-24 | null iff the specifier starts with neither `.` nor `src/`; otherwise the path ends in `.tsx` or `.ts` |
| FileUtils.RelativeImport | src/scan/react/fileUtils.ts:7-11 | when the importing file's directory holds no `$`, a relative specifier resolves to that directory followed by the specifier without its leading `.` |
| FileUtils.DollarQuoteRepeatsSpecifier | src/scan/react/fileUtils.ts:9 | a `$'` in the directory is expanded by `replace` and repeats the rest of the specifier |
| FileUtils.SourceRootImport | src/scan/react/fileUtils.ts:14-17 | when the importing file's first `src/` is at `k`, a `src/` specifier resolves to the file's first `k` characters followed by the specifier, with the script extension added |
| FileUtils.SourceRootMissing | src/scan/react/fileUtils.ts:15-16 | an importing file with no `src/` in its path resolves `src/` specifiers to themselves |
| FileUtils.Read | src/scan/react/index.ts:67-74 | a read succeeds iff the path names a regular file whose text can be read |
| Parsers.SetArrayRoutes | src/scan/react/parsers.ts:17-28 | the inner loop writes the routes of every route object in one array text |
| Parsers.SetTextRoutes | src/scan/react/parsers.ts:15-29 | an empty array text writes nothing |
| Parsers.SetObjectRoutes | src/scan/react/parsers.ts:19-28 | the loop over object texts writes their routes in order |
| Parsers.SetObjectRoute | src/scan/react/parsers.ts:20-27 | one object text writes its route, or nothing |
| Parsers.SetTextsRoutes | src/scan/react/parsers.ts:13-31 | the outer loop writes the routes of each array text in order |
| Parsers.BracketGroup | src/scan/react/parsers.ts:14 | the array text is no longer than the declaration, and empty when there is no bracket |
| Parsers.SetDeclRoutes | src/scan/react/parsers.ts:10-32 | the routes of every declaration of one kind are written in order |
| Parsers.ParseExportedRoutes | src/scan/react/parsers.ts:8-58 | the map receives the routes of `export const` arrays, then those of `export default` arrays |
| Parsers.SetImportsRoutes | src/scan/react/parsers.ts:62-99 | each import's routes are written in import order |
| Parsers.SetImportRoutes | src/scan/react/parsers.ts:64-97 | an import that does not resolve, or whose file cannot be read, writes nothing |
| Parsers.ParseImportedRoutes | src/scan/react/parsers.ts:60-142 | named imports bring in the target's exported consts, then default imports bring in its default-exported arrays |
| Parsers.SetComponentRoute | src/scan/react/parsers.ts:148-161 | one `<Route>` element writes its path and its `element`, or nothing when it has no path value |
| Parsers.ParseRouteComponents | src/scan/react/parsers.ts:144-163 | the `<Route>` elements are written in text order |
| Parsers.ThirdChar | src/scan/react/parsers.ts:175 | `match[2]` on a match text is at most one character |
| Parsers.ParseRouteConstants | src/scan/react/parsers.ts:165-199 | the pass writes the routes `ConstantRoutes` gives |
| Parsers.ParseRouteObjectPatterns | src/scan/react/parsers.ts:201-254 | the pass writes the routes `ObjectPatternRoutes` gives |
| Parsers.CharTextsHaveNoRoutes | src/scan/react/parsers.ts:175-177 | texts of at most one character yield no routes |
| Parsers.ConstantsNeverWrite | src/scan/react/parsers.ts:165-199 | the constants pass writes nothing at all |
| Parsers.ObjectPatternsNeverWrite | src/scan/react/parsers.ts:201-254 | the `RouteObject[]` pass writes nothing at all |
| Parsers.ParseRoutesFile | src/scan/react/parsers.ts:256-318 | the pass writes the routes `RoutesFileRoutes` gives |
| Parsers.RoutesFileOnly | src/scan/react/parsers.ts:257 | only a file whose name ends in `routes.tsx` gets routes from this pass |
| Parsers.TypedBranchNeedsThree | src/scan/react/parsers.ts:290-316 | the typed branch yields nothing unless the file has at least three typed declarations |
| Parsers.ParseRouterProviders | src/scan/react/parsers.ts:320-429 | the pass writes nothing; it throws exactly what `ProvidersOutcome` says |
| Parsers.ScanProviderMatches | src/scan/react/parsers.ts:326-426 | the loop over one provider's matches throws at the first router content that throws |
| Parsers.ScanBuilders | src/scan/react/parsers.ts:334-422 | the loop over the four builders throws at the first builder the content calls |
| Parsers.NoCallsNoThrow | src/scan/react/parsers.ts:340-342 | a content throws nothing iff it calls none of the builders |
| Parsers.ContentThrowsIffCall | src/scan/react/parsers.ts:340-349 | a router content throws iff it calls a builder; a `TypeError` means one call and a `SyntaxError` means two or more |
| Parsers.FirstCallDecides | src/scan/react/parsers.ts:340-349 | the exception kind matches the call count of the builder that decided it |
| Parsers.CallsListedBuilder | src/scan/react/parsers.ts:334-339 | the four-builder list covers every builder |
| Parsers.ContentsThrowIffOneThrows | src/scan/react/parsers.ts:326-333 | a list of router contents throws iff one of them throws on its own |
| Parsers.ContentsThrowIffCall | src/scan/react/parsers.ts:326-349 | a list of router contents throws iff one of them calls a builder |
| Parsers.PatternsOutcomeStep | src/scan/react/parsers.ts:321-323 | the provider patterns throw iff the first one's matches call a builder or the rest throw |
| Parsers.ProvidersThrowIffBuilderCall | src/scan/react/parsers.ts:320-429 | the pass throws iff a `<RouterProvider>` or `<RoutingProvider>` match has braces that call a builder |
| Parsers.ObjectRoutesShape | src/scan/react/parsers.ts:20-24 | routes built from route objects have trimmed paths and no component |
| Parsers.TextsRoutesShape | src/scan/react/parsers.ts:13-31 | the same holds for the routes of any array texts |
| Parsers.ComponentRouteDropsOnlyEmptyPaths | src/scan/react/parsers.ts:144-161 | every `<Route>` text the scan finds has a `path="…"` value, so the "no path" branch never runs and a text writes no route exactly when that value is empty |
| Parsers.ComponentsRoutesShape | src/scan/react/parsers.ts:150-156 | a `<Route>` route has a trimmed path and, when present, a trimmed component (empty for `element={ }`) |
| ReactScan.ScanFile | src/scan/react/index.ts:74-93 | one file's passes write what `FileRoutes` gives, in the fixed order |
| ReactScan.ScanListed | src/scan/react/index.ts:66-97 | a listed path that is missing, not a file or unreadable writes nothing |
| ReactScan.ScanFiles | src/scan/react/index.ts:65-98 | the files are scanned in listing order into the one map |
| ReactScan.ScanReactRoutes | src/scan/react/index.ts:47-106 | `scanReact` returns `ScanResult` |
| ReactScan.ScanResultIsLastWritePerPath | src/scan/react/index.ts:63-105 | the result holds each written path once, with the last route written under it, in first-write order |
| ReactScan.MissingRootHasNoRoutes | src/scan/react/index.ts:51-54 | a missing root directory gives no routes |
| ReactScan.ProviderThrowSkipsRoutesFile | src/scan/react/index.ts:91-97 | when the provider pass throws, the file contributes only the exported, imported and component routes |
| ReactScan.ScanPathsTrimmed | src/scan/react/index.ts:65-98 | every path the scan writes is trimmed |
| ReactScan.ImportedPathsTrimmed | src/scan/react/parsers.ts:60-142 | every path an import brings in is trimmed |
| PathSets.Added | src/scan/react.ts:51 | after `set.add(x)` the members are the old ones and `x` |
| PathSets.PathSet.constructor | src/scan/react.ts:17 | a new set is empty |
| PathSets.PathSet.Add | src/scan/react.ts:51 | `add` leaves a member in place and appends a new string |
| PathSets.AddedAllAppend | src/scan/react.ts:23-55 | adding one batch after another is adding their concatenation |
| PathSets.AddedAllDistinct | src/scan/react.ts:17 | a set never holds a string twice |
| PathSets.AddedAllMembers | src/scan/react.ts:17 | the members are exactly the old ones and the added ones |
| PathSets.AddedAllExtends | src/scan/react.ts:57 | adding never moves or removes a member |
| PathSets.AddedAllFirstOccurrenceOrder | src/scan/react.ts:57 | `Array.from` lists the members in the order they were first added |
| SimpleReactScan.ScanReact | src/scan/react.ts:14-58 | the simple scanner returns `SimpleScanResult` |
| SimpleReactScan.AddListedPaths | src/scan/react.ts:24-54 | a path that cannot be stat'ed, is not a file or cannot be read adds nothing |
| SimpleReactScan.AddFilePaths | src/scan/react.ts:42-54 | one file's `<Route>` paths are added in match order |
| SimpleReactScan.AddRoutePaths | src/scan/react.ts:46-54 | the loop over `<Route>` texts adds their paths in order |
| SimpleReactScan.AddRoutePath | src/scan/react.ts:47-53 | one `<Route>` text adds its trimmed path unless it is empty |
| SimpleReactScan.RoutePathDropsOnlyBlankPaths | src/scan/react.ts:46-52 | every `<Route>` text the scan finds has a `path="…"` value, and contributes no path exactly when that value trims to nothing |
| SimpleReactScan.RoutePathsNonBlank | src/scan/react.ts:47-52 | every added path is non-empty and trimmed |
| SimpleReactScan.SimpleScanIsOrderedSet | src/scan/react.ts:14-58 | the result holds each found path exactly once, non-empty and trimmed, in first-found order |
| SimpleReactScan.RoutePathIsComponentKey | src/scan/react.ts:47-52 | the simple scanner keeps exactly the non-empty keys the full scanner's `<Route>` pass writes for the same text |
| VueScan.LinkTargets | src/scan/vue.ts:22-27 | the targets are the captures of the `<router-link … to="…"` matches, in order |
| VueScan.LinkTargetsAreQuoteFree | src/scan/vue.ts:23 | every link target is non-empty and holds no quote |
| VueScan.PropertyPath | src/scan/vue.ts:38-48 | a property contributes a path iff its key is `path` (identifier or string) and its value is a string literal |
| VueScan.KeptPaths | src/scan/vue.ts:54 | the final filter keeps exactly the non-empty paths that do not start with `:` |
| VueScan.KeptPathsAppend | src/scan/vue.ts:54 | filtering distributes over concatenation |
| VueScan.KeptPathsDistinct | src/scan/vue.ts:54 | filtering a list without repeats gives a list without repeats |
| VueScan.KeptPathsKeepOrder | src/scan/vue.ts:54 | the filter keeps the first-occurrence order of the paths it keeps |
| VueScan.ScanVue | src/scan/vue.ts:8-55 | `scanVue` returns `VueScanResult` |
| VueScan.AddTemplateTargets | src/scan/vue.ts:17-28 | the component loop fails iff some component cannot be read; otherwise it adds every template target in order |
| VueScan.AddFileTargets | src/scan/vue.ts:19-27 | a component without a template adds nothing |
| VueScan.AddEach | src/scan/vue.ts:25-27 | each captured target is added in match order |
| VueScan.AddConfigPaths | src/scan/vue.ts:30-51 | the router-file loop fails iff some file cannot be read or parsed; otherwise it adds every string `path` property in order |
| VueScan.AddPropertyPaths | src/scan/vue.ts:37-50 | the visitor adds each property's path in visiting order |
| VueScan.AddPropertyPath | src/scan/vue.ts:38-49 | one property adds its path when it has one |
| VueScan.VueScanIsFilteredSet | src/scan/vue.ts:8-55 | the scan rejects iff some file fails; otherwise it returns each kept path once, exactly the kept paths found, in first-insertion order |
| VueScan.TemplateTargetsComeFirst | src/scan/vue.ts:17-51 | template targets come before the paths found only in router files |
| TestTemplate.Indented | src/gen/testTemplate.ts:10 | every extra assertion gets the two-space indent |
| TestTemplate.IndentedJoin | src/gen/testTemplate.ts:10 | `join("\n  ")` after a leading indent puts each assertion on its own indented line |
| TestTemplate.SpecIsItsLines | src/gen/testTemplate.ts:1-12 | the spec text is its lines joined with newlines |
| TestTemplate.SpecLayout | src/gen/testTemplate.ts:1-12 | when neither the route, the selector nor any extra assertion holds a newline: read back line by line, the spec has the import, a blank line, the titled test, the `goto`, the visibility check, one line per extra assertion in order, and `});` |
| TestTemplate.DefaultSpecLayout | src/gen/testTemplate.ts:3-4 | when the route holds no newline: with the defaults the spec checks that `body` is visible, and the extra line holds only indentation |
| Gen.Enrich | src/gen.ts:44-68 | the nested `try`/`catch` returns the extra lines `Extra` gives |
| Gen.FirstAnswerIsFirstSuccess | src/gen.ts:44-68 | the extras are the lines of the first provider that does not throw, or none when all throw |
| Gen.ExtraFallsBack | src/gen.ts:44-68 | with AI off there are no extras; with it on, Claude, OpenAI and Hugging Face are tried in that order |
| Gen.SlugShape | src/gen.ts:38-40 | a slug other than `home` drops one leading `/`, holds no `/`, and differs from the route only where `/` became `_` |
| Gen.HomeSlug | src/gen.ts:38-41 | the route `/` is written to `home.spec.ts` |
| Gen.SpecFileNameShape | src/gen.ts:41 | every spec file lies directly in `tests/` and ends in `.spec.ts` |
| Gen.SlugsCollide | src/gen.ts:38-41 | different routes can share a spec file |
| Gen.TestsDir.constructor | src/gen.ts:30-33 | the directory model starts with the given presence and files |
| Gen.TestsDir.Write | src/gen.ts:72 | `writeFileSync` creates or overwrites exactly one file |
| Gen.GenTests | src/gen.ts:29-74 | afterwards `tests/` exists and holds the old files with each route's spec written to its file, in route order |
| Gen.WrittenNames | src/gen.ts:36-74 | after the writes a name is present iff it was present before or is the spec-file name of some route |
| Gen.WrittenKeepsOthers | src/gen.ts:36-74 | a file no route writes keeps its content |
| Gen.WrittenLastSpec | src/gen.ts:36-74 | a route's file holds that route's spec unless a later route writes the same file |
| Gen.GenTestsWritesSpecs | src/gen.ts:18-77 | after `genTests`, each route's file holds its spec unless a later route collides, and every other file is unchanged |

## Left out

- The glob listings (`globSync`) are inputs: the file list in listing order. The file system is a map from path to `Entry`, and a stat or read failure is `None`.
- Console logging is left out. It has no effect on the result.
- `async`/`await` is left out. Every call in the core finishes before the next one starts, so each `Promise` is modelled as the value it resolves to, and a rejection as `None`.
- The three AI clients (`src/ai/`) are not part of this model. Their answers, or their throw, are the input `ask(provider, route)`.
- `@vue/compiler-sfc` and `@babel/parser`/`@babel/traverse` are not part of this model. Their outputs are inputs: a component's template text and a router module's `ObjectProperty` nodes in visiting order. A parse failure counts as a read failure.
- `path.resolve`/`path.join` and `mkdirSync` are left out. `tests/` is modelled as whether it exists plus a map from file name to content.
- The framework choice at src/gen.ts:21-27 (`router/` exists, so the project is Vue) is left out. `Gen.GenTests` takes the discovered routes as input.
- The dynamic `RegExp` of src/scan/react/parsers.ts:348 is modelled only by the `SyntaxError` its constructor throws, because that pattern can never be built.
- The import-following fallback at src/scan/react/parsers.ts:369-417 is left out because it cannot be reached: it runs only after the throw above.
- The unused catalogue entries `exportNamed`, `importRoutes` and `routeTags` (src/scan/react/patterns.ts:24,27,32) are left out, because no modelled code reaches them.
- Strings are sequences of characters. UTF-8 decoding and UTF-16 surrogate pairs are left out. `\s` and `trim()` use JavaScript's whitespace set, which lies entirely in the Basic Multilingual Plane.
- Patterns.At: states the structural shape of each match (position, bounds, delimiters). It does not prove that the scanners find exactly the matches a JavaScript engine would: there is no regex semantics in the model to compare them against. That correspondence is argued in the scanners' comments.
- Extractors.ExtractChildList: the source recursion has no depth bound. The model carries a ghost `bound` (the text length) for termination, which changes nothing because the children are shorter than the text they come from.
- Gen.TestsDir.Write, Gen.GenTests: writes never fail. In the source, `writeFileSync` (src/gen.ts:72) can throw: `tests` may exist as a regular file, so src/gen.ts:31-33 skips `mkdirSync`, or a permission may be missing. The throw rejects `genTests` and stops the remaining writes.
- Mutation of route objects after they are stored (aliasing between the map and the caller) is left out. Routes are values.
