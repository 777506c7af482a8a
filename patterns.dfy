/** The patterns the scanners use (src/scan/react/patterns.ts, the inline
    patterns of src/scan/react/parsers.ts and extractorUtils.ts, and the
    `router-link` pattern of src/scan/vue.ts), each written as a scanner
    that reproduces what JavaScript's backtracking matcher returns for it.

    `At(p, s, i)` is the match of pattern `p` starting exactly at `i`;
    `Search` is the leftmost match (`String.prototype.match` without the
    `g` flag) and `All` the successive matches of a `g` search, each one
    starting where the previous one ended. */
module Patterns {
  import opened JsText

  /** A match: `s[start..end]` is the matched text, and `group` is the capture
      group the caller reads, found in `s` at `groupAt`. */
  datatype Hit = Hit(start: nat, end: nat, group: string, groupAt: nat)

  /** The captured part of an attribute and the position just after it. */
  datatype Capture = Capture(group: string, groupAt: nat, end: nat)

  /** The array-declaration family: a keyword (`const`, `let` or `var`), a
      name, `=`, and a bracketed body closed by the first `]` that is followed
      by optional whitespace and then `;` or the end of the text. */
  datatype DeclKind =
    | Plain              // routeConst and routeObjectConst (patterns.ts:8,40): the same pattern
    | ExportConst        // exportConst (patterns.ts:22)
    | ExportDefault      // exportDefault (patterns.ts:23): `export default [` … with no name
    | TypedRoutesObject  // routesConst (patterns.ts:36): `name: RoutesObject[] =`
    | TypedRouteObject   // routeObjectArray (patterns.ts:39): `name: RouteObject[] =`

  /** The four router-builder calls of patterns.ts:16-19. */
  datatype Builder = CreateHashRouter | CreateBrowserRouter | CreateMemoryRouter | CreateRoutesFromElements

  datatype Pattern =
    | RouteComponent     // patterns.ts:3  a `<Route …>` element with a quoted `path=`
    | PathProp           // patterns.ts:4  `path = "…"`, capturing the value
    | ElementProp        // patterns.ts:5  `element = {…}`, capturing the braces' content
    | RouteObject        // patterns.ts:9  `{ path: "…"` up to the value's closing quote
    | ObjectPath         // parsers.ts:20  `path: "…"`, capturing the value
    | RouteObjectPath    // patterns.ts:41 a route object up to the first `}` after its path
    | Decl(kind: DeclKind)
    | Bracket            // parsers.ts:14  from the first `[` to the next `]`
    | ChildrenBlock      // extractorUtils.ts:32 `children: [` … up to the next `]`
    | TagMarker          // extractorUtils.ts:17 `@tags`, whitespace, the rest of the line
    | RoutesObjectType   // patterns.ts:35 `type RoutesObject = {…}`
    | ImportNamed        // patterns.ts:28 `import { … } from "…"`
    | ImportDefault      // patterns.ts:29 `import name from "…"`
    | FromClause         // parsers.ts:66  `from "…"`, capturing the specifier
    | RouterProvider     // patterns.ts:13 `<RouterProvider … router={…} …>`
    | RoutingProvider    // patterns.ts:12 `<RoutingProvider … routes={…} …>`
    | Braces             // parsers.ts:332 the first non-empty `{…}`
    | Create(builder: Builder)  // patterns.ts:16-19 `createXRouter(…)`
    | RouterLink         // vue.ts:23 `<router-link … to="…"`

  function BuilderName(b: Builder): string {
    match b
    case CreateHashRouter => "createHashRouter"
    case CreateBrowserRouter => "createBrowserRouter"
    case CreateMemoryRouter => "createMemoryRouter"
    case CreateRoutesFromElements => "createRoutesFromElements"
  }

  // ---------------------------------------------------------------- pieces

  function Lit(s: string, i: nat, t: string): (r: Option<nat>)
    requires i <= |s|
    ensures r.Some? ==> r.value == i + |t| <= |s| && LitAt(s, i, t)
  {
    if LitAt(s, i, t) then Some(i + |t|) else None
  }

  function Char(s: string, i: nat, c: char): (r: Option<nat>)
    requires i <= |s|
    ensures r.Some? ==> i < |s| && s[i] == c && r.value == i + 1
  {
    if i < |s| && s[i] == c then Some(i + 1) else None
  }

  /** `\s+` (greedy; in these patterns it is never followed by something `\s`
      could also match, so it never gives characters back). */
  function Spaces1(s: string, i: nat): (r: Option<nat>)
    requires i <= |s|
    ensures r.Some? ==> i < r.value == SkipSpaces(s, i)
  {
    var j := SkipSpaces(s, i);
    if j > i then Some(j) else None
  }

  /** `\w+`. */
  function Word1(s: string, i: nat): (r: Option<nat>)
    requires i <= |s|
    ensures r.Some? ==> i < r.value <= |s|
  {
    var j := SkipWord(s, i);
    if j > i then Some(j) else None
  }

  /** What `(.*?)` between two `["']` can capture: no quote and no line terminator. */
  predicate NoQuoteNoBreak(g: string) {
    forall k :: 0 <= k < |g| ==> !IsQuote(g[k]) && !IsLineTerminator(g[k])
  }

  predicate QuoteFree(g: string) {
    forall k :: 0 <= k < |g| ==> !IsQuote(g[k])
  }

  /** A capture closed by one delimiter: the group lies in `s` after `lo`, and
      `end` is one past the character that closes it. */
  ghost predicate Closed(s: string, q: Capture, lo: nat) {
    lo < q.groupAt && q.end == q.groupAt + |q.group| + 1 <= |s| && q.group == s[q.groupAt..q.end - 1]
  }

  /** Lazy `(.*?)["']`: the first quote at or after `k`, provided no line
      terminator comes before it. */
  function CloseQuote(s: string, k: nat): (r: Option<nat>)
    requires k <= |s|
    ensures r.Some? ==> k <= r.value < |s| && IsQuote(s[r.value])
    ensures r.Some? ==> NoQuoteNoBreak(s[k..r.value])
    decreases |s| - k
  {
    if k == |s| || IsLineTerminator(s[k]) then None
    else if IsQuote(s[k]) then Some(k)
    else CloseQuote(s, k + 1)
  }

  /** `["'](.*?)["']` at `d`. */
  function QuotedValue(s: string, d: nat): (r: Option<Capture>)
    requires d <= |s|
    ensures r.Some? ==> d < |s| && IsQuote(s[d]) && r.value.groupAt == d + 1 && Closed(s, r.value, d)
    ensures r.Some? ==> IsQuote(s[r.value.end - 1]) && NoQuoteNoBreak(r.value.group)
  {
    if d < |s| && IsQuote(s[d]) then
      var q :- CloseQuote(s, d + 1);
      Some(Capture(s[d + 1..q], d + 1, q + 1))
    else None
  }

  /** `name\s*SEP\s*`: the position after the trailing whitespace. */
  function AttrHead(s: string, i: nat, name: string, sep: char): (r: Option<nat>)
    requires i <= |s|
    ensures r.Some? ==> LitAt(s, i, name) && i + |name| < r.value <= |s|
    ensures r.Some? ==> forall k :: i + |name| <= k < r.value ==> IsSpace(s[k]) || s[k] == sep
  {
    var a :- Lit(s, i, name);
    var c :- Char(s, SkipSpaces(s, a), sep);
    Some(SkipSpaces(s, c))
  }

  /** `name\s*SEP\s*["'](.*?)["']` at `i` (`path=` or `path:` with a quoted value). */
  function QuotedAttr(s: string, i: nat, name: string, sep: char): (r: Option<Capture>)
    requires i <= |s|
    ensures r.Some? ==> LitAt(s, i, name) && Closed(s, r.value, i + |name| + 1)
    ensures r.Some? ==> IsQuote(s[r.value.groupAt - 1]) && IsQuote(s[r.value.end - 1]) && NoQuoteNoBreak(r.value.group)
    ensures r.Some? ==> forall k :: i + |name| <= k < r.value.groupAt - 1 ==> IsSpace(s[k]) || s[k] == sep
  {
    var d :- AttrHead(s, i, name, sep);
    QuotedValue(s, d)
  }

  /** `{([^}]+)}` at `b`: braces around at least one character, closed by the first `}`. */
  function Braced(s: string, b: nat): (r: Option<Capture>)
    requires b <= |s|
    ensures r.Some? ==> b < |s| && s[b] == '{' && r.value.groupAt == b + 1 && Closed(s, r.value, b)
    ensures r.Some? ==> r.value.group != [] && s[r.value.end - 1] == '}' && '}' !in r.value.group
  {
    var o :- Char(s, b, '{');
    var c :- Find(s, '}', o);
    if c > o then Some(Capture(s[o..c], o, c + 1)) else None
  }

  /** `name\s*=\s*{([^}]+)}` at `i`. */
  function BraceAttr(s: string, i: nat, name: string): (r: Option<Capture>)
    requires i <= |s|
    ensures r.Some? ==> Closed(s, r.value, i) && r.value.group != [] && '}' !in r.value.group
  {
    var d :- AttrHead(s, i, name, '=');
    Braced(s, d)
  }

  /** The first quote at or after `k`, or the end of the text. */
  function NextQuote(s: string, k: nat): (c: nat)
    requires k <= |s|
    ensures k <= c <= |s| && (c < |s| ==> IsQuote(s[c]))
    ensures forall j :: k <= j < c ==> !IsQuote(s[j])
    decreases |s| - k
  {
    if k == |s| || IsQuote(s[k]) then k else NextQuote(s, k + 1)
  }

  /** `['"]([^'"]+)['"]` at `b`: a quote, at least one character that is not a
      quote (line breaks included), and the next quote. */
  function QuotedRun(s: string, b: nat): (r: Option<Capture>)
    requires b <= |s|
    ensures r.Some? ==> r.value.groupAt == b + 1 && Closed(s, r.value, b)
    ensures r.Some? ==> r.value.group != [] && QuoteFree(r.value.group)
  {
    if b < |s| && IsQuote(s[b]) then
      var c := NextQuote(s, b + 1);
      if b + 1 < c < |s| then Some(Capture(s[b + 1..c], b + 1, c + 1)) else None
    else None
  }

  /** `to\s*=\s*["']([^"']+)["']` at `i`. */
  function ToAttr(s: string, i: nat): (r: Option<Capture>)
    requires i <= |s|
    ensures r.Some? ==> Closed(s, r.value, i) && r.value.group != [] && QuoteFree(r.value.group)
  {
    var d :- AttrHead(s, i, "to", '=');
    QuotedRun(s, d)
  }

  // ------------------------------------------------------ element patterns

  /** The attribute an element pattern looks for. */
  datatype Attr = PathEq | BraceEq(name: string) | ToEq

  function AttrAt(a: Attr, s: string, p: nat): (r: Option<Capture>)
    requires p <= |s|
    ensures r.Some? ==> Closed(s, r.value, p)
  {
    match a
    case PathEq => QuotedAttr(s, p, "path", '=')
    case BraceEq(name) => BraceAttr(s, p, name)
    case ToEq => ToAttr(s, p)
  }

  /** Whether the rest of an element pattern succeeds with the attribute at
      `p`; the patterns ending in `[^>]*>` need some `>` after the attribute.
      The lazy `(.*?)` of a quoted value cannot help: if no `>` follows the
      first closing quote, none follows a later one either. */
  predicate Accepted(a: Attr, s: string, p: nat, needGt: bool)
    requires p <= |s|
  {
    AttrAt(a, s, p).Some? && (needGt ==> Find(s, '>', AttrAt(a, s, p).value.end).Some?)
  }

  /** The largest `p` in `[lo, hi)` with `ok(p)`. */
  function LastWhere(ok: nat -> bool, lo: nat, hi: nat): (r: Option<nat>)
    requires lo <= hi
    ensures r.Some? ==> lo <= r.value < hi && ok(r.value)
    ensures r.Some? ==> forall p :: r.value < p < hi ==> !ok(p)
    ensures r.None? ==> forall p :: lo <= p < hi ==> !ok(p)
    decreases hi - lo
  {
    if hi == lo then None
    else if ok(hi - 1) then Some(hi - 1)
    else LastWhere(ok, lo, hi - 1)
  }

  /** `[^>]*` followed by the attribute: the greedy run gives characters back
      one at a time, so the attribute that wins is the LAST accepted one
      among the positions `lo` to `hi - 1` (`hi` being the first `>`). */
  function LastAttr(a: Attr, s: string, lo: nat, hi: nat, needGt: bool): (r: Option<nat>)
    requires lo <= hi <= |s|
    ensures r.Some? ==> lo <= r.value < hi && Accepted(a, s, r.value, needGt)
  {
    LastWhere((p: nat) => p <= |s| && Accepted(a, s, p, needGt), lo, hi)
  }

  /** `<\s*Tag`: the position after the tag name. */
  function TagOpen(s: string, i: nat, tag: string): (r: Option<nat>)
    requires i <= |s|
    ensures r.Some? ==> i < r.value <= |s|
    ensures r.Some? ==> i < |s| && s[i] == '<' && r.value == SkipSpaces(s, i + 1) + |tag| && LitAt(s, SkipSpaces(s, i + 1), tag)
  {
    var o :- Char(s, i, '<');
    Lit(s, SkipSpaces(s, o), tag)
  }

  /** The element's attribute at `p` supplies the hit's capture and ends before the hit does. */
  ghost predicate AttrWithin(a: Attr, s: string, p: nat, h: Hit) {
    p <= |s| && AttrAt(a, s, p).Some? && AttrAt(a, s, p).value.end < h.end
    && AttrAt(a, s, p).value.group == h.group && AttrAt(a, s, p).value.groupAt == h.groupAt
  }

  /** An element match ends with `>` and contains the attribute it captured. */
  ghost predicate ElementShape(a: Attr, s: string, h: Hit)
    requires 0 < h.end <= |s|
  {
    s[h.end - 1] == '>' && exists p :: h.start < p && AttrWithin(a, s, p, h)
  }

  /** No `>` among `s[lo..hi]`. */
  ghost predicate NoGt(s: string, lo: int, hi: int) {
    forall k :: lo <= k < hi && 0 <= k < |s| ==> s[k] != '>'
  }

  /** `<\s*Tag[^>]*ATTR[^>]*>` spelled out: `TagOpen` reads `<\s*Tag` up
      to `t`, a run without `>` leads to the attribute at `p`, and a run
      without `>` leads from the attribute to the `>` that ends the hit. */
  ghost predicate TagShape(s: string, tag: string, a: Attr, h: Hit) {
    exists t, p :: TagThenAttr(s, tag, a, t, p, h)
  }

  ghost predicate TagThenAttr(s: string, tag: string, a: Attr, t: nat, p: nat, h: Hit) {
    && h.start <= |s| && TagOpen(s, h.start, tag) == Some(t)
    && t <= p && AttrWithin(a, s, p, h) && NoGt(s, t, p) && NoGt(s, AttrAt(a, s, p).value.end, h.end - 1)
  }

  /** `<\s*Tag[^>]*ATTR[^>]*>` at `i`. */
  function TagElementAt(s: string, i: nat, tag: string, a: Attr): (r: Option<Hit>)
    requires i <= |s|
    ensures r.Some? ==> r.value.start == i && WellFormed(s, r.value) && ElementShape(a, s, r.value)
    ensures r.Some? ==> TagShape(s, tag, a, r.value)
  {
    var t :- TagOpen(s, i, tag);
    var p :- LastAttr(a, s, t, FindOrEnd(s, '>', t), true);
    var h := ElementHit(a, s, i, p);
    assert NoGt(s, t, p);
    assert TagThenAttr(s, tag, a, t, p, h);
    Some(h)
  }

  /** The element that starts at `i` and captures the attribute accepted at `p`: it ends at the first `>` after the attribute. */
  function ElementHit(a: Attr, s: string, i: nat, p: nat): (h: Hit)
    requires i < p <= |s| && Accepted(a, s, p, true)
    ensures h.start == i && WellFormed(s, h) && ElementShape(a, s, h)
    ensures AttrWithin(a, s, p, h) && NoGt(s, AttrAt(a, s, p).value.end, h.end - 1)
  {
    var q := AttrAt(a, s, p).value;
    var g := Find(s, '>', q.end).value;
    var h := Hit(i, g + 1, q.group, q.groupAt);
    assert AttrWithin(a, s, p, h);
    h
  }

  /** `<router-link\s+[^>]*to\s*=\s*["']([^"']+)["']` at `i`; nothing has to follow the value. */
  function RouterLinkAt(s: string, i: nat): (r: Option<Hit>)
    requires i <= |s|
    ensures r.Some? ==> r.value.start == i && WellFormed(s, r.value)
    ensures r.Some? ==> r.value.group != [] && QuoteFree(r.value.group)
  {
    var t :- Lit(s, i, "<router-link");
    if t < |s| && IsSpace(s[t]) then
      var p :- LastAttr(ToEq, s, t + 1, FindOrEnd(s, '>', t + 1), false);
      var q := ToAttr(s, p).value;
      Some(Hit(i, q.end, q.group, q.groupAt))
    else None
  }

  // -------------------------------------------------------- object patterns

  /** The head `{`, whitespace, `path:`, quoted value makes a route-object
      match; in particular no character before the value is a `c`. */
  lemma ObjectHeadShape(s: string, i: nat, j: nat, q: Capture)
    requires i < j <= |s| && s[i] == '{' && QuotedAttr(s, j, "path", ':') == Some(q)
    requires forall k :: i < k < j ==> IsSpace(s[k])
    ensures WellFormed(s, Hit(i, q.end, q.group, q.groupAt)) && ObjectShape(s, Hit(i, q.end, q.group, q.groupAt))
  {
    forall k | i <= k < q.groupAt
      ensures s[k] != 'c'
    {
      if j <= k < j + 4 {
        assert s[k] == s[j..j + 4][k - j];
      }
    }
  }

  /** `{\s*path\s*:\s*["'](.*?)["']` at `i`. */
  function RouteObjectAt(s: string, i: nat): (r: Option<Hit>)
    requires i <= |s|
    ensures r.Some? ==> r.value.start == i && WellFormed(s, r.value) && ObjectShape(s, r.value)
  {
    var o :- Char(s, i, '{');
    var j := SkipSpaces(s, o);
    var q :- QuotedAttr(s, j, "path", ':');
    ObjectHeadShape(s, i, j, q);
    Some(Hit(i, q.end, q.group, q.groupAt))
  }

  /** A route-object match: `{`, whitespace, `path`, whitespace, `:`,
      whitespace, a quote, the value (no quote, no line break) and a quote;
      no character before the value is a `c`. */
  ghost predicate ObjectShape(s: string, h: Hit) {
    && h.start + 7 <= h.groupAt && h.end == h.groupAt + |h.group| + 1 <= |s|
    && h.group == s[h.groupAt..h.end - 1]
    && s[h.start] == '{' && IsQuote(s[h.groupAt - 1]) && IsQuote(s[h.end - 1])
    && NoQuoteNoBreak(h.group)
    && (forall k :: h.start <= k < h.groupAt ==> s[k] != 'c')
  }

  /** `{\s*path\s*:\s*["'](.*?)["'][^}]*\}` at `i`: the route object's head,
      extended to the first `}` after the path value. */
  function RouteObjectPathAt(s: string, i: nat): (r: Option<Hit>)
    requires i <= |s|
    ensures r.Some? ==> r.value.start == i && WellFormed(s, r.value) && ObjectPathShape(s, r.value)
  {
    var h :- RouteObjectAt(s, i);
    ExtendToBrace(s, h)
  }

  /** A route-object head extended to the first `}` after it. */
  function ExtendToBrace(s: string, h: Hit): (r: Option<Hit>)
    requires ObjectShape(s, h)
    ensures r.Some? ==> r.value.start == h.start && WellFormed(s, r.value) && ObjectPathShape(s, r.value)
  {
    var c :- Find(s, '}', h.end);
    Some(Hit(h.start, c + 1, h.group, h.groupAt))
  }

  ghost predicate ObjectPathShape(s: string, h: Hit) {
    var q := h.groupAt + |h.group|;
    && h.start + 7 <= h.groupAt && q < h.end - 1 && h.end <= |s|
    && h.group == s[h.groupAt..q] && NoQuoteNoBreak(h.group)
    && s[h.start] == '{' && IsQuote(s[h.groupAt - 1]) && IsQuote(s[q])
    && s[h.end - 1] == '}' && (forall k :: q < k < h.end - 1 ==> s[k] != '}')
  }

  // --------------------------------------------------- array declarations

  function Keyword(s: string, i: nat): (r: Option<nat>)
    requires i <= |s|
    ensures r.Some? ==> i < r.value <= |s|
  {
    if LitAt(s, i, "const") then Some(i + 5)
    else if LitAt(s, i, "let") then Some(i + 3)
    else if LitAt(s, i, "var") then Some(i + 3)
    else None
  }

  /** `(?:const|let|var)\s+(\w+)\s*`: the position after the name's trailing whitespace. */
  function DeclName(s: string, i: nat): (r: Option<nat>)
    requires i <= |s|
    ensures r.Some? ==> i < r.value <= |s|
  {
    var k :- Keyword(s, i);
    var w :- Spaces1(s, k);
    var n :- Word1(s, w);
    Some(SkipSpaces(s, n))
  }

  /** `=\s*\[` at `x`: the position after the `[`. */
  function AssignOpen(s: string, x: nat): (r: Option<nat>)
    requires x <= |s|
    ensures r.Some? ==> x < r.value <= |s|
  {
    var e :- Char(s, x, '=');
    Char(s, SkipSpaces(s, e), '[')
  }

  /** `:\s*TYPE\s*\[\s*\]\s*` at `x`. */
  function ArrayType(s: string, x: nat, typeName: string): (r: Option<nat>)
    requires x <= |s|
    ensures r.Some? ==> x < r.value <= |s|
  {
    var c :- Char(s, x, ':');
    var t :- Lit(s, SkipSpaces(s, c), typeName);
    var o :- Char(s, SkipSpaces(s, t), '[');
    var e :- Char(s, SkipSpaces(s, o), ']');
    Some(SkipSpaces(s, e))
  }

  /** The position just after the `[` that opens the declaration's body. */
  function DeclOpen(kind: DeclKind, s: string, i: nat): (r: Option<nat>)
    requires i <= |s|
    ensures r.Some? ==> i < r.value <= |s|
  {
    match kind
    case Plain =>
      var n :- DeclName(s, i);
      AssignOpen(s, n)
    case ExportConst =>
      var e :- Lit(s, i, "export");
      var w :- Spaces1(s, e);
      var n :- DeclName(s, w);
      AssignOpen(s, n)
    case ExportDefault =>
      var e :- Lit(s, i, "export");
      var w :- Spaces1(s, e);
      var d :- Lit(s, w, "default");
      var v :- Spaces1(s, d);
      Char(s, v, '[')
    case TypedRoutesObject =>
      var n :- DeclName(s, i);
      var t :- ArrayType(s, n, "RoutesObject");
      AssignOpen(s, t)
    case TypedRouteObject =>
      var n :- DeclName(s, i);
      var t :- ArrayType(s, n, "RouteObject");
      AssignOpen(s, t)
  }

  /** `(?:\s*;|\s*$)` at `x`: optional whitespace, then `;` or the end of the text. */
  predicate Terminated(s: string, x: nat)
    requires x <= |s|
  {
    var w := SkipSpaces(s, x);
    w == |s| || s[w] == ';'
  }

  function TerminatorEnd(s: string, x: nat): (e: nat)
    requires x <= |s|
    ensures x <= e <= |s|
  {
    var w := SkipSpaces(s, x);
    if w < |s| then w + 1 else w
  }

  /** Lazy `([\s\S]*?)\](?:\s*;|\s*$)`: the first `]` at or after `k` that is terminated. */
  function ClosingBracket(s: string, k: nat): (r: Option<nat>)
    requires k <= |s|
    ensures r.Some? ==> k <= r.value < |s| && s[r.value] == ']' && Terminated(s, r.value + 1)
    ensures r.Some? ==> forall j :: k <= j < r.value && s[j] == ']' ==> !Terminated(s, j + 1)
    decreases |s| - k
  {
    if k == |s| then None
    else if s[k] == ']' && Terminated(s, k + 1) then Some(k)
    else
      var r := ClosingBracket(s, k + 1);
      assert r.Some? ==> forall j :: k <= j < r.value && s[j] == ']' ==> !Terminated(s, j + 1) by {
        if r.Some? {
          forall j | k <= j < r.value && s[j] == ']'
            ensures !Terminated(s, j + 1)
          {
            if j == k {
              assert !(s[k] == ']' && Terminated(s, k + 1));
            }
          }
        }
      }
      r
  }

  function DeclAt(kind: DeclKind, s: string, i: nat): (r: Option<Hit>)
    requires i <= |s|
    ensures r.Some? ==> r.value.start == i && WellFormed(s, r.value) && DeclShape(s, r.value)
  {
    var o :- DeclOpen(kind, s, i);
    DeclBody(s, i, o)
  }

  /** The declaration's body from the position `o` after its opening `[`. */
  function DeclBody(s: string, i: nat, o: nat): (r: Option<Hit>)
    requires i < o <= |s|
    ensures r.Some? ==> r.value.start == i && WellFormed(s, r.value) && DeclShape(s, r.value)
  {
    var k :- ClosingBracket(s, o);
    Some(Hit(i, TerminatorEnd(s, k + 1), s[o..k], o))
  }

  /** The body of a declaration ends at the first `]` that is followed by
      optional whitespace and then `;` or the end of the text. */
  ghost predicate DeclShape(s: string, h: Hit) {
    var k := h.groupAt + |h.group|;
    && h.start < h.groupAt && k < h.end <= |s|
    && s[k] == ']' && Terminated(s, k + 1)
    && (forall j :: h.groupAt <= j < k && s[j] == ']' ==> !Terminated(s, j + 1))
  }

  // ------------------------------------------------------ other patterns

  /** `\[([\s\S]*?)\]` at `i`. */
  function BracketAt(s: string, i: nat): (r: Option<Hit>)
    requires i <= |s|
    ensures r.Some? ==> r.value.start == i && WellFormed(s, r.value)
    ensures r.Some? ==> s[i] == '[' && r.value.groupAt == i + 1 && r.value.end == i + |r.value.group| + 2 && ']' !in r.value.group
  {
    var o :- Char(s, i, '[');
    var c :- Find(s, ']', o);
    Some(Hit(i, c + 1, s[o..c], o))
  }

  /** `children\s*:\s*\[([\s\S]*?)\]` at `i`. */
  function ChildrenBlockAt(s: string, i: nat): (r: Option<Hit>)
    requires i <= |s|
    ensures r.Some? ==> r.value.start == i && WellFormed(s, r.value) && ChildrenShape(s, r.value)
  {
    var a :- Lit(s, i, "children");
    var b :- Char(s, SkipSpaces(s, a), ':');
    var o :- Char(s, SkipSpaces(s, b), '[');
    var c :- Find(s, ']', o);
    Some(Hit(i, c + 1, s[o..c], o))
  }

  /** A children block starts with the `c` of `children`; its capture lies
      inside the match and is closed by the `]` that ends it. */
  ghost predicate ChildrenShape(s: string, h: Hit) {
    && h.start < h.groupAt && h.end == h.groupAt + |h.group| + 1 <= |s|
    && s[h.start] == 'c' && s[h.end - 1] == ']' && ']' !in h.group
  }

  /** The largest `j` in `[lo, hi)` with `s[j] != '\n'`. */
  function LastNonNewline(s: string, lo: nat, hi: nat): (r: Option<nat>)
    requires lo <= hi <= |s|
    ensures r.Some? ==> lo <= r.value < hi && s[r.value] != '\n'
    decreases hi - lo
  {
    if hi == lo then None
    else if s[hi - 1] != '\n' then Some(hi - 1)
    else LastNonNewline(s, lo, hi - 1)
  }

  /** `@tags\s+([^\n]+)` at `i`. The greedy `\s+` gives characters back only
      when the whitespace runs to the end of the text. */
  function TagMarkerAt(s: string, i: nat): (r: Option<Hit>)
    requires i <= |s|
    ensures r.Some? ==> r.value.start == i && WellFormed(s, r.value)
    ensures r.Some? ==> r.value.group != [] && '\n' !in r.value.group
  {
    var a :- Lit(s, i, "@tags");
    var w :- Spaces1(s, a);
    var j :- if w < |s| then Some(w) else LastNonNewline(s, a + 1, w);
    var e := FindOrEnd(s, '\n', j);
    Some(Hit(i, e, s[j..e], j))
  }

  /** `type\s+RoutesObject\s*=\s*\{([^}]+)\}` at `i`. */
  function RoutesObjectTypeAt(s: string, i: nat): (r: Option<Hit>)
    requires i <= |s|
    ensures r.Some? ==> r.value.start == i && WellFormed(s, r.value)
  {
    var t :- Lit(s, i, "type");
    var w :- Spaces1(s, t);
    var n :- Lit(s, w, "RoutesObject");
    var e :- Char(s, SkipSpaces(s, n), '=');
    var q :- Braced(s, SkipSpaces(s, e));
    Some(Hit(i, q.end, q.group, q.groupAt))
  }

  /** `from\s+['"]([^'"]+)['"]` at `i`. */
  function FromClauseAt(s: string, i: nat): (r: Option<Hit>)
    requires i <= |s|
    ensures r.Some? ==> r.value.start == i && WellFormed(s, r.value)
    ensures r.Some? ==> r.value.group != [] && QuoteFree(r.value.group)
  {
    var f :- Lit(s, i, "from");
    var y :- Spaces1(s, f);
    var q :- QuotedRun(s, y);
    Some(Hit(i, q.end, q.group, q.groupAt))
  }

  /** `import\s+{\s*([^}]+)\s*}\s+from\s+['"]([^'"]+)['"]` at `i`, capturing
      the specifier. Inside the braces the whitespace runs can give back, so
      the braces only need one character of any kind. */
  function ImportNamedAt(s: string, i: nat): (r: Option<Hit>)
    requires i <= |s|
    ensures r.Some? ==> r.value.start == i && WellFormed(s, r.value)
  {
    var m :- Lit(s, i, "import");
    var w :- Spaces1(s, m);
    var b :- Braced(s, w);
    var x :- Spaces1(s, b.end);
    var f :- FromClauseAt(s, x);
    Some(Hit(i, f.end, f.group, f.groupAt))
  }

  /** `import\s+(\w+)\s+from\s+['"]([^'"]+)['"]` at `i`, capturing the specifier. */
  function ImportDefaultAt(s: string, i: nat): (r: Option<Hit>)
    requires i <= |s|
    ensures r.Some? ==> r.value.start == i && WellFormed(s, r.value)
  {
    var m :- Lit(s, i, "import");
    var w :- Spaces1(s, m);
    var n :- Word1(s, w);
    var x :- Spaces1(s, n);
    var f :- FromClauseAt(s, x);
    Some(Hit(i, f.end, f.group, f.groupAt))
  }

  /** `{([^}]+)}` at `i`. */
  function BracesAt(s: string, i: nat): (r: Option<Hit>)
    requires i <= |s|
    ensures r.Some? ==> r.value.start == i && WellFormed(s, r.value)
    ensures r.Some? ==> r.value.group != [] && '}' !in r.value.group
  {
    var q :- Braced(s, i);
    Some(Hit(i, q.end, q.group, q.groupAt))
  }

  /** `NAME\(([^)]+)\)` at `i`. */
  function CreateAt(s: string, i: nat, b: Builder): (r: Option<Hit>)
    requires i <= |s|
    ensures r.Some? ==> r.value.start == i && WellFormed(s, r.value) && r.value.group != []
  {
    var n :- Lit(s, i, BuilderName(b));
    var o :- Char(s, n, '(');
    var c :- Find(s, ')', o);
    if c > o then Some(Hit(i, c + 1, s[o..c], o)) else None
  }

  /** `element\s*=\s*{([^}]+)}` at `i`. */
  function ElementPropAt(s: string, i: nat): (r: Option<Hit>)
    requires i <= |s|
    ensures r.Some? ==> r.value.start == i && WellFormed(s, r.value)
    ensures r.Some? ==> r.value.group != [] && '}' !in r.value.group
  {
    var q :- BraceAttr(s, i, "element");
    Some(Hit(i, q.end, q.group, q.groupAt))
  }

  /** `path\s*SEP\s*["'](.*?)["']` at `i`. */
  function PathAt(s: string, i: nat, sep: char): (r: Option<Hit>)
    requires i <= |s|
    ensures r.Some? ==> r.value.start == i && WellFormed(s, r.value) && QuoteDelimited(s, r.value)
  {
    var q :- QuotedAttr(s, i, "path", sep);
    Some(Hit(i, q.end, q.group, q.groupAt))
  }

  /** A capture that runs from just after a quote to just before the next
      quote of either kind and holds no quote and no line break. */
  ghost predicate QuoteDelimited(s: string, h: Hit) {
    && h.start < h.groupAt && h.end == h.groupAt + |h.group| + 1 <= |s|
    && IsQuote(s[h.groupAt - 1]) && IsQuote(s[h.end - 1])
    && NoQuoteNoBreak(h.group)
  }

  // ------------------------------------------------------------- catalog

  /** What every match of every pattern satisfies. */
  ghost predicate WellFormed(s: string, h: Hit) {
    h.start < h.end <= |s| && h.start <= h.groupAt && h.groupAt + |h.group| <= h.end
    && h.group == s[h.groupAt..h.groupAt + |h.group|]
  }

  /** What the matches of each pattern are known to satisfy. */
  ghost predicate Sound(p: Pattern, s: string, h: Hit) {
    WellFormed(s, h) &&
    match p
    case RouteComponent => ElementShape(PathEq, s, h)
    case PathProp => QuoteDelimited(s, h)
    case ObjectPath => QuoteDelimited(s, h)
    case ElementProp => h.group != [] && '}' !in h.group
    case RouteObject => ObjectShape(s, h)
    case RouteObjectPath => ObjectPathShape(s, h)
    case Decl(_) => DeclShape(s, h)
    case Bracket => s[h.start] == '[' && h.groupAt == h.start + 1 && h.end == h.groupAt + |h.group| + 1 && ']' !in h.group
    case ChildrenBlock => ChildrenShape(s, h)
    case TagMarker => h.group != [] && '\n' !in h.group
    case Braces => h.group != [] && '}' !in h.group
    case Create(_) => h.group != []
    case RouterLink => h.group != [] && QuoteFree(h.group)
    case FromClause => h.group != [] && QuoteFree(h.group)
    case RouterProvider => ElementShape(BraceEq("router"), s, h)
    case RoutingProvider => ElementShape(BraceEq("routes"), s, h)
    case RoutesObjectType => true
    case ImportNamed => true
    case ImportDefault => true
  }

  /** The match of `p` that starts exactly at `i`, if any. */
  function At(p: Pattern, s: string, i: nat): (r: Option<Hit>)
    requires i <= |s|
    ensures r.Some? ==> r.value.start == i && WellFormed(s, r.value)
  {
    match p
    case RouteComponent => TagElementAt(s, i, "Route", PathEq)
    case PathProp => PathAt(s, i, '=')
    case ElementProp => ElementPropAt(s, i)
    case RouteObject => RouteObjectAt(s, i)
    case ObjectPath => PathAt(s, i, ':')
    case RouteObjectPath => RouteObjectPathAt(s, i)
    case Decl(kind) => DeclAt(kind, s, i)
    case Bracket => BracketAt(s, i)
    case ChildrenBlock => ChildrenBlockAt(s, i)
    case TagMarker => TagMarkerAt(s, i)
    case RoutesObjectType => RoutesObjectTypeAt(s, i)
    case ImportNamed => ImportNamedAt(s, i)
    case ImportDefault => ImportDefaultAt(s, i)
    case FromClause => FromClauseAt(s, i)
    case RouterProvider => TagElementAt(s, i, "RouterProvider", BraceEq("router"))
    case RoutingProvider => TagElementAt(s, i, "RoutingProvider", BraceEq("routes"))
    case Braces => BracesAt(s, i)
    case Create(b) => CreateAt(s, i, b)
    case RouterLink => RouterLinkAt(s, i)
  }

  /** Every match satisfies its pattern's shape. */
  lemma AtSound(p: Pattern, s: string, i: nat)
    requires i <= |s|
    ensures At(p, s, i).Some? ==> Sound(p, s, At(p, s, i).value)
  {
  }

  /** `At(p, s, _)` as a function value; there is no match past the end of the text. */
  function Matcher(p: Pattern, s: string): nat -> Option<Hit> {
    (k: nat) => if k <= |s| then At(p, s, k) else None
  }

  /** A match that `m` reports at `k` starts at `k` and ends inside a text of length `n`. */
  ghost predicate Anchored(m: nat -> Option<Hit>, n: nat) {
    forall k: nat :: m(k).Some? ==> m(k).value.start == k < m(k).value.end <= n
  }

  lemma MatcherAnchored(p: Pattern, s: string)
    ensures Anchored(Matcher(p, s), |s|)
  {
  }

  /** The leftmost match of `m` at or after `i`. */
  function FirstMatch(m: nat -> Option<Hit>, n: nat, i: nat): (r: Option<Hit>)
    requires i <= n && Anchored(m, n)
    ensures r.Some? ==> i <= r.value.start <= n && m(r.value.start) == r
    ensures r.Some? ==> forall k :: i <= k < r.value.start ==> m(k).None?
    ensures r.None? ==> forall k :: i <= k <= n ==> m(k).None?
    decreases n - i
  {
    if m(i).Some? then m(i)
    else if i == n then None
    else FirstMatch(m, n, i + 1)
  }

  /** The matches of a `g` search from `i`: each one starts where the last one ended. */
  function AllMatches(m: nat -> Option<Hit>, n: nat, i: nat): (r: seq<Hit>)
    requires i <= n && Anchored(m, n)
    ensures forall k :: 0 <= k < |r| ==> i <= r[k].start < r[k].end <= n && m(r[k].start) == Some(r[k])
    ensures forall k :: 0 <= k < |r| - 1 ==> r[k].end <= r[k + 1].start
    ensures r == [] <==> FirstMatch(m, n, i).None?
    decreases n - i
  {
    match FirstMatch(m, n, i)
    case None => []
    case Some(h) => [h] + AllMatches(m, n, h.end)
  }

  /** Inside the text, `Matcher(p, s)` is `At(p, s, _)`. */
  lemma MatcherIsAt(p: Pattern, s: string)
    ensures forall k: nat :: k <= |s| ==> Matcher(p, s)(k) == At(p, s, k)
  {
  }

  /** `FirstMatch` over `Matcher(p, s)` is the leftmost match of `p`. */
  lemma FirstMatchIsLeftmost(p: Pattern, s: string, i: nat)
    requires i <= |s| && Anchored(Matcher(p, s), |s|)
    ensures var r := FirstMatch(Matcher(p, s), |s|, i);
      && (r.Some? ==> i <= r.value.start <= |s| && At(p, s, r.value.start) == r)
      && (r.Some? ==> forall k :: i <= k < r.value.start ==> At(p, s, k).None?)
      && (r.None? ==> forall k :: i <= k <= |s| ==> At(p, s, k).None?)
  {
    var m := Matcher(p, s);
    var r := FirstMatch(m, |s|, i);
    var end := if r.Some? then r.value.start else |s| + 1;
    forall k | i <= k < end
      ensures At(p, s, k).None?
    {
      assert m(k).None?;
    }
    if r.Some? {
      assert m(r.value.start) == At(p, s, r.value.start);
    }
  }

  /** The leftmost match of `p` at or after `i`. */
  function Search(p: Pattern, s: string, i: nat): (r: Option<Hit>)
    requires i <= |s|
    ensures r.Some? ==> i <= r.value.start <= |s| && At(p, s, r.value.start) == r
  {
    MatcherAnchored(p, s);
    FirstMatchIsLeftmost(p, s, i);
    FirstMatch(Matcher(p, s), |s|, i)
  }

  /** No match of `p` starts before the one `Search` finds, and none at all when it finds none. */
  lemma SearchIsLeftmost(p: Pattern, s: string, i: nat)
    requires i <= |s|
    ensures Search(p, s, i).Some? ==> forall k :: i <= k < Search(p, s, i).value.start ==> At(p, s, k).None?
    ensures Search(p, s, i).None? ==> forall k :: i <= k <= |s| ==> At(p, s, k).None?
  {
    MatcherAnchored(p, s);
    FirstMatchIsLeftmost(p, s, i);
  }

  /** `s.match(p)` without the `g` flag. */
  function Match(p: Pattern, s: string): Option<Hit> {
    Search(p, s, 0)
  }

  /** Every hit of `AllMatches` over `Matcher(p, s)` is a match of `p`. */
  lemma AllMatchesArePatternMatches(p: Pattern, s: string)
    requires Anchored(Matcher(p, s), |s|)
    ensures var r := AllMatches(Matcher(p, s), |s|, 0);
      forall k :: 0 <= k < |r| ==> r[k].start < r[k].end <= |s| && At(p, s, r[k].start) == Some(r[k])
  {
    var m := Matcher(p, s);
    var r := AllMatches(m, |s|, 0);
    forall k | 0 <= k < |r|
      ensures r[k].start < r[k].end <= |s| && At(p, s, r[k].start) == Some(r[k])
    {
      assert m(r[k].start) == Some(r[k]);
    }
  }

  /** The matches of `p` in `s` with the `g` flag, in order. */
  function All(p: Pattern, s: string): (r: seq<Hit>)
    ensures forall k :: 0 <= k < |r| ==> r[k].start < r[k].end <= |s|
    ensures forall k :: 0 <= k < |r| - 1 ==> r[k].end <= r[k + 1].start
    ensures r == [] <==> Match(p, s).None?
  {
    MatcherAnchored(p, s);
    AllMatches(Matcher(p, s), |s|, 0)
  }

  /** Every hit of the `g` iteration is a match of `p` where it starts, and so satisfies `p`'s shape. */
  lemma AllAreMatches(p: Pattern, s: string)
    ensures forall k :: 0 <= k < |All(p, s)| ==> At(p, s, All(p, s)[k].start) == Some(All(p, s)[k])
    ensures forall k :: 0 <= k < |All(p, s)| ==> Sound(p, s, All(p, s)[k])
  {
    MatcherAnchored(p, s);
    AllMatchesArePatternMatches(p, s);
    forall k | 0 <= k < |All(p, s)|
      ensures Sound(p, s, All(p, s)[k])
    {
      AtSound(p, s, All(p, s)[k].start);
    }
  }

  /** `s.match(p)` with the `g` flag: the matched texts, in order (the empty
      sequence stands for JavaScript's `null`). */
  function MatchAll(p: Pattern, s: string): (r: seq<string>)
    ensures |r| == |All(p, s)|
    ensures forall k :: 0 <= k < |r| ==> r[k] == s[All(p, s)[k].start..All(p, s)[k].end] && |r[k]| <= |s|
  {
    HitTexts(s, All(p, s))
  }

  /** The text each hit covers. */
  function HitTexts(s: string, hits: seq<Hit>): (r: seq<string>)
    requires forall k :: 0 <= k < |hits| ==> hits[k].start < hits[k].end <= |s|
    ensures |r| == |hits|
    ensures forall k :: 0 <= k < |r| ==> r[k] == s[hits[k].start..hits[k].end] && |r[k]| <= |s|
  {
    seq(|hits|, k requires 0 <= k < |hits| => s[hits[k].start..hits[k].end])
  }

  // ------------------------------------------------------------ lemmas

  /** A text with no quote holds no route object: every route-object match
      ends with the quote that closes its path value. */
  lemma QuoteFreeTextHasNoRouteObject(g: string)
    requires QuoteFree(g)
    ensures Match(RouteObject, g).None? && MatchAll(RouteObject, g) == []
  {
    var m := Match(RouteObject, g);
    if m.Some? {
      AtSound(RouteObject, g, m.value.start);
      assert false;
    }
  }

  /** A route object needs at least eight characters (`{path:""`), and one
      extended to its closing brace at least nine. */
  lemma ShortTextHasNoRouteObject(s: string)
    requires |s| < 8
    ensures MatchAll(RouteObject, s) == [] && MatchAll(RouteObjectPath, s) == []
  {
    var m := Match(RouteObject, s);
    if m.Some? {
      AtSound(RouteObject, s, m.value.start);
      assert false;
    }
    var n := Match(RouteObjectPath, s);
    if n.Some? {
      AtSound(RouteObjectPath, s, n.value.start);
      assert false;
    }
  }

  /** Position `k` lies inside one of the hits `r`. */
  ghost predicate InSomeHit(r: seq<Hit>, k: nat) {
    exists j :: 0 <= j < |r| && r[j].start <= k < r[j].end
  }

  /** A position inside one of the hits `r` lies inside one of `[h] + r`. */
  lemma InSomeHitCons(h: Hit, r: seq<Hit>, k: nat)
    requires InSomeHit(r, k)
    ensures InSomeHit([h] + r, k)
  {
    var j :| 0 <= j < |r| && r[j].start <= k < r[j].end;
    assert ([h] + r)[j + 1] == r[j];
  }

  /** The `g` iteration misses no match of its own: every position where `m`
      matches lies inside some hit, so the only matches left out are those
      that start inside an earlier hit. */
  lemma {:induction false} AllMatchesCover(m: nat -> Option<Hit>, n: nat, i: nat)
    requires i <= n && Anchored(m, n)
    ensures forall k :: i <= k <= n && m(k).Some? ==> InSomeHit(AllMatches(m, n, i), k)
    decreases n - i
  {
    var f := FirstMatch(m, n, i);
    if f.Some? {
      var h := f.value;
      var rest := AllMatches(m, n, h.end);
      assert AllMatches(m, n, i) == [h] + rest;
      AllMatchesCover(m, n, h.end);
      forall k | i <= k <= n && m(k).Some?
        ensures InSomeHit([h] + rest, k)
      {
        if k < h.end {
          assert ([h] + rest)[0] == h;
        } else {
          InSomeHitCons(h, rest, k);
        }
      }
    }
  }

  /** Every match of `p` in `s` lies inside a hit of the `g` iteration. */
  lemma AllCoversEveryMatch(p: Pattern, s: string)
    ensures forall k :: 0 <= k <= |s| && At(p, s, k).Some? ==> InSomeHit(All(p, s), k)
  {
    MatcherAnchored(p, s);
    MatcherIsAt(p, s);
    AllMatchesCover(Matcher(p, s), |s|, 0);
  }

  // ------------------------------------------------- matches inside a slice

  /** `\s*` scanned in `s[a..b]` stops where it stops in `s`, when that is before `b`. */
  lemma {:induction false} SkipSpacesSlice(s: string, a: nat, b: nat, i: nat)
    requires a <= i <= b <= |s| && SkipSpaces(s, i) < b
    ensures SkipSpaces(s[a..b], i - a) == SkipSpaces(s, i) - a
    decreases b - i
  {
    assert s[a..b][i - a] == s[i];
    if IsSpace(s[i]) {
      SkipSpacesSlice(s, a, b, i + 1);
    }
  }

  /** The closing quote found in `s` before `b` is found in `s[a..b]` too. */
  lemma {:induction false} CloseQuoteSlice(s: string, a: nat, b: nat, k: nat)
    requires a <= k <= b <= |s| && CloseQuote(s, k).Some? && CloseQuote(s, k).value < b
    ensures CloseQuote(s[a..b], k - a) == Some(CloseQuote(s, k).value - a)
    decreases b - k
  {
    assert s[a..b][k - a] == s[k];
    if !IsQuote(s[k]) {
      CloseQuoteSlice(s, a, b, k + 1);
    }
  }

  /** A slice of `s[a..b]` is the same slice of `s`, shifted by `a`. */
  lemma SliceOfSlice(s: string, a: nat, b: nat, i: nat, j: nat)
    requires a <= i <= j <= b <= |s|
    ensures s[a..b][i - a..j - a] == s[i..j]
  {
    var t := s[a..b];
    forall k | 0 <= k < j - i
      ensures t[i - a..j - a][k] == s[i..j][k]
    {
      assert t[i - a + k] == s[i + k];
    }
  }

  /** A literal that ends by `b` is found in `s[a..b]` too. */
  lemma LitAtSlice(s: string, a: nat, b: nat, i: nat, lit: string)
    requires a <= i && i + |lit| <= b <= |s| && LitAt(s, i, lit)
    ensures LitAt(s[a..b], i - a, lit)
  {
    SliceOfSlice(s, a, b, i, i + |lit|);
  }

  /** An attribute head that ends before `b` is found in `s[a..b]` too. */
  lemma AttrHeadSlice(s: string, a: nat, b: nat, p: nat, name: string, sep: char)
    requires a <= p <= b <= |s|
    requires AttrHead(s, p, name, sep).Some? && AttrHead(s, p, name, sep).value < b
    ensures AttrHead(s[a..b], p - a, name, sep) == Some(AttrHead(s, p, name, sep).value - a)
  {
    var t := s[a..b];
    var x := p + |name|;
    LitAtSlice(s, a, b, p, name);
    var e := SkipSpaces(s, x);
    SkipSpacesSlice(s, a, b, x);
    assert t[e - a] == s[e];
    SkipSpacesSlice(s, a, b, e + 1);
  }

  /** A quoted value that ends by `b` is found, with the same text, in `s[a..b]`. */
  lemma QuotedValueSlice(s: string, a: nat, b: nat, d: nat)
    requires a <= d <= b <= |s|
    requires QuotedValue(s, d).Some? && QuotedValue(s, d).value.end <= b
    ensures QuotedValue(s[a..b], d - a).Some?
    ensures QuotedValue(s[a..b], d - a).value.group == QuotedValue(s, d).value.group
  {
    var t := s[a..b];
    var c := CloseQuote(s, d + 1).value;
    assert QuotedValue(s, d).value == Capture(s[d + 1..c], d + 1, c + 1);
    assert t[d - a] == s[d] && IsQuote(t[d - a]);
    CloseQuoteSlice(s, a, b, d + 1);
    SliceOfSlice(s, a, b, d + 1, c);
    assert QuotedValue(t, d - a).value == Capture(t[d + 1 - a..c - a], d + 1 - a, c + 1 - a);
  }

  /** A quoted attribute that ends by `b` is found, with the same value, in `s[a..b]`. */
  lemma QuotedAttrSlice(s: string, a: nat, b: nat, p: nat, name: string, sep: char)
    requires a <= p <= b <= |s|
    requires QuotedAttr(s, p, name, sep).Some? && QuotedAttr(s, p, name, sep).value.end <= b
    ensures QuotedAttr(s[a..b], p - a, name, sep).Some?
    ensures QuotedAttr(s[a..b], p - a, name, sep).value.group == QuotedAttr(s, p, name, sep).value.group
  {
    var q := QuotedAttr(s, p, name, sep).value;
    var d := AttrHead(s, p, name, sep).value;
    assert QuotedValue(s, d) == Some(q);
    assert d < q.end;
    AttrHeadSlice(s, a, b, p, name, sep);
    QuotedValueSlice(s, a, b, d);
    assert QuotedAttr(s[a..b], p - a, name, sep) == QuotedValue(s[a..b], d - a);
  }

  /** An element hit that captured a quoted `path=` attribute holds a `pathProp` match. */
  lemma ElementHasPath(s: string, h: Hit)
    requires WellFormed(s, h) && ElementShape(PathEq, s, h)
    ensures Match(PathProp, s[h.start..h.end]).Some?
  {
    var p :| h.start < p && AttrWithin(PathEq, s, p, h);
    assert AttrAt(PathEq, s, p) == QuotedAttr(s, p, "path", '=');
    PathPropInSlice(s, h.start, h.end, p);
  }

  /** A quoted `path=` attribute that ends by `b` gives `s[a..b]` a `pathProp` match. */
  lemma PathPropInSlice(s: string, a: nat, b: nat, p: nat)
    requires a <= p <= b <= |s|
    requires QuotedAttr(s, p, "path", '=').Some? && QuotedAttr(s, p, "path", '=').value.end <= b
    ensures Match(PathProp, s[a..b]).Some?
  {
    var t := s[a..b];
    var i: nat := p - a;
    QuotedAttrSlice(s, a, b, p, "path", '=');
    assert i <= |t| && QuotedAttr(t, i, "path", '=').Some?;
    PathPropAtAttr(t, i);
  }

  /** `pathProp` finds a match in any text where a quoted `path=` attribute starts. */
  lemma PathPropAtAttr(t: string, i: nat)
    requires i <= |t| && QuotedAttr(t, i, "path", '=').Some?
    ensures Match(PathProp, t).Some?
  {
    assert PathAt(t, i, '=').Some?;
    MatchFindsAnyMatch(PathProp, t, i);
  }

  /** `s.match(p)` finds something whenever `p` matches somewhere. */
  lemma MatchFindsAnyMatch(p: Pattern, s: string, i: nat)
    requires i <= |s| && At(p, s, i).Some?
    ensures Match(p, s).Some?
  {
    SearchIsLeftmost(p, s, 0);
  }

  /** Every text that `routeComponent` matches holds a quoted `path=`
      attribute, so `pathProp` always finds one in it. */
  lemma RouteComponentHasPath(code: string)
    ensures forall t :: t in MatchAll(RouteComponent, code) ==> Match(PathProp, t).Some?
  {
    var hits := All(RouteComponent, code);
    var texts := MatchAll(RouteComponent, code);
    AllAreMatches(RouteComponent, code);
    forall k | 0 <= k < |texts|
      ensures Match(PathProp, texts[k]).Some?
    {
      assert Sound(RouteComponent, code, hits[k]);
      ElementHasPath(code, hits[k]);
    }
  }
}
