/** The two helpers every route parser uses (src/scan/react/extractorUtils.ts):
    the `@tags` comment above a route and the child routes of a route object. */
module Extractors {
  import opened JsText
  import opened Patterns
  import opened Routes

  // ------------------------------------------------------------------ tags

  function Lines(code: string): seq<string> {
    SplitOn(code, '\n')
  }

  /** `lines.findIndex(line => line.includes(m))` from index `i`. */
  function AnchorFrom(lines: seq<string>, m: string, i: nat): (r: Option<nat>)
    requires i <= |lines|
    ensures r.Some? ==> i <= r.value < |lines| && Contains(lines[r.value], m)
    ensures r.Some? ==> forall j :: i <= j < r.value ==> !Contains(lines[j], m)
    ensures r.None? ==> forall j :: i <= j < |lines| ==> !Contains(lines[j], m)
    decreases |lines| - i
  {
    if i == |lines| then None
    else if Contains(lines[i], m) then Some(i)
    else AnchorFrom(lines, m, i + 1)
  }

  /** What the upward scan sees in a line: code (its trimmed text does not
      start with `//`), or a comment with or without an `@tags` payload. */
  datatype LineKind = Code | Comment(marker: Option<string>)

  function Kind(line: string): LineKind {
    var t := Trim(line);
    if !StartsWith(t, "//") then Code
    else match Match(TagMarker, t)
      case Some(h) => Comment(Some(h.group))
      case None => Comment(None)
  }

  /** `payload.split(',').map(tag => tag.trim())`. */
  function TagList(payload: string): (tags: seq<string>)
    ensures |tags| == |SplitOn(payload, ',')|
    ensures forall k :: 0 <= k < |tags| ==> tags[k] == Trim(SplitOn(payload, ',')[k])
  {
    var parts := SplitOn(payload, ',');
    seq(|parts|, k requires 0 <= k < |parts| => Trim(parts[k]))
  }

  /** The tags found scanning upwards from line `i - 1`, each line seen
      through `classify`: the scan stops at the first line that is code, and
      the first comment with a marker supplies the tags. */
  function ScanUp(classify: string -> LineKind, lines: seq<string>, i: nat): seq<string>
    requires i <= |lines|
    decreases i
  {
    if i == 0 then []
    else match classify(lines[i - 1])
      case Code => []
      case Comment(Some(payload)) => TagList(payload)
      case Comment(None) => ScanUp(classify, lines, i - 1)
  }

  /** `extractTags(code, m)` (extractorUtils.ts:6-25). */
  function Tags(code: string, m: string): seq<string> {
    var lines := Lines(code);
    match AnchorFrom(lines, m, 0)
    case None => []
    case Some(r) => ScanUp(Kind, lines, r)
  }

  /** extractorUtils.ts:6-25. */
  method ExtractTags(code: string, routeMatch: string) returns (tags: seq<string>)
    ensures tags == Tags(code, routeMatch)
  {
    var lines := SplitOn(code, '\n');
    var routeLine := AnchorFrom(lines, routeMatch, 0);
    if routeLine.None? {
      return [];
    }
    tags := ScanLinesUp(Kind, lines, routeLine.value);
  }

  /** The upward loop of extractorUtils.ts:14-22 from the line above line
      `start`; `classify` is the loop body's trim, `//` test and `@tags` match. */
  method ScanLinesUp(classify: string -> LineKind, lines: seq<string>, start: nat) returns (tags: seq<string>)
    requires start <= |lines|
    ensures tags == ScanUp(classify, lines, start)
  {
    tags := [];
    var i: int := start - 1;
    while i >= 0
      invariant -1 <= i < start
      invariant ScanUp(classify, lines, i + 1) == ScanUp(classify, lines, start) && tags == []
      decreases i
    {
      var kind := classify(lines[i]);
      if kind == Code {
        break;
      }
      if kind.marker.Some? {
        tags := TagList(kind.marker.value);
        break;
      }
      i := i - 1;
    }
  }

  /** Lines never contain a line break, so a multi-line match never gets tags. */
  lemma MultiLineMatchHasNoTags(code: string, m: string)
    requires '\n' in m
    ensures Tags(code, m) == []
  {
    var lines := Lines(code);
    forall j | 0 <= j < |lines|
      ensures !Contains(lines[j], m)
    {
    }
  }

  /** The nearest marker in an unbroken run of comments above the route wins,
      and a line of code ends the search. */
  lemma {:induction false} ScanUpNearestMarker(classify: string -> LineKind, lines: seq<string>, i: nat, j: nat)
    requires j < i <= |lines|
    requires forall k :: j < k < i ==> classify(lines[k]) == Comment(None)
    ensures classify(lines[j]).Comment? && classify(lines[j]).marker.Some? ==>
      ScanUp(classify, lines, i) == TagList(classify(lines[j]).marker.value)
    ensures classify(lines[j]) == Code ==> ScanUp(classify, lines, i) == []
    decreases i - j
  {
    if j < i - 1 {
      ScanUpNearestMarker(classify, lines, i - 1, j);
    }
  }

  /** Comments without a marker all the way to the top of the file give no tags. */
  lemma {:induction false} ScanUpNoMarker(classify: string -> LineKind, lines: seq<string>, i: nat)
    requires i <= |lines|
    requires forall k :: 0 <= k < i ==> classify(lines[k]) == Comment(None)
    ensures ScanUp(classify, lines, i) == []
    decreases i
  {
    if i > 0 {
      ScanUpNoMarker(classify, lines, i - 1);
    }
  }

  /** A marker yields one tag more than it has commas; each is trimmed and comma-free. */
  lemma TagListShape(payload: string)
    ensures |TagList(payload)| == multiset(payload)[','] + 1
    ensures forall k :: 0 <= k < |TagList(payload)| ==> ',' !in TagList(payload)[k]
    ensures forall k :: 0 <= k < |TagList(payload)| ==> TagList(payload)[k] == Trim(TagList(payload)[k])
  {
    SplitCount(payload, ',');
    var parts := SplitOn(payload, ',');
    forall k | 0 <= k < |parts|
      ensures ',' !in TagList(payload)[k] && TagList(payload)[k] == Trim(TagList(payload)[k])
    {
      TrimIdempotent(parts[k]);
      var a := TrimIsInfix(parts[k]);
    }
  }

  /** `@tags` followed by nothing but line breaks is no marker: `\s+([^\n]+)`
      needs a character that is not a line break after the spaces it takes.
      (Plain spaces are not enough: `\s+` gives one back to the payload.) */
  lemma MarkerNeedsPayload(t: string, i: nat)
    requires LitAt(t, i, "@tags") && SkipSpaces(t, i + 5) == |t|
    requires forall k :: i + 5 <= k < |t| ==> t[k] == '\n'
    ensures TagMarkerAt(t, i).None?
  {
  }

  /** A `// … @tags` comment with nothing after the `@tags` (and no `@tags`
      before it) carries no marker, so the upward scan goes on past it:
      trimming the line removed any spaces that `\s+` could have taken. */
  lemma BareMarkerIsNoMarker(line: string)
    requires StartsWith(Trim(line), "//") && 5 <= |Trim(line)| && LitAt(Trim(line), |Trim(line)| - 5, "@tags")
    requires forall j: nat :: j < |Trim(line)| - 5 ==> !LitAt(Trim(line), j, "@tags")
    ensures Kind(line) == Comment(None)
  {
    var t := Trim(line);
    var n := |t| - 5;
    forall j: nat | j <= |t|
      ensures TagMarkerAt(t, j).None?
    {
      if j == n {
        assert SkipSpaces(t, |t|) == |t|;
      } else if j > n {
        assert !LitAt(t, j, "@tags");
      }
    }
  }

  // -------------------------------------------------------------- children

  /** `extractChildren(routeArray, routeMatch)` (extractorUtils.ts:30-52):
      the first `children: [ … ]` block of the match, up to its first `]`;
      each route object in it whose path value is non-empty becomes a child,
      with its tags looked up in `routeArray` and its own children in the
      block; an empty list is reported as absent. */
  function Children(routeArray: string, routeMatch: string): (r: Option<seq<Route>>)
    ensures r != Some([])
    decreases |routeMatch|, 2
  {
    match Match(ChildrenBlock, routeMatch)
    case None => None
    case Some(h) =>
      if h.group == [] then None
      else
        AtSound(ChildrenBlock, routeMatch, h.start);
        var kids := ObjectRoutes(routeArray, h.group, MatchAll(RouteObject, h.group), |routeMatch|);
        if kids == [] then None else Some(kids)
  }

  /** The routes built from the route-object texts `objs`, in order: tags
      are looked up in `tagSource` and each route's own children in
      `context`. The React parsers and `extractChildren` share this step. */
  function ObjectRoutes(tagSource: string, context: string, objs: seq<string>, ghost bound: nat): seq<Route>
    requires forall k :: 0 <= k < |objs| ==> |objs[k]| < bound
    decreases bound, 0, |objs|
  {
    if objs == [] then []
    else ObjectRoutes(tagSource, context, objs[..|objs| - 1], bound)
         + ObjectRoute(tagSource, context, objs[|objs| - 1])
  }

  /** The route for one route-object text: none when its `path: "…"` value is
      missing or empty, otherwise the trimmed value with the object's tags and
      children and no component. */
  function ObjectRoute(tagSource: string, context: string, obj: string): (r: seq<Route>)
    ensures |r| <= 1
    decreases |obj|, 3
  {
    match Match(ObjectPath, obj)
    case Some(p) =>
      if p.group == [] then []
      else [Route(Trim(p.group), None, Tags(tagSource, obj), Children(context, obj))]
    case None => []
  }

  /** extractorUtils.ts:30-52, recursive like the source. */
  method ExtractChildren(routeArray: string, routeMatch: string) returns (children: Option<seq<Route>>)
    ensures children == Children(routeArray, routeMatch)
    decreases |routeMatch|, 1
  {
    var list: seq<Route> := [];
    var childrenMatch := Match(ChildrenBlock, routeMatch);
    if childrenMatch.Some? && childrenMatch.value.group != [] {
      var childrenArray := childrenMatch.value.group;
      ChildObjectsAreShorter(routeMatch);
      var childObjects := MatchAll(RouteObject, childrenArray);
      list := ExtractChildList(routeArray, childrenArray, childObjects, |routeMatch|);
    }
    children := if |list| > 0 then Some(list) else None;
  }

  /** The loop of extractorUtils.ts:38-48 over the route objects of a `children` block. */
  method ExtractChildList(routeArray: string, childrenArray: string, childObjects: seq<string>, ghost bound: nat)
    returns (list: seq<Route>)
    requires forall k :: 0 <= k < |childObjects| ==> |childObjects[k]| < bound
    ensures list == ObjectRoutes(routeArray, childrenArray, childObjects, bound)
    decreases bound, 0
  {
    list := [];
    var k := 0;
    while k < |childObjects|
      invariant 0 <= k <= |childObjects|
      invariant list == ObjectRoutes(routeArray, childrenArray, childObjects[..k], bound)
    {
      var kid := ExtractObjectRoute(routeArray, childrenArray, childObjects[k], bound);
      list := list + kid;
      assert childObjects[..k + 1][..k] == childObjects[..k];
      k := k + 1;
    }
    assert childObjects[..k] == childObjects;
  }

  /** The route objects of a `children` block are shorter than the text holding the block. */
  lemma ChildObjectsAreShorter(routeMatch: string)
    ensures Match(ChildrenBlock, routeMatch).Some? ==>
      forall k :: 0 <= k < |MatchAll(RouteObject, Match(ChildrenBlock, routeMatch).value.group)| ==>
        |MatchAll(RouteObject, Match(ChildrenBlock, routeMatch).value.group)[k]| < |routeMatch|
  {
    var m := Match(ChildrenBlock, routeMatch);
    if m.Some? {
      AtSound(ChildrenBlock, routeMatch, m.value.start);
    }
  }

  /** The loop body of extractorUtils.ts:39-47 for one object text, also the
      body of every per-object loop of the React parsers. */
  method ExtractObjectRoute(tagSource: string, context: string, obj: string, ghost bound: nat) returns (kid: seq<Route>)
    requires |obj| < bound
    ensures kid == ObjectRoutes(tagSource, context, [obj], bound)
    ensures |kid| <= 1
    decreases |obj|, 2
  {
    kid := [];
    var pathMatch := Match(ObjectPath, obj);
    if pathMatch.Some? && pathMatch.value.group != [] {
      var path := Trim(pathMatch.value.group);
      var tags := ExtractTags(tagSource, obj);
      var children := ExtractChildren(context, obj);
      kid := [Route(path, None, tags, children)];
    }
  }

  /** A children block found in a text whose only `c`-free head is followed
      by a quote-free value and a closing quote lies inside that value. */
  lemma ChildrenBlockInsideValue(t: string, g0: nat, c: Hit)
    requires 0 < g0 < |t| && IsQuote(t[|t| - 1])
    requires forall k :: 0 <= k < g0 ==> t[k] != 'c'
    requires forall k :: g0 <= k < |t| - 1 ==> !IsQuote(t[k])
    requires WellFormed(t, c) && ChildrenShape(t, c)
    ensures QuoteFree(c.group)
  {
    assert g0 <= c.start;
    assert c.end - 1 < |t| - 1;
    forall k | 0 <= k < |c.group|
      ensures !IsQuote(c.group[k])
    {
      assert c.group[k] == t[c.groupAt + k];
    }
  }

  /** A text whose `children` block, if any, is quote-free has no children. */
  lemma QuoteFreeBlockHasNoChildren(routeArray: string, t: string)
    requires Match(ChildrenBlock, t).Some? ==> QuoteFree(Match(ChildrenBlock, t).value.group)
    ensures Children(routeArray, t) == None
  {
    if Match(ChildrenBlock, t).Some? {
      QuoteFreeTextHasNoRouteObject(Match(ChildrenBlock, t).value.group);
    }
  }

  /** What a route-object text looks like on its own: a head without `c`,
      then the quote-free path value from `g0`, then the closing quote. */
  lemma ObjectTextLayout(ca: string, h: Hit) returns (g0: nat)
    requires WellFormed(ca, h) && ObjectShape(ca, h)
    ensures var t := ca[h.start..h.end];
      && 0 < g0 < |t| && IsQuote(t[|t| - 1])
      && (forall k :: 0 <= k < g0 ==> t[k] != 'c')
      && (forall k :: g0 <= k < |t| - 1 ==> !IsQuote(t[k]))
  {
    var t := ca[h.start..h.end];
    g0 := h.groupAt - h.start;
    assert forall k :: 0 <= k < g0 ==> t[k] == ca[h.start + k];
    assert forall k :: g0 <= k < |t| - 1 ==> t[k] == h.group[k - g0];
  }

  /** In such a text the `children` block, if any, is quote-free. */
  lemma LayoutBlockIsQuoteFree(t: string, g0: nat)
    requires 0 < g0 < |t| && IsQuote(t[|t| - 1])
    requires forall k :: 0 <= k < g0 ==> t[k] != 'c'
    requires forall k :: g0 <= k < |t| - 1 ==> !IsQuote(t[k])
    ensures Match(ChildrenBlock, t).Some? ==> QuoteFree(Match(ChildrenBlock, t).value.group)
  {
    var m := Match(ChildrenBlock, t);
    if m.Some? {
      AtSound(ChildrenBlock, t, m.value.start);
      ChildrenBlockInsideValue(t, g0, m.value);
    }
  }

  /** A route-object text ends at the quote that closes its path, so a
      `children` block found in it lies inside the quote-free path value and
      holds no route object: children are never nested more than one level. */
  lemma ObjectTextHasNoChildren(ca: string, h: Hit, routeArray: string)
    requires WellFormed(ca, h) && ObjectShape(ca, h)
    ensures Children(routeArray, ca[h.start..h.end]) == None
  {
    var g0 := ObjectTextLayout(ca, h);
    LayoutBlockIsQuoteFree(ca[h.start..h.end], g0);
    QuoteFreeBlockHasNoChildren(routeArray, ca[h.start..h.end]);
  }

  /** Every child's own `children` is absent. */
  lemma GrandchildrenAbsent(routeArray: string, routeMatch: string)
    ensures Children(routeArray, routeMatch).Some? ==>
      forall k :: 0 <= k < |Children(routeArray, routeMatch).value| ==> Children(routeArray, routeMatch).value[k].children == None
  {
    match Match(ChildrenBlock, routeMatch)
    case None =>
    case Some(h) =>
      if h.group != [] {
        AtSound(ChildrenBlock, routeMatch, h.start);
        var ca := h.group;
        var objs := MatchAll(RouteObject, ca);
        AllAreMatches(RouteObject, ca);
        forall k | 0 <= k < |objs|
          ensures Children(ca, objs[k]) == None
        {
          ObjectTextHasNoChildren(ca, All(RouteObject, ca)[k], ca);
        }
        ObjectRoutesHaveNoChildren(routeArray, ca, objs, |routeMatch|);
      }
  }

  lemma {:induction false} ObjectRoutesHaveNoChildren(routeArray: string, ca: string, objs: seq<string>, bound: nat)
    requires forall k :: 0 <= k < |objs| ==> |objs[k]| < bound
    requires forall k :: 0 <= k < |objs| ==> Children(ca, objs[k]) == None
    ensures forall k :: 0 <= k < |ObjectRoutes(routeArray, ca, objs, bound)| ==> ObjectRoutes(routeArray, ca, objs, bound)[k].children == None
    decreases |objs|
  {
    if objs != [] {
      ObjectRoutesHaveNoChildren(routeArray, ca, objs[..|objs| - 1], bound);
    }
  }
}
