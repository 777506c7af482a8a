/** `scanVue` of src/scan/vue.ts: the `to` targets of `<router-link>`
    elements in the templates of single-file components, then the string
    `path` properties of the router configuration files, collected into an
    insertion-ordered set; empty paths and paths starting with ':' are
    dropped from the result. The two glob listings, the component parser
    and the script parser are inputs: a component file arrives as what
    `parseSFC` makes of it, a router file as its object properties in the
    order `traverse` visits them, and `None` stands for a file whose reading
    or parsing throws, which rejects the whole scan. */
module VueScan {
  import opened JsText
  import opened Patterns
  import opened PathSets

  /** The part of `parseSFC`'s descriptor the scanner reads: the content of
      the `<template>` block, if the component has one. */
  datatype Sfc = Sfc(template: Option<string>)

  /** The key of a Babel `ObjectProperty`. */
  datatype Key = IdentifierKey(name: string) | StringKey(text: string) | OtherKey

  /** The value of a Babel `ObjectProperty`. */
  datatype Value = StringValue(text: string) | OtherValue

  datatype Property = Property(key: Key, value: Value)

  /** Every file could be read and parsed. */
  predicate AllRead<T>(files: seq<Option<T>>) {
    forall i :: 0 <= i < |files| ==> files[i].Some?
  }

  // ------------------------------------------------------ router-link targets

  /** The captured `to` value of every `<router-link … to="…"` in a template (vue.ts:22-27). */
  function LinkTargets(template: string): (r: seq<string>)
    ensures |r| == |All(RouterLink, template)|
    ensures forall k :: 0 <= k < |r| ==> r[k] == All(RouterLink, template)[k].group
  {
    var hits := All(RouterLink, template);
    seq(|hits|, k requires 0 <= k < |hits| => hits[k].group)
  }

  /** The targets one component contributes: none without a template (vue.ts:19-20). */
  function SfcTargets(sfc: Sfc): seq<string> {
    match sfc.template
    case Some(template) => LinkTargets(template)
    case None => []
  }

  function FileTargets(file: Option<Sfc>): seq<string> {
    match file
    case Some(sfc) => SfcTargets(sfc)
    case None => []
  }

  function TemplateTargets(files: seq<Option<Sfc>>): seq<string>
    decreases |files|
  {
    if files == [] then []
    else TemplateTargets(files[..|files| - 1]) + FileTargets(files[|files| - 1])
  }

  // ------------------------------------------------------ router config paths

  /** A property keyed `path` (as an identifier or a string literal) whose
      value is a string literal yields that string (vue.ts:38-48). */
  function PropertyPath(p: Property): (r: Option<string>)
    ensures r.Some? <==> (p.key == IdentifierKey("path") || p.key == StringKey("path")) && p.value.StringValue?
    ensures r.Some? ==> r.value == p.value.text
  {
    if (p.key == IdentifierKey("path") || p.key == StringKey("path")) && p.value.StringValue? then
      Some(p.value.text)
    else None
  }

  function PropertyPaths(props: seq<Property>): seq<string>
    decreases |props|
  {
    if props == [] then []
    else
      var last := PropertyPath(props[|props| - 1]);
      PropertyPaths(props[..|props| - 1]) + (if last.Some? then [last.value] else [])
  }

  function FileConfigPaths(file: Option<seq<Property>>): seq<string> {
    match file
    case Some(props) => PropertyPaths(props)
    case None => []
  }

  function ConfigPaths(files: seq<Option<seq<Property>>>): seq<string>
    decreases |files|
  {
    if files == [] then []
    else ConfigPaths(files[..|files| - 1]) + FileConfigPaths(files[|files| - 1])
  }

  // ------------------------------------------------------------- the result

  /** The final filter's test (vue.ts:54): non-empty and not a `:param` segment. */
  predicate Kept(p: string) {
    p != [] && p[0] != ':'
  }

  function KeptPaths(xs: seq<string>): (r: seq<string>)
    ensures forall p :: p in r <==> p in xs && Kept(p)
    decreases |xs|
  {
    if xs == [] then []
    else KeptPaths(xs[..|xs| - 1]) + (if Kept(xs[|xs| - 1]) then [xs[|xs| - 1]] else [])
  }

  /** Every path added to the set, in the order of the `add` calls. */
  function AddedVuePaths(vueFiles: seq<Option<Sfc>>, routerFiles: seq<Option<seq<Property>>>): seq<string> {
    TemplateTargets(vueFiles) + ConfigPaths(routerFiles)
  }

  /** What `scanVue` resolves to; `None` when it rejects. */
  function VueScanResult(vueFiles: seq<Option<Sfc>>, routerFiles: seq<Option<seq<Property>>>): Option<seq<string>> {
    if AllRead(vueFiles) && AllRead(routerFiles) then
      Some(KeptPaths(AddedAll([], AddedVuePaths(vueFiles, routerFiles))))
    else None
  }

  // ---------------------------------------------------------------- methods

  /** vue.ts:8-55. */
  method ScanVue(vueFiles: seq<Option<Sfc>>, routerFiles: seq<Option<seq<Property>>>) returns (result: Option<seq<string>>)
    ensures result == VueScanResult(vueFiles, routerFiles)
  {
    var routes := new PathSet();
    var read := AddTemplateTargets(vueFiles, routes);
    if !read {
      return None;
    }
    read := AddConfigPaths(routerFiles, routes);
    if !read {
      return None;
    }
    AddedAllAppend([], TemplateTargets(vueFiles), ConfigPaths(routerFiles));
    result := Some(KeptPaths(routes.items));
  }

  /** The loop of vue.ts:17-28; `false` when a component cannot be read. */
  method AddTemplateTargets(vueFiles: seq<Option<Sfc>>, routes: PathSet) returns (read: bool)
    modifies routes
    ensures read == AllRead(vueFiles)
    ensures read ==> routes.items == AddedAll(old(routes.items), TemplateTargets(vueFiles))
  {
    ghost var items0 := routes.items;
    var k := 0;
    while k < |vueFiles|
      invariant 0 <= k <= |vueFiles|
      invariant AllRead(vueFiles[..k])
      invariant routes.items == AddedAll(items0, TemplateTargets(vueFiles[..k]))
    {
      if vueFiles[k].None? {
        return false;
      }
      assert vueFiles[..k + 1][..k] == vueFiles[..k];
      assert AllRead(vueFiles[..k + 1]);
      TemplateTargetsStep(items0, vueFiles, k);
      AddFileTargets(vueFiles[k], routes);
      k := k + 1;
    }
    assert vueFiles[..k] == vueFiles;
    return true;
  }

  /** The loop of vue.ts:30-51; `false` when a router file cannot be read or parsed. */
  method AddConfigPaths(routerFiles: seq<Option<seq<Property>>>, routes: PathSet) returns (read: bool)
    modifies routes
    ensures read == AllRead(routerFiles)
    ensures read ==> routes.items == AddedAll(old(routes.items), ConfigPaths(routerFiles))
  {
    ghost var items0 := routes.items;
    var k := 0;
    while k < |routerFiles|
      invariant 0 <= k <= |routerFiles|
      invariant AllRead(routerFiles[..k])
      invariant routes.items == AddedAll(items0, ConfigPaths(routerFiles[..k]))
    {
      if routerFiles[k].None? {
        return false;
      }
      assert routerFiles[..k + 1][..k] == routerFiles[..k];
      assert AllRead(routerFiles[..k + 1]);
      ConfigPathsStep(items0, routerFiles, k);
      AddPropertyPaths(routerFiles[k].value, routes);
      k := k + 1;
    }
    assert routerFiles[..k] == routerFiles;
    return true;
  }

  /** vue.ts:19-27 for one component. */
  method AddFileTargets(file: Option<Sfc>, routes: PathSet)
    modifies routes
    ensures routes.items == AddedAll(old(routes.items), FileTargets(file))
  {
    if file.Some? && file.value.template.Some? {
      AddEach(LinkTargets(file.value.template.value), routes);
    }
  }

  /** The visitor of vue.ts:38-49 for one property. */
  method AddPropertyPath(prop: Property, routes: PathSet)
    modifies routes
    ensures routes.items == AddedAll(old(routes.items), PropertyPaths([prop]))
  {
    assert [prop][..0] == [];
    var key := prop.key;
    if (key.IdentifierKey? && key.name == "path") || (key.StringKey? && key.text == "path") {
      var val := prop.value;
      if val.StringValue? {
        routes.Add(val.text);
        assert [val.text][..0] == [];
      }
    }
  }

  /** vue.ts:25-27: every captured target is added in match order. */
  method AddEach(xs: seq<string>, routes: PathSet)
    modifies routes
    ensures routes.items == AddedAll(old(routes.items), xs)
  {
    ghost var items0 := routes.items;
    var k := 0;
    while k < |xs|
      invariant 0 <= k <= |xs|
      invariant routes.items == AddedAll(items0, xs[..k])
    {
      AddedAllSnoc(items0, xs, k);
      routes.Add(xs[k]);
      k := k + 1;
    }
    assert xs[..k] == xs;
  }

  /** vue.ts:37-50 for one router file's properties, in visiting order. */
  method AddPropertyPaths(props: seq<Property>, routes: PathSet)
    modifies routes
    ensures routes.items == AddedAll(old(routes.items), PropertyPaths(props))
  {
    ghost var items0 := routes.items;
    var k := 0;
    while k < |props|
      invariant 0 <= k <= |props|
      invariant routes.items == AddedAll(items0, PropertyPaths(props[..k]))
    {
      PropertyPathsStep(items0, props, k);
      AddPropertyPath(props[k], routes);
      k := k + 1;
    }
    assert props[..k] == props;
  }

  /** One turn of the loop over components, on the set. */
  lemma TemplateTargetsStep(items: seq<string>, files: seq<Option<Sfc>>, k: nat)
    requires k < |files|
    ensures AddedAll(items, TemplateTargets(files[..k + 1])) == AddedAll(AddedAll(items, TemplateTargets(files[..k])), FileTargets(files[k]))
  {
    assert files[..k + 1][..k] == files[..k];
    AddedAllAppend(items, TemplateTargets(files[..k]), FileTargets(files[k]));
  }

  /** One turn of the loop over router files, on the set. */
  lemma ConfigPathsStep(items: seq<string>, files: seq<Option<seq<Property>>>, k: nat)
    requires k < |files|
    ensures AddedAll(items, ConfigPaths(files[..k + 1])) == AddedAll(AddedAll(items, ConfigPaths(files[..k])), FileConfigPaths(files[k]))
  {
    assert files[..k + 1][..k] == files[..k];
    AddedAllAppend(items, ConfigPaths(files[..k]), FileConfigPaths(files[k]));
  }

  /** One turn of the loop over a router file's properties, on the set. */
  lemma PropertyPathsStep(items: seq<string>, props: seq<Property>, k: nat)
    requires k < |props|
    ensures AddedAll(items, PropertyPaths(props[..k + 1])) == AddedAll(AddedAll(items, PropertyPaths(props[..k])), PropertyPaths([props[k]]))
  {
    assert props[..k + 1][..k] == props[..k];
    assert [props[k]][..0] == [];
    AddedAllAppend(items, PropertyPaths(props[..k]), PropertyPaths([props[k]]));
  }

  // ----------------------------------------------------------- properties

  /** A `<router-link>` target is never empty and holds no quote. */
  lemma LinkTargetsAreQuoteFree(template: string)
    ensures forall t :: t in LinkTargets(template) ==> t != [] && QuoteFree(t)
  {
    AllAreMatches(RouterLink, template);
  }

  lemma {:induction false} KeptPathsAppend(xs: seq<string>, ys: seq<string>)
    ensures KeptPaths(xs + ys) == KeptPaths(xs) + KeptPaths(ys)
    decreases |ys|
  {
    if ys == [] {
      assert xs + ys == xs;
    } else {
      var ys' := ys[..|ys| - 1];
      assert (xs + ys)[..|xs + ys| - 1] == xs + ys';
      KeptPathsAppend(xs, ys');
    }
  }

  lemma {:induction false} KeptPathsDistinct(xs: seq<string>)
    requires Distinct(xs)
    ensures Distinct(KeptPaths(xs))
    decreases |xs|
  {
    if xs != [] {
      var xs' := xs[..|xs| - 1];
      KeptPathsDistinct(xs');
      assert xs[|xs| - 1] !in xs';
    }
  }

  /** A prefix of a list in first-occurrence order is in that order too. */
  lemma OrderPrefix(ys: seq<string>, n: nat, xs: seq<string>)
    requires n <= |ys| && InFirstOccurrenceOrder(ys, xs)
    ensures InFirstOccurrenceOrder(ys[..n], xs)
  {
    forall i, j | 0 <= i < j < n && ys[..n][i] in xs && ys[..n][j] in xs
      ensures FirstIndex(xs, ys[..n][i]) < FirstIndex(xs, ys[..n][j])
    {
      assert ys[..n][i] == ys[i] && ys[..n][j] == ys[j];
    }
  }

  /** A string that first occurs after every member can be appended. */
  lemma OrderSnoc(r: seq<string>, z: string, xs: seq<string>)
    requires InFirstOccurrenceOrder(r, xs) && z in xs
    requires forall y :: y in r ==> y in xs && FirstIndex(xs, y) < FirstIndex(xs, z)
    ensures InFirstOccurrenceOrder(r + [z], xs)
  {
    var r2 := r + [z];
    forall i, j | 0 <= i < j < |r2| && r2[i] in xs && r2[j] in xs
      ensures FirstIndex(xs, r2[i]) < FirstIndex(xs, r2[j])
    {
      assert r2[i] == r[i] && r[i] in r;
      if j < |r| {
        assert r2[j] == r[j];
      }
    }
  }

  /** The step of `KeptPathsKeepOrder` where the last path is kept. */
  lemma KeptLastKeepsOrder(ys: seq<string>, xs: seq<string>)
    requires ys != [] && InFirstOccurrenceOrder(ys, xs)
    requires InFirstOccurrenceOrder(KeptPaths(ys[..|ys| - 1]), xs)
    ensures InFirstOccurrenceOrder(KeptPaths(ys[..|ys| - 1]) + [ys[|ys| - 1]], xs)
  {
    var n := |ys| - 1;
    var r' := KeptPaths(ys[..n]);
    forall y | y in r'
      ensures y in xs && FirstIndex(xs, y) < FirstIndex(xs, ys[n])
    {
      var k :| 0 <= k < n && ys[..n][k] == y;
      assert ys[k] == y;
    }
    OrderSnoc(r', ys[n], xs);
  }

  /** The filter keeps the order of what it keeps. */
  lemma {:induction false} KeptPathsKeepOrder(ys: seq<string>, xs: seq<string>)
    requires InFirstOccurrenceOrder(ys, xs)
    ensures InFirstOccurrenceOrder(KeptPaths(ys), xs)
    decreases |ys|
  {
    if ys != [] {
      var n := |ys| - 1;
      OrderPrefix(ys, n, xs);
      KeptPathsKeepOrder(ys[..n], xs);
      if Kept(ys[n]) {
        KeptLastKeepsOrder(ys, xs);
      }
    }
  }

  /** A read or parse failure anywhere rejects the scan; otherwise it
      resolves to each added path that is non-empty and does not start with
      ':', exactly once, in the order the paths were first added. */
  lemma VueScanIsFilteredSet(vueFiles: seq<Option<Sfc>>, routerFiles: seq<Option<seq<Property>>>)
    ensures VueScanResult(vueFiles, routerFiles).None? <==> !AllRead(vueFiles) || !AllRead(routerFiles)
    ensures var r := VueScanResult(vueFiles, routerFiles);
      r.Some? ==>
        && Distinct(r.value)
        && (forall p :: p in r.value <==> p in AddedVuePaths(vueFiles, routerFiles) && Kept(p))
        && InFirstOccurrenceOrder(r.value, AddedVuePaths(vueFiles, routerFiles))
  {
    var added := AddedVuePaths(vueFiles, routerFiles);
    AddedAllDistinct([], added);
    AddedAllMembers([], added);
    KeptPathsDistinct(AddedAll([], added));
    AddedAllFirstOccurrenceOrder(added);
    KeptPathsKeepOrder(AddedAll([], added), added);
  }

  /** Template targets come before the paths found only in router files. */
  lemma TemplateTargetsComeFirst(vueFiles: seq<Option<Sfc>>, routerFiles: seq<Option<seq<Property>>>)
    requires AllRead(vueFiles) && AllRead(routerFiles)
    ensures var r := VueScanResult(vueFiles, routerFiles).value;
      var targets := TemplateTargets(vueFiles);
      forall i, j :: 0 <= i < j < |r| && r[j] in targets ==> r[i] in targets
  {
    var targets := TemplateTargets(vueFiles);
    var config := ConfigPaths(routerFiles);
    var first := AddedAll([], targets);
    var all := AddedAll([], targets + config);
    AddedAllAppend([], targets, config);
    AddedAllExtends(first, config);
    AddedAllMembers([], targets);
    AddedAllDistinct([], targets + config);
    var rest := all[|first|..];
    assert all == first + rest;
    assert forall p :: p in rest ==> p !in first;
    KeptPathsAppend(first, rest);
    var r := KeptPaths(all);
    var head := KeptPaths(first);
    forall i, j | 0 <= i < j < |r| && r[j] in targets
      ensures r[i] in targets
    {
      assert j < |head|;
      assert r[i] == head[i] && r[i] in head;
    }
  }
}
