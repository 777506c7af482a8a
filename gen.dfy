/** `genTests` of src/gen.ts: one Playwright spec per discovered route,
    written to `tests/<slug>.spec.ts`, with extra assertions from the first
    AI provider that answers. The discovered routes are an input, and so are
    the providers' answers: `ask(p, route)` is what provider `p` returns for
    `route`, or that it throws. */
module Gen {
  import opened JsText
  import opened TestTemplate

  datatype Provider = Claude | OpenAI | HuggingFace

  /** What an enrichment call comes back with. */
  datatype Answer = Lines(lines: seq<string>) | Threw

  // ------------------------------------------------------------------ slug

  /** `route.replace(/^\//, "")`: one leading '/' removed. */
  function DropLeadingSlash(route: string): string {
    if route != [] && route[0] == '/' then route[1..] else route
  }

  /** gen.ts:38-40: the file-name stem of a route's spec. */
  function Slug(route: string): string {
    if route == "/" then "home" else ReplaceAllChar(DropLeadingSlash(route), '/', '_')
  }

  /** gen.ts:41: the name of a route's spec file inside `tests/`. */
  function SpecFileName(route: string): string {
    Slug(route) + ".spec.ts"
  }

  // ------------------------------------------------------------ enrichment

  /** The lines of the first answer that is not a throw; none when all throw. */
  function FirstAnswer(answers: seq<Answer>): seq<string>
    decreases |answers|
  {
    if answers == [] then []
    else if answers[0].Lines? then answers[0].lines
    else FirstAnswer(answers[1..])
  }

  /** The providers in the order gen.ts:46-67 tries them. */
  function Answers(ask: (Provider, string) -> Answer, route: string): seq<Answer> {
    [ask(Claude, route), ask(OpenAI, route), ask(HuggingFace, route)]
  }

  /** gen.ts:44-67: the extra assertion lines for one route. */
  function Extra(useAI: bool, ask: (Provider, string) -> Answer, route: string): seq<string> {
    if useAI then FirstAnswer(Answers(ask, route)) else []
  }

  /** The nested `try`/`catch` of gen.ts:44-67. */
  method Enrich(useAI: bool, ask: (Provider, string) -> Answer, route: string) returns (extra: seq<string>)
    ensures extra == Extra(useAI, ask, route)
  {
    ExtraFallsBack(useAI, ask, route);
    extra := [];
    if useAI {
      var claude := ask(Claude, route);
      if claude.Lines? {
        extra := claude.lines;
      } else {
        var openAI := ask(OpenAI, route);
        if openAI.Lines? {
          extra := openAI.lines;
        } else {
          var huggingFace := ask(HuggingFace, route);
          if huggingFace.Lines? {
            extra := huggingFace.lines;
          }
        }
      }
    }
  }

  // ------------------------------------------------------------ the files

  /** The `tests/` directory: whether it exists, and its spec files by name. */
  class TestsDir {
    var present: bool
    var files: map<string, string>

    constructor(present: bool, files: map<string, string>)
      ensures this.present == present && this.files == files
    {
      this.present := present;
      this.files := files;
    }

    /** `fs.writeFileSync`: create or overwrite one file. */
    method Write(name: string, content: string)
      modifies this
      ensures present == old(present) && files == old(files)[name := content]
    {
      files := files[name := content];
    }
  }

  /** The spec gen.ts:71 writes for one route. */
  function Spec(useAI: bool, ask: (Provider, string) -> Answer, route: string): string {
    MakeSpec(route, "body", Extra(useAI, ask, route))
  }

  /** The files after writing, for each of `routes` in order, its `spec`
      to the file `nameOf` names. */
  function Written(files: map<string, string>, routes: seq<string>, nameOf: string -> string, spec: string -> string): map<string, string>
    decreases |routes|
  {
    if routes == [] then files
    else
      var route := routes[|routes| - 1];
      Written(files, routes[..|routes| - 1], nameOf, spec)[nameOf(route) := spec(route)]
  }

  /** gen.ts:30-74. */
  method GenTests(useAI: bool, routes: seq<string>, ask: (Provider, string) -> Answer, dir: TestsDir)
    modifies dir
    ensures dir.present
    ensures dir.files == Written(old(dir.files), routes, SpecFileName, route => Spec(useAI, ask, route))
  {
    if !dir.present {
      dir.present := true;
    }
    ghost var files0 := dir.files;
    var k := 0;
    while k < |routes|
      invariant 0 <= k <= |routes|
      invariant dir.present
      invariant dir.files == Written(files0, routes[..k], SpecFileName, route => Spec(useAI, ask, route))
    {
      assert routes[..k + 1][..k] == routes[..k];
      var route := routes[k];
      var extra := Enrich(useAI, ask, route);
      var content := MakeSpec(route, "body", extra);
      dir.Write(SpecFileName(route), content);
      k := k + 1;
    }
    assert routes[..k] == routes;
  }

  // ----------------------------------------------------------- properties

  /** Every route but "/" loses one leading '/' and has every other '/'
      turned into '_': the slug holds no '/' and is one character shorter
      exactly when the route starts with '/'. */
  lemma SlugShape(route: string)
    requires route != "/"
    ensures '/' !in Slug(route)
    ensures |Slug(route)| == if StartsWith(route, "/") then |route| - 1 else |route|
    ensures forall k :: 0 <= k < |Slug(route)| ==> Slug(route)[k] == '_' || Slug(route)[k] == DropLeadingSlash(route)[k]
  {
  }

  lemma HomeSlug()
    ensures Slug("/") == "home" && SpecFileName("/") == "home.spec.ts"
  {
  }

  /** Every spec file lies directly in `tests/` and ends in `.spec.ts`. */
  lemma SpecFileNameShape(route: string)
    ensures '/' !in SpecFileName(route) && EndsWith(SpecFileName(route), ".spec.ts")
  {
    var slug := Slug(route);
    if route == "/" {
      assert '/' !in "home";
    } else {
      SlugShape(route);
    }
    assert '/' !in ".spec.ts";
    var name := SpecFileName(route);
    assert name[|name| - |".spec.ts"|..] == ".spec.ts";
  }

  /** Different routes can share a spec file, and the later one overwrites it. */
  lemma SlugsCollide()
    ensures SpecFileName("/about/team") == SpecFileName("/about_team")
    ensures SpecFileName("/") == SpecFileName("/home")
  {
    assert Slug("/about/team") == "about_team";
    assert Slug("/about_team") == "about_team";
  }

  /** The extras are the lines of the first answer in the given order that
      is not a throw, and none when every answer throws. */
  lemma {:induction false} FirstAnswerIsFirstSuccess(answers: seq<Answer>)
    ensures (forall k :: 0 <= k < |answers| ==> answers[k].Threw?) ==> FirstAnswer(answers) == []
    ensures forall i :: 0 <= i < |answers| && answers[i].Lines? && (forall k :: 0 <= k < i ==> answers[k].Threw?)
                        ==> FirstAnswer(answers) == answers[i].lines
    decreases |answers|
  {
    if answers != [] && answers[0].Threw? {
      FirstAnswerIsFirstSuccess(answers[1..]);
      forall i | 0 < i < |answers| && answers[i].Lines? && (forall k :: 0 <= k < i ==> answers[k].Threw?)
        ensures FirstAnswer(answers) == answers[i].lines
      {
        assert answers[1..][i - 1] == answers[i];
        assert forall k :: 0 <= k < i - 1 ==> answers[1..][k] == answers[k + 1];
      }
    }
  }

  /** With AI off there are no extras; with it on, Claude's answer is used
      unless it throws, then OpenAI's, then Hugging Face's, and none when
      all three throw. */
  lemma ExtraFallsBack(useAI: bool, ask: (Provider, string) -> Answer, route: string)
    ensures !useAI ==> Extra(useAI, ask, route) == []
    ensures useAI && ask(Claude, route).Lines? ==> Extra(useAI, ask, route) == ask(Claude, route).lines
    ensures useAI && ask(Claude, route).Threw? && ask(OpenAI, route).Lines?
      ==> Extra(useAI, ask, route) == ask(OpenAI, route).lines
    ensures useAI && ask(Claude, route).Threw? && ask(OpenAI, route).Threw? && ask(HuggingFace, route).Lines?
      ==> Extra(useAI, ask, route) == ask(HuggingFace, route).lines
    ensures useAI && ask(Claude, route).Threw? && ask(OpenAI, route).Threw? && ask(HuggingFace, route).Threw?
      ==> Extra(useAI, ask, route) == []
  {
    var answers := Answers(ask, route);
    FirstAnswerIsFirstSuccess(answers);
    if useAI {
      assert answers[0] == ask(Claude, route) && answers[1] == ask(OpenAI, route) && answers[2] == ask(HuggingFace, route);
    }
  }

  /** After the writes, the directory holds the files it held before and
      the file of every route. */
  lemma {:induction false} WrittenNames(files: map<string, string>, routes: seq<string>, nameOf: string -> string, spec: string -> string)
    ensures forall name :: name in Written(files, routes, nameOf, spec) <==>
                             name in files || exists k :: 0 <= k < |routes| && nameOf(routes[k]) == name
    decreases |routes|
  {
    if routes != [] {
      var n := |routes| - 1;
      var init := routes[..n];
      WrittenNames(files, init, nameOf, spec);
      assert forall k :: 0 <= k < n ==> init[k] == routes[k];
      forall name | name !in files && (exists k :: 0 <= k < |routes| && nameOf(routes[k]) == name)
        ensures (exists k :: 0 <= k < n && nameOf(init[k]) == name) || name == nameOf(routes[n])
      {
        var k :| 0 <= k < |routes| && nameOf(routes[k]) == name;
        if k < n {
          assert nameOf(init[k]) == name;
        }
      }
    }
  }

  /** A file no route is written to keeps its content. */
  lemma {:induction false} WrittenKeepsOthers(files: map<string, string>, routes: seq<string>, nameOf: string -> string, spec: string -> string, name: string)
    requires name in files && forall k :: 0 <= k < |routes| ==> nameOf(routes[k]) != name
    ensures name in Written(files, routes, nameOf, spec) && Written(files, routes, nameOf, spec)[name] == files[name]
    decreases |routes|
  {
    if routes != [] {
      var n := |routes| - 1;
      assert forall k :: 0 <= k < n ==> routes[..n][k] == routes[k];
      WrittenKeepsOthers(files, routes[..n], nameOf, spec, name);
    }
  }

  /** A route's file holds that route's content unless a later route
      shares the file name and overwrites it. */
  lemma {:induction false} WrittenLastSpec(files: map<string, string>, routes: seq<string>, nameOf: string -> string, spec: string -> string, k: nat)
    requires k < |routes| && forall j :: k < j < |routes| ==> nameOf(routes[j]) != nameOf(routes[k])
    ensures nameOf(routes[k]) in Written(files, routes, nameOf, spec)
    ensures Written(files, routes, nameOf, spec)[nameOf(routes[k])] == spec(routes[k])
    decreases |routes|
  {
    var n := |routes| - 1;
    var name := nameOf(routes[k]);
    if k < n {
      var init := routes[..n];
      assert init[k] == routes[k];
      assert forall j :: k < j < n ==> init[j] == routes[j];
      WrittenLastSpec(files, init, nameOf, spec, k);
      assert nameOf(routes[n]) != name;
      assert Written(files, routes, nameOf, spec) == Written(files, init, nameOf, spec)[nameOf(routes[n]) := spec(routes[n])];
    }
  }

  /** After `genTests`, `tests/` holds the files it held before and one
      spec file per route; each holds the spec of the last route with that
      file name, and every other file is as it was. */
  lemma GenTestsWritesSpecs(files: map<string, string>, routes: seq<string>, useAI: bool, ask: (Provider, string) -> Answer, k: nat)
    requires k < |routes| && forall j :: k < j < |routes| ==> SpecFileName(routes[j]) != SpecFileName(routes[k])
    ensures var r := Written(files, routes, SpecFileName, route => Spec(useAI, ask, route));
      && (forall name :: name in r <==> name in files || exists j :: 0 <= j < |routes| && SpecFileName(routes[j]) == name)
      && (forall name :: name in files && (forall j :: 0 <= j < |routes| ==> SpecFileName(routes[j]) != name) ==> r[name] == files[name])
      && r[SpecFileName(routes[k])] == Spec(useAI, ask, routes[k])
  {
    var spec := route => Spec(useAI, ask, route);
    WrittenNames(files, routes, SpecFileName, spec);
    forall name | name in files && (forall j :: 0 <= j < |routes| ==> SpecFileName(routes[j]) != name)
      ensures Written(files, routes, SpecFileName, spec)[name] == files[name]
    {
      WrittenKeepsOthers(files, routes, SpecFileName, spec, name);
    }
    WrittenLastSpec(files, routes, SpecFileName, spec, k);
  }
}
