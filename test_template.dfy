/** `makeSpec` of src/gen/testTemplate.ts: the text of the Playwright smoke
    test written for one route. The route and the selector are pasted into
    string literals as they are, without escaping. */
module TestTemplate {
  import opened JsText

  const ImportLine: string := "import { test, expect } from \"@playwright/test\";"

  /** The line that opens the test, titled after the route. */
  function TitleLine(route: string): string {
    "test(\"" + route + " renders\", async ({ page }) => {"
  }

  function GotoLine(route: string): string {
    "  await page.goto(\"" + route + "\");"
  }

  function LocatorLine(rootSel: string): string {
    "  await expect(page.locator(\"" + rootSel + "\")).toBeVisible();"
  }

  /** testTemplate.ts:1-12; the defaults are those of lines 3-4. */
  function MakeSpec(route: string, rootSel: string := "body", extra: seq<string> := []): string {
    ImportLine + "\n\n"
      + TitleLine(route) + "\n"
      + GotoLine(route) + "\n"
      + LocatorLine(rootSel) + "\n"
      + "  " + Join(extra, "\n  ") + "\n"
      + "});\n"
  }

  /** Each string prefixed by `indent`. */
  function Indented(xs: seq<string>, indent: string): (r: seq<string>)
    ensures |r| == |xs| && forall k :: 0 <= k < |xs| ==> r[k] == indent + xs[k]
  {
    seq(|xs|, k requires 0 <= k < |xs| => indent + xs[k])
  }

  /** The lines the extra assertions occupy: each one indented by two
      spaces, in order; with none, a line of just the indentation. */
  function ExtraLines(extra: seq<string>): seq<string> {
    if extra == [] then ["  "] else Indented(extra, "  ")
  }

  /** All the lines of a spec. */
  function SpecLines(route: string, rootSel: string, extra: seq<string>): seq<string> {
    [ImportLine, "", TitleLine(route), GotoLine(route), LocatorLine(rootSel)] + ExtraLines(extra) + ["});", ""]
  }

  // ------------------------------------------------------------- lemmas

  /** Joining with a newline followed by an indent, after a leading
      indent, puts each string on its own indented line. */
  lemma {:induction false} IndentedJoin(xs: seq<string>, indent: string, nl: string)
    requires xs != []
    ensures indent + Join(xs, nl + indent) == Join(Indented(xs, indent), nl)
    decreases |xs|
  {
    if |xs| > 1 {
      IndentedJoin(xs[1..], indent, nl);
      assert Indented(xs, indent) == [indent + xs[0]] + Indented(xs[1..], indent);
      JoinCons(indent + xs[0], Indented(xs[1..], indent), nl);
      JoinCons(xs[0], xs[1..], nl + indent);
      assert xs == [xs[0]] + xs[1..];
    }
  }

  lemma JoinCons(x: string, xs: seq<string>, sep: string)
    requires xs != []
    ensures Join([x] + xs, sep) == x + sep + Join(xs, sep)
  {
    assert ([x] + xs)[1..] == xs;
  }

  /** The five opening lines of a spec, joined, with every piece kept abstract. */
  lemma JoinHead(i: string, t: string, g: string, l: string, nl: string)
    ensures Join([i, [], t, g, l], nl) == i + (nl + nl) + t + nl + g + nl + l
  {
    JoinCons(g, [l], nl);
    assert [t, g, l] == [t] + [g, l];
    JoinCons(t, [g, l], nl);
    assert [[], t, g, l] == [[]] + [t, g, l];
    JoinCons([], [t, g, l], nl);
    assert [i, [], t, g, l] == [i] + [[], t, g, l];
    JoinCons(i, [[], t, g, l], nl);
  }

  /** Joining the lines of a spec, with every piece kept abstract: `x`
      is the text of the extra lines after its first indent. */
  lemma JoinSpecLines(i: string, t: string, g: string, l: string, xs: seq<string>, c: string, ind: string, x: string, nl: string)
    requires xs != [] && ind + x == Join(xs, nl)
    ensures Join([i, [], t, g, l] + xs + [c, []], nl)
      == i + (nl + nl) + t + nl + g + nl + l + nl + ind + x + nl + (c + nl)
  {
    var head := [i, [], t, g, l];
    JoinAppend(head + xs, [c, []], nl);
    JoinAppend(head, xs, nl);
    JoinHead(i, t, g, l, nl);
    JoinCons(c, [[]], nl);
    var h := i + (nl + nl) + t + nl + g + nl + l;
    calc {
      Join(head + xs + [c, []], nl);
      h + nl + (ind + x) + nl + (c + nl);
      h + nl + ind + x + nl + (c + nl);
    }
  }

  /** The spec is its lines joined with newlines. */
  lemma SpecIsItsLines(route: string, rootSel: string, extra: seq<string>)
    ensures MakeSpec(route, rootSel, extra) == Join(SpecLines(route, rootSel, extra), "\n")
  {
    if extra != [] {
      assert "\n  " == "\n" + "  ";
      IndentedJoin(extra, "  ", "\n");
    } else {
      assert Join(ExtraLines(extra), "\n") == "  " + [];
    }
    assert "\n\n" == "\n" + "\n" && "});\n" == "});" + "\n";
    JoinSpecLines(ImportLine, TitleLine(route), GotoLine(route), LocatorLine(rootSel), ExtraLines(extra),
      "});", "  ", Join(extra, "\n  "), "\n");
  }

  lemma ImportLineHasNoNewline()
    ensures '\n' !in ImportLine
  {
    assert '\n' !in "import { test, expect } ";
    assert '\n' !in "from \"@playwright/test\";";
  }

  lemma TitleLineHasNoNewline(route: string)
    requires '\n' !in route
    ensures '\n' !in TitleLine(route)
  {
    assert '\n' !in " renders\", async ({ page }) => {";
  }

  lemma GotoLineHasNoNewline(route: string)
    requires '\n' !in route
    ensures '\n' !in GotoLine(route)
  {
    assert '\n' !in "  await page.goto(\"";
  }

  lemma LocatorLineHasNoNewline(rootSel: string)
    requires '\n' !in rootSel
    ensures '\n' !in LocatorLine(rootSel)
  {
    assert '\n' !in "  await expect(page.locator(\"";
    assert '\n' !in "\")).toBeVisible();";
  }

  /** Read back line by line, a spec opens with the Playwright import, then
      a blank line, the test titled `<route> renders`, the `goto` of the
      route and the visibility check of the selector, both verbatim; then
      each extra assertion on its own line in the given order; and it ends
      with `});` and a final newline. This holds whenever none of the
      inserted texts holds a newline of its own. */
  lemma SpecLayout(route: string, rootSel: string, extra: seq<string>)
    requires '\n' !in route && '\n' !in rootSel
    requires forall k :: 0 <= k < |extra| ==> '\n' !in extra[k]
    ensures SplitOn(MakeSpec(route, rootSel, extra), '\n') == SpecLines(route, rootSel, extra)
  {
    SpecIsItsLines(route, rootSel, extra);
    var lines := SpecLines(route, rootSel, extra);
    ImportLineHasNoNewline();
    TitleLineHasNoNewline(route);
    GotoLineHasNoNewline(route);
    LocatorLineHasNoNewline(rootSel);
    forall k | 0 <= k < |lines|
      ensures '\n' !in lines[k]
    {
      if 5 <= k < |lines| - 2 && extra != [] {
        assert lines[k] == "  " + extra[k - 5];
      }
    }
    SplitJoin(lines, '\n');
  }

  /** For a route without a newline and with the defaults
      (testTemplate.ts:3-4), the spec checks that `body` is visible, and the line for extra assertions holds only indentation. */
  lemma DefaultSpecLayout(route: string)
    requires '\n' !in route
    ensures SplitOn(MakeSpec(route), '\n')
      == [ImportLine, "", TitleLine(route), GotoLine(route), LocatorLine("body"), "  ", "});", ""]
  {
    SpecLayout(route, "body", []);
  }
}
