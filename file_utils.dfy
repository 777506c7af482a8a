/** `resolveImportPath` (src/scan/react/fileUtils.ts:4-24): the candidate
    file an import specifier names, relative to the importing file. It is a
    pure function of its two strings; nothing in its body can throw, so its
    `catch` branch is never taken. */
module FileUtils {
  import opened JsText

  /** `file.substring(0, file.lastIndexOf('/'))`: the text before the last
      `/`; with no `/` the end index is -1, which `substring` clamps to 0. */
  function DirOf(file: string): (d: string)
    ensures |d| < |file| || d == []
    ensures d == file[..|d|]
    ensures '/' in file ==> file[|d|] == '/' && forall k :: |d| < k < |file| ==> file[k] != '/'
    ensures '/' !in file ==> d == []
  {
    match LastIndexOf(file, '/')
    case Some(k) => file[..k]
    case None => []
  }

  /** `file.substring(0, file.indexOf('src/'))`: the text before the first
      `src/`, or nothing when there is none. */
  function RootOf(file: string): (r: string)
    ensures |r| <= |file| && r == file[..|r|]
    ensures forall k :: 0 <= k < |r| ==> !LitAt(file, k, "src/")
    ensures Contains(file, "src/") ==> LitAt(file, |r|, "src/")
    ensures !Contains(file, "src/") ==> r == []
  {
    match IndexOf(file, "src/", 0)
    case Some(k) => file[..k]
    case None => []
  }

  /** The replacement text `rep` of `importPath.replace(/^\./, rep)` with its
      `$` patterns expanded: `$$` is `$`, `$&` the matched `.`, `` $` `` the
      (empty) text before the match and `$'` the text `after` it; any other
      `$` stands for itself, since the pattern has no capture groups. */
  function Expand(rep: string, after: string): (r: string)
    ensures '$' !in rep ==> r == rep
    decreases |rep|
  {
    if rep == [] then []
    else if rep[0] == '$' && |rep| >= 2 && rep[1] == '$' then "$" + Expand(rep[2..], after)
    else if rep[0] == '$' && |rep| >= 2 && rep[1] == '&' then "." + Expand(rep[2..], after)
    else if rep[0] == '$' && |rep| >= 2 && rep[1] == '`' then Expand(rep[2..], after)
    else if rep[0] == '$' && |rep| >= 2 && rep[1] == '\'' then after + Expand(rep[2..], after)
    else [rep[0]] + Expand(rep[1..], after)
  }

  predicate HasScriptExtension(p: string) {
    EndsWith(p, ".tsx") || EndsWith(p, ".ts")
  }

  /** The path with `.tsx` appended unless it already ends in `.tsx` or `.ts`. */
  function WithExtension(p: string): (r: string)
    ensures HasScriptExtension(r)
    ensures r == p || r == p + ".tsx"
    ensures r == p <==> HasScriptExtension(p)
  {
    if HasScriptExtension(p) then p
    else
      assert EndsWith(p + ".tsx", ".tsx") by {
        assert (p + ".tsx")[|p|..] == ".tsx";
      }
      p + ".tsx"
  }

  /** fileUtils.ts:4-24; `None` stands for `null`. */
  function ResolveImportPath(currentFile: string, importPath: string): (r: Option<string>)
    ensures r.None? <==> !StartsWith(importPath, ".") && !StartsWith(importPath, "src/")
    ensures r.Some? ==> HasScriptExtension(r.value)
  {
    if StartsWith(importPath, ".") then
      Some(WithExtension(Expand(DirOf(currentFile), importPath[1..]) + importPath[1..]))
    else if StartsWith(importPath, "src/") then
      Some(WithExtension(RootOf(currentFile) + importPath))
    else None
  }

  /** What `fs.statSync` finds at a path: a regular file, whose text
      `readFileSync` returns unless reading it fails, or something else (a
      directory, say). A path with no entry makes `statSync` throw. */
  datatype Entry = RegularFile(text: Option<string>) | OtherEntry

  /** `fs.readFileSync(path, "utf8")`, `None` standing for the thrown error. */
  function Read(fs: map<string, Entry>, path: string): (r: Option<string>)
    ensures r.Some? <==> path in fs && fs[path].RegularFile? && fs[path].text.Some?
  {
    if path in fs && fs[path].RegularFile? then fs[path].text else None
  }

  /** The extension step changes nothing on its own output. */
  lemma WithExtensionIdempotent(p: string)
    ensures WithExtension(WithExtension(p)) == WithExtension(p)
  {
  }

  /** A relative specifier resolves to the importing file's directory followed
      by the specifier without its leading `.`, plus the extension step, as
      long as the directory holds no `$`. */
  lemma RelativeImport(currentFile: string, importPath: string)
    requires StartsWith(importPath, ".") && '$' !in DirOf(currentFile)
    ensures ResolveImportPath(currentFile, importPath) == Some(WithExtension(DirOf(currentFile) + importPath[1..]))
  {
  }

  /** A `$'` in the directory repeats the rest of the specifier: the replacement
      is not taken literally. */
  lemma DollarQuoteRepeatsSpecifier()
    ensures ResolveImportPath("a$'/x.tsx", "./b") == Some("a/b/b.tsx")
  {
    assert StartsWith("./b", ".");
    assert DirOf("a$'/x.tsx") == "a$'";
    assert Expand("a$'", "/b") == "a/b" by {
      assert Expand("", "/b") == "";
      assert Expand("$'", "/b") == "/b" + Expand("", "/b");
      assert Expand("a$'", "/b") == "a" + Expand("$'", "/b");
    }
    assert "./b"[1..] == "/b";
    assert "a/b" + "/b" == "a/b/b";
    assert !EndsWith("a/b/b", ".ts") && !EndsWith("a/b/b", ".tsx");
    assert "a/b/b" + ".tsx" == "a/b/b.tsx";
  }

  /** A `src/` specifier resolves against the part of the importing file's
      path before its first `src/`, found at `k`. */
  lemma SourceRootImport(currentFile: string, importPath: string, k: nat)
    requires StartsWith(importPath, "src/")
    requires LitAt(currentFile, k, "src/") && forall j :: 0 <= j < k ==> !LitAt(currentFile, j, "src/")
    ensures ResolveImportPath(currentFile, importPath) == Some(WithExtension(currentFile[..k] + importPath))
  {
    assert importPath[0] == 's';
    assert !StartsWith(importPath, ".");
    var r := RootOf(currentFile);
    assert Contains(currentFile, "src/") by {
      assert IndexOf(currentFile, "src/", 0).Some?;
    }
    assert |r| == k;
  }

  /** An importing file outside any `src/` directory resolves `src/` specifiers to themselves. */
  lemma SourceRootMissing(currentFile: string, importPath: string)
    requires StartsWith(importPath, "src/") && !Contains(currentFile, "src/")
    ensures ResolveImportPath(currentFile, importPath) == Some(WithExtension(importPath))
  {
    assert importPath[0] == 's';
    assert !StartsWith(importPath, ".");
    assert RootOf(currentFile) == [];
    assert [] + importPath == importPath;
  }
}
