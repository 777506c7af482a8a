/** The JavaScript string built-ins the route scanners rely on: the `\s`
    character class (which is also what `trim()` removes), `.`'s line
    terminators, `\w`, `startsWith`/`endsWith`/`includes`/`indexOf`,
    `lastIndexOf`, `split` on one character and `join`. */
module JsText {

  datatype Option<T> = None | Some(value: T) {
    predicate IsFailure() { None? }
    function PropagateFailure<U>(): Option<U> requires None? { None }
    function Extract(): T requires Some? { value }
  }

  /** `\s` in a JavaScript regular expression; also the set `trim()` strips. */
  predicate IsSpace(c: char) {
    || c == ' ' || c == '\t' || c == '\n' || c == '\r' || c == '\U{000B}' || c == '\U{000C}'
    || c == '\U{00A0}' || c == '\U{1680}' || ('\U{2000}' <= c <= '\U{200A}')
    || c == '\U{2028}' || c == '\U{2029}' || c == '\U{202F}' || c == '\U{205F}'
    || c == '\U{3000}' || c == '\U{FEFF}'
  }

  /** The characters `.` does not match (no `s` flag is used anywhere). */
  predicate IsLineTerminator(c: char) {
    c == '\n' || c == '\r' || c == '\U{2028}' || c == '\U{2029}'
  }

  /** `["']`. */
  predicate IsQuote(c: char) { c == '"' || c == '\'' }

  /** `\w`. */
  predicate IsWordChar(c: char) {
    ('a' <= c <= 'z') || ('A' <= c <= 'Z') || ('0' <= c <= '9') || c == '_'
  }

  predicate StartsWith(s: string, t: string) { |t| <= |s| && s[..|t|] == t }

  predicate EndsWith(s: string, t: string) { |t| <= |s| && s[|s| - |t|..] == t }

  /** `t` occurs in `s` starting at index `i`. */
  predicate LitAt(s: string, i: nat, t: string) { i + |t| <= |s| && s[i..i + |t|] == t }

  /** The end of the longest run of `\s` starting at `i` (a greedy `\s*`). */
  function SkipSpaces(s: string, i: nat): (j: nat)
    requires i <= |s|
    ensures i <= j <= |s|
    ensures forall k :: i <= k < j ==> IsSpace(s[k])
    ensures j == |s| || !IsSpace(s[j])
    decreases |s| - i
  {
    if i < |s| && IsSpace(s[i]) then SkipSpaces(s, i + 1) else i
  }

  /** The end of the longest run of `\w` starting at `i` (a greedy `\w*`). */
  function SkipWord(s: string, i: nat): (j: nat)
    requires i <= |s|
    ensures i <= j <= |s|
    ensures forall k :: i <= k < j ==> IsWordChar(s[k])
    ensures j == |s| || !IsWordChar(s[j])
    decreases |s| - i
  {
    if i < |s| && IsWordChar(s[i]) then SkipWord(s, i + 1) else i
  }

  /** `s.indexOf(c, i)` for a single character, `None` for -1. */
  function Find(s: string, c: char, i: nat): (r: Option<nat>)
    requires i <= |s|
    ensures r.Some? ==> i <= r.value < |s| && s[r.value] == c
    ensures r.Some? ==> forall k :: i <= k < r.value ==> s[k] != c
    ensures r.None? ==> forall k :: i <= k < |s| ==> s[k] != c
    decreases |s| - i
  {
    if i == |s| then None else if s[i] == c then Some(i) else Find(s, c, i + 1)
  }

  /** Like `Find`, with "not found" reported as the end of the text. */
  function FindOrEnd(s: string, c: char, i: nat): (j: nat)
    requires i <= |s|
    ensures i <= j <= |s|
    ensures j < |s| ==> s[j] == c
    ensures forall k :: i <= k < j ==> s[k] != c
  {
    match Find(s, c, i)
    case Some(j) => j
    case None => |s|
  }

  /** `s.indexOf(t, i)`; the empty `t` is found at `i`. */
  function IndexOf(s: string, t: string, i: nat): (r: Option<nat>)
    requires i <= |s|
    ensures r.Some? ==> i <= r.value && LitAt(s, r.value, t)
    ensures r.Some? ==> forall k :: i <= k < r.value ==> !LitAt(s, k, t)
    ensures r.None? ==> forall k :: i <= k <= |s| ==> !LitAt(s, k, t)
    decreases |s| - i
  {
    if LitAt(s, i, t) then Some(i) else if i == |s| then None else IndexOf(s, t, i + 1)
  }

  /** `s.includes(t)`. */
  predicate Contains(s: string, t: string) { IndexOf(s, t, 0).Some? }

  /** `s.lastIndexOf(c)` for a single character. */
  function LastIndexOf(s: string, c: char): (r: Option<nat>)
    ensures r.Some? ==> r.value < |s| && s[r.value] == c
    ensures r.Some? ==> forall k :: r.value < k < |s| ==> s[k] != c
    ensures r.None? ==> forall k :: 0 <= k < |s| ==> s[k] != c
  {
    if s == [] then None
    else if s[|s| - 1] == c then Some(|s| - 1)
    else LastIndexOf(s[..|s| - 1], c)
  }

  /** `s.trimStart()`. */
  function TrimStart(s: string): (r: string)
    ensures |r| <= |s|
    ensures r == [] || !IsSpace(r[0])
  {
    if s != [] && IsSpace(s[0]) then TrimStart(s[1..]) else s
  }

  /** `s.trimEnd()`. */
  function TrimEnd(s: string): (r: string)
    ensures |r| <= |s|
    ensures r == [] || !IsSpace(r[|r| - 1])
    ensures r != [] ==> r[0] == s[0]
  {
    if s != [] && IsSpace(s[|s| - 1]) then TrimEnd(s[..|s| - 1]) else s
  }

  /** `s.trim()`: the text between the leading and the trailing run of `\s`. */
  function Trim(s: string): (r: string)
    ensures |r| <= |s|
    ensures r == [] || (!IsSpace(r[0]) && !IsSpace(r[|r| - 1]))
  {
    TrimEnd(TrimStart(s))
  }

  /** `trimStart` drops a run of `\s` and keeps the rest. */
  lemma {:induction false} TrimStartDropsSpaces(s: string)
    ensures TrimStart(s) == s[|s| - |TrimStart(s)|..]
    ensures forall k :: 0 <= k < |s| - |TrimStart(s)| ==> IsSpace(s[k])
    decreases |s|
  {
    if s != [] && IsSpace(s[0]) {
      TrimStartDropsSpaces(s[1..]);
    }
  }

  /** `trimEnd` keeps a prefix and drops the run of `\s` after it. */
  lemma {:induction false} TrimEndDropsSpaces(s: string)
    ensures TrimEnd(s) == s[..|TrimEnd(s)|]
    ensures forall k :: |TrimEnd(s)| <= k < |s| ==> IsSpace(s[k])
    decreases |s|
  {
    if s != [] && IsSpace(s[|s| - 1]) {
      TrimEndDropsSpaces(s[..|s| - 1]);
    }
  }

  /** `trim` returns a contiguous piece of its input and drops only `\s` around it. */
  lemma TrimIsInfix(s: string) returns (a: nat)
    ensures a + |Trim(s)| <= |s| && Trim(s) == s[a..a + |Trim(s)|]
    ensures forall k :: 0 <= k < a ==> IsSpace(s[k])
    ensures forall k :: a + |Trim(s)| <= k < |s| ==> IsSpace(s[k])
  {
    var t := TrimStart(s);
    TrimStartDropsSpaces(s);
    a := |s| - |t|;
    var r := TrimEnd(t);
    TrimEndDropsSpaces(t);
    SpacesAfter(s, a, |r|);
    assert r == s[a..a + |r|] by {
      assert r == t[..|r|];
    }
  }

  /** Spaces from position `n` of a suffix are spaces from `a + n` of the whole text. */
  lemma SpacesAfter(s: string, a: nat, n: nat)
    requires a <= |s|
    requires forall k :: n <= k < |s| - a ==> IsSpace(s[a..][k])
    ensures forall k :: a + n <= k < |s| ==> IsSpace(s[k])
  {
    forall k | a + n <= k < |s|
      ensures IsSpace(s[k])
    {
      assert s[k] == s[a..][k - a];
    }
  }

  /** A text with no `\s` at either end is its own trim. */
  lemma TrimmedIsFixed(s: string)
    requires s == [] || (!IsSpace(s[0]) && !IsSpace(s[|s| - 1]))
    ensures Trim(s) == s
  {
  }

  /** Trimming is idempotent. */
  lemma TrimIdempotent(s: string)
    ensures Trim(Trim(s)) == Trim(s)
  {
    TrimmedIsFixed(Trim(s));
  }

  /** `s.split(c)` for a one-character separator: the pieces between
      occurrences of `c`, empty pieces included. */
  function SplitOn(s: string, c: char): (parts: seq<string>)
    ensures |parts| >= 1
    ensures forall k :: 0 <= k < |parts| ==> c !in parts[k]
    decreases |s|
  {
    match Find(s, c, 0)
    case None => [s]
    case Some(k) => [s[..k]] + SplitOn(s[k + 1..], c)
  }

  /** `parts.join(sep)`. */
  function Join(parts: seq<string>, sep: string): string
    decreases |parts|
  {
    if parts == [] then ""
    else if |parts| == 1 then parts[0]
    else parts[0] + sep + Join(parts[1..], sep)
  }

  /** Splitting on `c` and joining with `c` gives the text back. */
  lemma {:induction false} JoinSplit(s: string, c: char)
    ensures Join(SplitOn(s, c), [c]) == s
    decreases |s|
  {
    match Find(s, c, 0)
    case None =>
    case Some(k) =>
      var rest := SplitOn(s[k + 1..], c);
      JoinSplit(s[k + 1..], c);
      var parts := [s[..k]] + rest;
      assert parts[1..] == rest;
      assert Join(parts, [c]) == s[..k] + [c] + Join(rest, [c]);
      assert s == s[..k] + [c] + s[k + 1..];
  }

  /** Joining with `c` pieces that hold no `c` and splitting on `c` gives the pieces back. */
  lemma {:induction false} SplitJoin(parts: seq<string>, c: char)
    requires |parts| >= 1
    requires forall k :: 0 <= k < |parts| ==> c !in parts[k]
    ensures SplitOn(Join(parts, [c]), c) == parts
    decreases |parts|
  {
    var s := Join(parts, [c]);
    if |parts| == 1 {
      assert Find(s, c, 0).None?;
    } else {
      var rest := Join(parts[1..], [c]);
      SplitJoin(parts[1..], c);
      assert s == parts[0] + [c] + rest;
      assert s[|parts[0]|] == c;
      assert forall k :: 0 <= k < |parts[0]| ==> s[k] == parts[0][k];
      assert Find(s, c, 0) == Some(|parts[0]|);
      assert s[..|parts[0]|] == parts[0] && s[|parts[0]| + 1..] == rest;
      assert parts == [parts[0]] + parts[1..];
    }
  }

  /** Joining two non-empty lists puts one separator between their joins. */
  lemma {:induction false} JoinAppend(xs: seq<string>, ys: seq<string>, sep: string)
    requires xs != [] && ys != []
    ensures Join(xs + ys, sep) == Join(xs, sep) + sep + Join(ys, sep)
    decreases |xs|
  {
    if |xs| == 1 {
      assert (xs + ys)[1..] == ys;
    } else {
      assert (xs + ys)[1..] == xs[1..] + ys;
      JoinAppend(xs[1..], ys, sep);
    }
  }

  /** `split` yields one more piece than there are separators. */
  lemma {:induction false} SplitCount(s: string, c: char)
    ensures |SplitOn(s, c)| == multiset(s)[c] + 1
    decreases |s|
  {
    match Find(s, c, 0)
    case None =>
      assert c !in multiset(s);
    case Some(k) =>
      SplitCount(s[k + 1..], c);
      assert s == s[..k] + [c] + s[k + 1..];
      assert c !in multiset(s[..k]);
  }

  /** `s.replace(/c/g, d)` for one-character pattern and replacement. */
  function ReplaceAllChar(s: string, c: char, d: char): (r: string)
    ensures |r| == |s|
    ensures forall k :: 0 <= k < |s| ==> r[k] == if s[k] == c then d else s[k]
  {
    seq(|s|, k requires 0 <= k < |s| => if s[k] == c then d else s[k])
  }

  // ------------------------------------------------- sequences of strings

  /** No string occurs twice. */
  predicate Distinct(xs: seq<string>) {
    forall i, j :: 0 <= i < j < |xs| ==> xs[i] != xs[j]
  }

  /** The index of the first occurrence of `k` in `xs`. */
  function FirstIndex(xs: seq<string>, k: string): (i: nat)
    requires k in xs
    ensures i < |xs| && xs[i] == k && forall j :: 0 <= j < i ==> xs[j] != k
  {
    if xs[0] == k then 0 else 1 + FirstIndex(xs[1..], k)
  }

  /** First occurrences inside a prefix are first occurrences in the whole sequence. */
  lemma FirstIndexPrefix(xs: seq<string>, n: nat, k: string)
    requires n <= |xs| && k in xs[..n]
    ensures k in xs && FirstIndex(xs, k) == FirstIndex(xs[..n], k)
  {
    var i := FirstIndex(xs[..n], k);
    assert xs[..n][i] == xs[i];
    assert forall j :: 0 <= j < i ==> xs[..n][j] == xs[j];
  }
}
