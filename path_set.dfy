/** The insertion-ordered JavaScript `Set<string>` the simple scanners
    collect paths into (react.ts:17, vue.ts:15): `add` of a member changes
    nothing, `add` of a new string appends it, and `Array.from` lists the
    members in the order they were first added. */
module PathSets {
  import opened JsText

  /** The members after `set.add(x)`. */
  function Added(items: seq<string>, x: string): (r: seq<string>)
    ensures x in r && forall y :: y in r <==> y == x || y in items
  {
    if x in items then items else items + [x]
  }

  /** The members after adding each of `xs` in turn. */
  function AddedAll(items: seq<string>, xs: seq<string>): seq<string>
    decreases |xs|
  {
    if xs == [] then items else Added(AddedAll(items, xs[..|xs| - 1]), xs[|xs| - 1])
  }

  class PathSet {
    /** The members in insertion order (what `Array.from` returns). */
    var items: seq<string>

    constructor()
      ensures items == []
    {
      items := [];
    }

    method Add(x: string)
      modifies this
      ensures items == Added(old(items), x)
    {
      if x !in items {
        items := items + [x];
      }
    }
  }

  // ------------------------------------------------------------- lemmas

  lemma AddedAllSnoc(items: seq<string>, xs: seq<string>, k: nat)
    requires k < |xs|
    ensures AddedAll(items, xs[..k + 1]) == Added(AddedAll(items, xs[..k]), xs[k])
  {
    assert xs[..k + 1][..k] == xs[..k];
  }

  /** Adding one batch after another is adding their concatenation. */
  lemma {:induction false} AddedAllAppend(items: seq<string>, xs: seq<string>, ys: seq<string>)
    ensures AddedAll(items, xs + ys) == AddedAll(AddedAll(items, xs), ys)
    decreases |ys|
  {
    if ys == [] {
      assert xs + ys == xs;
    } else {
      var ys' := ys[..|ys| - 1];
      assert (xs + ys)[..|xs + ys| - 1] == xs + ys';
      AddedAllAppend(items, xs, ys');
    }
  }

  /** A set never holds a string twice. */
  lemma {:induction false} AddedAllDistinct(items: seq<string>, xs: seq<string>)
    requires Distinct(items)
    ensures Distinct(AddedAll(items, xs))
    decreases |xs|
  {
    if xs != [] {
      AddedAllDistinct(items, xs[..|xs| - 1]);
    }
  }

  /** The members are exactly the strings already there and the ones added. */
  lemma {:induction false} AddedAllMembers(items: seq<string>, xs: seq<string>)
    ensures forall y :: y in AddedAll(items, xs) <==> y in items || y in xs
    decreases |xs|
  {
    if xs != [] {
      var xs' := xs[..|xs| - 1];
      AddedAllMembers(items, xs');
      assert xs == xs' + [xs[|xs| - 1]];
    }
  }

  /** Adding never moves or removes a member: the old members stay a prefix. */
  lemma {:induction false} AddedAllExtends(items: seq<string>, xs: seq<string>)
    ensures |items| <= |AddedAll(items, xs)| && AddedAll(items, xs)[..|items|] == items
    decreases |xs|
  {
    if xs != [] {
      AddedAllExtends(items, xs[..|xs| - 1]);
    }
  }

  /** Every string of `r` occurs in `xs`, and `r` lists them in the order
      of their first occurrence there. */
  predicate InFirstOccurrenceOrder(r: seq<string>, xs: seq<string>) {
    (forall y :: y in r ==> y in xs)
    && forall i, j :: 0 <= i < j < |r| && r[i] in xs && r[j] in xs ==> FirstIndex(xs, r[i]) < FirstIndex(xs, r[j])
  }

  /** Starting from an empty set, the members come in the order of their
      first occurrence among the added strings. */
  lemma {:induction false} AddedAllFirstOccurrenceOrder(xs: seq<string>)
    ensures InFirstOccurrenceOrder(AddedAll([], xs), xs)
    decreases |xs|
  {
    if xs != [] {
      var n := |xs| - 1;
      var xs' := xs[..n];
      var prev := AddedAll([], xs');
      AddedAllFirstOccurrenceOrder(xs');
      AddedAllMembers([], xs');
      assert xs == xs' + [xs[n]];
      forall y | y in prev
        ensures y in xs && FirstIndex(xs, y) == FirstIndex(xs', y) < n
      {
        FirstIndexPrefix(xs, n, y);
      }
      if xs[n] !in prev {
        assert xs[n] !in xs';
        assert FirstIndex(xs, xs[n]) == n;
        var r := prev + [xs[n]];
        forall i, j | 0 <= i < j < |r| && r[i] in xs && r[j] in xs
          ensures FirstIndex(xs, r[i]) < FirstIndex(xs, r[j])
        {
          assert r[i] == prev[i] && prev[i] in prev;
          if j < |prev| {
            assert r[j] == prev[j] && prev[j] in prev;
          }
        }
      }
    }
  }
}
