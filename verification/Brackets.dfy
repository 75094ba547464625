/** Finding the last bracketed group of a text by walking backward from the last closing
    bracket. The JSON object and the JSON array extraction differ only in the brackets. */
module Brackets {

  datatype Pair = Pair(open: char, close: char)

  const BRACES := Pair('{', '}')
  const SQUARES := Pair('[', ']')

  /** Closing minus opening brackets. */
  function Depth(p: Pair, s: string): int
  {
    if s == "" then 0
    else Depth(p, s[..|s| - 1]) + if s[|s| - 1] == p.close then 1 else if s[|s| - 1] == p.open then -1 else 0
  }

  lemma {:induction false} DepthSplits(p: Pair, a: string, b: string)
    ensures Depth(p, a + b) == Depth(p, a) + Depth(p, b)
  {
    if b == "" {
      assert a + b == a;
    } else {
      assert (a + b)[..|a + b| - 1] == a + b[..|b| - 1];
      DepthSplits(p, a, b[..|b| - 1]);
    }
  }

  /** The first bracket of `g` opens, and is matched by the closing bracket `g` ends with:
      read from the left, the nesting is positive until the very end. */
  ghost predicate IsGroup(p: Pair, g: string)
  {
    && |g| >= 2 && g[0] == p.open && g[|g| - 1] == p.close && Depth(p, g) == 0
    && forall i :: 0 < i < |g| ==> Nested(p, g, i)
  }

  ghost predicate Nested(p: Pair, g: string, i: nat)
    requires i <= |g|
  {
    Depth(p, g[..i]) < 0
  }

  predicate IsLastClose(p: Pair, s: string, end: nat)
  {
    end < |s| && s[end] == p.close && forall k :: end < k < |s| ==> s[k] != p.close
  }

  /** Between `i` and `end` there is a group, and no closing bracket follows it. */
  ghost predicate LastGroup(p: Pair, s: string, i: nat, end: nat)
  {
    i < end && IsLastClose(p, s, end) && IsGroup(p, s[i..end + 1])
  }

  /** Closing brackets prevail from `j` to `end`. */
  ghost predicate Deep(p: Pair, s: string, j: nat, end: nat)
    requires j <= end < |s|
  {
    Depth(p, s[j..end + 1]) > 0
  }

  lemma GroupIsDeep(p: Pair, s: string, i: nat, end: nat, j: nat)
    requires i < end < |s| && IsGroup(p, s[i..end + 1]) && i < j <= end
    ensures Deep(p, s, j, end)
  {
    var g := s[i..end + 1];
    assert g == g[..j - i] + g[j - i..] && g[j - i..] == s[j..end + 1];
    DepthSplits(p, g[..j - i], g[j - i..]);
    assert Nested(p, g, j - i);
  }

  /** A balanced text that closing brackets prevail in from every later position is a group. */
  lemma DeepIsGroup(p: Pair, s: string, i: nat, end: nat)
    requires p.open != p.close && i < end < |s| && s[i] == p.open && s[end] == p.close
    requires Depth(p, s[i..end + 1]) == 0 && forall j :: i < j <= end ==> Deep(p, s, j, end)
    ensures IsGroup(p, s[i..end + 1])
  {
    var g := s[i..end + 1];
    forall k | 0 < k < |g|
      ensures Nested(p, g, k)
    {
      assert g == g[..k] + g[k..] && g[k..] == s[i + k..end + 1];
      DepthSplits(p, g[..k], g[k..]);
      assert Deep(p, s, i + k, end);
    }
  }

  /** There is at most one such group. */
  lemma LastGroupUnique(p: Pair, s: string, i: nat, end: nat, j: nat, last: nat)
    requires LastGroup(p, s, i, end) && LastGroup(p, s, j, last)
    ensures i == j && end == last
  {
    if i < j {
      GroupIsDeep(p, s, i, end, j);
    } else if j < i {
      GroupIsDeep(p, s, j, end, i);
    }
  }

  /** Returns the group that ends with the last closing bracket, and the text itself when
      there is none. */
  method Extract(p: Pair, s: string) returns (r: string)
    requires p.open != p.close
    ensures forall i: nat, end: nat :: LastGroup(p, s, i, end) ==> r == s[i..end + 1]
    ensures r == s || exists i: nat, end: nat :: LastGroup(p, s, i, end) && r == s[i..end + 1]
  {
    var end: int := |s| - 1;
    while end >= 0 && s[end] != p.close
      invariant -1 <= end < |s| && forall k :: end < k < |s| ==> s[k] != p.close
    {
      end := end - 1;
    }
    if end < 0 {
      return s;
    }
    var depth, i: int := 0, end;
    while i >= 0
      invariant -1 <= i <= end && depth == Depth(p, s[i + 1..end + 1])
      invariant forall j :: i < j <= end ==> Deep(p, s, j, end)
    {
      assert s[i..end + 1] == [s[i]] + s[i + 1..end + 1];
      DepthSplits(p, [s[i]], s[i + 1..end + 1]);
      assert [s[i]][..0] == [] && (i < end ==> Deep(p, s, i + 1, end));
      if s[i] == p.close {
        depth := depth + 1;
      } else if s[i] == p.open {
        depth := depth - 1;
        if depth == 0 {
          Found(p, s, i, end);
          return s[i..end + 1];
        }
      }
      assert Deep(p, s, i, end);
      i := i - 1;
    }
    NotFound(p, s, end);
    return s;
  }

  lemma Found(p: Pair, s: string, i: nat, end: nat)
    requires p.open != p.close && i < end < |s| && s[i] == p.open && IsLastClose(p, s, end)
    requires Depth(p, s[i..end + 1]) == 0 && forall j :: i < j <= end ==> Deep(p, s, j, end)
    ensures LastGroup(p, s, i, end)
    ensures forall j: nat, last: nat :: LastGroup(p, s, j, last) ==> j == i && last == end
  {
    DeepIsGroup(p, s, i, end);
    forall j: nat, last: nat | LastGroup(p, s, j, last)
      ensures j == i && last == end
    {
      LastGroupUnique(p, s, i, end, j, last);
    }
  }

  lemma NotFound(p: Pair, s: string, end: nat)
    requires IsLastClose(p, s, end)
    requires forall j :: 0 <= j <= end ==> Deep(p, s, j, end)
    ensures forall i: nat, last: nat :: !LastGroup(p, s, i, last)
  {
    forall i: nat, last: nat
      ensures !LastGroup(p, s, i, last)
    {
      if i <= end {
        assert Deep(p, s, i, end);
      }
    }
  }

  /** A preamble, whatever brackets it holds, a group, and a trailer without closing bracket. */
  ghost predicate Splits(p: Pair, s: string, preamble: string, group: string, trailer: string)
  {
    s == preamble + group + trailer && IsGroup(p, group) && p.close !in trailer
  }

  lemma SplitIsLast(p: Pair, s: string, preamble: string, group: string, trailer: string)
    requires Splits(p, s, preamble, group, trailer)
    ensures LastGroup(p, s, |preamble|, |preamble| + |group| - 1) && s[|preamble|..|preamble| + |group|] == group
  {
    assert s[|preamble|..|preamble| + |group|] == group;
    forall k | |preamble| + |group| <= k < |s|
      ensures s[k] != p.close
    {
      assert s[k] == trailer[k - |preamble| - |group|];
    }
  }

  lemma LastSplits(p: Pair, s: string, i: nat, end: nat)
    requires LastGroup(p, s, i, end)
    ensures Splits(p, s, s[..i], s[i..end + 1], s[end + 1..])
  {
    assert s == s[..i] + s[i..end + 1] + s[end + 1..];
  }

  /** Whenever the text is a preamble, a group and a trailer, the group is returned; otherwise
      the text is. */
  method ExtractGroup(p: Pair, s: string) returns (r: string)
    requires p.open != p.close
    ensures forall preamble, group, trailer :: Splits(p, s, preamble, group, trailer) ==> r == group
    ensures r == s || exists preamble, trailer :: Splits(p, s, preamble, r, trailer)
  {
    r := Extract(p, s);
    AllSplitsAgree(p, s, r);
    if r != s {
      SomeSplit(p, s, r);
    }
  }

  lemma AllSplitsAgree(p: Pair, s: string, r: string)
    requires forall i: nat, end: nat :: LastGroup(p, s, i, end) ==> r == s[i..end + 1]
    ensures forall preamble, group, trailer :: Splits(p, s, preamble, group, trailer) ==> r == group
  {
    forall preamble, group, trailer | Splits(p, s, preamble, group, trailer)
      ensures r == group
    {
      SplitIsLast(p, s, preamble, group, trailer);
    }
  }

  lemma SomeSplit(p: Pair, s: string, r: string)
    requires exists i: nat, end: nat :: LastGroup(p, s, i, end) && r == s[i..end + 1]
    ensures exists preamble, trailer :: Splits(p, s, preamble, r, trailer)
  {
    var i: nat, end: nat :| LastGroup(p, s, i, end) && r == s[i..end + 1];
    LastSplits(p, s, i, end);
  }

  method ExtractJson(s: string) returns (r: string)
    ensures forall preamble, group, trailer :: Splits(Pair('{', '}'), s, preamble, group, trailer) ==> r == group
    ensures r == s || exists preamble, trailer :: Splits(Pair('{', '}'), s, preamble, r, trailer)
  {
    r := ExtractGroup(BRACES, s);
  }

  method ExtractJsonArray(s: string) returns (r: string)
    ensures forall preamble, group, trailer :: Splits(Pair('[', ']'), s, preamble, group, trailer) ==> r == group
    ensures r == s || exists preamble, trailer :: Splits(Pair('[', ']'), s, preamble, r, trailer)
  {
    r := ExtractGroup(SQUARES, s);
  }
}
