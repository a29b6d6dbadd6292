/** The string handling of the connector: the markup stripper applied to every inbound
    body (the global replace of `/<(?:.|\n)*?>/gm` by the empty string) and the
    `Array.prototype.join` that glues the bodies of a multi-part conversation. */
module Text {
  import opened Wrappers

  /** Characters the pattern lets stand between `<` and `>`: the regex dot matches
      everything except the line terminators \n, \r, U+2028 and U+2029, and the
      alternation `(?:.|\n)` admits \n again. */
  predicate InTag(c: char)
  {
    c != '\r' && c != '\U{2028}' && c != '\U{2029}'
  }

  /** Just after an opening `<`, the lazy `(?:.|\n)*?>` ends at index `k` of `t`:
      `t[k]` is `>` and every character before it is a non-`>` tag character. */
  ghost predicate ClosesAt(t: string, k: nat)
  {
    k < |t| && t[k] == '>' && forall m :: 0 <= m < k ==> t[m] != '>' && InTag(t[m])
  }

  /** Where the shortest tag match that starts just before `t` closes, if it closes at all. */
  function CloseIndex(t: string): (r: Option<nat>)
    ensures r.Some? ==> ClosesAt(t, r.value)
    ensures r.None? ==> forall k :: 0 <= k < |t| ==> !ClosesAt(t, k)
  {
    if t == [] then None
    else if t[0] == '>' then Some(0)
    else if !InTag(t[0]) then None
    else
      match CloseIndex(t[1..])
      case Some(k) =>
        assert forall m :: 1 <= m < k + 1 ==> t[m] == t[1..][m - 1];
        Some(k + 1)
      case None =>
        assert forall k :: 1 <= k < |t| ==> ClosesAt(t, k) ==> ClosesAt(t[1..], k - 1);
        None
  }

  /** The markup stripper: scanning left to right, every `<` that the pattern can close
      starts a match that is deleted up to and including its first `>`; any other
      character, an unclosable `<` included, is kept. */
  function StripTags(s: string): (r: string)
    ensures |r| <= |s|
    decreases |s|
  {
    if s == [] then []
    else if s[0] == '<' && CloseIndex(s[1..]).Some? then StripTags(s[CloseIndex(s[1..]).value + 2..])
    else [s[0]] + StripTags(s[1..])
  }

  /** No `<` in `s` starts a match of the tag pattern. */
  ghost predicate TagFree(s: string)
  {
    forall i :: 0 <= i < |s| && s[i] == '<' ==> CloseIndex(s[i + 1..]).None?
  }

  /** `a` is obtained from `b` by deleting characters. */
  ghost predicate IsSubsequence(a: string, b: string)
    decreases |b|
  {
    a == [] || (b != [] && ((a[0] == b[0] && IsSubsequence(a[1..], b[1..])) || IsSubsequence(a, b[1..])))
  }

  lemma {:induction false} SubsequenceOfSuffix(a: string, b: string, k: nat)
    requires k <= |b| && IsSubsequence(a, b[k..])
    ensures IsSubsequence(a, b)
    decreases k
  {
    if k > 0 {
      assert b[k..] == b[1..][k - 1..];
      SubsequenceOfSuffix(a, b[1..], k - 1);
    }
  }

  /** The stripper only deletes characters: its result is a subsequence of its input. */
  lemma {:induction false} StripIsSubsequence(s: string)
    ensures IsSubsequence(StripTags(s), s)
    decreases |s|
  {
    if s == [] {
    } else if s[0] == '<' && CloseIndex(s[1..]).Some? {
      var j := CloseIndex(s[1..]).value + 2;
      StripIsSubsequence(s[j..]);
      SubsequenceOfSuffix(StripTags(s[j..]), s, j);
    } else {
      StripIsSubsequence(s[1..]);
      var r := StripTags(s);
      assert r[0] == s[0] && r[1..] == StripTags(s[1..]);
    }
  }

  lemma TagFreeCons(c: char, t: string)
    requires c == '<' ==> CloseIndex(t).None?
    requires TagFree(t)
    ensures TagFree([c] + t)
  {
    var s := [c] + t;
    forall i | 0 <= i < |s| && s[i] == '<'
      ensures CloseIndex(s[i + 1..]).None?
    {
      if i == 0 {
        assert s[1..] == t;
      } else {
        assert s[i] == t[i - 1] && s[i + 1..] == t[i..];
      }
    }
  }

  lemma TagFreeTail(s: string)
    requires s != [] && TagFree(s)
    ensures TagFree(s[1..])
    ensures s[0] == '<' ==> CloseIndex(s[1..]).None?
  {
    var t := s[1..];
    forall i | 0 <= i < |t| && t[i] == '<'
      ensures CloseIndex(t[i + 1..]).None?
    {
      assert s[i + 1] == t[i] && s[i + 2..] == t[i + 1..];
    }
  }

  /** A `<` that cannot be closed stays unclosable once the rest is stripped: stripping
      removes no `\r`, U+2028 or U+2029 and adds no `>`. */
  lemma {:induction false} StripKeepsUnclosed(t: string)
    requires CloseIndex(t).None?
    ensures CloseIndex(StripTags(t)).None?
    decreases |t|
  {
    if t != [] {
      var r := StripTags(t);
      if !InTag(t[0]) {
        assert r == [t[0]] + StripTags(t[1..]);
        assert r[0] == t[0];
      } else {
        StripKeepsUnclosed(t[1..]);
        assert r == [t[0]] + StripTags(t[1..]);
        assert r[0] == t[0] && r[1..] == StripTags(t[1..]);
      }
    }
  }

  /** Nothing the pattern matches survives stripping. */
  lemma {:induction false} StripIsTagFree(s: string)
    ensures TagFree(StripTags(s))
    decreases |s|
  {
    if s == [] {
    } else if s[0] == '<' && CloseIndex(s[1..]).Some? {
      StripIsTagFree(s[CloseIndex(s[1..]).value + 2..]);
    } else {
      StripIsTagFree(s[1..]);
      if s[0] == '<' {
        StripKeepsUnclosed(s[1..]);
      }
      TagFreeCons(s[0], StripTags(s[1..]));
    }
  }

  /** Text with no tag in it passes through unchanged. */
  lemma {:induction false} TagFreeIsFixed(s: string)
    requires TagFree(s)
    ensures StripTags(s) == s
    decreases |s|
  {
    if s != [] {
      TagFreeTail(s);
      TagFreeIsFixed(s[1..]);
    }
  }

  /** Text that holds a tag becomes strictly shorter. */
  lemma {:induction false} TagShortens(s: string)
    requires !TagFree(s)
    ensures |StripTags(s)| < |s|
    decreases |s|
  {
    if s[0] == '<' && CloseIndex(s[1..]).Some? {
    } else {
      TagShortens(s[1..]);
    }
  }

  /** The inputs the stripper leaves unchanged are exactly the tag-free ones. */
  lemma {:induction false} StripFixedIffTagFree(s: string)
    ensures StripTags(s) == s <==> TagFree(s)
  {
    if TagFree(s) {
      TagFreeIsFixed(s);
    } else {
      TagShortens(s);
    }
  }

  /** Text containing no `<` is returned unchanged. */
  lemma {:induction false} StripWithoutOpenBracket(s: string)
    requires forall i :: 0 <= i < |s| ==> s[i] != '<'
    ensures StripTags(s) == s
  {
    TagFreeIsFixed(s);
  }

  /** Stripping twice is stripping once. */
  lemma {:induction false} StripIdempotent(s: string)
    ensures StripTags(StripTags(s)) == StripTags(s)
  {
    StripIsTagFree(s);
    TagFreeIsFixed(StripTags(s));
  }

  /** `xs.join(sep)`: the elements in order, with `sep` between neighbours. */
  function Join(xs: seq<string>, sep: string): string
    decreases |xs|
  {
    if |xs| == 0 then ""
    else if |xs| == 1 then xs[0]
    else xs[0] + sep + Join(xs[1..], sep)
  }

  /** The total length of the elements of `xs`. */
  function TotalLength(xs: seq<string>): nat
    decreases |xs|
  {
    if xs == [] then 0 else |xs[0]| + TotalLength(xs[1..])
  }

  /** Joining `n > 0` strings adds exactly `n - 1` separators. */
  lemma {:induction false} JoinLength(xs: seq<string>, sep: string)
    requires |xs| > 0
    ensures |Join(xs, sep)| == TotalLength(xs) + (|xs| - 1) * |sep|
    decreases |xs|
  {
    if |xs| > 1 {
      JoinLength(xs[1..], sep);
      assert (|xs| - 1) * |sep| == (|xs| - 2) * |sep| + |sep|;
    }
  }

  /** Appending an element appends one separator and the element. */
  lemma {:induction false} JoinSnoc(xs: seq<string>, y: string, sep: string)
    requires |xs| > 0
    ensures Join(xs + [y], sep) == Join(xs, sep) + sep + y
    decreases |xs|
  {
    if |xs| > 1 {
      assert (xs + [y])[1..] == xs[1..] + [y];
      JoinSnoc(xs[1..], y, sep);
    } else {
      assert (xs + [y])[1..] == [y];
    }
  }
}
