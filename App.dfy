/** `stripHtml` of the app shell: `html.replace(/<[^>]*>?/gm, "")`, with a
    null or empty input giving "". Each match starts at a `<` and runs
    greedily up to and including the next `>`, or to the end of the text
    when no `>` follows; everything outside a match is kept in order. */
module App {
  import opened Wrappers

  /** The rest of the text after a tag whose `<` was just consumed: what
      follows the first `>`, or nothing when there is no `>`. */
  function AfterTag(s: string): (r: string)
    ensures |r| <= |s| && r == s[|s| - |r|..]
    ensures '>' !in s ==> r == []
  {
    if s == [] then []
    else if s[0] == '>' then s[1..]
    else AfterTag(s[1..])
  }

  /** The global replacement of every tag by the empty string. */
  function StripTags(s: string): (r: string)
    ensures '<' !in r
    decreases |s|
  {
    if s == [] then []
    else if s[0] == '<' then StripTags(AfterTag(s[1..]))
    else [s[0]] + StripTags(s[1..])
  }

  /** `stripHtml(html)`. */
  function StripHtml(html: Option<string>): (r: string)
    ensures html.None? || html == Some("") ==> r == ""
    ensures '<' !in r
  {
    match html
    case None => ""
    case Some(s) => if s == "" then "" else StripTags(s)
  }

  /** `a` is `b` with some characters deleted. */
  predicate IsSubsequence(a: string, b: string)
    decreases |b|
  {
    if b == [] then a == []
    else (a != [] && a[0] == b[0] && IsSubsequence(a[1..], b[1..])) || IsSubsequence(a, b[1..])
  }

  lemma {:induction false} SubsequenceOfSuffix(a: string, s: string, k: nat)
    requires k <= |s| && IsSubsequence(a, s[k..])
    ensures IsSubsequence(a, s)
    decreases k
  {
    if k > 0 {
      assert s[1..][k - 1..] == s[k..];
      SubsequenceOfSuffix(a, s[1..], k - 1);
    }
  }

  /** Stripping only deletes characters: the output is a subsequence of the input. */
  lemma {:induction false} StripTagsIsSubsequence(s: string)
    ensures IsSubsequence(StripTags(s), s)
    decreases |s|
  {
    if s == [] {
    } else if s[0] == '<' {
      var rest := AfterTag(s[1..]);
      StripTagsIsSubsequence(rest);
      assert s[|s| - |rest|..] == rest;
      SubsequenceOfSuffix(StripTags(s), s, |s| - |rest|);
    } else {
      StripTagsIsSubsequence(s[1..]);
      var r := StripTags(s);
      assert r[1..] == StripTags(s[1..]);
    }
  }

  lemma StripHtmlIsSubsequence(s: string)
    ensures IsSubsequence(StripHtml(Some(s)), s)
  {
    StripTagsIsSubsequence(s);
  }

  /** Text with no `<` is kept as it is, a stray `>` included. */
  lemma {:induction false} TextWithoutTagsUnchanged(s: string)
    requires '<' !in s
    ensures StripTags(s) == s
    decreases |s|
  {
    if s != [] {
      assert '<' !in s[1..];
      TextWithoutTagsUnchanged(s[1..]);
    }
  }

  /** Stripping twice is stripping once. */
  lemma StripHtmlIdempotent(html: Option<string>)
    ensures StripHtml(Some(StripHtml(html))) == StripHtml(html)
  {
    TextWithoutTagsUnchanged(StripHtml(html));
  }

  /** Tag-free text in front of the rest is kept verbatim. */
  lemma {:induction false} PlainPrefixKept(p: string, s: string)
    requires '<' !in p
    ensures StripTags(p + s) == p + StripTags(s)
    decreases |p|
  {
    if p != [] {
      assert (p + s)[1..] == p[1..] + s;
      assert '<' !in p[1..];
      PlainPrefixKept(p[1..], s);
      assert (p + s)[0] == p[0] != '<';
      assert StripTags(p + s) == [p[0]] + (p[1..] + StripTags(s));
      assert [p[0]] + (p[1..] + StripTags(s)) == p + StripTags(s);
    } else {
      assert p + s == s;
    }
  }

  /** A closed tag vanishes together with its `<` and `>`. */
  lemma {:induction false} ClosedTagRemoved(t: string, q: string)
    requires '>' !in t
    ensures StripTags(['<'] + t + ['>'] + q) == StripTags(q)
  {
    AfterClosedTag(t, q);
    assert (['<'] + t + ['>'] + q)[1..] == t + ['>'] + q;
  }

  lemma {:induction false} AfterClosedTag(t: string, q: string)
    requires '>' !in t
    ensures AfterTag(t + ['>'] + q) == q
    decreases |t|
  {
    if t == [] {
      assert t + ['>'] + q == ['>'] + q;
    } else {
      assert (t + ['>'] + q)[1..] == t[1..] + ['>'] + q;
      AfterClosedTag(t[1..], q);
    }
  }

  lemma {:induction false} AfterTagAppend(x: string, t: string)
    ensures '>' in x ==> AfterTag(x + t) == AfterTag(x) + t
    ensures '>' !in x ==> AfterTag(x + t) == AfterTag(t)
    decreases |x|
  {
    if x != [] {
      assert (x + t)[1..] == x[1..] + t;
      AfterTagAppend(x[1..], t);
    } else {
      assert x + t == t;
    }
  }

  /** A `<` with no `>` after it removes everything from there to the end,
      whatever comes before it. */
  lemma {:induction false} UnclosedTagDropsRest(p: string, t: string)
    requires '>' !in t
    ensures StripTags(p + ['<'] + t) == StripTags(p)
    decreases |p|
  {
    var s := p + ['<'] + t;
    if p == [] {
      assert s[1..] == t;
      assert StripTags(s) == StripTags(AfterTag(t));
    } else if p[0] == '<' {
      var x := p[1..];
      assert s[1..] == x + (['<'] + t);
      AfterTagAppend(x, ['<'] + t);
      if '>' in x {
        var y := AfterTag(x);
        assert y + ['<'] + t == y + (['<'] + t);
        UnclosedTagDropsRest(y, t);
      } else {
        assert AfterTag(['<'] + t) == AfterTag(t);
      }
    } else {
      assert s[1..] == p[1..] + ['<'] + t;
      UnclosedTagDropsRest(p[1..], t);
    }
  }
}
