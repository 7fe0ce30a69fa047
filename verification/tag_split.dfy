/**
 * `text.split(/\[(POST|CONCEPT|VIDEO)\s*\d+\]/i)` and its variants without a
 * capture group and with a single word, as the two generated-content parsers
 * use them. The matcher is the regular expression run at one position, and
 * the split is ECMAScript's `split` loop: scan left to right, and at every
 * position where the expression matches cut out the match.
 */
module TagSplit {
  import opened Wrappers
  import opened Text

  /** The length of the longest prefix of `x` whose characters all satisfy `p`. */
  function Span(x: string, p: char -> bool): (n: nat)
    ensures n <= |x|
    ensures n < |x| ==> !p(x[n])
  {
    if |x| > 0 && p(x[0]) then 1 + Span(x[1..], p) else 0
  }

  /** Characters after the prefix do not change a run that stops inside it. */
  lemma {:induction false} SpanExtend(x: string, y: string, p: char -> bool)
    requires Span(x, p) < |x|
    ensures Span(x + y, p) == Span(x, p)
  {
    if p(x[0]) {
      assert (x + y)[1..] == x[1..] + y;
      SpanExtend(x[1..], y, p);
    }
  }

  /** A run is the same on any prefix that still holds the character ending it. */
  lemma {:induction false} SpanRestrict(x: string, k: nat, p: char -> bool)
    requires Span(x, p) < k <= |x|
    ensures Span(x[..k], p) == Span(x, p)
  {
    if p(x[0]) {
      assert x[..k][1..] == x[1..][..k - 1];
      SpanRestrict(x[1..], k - 1, p);
    }
  }

  /** `\s*\d+\]` matched at the start of `y`: the length of the match. */
  function MatchTail(y: string): (r: Option<nat>)
    ensures r.Some? ==> 2 <= r.value <= |y| && y[r.value - 1] == ']'
  {
    var b := Span(y, IsWhitespace);
    var c := b + Span(y[b..], IsDigit);
    if c == b || c >= |y| || y[c] != ']' then None else Some(c + 1)
  }

  lemma MatchTailExtend(y: string, z: string)
    requires MatchTail(y).Some?
    ensures MatchTail(y + z) == MatchTail(y)
  {
    var b := Span(y, IsWhitespace);
    SpanExtend(y, z, IsWhitespace);
    assert (y + z)[b..] == y[b..] + z;
    SpanExtend(y[b..], z, IsDigit);
  }

  lemma MatchTailRestrict(y: string)
    requires MatchTail(y).Some?
    ensures MatchTail(y[..MatchTail(y).value]) == MatchTail(y)
  {
    var m := MatchTail(y).value;
    var b := Span(y, IsWhitespace);
    SpanRestrict(y, m, IsWhitespace);
    assert y[..m][b..] == y[b..][..m - b];
    SpanRestrict(y[b..], m - b, IsDigit);
  }

  /**
   * `\[W\s*\d+\]` with the `i` flag, matched at the start of `x`, for the
   * upper-case word `W`: the length of the match. Without the unicode flag a
   * non-ASCII character never folds onto an ASCII letter, so ASCII
   * upper-casing decides the word.
   */
  function MatchWord(x: string, w: string): (r: Option<nat>)
    ensures r.Some? ==> 3 + |w| <= r.value <= |x|
  {
    var a := 1 + |w|;
    if |x| == 0 || x[0] != '[' || a > |x| || ToUpper(x[1..a]) != w then None
    else match MatchTail(x[a..])
      case Some(m) => Some(a + m)
      case None => None
  }

  /** A match opens with `[` and the word, in any case, and closes with `]`. */
  lemma MatchWordShape(x: string, w: string)
    requires MatchWord(x, w).Some?
    ensures x[0] == '[' && ToUpper(x[1..1 + |w|]) == w && x[MatchWord(x, w).value - 1] == ']'
  {
  }

  /** A match found in `x` is also found, unchanged, in any extension of `x`. */
  lemma MatchWordExtend(x: string, y: string, w: string)
    requires MatchWord(x, w).Some?
    ensures MatchWord(x + y, w) == MatchWord(x, w)
  {
    var a := 1 + |w|;
    assert (x + y)[1..a] == x[1..a];
    assert (x + y)[a..] == x[a..] + y;
    MatchTailExtend(x[a..], y);
  }

  /** A match is found on the matched text alone. */
  lemma MatchWordRestrict(x: string, w: string)
    requires MatchWord(x, w).Some?
    ensures MatchWord(x[..MatchWord(x, w).value], w) == MatchWord(x, w)
  {
    var n := MatchWord(x, w).value;
    var a := 1 + |w|;
    var m := MatchTail(x[a..]).value;
    assert n == a + m;
    assert x[..n][1..a] == x[1..a];
    assert x[..n][a..] == x[a..][..m];
    MatchTailRestrict(x[a..]);
  }

  /**
   * The alternation `\[(W1|W2|...)\s*\d+\]` at the start of `x`, trying the
   * words in order: the match length and the captured word as written.
   */
  function MatchTag(x: string, words: seq<string>): (r: Option<(nat, string)>)
    ensures r.Some? ==> 0 < r.value.0 <= |x|
    decreases |words|
  {
    if |words| == 0 then None
    else match MatchWord(x, words[0])
      case Some(n) => Some((n, x[1..1 + |words[0]|]))
      case None => MatchTag(x, words[1..])
  }

  /** Whether the expression matches somewhere in `x` only grows with `x`. */
  lemma {:induction false} MatchTagExtend(x: string, y: string, words: seq<string>)
    requires MatchTag(x, words).Some?
    ensures MatchTag(x + y, words).Some?
    decreases |words|
  {
    if MatchWord(x, words[0]).Some? {
      MatchWordExtend(x, y, words[0]);
    } else {
      MatchTagExtend(x, y, words[1..]);
    }
  }

  /** The matched text, taken alone, is matched whole, with the same capture. */
  lemma {:induction false} MatchTagRestrict(x: string, words: seq<string>)
    requires MatchTag(x, words).Some?
    ensures MatchTag(x[..MatchTag(x, words).value.0], words) == MatchTag(x, words)
    decreases |words|
  {
    var n := MatchTag(x, words).value.0;
    var z := x[..n];
    var w0 := words[0];
    if MatchWord(x, w0).Some? {
      MatchWordRestrict(x, w0);
      assert MatchWord(z, w0) == Some(n);
      assert z[1..1 + |w0|] == x[1..1 + |w0|];
    } else {
      assert MatchTag(x, words) == MatchTag(x, words[1..]);
      if MatchWord(z, w0).Some? {
        assert x == z + x[n..];
        MatchWordExtend(z, x[n..], w0);
        assert false;
      }
      MatchTagRestrict(x, words[1..]);
      assert MatchTag(z, words) == MatchTag(z, words[1..]);
    }
  }

  /** No match of the expression starts anywhere in `t`. */
  predicate TagFree(t: string, words: seq<string>) {
    forall j :: 0 <= j < |t| ==> MatchTag(t[j..], words).None?
  }

  /** `raw` is exactly one match of the expression, capturing `word`. */
  predicate IsTag(raw: string, word: string, words: seq<string>) {
    MatchTag(raw, words) == Some((|raw|, word))
  }

  /** A cut-out match: its text and its captured word. */
  datatype Tag = Tag(raw: string, word: string)

  /** The pieces and the matches between them put back together. */
  function Weave(texts: seq<string>, tags: seq<Tag>): string
    requires |texts| == |tags| + 1
    decreases |tags|
  {
    if |tags| == 0 then texts[0] else texts[0] + tags[0].raw + Weave(texts[1..], tags[1..])
  }

  /** No match starts in `s` between `p` and `q`. */
  predicate NoMatchBetween(s: string, words: seq<string>, p: nat, q: nat)
    requires p <= q <= |s|
  {
    forall j :: p <= j < q ==> MatchTag(s[j..], words).None?
  }

  /** A stretch of `s` where no match starts has none starting in it once cut out either. */
  lemma NoMatchGivesTagFree(s: string, words: seq<string>, p: nat, q: nat)
    requires p <= q <= |s| && NoMatchBetween(s, words, p, q)
    ensures TagFree(s[p..q], words)
  {
    var t := s[p..q];
    forall j | 0 <= j < |t|
      ensures MatchTag(t[j..], words).None?
    {
      if MatchTag(t[j..], words).Some? {
        assert t[j..] + s[q..] == s[p + j..];
        MatchTagExtend(t[j..], s[q..], words);
        assert false;
      }
    }
  }

  lemma WeaveCons(t: string, tag: Tag, texts: seq<string>, tags: seq<Tag>)
    requires |texts| == |tags| + 1
    ensures Weave([t] + texts, [tag] + tags) == t + tag.raw + Weave(texts, tags)
  {
    assert ([t] + texts)[1..] == texts && ([tag] + tags)[1..] == tags;
  }

  lemma ConsTagFree(t: string, texts: seq<string>, words: seq<string>)
    requires TagFree(t, words) && forall i :: 0 <= i < |texts| ==> TagFree(texts[i], words)
    ensures forall i :: 0 <= i < |[t] + texts| ==> TagFree(([t] + texts)[i], words)
  {
    forall i | 0 <= i < |[t] + texts|
      ensures TagFree(([t] + texts)[i], words)
    {
      if i > 0 {
        assert ([t] + texts)[i] == texts[i - 1];
      }
    }
  }

  lemma ConsIsTag(tag: Tag, tags: seq<Tag>, words: seq<string>)
    requires IsTag(tag.raw, tag.word, words) && forall i :: 0 <= i < |tags| ==> IsTag(tags[i].raw, tags[i].word, words)
    ensures forall i :: 0 <= i < |[tag] + tags| ==> IsTag(([tag] + tags)[i].raw, ([tag] + tags)[i].word, words)
  {
    forall i | 0 <= i < |[tag] + tags|
      ensures IsTag(([tag] + tags)[i].raw, ([tag] + tags)[i].word, words)
    {
      if i == 0 {
        assert ([tag] + tags)[0] == tag;
      } else {
        assert ([tag] + tags)[i] == tags[i - 1];
      }
    }
  }

  /** The match at `q`, cut out, is exactly one tag. */
  lemma CutTag(s: string, words: seq<string>, q: nat, n: nat, w: string)
    requires q < |s| && MatchTag(s[q..], words) == Some((n, w))
    ensures q + n <= |s| && IsTag(s[q..q + n], w, words)
  {
    MatchTagRestrict(s[q..], words);
    assert s[q..][..n] == s[q..q + n];
  }

  /** One cut of the `split` loop: the piece before a match, the match, then the rest. */
  lemma SplitFromStep(s: string, words: seq<string>, p: nat, q: nat, n: nat, w: string,
                      texts: seq<string>, tags: seq<Tag>)
    requires p <= q < |s| && NoMatchBetween(s, words, p, q)
    requires MatchTag(s[q..], words) == Some((n, w))
    requires |texts| == |tags| + 1 && Weave(texts, tags) == s[q + n..]
    requires forall i :: 0 <= i < |texts| ==> TagFree(texts[i], words)
    requires forall i :: 0 <= i < |tags| ==> IsTag(tags[i].raw, tags[i].word, words)
    ensures var texts' := [s[p..q]] + texts; var tags' := [Tag(s[q..q + n], w)] + tags;
      && Weave(texts', tags') == s[p..]
      && (forall i :: 0 <= i < |texts'| ==> TagFree(texts'[i], words))
      && (forall i :: 0 <= i < |tags'| ==> IsTag(tags'[i].raw, tags'[i].word, words))
  {
    NoMatchGivesTagFree(s, words, p, q);
    ConsTagFree(s[p..q], texts, words);
    CutTag(s, words, q, n, w);
    ConsIsTag(Tag(s[q..q + n], w), tags, words);
    WeaveCons(s[p..q], Tag(s[q..q + n], w), texts, tags);
    SliceSplit(s, q, q + n);
    SliceSplit(s, p, q);
  }

  lemma SliceSplit(s: string, a: nat, b: nat)
    requires a <= b <= |s|
    ensures s[a..] == s[a..b] + s[b..]
  {
  }

  /**
   * The `split` loop from the end `p` of the last match, trying position `q`:
   * the pieces between matches and the matches themselves.
   */
  function SplitFrom(s: string, words: seq<string>, p: nat, q: nat): (r: (seq<string>, seq<Tag>))
    requires p <= q <= |s| && NoMatchBetween(s, words, p, q)
    ensures |r.0| == |r.1| + 1
    ensures Weave(r.0, r.1) == s[p..]
    ensures forall i :: 0 <= i < |r.0| ==> TagFree(r.0[i], words)
    ensures forall i :: 0 <= i < |r.1| ==> IsTag(r.1[i].raw, r.1[i].word, words)
    decreases |s| - q
  {
    if q == |s| then
      NoMatchGivesTagFree(s, words, p, q);
      ([s[p..]], [])
    else match MatchTag(s[q..], words)
      case None => SplitFrom(s, words, p, q + 1)
      case Some((n, w)) =>
        var rest := SplitFrom(s, words, q + n, q + n);
        SplitFromStep(s, words, p, q, n, w, rest.0, rest.1);
        ([s[p..q]] + rest.0, [Tag(s[q..q + n], w)] + rest.1)
  }

  /** The pieces and the matches of `s`, left to right. */
  function Cut(s: string, words: seq<string>): (r: (seq<string>, seq<Tag>))
    ensures |r.0| == |r.1| + 1
    ensures Weave(r.0, r.1) == s
    ensures forall i :: 0 <= i < |r.0| ==> TagFree(r.0[i], words)
    ensures forall i :: 0 <= i < |r.1| ==> IsTag(r.1[i].raw, r.1[i].word, words)
  {
    SplitFrom(s, words, 0, 0)
  }

  /** `s.split(re)` for an expression without a capture group: the pieces alone. */
  function SplitPlain(s: string, words: seq<string>): (r: seq<string>)
    ensures |r| >= 1
    ensures forall i :: 0 <= i < |r| ==> TagFree(r[i], words)
  {
    Cut(s, words).0
  }

  /** Pieces with the captured word of each match between them: `p0, w0, p1, w1, ..., pn`. */
  function Interleave(texts: seq<string>, tags: seq<Tag>): (r: seq<string>)
    requires |texts| == |tags| + 1
    ensures |r| == 2 * |tags| + 1
    ensures forall i :: 0 <= i < |texts| ==> r[2 * i] == texts[i]
    ensures forall i :: 0 <= i < |tags| ==> r[2 * i + 1] == tags[i].word
    decreases |tags|
  {
    if |tags| == 0 then [texts[0]]
    else [texts[0], tags[0].word] + Interleave(texts[1..], tags[1..])
  }

  /** `s.split(re)` for an expression with one capture group: pieces and captures alternate. */
  function SplitCapture(s: string, words: seq<string>): (r: seq<string>)
    ensures |r| == 2 * |Cut(s, words).1| + 1
    ensures forall i :: 0 <= i <= |Cut(s, words).1| ==> TagFree(r[2 * i], words)
  {
    var c := Cut(s, words);
    Interleave(c.0, c.1)
  }

  /** A text without any match splits into itself alone. */
  lemma SplitTagFree(s: string, words: seq<string>)
    requires TagFree(s, words)
    ensures SplitPlain(s, words) == [s]
    ensures SplitCapture(s, words) == [s]
  {
    var c := Cut(s, words);
    if |c.1| > 0 {
      var t := c.1[0];
      assert s == c.0[0] + t.raw + Weave(c.0[1..], c.1[1..]);
      var j := |c.0[0]|;
      assert s[j..] == t.raw + Weave(c.0[1..], c.1[1..]);
      MatchTagExtend(t.raw, Weave(c.0[1..], c.1[1..]), words);
      assert false;
    }
  }

  /** Upper-case tag words of a `[WORD n]` marker, as the parsers use them. */
  const PostWord := "POST"
  const ConceptWord := "CONCEPT"
  const VideoWord := "VIDEO"
}
