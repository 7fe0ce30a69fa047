/**
 * The two parsers that turn generated text into display items: `formatContent`
 * of src/components/PDFView.js (one expression for all three content types,
 * with a capture group) and `formatContent` of src/components/PDFUpload.js
 * (one expression per content type, no capture group, and an extra filter
 * for video ideas). Each section of text becomes either a post (twitter) or
 * a map of `key: value` lines (the other types).
 */
module Sections {
  import opened Wrappers
  import opened Docs
  import opened Text
  import opened TagSplit

  datatype Item = Post(content: string) | Fields(fields: map<string, string>)

  /** `array.filter(keep)`: the elements that pass, in order. */
  function Filter(xs: seq<string>, keep: string -> bool): (r: seq<string>)
    ensures |r| <= |xs|
    ensures forall i :: 0 <= i < |r| ==> keep(r[i]) && r[i] in xs
    ensures forall x :: x in xs && keep(x) ==> x in r
    ensures forall x :: multiset(r)[x] == (if keep(x) then multiset(xs)[x] else 0)
    ensures |xs| == 1 ==> r == (if keep(xs[0]) then xs else [])
  {
    if |xs| == 0 then []
    else
      var rest := Filter(xs[1..], keep);
      assert xs == [xs[0]] + xs[1..];
      assert forall x :: x in xs[1..] ==> x in xs;
      assert forall x :: x in xs ==> x == xs[0] || x in xs[1..];
      if keep(xs[0]) then [xs[0]] + rest else rest
  }

  /**
   * Filtering distributes over concatenation; with the one-element case of
   * `Filter`'s contract this fixes the order of the result: the kept
   * elements appear as they do in the input.
   */
  lemma {:induction false} FilterAppend(a: seq<string>, b: seq<string>, keep: string -> bool)
    ensures Filter(a + b, keep) == Filter(a, keep) + Filter(b, keep)
  {
    if |a| > 0 {
      assert (a + b)[1..] == a[1..] + b;
      FilterAppend(a[1..], b, keep);
    } else {
      assert a + b == b;
    }
  }

  /** The property name whose assignment on a plain object is a prototype setter, ignored for strings. */
  const ProtoKey := "__proto__"

  /** The text before the first `:` and the text after it, when the line has one. */
  lemma LineParts(line: string)
    ensures ':' !in line ==> Split(line, ':') == [line]
    ensures ':' in line ==>
      && |Split(line, ':')| >= 2
      && Split(line, ':')[0] == line[..FirstIndex(line, ':')]
      && Join(Split(line, ':')[1..], ':') == line[FirstIndex(line, ':') + 1..]
  {
    if ':' in line {
      SplitHeadRest(line, ':');
    } else {
      SplitNoSep(line, ':');
    }
  }

  /**
   * One line of a section: `[key, ...value] = line.split(':')`, kept when
   * `key && value.length`, as `key.trim().toLowerCase()` to
   * `value.join(':').trim()`.
   */
  function LineEntry(line: string): Option<(string, string)> {
    var parts := Split(line, ':');
    if parts[0] == "" || |parts| < 2 then None
    else
      var k := ToLower(Trim(parts[0]));
      if k == ProtoKey then None else Some((k, Trim(Join(parts[1..], ':'))))
  }

  /**
   * A line yields an entry exactly when it has a `:` after at least one
   * character and its key is not `__proto__`; the key is the text before the
   * first `:`, the value all the text after it, colons included.
   */
  lemma LineEntrySpec(line: string)
    ensures LineEntry(line).Some? <==>
      ':' in line && FirstIndex(line, ':') > 0 && ToLower(Trim(line[..FirstIndex(line, ':')])) != ProtoKey
    ensures LineEntry(line).Some? ==>
      LineEntry(line).value == (ToLower(Trim(line[..FirstIndex(line, ':')])), Trim(line[FirstIndex(line, ':') + 1..]))
  {
    LineParts(line);
  }

  /** An entry that assigns the key `k`. */
  predicate Names(e: Option<(string, string)>, k: string) {
    e.Some? && e.value.0 == k
  }

  /** Assigning the entries, in order, into a fresh object: later entries overwrite earlier ones. */
  function Assign(entries: seq<Option<(string, string)>>): (r: map<string, string>)
    ensures forall k :: k in r <==> exists i :: 0 <= i < |entries| && Names(entries[i], k)
    decreases |entries|
  {
    if |entries| == 0 then map[]
    else
      var init := entries[..|entries| - 1];
      var m := Assign(init);
      assert forall i :: 0 <= i < |init| ==> init[i] == entries[i];
      match entries[|entries| - 1]
      case Some((k, v)) => m[k := v]
      case None => m
  }

  /** The value of a key is the one of the last entry that assigns it. */
  lemma {:induction false} LastEntryWins(entries: seq<Option<(string, string)>>, i: nat, k: string)
    requires i < |entries| && Names(entries[i], k)
    requires forall j :: i < j < |entries| ==> !Names(entries[j], k)
    ensures k in Assign(entries) && Assign(entries)[k] == entries[i].value.1
    decreases |entries|
  {
    var init := entries[..|entries| - 1];
    if i < |entries| - 1 {
      assert init[i] == entries[i];
      forall j | i < j < |init|
        ensures !Names(init[j], k)
      {
        assert init[j] == entries[j];
      }
      LastEntryWins(init, i, k);
    }
  }

  /** The entries of the lines of a section. */
  function Entries(lines: seq<string>): (r: seq<Option<(string, string)>>)
    ensures |r| == |lines| && forall i :: 0 <= i < |lines| ==> r[i] == LineEntry(lines[i])
  {
    seq(|lines|, i requires 0 <= i < |lines| => LineEntry(lines[i]))
  }

  /** `lines.forEach(...)`: each line's entry assigned in turn. */
  function FieldsOf(lines: seq<string>): map<string, string> {
    Assign(Entries(lines))
  }

  /** A key is present exactly when some line of the section assigns it. */
  lemma FieldsOfKeys(lines: seq<string>, k: string)
    ensures k in FieldsOf(lines) <==> exists i :: 0 <= i < |lines| && Names(LineEntry(lines[i]), k)
  {
    var e := Entries(lines);
    if k in FieldsOf(lines) {
      var i :| 0 <= i < |e| && Names(e[i], k);
      assert Names(LineEntry(lines[i]), k);
    }
  }

  /** When several lines assign the same key, the last one wins. */
  lemma LastLineWins(lines: seq<string>, i: nat, k: string)
    requires i < |lines| && Names(LineEntry(lines[i]), k)
    requires forall j :: i < j < |lines| ==> !Names(LineEntry(lines[j]), k)
    ensures k in FieldsOf(lines) && FieldsOf(lines)[k] == LineEntry(lines[i]).value.1
  {
    LastEntryWins(Entries(lines), i, k);
  }

  /** One retained section: a post for twitter (its trimmed text), a key-value map otherwise. */
  function ItemOf(section: string, twitter: bool): (r: Item)
    ensures twitter ==> r == Post(Trim(section))
    ensures !twitter ==> r.Fields? && r.fields == FieldsOf(Split(Trim(section), '\n'))
  {
    var lines := Split(Trim(section), '\n');
    if twitter then
      JoinSplit(Trim(section), '\n');
      TrimIdempotent(section);
      Post(Trim(Join(lines, '\n')))
    else Fields(FieldsOf(lines))
  }

  /** `content.content || ''`, or `None` when it is a truthy non-string, which has no `split`. */
  function ContentText(content: Value): (r: Option<string>)
    ensures var f := LookupIn(Some(content), ["content"]);
      && (!Truthy(f) ==> r == Some(""))
      && (Truthy(f) ==> (r.Some? <==> f.value.Str?))
  {
    match LookupIn(Some(content), ["content"])
    case Some(Str(s)) => if s == "" then Some("") else Some(s)
    case f => if Truthy(f) then None else Some("")
  }

  function Items(sections: seq<string>, twitter: bool): (r: seq<Item>)
    ensures |r| == |sections|
    ensures forall i :: 0 <= i < |r| ==> r[i] == ItemOf(sections[i], twitter)
  {
    seq(|sections|, i requires 0 <= i < |sections| => ItemOf(sections[i], twitter))
  }

  const ViewWords := [PostWord, ConceptWord, VideoWord]

  /** `/^(POST|CONCEPT|VIDEO)$/i`: the whole text is one of the tag words. */
  predicate IsBareWord(p: string) {
    ToUpper(p) in ViewWords
  }

  /** The section filter of the view: not blank and not a bare tag word. */
  predicate ViewKeeps(p: string) {
    Trim(p) != "" && !IsBareWord(p)
  }

  /** The sections the view keeps. */
  function ViewSections(text: string): seq<string> {
    Filter(SplitCapture(text, ViewWords), ViewKeeps)
  }

  /**
   * `formatContent` of the view: no items for a missing content, a failure
   * when `content.content` is a non-string, otherwise one item per kept
   * section, in order.
   */
  function ViewFormat(content: Option<Value>, kind: string): (r: Result<seq<Item>, string>)
    ensures !Truthy(content) ==> r == Success([])
    ensures Truthy(content) ==> (r.Success? <==> ContentText(content.value).Some?)
    ensures r.Success? && Truthy(content) ==>
      var sections := ViewSections(ContentText(content.value).value);
      && |r.value| == |sections|
      && forall i :: 0 <= i < |r.value| ==>
           if kind == "twitter" then r.value[i] == Post(Trim(sections[i])) && r.value[i].content != ""
           else r.value[i] == Fields(FieldsOf(Split(Trim(sections[i]), '\n')))
  {
    if !Truthy(content) then Success([])
    else match ContentText(content.value)
      case None => Failure("contentText.split is not a function")
      case Some(text) =>
        var sections := ViewSections(text);
        Success(Items(sections, kind == "twitter"))
  }

  /** A captured tag word is always a bare word, so the view's filter removes every capture. */
  lemma CapturedWordIsBare(raw: string, word: string, words: seq<string>)
    requires MatchTag(raw, words) == Some((|raw|, word))
    requires forall i :: 0 <= i < |words| ==> words[i] in ViewWords
    ensures IsBareWord(word)
    decreases |words|
  {
    if MatchWord(raw, words[0]).Some? {
      MatchWordShape(raw, words[0]);
      assert word == raw[1..1 + |words[0]|];
    } else {
      CapturedWordIsBare(raw, word, words[1..]);
    }
  }

  /** Every piece of the capturing split that the view keeps is a text between tags. */
  lemma KeptPieceIsTagFree(text: string, j: nat)
    requires j < |SplitCapture(text, ViewWords)| && ViewKeeps(SplitCapture(text, ViewWords)[j])
    ensures TagFree(SplitCapture(text, ViewWords)[j], ViewWords)
  {
    var c := Cut(text, ViewWords);
    var h := j / 2;
    if j % 2 == 1 {
      assert j == 2 * h + 1;
      var t := c.1[h];
      assert SplitCapture(text, ViewWords) == Interleave(c.0, c.1);
      assert SplitCapture(text, ViewWords)[j] == t.word;
      CapturedWordIsBare(t.raw, t.word, ViewWords);
      assert false;
    } else {
      assert j == 2 * h;
    }
  }

  /**
   * Every section the view keeps is a piece of text between tags, never a
   * captured tag word: no tag starts inside any of them.
   */
  lemma ViewSectionsAreTagFree(text: string)
    ensures forall i :: 0 <= i < |ViewSections(text)| ==> TagFree(ViewSections(text)[i], ViewWords)
  {
    var pieces := SplitCapture(text, ViewWords);
    var kept := ViewSections(text);
    forall i | 0 <= i < |kept|
      ensures TagFree(kept[i], ViewWords)
    {
      var j :| 0 <= j < |pieces| && pieces[j] == kept[i];
      KeptPieceIsTagFree(text, j);
    }
  }

  /** A non-blank section: `section.trim()` is truthy. */
  predicate NonBlank(p: string) {
    Trim(p) != ""
  }

  /** The video-idea filter: no introduction phrases, and a `Title:` line. */
  predicate IsVideoIdea(p: string) {
    var cleaned := Trim(ToLower(p));
    !Contains(cleaned, "here are") && !Contains(cleaned, "youtube video ideas") && Contains(p, "Title:")
  }

  /** The sections the upload page keeps for a content type, `None` for an unknown type. */
  function UploadSections(text: string, kind: string): (r: Option<seq<string>>)
    ensures r.Some? <==> kind in {"twitter", "tiktok", "youtube"}
    ensures r.Some? ==> forall i :: 0 <= i < |r.value| ==> NonBlank(r.value[i])
    ensures kind == "youtube" ==> forall i :: 0 <= i < |r.value| ==> IsVideoIdea(r.value[i])
    ensures r.Some? ==> forall i :: 0 <= i < |r.value| ==>
      TagFree(r.value[i], [if kind == "twitter" then PostWord else if kind == "tiktok" then ConceptWord else VideoWord])
  {
    if kind == "twitter" then Some(Filter(SplitPlain(text, [PostWord]), NonBlank))
    else if kind == "tiktok" then Some(Filter(SplitPlain(text, [ConceptWord]), NonBlank))
    else if kind == "youtube" then Some(Filter(Filter(SplitPlain(text, [VideoWord]), NonBlank), IsVideoIdea))
    else None
  }

  /**
   * `formatContent` of the upload page: no items for a missing content, a
   * failure when `content.content` is a non-string or the type is unknown
   * (the sections stay undefined), otherwise one item per kept section.
   */
  function UploadFormat(content: Option<Value>, kind: string): (r: Result<seq<Item>, string>)
    ensures !Truthy(content) ==> r == Success([])
    ensures Truthy(content) && ContentText(content.value).Some? ==>
      (r.Success? <==> kind in {"twitter", "tiktok", "youtube"})
    ensures r.Success? && Truthy(content) && ContentText(content.value).Some? ==>
      var sections := UploadSections(ContentText(content.value).value, kind).GetOr([]);
      && |r.value| == |sections|
      && forall i :: 0 <= i < |r.value| ==>
           if kind == "twitter" then r.value[i] == Post(Trim(sections[i])) && r.value[i].content != ""
           else r.value[i] == Fields(FieldsOf(Split(Trim(sections[i]), '\n')))
  {
    if !Truthy(content) then Success([])
    else match ContentText(content.value)
      case None => Failure("contentText.split is not a function")
      case Some(text) =>
        match UploadSections(text, kind)
        case None => Failure("Cannot read properties of undefined (reading 'map')")
        case Some(sections) => Success(Items(sections, kind == "twitter"))
  }
}
