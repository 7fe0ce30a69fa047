/**
 * The upload page, src/components/PDFUpload.js: the sentence-boundary
 * truncation of extracted text, the file and URL checks, and the two upload
 * handlers with their quota check and counter update. Text extraction from
 * the PDF is a parameter (`None` when it throws), as are the signed-in user
 * and the success of each store call.
 */
module PdfUpload {
  import opened Wrappers
  import opened Docs
  import opened Text
  import opened Accounts
  import opened SubscriptionContext
  import UsageTransaction

  // ---------------------------------------------------------------- sentences

  /** A character of the class `[.!?]`. */
  predicate IsStop(c: char) {
    c == '.' || c == '!' || c == '?'
  }

  predicate StopFree(t: string) {
    forall j :: 0 <= j < |t| ==> !IsStop(t[j])
  }

  /**
   * `s.split(/[.!?]+/)`: the split loop cuts out every maximal run of stop
   * characters, so a run at either end leaves an empty piece there.
   */
  function Sentences(s: string): (r: seq<string>)
    ensures |r| >= 1
    ensures forall i :: 0 <= i < |r| ==> StopFree(r[i])
  {
    if |s| == 0 then [""]
    else if IsStop(s[0]) then
      if |s| > 1 && IsStop(s[1]) then Sentences(s[1..]) else [""] + Sentences(s[1..])
    else
      var rest := Sentences(s[1..]);
      [[s[0]] + rest[0]] + rest[1..]
  }

  /** The text with every stop character removed. */
  function StripStops(s: string): string {
    if |s| == 0 then "" else (if IsStop(s[0]) then "" else [s[0]]) + StripStops(s[1..])
  }

  function Concat(ss: seq<string>): string {
    if |ss| == 0 then "" else ss[0] + Concat(ss[1..])
  }

  /** The sentences hold every other character of the text, in order: only the stop runs are lost. */
  lemma {:induction false} SentencesKeepText(s: string)
    ensures Concat(Sentences(s)) == StripStops(s)
  {
    if |s| > 0 {
      SentencesKeepText(s[1..]);
      if !IsStop(s[0]) {
        var rest := Sentences(s[1..]);
        assert Concat(rest) == rest[0] + Concat(rest[1..]);
        assert Sentences(s) == [[s[0]] + rest[0]] + rest[1..];
        assert ([[s[0]] + rest[0]] + rest[1..])[1..] == rest[1..];
      } else if !(|s| > 1 && IsStop(s[1])) {
        assert ([""] + Sentences(s[1..]))[1..] == Sentences(s[1..]);
      }
    }
  }

  /** A text without stop characters is a single sentence. */
  lemma {:induction false} StopFreeIsOneSentence(s: string)
    requires StopFree(s)
    ensures Sentences(s) == [s]
  {
    if |s| > 0 {
      assert StopFree(s[1..]) by {
        forall j | 0 <= j < |s| - 1
          ensures !IsStop(s[1..][j])
        {
          assert s[1..][j] == s[j + 1];
        }
      }
      StopFreeIsOneSentence(s[1..]);
      assert [s[0]] + s[1..] == s;
    }
  }

  // ---------------------------------------------------------------- truncation

  const DefaultMaxLength := 3000

  /** `sentence + '. '` for each sentence in turn. */
  function Dotted(ss: seq<string>): (r: string)
    ensures |ss| > 0 ==> |r| >= 2 && r[|r| - 1] == ' '
  {
    if |ss| == 0 then "" else Dotted(ss[..|ss| - 1]) + ss[|ss| - 1] + ". "
  }

  /** Sentence `j` fits after all the earlier ones: `charCount + sentence.length <= maxLength`. */
  predicate FitsAt(ss: seq<string>, j: int, maxLength: nat) {
    0 <= j < |ss| && |Dotted(ss[..j])| + |ss[j]| <= maxLength
  }

  /** The loop keeps the first `k` sentences: each of them fits, and the next one (if any) does not. */
  predicate GreedyStop(ss: seq<string>, k: nat, maxLength: nat) {
    && k <= |ss|
    && (forall j :: 0 <= j < k ==> FitsAt(ss, j, maxLength))
    && (k < |ss| ==> !FitsAt(ss, k, maxLength))
  }

  /** The trimmed text the loop leaves after keeping `k` sentences, or the plain cut when it kept none. */
  function Kept(text: string, k: nat, maxLength: nat): string
    requires k <= |Sentences(text)|
  {
    if k == 0 then Trim(text[..if maxLength < |text| then maxLength else |text|])
    else Trim(Dotted(Sentences(text)[..k]))
  }

  /** Trimming a string that ends in whitespace removes at least that character. */
  lemma TrimDropsTrailingSpace(s: string)
    requires |s| > 0 && IsWhitespace(s[|s| - 1])
    ensures |Trim(s)| < |s|
  {
    var t := TrimStart(s);
    if |t| > 0 {
      assert t[|t| - 1] == s[|s| - 1];
    }
  }

  /**
   * `truncateContent(text, maxLength)`: whole sentences, each followed by
   * `". "`, while the next one fits; the first `maxLength` characters when
   * not even the first sentence fits; trimmed either way, so the result is at
   * most one character longer than `maxLength` (the last period).
   */
  method TruncateContent(text: string, maxLength: nat) returns (r: string)
    ensures |r| <= maxLength + 1
    ensures exists k :: GreedyStop(Sentences(text), k, maxLength) && r == Kept(text, k, maxLength)
  {
    var ss := Sentences(text);
    var truncated := "";
    var charCount := 0;
    var i := 0;
    while i < |ss| && charCount + |ss[i]| <= maxLength
      invariant 0 <= i <= |ss|
      invariant truncated == Dotted(ss[..i]) && charCount == |truncated|
      invariant forall j :: 0 <= j < i ==> FitsAt(ss, j, maxLength)
      invariant i > 0 ==> |truncated| <= maxLength + 2
    {
      assert FitsAt(ss, i, maxLength);
      assert ss[..i + 1][..i] == ss[..i];
      truncated := truncated + ss[i] + ". ";
      charCount := charCount + |ss[i]| + 2;
      i := i + 1;
    }
    assert GreedyStop(ss, i, maxLength);
    if truncated == "" {
      truncated := text[..if maxLength < |text| then maxLength else |text|];
    } else {
      TrimDropsTrailingSpace(truncated);
    }
    r := Trim(truncated);
  }

  // ---------------------------------------------------------------- file choice

  const PdfMime := "application/pdf"
  const MaxPdfBytes := 1000000
  const NotPdfMessage := "Please upload a PDF file"
  const TooLargeMessage := "File size must be less than 1MB"

  /** A dropped or chosen file: its name, MIME type and size in bytes. */
  datatype FileInfo = FileInfo(name: string, mimeType: string, size: int)

  /** The file-choice state of the page. */
  datatype Picker = Picker(file: Option<FileInfo>, error: string, uploaded: bool)

  /**
   * `handleFile(selectedFile)`: the upload flag is cleared; a missing or
   * non-PDF file is refused first, then one over 1 000 000 bytes; only an
   * accepted file replaces the chosen one.
   */
  function HandleFile(st: Picker, f: Option<FileInfo>): (r: Picker)
    ensures !r.uploaded
    ensures r.error == "" <==> f.Some? && f.value.mimeType == PdfMime && f.value.size <= MaxPdfBytes
    ensures (f.None? || f.value.mimeType != PdfMime) ==> r.error == NotPdfMessage
    ensures r.error == "" ==> r.file == f
    ensures r.error != "" ==> r.file == st.file
  {
    match f
    case None => Picker(st.file, NotPdfMessage, false)
    case Some(file) =>
      if file.mimeType != PdfMime then Picker(st.file, NotPdfMessage, false)
      else if file.size > MaxPdfBytes then Picker(st.file, TooLargeMessage, false)
      else Picker(Some(file), "", false)
  }

  /** The chosen file, if any, is a PDF within the size bound. */
  predicate ValidChoice(st: Picker) {
    st.file.None? || (st.file.value.mimeType == PdfMime && st.file.value.size <= MaxPdfBytes)
  }

  /**
   * The picker never holds a file it would refuse: starting from a valid
   * choice, any sequence of choices keeps it valid; a refused choice keeps
   * the file chosen before it; choosing the same file twice is choosing it
   * once.
   */
  lemma HandleFileKeepsValidChoice(st: Picker, f: Option<FileInfo>, g: Option<FileInfo>)
    requires ValidChoice(st)
    ensures ValidChoice(HandleFile(st, f))
    ensures HandleFile(st, f).error != "" ==> HandleFile(st, f).file == st.file
    ensures HandleFile(HandleFile(st, f), f) == HandleFile(st, f)
    ensures HandleFile(HandleFile(st, f), g).error != "" ==> HandleFile(HandleFile(st, f), g).file == HandleFile(st, f).file
  {
  }

  // ---------------------------------------------------------------- uploads

  /** A document of the `pdf-contents` collection (its constant fields left implicit). */
  datatype ContentDoc = ContentDoc(userId: string, fileName: string, content: string, sourceType: string)

  /** How an upload ends: saved, refused for quota, failed with a message, or failed in the store. */
  datatype Outcome = Done | Refused(message: string) | Failed(message: string) | StoreFailed

  /** The account store, the content collection and the outcome after a handler. */
  datatype UploadRun = UploadRun(users: Store, contents: seq<ContentDoc>, outcome: Outcome)

  /** Which store calls of the document upload succeed, in call order. */
  datatype Calls = Calls(read: bool, create: bool, check: bool, add: bool, reread: bool, update: bool)

  const NoUserMessage := "Cannot read properties of null (reading 'uid')"
  const PdfLimitMessage := "Daily PDF upload limit reached. Upgrade to Pro for more uploads!"
  const ExtractMessage := "Failed to read the PDF file. Please make sure it's a valid PDF document."
  const WebsiteLimitMessage := "Daily website link limit reached. Upgrade to Pro for more uploads!"
  const InvalidUrlMessage := "Please enter a valid URL"
  const LoginMessage := "You must be logged in to upload"

  /** The account the page creates when none exists: free limits and plan, nothing else. */
  function UploadDefaults(): (d: Doc)
    ensures d.Keys == {"limits", "subscription"}
    ensures ReadLimits(d) == Some(DefaultLimits(Free)) && Field(d, "subscription") == Some(Str("free"))
    ensures Lookup(d, PdfUsedPath) == Some(Int(0))
  {
    var d := map["limits" := LimitsValue(DefaultLimits(Free)), "subscription" := Str("free")];
    ReadLimitsValue(d, DefaultLimits(Free));
    d
  }

  const PdfUsedPath := ["limits", "pdfUploads", "used"]

  /** `Number(x) || 0`: the number, with NaN (and 0) giving 0. */
  function NumberOrZero(v: Option<Value>): (n: int)
    ensures v.Some? && v.value.Int? ==> n == v.value.i
    ensures ToNumber(v).None? ==> n == 0
  {
    match ToNumber(v)
    case Some(x) => x
    case None => 0
  }

  /** The counter the page reads back after saving the content. */
  function UsedCount(s: Store, uid: string): int
    requires uid in s
  {
    NumberOrZero(Lookup(s[uid], PdfUsedPath))
  }

  /**
   * `handleUpload()`: reading the uid of a missing user throws; a missing
   * account is created with the free limits; `checkUploadLimit('pdf')` may
   * refuse; the content is saved; then the counter is read again and written
   * back plus one in a separate update, with no transaction and no limit test.
   */
  function HandleUpload(s: Store, contents: seq<ContentDoc>, user: Option<string>, fileName: string,
                        text: Option<string>, calls: Calls): (r: UploadRun)
    ensures user.None? ==> r == UploadRun(s, contents, Failed(NoUserMessage))
    ensures r.contents == contents
      || (user.Some? && text.Some? && r.contents == contents + [ContentDoc(user.value, fileName, text.value, "pdf")])
    ensures user.Some? && calls.read && calls.create && user.value !in s && !r.outcome.Done? ==>
      user.value in r.users && r.users[user.value] == UploadDefaults()
    ensures forall k :: k in s && (user.None? || k != user.value) ==> k in r.users && r.users[k] == s[k]
    ensures user.Some? && user.value in s && !CheckUploadLimit(user, s, "pdf", calls.check) && calls.read ==>
      r == UploadRun(s, contents, Refused(PdfLimitMessage))
    ensures r.outcome.Done? <==>
      && user.Some? && calls.read && (user.value in s || calls.create) && text.Some?
      && calls.add && calls.reread && calls.update
      && CheckUploadLimit(user, if user.value in s then s else s[user.value := UploadDefaults()], "pdf", calls.check)
    ensures r.outcome.Done? ==>
      && user.value in r.users
      && r.contents == contents + [ContentDoc(user.value, fileName, text.value, "pdf")]
      && Lookup(r.users[user.value], PdfUsedPath) ==
           Some(Int(1 + if user.value in s then UsedCount(s, user.value) else 0))
  {
    match user
    case None => UploadRun(s, contents, Failed(NoUserMessage))
    case Some(uid) =>
      if !calls.read || (uid !in s && !calls.create) then UploadRun(s, contents, StoreFailed)
      else
        var s1 := if uid in s then s else SetDoc(s, uid, UploadDefaults());
        if !CheckUploadLimit(user, s1, "pdf", calls.check) then UploadRun(s1, contents, Refused(PdfLimitMessage))
        else match text
          case None => UploadRun(s1, contents, Failed(ExtractMessage))
          case Some(t) =>
            if !calls.add then UploadRun(s1, contents, StoreFailed)
            else
              var c1 := contents + [ContentDoc(uid, fileName, t, "pdf")];
              if !calls.reread || !calls.update then UploadRun(s1, c1, StoreFailed)
              else
                UploadRun(UpdateField(s1, uid, PdfUsedPath, Int(UsedCount(s1, uid) + 1)).value, c1, Done)
  }

  /** Every store call succeeding. */
  const AllOk := Calls(true, true, true, true, true, true)

  /** The first upload of a user with no account creates it and uses one of the two free uploads. */
  lemma FirstUploadCreatesAccount(s: Store, uid: string, fileName: string, text: string)
    requires uid !in s
    ensures var r := HandleUpload(s, [], Some(uid), fileName, Some(text), AllOk);
      && r.outcome == Done
      && uid in r.users
      && ReadQuota(Lookup(r.users[uid], ["limits", "pdfUploads"])) == Some(Quota(1, PdfLimit(Free)))
  {
    var s1 := s[uid := UploadDefaults()];
    assert CheckUploadLimit(Some(uid), s1, "pdf", true) by {
      CheckUploadLimitOnLimits(uid, s1, DefaultLimits(Free));
    }
    assert HandleUpload(s, [], Some(uid), fileName, Some(text), AllOk).users == UpdateField(s1, uid, PdfUsedPath, Int(1)).value;
    DefaultsAfterOneUpload();
  }

  /** The created account with its counter written to 1 reads as one of the two free uploads used. */
  lemma DefaultsAfterOneUpload()
    ensures ReadQuota(Lookup(SetAt(UploadDefaults(), PdfUsedPath, Int(1)), ["limits", "pdfUploads"])) == Some(Quota(1, PdfLimit(Free)))
  {
    var d := UploadDefaults();
    var f := Lookup(d, ["limits", "pdfUploads"]).value.fields;
    UsageTransaction.LookupExtend(d, ["limits", "pdfUploads"], "used", f);
    assert ["limits", "pdfUploads"] + ["used"] == PdfUsedPath;
    SetAtParent(d, ["limits", "pdfUploads"], "used", Int(1), f);
  }

  /**
   * The counter update is a read followed by a separate write. Two uploads
   * whose reads both come before either write save two documents but count
   * one: the second write repeats the first. The transaction of
   * src/firebase/firebase.js run twice counts two.
   */
  lemma InterleavedUploadsCountOnce(s: Store, uid: string, q: Quota)
    requires uid in s && ReadQuota(Lookup(s[uid], ["limits", "pdfUploads"])) == Some(q) && 0 <= q.used && q.used + 2 <= q.limit
    ensures var n := UsedCount(s, uid);
      var a := UpdateField(s, uid, PdfUsedPath, Int(n + 1)).value;
      var b := UpdateField(a, uid, PdfUsedPath, Int(n + 1)).value;
      UsedCount(b, uid) == q.used + 1
    ensures var t := UsageTransaction.UpdateUsage(s, uid, "pdfUploads");
      && t.Success?
      && UsageTransaction.UpdateUsage(t.value, uid, "pdfUploads").Success?
      && Lookup(UsageTransaction.UpdateUsage(t.value, uid, "pdfUploads").value[uid], PdfUsedPath) == Some(Int(q.used + 2))
  {
    StaleWritesCountOnce(s, uid, q);
    TransactionsCountTwice(s, uid, q);
  }

  /** Two writes of the same stale count leave the counter one past what both read. */
  lemma StaleWritesCountOnce(s: Store, uid: string, q: Quota)
    requires uid in s && ReadQuota(Lookup(s[uid], ["limits", "pdfUploads"])) == Some(q)
    ensures var n := UsedCount(s, uid);
      var a := UpdateField(s, uid, PdfUsedPath, Int(n + 1)).value;
      var b := UpdateField(a, uid, PdfUsedPath, Int(n + 1)).value;
      UsedCount(b, uid) == q.used + 1
  {
    var d := s[uid];
    var f := Lookup(d, ["limits", "pdfUploads"]).value.fields;
    UsageTransaction.LookupExtend(d, ["limits", "pdfUploads"], "used", f);
    assert ["limits", "pdfUploads"] + ["used"] == PdfUsedPath;
  }

  /** Two transactional updates on a quota with two slots left both pass and count two. */
  lemma TransactionsCountTwice(s: Store, uid: string, q: Quota)
    requires uid in s && ReadQuota(Lookup(s[uid], ["limits", "pdfUploads"])) == Some(q) && 0 <= q.used && q.used + 2 <= q.limit
    ensures var t := UsageTransaction.UpdateUsage(s, uid, "pdfUploads");
      && t.Success?
      && UsageTransaction.UpdateUsage(t.value, uid, "pdfUploads").Success?
      && Lookup(UsageTransaction.UpdateUsage(t.value, uid, "pdfUploads").value[uid], PdfUsedPath) == Some(Int(q.used + 2))
  {
    var d := s[uid];
    var f := Lookup(d, ["limits", "pdfUploads"]).value.fields;
    assert PdfUsedPath == UsageTransaction.UsedPath("pdfUploads");
    UsageTransaction.UpdateUsageKeepsQuota(s, uid, "pdfUploads");
    var t := UsageTransaction.UpdateUsage(s, uid, "pdfUploads").value;
    SetAtParent(d, ["limits", "pdfUploads"], "used", Int(q.used + 1), f);
    assert ReadQuota(Lookup(t[uid], ["limits", "pdfUploads"])) == Some(Quota(q.used + 1, q.limit));
    UsageTransaction.UpdateUsageKeepsQuota(t, uid, "pdfUploads");
  }

  // ---------------------------------------------------------------- links

  /** `/^https?:\/\/.+/`: the scheme, then at least one character that is not a line terminator. */
  predicate UrlPattern(u: string) {
    || (StartsWith(u, "http://") && |u| > 7 && !IsLineTerminator(u[7]))
    || (StartsWith(u, "https://") && |u| > 8 && !IsLineTerminator(u[8]))
  }

  /** `url.trim() && url.match(...)`: the link check of the page. */
  predicate UrlAccepted(u: string) {
    Trim(u) != "" && UrlPattern(u)
  }

  /** The blank test adds nothing to the pattern, and the link is not trimmed before matching. */
  lemma UrlBlankTestRedundant(u: string)
    ensures UrlAccepted(u) <==> UrlPattern(u)
    ensures |u| > 0 && IsWhitespace(u[0]) ==> !UrlAccepted(u)
  {
    TrimEmptyIffBlank(u);
    if UrlPattern(u) {
      assert u[0] == 'h';
    }
  }

  /** Which store calls of the link upload succeed. */
  datatype LinkCalls = LinkCalls(check: bool, add: bool, count: bool)

  /**
   * `handleUrlUpload(url)`: the website quota is checked before the link is
   * validated; an accepted link is saved as its own content, and the site
   * counter is then incremented without a limit test (a failed increment is
   * swallowed).
   */
  function HandleUrlUpload(s: Store, contents: seq<ContentDoc>, user: Option<string>, url: string,
                           calls: LinkCalls): (r: UploadRun)
    ensures !CheckUploadLimit(user, s, "website", calls.check) ==> r == UploadRun(s, contents, Refused(WebsiteLimitMessage))
    ensures CheckUploadLimit(user, s, "website", calls.check) && !UrlAccepted(url) ==>
      r == UploadRun(s, contents, Failed(InvalidUrlMessage))
    ensures r.outcome.Done? <==> CheckUploadLimit(user, s, "website", calls.check) && UrlAccepted(url) && calls.add
    ensures !r.outcome.Done? ==> r.users == s && r.contents == contents
    ensures r.outcome.Done? ==>
      && r.contents == contents + [ContentDoc(user.value, url, url, "url")]
      && r.users == IncrementUploadCount(user, s, "website", calls.count)
  {
    if !CheckUploadLimit(user, s, "website", calls.check) then UploadRun(s, contents, Refused(WebsiteLimitMessage))
    else if !UrlAccepted(url) then UploadRun(s, contents, Failed(InvalidUrlMessage))
    else match user
      case None => UploadRun(s, contents, Failed(LoginMessage))
      case Some(uid) =>
        if !calls.add then UploadRun(s, contents, StoreFailed)
        else UploadRun(IncrementUploadCount(user, s, "website", calls.count), contents + [ContentDoc(uid, url, url, "url")], Done)
  }

  /** An invalid link from a user out of site uploads gets the quota message, never the link message. */
  lemma QuotaMessageBeforeLinkMessage(s: Store, uid: string, url: string, l: Limits)
    requires uid in s && ReadLimits(s[uid]) == Some(l) && l.websiteUploads.used >= l.websiteUploads.limit
    ensures HandleUrlUpload(s, [], Some(uid), url, LinkCalls(true, true, true)).outcome == Refused(WebsiteLimitMessage)
  {
    CheckUploadLimitOnLimits(uid, s, l);
  }
}
