/** The `Email` document of the unified inbox: its category and thread rules,
    the virtual fields, the checks `save` performs, the pre-save hook, and the
    instance methods that change a document and save it. */
module EmailModel {
  import opened Common

  /** The values the `folder` path accepts. */
  const Folders: seq<string> := ["INBOX", "SENT", "DRAFTS", "TRASH", "SPAM", "ARCHIVE"]

  /** The values of `autoCategory`. */
  datatype Category = Marketing | Support | Sales | Spam | Personal | Other

  datatype Attachment = Attachment(filename: string, size: Option<int>)

  /** The fields of a document the model reads or writes. A string that is
      missing is `""` (both are falsy); `autoCategory` is `None` when unset. */
  datatype EmailRecord = EmailRecord(
    messageId: string,
    senderAccountId: string,
    accountEmail: string,
    subject: string,
    fromEmail: string,
    inReplyTo: string,
    references: seq<string>,
    threadId: string,
    folder: string,
    isRead: bool,
    openedAt: Option<int>,
    labels: seq<string>,
    tags: seq<string>,
    attachments: seq<Attachment>,
    size: Option<int>,
    autoCategory: Option<Category>,
    priority: int,
    spamScore: int,
    isSpam: bool,
    updatedAt: int)

  // ---------------------------------------------------------------------
  // Keyword rules
  // ---------------------------------------------------------------------

  /** `s.includes(w0) || s.includes(w1) || …`, evaluated left to right. */
  predicate ContainsAny(s: string, words: seq<string>)
    decreases |words|
  {
    words != [] && (Contains(s, words[0]) || ContainsAny(s, words[1..]))
  }

  /** The chain of `includes` holds exactly when one of the words occurs. */
  lemma {:induction false} ContainsAnyIff(s: string, words: seq<string>)
    ensures ContainsAny(s, words) <==> exists i :: 0 <= i < |words| && Contains(s, words[i])
    decreases |words|
  {
    if words != [] {
      ContainsAnyIff(s, words[1..]);
      if ContainsAny(s, words[1..]) {
        var i :| 0 <= i < |words[1..]| && Contains(s, words[1..][i]);
        assert Contains(s, words[i + 1]);
      }
      if exists i :: 0 <= i < |words| && Contains(s, words[i]) {
        var i :| 0 <= i < |words| && Contains(s, words[i]);
        if i > 0 {
          assert words[1..][i - 1] == words[i];
        }
      }
    }
  }

  /** A longer list of words matches whatever a prefix of it matches. */
  lemma {:induction false} ContainsAnyPrefix(s: string, a: seq<string>, b: seq<string>)
    requires ContainsAny(s, a)
    ensures ContainsAny(s, a + b)
    decreases |a|
  {
    if !Contains(s, a[0]) {
      ContainsAnyPrefix(s, a[1..], b);
      assert (a + b)[1..] == a[1..] + b;
    }
  }

  const MarketingWords: seq<string> := ["promotion", "sale", "discount", "newsletter", "offer", "deal"]
  const SupportWords: seq<string> := ["support", "help", "issue", "problem", "ticket", "assistance"]
  const SalesWords: seq<string> := ["quote", "pricing", "demo", "meeting", "proposal", "contract"]
  const SpamWords: seq<string> := ["viagra", "lottery", "urgent", "limited time", "free money", "click here"]
  const FreeMailDomains: seq<string> := ["gmail.com", "yahoo.com", "outlook.com", "hotmail.com"]

  /** The document's `categorizeEmail`: keyword groups on the lower-cased
      subject, then free-mail domains on the lower-cased sender address. */
  function CategorizeDocument(subject: string, fromEmail: string): Category
  {
    var s := Lower(subject);
    if ContainsAny(s, MarketingWords) then Marketing
    else if ContainsAny(s, SupportWords) then Support
    else if ContainsAny(s, SalesWords) then Sales
    else if ContainsAny(s, SpamWords) then Spam
    else if ContainsAny(Lower(fromEmail), FreeMailDomains) then Personal
    else Other
  }

  /** Some word of the group occurs in the lower-cased text. */
  predicate Mentions(text: string, words: seq<string>)
  {
    exists i :: 0 <= i < |words| && Contains(Lower(text), words[i])
  }

  lemma MentionsIff(text: string, words: seq<string>)
    ensures Mentions(text, words) <==> ContainsAny(Lower(text), words)
  {
    ContainsAnyIff(Lower(text), words);
  }

  /** The precedence marketing > support > sales > spam > personal > other,
      stated with plain occurrences. */
  lemma CategorizeDocumentPrecedence(subject: string, fromEmail: string)
    ensures CategorizeDocument(subject, fromEmail) == Marketing <==> Mentions(subject, MarketingWords)
    ensures CategorizeDocument(subject, fromEmail) == Support
            <==> !Mentions(subject, MarketingWords) && Mentions(subject, SupportWords)
    ensures CategorizeDocument(subject, fromEmail) == Sales
            <==> !Mentions(subject, MarketingWords) && !Mentions(subject, SupportWords) && Mentions(subject, SalesWords)
    ensures CategorizeDocument(subject, fromEmail) == Spam
            <==> !Mentions(subject, MarketingWords) && !Mentions(subject, SupportWords)
                 && !Mentions(subject, SalesWords) && Mentions(subject, SpamWords)
    ensures CategorizeDocument(subject, fromEmail) == Personal
            <==> !Mentions(subject, MarketingWords) && !Mentions(subject, SupportWords)
                 && !Mentions(subject, SalesWords) && !Mentions(subject, SpamWords)
                 && Mentions(fromEmail, FreeMailDomains)
  {
    MentionsIff(subject, MarketingWords);
    MentionsIff(subject, SupportWords);
    MentionsIff(subject, SalesWords);
    MentionsIff(subject, SpamWords);
    MentionsIff(fromEmail, FreeMailDomains);
  }

  /** The document's `generateThreadId`: `inReplyTo` when set, else the first
      reference, else the message's own id. */
  function ThreadId(inReplyTo: string, references: seq<string>, messageId: string): (r: string)
    ensures inReplyTo != "" ==> r == inReplyTo
    ensures inReplyTo == "" && references != [] ==> r == references[0]
    ensures inReplyTo == "" && references == [] ==> r == messageId
  {
    if inReplyTo != "" then inReplyTo else if references != [] then references[0] else messageId
  }

  // ---------------------------------------------------------------------
  // Virtual fields
  // ---------------------------------------------------------------------

  /** `x || 0` on a number that may be missing */
  function OrZero(x: Option<int>): int
  {
    if x.Some? then x.value else 0
  }

  function AttachmentSizes(atts: seq<Attachment>): (r: seq<int>)
    ensures |r| == |atts|
    ensures forall i :: 0 <= i < |atts| ==> r[i] == OrZero(atts[i].size)
  {
    if atts == [] then [] else [OrZero(atts[0].size)] + AttachmentSizes(atts[1..])
  }

  /** `attachments.reduce((sum, att) => sum + (att.size || 0), 0)`, folding from the left. */
  function ReduceSizes(acc: int, atts: seq<Attachment>): int
    decreases |atts|
  {
    if atts == [] then acc else ReduceSizes(acc + OrZero(atts[0].size), atts[1..])
  }

  predicate IsUnread(r: EmailRecord) { !r.isRead }

  predicate IsFromOwnAccount(r: EmailRecord) { r.fromEmail == r.accountEmail }

  function AttachmentCount(r: EmailRecord): nat { |r.attachments| }

  predicate HasAttachments(r: EmailRecord) { |r.attachments| > 0 }

  /** The `totalSize` virtual, with its early return for a document without attachments. */
  function TotalSize(r: EmailRecord): int
  {
    if r.attachments == [] then OrZero(r.size) else OrZero(r.size) + ReduceSizes(0, r.attachments)
  }

  lemma {:induction false} ReduceSizesSum(acc: int, atts: seq<Attachment>)
    ensures ReduceSizes(acc, atts) == acc + Sum(AttachmentSizes(atts))
    decreases |atts|
  {
    if atts != [] {
      ReduceSizesSum(acc + OrZero(atts[0].size), atts[1..]);
      assert AttachmentSizes(atts)[1..] == AttachmentSizes(atts[1..]);
    }
  }

  /** The total is the message size plus every attachment's size, a missing
      size counting as 0, and the early return agrees with the general case. */
  lemma TotalSizeIsSum(r: EmailRecord)
    ensures TotalSize(r) == OrZero(r.size) + Sum(AttachmentSizes(r.attachments))
    ensures HasAttachments(r) <==> AttachmentCount(r) > 0
  {
    ReduceSizesSum(0, r.attachments);
  }

  // ---------------------------------------------------------------------
  // Saving
  // ---------------------------------------------------------------------

  /** What schema validation checks among the modelled fields: the required
      strings are non-empty, `folder` is one of the six values and `spamScore`
      lies in [0, 10]. */
  predicate Validates(r: EmailRecord)
  {
    && r.messageId != "" && r.fromEmail != "" && r.senderAccountId != "" && r.accountEmail != ""
    && r.folder in Folders && 0 <= r.spamScore <= 10
  }

  /** The pre-save hook, which runs after validation succeeded. */
  function PreSave(r: EmailRecord, now: int): (s: EmailRecord)
    ensures s.updatedAt == now
    ensures r.autoCategory.None? || r.autoCategory == Some(Other)
            ==> s.autoCategory == Some(CategorizeDocument(r.subject, r.fromEmail))
    ensures r.autoCategory.Some? && r.autoCategory != Some(Other) ==> s.autoCategory == r.autoCategory
    ensures r.threadId == "" ==> s.threadId == ThreadId(r.inReplyTo, r.references, r.messageId)
    ensures r.threadId != "" ==> s.threadId == r.threadId
    ensures r.spamScore >= 7 ==> s.isSpam && s.folder == "SPAM"
    ensures r.spamScore < 7 ==> s.isSpam == r.isSpam && s.folder == r.folder
    ensures s.(updatedAt := r.updatedAt, autoCategory := r.autoCategory, threadId := r.threadId,
               isSpam := r.isSpam, folder := r.folder) == r
  {
    var category := if r.autoCategory.None? || r.autoCategory == Some(Other)
                    then Some(CategorizeDocument(r.subject, r.fromEmail)) else r.autoCategory;
    var thread := if r.threadId == "" then ThreadId(r.inReplyTo, r.references, r.messageId) else r.threadId;
    var s := r.(updatedAt := now, autoCategory := category, threadId := thread);
    if r.spamScore >= 7 then s.(isSpam := true, folder := "SPAM") else s
  }

  /** Saving twice in a row is saving once: the hook is idempotent up to the timestamp. */
  lemma PreSaveIdempotent(r: EmailRecord, t0: int, t1: int)
    ensures PreSave(PreSave(r, t0), t1) == PreSave(r, t1)
  {
  }

  /** A document that passed validation still passes it after the hook. */
  lemma PreSaveValidates(r: EmailRecord, now: int)
    requires Validates(r)
    ensures Validates(PreSave(r, now))
  {
  }

  /** `save()`: validation first, then the hook; a failed validation stores nothing. */
  function Save(r: EmailRecord, now: int): (res: Option<EmailRecord>)
    ensures res.Some? <==> Validates(r)
    ensures res.Some? ==> res.value == PreSave(r, now) && Validates(res.value)
  {
    if Validates(r) then Some(PreSave(r, now)) else None
  }

  // ---------------------------------------------------------------------
  // Label and tag lists
  // ---------------------------------------------------------------------

  /** `if (!xs.includes(x)) xs.push(x)` */
  function WithItem(xs: seq<string>, x: string): (r: seq<string>)
    ensures x in r
    ensures forall y :: y in r <==> y in xs || y == x
    ensures x in xs ==> r == xs
    ensures x !in xs ==> r == xs + [x]
  {
    if x in xs then xs else xs + [x]
  }

  /** Adding keeps a list free of duplicates, and adding twice is adding once. */
  lemma WithItemKeepsDistinct(xs: seq<string>, x: string)
    requires NoDuplicates(xs)
    ensures NoDuplicates(WithItem(xs, x))
    ensures WithItem(WithItem(xs, x), x) == WithItem(xs, x)
  {
  }

  // ---------------------------------------------------------------------
  // The document object
  // ---------------------------------------------------------------------

  /** A loaded document whose instance methods change its fields in place and
      then call `save()`. */
  class EmailDocument {
    var record: EmailRecord

    constructor (r: EmailRecord)
      ensures record == r
    {
      record := r;
    }

    /** `save()`; `ok` is false when validation rejects the document. */
    method SaveDocument(now: int) returns (ok: bool)
      modifies this
      ensures ok <==> Validates(old(record))
      ensures ok ==> record == PreSave(old(record), now)
      ensures !ok ==> record == old(record)
    {
      var saved := Save(record, now);
      ok := saved.Some?;
      if ok {
        record := saved.value;
      }
    }

    /** `markAsRead`: read, opened now, saved. */
    method MarkAsRead(now: int) returns (ok: bool)
      modifies this
      ensures record.isRead && record.openedAt == Some(now)
      ensures ok <==> Validates(old(record))
      ensures ok ==> record == PreSave(old(record).(isRead := true, openedAt := Some(now)), now)
      ensures !ok ==> record == old(record).(isRead := true, openedAt := Some(now))
    {
      record := record.(isRead := true, openedAt := Some(now));
      ok := SaveDocument(now);
    }

    /** `markAsUnread`: unread, `openedAt` cleared, saved. */
    method MarkAsUnread(now: int) returns (ok: bool)
      modifies this
      ensures !record.isRead && record.openedAt.None?
      ensures ok <==> Validates(old(record))
      ensures ok ==> record == PreSave(old(record).(isRead := false, openedAt := None), now)
      ensures !ok ==> record == old(record).(isRead := false, openedAt := None)
    {
      record := record.(isRead := false, openedAt := None);
      ok := SaveDocument(now);
    }

    /** `moveToFolder`: the folder is set, then saved; a folder outside the six
        values fails validation. */
    method MoveToFolder(folder: string, now: int) returns (ok: bool)
      modifies this
      ensures ok <==> Validates(old(record).(folder := folder))
      ensures folder !in Folders ==> !ok
      ensures ok ==> record == PreSave(old(record).(folder := folder), now)
      ensures ok && old(record).spamScore < 7 ==> record.folder == folder
      ensures !ok ==> record == old(record).(folder := folder)
    {
      record := record.(folder := folder);
      ok := SaveDocument(now);
    }

    /** `addLabel` */
    method AddLabel(name: string, now: int) returns (ok: bool)
      modifies this
      ensures record.labels == WithItem(old(record).labels, name)
      ensures ok <==> Validates(old(record))
      ensures ok ==> record == PreSave(old(record).(labels := WithItem(old(record).labels, name)), now)
      ensures !ok ==> record == old(record).(labels := WithItem(old(record).labels, name))
    {
      if name !in record.labels {
        record := record.(labels := record.labels + [name]);
      }
      ok := SaveDocument(now);
    }

    /** `removeLabel` */
    method RemoveLabel(name: string, now: int) returns (ok: bool)
      modifies this
      ensures record.labels == RemoveAll(old(record).labels, name)
      ensures ok <==> Validates(old(record))
      ensures ok ==> record == PreSave(old(record).(labels := RemoveAll(old(record).labels, name)), now)
      ensures !ok ==> record == old(record).(labels := RemoveAll(old(record).labels, name))
    {
      record := record.(labels := RemoveAll(record.labels, name));
      ok := SaveDocument(now);
    }

    /** `addTag` */
    method AddTag(tag: string, now: int) returns (ok: bool)
      modifies this
      ensures record.tags == WithItem(old(record).tags, tag)
      ensures ok <==> Validates(old(record))
      ensures ok ==> record == PreSave(old(record).(tags := WithItem(old(record).tags, tag)), now)
      ensures !ok ==> record == old(record).(tags := WithItem(old(record).tags, tag))
    {
      if tag !in record.tags {
        record := record.(tags := record.tags + [tag]);
      }
      ok := SaveDocument(now);
    }

    /** `removeTag` */
    method RemoveTag(tag: string, now: int) returns (ok: bool)
      modifies this
      ensures record.tags == RemoveAll(old(record).tags, tag)
      ensures ok <==> Validates(old(record))
      ensures ok ==> record == PreSave(old(record).(tags := RemoveAll(old(record).tags, tag)), now)
      ensures !ok ==> record == old(record).(tags := RemoveAll(old(record).tags, tag))
    {
      record := record.(tags := RemoveAll(record.tags, tag));
      ok := SaveDocument(now);
    }
  }
}
