/** The inbox service: the classifiers applied to fetched mail, the thread
    rule, the folder statistics, the query and pagination of the email list,
    the de-duplicating save loop, and moving or deleting a stored email. */
module EmailService {
  import opened Common
  import opened EmailModel

  // ---------------------------------------------------------------------
  // Classifiers
  // ---------------------------------------------------------------------

  /** The service's own `categorizeEmail`: the first four words of each of the
      document's keyword groups, on the lower-cased subject, with no personal
      category. */
  function ServiceCategorize(subject: string): Category
  {
    var s := Lower(subject);
    if ContainsAny(s, MarketingWords[..4]) then Marketing
    else if ContainsAny(s, SupportWords[..4]) then Support
    else if ContainsAny(s, SalesWords[..4]) then Sales
    else if ContainsAny(s, SpamWords[..4]) then Spam
    else Other
  }

  /** The subject alone decides, in the order marketing, support, sales, spam. */
  lemma ServiceCategorizePrecedence(subject: string)
    ensures ServiceCategorize(subject) != Personal
    ensures ServiceCategorize(subject) == Marketing <==> Mentions(subject, MarketingWords[..4])
    ensures ServiceCategorize(subject) == Support
            <==> !Mentions(subject, MarketingWords[..4]) && Mentions(subject, SupportWords[..4])
    ensures ServiceCategorize(subject) == Sales
            <==> !Mentions(subject, MarketingWords[..4]) && !Mentions(subject, SupportWords[..4])
                 && Mentions(subject, SalesWords[..4])
    ensures ServiceCategorize(subject) == Spam
            <==> !Mentions(subject, MarketingWords[..4]) && !Mentions(subject, SupportWords[..4])
                 && !Mentions(subject, SalesWords[..4]) && Mentions(subject, SpamWords[..4])
  {
    MentionsIff(subject, MarketingWords[..4]);
    MentionsIff(subject, SupportWords[..4]);
    MentionsIff(subject, SalesWords[..4]);
    MentionsIff(subject, SpamWords[..4]);
  }

  /** A subject the service calls marketing is marketing for the document too:
      the service's words are a prefix of the document's. */
  lemma ServiceMarketingAgrees(subject: string, fromEmail: string)
    requires ServiceCategorize(subject) == Marketing
    ensures CategorizeDocument(subject, fromEmail) == Marketing
  {
    ContainsAnyPrefix(Lower(subject), MarketingWords[..4], MarketingWords[4..]);
    assert MarketingWords[..4] + MarketingWords[4..] == MarketingWords;
  }

  /** `calculatePriority`: a base by the sender's `category` (which the sender
      schema does not define, so a stored sender has none), plus 2 for an
      urgent or important subject. */
  function Priority(senderCategory: Option<string>, subject: string): (p: int)
    ensures 2 <= p <= 7
  {
    var base := if senderCategory == Some("support") then 5
                else if senderCategory == Some("sales") then 4
                else if senderCategory == Some("marketing") then 2
                else 3;
    var s := Lower(subject);
    if Contains(s, "urgent") || Contains(s, "important") then base + 2 else base
  }

  /** The bonus is exactly 2 and applies exactly when the subject mentions one
      of the two words; a sender without a category gets 3 or 5. */
  lemma PriorityBonus(senderCategory: Option<string>, subject: string)
    ensures Priority(senderCategory, subject) - Priority(senderCategory, "") ==
            (if Mentions(subject, ["urgent", "important"]) then 2 else 0)
    ensures Priority(None, subject) in {3, 5}
  {
    MentionsIff(subject, ["urgent", "important"]);
    NotContainsFirstChar(Lower(""), "urgent");
    NotContainsFirstChar(Lower(""), "important");
  }

  /** One spam indicator: a word looked for in the subject or in the sender's
      address, and the points it adds. */
  datatype Indicator = Indicator(word: string, inSubject: bool, points: nat)

  const SpamIndicators: seq<Indicator> := [
    Indicator("viagra", true, 3), Indicator("lottery", true, 3), Indicator("urgent", true, 2),
    Indicator("free money", true, 3), Indicator("click here", true, 2),
    Indicator("noreply", false, 1), Indicator("donotreply", false, 1)]

  /** The points of every indicator that fires, summed. */
  function IndicatorTotal(subject: string, fromEmail: string, indicators: seq<Indicator>): nat
  {
    if indicators == [] then 0
    else
      var ind := indicators[0];
      (if Contains(if ind.inSubject then subject else fromEmail, ind.word) then ind.points else 0)
      + IndicatorTotal(subject, fromEmail, indicators[1..])
  }

  function Min(a: int, b: int): int { if a <= b then a else b }

  /** `calculateSpamScore`, accumulating a local score. */
  method SpamScore(subject: string, fromEmail: string) returns (score: int)
    ensures score == Min(IndicatorTotal(Lower(subject), Lower(fromEmail), SpamIndicators), 10)
    ensures 0 <= score <= 10
  {
    var s := Lower(subject);
    var f := Lower(fromEmail);
    score := 0;
    if Contains(s, "viagra") { score := score + 3; }
    ghost var acc := Fires(s, "viagra", 3);
    assert score == acc;
    if Contains(s, "lottery") { score := score + 3; }
    acc := acc + Fires(s, "lottery", 3);
    assert score == acc;
    if Contains(s, "urgent") { score := score + 2; }
    acc := acc + Fires(s, "urgent", 2);
    assert score == acc;
    if Contains(s, "free money") { score := score + 3; }
    acc := acc + Fires(s, "free money", 3);
    assert score == acc;
    if Contains(s, "click here") { score := score + 2; }
    acc := acc + Fires(s, "click here", 2);
    assert score == acc;
    if Contains(f, "noreply") { score := score + 1; }
    acc := acc + Fires(f, "noreply", 1);
    assert score == acc;
    if Contains(f, "donotreply") { score := score + 1; }
    acc := acc + Fires(f, "donotreply", 1);
    assert score == acc;
    SpamTableTotal(s, f);
    score := Min(score, 10);
  }

  /** `if (text.includes(word)) score += points` */
  function Fires(text: string, word: string, points: nat): nat
  {
    if Contains(text, word) then points else 0
  }

  /** The indicator table read out entry by entry. */
  lemma SpamTableTotal(s: string, f: string)
    ensures IndicatorTotal(s, f, SpamIndicators)
            == Fires(s, "viagra", 3) + Fires(s, "lottery", 3) + Fires(s, "urgent", 2) + Fires(s, "free money", 3)
               + Fires(s, "click here", 2) + Fires(f, "noreply", 1) + Fires(f, "donotreply", 1)
  {
    var rest := SpamIndicators;
    var acc := 0;
    assert rest[0] == SpamIndicators[0];
    acc := acc + Fires(s, "viagra", 3);
    rest := rest[1..];
    assert acc + IndicatorTotal(s, f, rest) == IndicatorTotal(s, f, SpamIndicators);
    assert rest[0] == SpamIndicators[1];
    acc := acc + Fires(s, "lottery", 3);
    rest := rest[1..];
    assert acc + IndicatorTotal(s, f, rest) == IndicatorTotal(s, f, SpamIndicators);
    assert rest[0] == SpamIndicators[2];
    acc := acc + Fires(s, "urgent", 2);
    rest := rest[1..];
    assert acc + IndicatorTotal(s, f, rest) == IndicatorTotal(s, f, SpamIndicators);
    assert rest[0] == SpamIndicators[3];
    acc := acc + Fires(s, "free money", 3);
    rest := rest[1..];
    assert acc + IndicatorTotal(s, f, rest) == IndicatorTotal(s, f, SpamIndicators);
    assert rest[0] == SpamIndicators[4];
    acc := acc + Fires(s, "click here", 2);
    rest := rest[1..];
    assert acc + IndicatorTotal(s, f, rest) == IndicatorTotal(s, f, SpamIndicators);
    assert rest[0] == SpamIndicators[5];
    acc := acc + Fires(f, "noreply", 1);
    rest := rest[1..];
    assert acc + IndicatorTotal(s, f, rest) == IndicatorTotal(s, f, SpamIndicators);
    assert rest[0] == SpamIndicators[6];
    acc := acc + Fires(f, "donotreply", 1);
    rest := rest[1..];
    assert acc + IndicatorTotal(s, f, rest) == IndicatorTotal(s, f, SpamIndicators);
    assert rest == [];
  }

  /** The points add up to at most 15, and a message that fires no indicator
      scores 0. */
  lemma {:induction false} IndicatorTotalBounds(subject: string, fromEmail: string, indicators: seq<Indicator>)
    ensures IndicatorTotal(subject, fromEmail, indicators) <= Sum(Points(indicators))
    ensures (forall i :: 0 <= i < |indicators| ==>
               !Contains(if indicators[i].inSubject then subject else fromEmail, indicators[i].word))
            ==> IndicatorTotal(subject, fromEmail, indicators) == 0
    decreases |indicators|
  {
    if indicators != [] {
      IndicatorTotalBounds(subject, fromEmail, indicators[1..]);
      assert Points(indicators)[1..] == Points(indicators[1..]);
      if forall i :: 0 <= i < |indicators| ==>
           !Contains(if indicators[i].inSubject then subject else fromEmail, indicators[i].word) {
        forall i | 0 <= i < |indicators[1..]|
          ensures !Contains(if indicators[1..][i].inSubject then subject else fromEmail, indicators[1..][i].word)
        {
          assert indicators[1..][i] == indicators[i + 1];
        }
      }
    }
  }

  function Points(indicators: seq<Indicator>): (r: seq<int>)
    ensures |r| == |indicators|
    ensures forall i :: 0 <= i < |indicators| ==> r[i] == indicators[i].points
  {
    if indicators == [] then [] else [indicators[0].points] + Points(indicators[1..])
  }

  /** The service's `generateThreadId`, where a message without an id takes a
      freshly generated one, passed in as `generated`. */
  function ServiceThreadId(inReplyTo: string, references: seq<string>, messageId: string, generated: string): (r: string)
    ensures messageId != "" ==> r == ThreadId(inReplyTo, references, messageId)
    ensures inReplyTo == "" && references == [] && messageId == "" ==> r == generated
  {
    if inReplyTo != "" then inReplyTo
    else if references != [] then references[0]
    else if messageId != "" then messageId
    else generated
  }

  // ---------------------------------------------------------------------
  // Folder statistics
  // ---------------------------------------------------------------------

  datatype FolderStats = FolderStats(count: int, unreadCount: int, totalSize: int)

  /** One group of the aggregation, keyed by folder. */
  datatype StatRow = StatRow(id: string, count: int, unreadCount: int, totalSize: int)

  function ZeroStats(): (m: map<string, FolderStats>)
    ensures forall f :: f in m <==> f in Folders
  {
    map f | f in Folders :: FolderStats(0, 0, 0)
  }

  /** The rows written over the six zero entries, one after the other. */
  function ApplyRows(m: map<string, FolderStats>, rows: seq<StatRow>): map<string, FolderStats>
    decreases |rows|
  {
    if rows == [] then m
    else ApplyRows(m[rows[0].id := FolderStats(rows[0].count, rows[0].unreadCount, rows[0].totalSize)], rows[1..])
  }

  /** The index of the last row for `f`, if any. */
  function LastRow(rows: seq<StatRow>, f: string): (r: Option<nat>)
    ensures r.Some? ==> r.value < |rows| && rows[r.value].id == f
                        && forall j :: r.value < j < |rows| ==> rows[j].id != f
    ensures r.None? ==> forall j :: 0 <= j < |rows| ==> rows[j].id != f
  {
    if rows == [] then None
    else if rows[|rows| - 1].id == f then Some(|rows| - 1)
    else LastRow(rows[..|rows| - 1], f)
  }

  /** `getEmailStats`' formatting: every row overwrites its folder's entry. */
  method FormatStats(rows: seq<StatRow>) returns (stats: map<string, FolderStats>)
    ensures stats == ApplyRows(ZeroStats(), rows)
  {
    stats := ZeroStats();
    var i := 0;
    while i < |rows|
      invariant 0 <= i <= |rows|
      invariant ApplyRows(stats, rows[i..]) == ApplyRows(ZeroStats(), rows)
    {
      assert rows[i..][1..] == rows[i + 1..];
      stats := stats[rows[i].id := FolderStats(rows[i].count, rows[i].unreadCount, rows[i].totalSize)];
      i := i + 1;
    }
  }

  /** After the rows, a key holds the last row written for it, else what it held. */
  lemma {:induction false} ApplyRowsValue(m: map<string, FolderStats>, rows: seq<StatRow>, f: string)
    ensures f in ApplyRows(m, rows) <==> f in m || LastRow(rows, f).Some?
    ensures LastRow(rows, f).Some? ==>
              var r := rows[LastRow(rows, f).value];
              ApplyRows(m, rows)[f] == FolderStats(r.count, r.unreadCount, r.totalSize)
    ensures LastRow(rows, f).None? && f in m ==> ApplyRows(m, rows)[f] == m[f]
    decreases |rows|
  {
    if rows != [] {
      var last := rows[|rows| - 1];
      var init := rows[..|rows| - 1];
      ApplyRowsSnoc(m, init, last);
      assert init + [last] == rows;
      ApplyRowsValue(m, init, f);
    }
  }

  lemma {:induction false} ApplyRowsSnoc(m: map<string, FolderStats>, rows: seq<StatRow>, r: StatRow)
    ensures ApplyRows(m, rows + [r]) == ApplyRows(m, rows)[r.id := FolderStats(r.count, r.unreadCount, r.totalSize)]
    decreases |rows|
  {
    if rows == [] {
      assert [] + [r] == [r];
    } else {
      assert (rows + [r])[1..] == rows[1..] + [r];
      ApplyRowsSnoc(m[rows[0].id := FolderStats(rows[0].count, rows[0].unreadCount, rows[0].totalSize)], rows[1..], r);
    }
  }

  /** The formatted statistics always list the six folders; a folder without
      a row is all zeros, and one with rows holds the last of them. */
  lemma FormatStatsSpec(rows: seq<StatRow>, f: string)
    ensures f in Folders ==> f in ApplyRows(ZeroStats(), rows)
    ensures f in Folders && (forall j :: 0 <= j < |rows| ==> rows[j].id != f)
            ==> ApplyRows(ZeroStats(), rows)[f] == FolderStats(0, 0, 0)
    ensures forall j :: (0 <= j < |rows| && rows[j].id == f && (forall k :: j < k < |rows| ==> rows[k].id != f)
                         ==> f in ApplyRows(ZeroStats(), rows)
                             && ApplyRows(ZeroStats(), rows)[f] == FolderStats(rows[j].count, rows[j].unreadCount, rows[j].totalSize))
  {
    ApplyRowsValue(ZeroStats(), rows, f);
    forall j | 0 <= j < |rows| && rows[j].id == f && (forall k :: j < k < |rows| ==> rows[k].id != f)
      ensures LastRow(rows, f) == Some(j)
    {
      var l := LastRow(rows, f);
      assert l.Some?;
      assert !(j < l.value) && !(l.value < j);
    }
  }

  // ---------------------------------------------------------------------
  // Email list query
  // ---------------------------------------------------------------------

  /** The options of `getEmails` after their defaults; a string option that is
      `null` or empty is `""`. */
  datatype ListOptions = ListOptions(
    folder: string, page: int, limit: int, isRead: Option<bool>, search: string, category: string,
    sortBy: string, sortOrder: string, hasAttachments: Option<bool>, isStarred: Option<bool>,
    isImportant: Option<bool>)

  /** One condition of the database query. */
  datatype Filter =
    | Is(text: string)
    | Flag(flag: bool)
    | Exists
    | EmptyArray
    | MatchesAny(pattern: string)

  /** The paths the query may constrain. */
  datatype QueryPath =
    | SenderAccountIdPath | FolderPath | IsReadPath | AutoCategoryPath | FirstAttachmentPath
    | AttachmentsPath | IsStarredPath | IsImportantPath | AnyOfPath

  /** The key each path is written under in the query object. */
  function PathKey(p: QueryPath): string
  {
    match p
    case SenderAccountIdPath => "senderAccountId"
    case FolderPath => "folder"
    case IsReadPath => "isRead"
    case AutoCategoryPath => "autoCategory"
    case FirstAttachmentPath => "attachments.0"
    case AttachmentsPath => "attachments"
    case IsStarredPath => "isStarred"
    case IsImportantPath => "isImportant"
    case AnyOfPath => "$or"
  }

  /** The query object `getEmails` builds: a path is present exactly when its
      option is given (non-null, or a non-empty string). */
  function ListQuery(senderId: string, o: ListOptions): (q: map<QueryPath, Filter>)
    ensures SenderAccountIdPath in q && q[SenderAccountIdPath] == Is(senderId)
    ensures FolderPath in q && q[FolderPath] == Is(o.folder)
    ensures IsReadPath in q <==> o.isRead.Some?
    ensures AutoCategoryPath in q <==> o.category != ""
    ensures FirstAttachmentPath in q <==> o.hasAttachments == Some(true)
    ensures AttachmentsPath in q <==> o.hasAttachments == Some(false)
    ensures IsStarredPath in q <==> o.isStarred.Some?
    ensures IsImportantPath in q <==> o.isImportant.Some?
    ensures AnyOfPath in q <==> o.search != ""
    ensures o.isRead.Some? ==> q[IsReadPath] == Flag(o.isRead.value)
    ensures o.isStarred.Some? ==> q[IsStarredPath] == Flag(o.isStarred.value)
    ensures o.isImportant.Some? ==> q[IsImportantPath] == Flag(o.isImportant.value)
    ensures o.category != "" ==> q[AutoCategoryPath] == Is(o.category)
    ensures o.search != "" ==> q[AnyOfPath] == MatchesAny(o.search)
    ensures o.hasAttachments == Some(true) ==> q[FirstAttachmentPath] == Exists
    ensures o.hasAttachments == Some(false) ==> q[AttachmentsPath] == EmptyArray
  {
    map p | p in AllPaths && Condition(senderId, o, p).Some? :: Condition(senderId, o, p).value
  }

  const AllPaths: set<QueryPath> := {SenderAccountIdPath, FolderPath, IsReadPath, AutoCategoryPath,
                                     FirstAttachmentPath, AttachmentsPath, IsStarredPath, IsImportantPath, AnyOfPath}

  /** The condition each `if` of `getEmails` writes under a path, if any. */
  function Condition(senderId: string, o: ListOptions, p: QueryPath): Option<Filter>
  {
    match p
    case SenderAccountIdPath => Some(Is(senderId))
    case FolderPath => Some(Is(o.folder))
    case IsReadPath => if o.isRead.Some? then Some(Flag(o.isRead.value)) else None
    case AutoCategoryPath => if o.category != "" then Some(Is(o.category)) else None
    case FirstAttachmentPath => if o.hasAttachments == Some(true) then Some(Exists) else None
    case AttachmentsPath => if o.hasAttachments == Some(false) then Some(EmptyArray) else None
    case IsStarredPath => if o.isStarred.Some? then Some(Flag(o.isStarred.value)) else None
    case IsImportantPath => if o.isImportant.Some? then Some(Flag(o.isImportant.value)) else None
    case AnyOfPath => if o.search != "" then Some(MatchesAny(o.search)) else None
  }

  /** `(page - 1) * limit` */
  function Skip(page: int, limit: int): int
  {
    (page - 1) * limit
  }

  /** `Math.ceil(total / limit)`; `None` stands for the non-finite value a zero
      limit gives. */
  function Pages(total: nat, limit: int): (r: Option<int>)
    ensures limit == 0 <==> r.None?
    ensures limit > 0 ==> r.value >= 0 && (r.value - 1) * limit < total <= r.value * limit
    ensures limit < 0 ==> r.value <= 0 && r.value * limit <= total < (r.value - 1) * limit
  {
    if limit > 0 then Some((total + limit - 1) / limit)
    else if limit < 0 then Some(-(total / -limit))
    else None
  }

  /** With a positive limit, the pages of `(page - 1) * limit` onward cover the
      total exactly: the last page starts inside it and ends at or after it. */
  lemma PagesCover(total: nat, limit: int)
    requires limit > 0
    ensures total > 0 ==> Skip(Pages(total, limit).value, limit) < total
    ensures total <= Skip(Pages(total, limit).value + 1, limit)
  {
  }

  // ---------------------------------------------------------------------
  // Saving fetched mail
  // ---------------------------------------------------------------------

  /** The sender account the mail was fetched for. */
  datatype SenderAccount = SenderAccount(id: string, email: string, category: Option<string>)

  /** The fields `processAndSaveEmails` sets before creating the document. */
  function Prepare(e: EmailRecord, sender: SenderAccount): (p: EmailRecord)
    ensures p.senderAccountId == sender.id && p.accountEmail == sender.email
    ensures p.messageId == e.messageId
  {
    var category := if e.autoCategory.None? || e.autoCategory == Some(Other)
                    then Some(ServiceCategorize(e.subject)) else e.autoCategory;
    e.(senderAccountId := sender.id, accountEmail := sender.email, autoCategory := category,
       priority := Priority(sender.category, e.subject))
  }

  /** A stored document with this message id for this account. */
  predicate Stored(store: seq<EmailRecord>, messageId: string, accountId: string)
  {
    exists j :: 0 <= j < |store| && store[j].messageId == messageId && store[j].senderAccountId == accountId
  }

  /** What one email comes to: skipped when already stored, dropped when the
      create fails (validation, or `dbFails` standing for a database error),
      else the saved document. */
  function SaveOne(store: seq<EmailRecord>, e: EmailRecord, sender: SenderAccount, dbFails: bool, now: int): (r: Option<EmailRecord>)
    ensures r.Some? <==> !Stored(store, e.messageId, sender.id) && Validates(Prepare(e, sender)) && !dbFails
    ensures r.Some? ==> r.value == PreSave(Prepare(e, sender), now) && r.value.messageId == e.messageId
                        && r.value.senderAccountId == sender.id
  {
    if Stored(store, e.messageId, sender.id) then None
    else
      var saved := Save(Prepare(e, sender), now);
      if saved.Some? && !dbFails then saved else None
  }

  /** The documents saved, in input order, given the store as it stood before. */
  function SavedFrom(store: seq<EmailRecord>, emails: seq<EmailRecord>, sender: SenderAccount, dbFails: seq<bool>, now: int): seq<EmailRecord>
    requires |dbFails| == |emails|
    decreases |emails|
  {
    if emails == [] then []
    else
      var one := SaveOne(store, emails[0], sender, dbFails[0], now);
      var saved := if one.Some? then [one.value] else [];
      saved + SavedFrom(store + saved, emails[1..], sender, dbFails[1..], now)
  }

  /** `processAndSaveEmails`: each email is checked against the store, which
      already holds the ones saved earlier in the loop; a failure skips only
      that email. */
  method ProcessAndSave(store: seq<EmailRecord>, emails: seq<EmailRecord>, sender: SenderAccount, dbFails: seq<bool>, now: int)
    returns (saved: seq<EmailRecord>, after: seq<EmailRecord>)
    requires |dbFails| == |emails|
    ensures saved == SavedFrom(store, emails, sender, dbFails, now)
    ensures after == store + saved
  {
    saved := [];
    after := store;
    var i := 0;
    while i < |emails|
      invariant 0 <= i <= |emails|
      invariant after == store + saved
      invariant saved + SavedFrom(after, emails[i..], sender, dbFails[i..], now)
                == SavedFrom(store, emails, sender, dbFails, now)
    {
      var one := SaveOne(after, emails[i], sender, dbFails[i], now);
      var first := if one.Some? then [one.value] else [];
      assert emails[i..][1..] == emails[i + 1..] && dbFails[i..][1..] == dbFails[i + 1..];
      SavedFromStep(after, emails[i..], sender, dbFails[i..], now, saved);
      saved := saved + first;
      after := after + first;
      i := i + 1;
    }
  }

  /** One turn of the save loop, seen from the rest of the input. */
  lemma SavedFromStep(store: seq<EmailRecord>, emails: seq<EmailRecord>, sender: SenderAccount, dbFails: seq<bool>, now: int,
                      saved: seq<EmailRecord>)
    requires |dbFails| == |emails| && emails != []
    ensures var one := SaveOne(store, emails[0], sender, dbFails[0], now);
            var first := if one.Some? then [one.value] else [];
            saved + SavedFrom(store, emails, sender, dbFails, now)
            == (saved + first) + SavedFrom(store + first, emails[1..], sender, dbFails[1..], now)
  {
  }

  /** Every saved document belongs to the sender's account, passed validation,
      was not in the store, and no two share a message id. */
  lemma {:induction false} SavedFromFresh(store: seq<EmailRecord>, emails: seq<EmailRecord>, sender: SenderAccount, dbFails: seq<bool>, now: int)
    requires |dbFails| == |emails|
    ensures var saved := SavedFrom(store, emails, sender, dbFails, now);
            && |saved| <= |emails|
            && (forall k :: 0 <= k < |saved| ==> saved[k].senderAccountId == sender.id && Validates(saved[k]))
            && (forall k :: 0 <= k < |saved| ==> !Stored(store, saved[k].messageId, sender.id))
            && (forall k, l :: 0 <= k < l < |saved| ==> saved[k].messageId != saved[l].messageId)
    decreases |emails|
  {
    if emails != [] {
      var one := SaveOne(store, emails[0], sender, dbFails[0], now);
      var first := if one.Some? then [one.value] else [];
      SavedFromFresh(store + first, emails[1..], sender, dbFails[1..], now);
      var rest := SavedFrom(store + first, emails[1..], sender, dbFails[1..], now);
      var saved := SavedFrom(store, emails, sender, dbFails, now);
      assert saved == first + rest;
      forall k | 0 <= k < |rest|
        ensures !Stored(store, rest[k].messageId, sender.id)
        ensures one.Some? ==> rest[k].messageId != one.value.messageId
      {
        if Stored(store, rest[k].messageId, sender.id) {
          StoredAppend(store, first, rest[k].messageId, sender.id);
        }
        if one.Some? {
          assert (store + first)[|store|] == one.value;
        }
      }
      if one.Some? {
        PreSaveKeeps(Prepare(emails[0], sender), now);
      }
    }
  }

  lemma StoredAppend(store: seq<EmailRecord>, more: seq<EmailRecord>, messageId: string, accountId: string)
    requires Stored(store, messageId, accountId)
    ensures Stored(store + more, messageId, accountId)
  {
    var j :| 0 <= j < |store| && store[j].messageId == messageId && store[j].senderAccountId == accountId;
    assert (store + more)[j] == store[j];
  }

  lemma PreSaveKeeps(r: EmailRecord, now: int)
    ensures PreSave(r, now).messageId == r.messageId
    ensures PreSave(r, now).senderAccountId == r.senderAccountId
  {
  }

  /** An email that is new, valid and meets no database error is saved:
      one failure does not stop the others. */
  lemma SavedWhenNew(store: seq<EmailRecord>, e: EmailRecord, sender: SenderAccount, now: int)
    requires !Stored(store, e.messageId, sender.id) && Validates(Prepare(e, sender))
    ensures SaveOne(store, e, sender, false, now) == Some(PreSave(Prepare(e, sender), now))
  {
  }

  /** Every email as it would be saved: prepared for the account and hooked. */
  function Hooked(emails: seq<EmailRecord>, sender: SenderAccount, now: int): (r: seq<EmailRecord>)
    ensures |r| == |emails|
    ensures forall i :: 0 <= i < |emails| ==> r[i] == PreSave(Prepare(emails[i], sender), now)
  {
    if emails == [] then [] else [PreSave(Prepare(emails[0], sender), now)] + Hooked(emails[1..], sender, now)
  }

  /** `a` is `b` with some elements left out, the rest in their order. */
  predicate IsSubsequence<T(==)>(a: seq<T>, b: seq<T>)
    decreases |b|
  {
    if b == [] then a == []
    else (a != [] && a[0] == b[0] && IsSubsequence(a[1..], b[1..])) || IsSubsequence(a, b[1..])
  }

  /** The saved documents come in input order: they are the hooked inputs with
      the skipped and failed ones left out. */
  lemma {:induction false} SavedInInputOrder(store: seq<EmailRecord>, emails: seq<EmailRecord>, sender: SenderAccount, dbFails: seq<bool>, now: int)
    requires |dbFails| == |emails|
    ensures IsSubsequence(SavedFrom(store, emails, sender, dbFails, now), Hooked(emails, sender, now))
    decreases |emails|
  {
    if emails != [] {
      var one := SaveOne(store, emails[0], sender, dbFails[0], now);
      var first := if one.Some? then [one.value] else [];
      SavedInInputOrder(store + first, emails[1..], sender, dbFails[1..], now);
      var rest := SavedFrom(store + first, emails[1..], sender, dbFails[1..], now);
      var h := Hooked(emails, sender, now);
      assert h[1..] == Hooked(emails[1..], sender, now);
      var saved := SavedFrom(store, emails, sender, dbFails, now);
      assert saved == first + rest;
      if one.Some? {
        assert one.value == h[0];
        assert saved[0] == h[0] && saved[1..] == rest;
      } else {
        assert saved == rest;
      }
    }
  }

  /** An email that is new to the store, whose message id no earlier email
      shares, that validates and meets no database error is saved, whatever
      happened to the emails before it. */
  lemma {:induction false} SavedDespiteEarlierFailures(store: seq<EmailRecord>, emails: seq<EmailRecord>, sender: SenderAccount,
                                                      dbFails: seq<bool>, now: int, i: nat)
    requires |dbFails| == |emails| && i < |emails| && !dbFails[i]
    requires !Stored(store, emails[i].messageId, sender.id) && Validates(Prepare(emails[i], sender))
    requires forall j :: 0 <= j < i ==> emails[j].messageId != emails[i].messageId
    ensures PreSave(Prepare(emails[i], sender), now) in SavedFrom(store, emails, sender, dbFails, now)
    decreases i
  {
    var one := SaveOne(store, emails[0], sender, dbFails[0], now);
    var first := if one.Some? then [one.value] else [];
    if i == 0 {
      SavedWhenNew(store, emails[0], sender, now);
    } else {
      assert emails[1..][i - 1] == emails[i] && dbFails[1..][i - 1] == dbFails[i];
      SavedDespiteEarlierFailures(store + first, emails[1..], sender, dbFails[1..], now, i - 1);
    }
  }

  // ---------------------------------------------------------------------
  // Moving and deleting
  // ---------------------------------------------------------------------

  datatype MoveError = NotFound | Invalid

  /** The error text of a missing email. */
  const EmailNotFound := "Email not found"

  /** The start of the message of the validation error the `Email` model
      throws; the per-field details that follow it are not modelled, so this
      text stands in for the whole message. */
  const ValidationFailed := "Email validation failed"

  /** The message of the error a move throws. */
  function MoveErrorText(e: MoveError): (t: string)
    ensures e == NotFound ==> t == EmailNotFound
    ensures e == Invalid ==> t == ValidationFailed && t != EmailNotFound
  {
    if e == NotFound then EmailNotFound else ValidationFailed
  }

  /** The stored emails, keyed by id. */
  class EmailStore {
    var docs: map<string, EmailRecord>

    constructor (docs0: map<string, EmailRecord>)
      ensures docs == docs0
    {
      docs := docs0;
    }

    /** `moveToFolder`: an unknown id is an error; otherwise the document's own
        `moveToFolder`, which is stored only when it validates. */
    method MoveToFolder(id: string, folder: string, now: int) returns (r: Result<EmailRecord, MoveError>)
      modifies this
      ensures id !in old(docs) ==> r == Err(NotFound) && docs == old(docs)
      ensures id in old(docs) && !Validates(old(docs)[id].(folder := folder)) ==> r == Err(Invalid) && docs == old(docs)
      ensures id in old(docs) && Validates(old(docs)[id].(folder := folder)) ==>
                r == Ok(PreSave(old(docs)[id].(folder := folder), now)) && docs == old(docs)[id := r.value]
    {
      if id !in docs {
        return Err(NotFound);
      }
      var saved := Save(docs[id].(folder := folder), now);
      if saved.None? {
        return Err(Invalid);
      }
      docs := docs[id := saved.value];
      r := Ok(saved.value);
    }

    /** `getEmailById`: the stored document, or an error for an unknown id. */
    function Find(id: string): (r: Result<EmailRecord, MoveError>)
      reads this
      ensures r.Ok? <==> id in docs
      ensures r.Ok? ==> r.value == docs[id]
      ensures r.Err? ==> r.error == NotFound
    {
      if id in docs then Ok(docs[id]) else Err(NotFound)
    }

    /** `markAsRead(emailId, isRead)`: the document's `markAsRead` or
        `markAsUnread`, stored only when it validates. */
    method MarkAsRead(id: string, isRead: bool, now: int) returns (r: Result<EmailRecord, MoveError>)
      modifies this
      ensures id !in old(docs) ==> r == Err(NotFound) && docs == old(docs)
      ensures id in old(docs) ==>
                var d := old(docs)[id].(isRead := isRead, openedAt := if isRead then Some(now) else None);
                && (!Validates(d) ==> r == Err(Invalid) && docs == old(docs))
                && (Validates(d) ==> r == Ok(PreSave(d, now)) && docs == old(docs)[id := r.value])
    {
      if id !in docs {
        return Err(NotFound);
      }
      var d := docs[id].(isRead := isRead, openedAt := if isRead then Some(now) else None);
      var saved := Save(d, now);
      if saved.None? {
        return Err(Invalid);
      }
      docs := docs[id := saved.value];
      r := Ok(saved.value);
    }

    /** `permanentlyDeleteEmail`: an unknown id is an error; otherwise the
        document is removed. */
    method PermanentlyDelete(id: string) returns (r: Result<string, MoveError>)
      modifies this
      ensures id !in old(docs) ==> r == Err(NotFound) && docs == old(docs)
      ensures id in old(docs) ==> r == Ok(id) && docs == old(docs) - {id}
    {
      if id !in docs {
        return Err(NotFound);
      }
      docs := docs - {id};
      r := Ok(id);
    }

    /** `deleteEmail`: a move to the trash. */
    method DeleteEmail(id: string, now: int) returns (r: Result<EmailRecord, MoveError>)
      modifies this
      ensures id !in old(docs) ==> r == Err(NotFound) && docs == old(docs)
      ensures id in old(docs) && !Validates(old(docs)[id].(folder := "TRASH")) ==> r == Err(Invalid) && docs == old(docs)
      ensures id in old(docs) && Validates(old(docs)[id].(folder := "TRASH")) ==>
                r == Ok(PreSave(old(docs)[id].(folder := "TRASH"), now)) && docs == old(docs)[id := r.value]
    {
      r := MoveToFolder(id, "TRASH", now);
    }
  }

  /** Deleting lands a document in the trash unless its spam score is 7 or
      more: the pre-save hook then sends it back to the spam folder. */
  lemma DeleteDestination(d: EmailRecord, now: int)
    requires Validates(d.(folder := "TRASH"))
    ensures d.spamScore < 7 ==> PreSave(d.(folder := "TRASH"), now).folder == "TRASH"
    ensures d.spamScore >= 7 ==> PreSave(d.(folder := "TRASH"), now).folder == "SPAM"
  {
  }
}
