// The HTTP handlers of the mailbox API (Backend/controllers/emailController.js):
// query parsing, request validation, the bulk-operation loop, error-to-status
// mapping and the body of an outgoing message.

module EmailController {
  import opened Common
  import opened EmailModel
  import opened EmailService

  /** An HTTP status with the `message` of the JSON body. */
  datatype Response = Response(status: nat, message: string)

  const InternalError := "Internal server error"

  /** A service error as the handlers report it: a missing email is 404, any
      other failure (a save that does not validate) is 500. */
  function ServiceErrorResponse(e: MoveError): (r: Response)
    ensures r.status == 404 <==> e.NotFound?
    ensures r.status == 500 <==> e.Invalid?
  {
    if e.NotFound? then Response(404, EmailNotFound) else Response(500, InternalError)
  }

  // ---------------------------------------------------------------------
  // parseInt
  // ---------------------------------------------------------------------

  predicate IsDigit(c: char)
  {
    '0' <= c <= '9'
  }

  /** The longest prefix made of decimal digits. */
  function LeadingDigits(s: string): (d: string)
    ensures |d| <= |s| && d == s[..|d|] && AllDigits(d)
    ensures |d| < |s| ==> !IsDigit(s[|d|])
  {
    if s == [] || !IsDigit(s[0]) then [] else [s[0]] + LeadingDigits(s[1..])
  }

  /** `parseInt(s)` on a decimal string: leading white space, an optional sign,
      then the digits up to the first other character; `None` is NaN. */
  function ParseInt(s: string): (r: Option<int>)
  {
    var t := TrimStart(s);
    var signed := |t| > 0 && (t[0] == '-' || t[0] == '+');
    var digits := LeadingDigits(if signed then t[1..] else t);
    var value: int := DigitsValue(digits);
    if digits == [] then None
    else if signed && t[0] == '-' then Some(-value)
    else Some(value)
  }

  /** The digits of a number stop at the first character that is not a digit. */
  lemma {:induction false} LeadingDigitsOf(d: string, rest: string)
    requires AllDigits(d)
    requires rest == [] || !IsDigit(rest[0])
    ensures LeadingDigits(d + rest) == d
  {
    if d == [] {
      assert d + rest == rest;
    } else {
      assert (d + rest)[1..] == d[1..] + rest;
      LeadingDigitsOf(d[1..], rest);
      assert [d[0]] + d[1..] == d;
    }
  }

  /** `parseInt` reads back the decimal text of any integer, also when a unit
      or other text follows it (`parseInt("20px") === 20`). */
  lemma ParseIntOfDecimal(n: int, rest: string)
    requires rest == [] || !IsDigit(rest[0])
    ensures ParseInt(IntToString(n) + rest) == Some(n)
  {
    if n >= 0 {
      ParseIntOfNat(n, rest);
    } else {
      ParseIntOfNegative(n, rest);
    }
  }

  /** The decimal text of `n` alone parses back to `n`. */
  lemma ParseIntOfText(n: int)
    ensures ParseInt(IntToString(n)) == Some(n)
  {
    ParseIntOfDecimal(n, "");
    assert IntToString(n) + "" == IntToString(n);
  }

  lemma ParseIntOfNat(n: nat, rest: string)
    requires rest == [] || !IsDigit(rest[0])
    ensures ParseInt(NatToString(n) + rest) == Some(n)
  {
    NatToStringRoundTrip(n);
    ParseIntDigits(NatToString(n) + rest, NatToString(n), rest, n);
  }

  lemma ParseIntOfNegative(n: int, rest: string)
    requires n < 0
    requires rest == [] || !IsDigit(rest[0])
    ensures ParseInt(IntToString(n) + rest) == Some(n)
  {
    var m: nat := -n;
    NegativeText(n, rest);
    NatToStringRoundTrip(m);
    ParseIntNegativeDigits(IntToString(n) + rest, NatToString(m), rest, m);
  }

  /** The text of a negative number is a minus sign and the digits of its magnitude. */
  lemma NegativeText(n: int, rest: string)
    requires n < 0
    ensures IntToString(n) + rest == "-" + (NatToString(-n) + rest)
  {
    assert IntToString(n) == "-" + NatToString(-n);
  }

  /** Digits followed by a non-digit read as their value. */
  lemma ParseIntDigits(s: string, d: string, rest: string, m: nat)
    requires d != [] && AllDigits(d) && DigitsValue(d) == m
    requires rest == [] || !IsDigit(rest[0])
    requires s == d + rest
    ensures ParseInt(s) == Some(m)
  {
    assert s[0] == d[0];
    assert s[0] != '-' && s[0] != '+';
    TrimStartKeeps(s);
    LeadingDigitsOf(d, rest);
  }

  /** A minus sign, digits, then a non-digit read as the negated value. */
  lemma ParseIntNegativeDigits(s: string, d: string, rest: string, m: nat)
    requires d != [] && AllDigits(d) && DigitsValue(d) == m
    requires rest == [] || !IsDigit(rest[0])
    requires s == "-" + (d + rest)
    ensures ParseInt(s) == Some(-(m as int))
  {
    assert s[0] == '-' && s[1..] == d + rest;
    TrimStartKeeps(s);
    LeadingDigitsOf(d, rest);
    assert LeadingDigits(TrimStart(s)[1..]) == d;
  }

  lemma TrimStartKeeps(s: string)
    requires s != [] && !IsJsSpace(s[0])
    ensures TrimStart(s) == s
  {
  }

  // ---------------------------------------------------------------------
  // getEmails: building the list options
  // ---------------------------------------------------------------------

  /** The query string of a list request; `None` is an absent parameter. */
  datatype EmailQuery = EmailQuery(
    folder: Option<string>, page: Option<string>, limit: Option<string>, isRead: Option<string>,
    search: Option<string>, category: Option<string>, sortBy: Option<string>,
    sortOrder: Option<string>, hasAttachments: Option<string>, isStarred: Option<string>,
    isImportant: Option<string>)

  /** The `options` object handed to the service; a `None` page or limit is
      NaN, a `None` flag is `null`, a `None` search or category is undefined. */
  datatype EmailOptions = EmailOptions(
    folder: string, page: Option<int>, limit: Option<int>, isRead: Option<bool>,
    search: Option<string>, category: Option<string>, sortBy: string, sortOrder: string,
    hasAttachments: Option<bool>, isStarred: Option<bool>, isImportant: Option<bool>)

  function OrDefault(v: Option<string>, d: string): string
  {
    if v.Some? then v.value else d
  }

  /** `v !== undefined ? v === 'true' : null` */
  function Flag(v: Option<string>): Option<bool>
  {
    if v.None? then None else Some(v.value == "true")
  }

  /** `Math.min(x, 100)`: NaN stays NaN. */
  function CapLimit(x: Option<int>): Option<int>
  {
    if x.None? then None else Some(if x.value < 100 then x.value else 100)
  }

  function GetEmailsOptions(q: EmailQuery): (o: EmailOptions)
    ensures o.limit.Some? ==> o.limit.value <= 100
    ensures q.limit.None? ==> o.limit == Some(20)
    ensures q.page.None? ==> o.page == Some(1)
    ensures q.folder.None? ==> o.folder == "INBOX"
    ensures q.sortBy.None? ==> o.sortBy == "receivedAt"
    ensures q.sortOrder.None? ==> o.sortOrder == "desc"
    ensures o.isRead.None? <==> q.isRead.None?
    ensures o.isRead == Some(true) <==> q.isRead == Some("true")
    ensures o.hasAttachments.None? <==> q.hasAttachments.None?
    ensures o.hasAttachments == Some(true) <==> q.hasAttachments == Some("true")
    ensures o.isStarred.None? <==> q.isStarred.None?
    ensures o.isStarred == Some(true) <==> q.isStarred == Some("true")
    ensures o.isImportant.None? <==> q.isImportant.None?
    ensures o.isImportant == Some(true) <==> q.isImportant == Some("true")
  {
    EmailOptions(
      OrDefault(q.folder, "INBOX"),
      if q.page.None? then Some(1) else ParseInt(q.page.value),
      CapLimit(if q.limit.None? then Some(20) else ParseInt(q.limit.value)),
      Flag(q.isRead), q.search, q.category,
      OrDefault(q.sortBy, "receivedAt"), OrDefault(q.sortOrder, "desc"),
      Flag(q.hasAttachments), Flag(q.isStarred), Flag(q.isImportant))
  }

  /** A decimal page and limit arrive as numbers; the limit is capped at 100. */
  lemma GetEmailsNumbers(q: EmailQuery, page: int, limit: int)
    requires q.page == Some(IntToString(page)) && q.limit == Some(IntToString(limit))
    ensures GetEmailsOptions(q).page == Some(page)
    ensures GetEmailsOptions(q).limit == Some(if limit < 100 then limit else 100)
  {
    ParseIntOfDecimal(page, []);
    ParseIntOfDecimal(limit, []);
    assert IntToString(page) + [] == IntToString(page);
    assert IntToString(limit) + [] == IntToString(limit);
  }

  /** `getEmails`: a missing sender id is 400, an unknown sender 404,
      otherwise the options go to the service. */
  function GetEmailsRequest(senderId: string, senderExists: bool, q: EmailQuery): (r: Result<EmailOptions, Response>)
    ensures r.Err? <==> senderId == "" || !senderExists
    ensures r.Err? ==> r.error.status == (if senderId == "" then 400 else 404)
    ensures r.Ok? ==> r.value == GetEmailsOptions(q)
  {
    if senderId == "" then Err(Response(400, "Sender ID is required"))
    else if !senderExists then Err(Response(404, "Sender not found"))
    else Ok(GetEmailsOptions(q))
  }

  // ---------------------------------------------------------------------
  // fetchEmailsFromServer
  // ---------------------------------------------------------------------

  /** The sender's mail-sync settings. */
  datatype SyncSettings = SyncSettings(isEmailSyncEnabled: bool, imapHost: string)

  /** The status of a failed fetch, by the first of `IMAP`, `authentication`,
      `timeout` that the error message contains. */
  function FetchErrorResponse(message: string): (r: Response)
    ensures r.status in {400, 401, 408, 500}
    ensures r.status == 400 <==> Contains(message, "IMAP")
    ensures r.status == 401 <==> !Contains(message, "IMAP") && Contains(message, "authentication")
    ensures r.status == 408 <==> !Contains(message, "IMAP") && !Contains(message, "authentication")
                                 && Contains(message, "timeout")
  {
    if Contains(message, "IMAP") then Response(400, "IMAP connection failed")
    else if Contains(message, "authentication") then Response(401, "Invalid email credentials")
    else if Contains(message, "timeout") then Response(408, "Connection timeout")
    else Response(500, InternalError)
  }

  /** The service's own timeouts: the IMAP connection timeout is reported as a
      failed IMAP connection (400), only the fetch timeout as 408. */
  lemma FetchTimeouts()
    ensures FetchErrorResponse("IMAP connection timeout").status == 400
    ensures FetchErrorResponse("Fetch timeout").status == 408
  {
    ImapTimeoutIsImap();
    FetchTimeoutIsTimeout();
  }

  lemma ImapTimeoutIsImap()
    ensures Contains("IMAP connection timeout", "IMAP")
  {
    OccursAtContains("IMAP connection timeout", "IMAP", 0);
  }

  lemma FetchTimeoutIsTimeout()
    ensures !Contains("Fetch timeout", "IMAP") && !Contains("Fetch timeout", "authentication")
    ensures Contains("Fetch timeout", "timeout")
  {
    FetchTimeoutHasTimeout();
    FetchTimeoutNoImap();
    FetchTimeoutNoAuthentication();
  }

  lemma FetchTimeoutNoImap()
    ensures !Contains("Fetch timeout", "IMAP")
  {
    NotContainsFirstChar("Fetch timeout", "IMAP");
  }

  lemma FetchTimeoutNoAuthentication()
    ensures !Contains("Fetch timeout", "authentication")
  {
    NotContainsFirstChar("Fetch timeout", "authentication");
  }

  lemma FetchTimeoutHasTimeout()
    ensures Contains("Fetch timeout", "timeout")
  {
    var f := "Fetch timeout";
    assert f[6..13] == "timeout";
    OccursAtContains(f, "timeout", 6);
  }

  /** `fetchEmailsFromServer`: the request checks in order, then the fetch's
      count or its classified error. */
  function FetchEmailsFromServer(senderId: string, sender: Option<SyncSettings>, fetched: Result<nat, string>): (r: Response)
    ensures senderId == "" ==> r.status == 400
    ensures senderId != "" && sender.None? ==> r.status == 404
    ensures senderId != "" && sender.Some? && (!sender.value.isEmailSyncEnabled || sender.value.imapHost == "") ==>
              r.status == 400
    ensures r.status == 200 <==> senderId != "" && sender.Some? && sender.value.isEmailSyncEnabled
                                 && sender.value.imapHost != "" && fetched.Ok?
    ensures r.status == 200 ==> r.message == "Successfully fetched " + NatToString(fetched.value) + " emails"
  {
    if senderId == "" then Response(400, "Sender ID is required")
    else if sender.None? then Response(404, "Sender not found")
    else if !sender.value.isEmailSyncEnabled then Response(400, "Email sync is not enabled for this sender")
    else if sender.value.imapHost == "" then Response(400, "IMAP configuration is missing")
    else if fetched.Err? then FetchErrorResponse(fetched.error)
    else Response(200, "Successfully fetched " + NatToString(fetched.value) + " emails")
  }

  /** The sync settings a loaded sender document has: the sender schema
      declares neither `isEmailSyncEnabled` nor `imapHost`, so both read as
      `undefined`. */
  const SchemaSyncSettings := SyncSettings(false, "")

  /** As written, every known sender is refused with 400 and the fetch is never
      attempted, whatever it would have returned. */
  lemma FetchRefusedForSchemaSender(senderId: string, fetched: Result<nat, string>)
    requires senderId != ""
    ensures FetchEmailsFromServer(senderId, Some(SchemaSyncSettings), fetched)
            == Response(400, "Email sync is not enabled for this sender")
  {
  }

  /** With the two sync fields in the sender schema, a sender with sync enabled
      and an IMAP host reaches the fetch, and the fetch's outcome decides the
      reply. */
  lemma FetchReachesServerWithSyncFields(senderId: string, imapHost: string, fetched: Result<nat, string>)
    requires senderId != "" && imapHost != ""
    ensures var r := FetchEmailsFromServer(senderId, Some(SyncSettings(true, imapHost)), fetched);
            && (r.status == 200 <==> fetched.Ok?)
            && (fetched.Err? ==> r == FetchErrorResponse(fetched.error))
  {
  }

  // ---------------------------------------------------------------------
  // Single-email handlers
  // ---------------------------------------------------------------------

  const EmailIdRequired := "Email ID is required"

  /** The checks `moveToFolder` makes before touching the email. */
  function MoveRequestCheck(emailId: string, folder: Option<string>): (r: Option<Response>)
    ensures r.None? <==> emailId != "" && folder.Some? && folder.value in Folders
    ensures r.Some? ==> r.value.status == 400
    ensures emailId != "" && (folder.None? || folder.value == "") ==> r == Some(Response(400, "Folder is required"))
  {
    if emailId == "" then Some(Response(400, EmailIdRequired))
    else if folder.None? || folder.value == "" then Some(Response(400, "Folder is required"))
    else if folder.value !in Folders then Some(Response(400, "Invalid folder name"))
    else None
  }

  /** After the folder validation, a move fails only for a document that is already
      invalid in some other field. */
  lemma CheckedMoveValidates(emailId: string, folder: string, d: EmailRecord)
    requires MoveRequestCheck(emailId, Some(folder)).None?
    ensures Validates(d.(folder := folder)) <==> Validates(d.(folder := "INBOX"))
  {
  }

  method MoveToFolder(store: EmailStore, emailId: string, folder: Option<string>, now: int) returns (resp: Response)
    modifies store
    ensures MoveRequestCheck(emailId, folder).Some? ==>
              resp == MoveRequestCheck(emailId, folder).value && store.docs == old(store.docs)
    ensures MoveRequestCheck(emailId, folder).None? && emailId !in old(store.docs) ==>
              resp.status == 404 && store.docs == old(store.docs)
    ensures resp.status == 200 <==>
              && MoveRequestCheck(emailId, folder).None?
              && emailId in old(store.docs) && Validates(old(store.docs)[emailId].(folder := folder.value))
    ensures resp.status == 200 ==>
              resp.message == "Email moved to " + folder.value
              && store.docs == old(store.docs)[emailId := PreSave(old(store.docs)[emailId].(folder := folder.value), now)]
    ensures resp.status != 200 ==> store.docs == old(store.docs)
  {
    var check := MoveRequestCheck(emailId, folder);
    if check.Some? {
      return check.value;
    }
    var r := store.MoveToFolder(emailId, folder.value, now);
    if r.Err? {
      return ServiceErrorResponse(r.error);
    }
    resp := Response(200, "Email moved to " + folder.value);
  }

  /** `getEmailById`: the email as found, marked as read in the store when it
      was unread; the response still carries the document read before the
      mark. */
  method GetEmailById(store: EmailStore, emailId: string, now: int) returns (resp: Response, data: Option<EmailRecord>)
    modifies store
    ensures emailId == "" ==> resp.status == 400 && store.docs == old(store.docs)
    ensures emailId != "" && emailId !in old(store.docs) ==> resp.status == 404 && store.docs == old(store.docs)
    ensures resp.status == 200 ==> emailId in old(store.docs) && data == Some(old(store.docs)[emailId])
    ensures emailId != "" && emailId in old(store.docs) && old(store.docs)[emailId].isRead ==>
              resp.status == 200 && store.docs == old(store.docs)
    ensures emailId != "" && emailId in old(store.docs) && !old(store.docs)[emailId].isRead ==>
              var d := old(store.docs)[emailId].(isRead := true, openedAt := Some(now));
              && (resp.status == 200 <==> Validates(d))
              && (Validates(d) ==> store.docs == old(store.docs)[emailId := PreSave(d, now)])
    ensures resp.status != 200 ==> store.docs == old(store.docs) && data.None?
  {
    data := None;
    if emailId == "" {
      return Response(400, EmailIdRequired), None;
    }
    var found := store.Find(emailId);
    if found.Err? {
      return ServiceErrorResponse(found.error), None;
    }
    if !found.value.isRead {
      var marked := store.MarkAsRead(emailId, true, now);
      if marked.Err? {
        return ServiceErrorResponse(marked.error), None;
      }
    }
    resp := Response(200, "");
    data := Some(found.value);
  }

  /** `markAsRead` handler: `isRead` defaults to true. */
  method MarkAsRead(store: EmailStore, emailId: string, isRead: Option<bool>, now: int) returns (resp: Response)
    modifies store
    ensures emailId == "" ==> resp.status == 400 && store.docs == old(store.docs)
    ensures emailId != "" && emailId !in old(store.docs) ==> resp.status == 404 && store.docs == old(store.docs)
    ensures resp.status == 200 ==>
              var read := isRead != Some(false);
              && emailId in old(store.docs) && emailId in store.docs
              && resp.message == (if read then "Email marked as read" else "Email marked as unread")
              && store.docs[emailId].isRead == read
    ensures var read := isRead != Some(false);
            emailId != "" && emailId in old(store.docs) ==>
              var d := old(store.docs)[emailId].(isRead := read, openedAt := if read then Some(now) else None);
              && (resp.status == 200 <==> Validates(d))
              && (resp.status == 200 ==> store.docs == old(store.docs)[emailId := PreSave(d, now)])
    ensures resp.status != 200 ==> store.docs == old(store.docs)
  {
    if emailId == "" {
      return Response(400, EmailIdRequired);
    }
    var read := isRead != Some(false);
    var r := store.MarkAsRead(emailId, read, now);
    if r.Err? {
      return ServiceErrorResponse(r.error);
    }
    PreSaveKeepsRead(old(store.docs)[emailId].(isRead := read, openedAt := if read then Some(now) else None), now);
    resp := Response(200, if read then "Email marked as read" else "Email marked as unread");
  }

  /** Saving never touches the read flag. */
  lemma PreSaveKeepsRead(d: EmailRecord, now: int)
    ensures PreSave(d, now).isRead == d.isRead
  {
  }

  /** `deleteEmail` handler: a move to the trash. */
  method DeleteEmail(store: EmailStore, emailId: string, now: int) returns (resp: Response)
    modifies store
    ensures emailId == "" ==> resp.status == 400 && store.docs == old(store.docs)
    ensures emailId != "" && emailId !in old(store.docs) ==> resp.status == 404 && store.docs == old(store.docs)
    ensures resp.status == 200 <==>
              emailId != "" && emailId in old(store.docs) && Validates(old(store.docs)[emailId].(folder := "TRASH"))
    ensures resp.status == 200 ==>
              resp.message == "Email moved to trash"
              && store.docs == old(store.docs)[emailId := PreSave(old(store.docs)[emailId].(folder := "TRASH"), now)]
    ensures resp.status != 200 ==> store.docs == old(store.docs)
  {
    if emailId == "" {
      return Response(400, EmailIdRequired);
    }
    var r := store.DeleteEmail(emailId, now);
    if r.Err? {
      return ServiceErrorResponse(r.error);
    }
    resp := Response(200, "Email moved to trash");
  }

  /** `permanentlyDeleteEmail` handler. */
  method PermanentlyDeleteEmail(store: EmailStore, emailId: string) returns (resp: Response)
    modifies store
    ensures resp.status == 200 <==> emailId != "" && emailId in old(store.docs)
    ensures resp.status == 200 ==> store.docs == old(store.docs) - {emailId}
    ensures resp.status != 200 ==> store.docs == old(store.docs)
    ensures emailId != "" && emailId !in old(store.docs) ==> resp.status == 404
  {
    if emailId == "" {
      return Response(400, EmailIdRequired);
    }
    var r := store.PermanentlyDelete(emailId);
    if r.Err? {
      return ServiceErrorResponse(r.error);
    }
    resp := Response(200, "Email permanently deleted");
  }

  // ---------------------------------------------------------------------
  // bulkOperations
  // ---------------------------------------------------------------------

  datatype Operation = MarkRead | MarkUnread | MoveTo | Delete | PermanentDelete | Unknown

  function ParseOperation(name: string): (op: Operation)
    ensures op == Unknown <==>
              name !in {"markAsRead", "markAsUnread", "moveToFolder", "delete", "permanentlyDelete"}
  {
    if name == "markAsRead" then MarkRead
    else if name == "markAsUnread" then MarkUnread
    else if name == "moveToFolder" then MoveTo
    else if name == "delete" then Delete
    else if name == "permanentlyDelete" then PermanentDelete
    else Unknown
  }

  /** An entry of `results`: the updated email, or `{ _id, deleted: true }`. */
  datatype BulkResult = Updated(email: EmailRecord) | Removed(id: string)

  /** An entry of `errors`. */
  datatype BulkError = BulkError(emailId: string, error: string)

  type BulkOutcome = Result<BulkResult, BulkError>

  const FolderRequiredForMove := "Folder is required for move operation"
  const InvalidOperation := "Invalid operation"

  type Docs = map<string, EmailRecord>

  /** The service's `markAsRead` on a map of documents. */
  function AfterMark(docs: Docs, id: string, isRead: bool, now: int): (Result<EmailRecord, MoveError>, Docs)
  {
    if id !in docs then (Err(NotFound), docs)
    else
      var d := docs[id].(isRead := isRead, openedAt := if isRead then Some(now) else None);
      if Validates(d) then (Ok(PreSave(d, now)), docs[id := PreSave(d, now)]) else (Err(Invalid), docs)
  }

  /** The service's `moveToFolder` on a map of documents. */
  function AfterMove(docs: Docs, id: string, folder: string, now: int): (Result<EmailRecord, MoveError>, Docs)
  {
    if id !in docs then (Err(NotFound), docs)
    else
      var d := docs[id].(folder := folder);
      if Validates(d) then (Ok(PreSave(d, now)), docs[id := PreSave(d, now)]) else (Err(Invalid), docs)
  }

  function Lift(id: string, p: (Result<EmailRecord, MoveError>, Docs)): (BulkOutcome, Docs)
  {
    (if p.0.Ok? then Ok(Updated(p.0.value)) else Err(BulkError(id, MoveErrorText(p.0.error))), p.1)
  }

  /** One pass of the loop body: the outcome for one id and the documents after it. */
  function BulkOne(docs: Docs, op: Operation, folder: Option<string>, id: string, now: int): (r: (BulkOutcome, Docs))
    ensures r.0.Err? ==> r.0.error.emailId == id && r.1 == docs
  {
    match op
    case MarkRead => Lift(id, AfterMark(docs, id, true, now))
    case MarkUnread => Lift(id, AfterMark(docs, id, false, now))
    case MoveTo =>
      if folder.None? || folder.value == "" then (Err(BulkError(id, FolderRequiredForMove)), docs)
      else Lift(id, AfterMove(docs, id, folder.value, now))
    case Delete => Lift(id, AfterMove(docs, id, "TRASH", now))
    case PermanentDelete =>
      if id in docs then (Ok(Removed(id)), docs - {id}) else (Err(BulkError(id, EmailNotFound)), docs)
    case Unknown => (Err(BulkError(id, InvalidOperation)), docs)
  }

  /** The whole loop: one outcome per id, in order, and the final documents. */
  function BulkRun(docs: Docs, op: Operation, folder: Option<string>, ids: seq<string>, now: int): (r: (seq<BulkOutcome>, Docs))
    ensures |r.0| == |ids|
    decreases |ids|
  {
    if ids == [] then ([], docs)
    else
      var first := BulkOne(docs, op, folder, ids[0], now);
      var rest := BulkRun(first.1, op, folder, ids[1..], now);
      ([first.0] + rest.0, rest.1)
  }

  /** Each error names the id it was raised for: the j-th outcome belongs to
      the j-th id. */
  lemma {:induction false} BulkRunIds(docs: Docs, op: Operation, folder: Option<string>, ids: seq<string>, now: int)
    ensures var r := BulkRun(docs, op, folder, ids, now);
            forall j :: 0 <= j < |ids| && r.0[j].Err? ==> r.0[j].error.emailId == ids[j]
    decreases |ids|
  {
    if ids != [] {
      var first := BulkOne(docs, op, folder, ids[0], now);
      BulkRunIds(first.1, op, folder, ids[1..], now);
      var r := BulkRun(docs, op, folder, ids, now);
      var rest := BulkRun(first.1, op, folder, ids[1..], now);
      assert r.0 == [first.0] + rest.0;
      forall j | 0 <= j < |ids| && r.0[j].Err?
        ensures r.0[j].error.emailId == ids[j]
      {
        if j > 0 {
          assert r.0[j] == rest.0[j - 1] && ids[j] == ids[1..][j - 1];
        }
      }
    }
  }

  /** `results`: the successful outcomes, in order. */
  function Oks(outs: seq<BulkOutcome>): seq<BulkResult>
  {
    if outs == [] then [] else (if outs[0].Ok? then [outs[0].value] else []) + Oks(outs[1..])
  }

  /** `errors`: the failed outcomes, in order. */
  function Errs(outs: seq<BulkOutcome>): seq<BulkError>
  {
    if outs == [] then [] else (if outs[0].Err? then [outs[0].error] else []) + Errs(outs[1..])
  }

  /** Every outcome is counted exactly once: successCount + errorCount is the
      number of ids. */
  lemma {:induction false} OksErrsPartition(outs: seq<BulkOutcome>)
    ensures |Oks(outs)| + |Errs(outs)| == |outs|
  {
    if outs != [] {
      OksErrsPartition(outs[1..]);
    }
  }

  lemma {:induction false} OksErrsCons(o: BulkOutcome, outs: seq<BulkOutcome>)
    ensures Oks([o] + outs) == (if o.Ok? then [o.value] else []) + Oks(outs)
    ensures Errs([o] + outs) == (if o.Err? then [o.error] else []) + Errs(outs)
  {
    assert ([o] + outs)[1..] == outs;
  }

  /** An operation the loop rejects for every id leaves the documents alone and
      reports one error per id, with that id and the same message. */
  lemma {:induction false} BulkRejected(docs: Docs, op: Operation, folder: Option<string>, ids: seq<string>, now: int)
    requires op == Unknown || (op == MoveTo && (folder.None? || folder.value == ""))
    ensures var r := BulkRun(docs, op, folder, ids, now);
            var msg := if op == Unknown then InvalidOperation else FolderRequiredForMove;
            && r.1 == docs && Oks(r.0) == []
            && |Errs(r.0)| == |ids|
            && forall j :: 0 <= j < |ids| ==> Errs(r.0)[j] == BulkError(ids[j], msg)
    decreases |ids|
  {
    if ids != [] {
      BulkRejected(docs, op, folder, ids[1..], now);
      var r := BulkRun(docs, op, folder, ids, now);
      var rest := BulkRun(docs, op, folder, ids[1..], now);
      OksErrsCons(r.0[0], rest.0);
      assert r.0 == [r.0[0]] + rest.0;
    }
  }

  /** The ids that are not stored all end up in `errors` as not found; nothing
      is changed for them. */
  lemma BulkMissing(docs: Docs, op: Operation, folder: Option<string>, id: string, now: int)
    requires id !in docs
    ensures BulkOne(docs, op, folder, id, now).0.Err?
    ensures BulkOne(docs, op, folder, id, now).1 == docs
    ensures op != Unknown && (op != MoveTo || (folder.Some? && folder.value != "")) ==>
              BulkOne(docs, op, folder, id, now).0.error == BulkError(id, EmailNotFound)
  {
  }

  /** One id of the loop, on the store. */
  method ApplyOne(store: EmailStore, op: Operation, folder: Option<string>, id: string, now: int) returns (o: BulkOutcome)
    modifies store
    ensures (o, store.docs) == BulkOne(old(store.docs), op, folder, id, now)
  {
    var r: Result<EmailRecord, MoveError>;
    match op {
      case MarkRead => r := store.MarkAsRead(id, true, now);
      case MarkUnread => r := store.MarkAsRead(id, false, now);
      case MoveTo =>
        if folder.None? || folder.value == "" {
          return Err(BulkError(id, FolderRequiredForMove));
        }
        r := store.MoveToFolder(id, folder.value, now);
      case Delete => r := store.DeleteEmail(id, now);
      case PermanentDelete =>
        var gone := store.PermanentlyDelete(id);
        if gone.Err? {
          return Err(BulkError(id, EmailNotFound));
        }
        return Ok(Removed(id));
      case Unknown => return Err(BulkError(id, InvalidOperation));
    }
    o := if r.Ok? then Ok(Updated(r.value)) else Err(BulkError(id, MoveErrorText(r.error)));
  }

  lemma BulkRunStep(docs: Docs, op: Operation, folder: Option<string>, ids: seq<string>, i: nat, now: int,
                    o: BulkOutcome, after: Docs)
    requires i < |ids| && (o, after) == BulkOne(docs, op, folder, ids[i], now)
    ensures var r := BulkRun(docs, op, folder, ids[i..], now);
            var rest := BulkRun(after, op, folder, ids[i + 1..], now);
            && Oks(r.0) == (if o.Ok? then [o.value] else []) + Oks(rest.0)
            && Errs(r.0) == (if o.Err? then [o.error] else []) + Errs(rest.0)
            && r.1 == rest.1
  {
    assert ids[i..][1..] == ids[i + 1..];
    var rest := BulkRun(after, op, folder, ids[i + 1..], now);
    OksErrsCons(o, rest.0);
  }

  /** The summary `bulkOperations` returns. */
  datatype BulkReport = BulkReport(
    operation: string, totalProcessed: nat, successCount: nat, errorCount: nat,
    results: seq<BulkResult>, errors: seq<BulkError>)

  /** The loop of `bulkOperations`: each id in order, pushed to `results` or
      to `errors`. */
  method RunBulk(store: EmailStore, op: Operation, folder: Option<string>, ids: seq<string>, now: int)
    returns (results: seq<BulkResult>, errors: seq<BulkError>)
    modifies store
    ensures var run := BulkRun(old(store.docs), op, folder, ids, now);
            results == Oks(run.0) && errors == Errs(run.0) && store.docs == run.1
  {
    ghost var spec := BulkRun(store.docs, op, folder, ids, now);
    results := [];
    errors := [];
    var i := 0;
    while i < |ids|
      invariant 0 <= i <= |ids|
      invariant BulkProgress(results, errors, BulkRun(store.docs, op, folder, ids[i..], now), spec)
    {
      ghost var before := store.docs;
      var o := ApplyOne(store, op, folder, ids[i], now);
      BulkProgressStep(results, errors, before, op, folder, ids, i, now, o, store.docs, spec);
      results := results + (if o.Ok? then [o.value] else []);
      errors := errors + (if o.Err? then [o.error] else []);
      i := i + 1;
    }
    assert ids[i..] == [];
  }

  /** What is pushed so far, followed by what the rest of the loop pushes, is
      what the whole loop pushes. */
  ghost predicate BulkProgress(results: seq<BulkResult>, errors: seq<BulkError>,
                               rest: (seq<BulkOutcome>, Docs), whole: (seq<BulkOutcome>, Docs))
  {
    && results + Oks(rest.0) == Oks(whole.0)
    && errors + Errs(rest.0) == Errs(whole.0)
    && rest.1 == whole.1
  }

  lemma BulkProgressStep(results: seq<BulkResult>, errors: seq<BulkError>, docs: Docs, op: Operation,
                         folder: Option<string>, ids: seq<string>, i: nat, now: int,
                         o: BulkOutcome, after: Docs, whole: (seq<BulkOutcome>, Docs))
    requires i < |ids| && (o, after) == BulkOne(docs, op, folder, ids[i], now)
    requires BulkProgress(results, errors, BulkRun(docs, op, folder, ids[i..], now), whole)
    ensures BulkProgress(results + (if o.Ok? then [o.value] else []), errors + (if o.Err? then [o.error] else []),
                         BulkRun(after, op, folder, ids[i + 1..], now), whole)
  {
    BulkRunStep(docs, op, folder, ids, i, now, o, after);
    var rest := BulkRun(after, op, folder, ids[i + 1..], now).0;
    var ok: seq<BulkResult> := if o.Ok? then [o.value] else [];
    var err: seq<BulkError> := if o.Err? then [o.error] else [];
    assert (results + ok) + Oks(rest) == results + (ok + Oks(rest));
    assert (errors + err) + Errs(rest) == errors + (err + Errs(rest));
  }

  /** `bulkOperations`: a missing sender id, operation or id array is 400;
      otherwise every id goes through the loop, failures included. */
  method BulkOperations(store: EmailStore, senderId: string, operation: string, emailIds: Option<seq<string>>,
                        folder: Option<string>, now: int) returns (r: Result<BulkReport, Response>)
    modifies store
    ensures r.Err? <==> senderId == "" || operation == "" || emailIds.None?
    ensures r.Err? ==> r.error.status == 400 && store.docs == old(store.docs)
    ensures r.Ok? ==>
              var run := BulkRun(old(store.docs), ParseOperation(operation), folder, emailIds.value, now);
              && r.value.results == Oks(run.0) && r.value.errors == Errs(run.0)
              && store.docs == run.1
              && r.value.totalProcessed == |emailIds.value|
              && r.value.successCount == |r.value.results| && r.value.errorCount == |r.value.errors|
              && r.value.successCount + r.value.errorCount == r.value.totalProcessed
  {
    if senderId == "" || operation == "" || emailIds.None? {
      return Err(Response(400, "Invalid request parameters"));
    }
    var ids := emailIds.value;
    ghost var run := BulkRun(store.docs, ParseOperation(operation), folder, ids, now);
    var results, errors := RunBulk(store, ParseOperation(operation), folder, ids, now);
    OksErrsPartition(run.0);
    r := Ok(BulkReport(operation, |ids|, |results|, |errors|, results, errors));
  }

  // ---------------------------------------------------------------------
  // searchEmails
  // ---------------------------------------------------------------------

  /** The query check of `searchEmails`: the trimmed query, or 400 when it is
      missing or its `length` (in UTF-16 code units) is below two. */
  function SearchQuery(query: Option<string>): (r: Result<string, Response>)
    ensures r.Ok? <==> query.Some? && Utf16Length(Trim(query.value)) >= 2
    ensures r.Ok? ==> r.value == Trim(query.value)
    ensures r.Err? ==> r.error.status == 400
  {
    if query.None? || Utf16Length(Trim(query.value)) < 2 then Err(Response(400, "Search query must be at least 2 characters long"))
    else Ok(Trim(query.value))
  }

  /** For text within the Basic Multilingual Plane the check counts
      characters: two or more are accepted, fewer refused. */
  lemma SearchQueryBmp(q: string)
    requires forall i :: 0 <= i < |Trim(q)| ==> Trim(q)[i] as int <= 0xFFFF
    ensures SearchQuery(Some(q)).Ok? <==> |Trim(q)| >= 2
  {
  }

  /** A single character above U+FFFF, such as an emoji, is two code units
      long and passes the check on its own. */
  lemma SearchQueryAstral(c: char)
    requires c as int > 0xFFFF
    ensures SearchQuery(Some([c])).Ok?
  {
    TrimNoSpaceEnds([c]);
    assert [c][..0] == [];
  }

  /** Surrounding white space never changes the outcome of the query validation. */
  lemma SearchQueryTrimmed(q: string)
    ensures SearchQuery(Some(Trim(q))) == SearchQuery(Some(q))
  {
    TrimIdempotent(q);
  }

  // ---------------------------------------------------------------------
  // sendEmail
  // ---------------------------------------------------------------------

  /** `body.replace(/\n/g, '<br>')` */
  function HtmlBody(body: string): (h: string)
    ensures '\n' !in h
    ensures |h| == |body| + 3 * Count(body, '\n')
  {
    if body == [] then []
    else LineBreak(body[0]) + HtmlBody(body[1..])
  }

  /** One character of the body as it appears in the HTML part. */
  function LineBreak(c: char): string
  {
    if c == '\n' then "<br>" else [c]
  }

  /** The replacement works line by line: it distributes over concatenation. */
  lemma {:induction false} HtmlBodyAppend(a: string, b: string)
    ensures HtmlBody(a + b) == HtmlBody(a) + HtmlBody(b)
  {
    if a == [] {
      assert a + b == b;
    } else {
      assert (a + b)[0] == a[0];
      assert (a + b)[1..] == a[1..] + b;
      HtmlBodyAppend(a[1..], b);
      calc {
        HtmlBody(a + b);
        LineBreak(a[0]) + HtmlBody(a[1..] + b);
        LineBreak(a[0]) + (HtmlBody(a[1..]) + HtmlBody(b));
        (LineBreak(a[0]) + HtmlBody(a[1..])) + HtmlBody(b);
      }
    }
  }

  /** A body without line breaks is sent as it is. */
  lemma {:induction false} HtmlBodyPlain(body: string)
    requires '\n' !in body
    ensures HtmlBody(body) == body
  {
    if body != [] {
      HtmlBodyPlain(body[1..]);
      assert [body[0]] + body[1..] == body;
    }
  }

  /** The sender account a message goes out from. */
  datatype SenderAccountInfo = SenderAccountInfo(name: string, email: string)

  /** The message handed to the transport. */
  datatype MailMessage = MailMessage(from: string, to: string, subject: string, text: string, html: string)

  /** `"${sender.name || sender.email}" <${sender.email}>` */
  function FromHeader(s: SenderAccountInfo): (h: string)
    ensures s.name != "" ==> h == "\"" + s.name + "\" <" + s.email + ">"
    ensures s.name == "" ==> h == "\"" + s.email + "\" <" + s.email + ">"
  {
    "\"" + (if s.name != "" then s.name else s.email) + "\" <" + s.email + ">"
  }

  function ComposeMail(s: SenderAccountInfo, to: string, subject: string, body: string): (m: MailMessage)
    ensures m.to == to && m.subject == subject && m.text == body
    ensures '\n' !in m.html && m.html == HtmlBody(body)
  {
    MailMessage(FromHeader(s), to, subject, body, HtmlBody(body))
  }

  /** A transport failure by its error code. */
  function SendErrorResponse(code: string): (r: Response)
    ensures r.status == 401 <==> code == "EAUTH"
    ensures r.status == 503 <==> code == "ECONNECTION"
    ensures r.status == 500 <==> code != "EAUTH" && code != "ECONNECTION"
  {
    if code == "EAUTH" then Response(401, "Authentication failed. Please check your email credentials.")
    else if code == "ECONNECTION" then Response(503, "Connection failed. Please check your SMTP settings.")
    else Response(500, "Failed to send email")
  }

  /** `sendEmail`: four required fields, a known sender, then the transport's
      result (`Ok` with the message id, or `Err` with the error code). */
  function SendEmail(senderId: string, to: string, subject: string, body: string,
                     sender: Option<SenderAccountInfo>, transport: Result<string, string>): (r: Response)
    ensures r.status == 400 <==> senderId == "" || to == "" || subject == "" || body == ""
    ensures r.status == 404 <==> senderId != "" && to != "" && subject != "" && body != "" && sender.None?
    ensures r.status == 200 <==> senderId != "" && to != "" && subject != "" && body != ""
                                 && sender.Some? && transport.Ok?
    ensures r.status !in {200, 400, 404} ==> transport.Err? && r == SendErrorResponse(transport.error)
  {
    if senderId == "" || to == "" || subject == "" || body == "" then
      Response(400, "Sender ID, recipient, subject, and body are required")
    else if sender.None? then Response(404, "Sender account not found")
    else if transport.Err? then SendErrorResponse(transport.error)
    else Response(200, "Email sent successfully")
  }
}
