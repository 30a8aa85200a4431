/** The recipient handlers: adding one recipient, importing a JSON file or a
    CSV sheet, resetting statuses in place, and paging through the list. The
    collection is an array of documents held in creation order. */
module RecipientController {
  import opened Common
  import opened CampaignModel
  import EmailController

  datatype Response = Response(status: nat, message: string)

  /** A stored recipient with its document id. */
  datatype Doc = Doc(id: string, recipient: Recipient)

  /** The schema's enum values. */
  function StatusName(s: RecipientStatus): (r: string)
    ensures r in {"pending", "sent", "failed"}
  {
    match s
    case Pending => "pending"
    case Sent => "sent"
    case Failed => "failed"
  }

  lemma StatusNameInjective(a: RecipientStatus, b: RecipientStatus)
    ensures StatusName(a) == StatusName(b) <==> a == b
  {
  }

  // ---------------------------------------------------------------------
  // addRecipient
  // ---------------------------------------------------------------------

  /** `new Recipient({ email, name, status: 'pending' })` then `save()`. The
      handler only refuses a missing or empty email; the schema then trims
      `email` and `name`, and its `required` check refuses an email that
      trims to nothing, which lands in the catch as a 500. */
  function AddRecipient(email: Option<string>, name: Option<string>): (r: Result<Recipient, Response>)
    ensures (r.Err? && r.error.status == 400) <==> email.None? || email.value == ""
    ensures r.Ok? <==> email.Some? && Trim(email.value) != ""
    ensures r.Err? ==> r.error.status == 400 || r.error.status == 500
    ensures r.Ok? ==> r.value.status == Pending && r.value.email == Trim(email.value)
    ensures r.Ok? ==> (r.value.name.Some? <==> name.Some?)
    ensures r.Ok? ==> r.value.name == (if name.Some? then Some(Trim(name.value)) else None)
  {
    if email.None? || email.value == "" then Err(Response(400, "Email là bắt buộc"))
    else
      var stored := Trim(email.value);
      if stored == "" then Err(Response(500, "Lỗi khi thêm người nhận"))
      else Ok(Recipient(stored, if name.Some? then Some(Trim(name.value)) else None, Pending))
  }

  /** What `addRecipient` stores is already in the schema's trimmed form. */
  lemma AddRecipientTrimmed(email: Option<string>, name: Option<string>)
    requires AddRecipient(email, name).Ok?
    ensures var rec := AddRecipient(email, name).value;
            Trim(rec.email) == rec.email && rec.email != ""
            && (rec.name.Some? ==> Trim(rec.name.value) == rec.name.value)
  {
    TrimIdempotent(email.value);
    if name.Some? {
      TrimIdempotent(name.value);
    }
  }

  // ---------------------------------------------------------------------
  // addRecipientsFromJson
  // ---------------------------------------------------------------------

  /** One element of the uploaded array, as its string-valued fields. */
  type Obj = map<string, string>

  /** The uploaded file after `JSON.parse`. */
  datatype JsonFile = Unparsable | NotArray | Items(items: seq<Obj>)

  /** `recipients.map(r => ({ ...r, status: 'pending' }))`. */
  function ForcePending(items: seq<Obj>): (r: seq<Obj>)
    ensures |r| == |items|
    ensures forall i :: 0 <= i < |r| ==> "status" in r[i] && r[i]["status"] == "pending"
    ensures forall i, k :: 0 <= i < |r| && k != "status" ==>
              (k in r[i] <==> k in items[i]) && (k in items[i] ==> r[i][k] == items[i][k])
  {
    if items == [] then [] else [items[0]["status" := "pending"]] + ForcePending(items[1..])
  }

  /** Forcing `pending` twice is the same as once. */
  lemma {:induction false} ForcePendingIdempotent(items: seq<Obj>)
    ensures ForcePending(ForcePending(items)) == ForcePending(items)
  {
    if items != [] {
      var once := ForcePending(items);
      assert once[1..] == ForcePending(items[1..]);
      ForcePendingIdempotent(items[1..]);
      assert once[0]["status" := "pending"] == once[0];
    }
  }

  datatype JsonImport = JsonImport(response: Response, inserted: seq<Obj>)

  /** The JSON upload: no file, or anything but a non-empty array, is 400; a
      file that does not parse, or an `insertMany` that fails, is 500;
      otherwise every element is inserted with status `pending`. */
  function AddRecipientsFromJson(hasFile: bool, file: JsonFile, insertFails: bool): (r: JsonImport)
    ensures r.response.status == 400 <==> !hasFile || file.NotArray? || (file.Items? && file.items == [])
    ensures r.response.status == 500 <==> hasFile && (file.Unparsable? || (file.Items? && file.items != [] && insertFails))
    ensures r.response.status == 201 <==> hasFile && file.Items? && file.items != [] && !insertFails
    ensures r.response.status == 201 ==>
              r.inserted == ForcePending(file.items)
              && r.response.message == "Đã thêm thành công " + NatToString(|file.items|) + " người nhận."
    ensures r.response.status != 201 ==> r.inserted == []
  {
    if !hasFile then JsonImport(Response(400, "Vui lòng tải lên một file JSON."), [])
    else if file.Unparsable? then JsonImport(Response(500, "Lỗi khi xử lý file JSON."), [])
    else if file.NotArray? || file.items == [] then JsonImport(Response(400, "File JSON phải chứa một mảng người nhận."), [])
    else
      var toInsert := ForcePending(file.items);
      if insertFails then JsonImport(Response(500, "Lỗi khi xử lý file JSON."), [])
      else JsonImport(Response(201, "Đã thêm thành công " + NatToString(|toInsert|) + " người nhận."), toInsert)
  }

  // ---------------------------------------------------------------------
  // addRecipientsFromCsv
  // ---------------------------------------------------------------------

  /** The `email` and `name` columns of one parsed CSV row; a missing column is `None`. */
  datatype CsvRow = CsvRow(email: Option<string>, name: Option<string>)

  /** The row handler's `if (email)`. */
  predicate HasEmail(row: CsvRow)
  {
    row.email.Some? && row.email.value != ""
  }

  /** The record pushed for a row with an email. */
  function CsvEntry(row: CsvRow): (r: Recipient)
    requires HasEmail(row)
    ensures r.status == Pending && r.email == Trim(row.email.value) && r.name.Some?
    ensures row.name.None? || row.name.value == "" ==> r.name == Some("")
    ensures row.name.Some? && row.name.value != "" ==> r.name == Some(Trim(row.name.value))
  {
    var name := if row.name.Some? && row.name.value != "" then Trim(row.name.value) else "";
    Recipient(Trim(row.email.value), Some(name), Pending)
  }

  /** The records the handler collects, in row order. */
  function CsvAccepted(rows: seq<CsvRow>): (r: seq<Recipient>)
    decreases |rows|
  {
    if rows == [] then []
    else
      var last := rows[|rows| - 1];
      CsvAccepted(rows[..|rows| - 1]) + (if HasEmail(last) then [CsvEntry(last)] else [])
  }

  /** The rows the handler skips, in row order. */
  function CsvSkipped(rows: seq<CsvRow>): (r: seq<CsvRow>)
    decreases |rows|
  {
    if rows == [] then []
    else
      var last := rows[|rows| - 1];
      CsvSkipped(rows[..|rows| - 1]) + (if HasEmail(last) then [] else [last])
  }

  /** The `data` handler, row by row. */
  method CollectCsvRows(rows: seq<CsvRow>) returns (recipientsToAdd: seq<Recipient>, errors: seq<CsvRow>)
    ensures recipientsToAdd == CsvAccepted(rows) && errors == CsvSkipped(rows)
  {
    recipientsToAdd := [];
    errors := [];
    var i := 0;
    while i < |rows|
      invariant 0 <= i <= |rows|
      invariant recipientsToAdd == CsvAccepted(rows[..i]) && errors == CsvSkipped(rows[..i])
    {
      var row := rows[i];
      assert rows[..i + 1][..i] == rows[..i];
      if HasEmail(row) {
        recipientsToAdd := recipientsToAdd + [CsvEntry(row)];
      } else {
        errors := errors + [row];
      }
      i := i + 1;
    }
    assert rows[..|rows|] == rows;
  }

  /** Every row lands in exactly one of the two lists. */
  lemma {:induction false} CsvPartition(rows: seq<CsvRow>)
    ensures |CsvAccepted(rows)| + |CsvSkipped(rows)| == |rows|
    ensures forall row :: row in CsvSkipped(rows) ==> row in rows && !HasEmail(row)
    ensures forall x :: x in CsvAccepted(rows) ==> exists row :: row in rows && HasEmail(row) && x == CsvEntry(row)
  {
    if rows != [] {
      var init := rows[..|rows| - 1];
      var last := rows[|rows| - 1];
      CsvPartition(init);
      assert rows == init + [last];
      forall x | x in CsvAccepted(rows)
        ensures exists row :: row in rows && HasEmail(row) && x == CsvEntry(row)
      {
        if x !in CsvAccepted(init) {
          assert HasEmail(last) && x == CsvEntry(last);
          assert last in rows;
        }
      }
    }
  }

  /** Every collected record is `pending` and holds a trimmed email and name. */
  lemma {:induction false} CsvAcceptedTrimmed(rows: seq<CsvRow>)
    ensures forall x :: x in CsvAccepted(rows) ==>
              x.status == Pending && Trim(x.email) == x.email && x.name.Some? && Trim(x.name.value) == x.name.value
  {
    if rows != [] {
      var last := rows[|rows| - 1];
      CsvAcceptedTrimmed(rows[..|rows| - 1]);
      if HasEmail(last) {
        TrimIdempotent(last.email.value);
        if last.name.Some? && last.name.value != "" {
          TrimIdempotent(last.name.value);
        } else {
          assert Trim("") == "";
        }
      }
    }
  }

  /** Nothing is collected exactly when no row has an email. */
  lemma {:induction false} CsvNoneAccepted(rows: seq<CsvRow>)
    ensures CsvAccepted(rows) == [] <==> forall i :: 0 <= i < |rows| ==> !HasEmail(rows[i])
  {
    if rows != [] {
      var init := rows[..|rows| - 1];
      CsvNoneAccepted(init);
      if CsvAccepted(rows) == [] {
        forall i | 0 <= i < |rows|
          ensures !HasEmail(rows[i])
        {
          if i < |rows| - 1 {
            assert rows[i] == init[i];
          }
        }
      }
    }
  }

  /** What `insertMany(..., { ordered: false })` reports. */
  datatype InsertOutcome = Inserted | DuplicateKeys(emails: seq<string>) | DbFailure

  /** The recipient schema's validation of a record whose fields are already
      trimmed: `email` is required, so an empty email fails. An unordered
      `insertMany` skips a document that fails it without raising an error,
      and leaves it out of the array it returns. */
  predicate RecipientValid(r: Recipient)
  {
    r.email != ""
  }

  /** A collected record passes the schema exactly when `addRecipient` would
      store the same email: both trim it and need something left. */
  lemma CsvEntryValidIffAdd(row: CsvRow)
    requires HasEmail(row)
    ensures RecipientValid(CsvEntry(row)) <==> AddRecipient(row.email, row.name).Ok?
  {
  }

  /** Every row with an email contributes its record to the collected list. */
  lemma {:induction false} CsvEntryAccepted(rows: seq<CsvRow>, row: CsvRow)
    requires row in rows && HasEmail(row)
    ensures CsvEntry(row) in CsvAccepted(rows)
  {
    var init := rows[..|rows| - 1];
    assert rows == init + [rows[|rows| - 1]];
    if row != rows[|rows| - 1] {
      CsvEntryAccepted(init, row);
    }
  }

  /** The records the unordered insert stores are exactly the entries of the
      rows whose email is not blank once trimmed. */
  lemma CsvCreated(rows: seq<CsvRow>)
    ensures forall x :: x in Filter(CsvAccepted(rows), RecipientValid) <==>
              exists row :: row in rows && HasEmail(row) && Trim(row.email.value) != "" && x == CsvEntry(row)
  {
    CsvPartition(rows);
    forall row | row in rows && HasEmail(row) {
      CsvEntryAccepted(rows, row);
    }
  }

  /** A row whose email is only white space is collected, so the upload is
      not refused, but the schema skips it: nothing is created. */
  lemma BlankEmailRowNotCreated()
    ensures CsvAccepted([CsvRow(Some(" "), None)]) == [Recipient("", Some(""), Pending)]
    ensures Filter(CsvAccepted([CsvRow(Some(" "), None)]), RecipientValid) == []
  {
    var rows := [CsvRow(Some(" "), None)];
    assert rows[..0] == [];
    assert Trim(" ") == "";
  }

  datatype CsvReply = CsvReply(status: nat, created: seq<Recipient>, duplicateEmails: seq<string>, errors: seq<CsvRow>)

  /** The CSV upload: no file is 400; the rows are collected; nothing to add
      is 400; otherwise the insert's outcome decides between 201, 409 (some
      emails were duplicates) and 500. On 201 the reply lists the records the
      insert returned: those that pass the schema. The recipient schema declares no
      unique index, so `DuplicateKeys` (error code 11000) arises only from
      an index created on the collection outside the schema. */
  method AddRecipientsFromCsv(hasFile: bool, rows: seq<CsvRow>, outcome: InsertOutcome) returns (r: CsvReply)
    ensures r.status == 400 <==> !hasFile || CsvAccepted(rows) == []
    ensures r.status == 201 <==> hasFile && CsvAccepted(rows) != [] && outcome.Inserted?
    ensures r.status == 409 <==> hasFile && CsvAccepted(rows) != [] && outcome.DuplicateKeys?
    ensures r.status == 201 ==> r.created == Filter(CsvAccepted(rows), RecipientValid) && r.errors == CsvSkipped(rows)
    ensures r.status == 409 ==> r.duplicateEmails == outcome.emails && r.errors == CsvSkipped(rows)
    ensures r.status in {201, 400, 409, 500}
  {
    if !hasFile {
      return CsvReply(400, [], [], []);
    }
    var recipientsToAdd, errors := CollectCsvRows(rows);
    if |recipientsToAdd| == 0 {
      return CsvReply(400, [], [], []);
    }
    match outcome
    case Inserted => r := CsvReply(201, Filter(recipientsToAdd, RecipientValid), [], errors);
    case DuplicateKeys(emails) => r := CsvReply(409, [], emails, errors);
    case DbFailure => r := CsvReply(500, [], [], []);
  }

  // ---------------------------------------------------------------------
  // Status resets, in place on the collection
  // ---------------------------------------------------------------------

  /** The filter of an `updateMany`: `None` is `{}`. */
  predicate Selected(d: Doc, from: Option<RecipientStatus>)
  {
    from.None? || d.recipient.status == from.value
  }

  function ToPending(d: Doc): Doc
  {
    d.(recipient := d.recipient.(status := Pending))
  }

  /** `updateMany(filter, { $set: { status: 'pending' } })` on a list of documents. */
  function ResetWhere(docs: seq<Doc>, from: Option<RecipientStatus>): (r: seq<Doc>)
    ensures |r| == |docs|
    decreases |docs|
  {
    if docs == [] then []
    else
      var last := docs[|docs| - 1];
      ResetWhere(docs[..|docs| - 1], from) + [if Selected(last, from) then ToPending(last) else last]
  }

  /** How many documents hold status `st`. */
  function StatusCount(docs: seq<Doc>, st: RecipientStatus): (n: nat)
    ensures n <= |docs|
    decreases |docs|
  {
    if docs == [] then 0
    else StatusCount(docs[..|docs| - 1], st) + (if docs[|docs| - 1].recipient.status == st then 1 else 0)
  }

  /** The selected documents whose status changes, which is what the replies
      report as `modifiedCount`. The collection keeps timestamps, so
      `updateMany` also sets `updatedAt` and MongoDB counts every matched
      document as modified; for the `sent` and `failed` filters the two agree
      (`ResetWhereCounts`: no matched document is `pending`), and the count of
      the unfiltered reset is never reported. */
  function Modified(docs: seq<Doc>, from: Option<RecipientStatus>): (n: nat)
    ensures n <= |docs|
    decreases |docs|
  {
    if docs == [] then 0
    else
      var last := docs[|docs| - 1];
      Modified(docs[..|docs| - 1], from) + (if Selected(last, from) && last.recipient.status != Pending then 1 else 0)
  }

  /** Exactly the selected documents become `pending`; every other document,
      and every other field, is untouched. */
  lemma {:induction false} ResetWhereAt(docs: seq<Doc>, from: Option<RecipientStatus>, i: nat)
    requires i < |docs|
    ensures ResetWhere(docs, from)[i] == if Selected(docs[i], from) then ToPending(docs[i]) else docs[i]
    ensures ResetWhere(docs, from)[i].id == docs[i].id
    ensures ResetWhere(docs, from)[i].recipient.email == docs[i].recipient.email
  {
    if i < |docs| - 1 {
      ResetWhereAt(docs[..|docs| - 1], from, i);
    }
  }

  /** Resetting one status leaves none of it behind, and adds exactly its
      previous count to `pending`. */
  lemma {:induction false} ResetWhereCounts(docs: seq<Doc>, st: RecipientStatus)
    requires st != Pending
    ensures StatusCount(ResetWhere(docs, Some(st)), st) == 0
    ensures StatusCount(ResetWhere(docs, Some(st)), Pending) == StatusCount(docs, Pending) + StatusCount(docs, st)
    ensures Modified(docs, Some(st)) == StatusCount(docs, st)
  {
    if docs != [] {
      var init := docs[..|docs| - 1];
      ResetWhereCounts(init, st);
      var after := ResetWhere(docs, Some(st));
      assert after[..|after| - 1] == ResetWhere(init, Some(st));
    }
  }

  /** Resetting the whole collection leaves every document `pending`. */
  lemma {:induction false} ResetAllPending(docs: seq<Doc>)
    ensures forall i :: 0 <= i < |docs| ==> ResetWhere(docs, None)[i].recipient.status == Pending
  {
    forall i | 0 <= i < |docs|
      ensures ResetWhere(docs, None)[i].recipient.status == Pending
    {
      ResetWhereAt(docs, None, i);
    }
  }

  /** A reset repeated changes nothing more. */
  lemma {:induction false} ResetWhereIdempotent(docs: seq<Doc>, from: Option<RecipientStatus>)
    ensures ResetWhere(ResetWhere(docs, from), from) == ResetWhere(docs, from)
    ensures Modified(ResetWhere(docs, from), from) == 0
  {
    if docs != [] {
      var init := docs[..|docs| - 1];
      ResetWhereIdempotent(init, from);
      var once := ResetWhere(docs, from);
      assert once[..|once| - 1] == ResetWhere(init, from);
    }
  }

  /** One more document counted by `modifiedCount`. */
  lemma ResetStep(pre: seq<Doc>, i: nat, from: Option<RecipientStatus>)
    requires i < |pre|
    ensures Modified(pre[..i + 1], from)
            == Modified(pre[..i], from) + (if Selected(pre[i], from) && pre[i].recipient.status != Pending then 1 else 0)
  {
    assert pre[..i + 1][..i] == pre[..i];
  }

  /** The reset loop over the collection; it answers with `modifiedCount`. */
  method ResetMatching(a: array<Doc>, from: Option<RecipientStatus>) returns (modifiedCount: nat)
    modifies a
    ensures a[..] == ResetWhere(old(a[..]), from)
    ensures modifiedCount == Modified(old(a[..]), from)
  {
    ghost var pre := a[..];
    modifiedCount := 0;
    var i := 0;
    while i < a.Length
      invariant 0 <= i <= a.Length
      invariant forall k :: 0 <= k < i ==> a[k] == if Selected(pre[k], from) then ToPending(pre[k]) else pre[k]
      invariant forall k :: i <= k < a.Length ==> a[k] == pre[k]
      invariant modifiedCount == Modified(pre[..i], from)
    {
      var d := a[i];
      ResetStep(pre, i, from);
      if Selected(d, from) {
        if d.recipient.status != Pending {
          modifiedCount := modifiedCount + 1;
        }
        a[i] := ToPending(d);
      }
      i := i + 1;
    }
    assert pre[..a.Length] == pre;
    forall k | 0 <= k < a.Length
      ensures a[..][k] == ResetWhere(pre, from)[k]
    {
      ResetWhereAt(pre, from, k);
    }
  }

  datatype ResetReply = ResetReply(status: nat, message: string, modifiedCount: nat)

  /** `resetRecipientsStatus`: every document becomes `pending`. */
  method ResetRecipientsStatus(a: array<Doc>) returns (r: ResetReply)
    modifies a
    ensures a[..] == ResetWhere(old(a[..]), None)
    ensures r.status == 200
  {
    var _ := ResetMatching(a, None);
    r := ResetReply(200, "Đã reset trạng thái tất cả người nhận về \"pending\" thành công.", 0);
  }

  /** `resetSentStatus`: the `sent` documents become `pending`, and the reply
      counts them. */
  method ResetSentStatus(a: array<Doc>) returns (r: ResetReply)
    modifies a
    ensures a[..] == ResetWhere(old(a[..]), Some(Sent))
    ensures r.status == 200 && r.modifiedCount == StatusCount(old(a[..]), Sent)
    ensures r.message == "Đã đặt lại " + NatToString(r.modifiedCount) + " email đã gửi về trạng thái pending."
  {
    ResetWhereCounts(a[..], Sent);
    var n := ResetMatching(a, Some(Sent));
    r := ResetReply(200, "Đã đặt lại " + NatToString(n) + " email đã gửi về trạng thái pending.", n);
  }

  /** `resetFailedStatus`: the `failed` documents become `pending`, and the
      reply counts them. */
  method ResetFailedStatus(a: array<Doc>) returns (r: ResetReply)
    modifies a
    ensures a[..] == ResetWhere(old(a[..]), Some(Failed))
    ensures r.status == 200 && r.modifiedCount == StatusCount(old(a[..]), Failed)
    ensures r.message == "Đã đặt lại " + NatToString(r.modifiedCount) + " email lỗi về trạng thái pending."
  {
    ResetWhereCounts(a[..], Failed);
    var n := ResetMatching(a, Some(Failed));
    r := ResetReply(200, "Đã đặt lại " + NatToString(n) + " email lỗi về trạng thái pending.", n);
  }

  /** `findById`: the position of the document with that id. */
  function FindId(docs: seq<Doc>, id: string): (r: Option<nat>)
    ensures r.None? <==> forall i :: 0 <= i < |docs| ==> docs[i].id != id
    ensures r.Some? ==> r.value < |docs| && docs[r.value].id == id
    ensures r.Some? ==> forall j :: 0 <= j < r.value ==> docs[j].id != id
  {
    if docs == [] then None
    else if docs[0].id == id then Some(0)
    else
      match FindId(docs[1..], id)
      case None => None
      case Some(k) => Some(k + 1)
  }

  /** `resetStatus(id)`: 404 for an unknown id; otherwise that one document
      becomes `pending` and is returned. */
  method ResetStatus(a: array<Doc>, id: string) returns (r: Result<Doc, Response>)
    modifies a
    ensures FindId(old(a[..]), id).None? ==> r == Err(Response(404, "Không tìm thấy người nhận.")) && a[..] == old(a[..])
    ensures FindId(old(a[..]), id).Some? ==>
              var k := FindId(old(a[..]), id).value;
              r == Ok(ToPending(old(a[k]))) && a[..] == old(a[..])[k := ToPending(old(a[k]))]
  {
    var i := 0;
    while i < a.Length && a[i].id != id
      invariant 0 <= i <= a.Length
      invariant forall j :: 0 <= j < i ==> a[j].id != id
    {
      i := i + 1;
    }
    if i == a.Length {
      return Err(Response(404, "Không tìm thấy người nhận."));
    }
    FindFirst(a[..], id, i);
    a[i] := ToPending(a[i]);
    r := Ok(a[i]);
  }

  /** The first index holding `id` is what `FindId` finds. */
  lemma FindFirst(docs: seq<Doc>, id: string, i: nat)
    requires i < |docs| && docs[i].id == id
    requires forall j :: 0 <= j < i ==> docs[j].id != id
    ensures FindId(docs, id) == Some(i)
  {
  }

  /** Resetting one recipient touches that document alone. */
  lemma ResetOneOthersUntouched(docs: seq<Doc>, id: string, j: nat)
    requires FindId(docs, id).Some? && j < |docs| && docs[j].id != id
    ensures var k := FindId(docs, id).value;
            docs[k := ToPending(docs[k])][j] == docs[j]
  {
  }

  // ---------------------------------------------------------------------
  // getRecipients
  // ---------------------------------------------------------------------

  /** The query string: every value arrives as text. */
  datatype RecipientQuery = RecipientQuery(status: Option<string>, page: Option<string>, pageSize: Option<string>)

  /** A query value through `parseInt`, or the numeric default when absent;
      `None` is NaN. */
  function NumberOr(v: Option<string>, default: int): Option<int>
  {
    if v.None? then Some(default) else EmailController.ParseInt(v.value)
  }

  datatype PagePlan = PagePlan(status: Option<string>, skip: int, limit: int)

  /** The filter and the paging arithmetic; `None` when a number is NaN. */
  function PlanRecipients(q: RecipientQuery): (r: Option<PagePlan>)
    ensures r.Some? <==> NumberOr(q.page, 1).Some? && NumberOr(q.pageSize, 100).Some?
    ensures r.Some? ==> (r.value.status.Some? <==> q.status.Some? && q.status.value != "")
    ensures r.Some? && r.value.status.Some? ==> r.value.status == q.status
  {
    var status := if q.status.Some? && q.status.value != "" then q.status else None;
    var page := NumberOr(q.page, 1);
    var size := NumberOr(q.pageSize, 100);
    if page.Some? && size.Some? then Some(PagePlan(status, (page.value - 1) * size.value, size.value)) else None
  }

  /** With no paging values the first 100 documents are asked for. */
  lemma PlanDefaults(status: Option<string>)
    ensures PlanRecipients(RecipientQuery(status, None, None)).Some?
    ensures var p := PlanRecipients(RecipientQuery(status, None, None)).value;
            p.skip == 0 && p.limit == 100
  {
  }

  /** Decimal page and page size give `skip = (page - 1) * pageSize`. */
  lemma PlanNumbers(status: Option<string>, page: int, size: int)
    ensures var q := RecipientQuery(status, Some(IntToString(page)), Some(IntToString(size)));
            PlanRecipients(q).Some?
            && PlanRecipients(q).value.skip == (page - 1) * size && PlanRecipients(q).value.limit == size
  {
    EmailController.ParseIntOfText(page);
    EmailController.ParseIntOfText(size);
    PlanOfNumbers(RecipientQuery(status, Some(IntToString(page)), Some(IntToString(size))), page, size);
  }

  lemma PlanOfNumbers(q: RecipientQuery, page: int, size: int)
    requires q.page.Some? && EmailController.ParseInt(q.page.value) == Some(page)
    requires q.pageSize.Some? && EmailController.ParseInt(q.pageSize.value) == Some(size)
    ensures PlanRecipients(q).Some?
    ensures PlanRecipients(q).value.skip == (page - 1) * size && PlanRecipients(q).value.limit == size
  {
    assert NumberOr(q.page, 1) == Some(page);
    assert NumberOr(q.pageSize, 100) == Some(size);
  }

  /** `find(filter)`: the documents with the given status, in order. */
  function Filtered(docs: seq<Doc>, status: Option<string>): (r: seq<Doc>)
    ensures |r| <= |docs|
    ensures forall d :: d in r ==> d in docs && (status.Some? ==> StatusName(d.recipient.status) == status.value)
    ensures forall d :: d in docs && (status.None? || StatusName(d.recipient.status) == status.value) ==> d in r
    decreases |docs|
  {
    if docs == [] then []
    else
      var last := docs[|docs| - 1];
      var keep := status.None? || StatusName(last.recipient.status) == status.value;
      Filtered(docs[..|docs| - 1], status) + (if keep then [last] else [])
  }

  /** With no status every document is listed. */
  lemma {:induction false} FilteredAll(docs: seq<Doc>)
    ensures Filtered(docs, None) == docs
  {
    if docs != [] {
      FilteredAll(docs[..|docs| - 1]);
      assert docs == docs[..|docs| - 1] + [docs[|docs| - 1]];
    }
  }

  /** `.skip(skip).limit(limit)`: a limit of 0 means none, and a negative
      limit counts as its absolute value. */
  function Window<T>(items: seq<T>, skip: nat, limit: int): (r: seq<T>)
    ensures limit != 0 ==> |r| <= (if limit < 0 then -limit else limit)
    ensures skip <= |items| ==> skip + |r| <= |items| && r == items[skip..skip + |r|]
    ensures skip >= |items| ==> r == []
  {
    var start := if skip < |items| then skip else |items|;
    var room := |items| - start;
    var want := if limit < 0 then -limit else limit;
    var n := if limit == 0 || want > room then room else want;
    items[start..start + n]
  }

  /** Consecutive pages of one size tile the list: the page at `skip`
      followed by the page at `skip + size` is the window of twice the size.
      Page `k` starts at `(k - 1) * size`, so page `k + 1` starts at
      `(k - 1) * size + size`. */
  lemma PagesTile<T>(items: seq<T>, skip: nat, size: nat)
    requires size > 0
    ensures Window(items, skip, size) + Window(items, skip + size, size) == Window(items, skip, 2 * size)
  {
    var n := |items|;
    var a := if skip < n then skip else n;
    var b := if skip + size < n then skip + size else n;
    var c := if skip + 2 * size < n then skip + 2 * size else n;
    WindowSlice(items, skip, size);
    WindowSlice(items, skip + size, size);
    WindowSlice(items, skip, 2 * size);
    assert items[a..b] + items[b..c] == items[a..c];
  }

  /** A window of positive size is the slice between its two clamped ends. */
  lemma WindowSlice<T>(items: seq<T>, skip: nat, size: nat)
    requires size > 0
    ensures var n := |items|;
            Window(items, skip, size)
            == items[(if skip < n then skip else n)..(if skip + size < n then skip + size else n)]
  {
  }

  /** A window holds only items of the list. */
  lemma WindowWithin<T>(items: seq<T>, skip: nat, limit: int)
    ensures forall x :: x in Window(items, skip, limit) ==> x in items
  {
    var w := Window(items, skip, limit);
    forall x | x in w
      ensures x in items
    {
      var j :| 0 <= j < |w| && w[j] == x;
      assert items[skip + j] == x;
    }
  }

  datatype RecipientPage = RecipientPage(recipients: seq<Doc>, total: nat)

  /** `getRecipients`: a NaN number or a negative skip is refused by the
      database (500); otherwise the matching count and the requested window. */
  function GetRecipients(docs: seq<Doc>, q: RecipientQuery): (r: Result<RecipientPage, Response>)
    ensures r.Ok? <==> PlanRecipients(q).Some? && PlanRecipients(q).value.skip >= 0
    ensures r.Err? ==> r.error.status == 500
    ensures r.Ok? ==>
              var p := PlanRecipients(q).value;
              r.value.total == |Filtered(docs, p.status)|
              && r.value.recipients == Window(Filtered(docs, p.status), p.skip, p.limit)
  {
    match PlanRecipients(q)
    case None => Err(Response(500, "Lỗi khi lấy danh sách người nhận"))
    case Some(p) =>
      if p.skip < 0 then Err(Response(500, "Lỗi khi lấy danh sách người nhận"))
      else
        var matching := Filtered(docs, p.status);
        Ok(RecipientPage(Window(matching, p.skip, p.limit), |matching|))
  }

  /** A listed page holds only documents of the asked status, never more than
      the page size, and with no status the total is the collection size. */
  lemma GetRecipientsPage(docs: seq<Doc>, q: RecipientQuery)
    requires GetRecipients(docs, q).Ok?
    ensures var p := PlanRecipients(q).value;
            var page := GetRecipients(docs, q).value;
            (forall d :: d in page.recipients ==> d in docs && (p.status.Some? ==> StatusName(d.recipient.status) == p.status.value))
            && (p.limit > 0 ==> |page.recipients| <= p.limit)
            && (p.status.None? ==> page.total == |docs|)
  {
    var p := PlanRecipients(q).value;
    WindowWithin(Filtered(docs, p.status), p.skip, p.limit);
    if p.status.None? {
      FilteredAll(docs);
    }
  }
}
