// The sending-account handlers (Backend/controllers/senderController.js):
// defaults when adding accounts, the fields an update passes on, the reset of
// the sent counters and the classification of spreadsheet rows.

module SenderController {
  import opened Common

  /** A JSON or spreadsheet value as the handlers see it. */
  datatype Json = Undefined | Null | Str(s: string) | Num(n: int) | Bool(b: bool)

  /** JavaScript truthiness. */
  predicate Truthy(v: Json)
  {
    match v
    case Undefined => false
    case Null => false
    case Str(s) => s != ""
    case Num(n) => n != 0
    case Bool(b) => b
  }

  /** The keys of a sender object: the schema's paths, and any other key. */
  datatype Key =
    | Email | AppPassword | Host | Port | Secure | SentCount | DailyLimit | BatchSize | IsActive
    | Other(name: string)

  type Fields = map<Key, Json>

  function Get(f: Fields, k: Key): Json
  {
    if k in f then f[k] else Undefined
  }

  /** An HTTP status with the `message` of the JSON body. */
  datatype Response = Response(status: nat, message: string)

  // ---------------------------------------------------------------------
  // addSenders
  // ---------------------------------------------------------------------

  const DefaultHost := "smtp.yandex.com"
  const DefaultPort := 465

  /** `{ ...s, host: s.host || 'smtp.yandex.com', port: s.port || 465,
      secure: typeof s.secure === 'boolean' ? s.secure : true }` */
  function WithDefaults(s: Fields): (r: Fields)
    ensures r.Keys == s.Keys + {Host, Port, Secure}
    ensures forall k :: k in s && k !in {Host, Port, Secure} ==> r[k] == s[k]
    ensures Truthy(r[Host]) && Truthy(r[Port]) && r[Secure].Bool?
    ensures Truthy(Get(s, Host)) ==> r[Host] == s[Host]
    ensures !Truthy(Get(s, Host)) ==> r[Host] == Str(DefaultHost)
    ensures Truthy(Get(s, Port)) ==> r[Port] == s[Port]
    ensures !Truthy(Get(s, Port)) ==> r[Port] == Num(DefaultPort)
    ensures Get(s, Secure).Bool? ==> r[Secure] == s[Secure]
    ensures !Get(s, Secure).Bool? ==> r[Secure] == Bool(true)
  {
    s[Host := if Truthy(Get(s, Host)) then s[Host] else Str(DefaultHost)]
     [Port := if Truthy(Get(s, Port)) then s[Port] else Num(DefaultPort)]
     [Secure := if Get(s, Secure).Bool? then s[Secure] else Bool(true)]
  }

  /** Filling the defaults a second time changes nothing. */
  lemma WithDefaultsIdempotent(s: Fields)
    ensures WithDefaults(WithDefaults(s)) == WithDefaults(s)
  {
    var r := WithDefaults(s);
    var rr := WithDefaults(r);
    assert rr.Keys == r.Keys;
    forall k | k in r
      ensures rr[k] == r[k]
    {
    }
  }

  /** `addSenders` as written: the body is mapped before it is checked, so a
      body that is not an array throws and is answered 409; an empty array is
      400; otherwise the insert decides between 201 and 409. */
  function AddSenders(body: Option<seq<Fields>>, insertFails: bool): (r: (Response, seq<Fields>))
    ensures body.None? ==> r.0.status == 409 && r.1 == []
    ensures body == Some([]) ==> r.0.status == 400 && r.1 == []
    ensures body.Some? && body.value != [] ==>
              && r.0.status == (if insertFails then 409 else 201)
              && |r.1| == |body.value|
              && forall i :: 0 <= i < |body.value| ==> r.1[i] == WithDefaults(body.value[i])
  {
    if body.None? then (Response(409, "Lỗi khi thêm tài khoản, có thể email đã tồn tại."), [])
    else
      var senders := seq(|body.value|, i requires 0 <= i < |body.value| => WithDefaults(body.value[i]));
      if |senders| == 0 then (Response(400, "Dữ liệu đầu vào phải là một mảng các tài khoản gửi."), [])
      else if insertFails then (Response(409, "Lỗi khi thêm tài khoản, có thể email đã tồn tại."), senders)
      else (Response(201, "Đã thêm thành công các tài khoản gửi."), senders)
  }

  /** The array check can never reject a non-array body. */
  lemma AddSendersNonArray(insertFails: bool)
    ensures AddSenders(None, insertFails).0.status != 400
  {
  }

  /** `addSenders` with the array check made before the mapping: anything but
      a non-empty array is 400. */
  function AddSendersChecked(body: Option<seq<Fields>>, insertFails: bool): (r: (Response, seq<Fields>))
    ensures r.0.status == 400 <==> body.None? || body.value == []
    ensures body.Some? && body.value != [] ==> r == AddSenders(body, insertFails)
  {
    if body.None? then (Response(400, "Dữ liệu đầu vào phải là một mảng các tài khoản gửi."), [])
    else AddSenders(body, insertFails)
  }

  // ---------------------------------------------------------------------
  // updateSender, deleteSender, resetSentCounts
  // ---------------------------------------------------------------------

  /** `updateFields` after `host`, `port` and `secure` are deleted when
      undefined. */
  function StripUndefined(f: Fields): (r: Fields)
    ensures forall k :: k in {Host, Port, Secure} ==> (k in r <==> k in f && f[k] != Undefined)
    ensures forall k :: k !in {Host, Port, Secure} ==> (k in r <==> k in f)
    ensures forall k :: k in r ==> r[k] == f[k]
  {
    var a := if Get(f, Host) == Undefined then f - {Host} else f;
    var b := if Get(a, Port) == Undefined then a - {Port} else a;
    if Get(b, Secure) == Undefined then b - {Secure} else b
  }

  /** A body parsed from JSON holds no undefined value, so nothing is
      stripped from it. */
  lemma StripParsedJson(f: Fields)
    requires forall k :: k in f ==> f[k] != Undefined
    ensures StripUndefined(f) == f
  {
    var r := StripUndefined(f);
    assert r.Keys == f.Keys;
  }

  /** The paths the sender schema knows; an update's other keys are dropped. */
  predicate InSchema(k: Key)
  {
    !k.Other?
  }

  /** `$set` of the update's schema paths onto a stored document. */
  function ApplyUpdate(doc: Fields, update: Fields): (r: Fields)
    ensures forall k :: k in r <==> k in doc || (k in update && InSchema(k))
    ensures forall k :: k in update && InSchema(k) ==> r[k] == update[k]
    ensures forall k :: k in doc && !(k in update && InSchema(k)) ==> r[k] == doc[k]
  {
    map k | k in doc.Keys + update.Keys && (k in doc || InSchema(k)) ::
      if k in update && InSchema(k) then update[k] else doc[k]
  }

  /** Zeroes every sender's `sentCount` and leaves the rest. */
  function ZeroSentCounts(docs: map<string, Fields>): (r: map<string, Fields>)
    ensures r.Keys == docs.Keys
    ensures forall id :: id in r ==> r[id] == docs[id][SentCount := Num(0)]
  {
    map id | id in docs :: docs[id][SentCount := Num(0)]
  }

  /** Resetting twice is resetting once; afterwards every count is zero. */
  lemma ZeroSentCountsIdempotent(docs: map<string, Fields>)
    ensures ZeroSentCounts(ZeroSentCounts(docs)) == ZeroSentCounts(docs)
    ensures forall id :: id in ZeroSentCounts(docs) ==> Get(ZeroSentCounts(docs)[id], SentCount) == Num(0)
  {
    var once := ZeroSentCounts(docs);
    var twice := ZeroSentCounts(once);
    forall id | id in twice
      ensures twice[id] == once[id]
    {
      assert twice[id] == once[id][SentCount := Num(0)];
    }
  }

  /** The stored sending accounts, keyed by id. */
  class SenderStore {
    var docs: map<string, Fields>

    constructor (docs0: map<string, Fields>)
      ensures docs == docs0
    {
      docs := docs0;
    }

    /** `updateSender`: an unknown id is 404; otherwise the stripped body is
        set on the document. */
    method UpdateSender(id: string, body: Fields) returns (resp: Response)
      modifies this
      ensures id !in old(docs) ==> resp.status == 404 && docs == old(docs)
      ensures id in old(docs) ==>
                resp.status == 200 && docs == old(docs)[id := ApplyUpdate(old(docs)[id], StripUndefined(body))]
    {
      var fields := StripUndefined(body);
      if id !in docs {
        return Response(404, "Không tìm thấy tài khoản gửi");
      }
      docs := docs[id := ApplyUpdate(docs[id], fields)];
      resp := Response(200, "");
    }

    /** `deleteSender`: answered 200 whether or not the id existed. */
    method DeleteSender(id: string) returns (resp: Response)
      modifies this
      ensures resp.status == 200 && docs == old(docs) - {id}
    {
      docs := docs - {id};
      resp := Response(200, "Đã xóa tài khoản gửi thành công");
    }

    /** `resetSentCounts`: one update over every sender. */
    method ResetSentCounts() returns (resp: Response)
      modifies this
      ensures resp.status == 200 && docs == ZeroSentCounts(old(docs))
    {
      docs := ZeroSentCounts(docs);
      resp := Response(200, "Đã đặt lại số lượng gửi của tất cả tài khoản thành công.");
    }
  }

  // ---------------------------------------------------------------------
  // addSendersFromExcel
  // ---------------------------------------------------------------------

  /** One spreadsheet row: the `Email`, `AppPassword` and `DailyLimit` cells. */
  datatype Row = Row(email: Json, appPassword: Json, dailyLimit: Json)

  /** An account queued for insertion. `None` as the limit is NaN. */
  datatype NewSender = NewSender(email: string, appPassword: string, dailyLimit: Option<int>)

  /** The three lists the loop fills. */
  datatype Sorted = Sorted(newSenders: seq<NewSender>, existingEmails: seq<Json>, errors: seq<Row>)

  function Concat(a: Sorted, b: Sorted): (r: Sorted)
    ensures Total(r) == Total(a) + Total(b)
  {
    Sorted(a.newSenders + b.newSenders, a.existingEmails + b.existingEmails, a.errors + b.errors)
  }

  function Total(s: Sorted): nat
  {
    |s.newSenders| + |s.existingEmails| + |s.errors|
  }

  /** `String(v)` */
  function JsString(v: Json): string
  {
    match v
    case Undefined => "undefined"
    case Null => "null"
    case Str(s) => s
    case Num(n) => IntToString(n)
    case Bool(b) => if b then "true" else "false"
  }

  /** `Number(v)` for integers and decimal text with an optional sign;
      `None` is NaN. */
  function ToNumber(v: Json): Option<int>
  {
    match v
    case Undefined => None
    case Null => Some(0)
    case Num(n) => Some(n)
    case Bool(b) => Some(if b then 1 else 0)
    case Str(s) => SignedDecimal(Trim(s))
  }

  /** `Number` on text already trimmed: empty text is 0, otherwise an
      optional `+` or `-` followed by at least one decimal digit. */
  function SignedDecimal(t: string): (r: Option<int>)
    ensures t == [] ==> r == Some(0)
    ensures t != [] && AllDigits(t) ==> r == Some(DigitsValue(t))
    ensures |t| >= 2 && t[0] == '-' && AllDigits(t[1..]) ==> r == Some(-(DigitsValue(t[1..]) as int))
    ensures |t| >= 2 && t[0] == '+' && AllDigits(t[1..]) ==> r == Some(DigitsValue(t[1..]))
    ensures t == "-" || t == "+" ==> r.None?
  {
    if t == [] then Some(0)
    else if AllDigits(t) then Some(DigitsValue(t))
    else if |t| >= 2 && t[0] == '-' && AllDigits(t[1..]) then Some(-(DigitsValue(t[1..]) as int))
    else if |t| >= 2 && t[0] == '+' && AllDigits(t[1..]) then Some(DigitsValue(t[1..]))
    else None
  }

  /** `Number(String(n))` gives back every integer, negative ones included. */
  lemma {:induction false} ToNumberOfText(n: int)
    ensures ToNumber(Str(IntToString(n))) == Some(n)
  {
    var t := IntToString(n);
    TrimKeepsDecimal(t);
    if n >= 0 {
      NatToStringRoundTrip(n);
    } else {
      NatToStringRoundTrip(-n);
      assert t[1..] == NatToString(-n);
      assert !AllDigits(t) by { assert t[0] == '-'; }
    }
  }

  /** Decimal text has no white space at either end, so trimming keeps it. */
  lemma TrimKeepsDecimal(t: string)
    requires t != [] && (t[0] == '-' || '0' <= t[0] <= '9') && '0' <= t[|t| - 1] <= '9'
    ensures Trim(t) == t
  {
  }

  /** `Number(row['DailyLimit'] || 100)` */
  function RowDailyLimit(row: Row): (r: Option<int>)
    ensures !Truthy(row.dailyLimit) ==> r == Some(100)
  {
    if Truthy(row.dailyLimit) then ToNumber(row.dailyLimit) else Some(100)
  }

  /** The entry a complete row adds: email and password trimmed. */
  function Entry(row: Row): (s: NewSender)
    ensures s.email == Trim(JsString(row.email)) && s.appPassword == Trim(JsString(row.appPassword))
    ensures s.dailyLimit == RowDailyLimit(row)
  {
    NewSender(Trim(JsString(row.email)), Trim(JsString(row.appPassword)), RowDailyLimit(row))
  }

  predicate Complete(row: Row)
  {
    Truthy(row.email) && Truthy(row.appPassword)
  }

  /** The loop as written: a row is skipped as existing when its raw `Email`
      cell is in `seen`, and the raw cell is what is added to `seen`, although
      the entry carries the trimmed text. */
  function ClassifyAsWritten(rows: seq<Row>, seen: set<Json>): (r: Sorted)
    ensures Total(r) == |rows|
    decreases |rows|
  {
    if rows == [] then Sorted([], [], [])
    else
      var row := rows[0];
      if !Complete(row) then Concat(Sorted([], [], [row]), ClassifyAsWritten(rows[1..], seen))
      else if row.email in seen then Concat(Sorted([], [row.email], []), ClassifyAsWritten(rows[1..], seen))
      else Concat(Sorted([Entry(row)], [], []), ClassifyAsWritten(rows[1..], seen + {row.email}))
  }

  /** The emails already in the database, as the set the loop starts from. */
  function StoredCells(dbEmails: set<string>): set<Json>
  {
    set e | e in dbEmails :: Str(e)
  }

  /** The lists after one more row is pushed. */
  function PushRow(acc: Sorted, row: Row, seen: set<Json>): Sorted
  {
    if !Complete(row) then acc.(errors := acc.errors + [row])
    else if row.email in seen then acc.(existingEmails := acc.existingEmails + [row.email])
    else acc.(newSenders := acc.newSenders + [Entry(row)])
  }

  /** `seen` after one more row. */
  function SeenAfter(seen: set<Json>, row: Row): set<Json>
  {
    if Complete(row) && row.email !in seen then seen + {row.email} else seen
  }

  /** What is pushed so far, followed by what the remaining rows push, is the
      classification of the whole sheet. */
  ghost predicate ClassifyProgress(acc: Sorted, rows: seq<Row>, i: nat, seen: set<Json>, whole: Sorted)
    requires i <= |rows|
  {
    Concat(acc, ClassifyAsWritten(rows[i..], seen)) == whole
  }

  lemma ClassifyAsWrittenStep(acc: Sorted, rows: seq<Row>, i: nat, seen: set<Json>, whole: Sorted)
    requires i < |rows| && ClassifyProgress(acc, rows, i, seen, whole)
    ensures ClassifyProgress(PushRow(acc, rows[i], seen), rows, i + 1, SeenAfter(seen, rows[i]), whole)
  {
    var row := rows[i];
    assert rows[i..][1..] == rows[i + 1..];
    var rest := ClassifyAsWritten(rows[i + 1..], SeenAfter(seen, row));
    var one := if !Complete(row) then Sorted([], [], [row])
               else if row.email in seen then Sorted([], [row.email], [])
               else Sorted([Entry(row)], [], []);
    assert ClassifyAsWritten(rows[i..], seen) == Concat(one, rest);
    ConcatAssoc(acc, one, rest);
    assert PushRow(acc, row, seen) == Concat(acc, one) by {
      assert acc.newSenders + [] == acc.newSenders;
      assert acc.existingEmails + [] == acc.existingEmails;
      assert acc.errors + [] == acc.errors;
    }
  }

  lemma ConcatAssoc(a: Sorted, b: Sorted, c: Sorted)
    ensures Concat(Concat(a, b), c) == Concat(a, Concat(b, c))
  {
    assert (a.newSenders + b.newSenders) + c.newSenders == a.newSenders + (b.newSenders + c.newSenders);
    assert (a.existingEmails + b.existingEmails) + c.existingEmails == a.existingEmails + (b.existingEmails + c.existingEmails);
    assert (a.errors + b.errors) + c.errors == a.errors + (b.errors + c.errors);
  }

  /** The loop of `addSendersFromExcel`, pushing to three lists. */
  method ClassifyRowsAsWritten(rows: seq<Row>, dbEmails: set<string>) returns (r: Sorted)
    ensures r == ClassifyAsWritten(rows, StoredCells(dbEmails))
  {
    var newSenders: seq<NewSender> := [];
    var errors: seq<Row> := [];
    var existingEmails: seq<Json> := [];
    var seen := StoredCells(dbEmails);
    ghost var whole := ClassifyAsWritten(rows, seen);
    assert Concat(Sorted([], [], []), whole) == whole;
    var i := 0;
    while i < |rows|
      invariant 0 <= i <= |rows|
      invariant ClassifyProgress(Sorted(newSenders, existingEmails, errors), rows, i, seen, whole)
    {
      var row := rows[i];
      ClassifyAsWrittenStep(Sorted(newSenders, existingEmails, errors), rows, i, seen, whole);
      if !Complete(row) {
        errors := errors + [row];
      } else if row.email in seen {
        existingEmails := existingEmails + [row.email];
      } else {
        newSenders := newSenders + [Entry(row)];
        seen := seen + {row.email};
      }
      i := i + 1;
    }
    assert rows[i..] == [];
    r := Sorted(newSenders, existingEmails, errors);
  }

  function EmailsOf(ns: seq<NewSender>): (r: seq<string>)
    ensures |r| == |ns| && forall i :: 0 <= i < |ns| ==> r[i] == ns[i].email
  {
    seq(|ns|, i requires 0 <= i < |ns| => ns[i].email)
  }

  /** A complete row with an unseen email is queued, and its email is seen
      from then on. */
  lemma ClassifyAsWrittenNew(rows: seq<Row>, seen: set<Json>)
    requires rows != [] && Complete(rows[0]) && rows[0].email !in seen
    ensures ClassifyAsWritten(rows, seen).newSenders
            == [Entry(rows[0])] + ClassifyAsWritten(rows[1..], seen + {rows[0].email}).newSenders
  {
  }

  lemma EmailsPair(x: NewSender, y: NewSender, ns: seq<NewSender>)
    requires ns == [x] + [y]
    ensures EmailsOf(ns) == [x.email, y.email]
  {
    var emails := EmailsOf(ns);
    assert emails[0] == x.email && emails[1] == y.email;
  }

  /** Two rows whose emails differ only by a leading space (`"a@b.c"` and
      `" a@b.c"`, say) both become new accounts with the same email. */
  lemma ClassifyAsWrittenDuplicates(e: string, pw: string)
    requires e != "" && pw != ""
    ensures var rows := [Row(Str(e), Str(pw), Undefined), Row(Str(" " + e), Str(pw), Undefined)];
            EmailsOf(ClassifyAsWritten(rows, {}).newSenders) == [Trim(e), Trim(e)]
  {
    var r0 := Row(Str(e), Str(pw), Undefined);
    var r1 := Row(Str(" " + e), Str(pw), Undefined);
    TrimLeadingSpace(e);
    assert Str(e) != Str(" " + e) by {
      assert |e| != |" " + e|;
    }
    ClassifyAsWrittenTwo(r0, r1);
    EmailsPair(Entry(r0), Entry(r1), ClassifyAsWritten([r0, r1], {}).newSenders);
    assert Entry(r0).email == Trim(e) && Entry(r1).email == Trim(e);
  }

  /** Two complete rows with different cells both become new accounts. */
  lemma ClassifyAsWrittenTwo(r0: Row, r1: Row)
    requires Complete(r0) && Complete(r1) && r0.email != r1.email
    ensures ClassifyAsWritten([r0, r1], {}).newSenders == [Entry(r0)] + [Entry(r1)]
  {
    var rows := [r0, r1];
    var seen: set<Json> := {};
    ClassifyAsWrittenNew(rows, seen);
    assert rows[1..] == [r1];
    var seen1 := seen + {r0.email};
    ClassifyAsWrittenNew([r1], seen1);
    assert [r1][1..] == [];
    assert ClassifyAsWritten([r1], seen1).newSenders == [Entry(r1)];
  }

  /** The email a row is stored under. */
  function EmailKey(row: Row): string
  {
    Trim(JsString(row.email))
  }

  /** The list entry one row adds when keyed on its trimmed email. */
  function ClassifyHead(row: Row, seen: set<string>): (r: Sorted)
    ensures Total(r) == 1
  {
    if !Complete(row) then Sorted([], [], [row])
    else if EmailKey(row) in seen then Sorted([], [row.email], [])
    else Sorted([Entry(row)], [], [])
  }

  /** The emails seen after one more row. */
  function NextSeen(row: Row, seen: set<string>): set<string>
  {
    if Complete(row) && EmailKey(row) !in seen then seen + {EmailKey(row)} else seen
  }

  /** The loop keyed on the trimmed email, which is what is stored. */
  function Classify(rows: seq<Row>, seen: set<string>): Sorted
    decreases |rows|
  {
    if rows == [] then Sorted([], [], [])
    else Concat(ClassifyHead(rows[0], seen), Classify(rows[1..], NextSeen(rows[0], seen)))
  }

  /** Keyed on the trimmed email, every row lands in exactly one list. */
  lemma {:induction false} ClassifyTotal(rows: seq<Row>, seen: set<string>)
    ensures Total(Classify(rows, seen)) == |rows|
    decreases |rows|
  {
    if rows != [] {
      ClassifyTotal(rows[1..], NextSeen(rows[0], seen));
    }
  }

  /** Keyed on the trimmed email, no account is queued twice and none that
      the database already has. */
  lemma {:induction false} ClassifyDistinct(rows: seq<Row>, seen: set<string>)
    ensures NoDuplicates(EmailsOf(Classify(rows, seen).newSenders))
    ensures forall e :: e in EmailsOf(Classify(rows, seen).newSenders) ==> e !in seen
    decreases |rows|
  {
    if rows != [] {
      var row := rows[0];
      var email := EmailKey(row);
      if !Complete(row) || email in seen {
        ClassifyDistinct(rows[1..], seen);
        assert Classify(rows, seen).newSenders == Classify(rows[1..], seen).newSenders;
      } else {
        ClassifyDistinct(rows[1..], seen + {email});
        var rest := Classify(rows[1..], seen + {email}).newSenders;
        assert Classify(rows, seen).newSenders == [Entry(row)] + rest;
        EmailsCons(email, Entry(row), rest, seen);
      }
    }
  }

  lemma EmailsCons(email: string, first: NewSender, rest: seq<NewSender>, seen: set<string>)
    requires first.email == email && email !in seen
    requires NoDuplicates(EmailsOf(rest))
    requires forall e :: e in EmailsOf(rest) ==> e !in seen + {email}
    ensures NoDuplicates(EmailsOf([first] + rest))
    ensures forall e :: e in EmailsOf([first] + rest) ==> e !in seen
  {
    var all := EmailsOf([first] + rest);
    var tail := EmailsOf(rest);
    assert all == [email] + tail;
    forall i, j | 0 <= i < j < |all|
      ensures all[i] != all[j]
    {
      assert all[j] == tail[j - 1];
      if i > 0 {
        assert all[i] == tail[i - 1];
      } else {
        assert tail[j - 1] in tail;
      }
    }
    forall e | e in all
      ensures e !in seen
    {
      if e != email {
        assert e in tail;
      }
    }
  }

  /** What the import reports. */
  datatype ExcelReport = ExcelReport(insertedCount: nat, existingEmails: seq<Json>, errors: seq<Row>)

  /** `addSendersFromExcel` as written: `xlsx` is never imported, so every
      upload fails with 500 once the file check passes. */
  function AddSendersFromExcel(hasFile: bool): (r: Response)
    ensures r.status == (if hasFile then 500 else 400)
  {
    if !hasFile then Response(400, "Vui lòng tải lên một file Excel.")
    else Response(500, "Lỗi khi xử lý file Excel.")
  }

  /** No upload is ever imported. */
  lemma ExcelUploadAlwaysFails(hasFile: bool)
    ensures AddSendersFromExcel(hasFile).status != 200
  {
  }

  /** The sender schema's validation of a queued account: `email` and
      `appPassword` are required, so an empty text fails, and `dailyLimit`
      must cast to a number, so NaN fails. An unordered `insertMany` skips a
      document that fails it without raising an error, and leaves it out of
      the array it returns. */
  predicate SenderValid(s: NewSender)
  {
    s.email != "" && s.appPassword != "" && s.dailyLimit.Some?
  }

  /** A complete, new row whose limit cell is NaN is queued, but the schema
      skips it: the import reports nothing inserted. */
  lemma NaNLimitNotInserted(row: Row, dbEmails: set<string>)
    requires Complete(row) && EmailKey(row) !in dbEmails && RowDailyLimit(row).None?
    ensures Classify([row], dbEmails).newSenders == [Entry(row)]
    ensures ImportSenders(true, [row], dbEmails, false).value.insertedCount == 0
  {
    ClassifyOne(row, dbEmails);
    assert !SenderValid(Entry(row));
    assert Filter([Entry(row)], SenderValid) == [];
  }

  /** A sheet of one row is classified by that row alone. */
  lemma ClassifyOne(row: Row, seen: set<string>)
    ensures Classify([row], seen) == ClassifyHead(row, seen)
  {
    var rows := [row];
    assert rows[1..] == [];
    var h := ClassifyHead(row, seen);
    assert Classify(rows, seen) == Concat(h, Sorted([], [], []));
    assert h.newSenders + [] == h.newSenders && h.existingEmails + [] == h.existingEmails && h.errors + [] == h.errors;
  }

  /** `Number` of a text that starts and ends with a letter is NaN. */
  lemma LetterTextIsNaN(t: string)
    requires t != [] && 'a' <= t[0] <= 'z' && 'a' <= t[|t| - 1] <= 'z'
    ensures ToNumber(Str(t)).None?
  {
    TrimNoSpaceEnds(t);
    assert !AllDigits(t) by { assert !('0' <= t[0] <= '9'); }
  }

  /** Such a row exists: the limit cell `abc` is NaN. */
  lemma NaNLimitCell()
    ensures var row := Row(Str("a@b.c"), Str("pw"), Str("abc"));
            Complete(row) && RowDailyLimit(row).None?
  {
    var t := "abc";
    assert t[0] == 'a' && t[|t| - 1] == 'c';
    LetterTextIsNaN(t);
  }

  /** The import once the sheet is read: no file or no rows is 400; otherwise
      every row is classified on its trimmed email and the new accounts are
      inserted (`insertFails` is the database's verdict); the count reported
      is that of the accounts that pass the schema. */
  function ImportSenders(hasFile: bool, rows: seq<Row>, dbEmails: set<string>, insertFails: bool): (r: Result<ExcelReport, Response>)
    ensures r.Err? <==> !hasFile || rows == []
    ensures r.Err? ==> r.error.status == 400
    ensures r.Ok? ==>
              var c := Classify(rows, dbEmails);
              && r.value.existingEmails == c.existingEmails && r.value.errors == c.errors
              && r.value.insertedCount == (if insertFails then 0 else |Filter(c.newSenders, SenderValid)|)
              && r.value.insertedCount + |r.value.existingEmails| + |r.value.errors| <= |rows|
  {
    if !hasFile then Err(Response(400, "Vui lòng tải lên một file Excel."))
    else if rows == [] then Err(Response(400, "File Excel không chứa dữ liệu hoặc định dạng không đúng."))
    else
      var c := Classify(rows, dbEmails);
      ClassifyTotal(rows, dbEmails);
      // The test for three empty lists never fires: every row lands in one.
      var inserted := if |c.newSenders| > 0 && !insertFails then |Filter(c.newSenders, SenderValid)| else 0;
      Ok(ExcelReport(inserted, c.existingEmails, c.errors))
  }

  /** Every row of a non-empty sheet lands in one list, so the "nothing found"
      answer is unreachable. */
  lemma ImportNeverEmpty(rows: seq<Row>, dbEmails: set<string>)
    requires rows != []
    ensures var c := Classify(rows, dbEmails);
            c.newSenders != [] || c.existingEmails != [] || c.errors != []
  {
    ClassifyTotal(rows, dbEmails);
  }
}
