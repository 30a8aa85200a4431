/** The values the campaign dispatcher works with: the persisted records it
    reads and writes, the exact progress lines it emits, and the small pure
    rules it applies at every attempt (random delay, random pick, the
    port/TLS rule, `{{Ten}}` substitution, the error text and the
    Server-Sent Events frame). */
module CampaignModel {
  import opened Common

  // ---------------------------------------------------------------------
  // Records
  // ---------------------------------------------------------------------

  /** A sending account as stored in the `senders` collection. */
  datatype Sender = Sender(
    email: string,
    appPassword: string,
    host: string,
    port: int,
    secure: bool,
    sentCount: int,
    dailyLimit: int,
    isActive: bool)

  datatype RecipientStatus = Pending | Sent | Failed

  /** A recipient; `name` is optional in the schema. */
  datatype Recipient = Recipient(email: string, name: Option<string>, status: RecipientStatus)

  /** A content template; `subject` and `htmlBody` may hold the `{{Ten}}` placeholder. */
  datatype Template = Template(name: string, subject: string, htmlBody: string, sentCount: int)

  /** A persisted history entry. The log schema has no `status` path, so the
      status the dispatcher passes is dropped by the schema; only the two
      addresses and, on failure, the error text are kept. */
  datatype LogEntry = LogEntry(senderEmail: string, recipientEmail: string, errorMessage: Option<string>)

  /** What the mail transport reports for one `sendMail` call. A rejection
      carries the optional `error.response.data` and `error.message`. */
  datatype Outcome = Delivered | Rejected(responseData: Option<string>, message: string)

  /** The transport settings built for one attempt. */
  datatype Transport = Transport(host: string, port: int, secure: bool, user: string, pass: string)

  /** One message handed to the transport. */
  datatype Mail = Mail(transport: Transport, from: string, to: string, subject: string, html: string)

  // ---------------------------------------------------------------------
  // Randomness: `Math.random()` is passed in as a real `u` in [0, 1).
  // ---------------------------------------------------------------------

  predicate IsUnit(u: real)
  {
    0.0 <= u < 1.0
  }

  /** `Math.floor(Math.random() * n)`: the index `getRandomWithoutReplacement` picks. */
  function PickIndex(u: real, n: nat): (i: nat)
    requires IsUnit(u) && n > 0
    ensures i < n
  {
    var x := u * (n as real);
    assert 0.0 <= x < n as real;
    x.Floor
  }

  /** `getRandomDelay(min, max)`: `Math.floor(Math.random() * (max - min + 1) + min)`. */
  function RandomDelay(min: int, max: int, u: real): (d: int)
    requires IsUnit(u)
  {
    (u * ((max - min + 1) as real) + min as real).Floor
  }

  /** For integer bounds with `min <= max` the delay lies in `[min, max]`. */
  lemma RandomDelayInRange(min: int, max: int, u: real)
    requires IsUnit(u) && min <= max
    ensures min <= RandomDelay(min, max, u) <= max
  {
    var w := (max - min + 1) as real;
    var y := u * w;
    assert 0.0 <= y < w by {
      assert w >= 1.0 && 1.0 - u > 0.0;
      assert (1.0 - u) * w > 0.0;
    }
    var x := y + min as real;
    assert x == u * w + min as real;
    assert w + min as real == (max + 1) as real;
    assert min as real <= x < (max + 1) as real;
  }

  /** Every value in `[min, max]` is produced by some draw, so the range is exact. */
  lemma RandomDelayCovers(min: int, max: int, d: int)
    requires min <= d <= max
    ensures exists u :: IsUnit(u) && RandomDelay(min, max, u) == d
  {
    var w := (max - min + 1) as real;
    var u := ((d - min) as real) / w;
    assert IsUnit(u);
    assert u * w == (d - min) as real;
    assert RandomDelay(min, max, u) == d;
  }

  // ---------------------------------------------------------------------
  // Pools: draw without replacement
  // ---------------------------------------------------------------------

  /** The pool with position `i` spliced out (`array.splice(i, 1)`). */
  function Without<T>(pool: seq<T>, i: nat): (r: seq<T>)
    requires i < |pool|
    ensures |r| == |pool| - 1
    ensures multiset(r) + multiset{pool[i]} == multiset(pool)
  {
    assert pool == pool[..i] + [pool[i]] + pool[i + 1..];
    pool[..i] + pool[i + 1..]
  }

  /** `getRandomWithoutReplacement(pool)`: `None` on an empty pool, otherwise the
      element at the random index together with the pool that no longer holds it. */
  function Draw<T>(pool: seq<T>, u: real): (r: Option<(T, seq<T>)>)
    requires IsUnit(u)
    ensures r.None? <==> pool == []
    ensures r.Some? ==> (r.value.0 in pool
      && |r.value.1| == |pool| - 1
      && multiset(r.value.1) + multiset{r.value.0} == multiset(pool))
  {
    if pool == [] then None
    else
      var i := PickIndex(u, |pool|);
      Some((pool[i], Without(pool, i)))
  }

  /** Every element of the pool can be drawn, so the draw is not biased away
      from any account or template. */
  lemma DrawReachesEvery<T>(pool: seq<T>, i: nat)
    requires i < |pool|
    ensures exists u :: IsUnit(u) && Draw(pool, u).Some? && Draw(pool, u).value.0 == pool[i]
  {
    var n := |pool| as real;
    var u := (i as real) / n;
    assert IsUnit(u);
    assert u * n == i as real;
    assert PickIndex(u, |pool|) == i;
  }

  /** A drawn pool of distinct entries stays distinct and loses exactly the drawn entry. */
  lemma DrawDistinct<T>(pool: seq<T>, u: real)
    requires IsUnit(u) && pool != [] && NoDuplicates(pool)
    ensures NoDuplicates(Draw(pool, u).value.1)
    ensures Draw(pool, u).value.0 !in Draw(pool, u).value.1
  {
    var i := PickIndex(u, |pool|);
    var r := Without(pool, i);
    forall a, b | 0 <= a < b < |r| ensures r[a] != r[b] {
      var a' := if a < i then a else a + 1;
      var b' := if b < i then b else b + 1;
      assert r[a] == pool[a'] && r[b] == pool[b'];
    }
    forall a | 0 <= a < |r| ensures r[a] != pool[i] {
      var a' := if a < i then a else a + 1;
      assert r[a] == pool[a'];
    }
  }

  /** `[...list]`: the full pool of positions `0 .. n-1`. */
  function Positions(n: nat): (r: seq<nat>)
    ensures |r| == n
    ensures forall i :: 0 <= i < n ==> r[i] == i
  {
    if n == 0 then [] else Positions(n - 1) + [n - 1]
  }

  // ---------------------------------------------------------------------
  // Start-up checks
  // ---------------------------------------------------------------------

  const NoActiveSender := "Không tìm thấy tài khoản gửi nào đang hoạt động."
  const NoPendingRecipient := "Không tìm thấy người nhận nào có trạng thái \"pending\". Vui lòng thêm người nhận hoặc đặt lại trạng thái một số người nhận về \"pending\"."
  const NoTemplate := "Không tìm thấy mẫu email nào được chọn."

  /** The 400 message `sendCampaign` answers before any sending, checking active
      senders, then pending recipients, then selected templates. */
  function StartCheck(activeSenders: nat, pendingRecipients: nat, selectedTemplates: nat): (r: Option<string>)
    ensures r.None? <==> activeSenders > 0 && pendingRecipients > 0 && selectedTemplates > 0
    ensures activeSenders == 0 ==> r == Some(NoActiveSender)
    ensures activeSenders > 0 && pendingRecipients == 0 ==> r == Some(NoPendingRecipient)
    ensures activeSenders > 0 && pendingRecipients > 0 && selectedTemplates == 0 ==> r == Some(NoTemplate)
  {
    if activeSenders == 0 then Some(NoActiveSender)
    else if pendingRecipients == 0 then Some(NoPendingRecipient)
    else if selectedTemplates == 0 then Some(NoTemplate)
    else None
  }

  // ---------------------------------------------------------------------
  // Per-attempt rules
  // ---------------------------------------------------------------------

  /** Port 587 uses STARTTLS (secure false), port 465 implicit TLS (secure true),
      as in section 3.3 of RFC 8314; any other port keeps the account's own flag. */
  function SecureFor(port: int, secure: bool): (r: bool)
    ensures port == 587 ==> !r
    ensures port == 465 ==> r
    ensures port != 587 && port != 465 ==> r == secure
  {
    if port == 587 then false else if port == 465 then true else secure
  }

  /** `brandName || 'Your Brand'` */
  function BrandOrDefault(brand: Option<string>): (r: string)
    ensures brand.Some? && brand.value != "" ==> r == brand.value
    ensures brand.None? || brand.value == "" ==> r == "Your Brand"
  {
    if brand.Some? && brand.value != "" then brand.value else "Your Brand"
  }

  /** The `from` header: `"<brand>" <<sender email>>`. */
  function FromHeader(brand: string, email: string): (h: string)
    ensures |h| == |brand| + |email| + 5
    ensures h[1..|brand| + 1] == brand && h[|brand| + 4..|h| - 1] == email
  {
    "\"" + brand + "\" <" + email + ">"
  }

  /** `error.response && error.response.data ? error.response.data : error.message` */
  function ErrorText(o: Outcome): (r: string)
    requires o.Rejected?
    ensures o.responseData.Some? && o.responseData.value != "" ==> r == o.responseData.value
    ensures o.responseData.None? || o.responseData.value == "" ==> r == o.message
  {
    if o.responseData.Some? && o.responseData.value != "" then o.responseData.value else o.message
  }

  /** `recipient.name || ''` */
  function NameOrEmpty(name: Option<string>): (r: string)
    ensures name.Some? ==> r == name.value
    ensures name.None? ==> r == ""
  {
    if name.Some? then name.value else ""
  }

  // ---------------------------------------------------------------------
  // `String.prototype.replace` with a string pattern
  // ---------------------------------------------------------------------

  const Placeholder := "{{Ten}}"

  /** `s.indexOf(p, from)`: the first occurrence at or after `from`, or -1. */
  function IndexOfFrom(s: string, p: string, from: nat): (r: int)
    ensures r == -1 || (from <= r && OccursAt(s, p, r))
    ensures r == -1 ==> forall j :: from <= j ==> !OccursAt(s, p, j)
    ensures r >= 0 ==> forall j :: from <= j < r ==> !OccursAt(s, p, j)
    decreases |s| - from
  {
    if from + |p| > |s| then -1
    else if s[from..from + |p|] == p then from
    else IndexOfFrom(s, p, from + 1)
  }

  function IndexOf(s: string, p: string): (r: int)
    ensures r == -1 <==> forall j :: !OccursAt(s, p, j)
    ensures r >= 0 ==> OccursAt(s, p, r) && forall j :: 0 <= j < r ==> !OccursAt(s, p, j)
  {
    IndexOfFrom(s, p, 0)
  }

  /** The replacement text after expanding the `$` patterns a replacement string may
      hold when the pattern is a plain string: `$$`, `$&` (the match), `` $` `` (the
      text before it) and `$'` (the text after it); any other `$` is literal. */
  function Expand(rep: string, matched: string, before: string, after: string): (r: string)
    ensures '$' !in rep ==> r == rep
    decreases |rep|
  {
    if rep == [] then []
    else if rep[0] == '$' && |rep| >= 2 && rep[1] == '$' then "$" + Expand(rep[2..], matched, before, after)
    else if rep[0] == '$' && |rep| >= 2 && rep[1] == '&' then matched + Expand(rep[2..], matched, before, after)
    else if rep[0] == '$' && |rep| >= 2 && rep[1] == '`' then before + Expand(rep[2..], matched, before, after)
    else if rep[0] == '$' && |rep| >= 2 && rep[1] == '\'' then after + Expand(rep[2..], matched, before, after)
    else [rep[0]] + Expand(rep[1..], matched, before, after)
  }

  /** `s.replace(p, rep)` for a string `p`: only the first occurrence is replaced. */
  function ReplaceFirst(s: string, p: string, rep: string): (r: string)
    ensures IndexOf(s, p) < 0 ==> r == s
    ensures IndexOf(s, p) >= 0 ==>
              var i := IndexOf(s, p);
              var tail := s[i + |p|..];
              && |r| >= i + |tail| && r[..i] == s[..i] && r[|r| - |tail|..] == tail
  {
    var i := IndexOf(s, p);
    if i < 0 then s
    else s[..i] + Expand(rep, p, s[..i], s[i + |p|..]) + s[i + |p|..]
  }

  /** `text.replace('{{Ten}}', recipient.name || '')`, as applied to subject and body. */
  function Personalize(text: string, name: Option<string>): (r: string)
    ensures IndexOf(text, Placeholder) < 0 ==> r == text
    ensures IndexOf(text, Placeholder) >= 0 ==>
              var i := IndexOf(text, Placeholder);
              var tail := text[i + |Placeholder|..];
              && |r| >= i + |tail| && r[..i] == text[..i] && r[|r| - |tail|..] == tail
  {
    ReplaceFirst(text, Placeholder, NameOrEmpty(name))
  }

  /** A name without `$` lands verbatim in place of the first placeholder, and the
      text around it is kept; a text without placeholder is sent unchanged. */
  lemma PersonalizeLiteral(text: string, name: Option<string>)
    requires '$' !in NameOrEmpty(name)
    ensures IndexOf(text, Placeholder) < 0 ==> Personalize(text, name) == text
    ensures IndexOf(text, Placeholder) >= 0 ==>
      var i := IndexOf(text, Placeholder);
      Personalize(text, name) == text[..i] + NameOrEmpty(name) + text[i + |Placeholder|..]
  {
  }

  /** Only the first placeholder is substituted: a text holding it twice still
      holds it after substitution. */
  lemma PersonalizeFirstOnly()
    ensures Personalize("{{Ten}}{{Ten}}", Some("An")) == "An{{Ten}}"
  {
    assert OccursAt("{{Ten}}{{Ten}}", Placeholder, 0);
    assert IndexOf("{{Ten}}{{Ten}}", Placeholder) == 0;
  }

  /** A recipient named `$&` receives the placeholder itself, not the name. */
  lemma PersonalizeDollarPattern()
    ensures Personalize("Hi {{Ten}}", Some("$&")) == "Hi {{Ten}}"
  {
    var s := "Hi {{Ten}}";
    PlaceholderAfterGreeting(s);
    assert Expand("$&", Placeholder, s[..3], s[10..]) == Placeholder;
    assert s[..3] + Placeholder + s[10..] == s;
  }

  /** Whatever the text, a recipient named `$&` receives it unchanged: the
      pattern expands to the matched placeholder itself. */
  lemma PersonalizeMatchPattern(text: string)
    ensures Personalize(text, Some("$&")) == text
  {
    var i := IndexOf(text, Placeholder);
    if i >= 0 {
      assert Expand("$&", Placeholder, text[..i], text[i + |Placeholder|..]) == Placeholder;
      assert text[..i] + Placeholder + text[i + |Placeholder|..] == text by {
        assert text[i..i + |Placeholder|] == Placeholder;
      }
    }
  }

  /** Only the first placeholder is substituted: with a name without `$`, every
      later placeholder of the text is still there, shifted by the difference
      between the name and the placeholder. */
  lemma PersonalizeKeepsLater(text: string, name: Option<string>, j: nat)
    requires '$' !in NameOrEmpty(name)
    requires IndexOf(text, Placeholder) >= 0 && j >= IndexOf(text, Placeholder) + |Placeholder|
    requires OccursAt(text, Placeholder, j)
    ensures OccursAt(Personalize(text, name), Placeholder, j - |Placeholder| + |NameOrEmpty(name)|)
  {
    PersonalizeLiteral(text, name);
    var i := IndexOf(text, Placeholder);
    var n := NameOrEmpty(name);
    var tail := text[i + |Placeholder|..];
    var x := j - i - |Placeholder|;
    SliceInTail(text[..i] + n, tail, x, |Placeholder|);
    assert tail[x..x + |Placeholder|] == text[j..j + |Placeholder|];
  }

  /** A slice that lies in the second part of a concatenation is a slice of it. */
  lemma SliceInTail(a: string, t: string, x: nat, len: nat)
    requires x + len <= |t|
    ensures (a + t)[|a| + x..|a| + x + len] == t[x..x + len]
  {
  }

  /** The placeholder in the greeting text starts at index 3. */
  lemma PlaceholderAfterGreeting(s: string)
    requires s == "Hi {{Ten}}"
    ensures IndexOf(s, Placeholder) == 3
  {
    assert !OccursAt(s, Placeholder, 0) by { assert s[0] != Placeholder[0]; }
    assert !OccursAt(s, Placeholder, 1) by { assert s[1] != Placeholder[0]; }
    assert !OccursAt(s, Placeholder, 2) by { assert s[2] != Placeholder[0]; }
    assert OccursAt(s, Placeholder, 3);
  }

  // ---------------------------------------------------------------------
  // Progress lines
  // ---------------------------------------------------------------------

  /** Every line the dispatcher appends to `logs`. */
  datatype LogLine =
    | NothingLeft(round: nat)
    | RoundStart(round: nat)
    | RoundSize(round: nat, count: nat)
    | AllFinished(round: nat)
    | NoPair
    | QuotaSkip(sender: string)
    | Sending(round: nat, sender: string, to: string, template: string)
    | SentOk(round: nat, sender: string, to: string, template: string)
    | QuotaReached(sender: string)
    | Waiting(sender: string, seconds: int)
    | SendFailed(round: nat, sender: string, to: string, error: string)
    | RoundEnd(round: nat)
    | NoFailedLeft
    | FailedRemain(count: nat)
    | Summary(rounds: nat, successes: nat, failures: nat)

  const FailurePhrase := "Lỗi gửi tới "
  const SummaryPrefix := "Chiến dịch hoàn tất"

  /** The text of each line, as the template literals build it. */
  function Render(l: LogLine): string
  {
    match l
    case NothingLeft(r) => "Vòng " + NatToString(r) + ": Không còn recipient nào " + "cần gửi. Kết thúc chiến dịch."
    case RoundStart(r) => "=== BẮT ĐẦU VÒNG " + NatToString(r) + " ==="
    case RoundSize(r, n) => "Vòng " + NatToString(r) + ": Có " + NatToString(n) + " recipients cần gửi " + "(pending + failed)"
    case AllFinished(r) => "Vòng " + NatToString(r) + ": Tất cả sender đã finished. " + "Chuyển sang vòng tiếp theo."
    case NoPair => "Không có sender hoặc " + "template khả dụng"
    case QuotaSkip(s) => "[" + s + "] Đã đạt giới hạn gửi " + "trong ngày hoặc hết recipient."
    case Sending(r, s, to, t) => "Vòng " + NatToString(r) + " - [" + s + "] Đang gửi mail cho " + to + " với template: " + t
    case SentOk(r, s, to, t) => "Vòng " + NatToString(r) + " - [" + s + "] Đã gửi mail " + "thành công cho " + to + " với template: " + t
    case QuotaReached(s) => "[" + s + "] Đã đạt giới hạn gửi " + "trong ngày."
    case Waiting(s, d) => "[" + s + "] Chờ " + IntToString(d) + "s trước khi gửi tiếp..."
    case SendFailed(r, s, to, e) => "Vòng " + NatToString(r) + " - [" + s + "] " + FailurePhrase + to + ": " + e
    case RoundEnd(r) => "=== KẾT THÚC VÒNG " + NatToString(r) + " ==="
    case NoFailedLeft => "Không còn email failed nào. " + "Kết thúc chiến dịch."
    case FailedRemain(n) => "Còn " + NatToString(n) + " email failed. " + "Chuẩn bị vòng tiếp theo..."
    case Summary(r, s, f) => SummaryPrefix + " sau " + NatToString(r) + " vòng. Gửi thành công: " + NatToString(s) + ". Thất bại: " + NatToString(f) + "."
  }

  /** Only the closing summary starts with `Chiến dịch hoàn tất`. */
  lemma SummaryPrefixOnlySummary(l: LogLine)
    ensures StartsWith(Render(l), SummaryPrefix) <==> l.Summary?
  {
    if l.Summary? {
      SummaryLead(l);
    } else if l.FailedRemain? {
      FailedRemainLead(l);
    } else {
      OtherLead(l);
    }
  }

  lemma OtherLead(l: LogLine)
    requires !l.Summary? && !l.FailedRemain?
    ensures !StartsWith(Render(l), SummaryPrefix)
  {
    LeadChar(l);
    assert SummaryPrefix[0] == 'C';
  }

  lemma SummaryLead(l: LogLine)
    requires l.Summary?
    ensures StartsWith(Render(l), SummaryPrefix)
  {
    var t := Render(l);
    assert t[..|SummaryPrefix|] == SummaryPrefix;
  }

  lemma FailedRemainLead(l: LogLine)
    requires l.FailedRemain?
    ensures !StartsWith(Render(l), SummaryPrefix)
  {
    assert Render(l)[1] == 'ò' != SummaryPrefix[1];
  }

  /** The leading character of each line other than the two that start with `C`. */
  lemma LeadChar(l: LogLine)
    requires !l.Summary? && !l.FailedRemain?
    ensures |Render(l)| > 0 && Render(l)[0] in {'V', '=', 'K', '['}
  {
    if l.NothingLeft? || l.RoundSize? || l.AllFinished? {
      LeadRound(l);
    } else if l.Sending? || l.SentOk? || l.SendFailed? {
      LeadAttempt(l);
    } else {
      LeadOther(l);
    }
  }

  lemma LeadRound(l: LogLine)
    requires l.NothingLeft? || l.RoundSize? || l.AllFinished?
    ensures |Render(l)| > 0 && Render(l)[0] == 'V'
  {
    match l
    case NothingLeft(_) => assert Render(l)[0] == 'V';
    case RoundSize(_, _) => assert Render(l)[0] == 'V';
    case AllFinished(_) => assert Render(l)[0] == 'V';
  }

  lemma LeadAttempt(l: LogLine)
    requires l.Sending? || l.SentOk? || l.SendFailed?
    ensures |Render(l)| > 0 && Render(l)[0] == 'V'
  {
    match l
    case Sending(_, _, _, _) => assert Render(l)[0] == 'V';
    case SentOk(_, _, _, _) => assert Render(l)[0] == 'V';
    case SendFailed(_, _, _, _) => assert Render(l)[0] == 'V';
  }

  lemma LeadOther(l: LogLine)
    requires !(l.NothingLeft? || l.RoundSize? || l.AllFinished? || l.Sending? || l.SentOk? || l.SendFailed?)
    requires !l.Summary? && !l.FailedRemain?
    ensures |Render(l)| > 0 && Render(l)[0] in {'=', 'K', '['}
  {
    match l
    case RoundStart(_) => assert Render(l)[0] == '=';
    case NoPair => assert Render(l)[0] == 'K';
    case QuotaSkip(_) => assert Render(l)[0] == '[';
    case QuotaReached(_) => assert Render(l)[0] == '[';
    case Waiting(_, _) => assert Render(l)[0] == '[';
    case RoundEnd(_) => assert Render(l)[0] == '=';
    case NoFailedLeft => assert Render(l)[0] == 'K';
  }

  /** Lines that report a delivery. */
  predicate IsAttemptLine(l: LogLine)
  {
    l.SentOk? || l.SendFailed?
  }

  // ---------------------------------------------------------------------
  // Server-Sent Events framing (section 9.2 of the WHATWG HTML Living Standard)
  // ---------------------------------------------------------------------

  function HexDigit(d: nat): (c: char)
    requires d < 16
  {
    "0123456789abcdef"[d]
  }

  function HexValue(c: char): (r: Option<nat>)
    ensures r.Some? ==> r.value < 16
  {
    if '0' <= c <= '9' then Some(c as int - '0' as int)
    else if 'a' <= c <= 'f' then Some(c as int - 'a' as int + 10)
    else None
  }

  lemma HexRoundTrip(d: nat)
    requires d < 16
    ensures HexValue(HexDigit(d)) == Some(d)
  {
  }

  /** How `JSON.stringify` writes one character of a string. */
  function EscapeChar(c: char): (r: string)
    ensures |r| > 0 && '\n' !in r && '\r' !in r
  {
    if c == '"' then "\\\""
    else if c == '\\' then "\\\\"
    else if c == '\U{0008}' then "\\b"
    else if c == '\U{000C}' then "\\f"
    else if c == '\n' then "\\n"
    else if c == '\r' then "\\r"
    else if c == '\t' then "\\t"
    else if c < ' ' then "\\u00" + [HexDigit(c as int / 16), HexDigit(c as int % 16)]
    else [c]
  }

  function Escape(s: string): (r: string)
    ensures '\n' !in r && '\r' !in r
  {
    if s == [] then [] else EscapeChar(s[0]) + Escape(s[1..])
  }

  /** `JSON.stringify(line)` for a string */
  function Quote(s: string): (r: string)
    ensures |r| >= 2 && r[0] == '"' && r[|r| - 1] == '"'
    ensures '\n' !in r && '\r' !in r
  {
    "\"" + Escape(s) + "\""
  }

  /** The bytes `sendSseLog` writes for one line: one `data:` field and the blank
      line that dispatches the event. */
  function Frame(line: string): string
  {
    "data: " + Quote(line) + "\n\n"
  }

  function Cons(c: char, r: Option<string>): Option<string>
  {
    if r.Some? then Some([c] + r.value) else None
  }

  function SimpleEscape(c: char): Option<char>
  {
    if c == '"' then Some('"')
    else if c == '\\' then Some('\\')
    else if c == 'b' then Some('\U{0008}')
    else if c == 'f' then Some('\U{000C}')
    else if c == 'n' then Some('\n')
    else if c == 'r' then Some('\r')
    else if c == 't' then Some('\t')
    else None
  }

  /** Reads back the escaped body of a JSON string (the receiving side's `JSON.parse`). */
  function Unescape(t: string): Option<string>
    decreases |t|
  {
    if t == [] then Some([])
    else if t[0] == '\\' then
      if |t| >= 6 && t[1] == 'u' && t[2] == '0' && t[3] == '0'
         && HexValue(t[4]).Some? && HexValue(t[5]).Some? && HexValue(t[4]).value < 2
      then Cons((HexValue(t[4]).value * 16 + HexValue(t[5]).value) as char, Unescape(t[6..]))
      else if |t| >= 2 && SimpleEscape(t[1]).Some? then Cons(SimpleEscape(t[1]).value, Unescape(t[2..]))
      else None
    else if t[0] == '"' || t[0] < ' ' then None
    else Cons(t[0], Unescape(t[1..]))
  }

  /** A two-character escape reads back as the character it stands for. */
  lemma UnescapeSimple(c: char, rest: string)
    requires c == '"' || c == '\\' || c == '\U{0008}' || c == '\U{000C}' || c == '\n' || c == '\r' || c == '\t'
    ensures Unescape(EscapeChar(c) + rest) == Cons(c, Unescape(rest))
  {
    var t := EscapeChar(c) + rest;
    assert t[0] == '\\' && |t| >= 2 && t[2..] == rest;
    assert t[1] != 'u';
    assert SimpleEscape(t[1]) == Some(c);
  }

  /** A `\u00XX` escape reads back as the control character it encodes. */
  lemma UnescapeControl(c: char, rest: string)
    requires c < ' ' && !(c == '\U{0008}' || c == '\U{000C}' || c == '\n' || c == '\r' || c == '\t')
    ensures Unescape(EscapeChar(c) + rest) == Cons(c, Unescape(rest))
  {
    var t := EscapeChar(c) + rest;
    var hi := c as int / 16;
    var lo := c as int % 16;
    HexRoundTrip(hi);
    HexRoundTrip(lo);
    assert t[..6] == "\\u00" + [HexDigit(hi), HexDigit(lo)];
    assert t[1] == 'u' && t[2] == '0' && t[3] == '0' && t[4] == HexDigit(hi) && t[5] == HexDigit(lo);
    assert t[6..] == rest;
    assert (hi * 16 + lo) as char == c;
  }

  /** Every escaped character reads back as itself. */
  lemma UnescapeChar(c: char, rest: string)
    ensures Unescape(EscapeChar(c) + rest) == Cons(c, Unescape(rest))
  {
    if c == '"' || c == '\\' || c == '\U{0008}' || c == '\U{000C}' || c == '\n' || c == '\r' || c == '\t' {
      UnescapeSimple(c, rest);
    } else if c < ' ' {
      UnescapeControl(c, rest);
    } else {
      var t := EscapeChar(c) + rest;
      assert t[0] == c && t[1..] == rest;
    }
  }

  lemma {:induction false} UnescapeEscape(s: string)
    ensures Unescape(Escape(s)) == Some(s)
  {
    if s != [] {
      UnescapeEscape(s[1..]);
      UnescapeChar(s[0], Escape(s[1..]));
      assert [s[0]] + s[1..] == s;
    }
  }

  /** Reads one frame back into the line it carries. */
  function ParseFrame(f: string): Option<string>
  {
    if |f| >= 10 && f[..7] == "data: \"" && f[|f| - 3..] == "\"\n\n"
    then Unescape(f[7..|f| - 3])
    else None
  }

  /** Every frame reads back as the line it was built from. */
  lemma FrameRoundTrip(line: string)
    ensures ParseFrame(Frame(line)) == Some(line)
  {
    var f := Frame(line);
    var e := Escape(line);
    assert f == "data: \"" + e + "\"\n\n";
    assert f[7..|f| - 3] == e;
    UnescapeEscape(line);
  }

  /** A frame holds exactly one line terminator pair, at its end, so each line
      travels as a single event whatever characters it contains. */
  lemma FrameSingleEvent(line: string)
    ensures var f := Frame(line);
      |f| >= 2 && f[|f| - 2..] == "\n\n" && '\n' !in f[..|f| - 2] && '\r' !in f
  {
    var f := Frame(line);
    var q := Quote(line);
    assert f[..|f| - 2] == "data: " + q;
    assert forall i :: 0 <= i < |f| - 2 ==> f[i] != '\n' by {
      forall i | 0 <= i < |f| - 2 ensures f[i] != '\n' {
        if i >= 6 { assert f[i] == q[i - 6]; }
      }
    }
  }
}
