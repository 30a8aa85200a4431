/** The round-by-round behaviour of `sendCampaign`, as functions on a snapshot
    of everything the dispatcher reads and writes. `CampaignEngine.CampaignRun`
    performs the same steps in place and is proved to agree with these
    functions; the lemmas below state what each step guarantees. */
module CampaignRounds {
  import opened Common
  import opened CampaignModel

  /** The per-sender record built at start: a run counter seeded from the
      persisted `sentCount`, and the `finished` flag. */
  datatype SenderState = SenderState(sentCount: int, finished: bool)

  /** The request values fixed for the whole run. `active` holds the store
      positions of the active senders (the `senders` list) and `selected` those
      of the selected templates (the `selectedTemplates` list). */
  datatype Config = Config(
    active: seq<nat>,
    selected: seq<nat>,
    brand: string,
    minDelay: int,
    maxDelay: int,
    totalLimit: Option<int>)

  /** What the environment decides during one iteration: the three
      `Math.random()` values and the transport's answer. */
  datatype Draws = Draws(senderDraw: real, templateDraw: real, outcome: Outcome, delayDraw: real)

  predicate DrawsOk(d: Draws)
  {
    IsUnit(d.senderDraw) && IsUnit(d.templateDraw) && IsUnit(d.delayDraw)
  }

  /** Everything one run reads and writes: the four collections, the two
      pools (positions into `active` and `selected`), the sender states, the
      current round's recipients and cursor, the counters, the `logs` array,
      the recorded waits (seconds) and the sends handed to the transport. */
  datatype RunState = RunState(
    senders: seq<Sender>,
    recipients: seq<Recipient>,
    templates: seq<Template>,
    entries: seq<LogEntry>,
    availSenders: seq<nat>,
    availTemplates: seq<nat>,
    states: seq<SenderState>,
    round: seq<nat>,
    recipientIndex: nat,
    roundNumber: nat,
    totalSuccesses: nat,
    totalFailures: nat,
    logs: seq<LogLine>,
    delays: seq<int>,
    outbox: seq<Dispatch>)

  // ---------------------------------------------------------------------
  // Queries
  // ---------------------------------------------------------------------

  /** The positions whose flag is set, in increasing order (a `find` with a filter). */
  function Where(bits: seq<bool>): (r: seq<nat>)
    ensures |r| <= |bits|
    ensures forall i :: 0 <= i < |r| ==> r[i] < |bits| && bits[r[i]]
    ensures forall p :: 0 <= p < |bits| && bits[p] ==> p in r
    ensures forall i, j :: 0 <= i < j < |r| ==> r[i] < r[j]
  {
    if bits == [] then []
    else
      var rest := Where(bits[..|bits| - 1]);
      assert forall p :: 0 <= p < |bits| - 1 ==> bits[..|bits| - 1][p] == bits[p];
      rest + (if bits[|bits| - 1] then [|bits| - 1] else [])
  }

  lemma IncreasingDistinct(r: seq<nat>)
    requires forall i, j :: 0 <= i < j < |r| ==> r[i] < r[j]
    ensures NoDuplicates(r)
  {
  }

  /** The round query returns each `pending` or `failed` recipient exactly once. */
  lemma DueSpec(rs: seq<Recipient>)
    ensures NoDuplicates(Due(rs)) && Below(Due(rs), |rs|)
    ensures forall j :: 0 <= j < |Due(rs)| ==> rs[Due(rs)[j]].status != Sent
    ensures forall p :: p in Due(rs) <==> 0 <= p < |rs| && rs[p].status != Sent
  {
    var bits := seq(|rs|, i requires 0 <= i < |rs| => rs[i].status != Sent);
    var due := Due(rs);
    IncreasingDistinct(due);
    forall j | 0 <= j < |due| ensures rs[due[j]].status != Sent {
      assert bits[due[j]];
    }
    forall p | 0 <= p < |rs| && rs[p].status != Sent ensures p in due {
      assert bits[p];
    }
  }

  /** `Sender.find({ isActive: true })` */
  function ActiveSenders(ss: seq<Sender>): seq<nat>
  {
    Where(seq(|ss|, i requires 0 <= i < |ss| => ss[i].isActive))
  }

  /** `Recipient.find({ status: { $in: ['pending', 'failed'] } })` */
  function Due(rs: seq<Recipient>): seq<nat>
  {
    Where(seq(|rs|, i requires 0 <= i < |rs| => rs[i].status != Sent))
  }

  /** `Template.find({ _id: { $in: selectedTemplateIds } })`, a template's id being its position. */
  function SelectedTemplates(ts: seq<Template>, ids: seq<nat>): seq<nat>
  {
    Where(seq(|ts|, i requires 0 <= i < |ts| => i in ids))
  }

  /** `Recipient.countDocuments({ status })` */
  function CountStatus(rs: seq<Recipient>, st: RecipientStatus): (n: nat)
    ensures n <= |rs|
    ensures n == 0 <==> forall p :: 0 <= p < |rs| ==> rs[p].status != st
  {
    if rs == [] then 0
    else (if rs[|rs| - 1].status == st then 1 else 0) + CountStatus(rs[..|rs| - 1], st)
  }

  /** The round query is empty exactly when no recipient is pending or failed. */
  lemma DueEmpty(rs: seq<Recipient>)
    ensures Due(rs) == [] <==> CountStatus(rs, Pending) == 0 && CountStatus(rs, Failed) == 0
  {
    var bits := seq(|rs|, i requires 0 <= i < |rs| => rs[i].status != Sent);
    if Due(rs) != [] {
      var p := Due(rs)[0];
      assert bits[p];
    } else {
      forall p | 0 <= p < |rs| ensures rs[p].status == Sent {
        assert bits[p] ==> p in Due(rs);
      }
    }
  }

  // ---------------------------------------------------------------------
  // Sums behind the usage counters
  // ---------------------------------------------------------------------

  function SenderCount(s: Sender): int { s.sentCount }
  function TemplateCount(t: Template): int { t.sentCount }

  /** The sum of `f` over the records at positions `ps`. */
  function SumAt<T>(xs: seq<T>, ps: seq<nat>, f: T -> int): int
    requires Below(ps, |xs|)
  {
    if ps == [] then 0 else f(xs[ps[0]]) + SumAt(xs, ps[1..], f)
  }

  /** Changing a record outside `ps` leaves the sum alone. */
  lemma {:induction false} SumAtOutside<T>(xs: seq<T>, ps: seq<nat>, f: T -> int, p: nat, x: T)
    requires Below(ps, |xs|)
    requires p < |xs| && p !in ps
    ensures SumAt(xs[p := x], ps, f) == SumAt(xs, ps, f)
  {
    if ps != [] {
      SumAtOutside(xs, ps[1..], f, p, x);
    }
  }

  /** Changing the record at a position listed once in `ps` shifts the sum by the change. */
  lemma {:induction false} SumAtUpdate<T>(xs: seq<T>, ps: seq<nat>, f: T -> int, p: nat, x: T)
    requires Below(ps, |xs|)
    requires NoDuplicates(ps) && p in ps
    ensures SumAt(xs[p := x], ps, f) == SumAt(xs, ps, f) + f(x) - f(xs[p])
  {
    if ps[0] == p {
      assert p !in ps[1..] by {
        forall i | 0 <= i < |ps| - 1 ensures ps[1..][i] != p {
          assert ps[1..][i] == ps[i + 1];
        }
      }
      SumAtOutside(xs, ps[1..], f, p, x);
    } else {
      assert p in ps[1..] by {
        var i :| 0 <= i < |ps| && ps[i] == p;
        assert ps[1..][i - 1] == p;
      }
      SumAtUpdate(xs, ps[1..], f, p, x);
    }
  }

  // ---------------------------------------------------------------------
  // The run invariant
  // ---------------------------------------------------------------------

  predicate EveryoneFinished(states: seq<SenderState>)
  {
    forall k :: 0 <= k < |states| ==> states[k].finished
  }

  /** Sender `k` has used its daily quota. */
  predicate AtQuota(c: Config, s: RunState, k: nat)
    requires k < |c.active| && k < |s.states|
    requires c.active[k] < |s.senders|
  {
    s.states[k].sentCount >= s.senders[c.active[k]].dailyLimit
  }

  predicate LimitReached(c: Config, s: RunState)
  {
    c.totalLimit.Some? && s.totalSuccesses >= c.totalLimit.value
  }

  /** Every element is a valid index for a list of length `n`. */
  predicate Below(xs: seq<nat>, n: nat)
  {
    forall i :: 0 <= i < |xs| ==> xs[i] < n
  }

  /** Drawing from a pool of valid indices gives a valid index and leaves valid indices. */
  lemma DrawBelow(pool: seq<nat>, u: real, n: nat)
    requires Below(pool, n) && IsUnit(u) && pool != []
    ensures Draw(pool, u).value.0 < n && Below(Draw(pool, u).value.1, n)
  {
    var (x, rest) := Draw(pool, u).value;
    forall i | 0 <= i < |rest| ensures rest[i] < n {
      assert rest[i] in multiset(rest);
      assert rest[i] in multiset(pool);
    }
  }

  /** The configured senders and templates are positions in the store. */
  predicate Indexed(c: Config, s: RunState)
  {
    Below(c.active, |s.senders|) && Below(c.selected, |s.templates|)
  }

  /** Indices are in range and the two copies of each sender's counter agree. */
  predicate ValidState(c: Config, s: RunState)
  {
    && |c.active| > 0 && |c.selected| > 0
    && NoDuplicates(c.active) && NoDuplicates(c.selected)
    && Indexed(c, s)
    && |s.states| == |c.active|
    && Below(s.availSenders, |c.active|) && Below(s.availTemplates, |c.selected|)
    && (forall k :: 0 <= k < |c.active| ==> s.states[k].sentCount == s.senders[c.active[k]].sentCount)
    && (forall k :: 0 <= k < |c.active| && s.states[k].finished ==> AtQuota(c, s, k))
    && s.recipientIndex <= |s.round|
    && NoDuplicates(s.round) && Below(s.round, |s.recipients|)
    && (forall j :: s.recipientIndex <= j < |s.round| ==> s.recipients[s.round[j]].status != Sent)
  }

  /** The status changes a run may make: `pending` or `failed` may become `sent`
      or `failed`; `sent` stays; address and name never change. */
  predicate Transition(a: Recipient, b: Recipient)
  {
    b.email == a.email && b.name == a.name
    && (b.status == a.status || (a.status != Sent && b.status != Pending))
  }

  function Max(a: int, b: int): int { if a >= b then a else b }

  function Attempts(s: RunState): nat { s.totalSuccesses + s.totalFailures }

  /** How a later state `s` of the run relates to an earlier one `s0`. */
  predicate Progress(c: Config, s0: RunState, s: RunState)
    requires ValidState(c, s0) && ValidState(c, s)
  {
    StoreProgress(c, s0, s) && LedgerProgress(c, s0, s) && OutputProgress(c, s0, s)
  }

  /** Only usage counters and statuses change in the store; a sender never passes
      its daily limit unless it was already past it; statuses move only as
      `Transition` allows. */
  predicate StoreProgress(c: Config, s0: RunState, s: RunState)
    requires Indexed(c, s0) && Indexed(c, s)
  {
    && |s.senders| == |s0.senders| && |s.recipients| == |s0.recipients| && |s.templates| == |s0.templates|
    && (forall p :: 0 <= p < |s.senders| ==> s.senders[p] == s0.senders[p].(sentCount := s.senders[p].sentCount))
    && (forall p :: 0 <= p < |s.templates| ==> s.templates[p] == s0.templates[p].(sentCount := s.templates[p].sentCount))
    && (forall k :: 0 <= k < |c.active| ==>
          s0.senders[c.active[k]].sentCount <= s.senders[c.active[k]].sentCount
          <= Max(s0.senders[c.active[k]].sentCount, s0.senders[c.active[k]].dailyLimit))
    && (forall p :: 0 <= p < |s.recipients| ==> Transition(s0.recipients[p], s.recipients[p]))
  }

  /** Every attempt is counted once in each ledger: the senders' usage, the
      history entries, the mails and the waits; every success once in the
      templates' usage; and no success goes beyond `totalLimit`. */
  predicate LedgerProgress(c: Config, s0: RunState, s: RunState)
    requires Indexed(c, s0) && Indexed(c, s)
  {
    && s0.totalSuccesses <= s.totalSuccesses && s0.totalFailures <= s.totalFailures
    && SumAt(s.senders, c.active, SenderCount) - SumAt(s0.senders, c.active, SenderCount) == Attempts(s) - Attempts(s0)
    && SumAt(s.templates, c.selected, TemplateCount) - SumAt(s0.templates, c.selected, TemplateCount)
       == s.totalSuccesses - s0.totalSuccesses
    && (c.totalLimit.Some? ==> s.totalSuccesses <= Max(s0.totalSuccesses, c.totalLimit.value))
  }

  /** The history, the mails, the waits and the log lines are only appended to. */
  predicate OutputProgress(c: Config, s0: RunState, s: RunState)
  {
    && |s0.entries| <= |s.entries| && s.entries[..|s0.entries|] == s0.entries
    && |s.entries| - |s0.entries| == Attempts(s) - Attempts(s0)
    && |s0.outbox| <= |s.outbox| && s.outbox[..|s0.outbox|] == s0.outbox
    && |s.outbox| - |s0.outbox| == Attempts(s) - Attempts(s0)
    && |s.delays| - |s0.delays| == Attempts(s) - Attempts(s0)
    && |s0.logs| <= |s.logs| && s.logs[..|s0.logs|] == s0.logs
  }

  // ---------------------------------------------------------------------
  // Start of the run
  // ---------------------------------------------------------------------

  /** `senders.map(sender => ({ sender, sentCount: sender.sentCount, finished: false }))` */
  function StatesFor(ss: seq<Sender>, active: seq<nat>): (r: seq<SenderState>)
    requires Below(active, |ss|)
    ensures |r| == |active|
    ensures forall k :: 0 <= k < |active| ==> r[k] == SenderState(ss[active[k]].sentCount, false)
  {
    if active == [] then [] else [SenderState(ss[active[0]].sentCount, false)] + StatesFor(ss, active[1..])
  }

  /** The state right before the first round. */
  function Initial(c: Config, senders: seq<Sender>, recipients: seq<Recipient>, templates: seq<Template>,
                   entries: seq<LogEntry>): RunState
    requires Below(c.active, |senders|)
  {
    RunState(senders, recipients, templates, entries,
             Positions(|c.active|), Positions(|c.selected|), StatesFor(senders, c.active),
             [], 0, 1, 0, 0, [], [], [])
  }

  /** A configuration drawn from the store by the start-up queries. */
  predicate ConfigFor(c: Config, senders: seq<Sender>, templates: seq<Template>)
  {
    && |c.active| > 0 && |c.selected| > 0
    && NoDuplicates(c.active) && NoDuplicates(c.selected)
    && Below(c.active, |senders|) && Below(c.selected, |templates|)
  }

  lemma InitialValid(c: Config, senders: seq<Sender>, recipients: seq<Recipient>, templates: seq<Template>,
                     entries: seq<LogEntry>)
    requires ConfigFor(c, senders, templates)
    ensures ValidState(c, Initial(c, senders, recipients, templates, entries))
    ensures Progress(c, Initial(c, senders, recipients, templates, entries), Initial(c, senders, recipients, templates, entries))
  {
  }

  // ---------------------------------------------------------------------
  // One iteration of the inner `while`
  // ---------------------------------------------------------------------

  /** `resetIfEmpty` on one pool: an empty pool is refilled with every position. */
  function Refill(pool: seq<nat>, n: nat): (r: seq<nat>)
    ensures pool == [] ==> r == Positions(n)
    ensures pool != [] ==> r == pool
  {
    if pool == [] then Positions(n) else pool
  }

  /** One `sendMail` call, recorded by the records it is built from. */
  datatype Dispatch = Dispatch(sender: Sender, recipient: Recipient, template: Template)

  /** The transport settings and message a dispatch hands to the transport. */
  function MailFor(c: Config, x: Dispatch): (m: Mail)
    ensures m.transport.user == x.sender.email && m.transport.pass == x.sender.appPassword
    ensures m.transport.host == x.sender.host && m.transport.port == x.sender.port
    ensures m.to == x.recipient.email
    ensures m.transport.secure == SecureFor(x.sender.port, x.sender.secure)
    ensures m.from == FromHeader(c.brand, x.sender.email)
    ensures m.subject == Personalize(x.template.subject, x.recipient.name)
    ensures m.html == Personalize(x.template.htmlBody, x.recipient.name)
  {
    var snd := x.sender;
    Mail(Transport(snd.host, snd.port, SecureFor(snd.port, snd.secure), snd.email, snd.appPassword),
         FromHeader(c.brand, snd.email), x.recipient.email,
         Personalize(x.template.subject, x.recipient.name), Personalize(x.template.htmlBody, x.recipient.name))
  }

  /** Everything an attempt with sender `k` and template `tpos` looks up exists. */
  predicate Ready(c: Config, s: RunState, k: nat, tpos: nat)
  {
    && k < |c.active| && k < |s.states| && c.active[k] < |s.senders|
    && tpos < |c.selected| && c.selected[tpos] < |s.templates|
    && s.recipientIndex < |s.round| && s.round[s.recipientIndex] < |s.recipients|
  }

  /** The records every attempt makes on the sender's side, whatever the
      transport answers: the sender's persisted counter and its in-run state
      (`finished` once the counter reaches the daily limit), the chosen wait,
      and the send handed to the transport. */
  function Charged(c: Config, s: RunState, k: nat, tpos: nat, wait: int): RunState
    requires Ready(c, s, k, tpos)
  {
    var p := c.active[k];
    var snd := s.senders[p];
    var count := s.states[k].sentCount + 1;
    s.(senders := s.senders[p := snd.(sentCount := snd.sentCount + 1)],
       states := s.states[k := SenderState(count, s.states[k].finished || count >= snd.dailyLimit)],
       delays := s.delays + [wait],
       outbox := s.outbox + [Dispatch(snd, s.recipients[s.round[s.recipientIndex]], s.templates[c.selected[tpos]])])
  }

  /** The `try`/`catch` body for sender `k`, template `tpos` and the recipient at
      the cursor, waiting `wait` seconds, followed by `recipientIndex++`. */
  function Attempt(c: Config, s: RunState, k: nat, tpos: nat, o: Outcome, wait: int): RunState
    requires Ready(c, s, k, tpos)
  {
    var snd := s.senders[c.active[k]];
    var ri := s.round[s.recipientIndex];
    var rcp := s.recipients[ri];
    var ti := c.selected[tpos];
    var tpl := s.templates[ti];
    var s1 := Charged(c, s, k, tpos, wait).(
      recipientIndex := s.recipientIndex + 1,
      logs := s.logs + AttemptLines(c, s, k, tpos, o, wait));
    if o.Delivered? then
      s1.(recipients := s.recipients[ri := rcp.(status := Sent)],
          templates := s.templates[ti := tpl.(sentCount := tpl.sentCount + 1)],
          entries := s.entries + [LogEntry(snd.email, rcp.email, None)],
          totalSuccesses := s.totalSuccesses + 1)
    else
      s1.(recipients := s.recipients[ri := rcp.(status := Failed)],
          entries := s.entries + [LogEntry(snd.email, rcp.email, Some(ErrorText(o)))],
          totalFailures := s.totalFailures + 1)
  }

  /** The lines one attempt logs, in order: the send, its result, the quota
      line when the sender just reached its limit, and the wait. */
  function AttemptLines(c: Config, s: RunState, k: nat, tpos: nat, o: Outcome, wait: int): seq<LogLine>
    requires Ready(c, s, k, tpos)
  {
    var snd := s.senders[c.active[k]];
    var rcp := s.recipients[s.round[s.recipientIndex]];
    var tpl := s.templates[c.selected[tpos]];
    var result := if o.Delivered? then SentOk(s.roundNumber, snd.email, rcp.email, tpl.name)
                  else SendFailed(s.roundNumber, snd.email, rcp.email, ErrorText(o));
    [Sending(s.roundNumber, snd.email, rcp.email, tpl.name), result]
    + (if s.states[k].sentCount + 1 >= snd.dailyLimit then [QuotaReached(snd.email)] else [])
    + [Waiting(snd.email, wait)]
  }

  /** What happens to a drawn sender before any send: skipped when already
      `finished`, marked `finished` with a line when at quota, else attempted. */
  function AfterDraw(c: Config, s: RunState, k: nat, tpos: nat, d: Draws): RunState
    requires ValidState(c, s) && k < |c.active| && tpos < |c.selected| && DrawsOk(d)
    requires s.recipientIndex < |s.round|
  {
    if s.states[k].finished then s
    else if AtQuota(c, s, k) then
      s.(states := s.states[k := s.states[k].(finished := true)],
         logs := s.logs + [QuotaSkip(s.senders[c.active[k]].email)])
    else Attempt(c, s, k, tpos, d.outcome, RandomDelay(c.minDelay, c.maxDelay, d.delayDraw))
  }

  /** The two draws of an iteration: both pools refilled when empty, then one
      sender and one template drawn without replacement. Both draws always
      succeed (`DrawsSucceed`), so the source's branch for a failed draw has no
      counterpart here. */
  function DrawBoth(nSenders: nat, nTemplates: nat, senders: seq<nat>, templates: seq<nat>, d: Draws)
    : (r: (nat, nat, seq<nat>, seq<nat>))
    requires nSenders > 0 && nTemplates > 0 && DrawsOk(d)
    requires Below(senders, nSenders) && Below(templates, nTemplates)
    ensures r.0 < nSenders && r.1 < nTemplates
    ensures Below(r.2, nSenders) && Below(r.3, nTemplates)
  {
    var sp := Refill(senders, nSenders);
    var tp := Refill(templates, nTemplates);
    DrawsSucceed(senders, nSenders, d.senderDraw);
    DrawsSucceed(templates, nTemplates, d.templateDraw);
    DrawBelow(sp, d.senderDraw, nSenders);
    DrawBelow(tp, d.templateDraw, nTemplates);
    var ds := Draw(sp, d.senderDraw).value;
    var dt := Draw(tp, d.templateDraw).value;
    (ds.0, dt.0, ds.1, dt.1)
  }

  /** Replacing the pools by valid ones keeps the invariant. */
  lemma PoolsValid(c: Config, s: RunState, senders: seq<nat>, templates: seq<nat>)
    requires ValidState(c, s) && Below(senders, |c.active|) && Below(templates, |c.selected|)
    ensures ValidState(c, s.(availSenders := senders, availTemplates := templates))
  {
  }

  /** One pass of the inner `while` once the pause gate is open. The boolean is
      true when the loop is left because every sender is `finished`. */
  function Iterate(c: Config, s: RunState, d: Draws): (RunState, bool)
    requires ValidState(c, s) && DrawsOk(d) && s.recipientIndex < |s.round|
  {
    if EveryoneFinished(s.states) then (s.(logs := s.logs + [AllFinished(s.roundNumber)]), true)
    else if LimitReached(c, s) then (s, false)
    else
      var r := DrawBoth(|c.active|, |c.selected|, s.availSenders, s.availTemplates, d);
      PoolsValid(c, s, r.2, r.3);
      (AfterDraw(c, s.(availSenders := r.2, availTemplates := r.3), r.0, r.1, d), false)
  }

  // ---------------------------------------------------------------------
  // Round boundaries
  // ---------------------------------------------------------------------

  function ClearFinished(states: seq<SenderState>): (r: seq<SenderState>)
    ensures |r| == |states|
    ensures forall k :: 0 <= k < |states| ==> r[k] == states[k].(finished := false)
  {
    seq(|states|, k requires 0 <= k < |states| => states[k].(finished := false))
  }

  /** The top of the outer loop: re-query the `pending` and `failed` recipients; stop
      when there are none, otherwise announce the round, clear every `finished`
      flag and restart the cursor. The boolean is true when a round begins. */
  function StartRound(s: RunState): (RunState, bool)
  {
    var due := Due(s.recipients);
    if due == [] then (s.(logs := s.logs + [NothingLeft(s.roundNumber)]), false)
    else
      (s.(logs := s.logs + [RoundStart(s.roundNumber), RoundSize(s.roundNumber, |due|)],
          states := ClearFinished(s.states), round := due, recipientIndex := 0), true)
  }

  /** The bottom of the outer loop: close the round, then stop when no recipient is
      `failed`, else announce how many are and move to the next round number. The
      boolean is true when another round follows. */
  function EndRound(s: RunState): (RunState, bool)
  {
    var failed := CountStatus(s.recipients, Failed);
    var closed := s.logs + [RoundEnd(s.roundNumber)];
    if failed == 0 then (s.(logs := closed + [NoFailedLeft]), false)
    else (s.(logs := closed + [FailedRemain(failed)], roundNumber := s.roundNumber + 1), true)
  }

  /** The closing line `sendCampaign` appends after the outer loop. */
  function Finish(s: RunState): RunState
  {
    s.(logs := s.logs + [Summary(s.roundNumber, s.totalSuccesses, s.totalFailures)])
  }

  // ---------------------------------------------------------------------
  // Lemmas
  // ---------------------------------------------------------------------

  /** Both draws succeed: `resetIfEmpty` refills an empty pool from a non-empty
      list, so the branch that logs "Không có sender hoặc template khả dụng" is
      never taken. */
  lemma DrawsSucceed(pool: seq<nat>, n: nat, u: real)
    requires n > 0 && IsUnit(u)
    ensures Draw(Refill(pool, n), u).Some?
  {
  }

  /** Once successes reach `totalLimit`, and some sender is not `finished`, an
      iteration changes nothing and does not advance the cursor: the inner loop
      repeats forever. */
  lemma LimitSpins(c: Config, s: RunState, d: Draws)
    requires ValidState(c, s) && DrawsOk(d) && s.recipientIndex < |s.round|
    requires LimitReached(c, s) && !EveryoneFinished(s.states)
    ensures Iterate(c, s, d) == (s, false)
  {
  }

  /** The attempt updates the store and the counters consistently: the recipient at
      the cursor becomes `sent` on delivery and `failed` otherwise; the sender's
      persisted and run counters both grow by one whatever the outcome; only a
      delivery bumps the template counter and `totalSuccesses`, only a rejection
      `totalFailures`; one history entry, one mail and one wait are recorded; the
      sender is `finished` exactly when its counter reached the daily limit. */
  lemma AttemptEffects(c: Config, s: RunState, k: nat, tpos: nat, o: Outcome, wait: int)
    requires ValidState(c, s) && k < |c.active| && tpos < |c.selected|
    requires s.recipientIndex < |s.round| && !s.states[k].finished && !AtQuota(c, s, k)
    ensures var r := Attempt(c, s, k, tpos, o, wait);
      var ri := s.round[s.recipientIndex];
      && r.recipients[ri].status == (if o.Delivered? then Sent else Failed)
      && (forall p :: 0 <= p < |s.recipients| && p != ri ==> r.recipients[p] == s.recipients[p])
      && r.senders[c.active[k]].sentCount == s.senders[c.active[k]].sentCount + 1
      && r.states[k].sentCount == s.states[k].sentCount + 1
      && r.states[k].finished == (r.states[k].sentCount >= s.senders[c.active[k]].dailyLimit)
      && r.totalSuccesses == s.totalSuccesses + (if o.Delivered? then 1 else 0)
      && r.totalFailures == s.totalFailures + (if o.Delivered? then 0 else 1)
      && r.templates[c.selected[tpos]].sentCount
         == s.templates[c.selected[tpos]].sentCount + (if o.Delivered? then 1 else 0)
      && |r.entries| == |s.entries| + 1
      && r.entries[|s.entries|].recipientEmail == s.recipients[ri].email
      && r.entries[|s.entries|].senderEmail == s.senders[c.active[k]].email
      && (r.entries[|s.entries|].errorMessage.None? <==> o.Delivered?)
      && r.recipientIndex == s.recipientIndex + 1
  {
  }

  /** The attempt keeps the invariant. */
  lemma AttemptValid(c: Config, s: RunState, k: nat, tpos: nat, o: Outcome, wait: int)
    requires ValidState(c, s) && k < |c.active| && tpos < |c.selected|
    requires s.recipientIndex < |s.round| && !s.states[k].finished && !AtQuota(c, s, k)
    ensures ValidState(c, Attempt(c, s, k, tpos, o, wait))
  {
    var r := Attempt(c, s, k, tpos, o, wait);
    var p := c.active[k];
    var ri := s.round[s.recipientIndex];
    // the sender copy and the state copy move together
    forall k' | 0 <= k' < |c.active| ensures r.states[k'].sentCount == r.senders[c.active[k']].sentCount {
      if k' != k {
        assert c.active[k'] != p;
      }
    }
    // the rest of the round is untouched because the round has no repeats
    forall j | r.recipientIndex <= j < |r.round| ensures r.recipients[r.round[j]].status != Sent {
      assert r.round[j] != ri;
    }
  }

  /** The attempt keeps the run's store accounting. */
  lemma AttemptStore(c: Config, s0: RunState, s: RunState, k: nat, tpos: nat, o: Outcome, wait: int)
    requires Indexed(c, s0) && ValidState(c, s) && StoreProgress(c, s0, s)
    requires k < |c.active| && tpos < |c.selected|
    requires s.recipientIndex < |s.round| && !s.states[k].finished && !AtQuota(c, s, k)
    ensures Indexed(c, Attempt(c, s, k, tpos, o, wait))
    ensures StoreProgress(c, s0, Attempt(c, s, k, tpos, o, wait))
  {
    var r := Attempt(c, s, k, tpos, o, wait);
    var p := c.active[k];
    forall k' | 0 <= k' < |c.active|
      ensures s0.senders[c.active[k']].sentCount <= r.senders[c.active[k']].sentCount
              <= Max(s0.senders[c.active[k']].sentCount, s0.senders[c.active[k']].dailyLimit)
    {
      if k' != k {
        assert c.active[k'] != p;
      }
    }
  }

  /** The attempt keeps the run's ledgers. */
  lemma AttemptLedger(c: Config, s0: RunState, s: RunState, k: nat, tpos: nat, o: Outcome, wait: int)
    requires Indexed(c, s0) && ValidState(c, s) && LedgerProgress(c, s0, s)
    requires k < |c.active| && tpos < |c.selected|
    requires s.recipientIndex < |s.round| && !s.states[k].finished && !AtQuota(c, s, k)
    requires !LimitReached(c, s)
    ensures Indexed(c, Attempt(c, s, k, tpos, o, wait))
    ensures LedgerProgress(c, s0, Attempt(c, s, k, tpos, o, wait))
  {
    var r := Attempt(c, s, k, tpos, o, wait);
    var p := c.active[k];
    var ti := c.selected[tpos];
    assert r.senders == s.senders[p := s.senders[p].(sentCount := s.senders[p].sentCount + 1)];
    SumAtUpdate(s.senders, c.active, SenderCount, p, s.senders[p].(sentCount := s.senders[p].sentCount + 1));
    if o.Delivered? {
      assert r.templates == s.templates[ti := s.templates[ti].(sentCount := s.templates[ti].sentCount + 1)];
      SumAtUpdate(s.templates, c.selected, TemplateCount, ti, s.templates[ti].(sentCount := s.templates[ti].sentCount + 1));
    } else {
      assert r.templates == s.templates;
    }
  }

  /** The attempt only appends to the outputs. */
  lemma AttemptOutput(c: Config, s0: RunState, s: RunState, k: nat, tpos: nat, o: Outcome, wait: int)
    requires ValidState(c, s) && OutputProgress(c, s0, s)
    requires k < |c.active| && tpos < |c.selected|
    requires s.recipientIndex < |s.round| && !s.states[k].finished && !AtQuota(c, s, k)
    ensures OutputProgress(c, s0, Attempt(c, s, k, tpos, o, wait))
  {
    var r := Attempt(c, s, k, tpos, o, wait);
    assert r.entries[..|s0.entries|] == s0.entries by {
      assert r.entries[..|s.entries|] == s.entries;
    }
    assert r.outbox[..|s0.outbox|] == s0.outbox by {
      assert r.outbox[..|s.outbox|] == s.outbox;
    }
    assert r.logs[..|s0.logs|] == s0.logs by {
      assert r.logs[..|s.logs|] == s.logs;
    }
  }

  /** The attempt keeps the invariant and the run's accounting. */
  lemma AttemptKeeps(c: Config, s0: RunState, s: RunState, k: nat, tpos: nat, o: Outcome, wait: int)
    requires ValidState(c, s0) && ValidState(c, s) && Progress(c, s0, s)
    requires k < |c.active| && tpos < |c.selected|
    requires s.recipientIndex < |s.round| && !s.states[k].finished && !AtQuota(c, s, k)
    requires !LimitReached(c, s)
    ensures ValidState(c, Attempt(c, s, k, tpos, o, wait))
    ensures Progress(c, s0, Attempt(c, s, k, tpos, o, wait))
  {
    AttemptValid(c, s, k, tpos, o, wait);
    AttemptStore(c, s0, s, k, tpos, o, wait);
    AttemptLedger(c, s0, s, k, tpos, o, wait);
    AttemptOutput(c, s0, s, k, tpos, o, wait);
  }

  /** A drawn sender that is `finished` or at quota sends nothing: the recipient
      stays at the cursor for a fresh draw, the store and the counters are
      unchanged, and the sender ends up `finished`. */
  lemma QuotaSkipKeepsRecipient(c: Config, s: RunState, k: nat, tpos: nat, d: Draws)
    requires ValidState(c, s) && k < |c.active| && tpos < |c.selected| && DrawsOk(d)
    requires s.recipientIndex < |s.round|
    requires s.states[k].finished || AtQuota(c, s, k)
    ensures var r := AfterDraw(c, s, k, tpos, d);
      && r.recipientIndex == s.recipientIndex
      && r.recipients == s.recipients && r.senders == s.senders && r.templates == s.templates
      && r.entries == s.entries && r.outbox == s.outbox
      && r.totalSuccesses == s.totalSuccesses && r.totalFailures == s.totalFailures
      && r.states[k].finished && r.states[k].sentCount == s.states[k].sentCount
      && (forall k' :: 0 <= k' < |s.states| && k' != k ==> r.states[k'] == s.states[k'])
  {
  }

  /** Outside the two exits an iteration is the two draws followed by `AfterDraw`
      on the state with the shrunk pools. */
  lemma IterateDraws(c: Config, s: RunState, d: Draws) returns (k: nat, tpos: nat, s1: RunState)
    requires ValidState(c, s) && DrawsOk(d) && s.recipientIndex < |s.round|
    requires !EveryoneFinished(s.states) && !LimitReached(c, s)
    ensures k < |c.active| && tpos < |c.selected|
    ensures s1 == s.(availSenders := s1.availSenders, availTemplates := s1.availTemplates)
    ensures (k, tpos, s1.availSenders, s1.availTemplates)
            == DrawBoth(|c.active|, |c.selected|, s.availSenders, s.availTemplates, d)
    ensures ValidState(c, s1) && s1.recipientIndex < |s1.round|
    ensures Iterate(c, s, d) == (AfterDraw(c, s1, k, tpos, d), false)
  {
    var r := DrawBoth(|c.active|, |c.selected|, s.availSenders, s.availTemplates, d);
    PoolsValid(c, s, r.2, r.3);
    k, tpos, s1 := r.0, r.1, s.(availSenders := r.2, availTemplates := r.3);
  }

  lemma ProgressReflexive(c: Config, s: RunState)
    requires ValidState(c, s)
    ensures Progress(c, s, s)
  {
    assert s.entries[..|s.entries|] == s.entries;
    assert s.outbox[..|s.outbox|] == s.outbox;
    assert s.logs[..|s.logs|] == s.logs;
  }

  /** Changing only the pools keeps the accounting. */
  lemma PoolsOnly(c: Config, s0: RunState, s: RunState, s1: RunState)
    requires ValidState(c, s0) && ValidState(c, s) && ValidState(c, s1) && Progress(c, s0, s)
    requires s1 == s.(availSenders := s1.availSenders, availTemplates := s1.availTemplates)
    ensures Progress(c, s0, s1)
  {
  }

  /** Marking a sender at quota `finished`, with a log line, keeps the invariant. */
  lemma QuotaMarkValid(c: Config, s: RunState, k: nat, line: LogLine)
    requires ValidState(c, s) && k < |c.active| && AtQuota(c, s, k)
    ensures ValidState(c, s.(states := s.states[k := s.states[k].(finished := true)], logs := s.logs + [line]))
  {
    var r := s.(states := s.states[k := s.states[k].(finished := true)], logs := s.logs + [line]);
    forall k' | 0 <= k' < |c.active| && r.states[k'].finished ensures AtQuota(c, r, k') {
      if k' != k {
        assert r.states[k'] == s.states[k'];
      }
    }
  }

  /** Appending log lines, with the store, the ledgers and the other outputs
      untouched, keeps the accounting. */
  lemma LogsOnly(c: Config, s0: RunState, s: RunState, r: RunState)
    requires ValidState(c, s0) && ValidState(c, s) && ValidState(c, r) && Progress(c, s0, s)
    requires r.senders == s.senders && r.templates == s.templates && r.recipients == s.recipients
    requires r.entries == s.entries && r.outbox == s.outbox && r.delays == s.delays
    requires r.totalSuccesses == s.totalSuccesses && r.totalFailures == s.totalFailures
    requires |s.logs| <= |r.logs| && r.logs[..|s.logs|] == s.logs
    ensures Progress(c, s0, r)
  {
    assert r.logs[..|s0.logs|] == s.logs[..|s0.logs|];
  }

  /** What follows the draws keeps the invariant and the accounting. */
  lemma AfterDrawKeeps(c: Config, s0: RunState, s: RunState, k: nat, tpos: nat, d: Draws)
    requires ValidState(c, s0) && ValidState(c, s) && Progress(c, s0, s)
    requires k < |c.active| && tpos < |c.selected| && DrawsOk(d)
    requires s.recipientIndex < |s.round| && !LimitReached(c, s)
    ensures ValidState(c, AfterDraw(c, s, k, tpos, d))
    ensures Progress(c, s0, AfterDraw(c, s, k, tpos, d))
    ensures AfterDraw(c, s, k, tpos, d).round == s.round
    ensures AfterDraw(c, s, k, tpos, d).roundNumber == s.roundNumber
  {
    var r := AfterDraw(c, s, k, tpos, d);
    if s.states[k].finished {
    } else if AtQuota(c, s, k) {
      QuotaMarkValid(c, s, k, QuotaSkip(s.senders[c.active[k]].email));
      assert r.logs[..|s.logs|] == s.logs;
      LogsOnly(c, s0, s, r);
    } else {
      AttemptKeeps(c, s0, s, k, tpos, d.outcome, RandomDelay(c.minDelay, c.maxDelay, d.delayDraw));
    }
  }

  /** Every iteration keeps the invariant and the run's accounting, stays in the
      same round, and leaves the loop only with the cursor in place. */
  lemma IterateKeeps(c: Config, s0: RunState, s: RunState, d: Draws)
    requires ValidState(c, s0) && ValidState(c, s) && Progress(c, s0, s)
    requires DrawsOk(d) && s.recipientIndex < |s.round|
    ensures ValidState(c, Iterate(c, s, d).0)
    ensures Progress(c, s0, Iterate(c, s, d).0)
    ensures Iterate(c, s, d).0.round == s.round
    ensures Iterate(c, s, d).0.roundNumber == s.roundNumber
    ensures Iterate(c, s, d).1 ==> Iterate(c, s, d).0.recipientIndex == s.recipientIndex
  {
    var r := Iterate(c, s, d).0;
    if EveryoneFinished(s.states) {
      assert r.logs[..|s.logs|] == s.logs;
      LogsOnly(c, s0, s, r);
    } else if !LimitReached(c, s) {
      var k, tpos, s1 := IterateDraws(c, s, d);
      PoolsOnly(c, s0, s, s1);
      AfterDrawKeeps(c, s0, s1, k, tpos, d);
    }
  }

  /** An iteration only appends to the progress log. */
  lemma IterateExtendsLogs(c: Config, s: RunState, d: Draws)
    requires ValidState(c, s) && DrawsOk(d) && s.recipientIndex < |s.round|
    ensures |s.logs| <= |Iterate(c, s, d).0.logs| && Iterate(c, s, d).0.logs[..|s.logs|] == s.logs
  {
    ProgressReflexive(c, s);
    IterateKeeps(c, s, s, d);
  }

  /** A round begins exactly when some recipient is `pending` or `failed`; its
      recipients are exactly those, in store order, and every `finished` flag is
      cleared. */
  lemma StartRoundQuery(c: Config, s: RunState)
    requires ValidState(c, s)
    ensures var (r, go) := StartRound(s);
      && (go <==> exists p :: 0 <= p < |s.recipients| && s.recipients[p].status != Sent)
      && (go ==> (forall p :: p in r.round <==> 0 <= p < |s.recipients| && s.recipients[p].status != Sent)
                 && r.recipientIndex == 0 && |r.round| > 0
                 && (forall k :: 0 <= k < |r.states| ==> !r.states[k].finished))
      && ValidState(c, r)
      && r.recipients == s.recipients && r.senders == s.senders
  {
    var due := Due(s.recipients);
    DueSpec(s.recipients);
    if due != [] {
      assert s.recipients[due[0]].status != Sent;
      var r := StartRound(s).0;
      assert r == s.(logs := r.logs, states := ClearFinished(s.states), round := due, recipientIndex := 0);
    }
  }

  /** StartRound keeps the run's accounting. */
  lemma StartRoundKeeps(c: Config, s0: RunState, s: RunState)
    requires ValidState(c, s0) && ValidState(c, s) && Progress(c, s0, s)
    ensures ValidState(c, StartRound(s).0) && Progress(c, s0, StartRound(s).0)
  {
    StartRoundQuery(c, s);
    var r := StartRound(s).0;
    assert r.logs[..|s.logs|] == s.logs;
    LogsOnly(c, s0, s, r);
  }

  /** Another round follows exactly when some recipient is still `failed`. */
  lemma EndRoundDecision(c: Config, s0: RunState, s: RunState)
    requires ValidState(c, s0) && ValidState(c, s) && Progress(c, s0, s)
    ensures EndRound(s).1 <==> exists p :: 0 <= p < |s.recipients| && s.recipients[p].status == Failed
    ensures ValidState(c, EndRound(s).0) && Progress(c, s0, EndRound(s).0)
    ensures EndRound(s).0.recipients == s.recipients && EndRound(s).0.states == s.states
  {
    var r := EndRound(s).0;
    assert r == s.(logs := r.logs, roundNumber := r.roundNumber);
    assert r.logs[..|s.logs|] == s.logs;
    LinesValid(c, s, r.logs, r.roundNumber);
    LogsOnly(c, s0, s, r);
  }

  /** The log and the round number play no part in the invariant. */
  lemma LinesValid(c: Config, s: RunState, logs: seq<LogLine>, roundNumber: nat)
    requires ValidState(c, s)
    ensures ValidState(c, s.(logs := logs, roundNumber := roundNumber))
  {
  }

  /** Every active sender has used its quota. */
  predicate AllAtQuota(c: Config, s: RunState)
    requires ValidState(c, s)
  {
    forall k :: 0 <= k < |c.active| ==> AtQuota(c, s, k)
  }

  /** With every sender at quota an iteration sends nothing and the senders stay at quota. */
  lemma AllAtQuotaNoSend(c: Config, s: RunState, d: Draws)
    requires ValidState(c, s) && DrawsOk(d) && s.recipientIndex < |s.round| && AllAtQuota(c, s)
    ensures var r := Iterate(c, s, d).0;
      && r.recipients == s.recipients && r.senders == s.senders && r.outbox == s.outbox
      && r.recipientIndex == s.recipientIndex && r.totalSuccesses == s.totalSuccesses
      && r.totalFailures == s.totalFailures && r.entries == s.entries
    ensures ValidState(c, Iterate(c, s, d).0) && AllAtQuota(c, Iterate(c, s, d).0)
  {
    var r := Iterate(c, s, d).0;
    ProgressReflexive(c, s);
    IterateKeeps(c, s, s, d);
    if EveryoneFinished(s.states) {
      assert r == s.(logs := r.logs);
    } else if LimitReached(c, s) {
      assert r == s;
    } else {
      var k, tpos, s1 := IterateDraws(c, s, d);
      assert AtQuota(c, s, k);
      assert AtQuota(c, s1, k);
      QuotaSkipKeepsRecipient(c, s1, k, tpos, d);
      forall k' | 0 <= k' < |c.active| ensures AtQuota(c, r, k') {
        assert AtQuota(c, s, k');
        assert r.states[k'].sentCount == s.states[k'].sentCount;
      }
    }
  }

  /** Stalemate: when every sender is at quota and some recipient is `failed`,
      the round ends with another round announced, that round begins again with
      the same recipients, and every sender is still at quota, so rounds repeat
      without end. */
  lemma StalemateRepeats(c: Config, s: RunState)
    requires ValidState(c, s) && AllAtQuota(c, s)
    requires exists p :: 0 <= p < |s.recipients| && s.recipients[p].status == Failed
    ensures EndRound(s).1
    ensures StartRound(EndRound(s).0).1
    ensures var r := StartRound(EndRound(s).0).0;
      ValidState(c, r) && AllAtQuota(c, r) && r.recipients == s.recipients
  {
    var e := EndRound(s).0;
    assert ValidState(c, e) && e.senders == s.senders && e.states == s.states;
    StartRoundQuery(c, e);
    var r := StartRound(e).0;
    assert r.states == ClearFinished(s.states) && r.senders == s.senders;
    forall k | 0 <= k < |c.active| ensures AtQuota(c, r, k) {
      assert AtQuota(c, s, k);
    }
  }

  /** How a finished run leaves the store and the log: no recipient is `failed`;
      the last line says either that nobody was left, in which case every
      recipient is `sent`, or that no failed recipient is left. */
  predicate Completed(s: RunState)
  {
    && |s.logs| > 0
    && (s.logs[|s.logs| - 1].NothingLeft? || s.logs[|s.logs| - 1] == NoFailedLeft)
    && (s.logs[|s.logs| - 1].NothingLeft? ==> forall p :: 0 <= p < |s.recipients| ==> s.recipients[p].status == Sent)
    && (forall p :: 0 <= p < |s.recipients| ==> s.recipients[p].status != Failed)
  }

  /** The campaign stops, at the top or at the bottom of the outer loop, only
      in a completed state. */
  lemma StopIsCompletion(c: Config, s: RunState)
    requires ValidState(c, s)
    ensures !StartRound(s).1 ==> Completed(StartRound(s).0)
    ensures !EndRound(s).1 ==> Completed(EndRound(s).0)
  {
    StartRoundQuery(c, s);
  }
}
