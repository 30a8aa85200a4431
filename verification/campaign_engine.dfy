/** The stateful side of `sendCampaign`: the job-status map behind pause and
    resume, the registry of progress subscribers, the collections the run
    reads and writes, and the run itself, whose steps are proved to perform
    the functions of `CampaignRounds` in place. */
module CampaignEngine {
  import opened Common
  import opened CampaignModel
  import opened CampaignRounds

  // ---------------------------------------------------------------------
  // Pause and resume (`jobStatusMap`, `pauseCampaign`, `resumeCampaign`)
  // ---------------------------------------------------------------------

  datatype JobStatus = Running | Paused

  /** `!jobId` is false: the id is present and not empty. */
  predicate Truthy(jobId: Option<string>)
  {
    jobId.Some? && jobId.value != ""
  }

  /** The key a plain object uses for `jobId`: an absent id becomes the text `undefined`. */
  function JobKey(jobId: Option<string>): string
  {
    if jobId.Some? then jobId.value else "undefined"
  }

  /** Two given job ids share a key only when they are equal, but a campaign
      started without an id shares its key with the job named `undefined`. */
  lemma JobKeyCollides(a: string, b: string)
    ensures JobKey(Some(a)) == JobKey(Some(b)) <==> a == b
    ensures JobKey(None) == JobKey(Some("undefined"))
  {
  }

  /** The status map after a pause or resume request, and the HTTP status of the reply. */
  function SetStatus(m: map<string, JobStatus>, jobId: Option<string>, st: JobStatus): (r: (int, map<string, JobStatus>))
    ensures r.0 == 400 <==> !Truthy(jobId)
    ensures r.0 == 400 || r.0 == 200
    ensures !Truthy(jobId) ==> r.1 == m
    ensures Truthy(jobId) ==> r.1.Keys == m.Keys + {jobId.value} && r.1[jobId.value] == st
    ensures forall j :: j in m && (jobId.None? || j != jobId.value) ==> j in r.1 && r.1[j] == m[j]
  {
    if !Truthy(jobId) then (400, m) else (200, m[jobId.value := st])
  }

  /** Pausing or resuming twice is the same as once. */
  lemma SetStatusIdempotent(m: map<string, JobStatus>, jobId: Option<string>, st: JobStatus)
    ensures SetStatus(SetStatus(m, jobId, st).1, jobId, st) == SetStatus(m, jobId, st)
  {
    if Truthy(jobId) {
      assert m[jobId.value := st][jobId.value := st] == m[jobId.value := st];
    }
  }

  /** Of a pause and a resume for the same job, the later one decides. */
  lemma SetStatusLastWins(m: map<string, JobStatus>, jobId: Option<string>, a: JobStatus, b: JobStatus)
    ensures SetStatus(SetStatus(m, jobId, a).1, jobId, b).1 == SetStatus(m, jobId, b).1
  {
  }

  /** `jobStatusMap[key] === 'paused'` */
  predicate PausedIn(status: map<string, JobStatus>, key: string)
  {
    key in status && status[key] == Paused
  }

  class JobRegistry {
    var status: map<string, JobStatus>

    constructor ()
      ensures status == map[]
    {
      status := map[];
    }

    predicate IsPaused(key: string)
      reads this
    {
      PausedIn(status, key)
    }

    /** `pauseCampaign`: 400 without a job id, otherwise the job is marked paused,
        whether or not such a job exists. */
    method Pause(jobId: Option<string>) returns (code: int)
      modifies this
      ensures (code, status) == SetStatus(old(status), jobId, Paused)
    {
      if !Truthy(jobId) {
        return 400;
      }
      status := status[jobId.value := Paused];
      code := 200;
    }

    /** `resumeCampaign` */
    method Resume(jobId: Option<string>) returns (code: int)
      modifies this
      ensures (code, status) == SetStatus(old(status), jobId, Running)
    {
      if !Truthy(jobId) {
        return 400;
      }
      status := status[jobId.value := Running];
      code := 200;
    }

    /** `jobStatusMap[jobId] = 'running'` at the start of a run. */
    method Start(key: string)
      modifies this
      ensures status == old(status)[key := Running]
    {
      status := status[key := Running];
    }
  }

  // ---------------------------------------------------------------------
  // Progress subscribers (`sseClients`, `campaignLogStream`, `sendSseLog`)
  // ---------------------------------------------------------------------

  /** One `res.write` on the response stream of a subscriber connection,
      carrying the event for one progress line. */
  datatype Write = Write(connection: nat, line: LogLine)

  /** The bytes of a write: the event frame of the rendered line. */
  function Data(w: Write): string
  {
    Frame(Render(w.line))
  }

  /** The writes `sendSseLog` makes for `lines` while the subscriber map is
      `clients`: one frame per line to the job's subscriber, none without one.
      A run without job id looks up `undefined`, which no subscriber key equals. */
  function Published(clients: map<string, nat>, jobId: Option<string>, lines: seq<LogLine>): (r: seq<Write>)
    ensures !(jobId.Some? && jobId.value in clients) ==> r == []
    ensures jobId.Some? && jobId.value in clients ==> |r| == |lines|
    ensures forall i :: 0 <= i < |r| ==> r[i].connection == clients[jobId.value]
  {
    if !(jobId.Some? && jobId.value in clients) || lines == [] then []
    else Published(clients, jobId, lines[..|lines| - 1]) + [Write(clients[jobId.value], lines[|lines| - 1])]
  }

  /** Each published write carries the frame of the line at the same position. */
  lemma {:induction false} PublishedLines(clients: map<string, nat>, jobId: Option<string>, lines: seq<LogLine>, i: nat)
    requires jobId.Some? && jobId.value in clients && i < |lines|
    ensures Published(clients, jobId, lines)[i] == Write(clients[jobId.value], lines[i])
    decreases |lines|
  {
    if i < |lines| - 1 {
      PublishedLines(clients, jobId, lines[..|lines| - 1], i);
    }
  }

  /** Echoing one more line keeps the stream equal to the echo of the log's tail. */
  lemma EchoStep(clients: map<string, nat>, jobId: Option<string>, out0: seq<Write>, logs0: seq<LogLine>, n0: nat, line: LogLine)
    requires n0 <= |logs0|
    ensures out0 + Published(clients, jobId, logs0[n0..]) + Published(clients, jobId, [line])
         == out0 + Published(clients, jobId, (logs0 + [line])[n0..])
  {
    assert (logs0 + [line])[n0..] == logs0[n0..] + [line];
    PublishedAppend(clients, jobId, logs0[n0..], [line]);
  }

  /** Publishing two batches of lines is publishing their concatenation. */
  lemma {:induction false} PublishedAppend(clients: map<string, nat>, jobId: Option<string>, a: seq<LogLine>, b: seq<LogLine>)
    ensures Published(clients, jobId, a + b) == Published(clients, jobId, a) + Published(clients, jobId, b)
    decreases |b|
  {
    if jobId.Some? && jobId.value in clients && b != [] {
      PublishedAppend(clients, jobId, a, b[..|b| - 1]);
      assert (a + b)[..|a + b| - 1] == a + b[..|b| - 1];
    } else if b == [] {
      assert a + b == a;
    }
  }

  class ProgressHub {
    /** `sseClients`: the response stream registered for each job id. */
    var clients: map<string, nat>
    /** Every write made to a subscriber stream, in order. */
    var output: seq<Write>
    /** The streams that have been ended, in order. */
    var ended: seq<nat>

    constructor ()
      ensures clients == map[] && output == [] && ended == []
    {
      clients := map[];
      output := [];
      ended := [];
    }

    /** `campaignLogStream`: a request without job id is answered 400 and its
        stream ended; otherwise the stream becomes the job's only subscriber,
        replacing an earlier one. */
    method Subscribe(jobId: Option<string>, connection: nat) returns (code: int)
      modifies this`clients, this`ended
      ensures !Truthy(jobId) ==> code == 400 && clients == old(clients) && ended == old(ended) + [connection]
      ensures Truthy(jobId) ==> code == 200 && clients == old(clients)[jobId.value := connection] && ended == old(ended)
    {
      if !Truthy(jobId) {
        ended := ended + [connection];
        return 400;
      }
      clients := clients[jobId.value := connection];
      code := 200;
    }

    /** The `close` handler of a subscription: the job id is removed, whichever
        stream is registered for it by then. */
    method Disconnect(jobId: string)
      modifies this`clients
      ensures clients == old(clients) - {jobId}
    {
      clients := clients - {jobId};
    }

    /** `sendSseLog` */
    method Publish(jobId: Option<string>, line: LogLine)
      modifies this`output
      ensures output == old(output) + Published(clients, jobId, [line])
    {
      if jobId.Some? && jobId.value in clients {
        output := output + [Write(clients[jobId.value], line)];
      }
    }

    /** `sseRes.end()` for the job's subscriber, which stays registered. */
    method End(jobId: Option<string>)
      modifies this`ended
      ensures jobId.Some? && jobId.value in clients ==> ended == old(ended) + [clients[jobId.value]]
      ensures !(jobId.Some? && jobId.value in clients) ==> ended == old(ended)
    {
      if jobId.Some? && jobId.value in clients {
        ended := ended + [clients[jobId.value]];
      }
    }
  }

  // ---------------------------------------------------------------------
  // Requests served while a run is in progress
  // ---------------------------------------------------------------------

  datatype Request =
    | PauseRequest(jobId: Option<string>)
    | ResumeRequest(jobId: Option<string>)
    | SubscribeRequest(jobId: Option<string>, connection: nat)
    | ConnectionClosed(key: string)

  /** What a request does to the job-status map, the subscriber map and the ended streams. */
  datatype Control = Control(status: map<string, JobStatus>, clients: map<string, nat>, ended: seq<nat>)

  function Handle(ctl: Control, r: Request): Control
  {
    match r
    case PauseRequest(j) => ctl.(status := SetStatus(ctl.status, j, Paused).1)
    case ResumeRequest(j) => ctl.(status := SetStatus(ctl.status, j, Running).1)
    case SubscribeRequest(j, conn) =>
      if Truthy(j) then ctl.(clients := ctl.clients[j.value := conn]) else ctl.(ended := ctl.ended + [conn])
    case ConnectionClosed(j) => ctl.(clients := ctl.clients - {j})
  }

  /** The requests handled in order. */
  function HandleAll(ctl: Control, rs: seq<Request>): (r: Control)
    ensures |ctl.ended| <= |r.ended| && r.ended[..|ctl.ended|] == ctl.ended
  {
    if rs == [] then ctl else Handle(HandleAll(ctl, rs[..|rs| - 1]), rs[|rs| - 1])
  }

  /** A closed subscription stays closed until a new one arrives for the job: after
      the requests, a job id is subscribed exactly when its last subscribe or close
      request was a subscribe. */
  lemma {:induction false} LastSubscriptionWins(ctl: Control, rs: seq<Request>, j: string)
    requires forall i :: 0 <= i < |rs| ==> !rs[i].SubscribeRequest? || rs[i].jobId != Some(j)
    requires forall i :: 0 <= i < |rs| ==> !rs[i].ConnectionClosed? || rs[i].key != j
    ensures (j in HandleAll(ctl, rs).clients) == (j in ctl.clients)
    ensures j in ctl.clients ==> HandleAll(ctl, rs).clients[j] == ctl.clients[j]
  {
    if rs != [] {
      LastSubscriptionWins(ctl, rs[..|rs| - 1], j);
    }
  }

  // ---------------------------------------------------------------------
  // The collections the run works on
  // ---------------------------------------------------------------------

  /** The four collections: `Sender`, `Recipient`, `Template` and `Log`. A
      document's `_id` is its position. */
  class Store {
    var senders: seq<Sender>
    var recipients: seq<Recipient>
    var templates: seq<Template>
    var entries: seq<LogEntry>

    constructor (senders: seq<Sender>, recipients: seq<Recipient>, templates: seq<Template>, entries: seq<LogEntry>)
      ensures this.senders == senders && this.recipients == recipients
      ensures this.templates == templates && this.entries == entries
    {
      this.senders := senders;
      this.recipients := recipients;
      this.templates := templates;
      this.entries := entries;
    }
  }

  /** One scheduling point of the run: the requests served since the previous
      one, then the draws for the next pass of the inner loop. */
  datatype Tick = Tick(requests: seq<Request>, draws: Draws)

  /** The job's subscription is the same in both maps. */
  predicate SameSubscriber(c0: map<string, nat>, c1: map<string, nat>, jobId: Option<string>)
  {
    jobId.Some? ==> (jobId.value in c0 <==> jobId.value in c1) && (jobId.value in c0 ==> c0[jobId.value] == c1[jobId.value])
  }

  /** Requests that neither subscribe the run's job nor close its subscription. */
  predicate Quiet(rs: seq<Request>, jobId: Option<string>)
  {
    jobId.Some? ==>
      forall i :: 0 <= i < |rs| ==>
        !(rs[i].SubscribeRequest? && rs[i].jobId == jobId) && !(rs[i].ConnectionClosed? && rs[i].key == jobId.value)
  }

  /** Quiet requests leave the job's subscription as it was. */
  lemma QuietKeepsSubscriber(ctl: Control, rs: seq<Request>, jobId: Option<string>)
    requires Quiet(rs, jobId)
    ensures SameSubscriber(ctl.clients, HandleAll(ctl, rs).clients, jobId)
  {
    if jobId.Some? {
      LastSubscriptionWins(ctl, rs, jobId.value);
    }
  }

  /** What gets published depends only on the job's own subscription. */
  lemma {:induction false} PublishedSameSubscriber(c0: map<string, nat>, c1: map<string, nat>, jobId: Option<string>, lines: seq<LogLine>)
    requires SameSubscriber(c0, c1, jobId)
    ensures Published(c0, jobId, lines) == Published(c1, jobId, lines)
    decreases |lines|
  {
    if lines != [] {
      PublishedSameSubscriber(c0, c1, jobId, lines[..|lines| - 1]);
    }
  }

  /** An echo of the log from `n0` on, followed by the echo of the lines a later
      step appended, is the echo of the whole log from `n0` on, provided the job's
      subscription did not change in between. */
  lemma EchoExtend(c0: map<string, nat>, c1: map<string, nat>, jobId: Option<string>, out0: seq<Write>, n0: nat,
                   logs0: seq<LogLine>, out1: seq<Write>, logs1: seq<LogLine>, out2: seq<Write>)
    requires n0 <= |logs0| <= |logs1| && logs1[..|logs0|] == logs0
    requires SameSubscriber(c0, c1, jobId)
    requires out1 == out0 + Published(c0, jobId, logs0[n0..])
    requires out2 == out1 + Published(c1, jobId, logs1[|logs0|..])
    ensures out2 == out0 + Published(c1, jobId, logs1[n0..])
  {
    PublishedSameSubscriber(c0, c1, jobId, logs0[n0..]);
    assert logs1[n0..] == logs0[n0..] + logs1[|logs0|..];
    PublishedAppend(c1, jobId, logs0[n0..], logs1[|logs0|..]);
  }

  /** A prefix of a prefix is a prefix. */
  lemma PrefixOfPrefix(a: seq<LogLine>, b: seq<LogLine>, c: seq<LogLine>)
    requires |a| <= |b| <= |c| && b[..|a|] == a && c[..|b|] == b
    ensures c[..|a|] == a
  {
    assert c[..|a|] == c[..|b|][..|a|];
  }

  /** A point of the run as seen from outside: the request-side state, the run's
      state and the writes made so far. */
  datatype At = At(ctl: Control, s: RunState, out: seq<Write>)

  /** One pass of the inner loop, from the point before it to the point after it. */
  datatype Pass = Pass(before: At, after: At)

  /** What one pass does: the tick's requests are served; the log only grows and
      every new line goes to the job's subscriber as it stands after the requests;
      when the requests leave the job paused the run's state is untouched (no
      mail, no status change, no log line), otherwise one `Iterate` runs. */
  ghost predicate PassOk(c: Config, jobId: Option<string>, t: Tick, p: Pass)
  {
    && p.after.ctl == HandleAll(p.before.ctl, t.requests)
    && |p.before.s.logs| <= |p.after.s.logs| && p.after.s.logs[..|p.before.s.logs|] == p.before.s.logs
    && p.after.out == p.before.out + Published(p.after.ctl.clients, jobId, p.after.s.logs[|p.before.s.logs|..])
    && (PausedIn(p.after.ctl.status, JobKey(jobId)) ==> p.after.s == p.before.s && p.after.out == p.before.out)
    && (!PausedIn(p.after.ctl.status, JobKey(jobId)) ==>
          && ValidState(c, p.before.s) && DrawsOk(t.draws) && p.before.s.recipientIndex < |p.before.s.round|
          && p.after.s == Iterate(c, p.before.s, t.draws).0)
  }

  /** `trace` records passes made on the ticks from position `from` on, one each. */
  ghost predicate Passes(c: Config, jobId: Option<string>, ticks: seq<Tick>, from: nat, trace: seq<Pass>)
  {
    from + |trace| <= |ticks| && forall i :: 0 <= i < |trace| ==> PassAt(c, jobId, ticks, from, trace, i)
  }

  /** The pass at position `i` of `trace` was made on the tick at `from + i`. */
  ghost predicate PassAt(c: Config, jobId: Option<string>, ticks: seq<Tick>, from: nat, trace: seq<Pass>, i: nat)
    requires i < |trace| && from + i < |ticks|
  {
    PassOk(c, jobId, ticks[from + i], trace[i])
  }

  /** No attempt begins while the job is paused: a recorded pass whose requests
      leave the job paused changes neither the run's state (recipients, senders,
      templates, history, log) nor the output. */
  lemma PausedPassIsIdle(c: Config, jobId: Option<string>, ticks: seq<Tick>, from: nat, trace: seq<Pass>, i: nat)
    requires Passes(c, jobId, ticks, from, trace) && i < |trace|
    requires PausedIn(trace[i].after.ctl.status, JobKey(jobId))
    ensures trace[i].after.s == trace[i].before.s && trace[i].after.out == trace[i].before.out
  {
    assert PassAt(c, jobId, ticks, from, trace, i);
  }

  /** Every other recorded pass is exactly one `Iterate` of the inner loop on
      the tick's draws. */
  lemma RunningPassIterates(c: Config, jobId: Option<string>, ticks: seq<Tick>, from: nat, trace: seq<Pass>, i: nat)
    requires Passes(c, jobId, ticks, from, trace) && i < |trace|
    requires !PausedIn(trace[i].after.ctl.status, JobKey(jobId))
    ensures ValidState(c, trace[i].before.s) && trace[i].before.s.recipientIndex < |trace[i].before.s.round|
    ensures DrawsOk(ticks[from + i].draws)
    ensures trace[i].after.s == Iterate(c, trace[i].before.s, ticks[from + i].draws).0
  {
    assert PassAt(c, jobId, ticks, from, trace, i);
  }

  lemma PassesSnoc(c: Config, jobId: Option<string>, ticks: seq<Tick>, from: nat, trace: seq<Pass>, p: Pass)
    requires Passes(c, jobId, ticks, from, trace) && from + |trace| < |ticks|
    requires PassOk(c, jobId, ticks[from + |trace|], p)
    ensures Passes(c, jobId, ticks, from, trace + [p])
  {
    forall i | 0 <= i < |trace| + 1
      ensures PassAt(c, jobId, ticks, from, trace + [p], i)
    {
      if i < |trace| {
        assert PassAt(c, jobId, ticks, from, trace, i);
        assert (trace + [p])[i] == trace[i];
      }
    }
  }

  lemma PassesAppend(c: Config, jobId: Option<string>, ticks: seq<Tick>, trace: seq<Pass>, more: seq<Pass>)
    requires Passes(c, jobId, ticks, 0, trace) && Passes(c, jobId, ticks, |trace|, more)
    ensures Passes(c, jobId, ticks, 0, trace + more)
  {
    forall i | 0 <= i < |trace + more|
      ensures PassAt(c, jobId, ticks, 0, trace + more, i)
    {
      if i < |trace| {
        assert PassAt(c, jobId, ticks, 0, trace, i);
        assert (trace + more)[i] == trace[i];
      } else {
        assert PassAt(c, jobId, ticks, |trace|, more, i - |trace|);
        assert (trace + more)[i] == more[i - |trace|];
        assert ticks[i] == ticks[|trace| + (i - |trace|)];
      }
    }
  }

  lemma ChainedSnoc(trace: seq<Pass>, a: At, p: Pass)
    requires Chained(trace, a, p.before)
    ensures Chained(trace + [p], a, p.after)
  {
    assert (trace + [p])[..|trace|] == trace;
  }

  /** The passes follow one another, from `a` to `b`. */
  ghost predicate Chained(trace: seq<Pass>, a: At, b: At)
    decreases |trace|
  {
    if trace == [] then b == a
    else Chained(trace[..|trace| - 1], a, trace[|trace| - 1].before) && trace[|trace| - 1].after == b
  }

  // ---------------------------------------------------------------------
  // The run
  // ---------------------------------------------------------------------

  /** The local state of one `sendCampaign` call once the start-up checks passed. */
  class CampaignRun {
    const store: Store
    const jobs: JobRegistry
    const hub: ProgressHub
    const config: Config
    const jobId: Option<string>
    ghost const start: RunState

    var availSenders: seq<nat>
    var availTemplates: seq<nat>
    var states: seq<SenderState>
    var round: seq<nat>
    var recipientIndex: nat
    var roundNumber: nat
    var totalSuccesses: nat
    var totalFailures: nat
    var logs: seq<LogLine>
    var delays: seq<int>
    var outbox: seq<Dispatch>

    /** The run's state as a value. */
    function Snapshot(): RunState
      reads this, store
    {
      RunState(store.senders, store.recipients, store.templates, store.entries,
               availSenders, availTemplates, states, round, recipientIndex, roundNumber,
               totalSuccesses, totalFailures, logs, delays, outbox)
    }

    ghost predicate Valid()
      reads this, store
    {
      ValidState(config, start) && ValidState(config, Snapshot()) && Progress(config, start, Snapshot())
    }

    /** Sets up the pools, the sender states and the counters. */
    constructor (store: Store, jobs: JobRegistry, hub: ProgressHub, config: Config, jobId: Option<string>)
      requires ConfigFor(config, store.senders, store.templates)
      ensures this.store == store && this.jobs == jobs && this.hub == hub
      ensures this.config == config && this.jobId == jobId
      ensures Snapshot() == Initial(config, store.senders, store.recipients, store.templates, store.entries)
      ensures start == Snapshot() && Valid()
    {
      this.store := store;
      this.jobs := jobs;
      this.hub := hub;
      this.config := config;
      this.jobId := jobId;
      availSenders := Positions(|config.active|);
      availTemplates := Positions(|config.selected|);
      states := StatesFor(store.senders, config.active);
      round := [];
      recipientIndex := 0;
      roundNumber := 1;
      totalSuccesses := 0;
      totalFailures := 0;
      logs := [];
      delays := [];
      outbox := [];
      start := Initial(config, store.senders, store.recipients, store.templates, store.entries);
      new;
      InitialValid(config, store.senders, store.recipients, store.templates, store.entries);
    }


    /** The writes made since `out0` are the frames of the lines logged since
        position `n0`, sent to the job's current subscriber. */
    ghost predicate Echoed(out0: seq<Write>, n0: nat)
      reads this`logs, hub`output, hub`clients
    {
      n0 <= |logs| && hub.output == out0 + Published(hub.clients, jobId, logs[n0..])
    }

    /** `logs.push(line)` followed by `sendSseLog(jobId, line)`. */
    method Log(line: LogLine, ghost out0: seq<Write>, ghost n0: nat)
      requires Echoed(out0, n0)
      modifies this`logs, hub`output
      ensures logs == old(logs) + [line]
      ensures Echoed(out0, n0)
    {
      ghost var logs0 := logs;
      logs := logs + [line];
      hub.Publish(jobId, line);
      EchoStep(hub.clients, jobId, out0, logs0, n0, line);
    }

    /** `resetIfEmpty` */
    method ResetIfEmpty()
      modifies this`availSenders, this`availTemplates
      ensures availSenders == Refill(old(availSenders), |config.active|)
      ensures availTemplates == Refill(old(availTemplates), |config.selected|)
    {
      if |availSenders| == 0 {
        availSenders := Positions(|config.active|);
      }
      if |availTemplates| == 0 {
        availTemplates := Positions(|config.selected|);
      }
    }

    /** `getRandomWithoutReplacement(availableSenders)` on a non-empty pool. */
    method TakeSender(u: real) returns (k: nat)
      requires IsUnit(u) && availSenders != []
      modifies this`availSenders
      ensures Draw(old(availSenders), u) == Some((k, availSenders))
    {
      var i := PickIndex(u, |availSenders|);
      k := availSenders[i];
      availSenders := availSenders[..i] + availSenders[i + 1..];
    }

    /** `getRandomWithoutReplacement(availableTemplates)` on a non-empty pool. */
    method TakeTemplate(u: real) returns (tpos: nat)
      requires IsUnit(u) && availTemplates != []
      modifies this`availTemplates
      ensures Draw(old(availTemplates), u) == Some((tpos, availTemplates))
    {
      var i := PickIndex(u, |availTemplates|);
      tpos := availTemplates[i];
      availTemplates := availTemplates[..i] + availTemplates[i + 1..];
    }

    /** Each line in turn: `logs.push(line)` and `sendSseLog(jobId, line)`. */
    method LogAll(lines: seq<LogLine>, ghost out0: seq<Write>, ghost n0: nat)
      requires Echoed(out0, n0)
      modifies this`logs, hub`output
      ensures logs == old(logs) + lines
      ensures Echoed(out0, n0)
    {
      for i := 0 to |lines|
        invariant logs == old(logs) + lines[..i]
        invariant Echoed(out0, n0)
      {
        Log(lines[i], out0, n0);
        assert lines[..i + 1] == lines[..i] + [lines[i]];
      }
    }

    /** The `try`/`catch` around `sendMail` for the recipient at the cursor,
        then `recipientIndex++`: the records are written, then the attempt's
        lines are logged and published. */
    method SendOne(k: nat, tpos: nat, o: Outcome, wait: int, ghost out0: seq<Write>, ghost n0: nat)
      requires Ready(config, Snapshot(), k, tpos) && Echoed(out0, n0)
      modifies this, store, hub`output
      ensures Snapshot() == Attempt(config, old(Snapshot()), k, tpos, o, wait)
      ensures Echoed(out0, n0)
    {
      var lines := AttemptLines(config, Snapshot(), k, tpos, o, wait);
      if o.Delivered? {
        Deliver(k, tpos, wait);
      } else {
        Reject(k, tpos, o, wait);
      }
      LogAll(lines, out0, n0);
    }

    /** The sender-side writes of an attempt, made whatever the transport answers. */
    method Charge(k: nat, tpos: nat, wait: int)
      requires Ready(config, Snapshot(), k, tpos)
      modifies this`states, this`delays, this`outbox, store`senders
      ensures Snapshot() == Charged(config, old(Snapshot()), k, tpos, wait)
    {
      var p := config.active[k];
      var snd := store.senders[p];
      var count := states[k].sentCount + 1;
      var rcp := store.recipients[round[recipientIndex]];
      store.senders := store.senders[p := snd.(sentCount := snd.sentCount + 1)];
      states := states[k := SenderState(count, states[k].finished || count >= snd.dailyLimit)];
      delays := delays + [wait];
      outbox := outbox + [Dispatch(snd, rcp, store.templates[config.selected[tpos]])];
    }

    /** The writes of the `try` block when the transport accepts the message. */
    method Deliver(k: nat, tpos: nat, wait: int)
      requires Ready(config, Snapshot(), k, tpos)
      modifies this`states, this`totalSuccesses, this`delays, this`outbox, this`recipientIndex
      modifies store`recipients, store`senders, store`templates, store`entries
      ensures Snapshot() == Attempt(config, old(Snapshot()), k, tpos, Delivered, wait).(logs := logs)
    {
      var email := store.senders[config.active[k]].email;
      Charge(k, tpos, wait);
      var ri := round[recipientIndex];
      var rcp := store.recipients[ri];
      var ti := config.selected[tpos];
      var tpl := store.templates[ti];
      store.recipients := store.recipients[ri := rcp.(status := Sent)];
      store.templates := store.templates[ti := tpl.(sentCount := tpl.sentCount + 1)];
      store.entries := store.entries + [LogEntry(email, rcp.email, None)];
      totalSuccesses := totalSuccesses + 1;
      recipientIndex := recipientIndex + 1;
    }

    /** The writes of the `catch` block when the transport throws. */
    method Reject(k: nat, tpos: nat, o: Outcome, wait: int)
      requires Ready(config, Snapshot(), k, tpos) && o.Rejected?
      modifies this`states, this`totalFailures, this`delays, this`outbox, this`recipientIndex
      modifies store`recipients, store`senders, store`entries
      ensures Snapshot() == Attempt(config, old(Snapshot()), k, tpos, o, wait).(logs := logs)
    {
      var email := store.senders[config.active[k]].email;
      Charge(k, tpos, wait);
      var ri := round[recipientIndex];
      var rcp := store.recipients[ri];
      store.recipients := store.recipients[ri := rcp.(status := Failed)];
      store.entries := store.entries + [LogEntry(email, rcp.email, Some(ErrorText(o)))];
      totalFailures := totalFailures + 1;
      recipientIndex := recipientIndex + 1;
    }

    /** `resetIfEmpty()` and the two calls of `getRandomWithoutReplacement`. */
    method DrawPair(d: Draws) returns (k: nat, tpos: nat)
      requires DrawsOk(d) && |config.active| > 0 && |config.selected| > 0
      requires Below(availSenders, |config.active|) && Below(availTemplates, |config.selected|)
      modifies this`availSenders, this`availTemplates
      ensures (k, tpos, availSenders, availTemplates)
              == DrawBoth(|config.active|, |config.selected|, old(availSenders), old(availTemplates), d)
    {
      ResetIfEmpty();
      k := TakeSender(d.senderDraw);
      tpos := TakeTemplate(d.templateDraw);
    }

    /** What follows the draws: the `finished` skip, the quota check, or the attempt. */
    method Proceed(k: nat, tpos: nat, d: Draws, ghost out0: seq<Write>, ghost n0: nat)
      requires ValidState(config, Snapshot()) && k < |config.active| && tpos < |config.selected| && DrawsOk(d)
      requires recipientIndex < |round| && Echoed(out0, n0)
      modifies this, store, hub`output
      ensures Snapshot() == AfterDraw(config, old(Snapshot()), k, tpos, d)
      ensures Echoed(out0, n0)
    {
      if states[k].finished {
        return;
      }
      if states[k].sentCount >= store.senders[config.active[k]].dailyLimit {
        states := states[k := states[k].(finished := true)];
        Log(QuotaSkip(store.senders[config.active[k]].email), out0, n0);
        return;
      }
      SendOne(k, tpos, d.outcome, RandomDelay(config.minDelay, config.maxDelay, d.delayDraw), out0, n0);
    }

    /** One pass of the inner `while` once the pause gate is open. */
    method Step(d: Draws, ghost out0: seq<Write>, ghost n0: nat) returns (leave: bool)
      requires Valid() && DrawsOk(d) && recipientIndex < |round| && Echoed(out0, n0)
      modifies this, store, hub`output
      ensures (Snapshot(), leave) == Iterate(config, old(Snapshot()), d)
      ensures Valid() && round == old(round) && roundNumber == old(roundNumber)
      ensures leave ==> recipientIndex == old(recipientIndex)
      ensures Echoed(out0, n0)
    {
      ghost var s := Snapshot();
      IterateKeeps(config, start, s, d);
      leave := false;
      if EveryoneFinished(states) {
        Log(AllFinished(roundNumber), out0, n0);
        leave := true;
      } else if config.totalLimit.Some? && totalSuccesses >= config.totalLimit.value {
      } else {
        DrawAndProceed(d, out0, n0);
      }
    }

    /** The two draws followed by what comes after them. */
    method DrawAndProceed(d: Draws, ghost out0: seq<Write>, ghost n0: nat)
      requires ValidState(config, Snapshot()) && DrawsOk(d) && recipientIndex < |round| && Echoed(out0, n0)
      requires !EveryoneFinished(states) && !LimitReached(config, Snapshot())
      modifies this, store, hub`output
      ensures Snapshot() == Iterate(config, old(Snapshot()), d).0
      ensures Echoed(out0, n0)
    {
      ghost var k0, t0, s1 := IterateDraws(config, Snapshot(), d);
      var k, tpos := DrawPair(d);
      assert Snapshot() == s1;
      Proceed(k, tpos, d, out0, n0);
    }

    /** The top of the outer loop: the re-query, then either the closing line or
        the round's opening lines, `finished` cleared for every sender, and the
        cursor reset. */
    method BeginRound(ghost out0: seq<Write>, ghost n0: nat) returns (go: bool)
      requires Echoed(out0, n0)
      modifies this, hub`output
      ensures (Snapshot(), go) == StartRound(old(Snapshot()))
      ensures go ==> recipientIndex == 0 < |round|
      ensures Echoed(out0, n0)
    {
      var due := Due(store.recipients);
      if due == [] {
        Log(NothingLeft(roundNumber), out0, n0);
        return false;
      }
      LogAll([RoundStart(roundNumber), RoundSize(roundNumber, |due|)], out0, n0);
      ClearFlags();
      round := due;
      recipientIndex := 0;
      go := true;
    }

    /** The reset of every sender's `finished` flag at the top of a round. */
    method ClearFlags()
      modifies this`states
      ensures states == ClearFinished(old(states))
    {
      ghost var s0 := states;
      for i := 0 to |states|
        invariant |states| == |s0|
        invariant forall j :: 0 <= j < i ==> states[j] == s0[j].(finished := false)
        invariant forall j :: i <= j < |states| ==> states[j] == s0[j]
      {
        states := states[i := states[i].(finished := false)];
      }
    }

    /** The bottom of the outer loop: the closing line of the round, the count of
        `failed` recipients, and the decision. */
    method CloseRound(ghost out0: seq<Write>, ghost n0: nat) returns (again: bool)
      requires Echoed(out0, n0)
      modifies this`logs, this`roundNumber, hub`output
      ensures (Snapshot(), again) == EndRound(old(Snapshot()))
      ensures Echoed(out0, n0)
    {
      Log(RoundEnd(roundNumber), out0, n0);
      var failed := CountStatus(store.recipients, Failed);
      if failed == 0 {
        Log(NoFailedLeft, out0, n0);
        return false;
      }
      Log(FailedRemain(failed), out0, n0);
      roundNumber := roundNumber + 1;
      again := true;
    }

    /** The summary line after the outer loop. */
    method Conclude(ghost out0: seq<Write>, ghost n0: nat)
      requires Echoed(out0, n0)
      modifies this`logs, hub`output
      ensures Snapshot() == Finish(old(Snapshot()))
      ensures Echoed(out0, n0)
    {
      Log(Summary(roundNumber, totalSuccesses, totalFailures), out0, n0);
    }

    /** The end of a completed run: the summary line, the end of the progress
        stream and the reply, which carries every line logged. */
    method Report() returns (resp: Response)
      requires Valid() && Completed(Snapshot())
      modifies this`logs, hub`output, hub`ended
      ensures resp.Reply? && resp.code == 200 && resp.logs == logs
      ensures |logs| > 0 && logs[|logs| - 1] == Summary(roundNumber, totalSuccesses, totalFailures)
      ensures resp.message == DoneMessage(totalSuccesses, totalFailures)
      ensures forall p :: 0 <= p < |store.recipients| ==> store.recipients[p].status != Failed
      ensures |store.recipients| == |start.recipients|
      ensures |store.entries| - |start.entries| == Attempts(Snapshot()) - Attempts(start)
    {
      Conclude(hub.output, |logs|);
      hub.End(jobId);
      resp := Reply(200, DoneMessage(totalSuccesses, totalFailures), logs);
    }

    /** `BeginRound` with what it keeps: the invariant, a completed state when
        the campaign stops here, the log as an extension of `logs0` and, when
        `q` holds, the echo of the log from `logs0` on in the writes after `out0`. */
    method OpenRound(ghost out0: seq<Write>, ghost logs0: seq<LogLine>, ghost q: bool) returns (go: bool)
      requires Valid() && |logs0| <= |logs| && logs[..|logs0|] == logs0
      requires q ==> Echoed(out0, |logs0|)
      modifies this, hub`output
      ensures Valid()
      ensures go ==> recipientIndex == 0 < |round|
      ensures !go ==> Completed(Snapshot())
      ensures |logs0| <= |logs| && logs[..|logs0|] == logs0
      ensures q ==> Echoed(out0, |logs0|)
    {
      ghost var s := Snapshot();
      StartRoundKeeps(config, start, s);
      StopIsCompletion(config, s);
      ghost var o, n := if q then out0 else hub.output, if q then |logs0| else |logs|;
      assert !q ==> logs[n..] == [];
      go := BeginRound(o, n);
      assert logs[..|s.logs|] == s.logs;
      PrefixOfPrefix(logs0, s.logs, logs);
    }

    /** `CloseRound` with what it keeps, in the terms of `OpenRound`. */
    method EndRoundKeeping(ghost out0: seq<Write>, ghost logs0: seq<LogLine>, ghost q: bool) returns (again: bool)
      requires Valid() && |logs0| <= |logs| && logs[..|logs0|] == logs0
      requires q ==> Echoed(out0, |logs0|)
      modifies this`logs, this`roundNumber, hub`output
      ensures Valid()
      ensures !again ==> Completed(Snapshot())
      ensures |logs0| <= |logs| && logs[..|logs0|] == logs0
      ensures q ==> Echoed(out0, |logs0|)
    {
      ghost var s := Snapshot();
      EndRoundDecision(config, start, s);
      StopIsCompletion(config, s);
      ghost var o, n := if q then out0 else hub.output, if q then |logs0| else |logs|;
      assert !q ==> logs[n..] == [];
      again := CloseRound(o, n);
      assert logs[..|s.logs|] == s.logs;
      PrefixOfPrefix(logs0, s.logs, logs);
    }

    /** The run as seen from outside. */
    ghost function Now(): At
      reads this, store, jobs, hub
    {
      At(Control(jobs.status, hub.clients, hub.ended), Snapshot(), hub.output)
    }

    /** One pass of the inner loop: the requests that arrived are served, then
        the pause gate is consulted, and only an open gate lets the iteration run. */
    method PlayTick(t: Tick) returns (leave: bool, ghost p: Pass)
      requires Valid() && DrawsOk(t.draws) && recipientIndex < |round|
      modifies this, store, jobs, hub
      ensures p == Pass(old(Now()), Now()) && PassOk(config, jobId, t, p)
      ensures Valid() && round == old(round) && roundNumber == old(roundNumber)
      ensures leave ==> recipientIndex == old(recipientIndex)
    {
      ghost var a := Now();
      ghost var s := Snapshot();
      Serve(jobs, hub, t.requests);
      leave := false;
      if !jobs.IsPaused(JobKey(jobId)) {
        IterateExtendsLogs(config, s, t.draws);
        leave := Step(t.draws, hub.output, |logs|);
      } else {
        assert logs[|s.logs|..] == [];
      }
      p := Pass(a, Now());
    }

    /** `PlayTick` on the tick at `used`, recorded: the pass joins the trace of
        the passes since `a0`, the log stays an extension of `logs0`, and the
        echo of the log from `logs0` on is kept while `q` holds and the requests
        served leave the job's subscription alone. */
    method Advance(ticks: seq<Tick>, from: nat, used: nat, ghost trace: seq<Pass>, ghost a0: At,
                   ghost out0: seq<Write>, ghost logs0: seq<LogLine>, ghost q: bool) returns (leave: bool, ghost trace1: seq<Pass>)
      requires Valid() && used < |ticks| && recipientIndex < |round| && DrawsOk(ticks[used].draws)
      requires from + |trace| == used && Passes(config, jobId, ticks, from, trace) && Chained(trace, a0, Now())
      requires |logs0| <= |logs| && logs[..|logs0|] == logs0
      requires q ==> Echoed(out0, |logs0|)
      modifies this, store, jobs, hub
      ensures Valid() && round == old(round) && roundNumber == old(roundNumber)
      ensures leave ==> recipientIndex == old(recipientIndex)
      ensures |trace1| == |trace| + 1 && trace1[..|trace|] == trace
      ensures Passes(config, jobId, ticks, from, trace1) && Chained(trace1, a0, Now())
      ensures |logs0| <= |logs| && logs[..|logs0|] == logs0
      ensures q && Quiet(ticks[used].requests, jobId) ==> Echoed(out0, |logs0|)
    {
      var t := ticks[used];
      assert t == ticks[from + |trace|];
      ghost var logs1 := logs;
      ghost var p;
      leave, p := PlayTick(t);
      PassesSnoc(config, jobId, ticks, from, trace, p);
      ChainedSnoc(trace, a0, p);
      trace1 := trace + [p];
      PrefixOfPrefix(logs0, logs1, logs);
      if q && Quiet(t.requests, jobId) {
        QuietKeepsSubscriber(p.before.ctl, t.requests, jobId);
        EchoExtend(p.before.ctl.clients, hub.clients, jobId, out0, |logs0|, logs1, p.before.out, logs, hub.output);
      }
    }

    /** The inner loop of one round, from tick `from` on. Each pass takes one
        tick; `trace` records the passes made, each of them a `PassOk`, so no
        iteration runs while the requests served leave the job paused. `stalled`
        is true when the ticks run out inside the round. The log stays an
        extension of `logs0`; when `q` holds and none of the requests served
        touches the job's subscription, the writes after `out0` are exactly the
        frames of the lines logged since `logs0`, in order. */
    method PlayRound(ticks: seq<Tick>, from: nat, ghost out0: seq<Write>, ghost logs0: seq<LogLine>, ghost q: bool)
      returns (used: nat, stalled: bool, ghost trace: seq<Pass>)
      requires Valid() && from <= |ticks| && recipientIndex < |round|
      requires forall i :: 0 <= i < |ticks| ==> DrawsOk(ticks[i].draws)
      requires |logs0| <= |logs| && logs[..|logs0|] == logs0
      requires q ==> Echoed(out0, |logs0|)
      modifies this, store, jobs, hub
      ensures Valid() && from <= used <= |ticks|
      ensures !stalled ==> from < used
      ensures stalled ==> used == |ticks|
      ensures |trace| == used - from && Chained(trace, old(Now()), Now())
      ensures Passes(config, jobId, ticks, from, trace)
      ensures |logs0| <= |logs| && logs[..|logs0|] == logs0
      ensures q && (forall i :: from <= i < used ==> Quiet(ticks[i].requests, jobId)) ==> Echoed(out0, |logs0|)
    {
      ghost var a0 := Now();
      used := from;
      trace := [];
      var leave := false;
      while recipientIndex < |round| && !leave
        invariant Valid() && from <= used <= |ticks|
        invariant used == from ==> recipientIndex < |round| && !leave
        invariant |trace| == used - from && Chained(trace, a0, Now())
        invariant Passes(config, jobId, ticks, from, trace)
        invariant |logs0| <= |logs| && logs[..|logs0|] == logs0
        invariant q && (forall i :: from <= i < used ==> Quiet(ticks[i].requests, jobId)) ==> Echoed(out0, |logs0|)
        decreases |ticks| - used
      {
        if used == |ticks| {
          return used, true, trace;
        }
        ghost var q1 := q && forall i :: from <= i < used ==> Quiet(ticks[i].requests, jobId);
        leave, trace := Advance(ticks, from, used, trace, a0, out0, logs0, q1);
        used := used + 1;
      }
      stalled := false;
    }

    /** The two nested loops of `sendCampaign`, driven by `ticks`. The result is
        false when the ticks run out before the campaign ends. `trace` records the
        passes of the inner loop, one per tick used. */
    method Run(ticks: seq<Tick>) returns (done: bool, ghost trace: seq<Pass>)
      requires Valid() && forall i :: 0 <= i < |ticks| ==> DrawsOk(ticks[i].draws)
      modifies this, store, jobs, hub
      ensures Valid()
      ensures done ==> Completed(Snapshot())
      ensures Passes(config, jobId, ticks, 0, trace) && (!done ==> |trace| == |ticks|)
      ensures (forall i :: 0 <= i < |trace| ==> Quiet(ticks[i].requests, jobId)) ==> Echoed(old(hub.output), old(|logs|))
    {
      ghost var out0, logs0 := hub.output, logs;
      var used := 0;
      trace := [];
      while true
        invariant Valid() && used <= |ticks| && |trace| == used
        invariant Passes(config, jobId, ticks, 0, trace)
        invariant |logs0| <= |logs| && logs[..|logs0|] == logs0
        invariant (forall i :: 0 <= i < used ==> Quiet(ticks[i].requests, jobId)) ==> Echoed(out0, |logs0|)
        decreases |ticks| - used
      {
        ghost var q := forall i :: 0 <= i < used ==> Quiet(ticks[i].requests, jobId);
        var go := OpenRound(out0, logs0, q);
        if !go {
          return true, trace;
        }
        var stalled;
        ghost var tr;
        used, stalled, tr := PlayRound(ticks, used, out0, logs0, q);
        PassesAppend(config, jobId, ticks, trace, tr);
        trace := trace + tr;
        if stalled {
          return false, trace;
        }
        q := forall i :: 0 <= i < used ==> Quiet(ticks[i].requests, jobId);
        var again := EndRoundKeeping(out0, logs0, q);
        if !again {
          return true, trace;
        }
      }
    }
  }

  /** The requests served between two scheduling points. */
  method Serve(jobs: JobRegistry, hub: ProgressHub, requests: seq<Request>)
    modifies jobs, hub`clients, hub`ended
    ensures Control(jobs.status, hub.clients, hub.ended)
            == HandleAll(old(Control(jobs.status, hub.clients, hub.ended)), requests)
  {
    ghost var ctl0 := Control(jobs.status, hub.clients, hub.ended);
    for i := 0 to |requests|
      invariant Control(jobs.status, hub.clients, hub.ended) == HandleAll(ctl0, requests[..i])
    {
      assert requests[..i + 1][..i] == requests[..i];
      match requests[i]
      case PauseRequest(j) =>
        var _ := jobs.Pause(j);
      case ResumeRequest(j) =>
        var _ := jobs.Resume(j);
      case SubscribeRequest(j, conn) =>
        var _ := hub.Subscribe(j, conn);
      case ConnectionClosed(key) =>
        hub.Disconnect(key);
    }
    assert requests[..|requests|] == requests;
  }

  // ---------------------------------------------------------------------
  // The `/send` handler
  // ---------------------------------------------------------------------

  /** The body of a `/send` request; a missing property is `None`. */
  datatype CampaignRequest = CampaignRequest(
    selectedTemplateIds: Option<seq<nat>>,
    brandName: Option<string>,
    minDelay: Option<int>,
    maxDelay: Option<int>,
    jobId: Option<string>,
    totalLimit: Option<int>)

  /** The JSON reply, or none yet when the run has not ended within the ticks given. */
  datatype Response = Reply(code: int, message: string, logs: seq<LogLine>) | StillRunning

  const CampaignFailure := "Lỗi khi bắt đầu hoặc thực hiện chiến dịch."

  /** The reply message of a finished campaign. */
  function DoneMessage(successes: nat, failures: nat): (r: string)
    ensures StartsWith(r, "Chiến dịch hoàn tất.")
  {
    "Chiến dịch hoàn tất." + " Gửi thành công: " + NatToString(successes) + ". Thất bại: " + NatToString(failures) + "."
  }

  /** `x !== undefined ? x : otherwise` */
  function Given(x: Option<int>, otherwise: int): (r: int)
    ensures x.Some? ==> r == x.value
    ensures x.None? ==> r == otherwise
  {
    if x.Some? then x.value else otherwise
  }

  /** The configuration the start-up queries produce, once none of them came back empty. */
  function RequestConfig(senders: seq<Sender>, templates: seq<Template>, req: CampaignRequest): Config
    requires req.selectedTemplateIds.Some?
  {
    Config(ActiveSenders(senders), SelectedTemplates(templates, req.selectedTemplateIds.value),
           BrandOrDefault(req.brandName), Given(req.minDelay, 1), Given(req.maxDelay, 5), req.totalLimit)
  }

  /** When the checks pass, the queried positions form a configuration the run can start from. */
  lemma RequestConfigFits(senders: seq<Sender>, templates: seq<Template>, req: CampaignRequest)
    requires req.selectedTemplateIds.Some?
    requires |ActiveSenders(senders)| > 0 && |SelectedTemplates(templates, req.selectedTemplateIds.value)| > 0
    ensures ConfigFor(RequestConfig(senders, templates, req), senders, templates)
  {
    IncreasingDistinct(ActiveSenders(senders));
    IncreasingDistinct(SelectedTemplates(templates, req.selectedTemplateIds.value));
  }

  /** `sendCampaign`: the start-up checks, then the run driven by `ticks`, then
      the summary line, the end of the progress stream and the reply. */
  method SendCampaign(store: Store, jobs: JobRegistry, hub: ProgressHub, req: CampaignRequest, ticks: seq<Tick>)
    returns (resp: Response)
    requires forall i :: 0 <= i < |ticks| ==> DrawsOk(ticks[i].draws)
    modifies store, jobs, hub
    ensures req.selectedTemplateIds.None? ==>
              resp == Reply(500, CampaignFailure, []) && unchanged(store, jobs, hub)
    ensures req.selectedTemplateIds.Some?
            && StartCheck(|ActiveSenders(old(store.senders))|, CountStatus(old(store.recipients), Pending),
                          |SelectedTemplates(old(store.templates), req.selectedTemplateIds.value)|).Some? ==>
              && resp == Reply(400, StartCheck(|ActiveSenders(old(store.senders))|, CountStatus(old(store.recipients), Pending),
                                               |SelectedTemplates(old(store.templates), req.selectedTemplateIds.value)|).value, [])
              && unchanged(store, jobs, hub)
    ensures resp.Reply? && resp.code == 200 ==>
              && |resp.logs| > 0 && resp.logs[|resp.logs| - 1].Summary?
              && resp.message == DoneMessage(resp.logs[|resp.logs| - 1].successes, resp.logs[|resp.logs| - 1].failures)
              && |store.recipients| == |old(store.recipients)|
              && (forall p :: 0 <= p < |store.recipients| ==> store.recipients[p].status != Failed)
              && |store.entries| == |old(store.entries)| + resp.logs[|resp.logs| - 1].successes
                                     + resp.logs[|resp.logs| - 1].failures
    ensures resp.Reply? ==> resp.code in {200, 400, 500}
  {
    if req.selectedTemplateIds.None? {
      return Reply(500, CampaignFailure, []);
    }
    var active := ActiveSenders(store.senders);
    var pending := CountStatus(store.recipients, Pending);
    var selected := SelectedTemplates(store.templates, req.selectedTemplateIds.value);
    var check := StartCheck(|active|, pending, |selected|);
    if check.Some? {
      return Reply(400, check.value, []);
    }
    RequestConfigFits(store.senders, store.templates, req);
    resp := Launch(store, jobs, hub, RequestConfig(store.senders, store.templates, req), req.jobId, ticks);
  }

  /** The part of `sendCampaign` after the start-up checks. */
  method Launch(store: Store, jobs: JobRegistry, hub: ProgressHub, config: Config, jobId: Option<string>,
                ticks: seq<Tick>) returns (resp: Response)
    requires ConfigFor(config, store.senders, store.templates)
    requires forall i :: 0 <= i < |ticks| ==> DrawsOk(ticks[i].draws)
    modifies store, jobs, hub
    ensures resp.StillRunning? || resp.code == 200
    ensures resp.Reply? ==>
              && |resp.logs| > 0 && resp.logs[|resp.logs| - 1].Summary?
              && resp.message == DoneMessage(resp.logs[|resp.logs| - 1].successes, resp.logs[|resp.logs| - 1].failures)
              && |store.recipients| == |old(store.recipients)|
              && (forall p :: 0 <= p < |store.recipients| ==> store.recipients[p].status != Failed)
              && |store.entries| == |old(store.entries)| + resp.logs[|resp.logs| - 1].successes
                                     + resp.logs[|resp.logs| - 1].failures
  {
    var run := new CampaignRun(store, jobs, hub, config, jobId);
    jobs.Start(JobKey(jobId));
    var done;
    ghost var trace;
    done, trace := run.Run(ticks);
    if !done {
      return StillRunning;
    }
    resp := run.Report();
  }
}
