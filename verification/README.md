# Bulk e-mail campaign system — a Dafny model

This project models the core of a bulk e-mail system: an Express back end
that sends a campaign from a pool of SMTP sending accounts to a list of
recipients, and reads the accounts' inboxes over IMAP, plus the React screen
that starts a campaign and follows its progress. Every user-facing message
of the system is in Vietnamese; the model keeps those texts verbatim where
the behaviour depends on them.

The modules follow the source files:

- `Common` — Option/Result, trimming, lower-casing, decimal rendering and
  sequence helpers shared by the rest.
- `CampaignModel`, `CampaignRounds`, `CampaignEngine` —
  `Backend/controllers/campaignController.js`. The pure rules (random draws
  without replacement, random delays, the port/secure rule, the `{{Ten}}`
  substitution, the exact progress lines and their SSE frames) are functions;
  the round loop of `sendCampaign` is a value state machine (`RunState`) with
  its invariants, driven in place by the class `CampaignRun`, whose methods
  are proved to perform the state machine's steps. `JobRegistry` holds
  `jobStatusMap` (pause and resume), `ProgressHub` holds `sseClients` and the
  frames written, and `Store` holds the sender, recipient, template and log
  collections.
- `EmailModel` — `Backend/models/emailModel.js`: the e-mail document as a
  class, its virtual fields, schema bounds, the pre-save hook, the
  categoriser, thread ids and the label/tag methods.
- `EmailService` — `Backend/services/emailService.js`: categorising,
  priorities, spam scores, thread ids, statistics formatting, list queries
  and paging, duplicate-skipping saves, and the store operations (find,
  mark read, move, delete).
- `BatchProcessor` — `Backend/services/batchEmailProcessor.js`: chunking,
  the queue, chunk processing counters, batch priority, and the settings.
  Its `categorizeEmail` (lines 201-231, applied at 182-184) is the
  service's rule word for word, so it is modelled once, as
  `EmailService.ServiceCategorize` (`EmailService.ServiceCategorizePrecedence`).
- `ConnectionPool` — `Backend/services/connectionPool.js`: the per-sender
  pools of IMAP connections as a class over a map.
- `EmailController`, `SenderController`, `RecipientController` — the HTTP
  handlers of the mailbox, sending-account and recipient APIs.
- `CampaignSender` — `Frontend/src/components/CampaignSender.tsx`: template
  selection, pre-send validation, and how a progress viewer reads the
  engine's lines.

Randomness (`Math.random`), clocks, the SMTP transport, IMAP and the
database's own verdicts (an insert that fails, a duplicate key) are
parameters: a random number is a real in `[0, 1)`, a time is an integer,
and each transport or database outcome is an input of the operation.
MongoDB collections are sequences or maps held by the classes.

Where the intended design and the code differ, the model follows the code:

- A configured `totalLimit` does not end a campaign: the `break` at
  `Backend/controllers/campaignController.js:214` leaves the recipient
  index unchanged, so the inner loop repeats without end
  (`CampaignRounds.LimitSpins`). Unless the job is paused, that loop
  reaches no `await`, so it freezes the whole server, not just the
  campaign: no further request of any route is answered.
- When every sender is at its quota and a recipient is `failed`, rounds
  repeat without end (`CampaignRounds.StalemateRepeats`).
- The placeholder `{{Ten}}` is replaced only at its first occurrence, and
  `$` patterns in a recipient's name are expanded by `String.replace`
  (`CampaignModel.PersonalizeFirstOnly`, `CampaignModel.PersonalizeDollarPattern`).
- The history entries carry no outcome: the log schema has no `status`
  path, so the value passed to `Log.create` is dropped.
- The "no sender or template available" line
  (`Backend/controllers/campaignController.js:224`) is never reached
  (`CampaignRounds.DrawsSucceed`).
- The sender schema has no `category`, so the service's priority always
  starts from the default base of 3 (`EmailService.Priority`).
- Deleting an e-mail with a spam score of 7 or more leaves it in `SPAM`,
  not `TRASH`, because the pre-save hook runs after the move
  (`EmailService.DeleteDestination`).
- A queued request whose timer fires stays in the queue, so the next
  released connection goes to a request that was already rejected
  (`ConnectionPool.TimedOutHeadIsServed`).
- `fetchEmailsFromServer` refuses every sender, because the sender schema
  has no sync settings (`EmailController.FetchRefusedForSchemaSender`).
- `releaseConnection` hands a connection to the oldest waiter while leaving
  its `inUse` flag false (`ConnectionPool.ConnectionPool.ReleaseConnection`).
- The controller answers an IMAP connection timeout with 400, not 408,
  because `IMAP` is matched before `timeout` (`EmailController.FetchTimeouts`).
- `getEmailById` returns the e-mail as it was before it was marked read
  (`EmailController.GetEmailById`).
- In the CSV import a row whose email is only white space is collected, so
  the upload is not refused with 400, but the schema skips it in the
  unordered insert and the 201 reply leaves it out
  (`RecipientController.BlankEmailRowNotCreated`); `addRecipient` with such
  an email fails in the schema and is answered 500
  (`RecipientController.AddRecipient`).
- In the Excel import an account whose limit cell is not a number, or whose
  email or password is only white space, is queued but skipped by the
  schema, and the count reported leaves it out
  (`SenderController.NaNLimitNotInserted`).

## Model

A function that only defines a computation has no row of its own when
stating its meaning would repeat its body: the rows of the lemmas about it
name it first in the third column (`Attempt`: …).

| member | source | states |
|---|---|---|
| CampaignModel.PickIndex | Backend/controllers/campaignController.js:142 | `Math.floor(Math.random() * n)` is a valid index below `n` |
| CampaignModel.RandomDelayInRange | Backend/controllers/campaignController.js:11 | `RandomDelay`: for `min <= max` the random delay lies in `[min, max]` |
| CampaignModel.RandomDelayCovers | Backend/controllers/campaignController.js:11 | every integer of `[min, max]` is produced by some random draw |
| CampaignModel.Without | Backend/controllers/campaignController.js:144 | `splice(i, 1)` shortens the pool by one and removes exactly the element at `i` (as a multiset) |
| CampaignModel.Draw | Backend/controllers/campaignController.js:140-146 | `None` exactly on an empty pool; otherwise an element of the pool and the pool less exactly that element |
| CampaignModel.DrawReachesEvery | Backend/controllers/campaignController.js:140-146 | every element of the pool can be drawn |
| CampaignModel.DrawDistinct | Backend/controllers/campaignController.js:140-146 | a pool of distinct entries stays distinct and no longer holds the drawn entry |
| CampaignModel.Positions | Backend/controllers/campaignController.js:136-137 | the full pool holds each position `0 .. n-1` in order |
| CampaignModel.StartCheck | Backend/controllers/campaignController.js:117-125 | no message exactly when senders, pending recipients and templates are all present; otherwise the message of the first empty one, in that order |
| CampaignModel.SecureFor | Backend/controllers/campaignController.js:248-253 | port 587 forces STARTTLS, port 465 implicit TLS, any other port keeps the account's flag |
| CampaignModel.BrandOrDefault | Backend/controllers/campaignController.js:131 | a non-empty brand is kept; an absent or empty one becomes `Your Brand` |
| CampaignModel.ErrorText | Backend/controllers/campaignController.js:299 | the response data when present and non-empty, else the error message |
| CampaignModel.NameOrEmpty | Backend/controllers/campaignController.js:266-267 | the recipient's name, or the empty text when it has none |
| CampaignModel.FromHeader | Backend/controllers/campaignController.js:264 | the brand and the sender's address can be read back from fixed positions of the header |
| CampaignModel.ReplaceFirst | Backend/controllers/campaignController.js:266-267 | `replace` with a string pattern: a text without the pattern is unchanged; otherwise the text before its first occurrence and the text after it are kept |
| CampaignModel.Personalize | Backend/controllers/campaignController.js:266-267 | a text without `{{Ten}}` is sent unchanged; otherwise only the first placeholder is replaced, and the text around it is kept |
| CampaignModel.PersonalizeMatchPattern | Backend/controllers/campaignController.js:266-267 | for every text, a recipient named `$&` receives the text unchanged |
| CampaignModel.PersonalizeKeepsLater | Backend/controllers/campaignController.js:266-267 | with a name without `$`, every placeholder after the first is still in the result, shifted by the length difference |
| CampaignModel.IndexOf | Backend/controllers/campaignController.js:266-267 | -1 exactly when the placeholder does not occur; otherwise its first occurrence |
| CampaignModel.Expand | Backend/controllers/campaignController.js:266-267 | a replacement without `$` is inserted literally |
| CampaignModel.PersonalizeLiteral | Backend/controllers/campaignController.js:266-267 | a name without `$` replaces the first `{{Ten}}` and the text around it is kept; a text without placeholder is unchanged |
| CampaignModel.PersonalizeFirstOnly | Backend/controllers/campaignController.js:266-267 | only the first `{{Ten}}` is substituted |
| CampaignModel.PersonalizeDollarPattern | Backend/controllers/campaignController.js:266-267 | a recipient named `$&` receives the placeholder itself, not the name |
| CampaignModel.SummaryPrefixOnlySummary | Backend/controllers/campaignController.js:340-341 | `Render`: of all progress lines, exactly the closing summary starts with `Chiến dịch hoàn tất` |
| CampaignModel.LeadChar | Backend/controllers/campaignController.js:181-337 | every other progress line starts with `V`, `=`, `K` or `[` |
| CampaignModel.LeadRound | Backend/controllers/campaignController.js:181-207 | the round-status lines start with `V` |
| CampaignModel.LeadAttempt | Backend/controllers/campaignController.js:244-301 | the sending, success and failure lines start with `V`, not `[` |
| CampaignModel.LeadOther | Backend/controllers/campaignController.js:186-335 | the remaining lines start with `=`, `K` or `[` |
| CampaignModel.HexValue | Backend/controllers/campaignController.js:397 | a hexadecimal digit reads back as a value below 16 |
| CampaignModel.HexRoundTrip | Backend/controllers/campaignController.js:397 | reading a written hexadecimal digit gives back its value |
| CampaignModel.EscapeChar | Backend/controllers/campaignController.js:397 | `JSON.stringify` writes no character as a raw line feed or carriage return |
| CampaignModel.Escape | Backend/controllers/campaignController.js:397 | an escaped string holds no line feed or carriage return |
| CampaignModel.Quote | Backend/controllers/campaignController.js:397 | the quoted string is enclosed in `"` and holds no line break |
| CampaignModel.UnescapeSimple | Backend/controllers/campaignController.js:397 | a two-character escape reads back as its character |
| CampaignModel.UnescapeControl | Backend/controllers/campaignController.js:397 | a `\u00XX` escape reads back as its control character |
| CampaignModel.UnescapeChar | Backend/controllers/campaignController.js:397 | every escaped character reads back as itself |
| CampaignModel.UnescapeEscape | Backend/controllers/campaignController.js:397 | an escaped string reads back as the original string |
| CampaignModel.FrameRoundTrip | Backend/controllers/campaignController.js:394-399 | `Frame` and `ParseFrame`: the receiver reads every frame back as the line it was built from |
| CampaignModel.FrameSingleEvent | Backend/controllers/campaignController.js:394-399 | a frame ends with its only blank line, so each progress line is one event |
| CampaignRounds.Where | Backend/controllers/campaignController.js:113-115 | the positions whose filter holds, each once, in increasing order |
| CampaignRounds.IncreasingDistinct | Backend/controllers/campaignController.js:178 | a strictly increasing list of positions has no repeats |
| CampaignRounds.DueSpec | Backend/controllers/campaignController.js:178 | the round query returns each `pending` or `failed` recipient exactly once and nothing else |
| CampaignRounds.CountStatus | Backend/controllers/campaignController.js:328 | the count is zero exactly when no recipient has the status |
| CampaignRounds.DueEmpty | Backend/controllers/campaignController.js:178-184 | the round query is empty exactly when no recipient is `pending` or `failed` |
| CampaignRounds.SumAtOutside | Backend/controllers/campaignController.js:271-275 | changing a record no position refers to leaves a usage sum alone |
| CampaignRounds.SumAtUpdate | Backend/controllers/campaignController.js:271-275 | changing a record listed once shifts a usage sum by exactly the change |
| CampaignRounds.DrawBelow | Backend/controllers/campaignController.js:220-221 | drawing from a pool of valid positions gives a valid position and leaves valid positions |
| CampaignRounds.StatesFor | Backend/controllers/campaignController.js:162-166 | one state per active sender, seeded with its stored count and not finished |
| CampaignRounds.InitialValid | Backend/controllers/campaignController.js:131-171 | the state before the first round satisfies the run invariant |
| CampaignRounds.Refill | Backend/controllers/campaignController.js:149-158 | an empty pool is refilled with every position; a non-empty pool is kept |
| CampaignRounds.MailFor | Backend/controllers/campaignController.js:247-268 | the transport uses the sender's host, port and credentials with `secure` as `SecureFor` sets it for the port; the mail is from `FromHeader` of the brand and the sender, goes to the recipient, and its subject and body are the template's, personalised with the recipient's name |
| CampaignRounds.DrawBoth | Backend/controllers/campaignController.js:217-221 | the two draws give valid positions and leave valid pools |
| CampaignRounds.PoolsValid | Backend/controllers/campaignController.js:217-221 | replacing the pools by valid ones keeps the run invariant |
| CampaignRounds.ClearFinished | Backend/controllers/campaignController.js:192-194 | every sender's `finished` flag is cleared and nothing else changes |
| CampaignRounds.DrawsSucceed | Backend/controllers/campaignController.js:217-226 | after `resetIfEmpty` both draws succeed, so the "no sender or template" branch is never taken |
| CampaignRounds.LimitSpins | Backend/controllers/campaignController.js:199-214 | once successes reach `totalLimit` while some sender is not finished, an iteration changes nothing: the inner loop never ends |
| CampaignRounds.AttemptEffects | Backend/controllers/campaignController.js:242-319 | `Attempt`: an attempt marks the recipient `sent` or `failed`, charges the sender on both paths, counts the template and the success only on delivery, writes one history entry and advances the cursor |
| CampaignRounds.AttemptValid | Backend/controllers/campaignController.js:242-319 | an attempt keeps the run invariant |
| CampaignRounds.AttemptStore | Backend/controllers/campaignController.js:242-319 | an attempt changes only counters and statuses, and no sender goes past its daily limit |
| CampaignRounds.AttemptLedger | Backend/controllers/campaignController.js:242-319 | an attempt is counted once in every ledger and no success goes past `totalLimit` |
| CampaignRounds.AttemptOutput | Backend/controllers/campaignController.js:242-319 | an attempt only appends to the history, the mails, the waits and the log |
| CampaignRounds.AttemptKeeps | Backend/controllers/campaignController.js:242-319 | an attempt keeps the invariant and all of the run's accounting |
| CampaignRounds.QuotaSkipKeepsRecipient | Backend/controllers/campaignController.js:229-240 | a finished or exhausted sender sends nothing, the recipient stays at the cursor and the sender becomes finished |
| CampaignRounds.IterateDraws | Backend/controllers/campaignController.js:212-240 | outside the two exits an iteration is the two draws followed by the post-draw step |
| CampaignRounds.ProgressReflexive | Backend/controllers/campaignController.js:176-338 | the accounting relation holds from any valid state to itself |
| CampaignRounds.PoolsOnly | Backend/controllers/campaignController.js:217-221 | changing only the pools keeps the accounting |
| CampaignRounds.AfterDrawKeeps | Backend/controllers/campaignController.js:229-319 | `AfterDraw`: the post-draw step keeps the invariant and the accounting, within the same round |
| CampaignRounds.IterateKeeps | Backend/controllers/campaignController.js:199-321 | `Iterate`: every iteration keeps the invariant and the accounting, stays in the round, and leaves the loop with the cursor in place |
| CampaignRounds.StartRoundQuery | Backend/controllers/campaignController.js:176-196 | `StartRound`: a round begins exactly when some recipient is `pending` or `failed`; it holds exactly those, with flags cleared and the cursor at 0 |
| CampaignRounds.StartRoundKeeps | Backend/controllers/campaignController.js:176-196 | the top of the outer loop keeps the invariant and the accounting |
| CampaignRounds.EndRoundDecision | Backend/controllers/campaignController.js:324-337 | `EndRound`: another round follows exactly when some recipient is still `failed` |
| CampaignRounds.AllAtQuotaNoSend | Backend/controllers/campaignController.js:229-240 | with every sender at quota an iteration sends nothing and everyone stays at quota |
| CampaignRounds.StalemateRepeats | Backend/controllers/campaignController.js:176-337 | with every sender at quota and a `failed` recipient, the next round starts again with the same recipients: rounds repeat without end |
| CampaignRounds.StopIsCompletion | Backend/controllers/campaignController.js:180-332 | the campaign stops only when no recipient is `failed`, and after the stop line |
| CampaignEngine.JobKeyCollides | Backend/controllers/campaignController.js:173-201 | `JobKey`: distinct job ids get distinct keys, but a campaign started without a job id reads and sets the status of the job named `undefined` |
| CampaignEngine.SetStatus | Backend/controllers/campaignController.js:358-373 | 400 exactly without a job id, leaving the map alone; otherwise 200 and only that job's status changes |
| CampaignEngine.SetStatusIdempotent | Backend/controllers/campaignController.js:358-373 | pausing or resuming twice is the same as once |
| CampaignEngine.SetStatusLastWins | Backend/controllers/campaignController.js:358-373 | of a pause and a resume for one job, the later one decides |
| CampaignEngine.JobRegistry.constructor | Backend/controllers/campaignController.js:355 | the status map starts empty |
| CampaignEngine.JobRegistry.Pause | Backend/controllers/campaignController.js:358-364 | the reply code and the new map are those of `SetStatus` with `paused` |
| CampaignEngine.JobRegistry.Resume | Backend/controllers/campaignController.js:367-373 | the reply code and the new map are those of `SetStatus` with `running` |
| CampaignEngine.JobRegistry.Start | Backend/controllers/campaignController.js:173 | the run's job becomes `running` and nothing else changes |
| CampaignEngine.Published | Backend/controllers/campaignController.js:394-399 | no write without a subscriber for the job; otherwise one write per line, all to that subscriber |
| CampaignEngine.PublishedLines | Backend/controllers/campaignController.js:394-399 | the write at each position carries the line at that position |
| CampaignEngine.PublishedAppend | Backend/controllers/campaignController.js:394-399 | publishing two batches equals publishing their concatenation |
| CampaignEngine.ProgressHub.constructor | Backend/controllers/campaignController.js:376 | no subscriber, no output, nothing ended |
| CampaignEngine.ProgressHub.Subscribe | Backend/controllers/campaignController.js:379-388 | 400 and the stream ended without a job id; otherwise the stream replaces any earlier subscriber of the job |
| CampaignEngine.ProgressHub.Disconnect | Backend/controllers/campaignController.js:389-391 | the job id loses its subscriber, whichever stream holds it by then |
| CampaignEngine.ProgressHub.Publish | Backend/controllers/campaignController.js:394-399 | the output grows by exactly the published writes of the line |
| CampaignEngine.ProgressHub.End | Backend/controllers/campaignController.js:342-343 | the job's subscriber, if any, is ended; otherwise nothing happens |
| CampaignEngine.HandleAll | Backend/controllers/campaignController.js:358-391 | requests served in turn only append to the ended streams |
| CampaignEngine.LastSubscriptionWins | Backend/controllers/campaignController.js:379-391 | `Handle`: a job's subscription changes only through a subscribe or close request for that job |
| CampaignEngine.Store.constructor | Backend/controllers/campaignController.js:113-115 | the four collections hold the given documents |
| CampaignEngine.CampaignRun.constructor | Backend/controllers/campaignController.js:131-171 | the run starts in the initial state of `CampaignRounds`, which is valid |
| CampaignEngine.CampaignRun.Log | Backend/controllers/campaignController.js:186-187 | the line is appended to `logs` and its frame goes to the job's subscriber |
| CampaignEngine.CampaignRun.ResetIfEmpty | Backend/controllers/campaignController.js:149-158 | each pool becomes its `Refill` |
| CampaignEngine.CampaignRun.TakeSender | Backend/controllers/campaignController.js:220 | the sender and the new pool are exactly `Draw` of the old pool |
| CampaignEngine.CampaignRun.TakeTemplate | Backend/controllers/campaignController.js:221 | the template and the new pool are exactly `Draw` of the old pool |
| CampaignEngine.CampaignRun.LogAll | Backend/controllers/campaignController.js:186-189 | the lines are appended in order and each frame is published |
| CampaignEngine.CampaignRun.SendOne | Backend/controllers/campaignController.js:242-319 | the new state is `Attempt` of the old one and the lines are published |
| CampaignEngine.CampaignRun.Charge | Backend/controllers/campaignController.js:271-297 | the sender-side writes of an attempt are `Charged` of the old state |
| CampaignEngine.CampaignRun.Deliver | Backend/controllers/campaignController.js:263-292 | the writes of the `try` path are those of `Attempt` with a delivery |
| CampaignEngine.CampaignRun.Reject | Backend/controllers/campaignController.js:293-317 | the writes of the `catch` path are those of `Attempt` with the rejection |
| CampaignEngine.CampaignRun.DrawPair | Backend/controllers/campaignController.js:217-221 | the two picks and pools are exactly `DrawBoth` |
| CampaignEngine.CampaignRun.Proceed | Backend/controllers/campaignController.js:229-319 | the new state is `AfterDraw` of the old one |
| CampaignEngine.CampaignRun.DrawAndProceed | Backend/controllers/campaignController.js:216-319 | the two draws followed by the step after them leave exactly the `Iterate` state, when no exit applies |
| CampaignEngine.CampaignRun.Step | Backend/controllers/campaignController.js:199-321 | one pass of the inner loop performs `Iterate` in place and keeps the invariant |
| CampaignEngine.CampaignRun.BeginRound | Backend/controllers/campaignController.js:176-196 | the top of the outer loop performs `StartRound` in place |
| CampaignEngine.CampaignRun.ClearFlags | Backend/controllers/campaignController.js:191-193 | every sender state loses its `finished` flag and keeps its count: the result is `ClearFinished` of the old states |
| CampaignEngine.CampaignRun.CloseRound | Backend/controllers/campaignController.js:324-337 | the bottom of the outer loop performs `EndRound` in place |
| CampaignEngine.CampaignRun.Conclude | Backend/controllers/campaignController.js:340-341 | the summary line is appended as `Finish` states |
| CampaignEngine.CampaignRun.Report | Backend/controllers/campaignController.js:340-347 | the reply is 200 with every line logged, the last one the summary; no recipient is left `failed`; one history entry per attempt |
| CampaignEngine.CampaignRun.OpenRound | Backend/controllers/campaignController.js:176-196 | keeps the invariant; a stop here leaves a completed state; the log only grows, and when the output echoed the log since a given point it still does |
| CampaignEngine.CampaignRun.EndRoundKeeping | Backend/controllers/campaignController.js:324-337 | keeps the invariant; a stop here leaves a completed state; the log only grows, and an echo of the log in the output is kept |
| CampaignEngine.CampaignRun.PlayTick | Backend/controllers/campaignController.js:199-213 | one pass: the requests are served (`HandleAll`); if they leave the job paused, the run's state and the output are untouched, otherwise exactly one `Iterate` runs; new log lines go to the job's subscriber (`PassOk`) |
| CampaignEngine.CampaignRun.Advance | Backend/controllers/campaignController.js:199-321 | a pass on the next tick is recorded in the trace; the log only grows; with no subscription change the output still echoes the log |
| CampaignEngine.CampaignRun.PlayRound | Backend/controllers/campaignController.js:199-321 | the inner loop keeps the invariant; every pass it made is recorded as a `PassOk` on its own tick, chained from the state before to the state after; while no request touches the job's subscription, the output after the loop is the output before it followed by the frames of every line logged since, in order |
| CampaignEngine.PausedPassIsIdle | Backend/controllers/campaignController.js:199-203 | no attempt begins while the status is paused: a recorded pass that leaves the job paused changes no recipient, sender, template, history entry, log line or write |
| CampaignEngine.RunningPassIterates | Backend/controllers/campaignController.js:207-321 | every other recorded pass is exactly one `Iterate` of the inner loop on its tick's draws |
| CampaignEngine.QuietKeepsSubscriber | Backend/controllers/campaignController.js:379-391 | requests that neither subscribe the job nor close its stream leave its subscriber as it was |
| CampaignEngine.PublishedSameSubscriber | Backend/controllers/campaignController.js:394-399 | what is published depends only on the job's own subscriber |
| CampaignEngine.EchoExtend | Backend/controllers/campaignController.js:394-399 | echoing the log in two pieces, with the same subscriber, is echoing it at once |
| CampaignRounds.IterateExtendsLogs | Backend/controllers/campaignController.js:199-321 | one iteration only appends to the log |
| CampaignEngine.CampaignRun.Run | Backend/controllers/campaignController.js:176-338 | the nested loops keep the invariant, and a run that ends leaves a completed state; every tick used is a recorded `PassOk` (so no attempt begins while paused); when no request touches the job's subscription, the writes made are exactly the frames of the lines logged, in order |
| CampaignEngine.Serve | Backend/controllers/campaignController.js:358-391 | the requests served in place have the effect of `HandleAll` |
| CampaignEngine.DoneMessage | Backend/controllers/campaignController.js:345 | the HTTP reply message starts with `Chiến dịch hoàn tất.` |
| CampaignEngine.Given | Backend/controllers/campaignController.js:132-133 | a given value is kept, a missing one takes the default |
| CampaignEngine.RequestConfigFits | Backend/controllers/campaignController.js:113-137 | once the checks pass, the queried senders and templates form a configuration the run can start from |
| CampaignEngine.SendCampaign | Backend/controllers/campaignController.js:101-352 | 500 with nothing changed when the template ids are missing; the first failing start-up check's 400 with nothing changed; a 200 ends with the summary, leaves no `failed` recipient and one history entry per attempt |
| CampaignEngine.Launch | Backend/controllers/campaignController.js:162-347 | after the checks, a run that ends replies 200 with the summary last and no recipient `failed` |
| EmailModel.ContainsAnyIff | Backend/models/emailModel.js:350-380 | the chain of `includes` holds exactly when one of the words occurs |
| EmailModel.ContainsAnyPrefix | Backend/models/emailModel.js:350-380 | a longer word list matches whatever a prefix of it matches |
| EmailModel.MentionsIff | Backend/models/emailModel.js:344-348 | a group is mentioned exactly when one of its words occurs in the lower-cased text |
| EmailModel.CategorizeDocumentPrecedence | Backend/models/emailModel.js:344-384 | `CategorizeDocument`: the category is the first of marketing, support, sales, spam (subject words) and personal (free-mail domain) that matches, else other, each as an if-and-only-if |
| EmailModel.ThreadId | Backend/models/emailModel.js:386-394 | `inReplyTo` when set, else the first reference, else the message's own id |
| EmailModel.AttachmentSizes | Backend/models/emailModel.js:302 | one size per attachment, a missing size counting as 0 |
| EmailModel.ReduceSizesSum | Backend/models/emailModel.js:302 | the left fold of sizes is the start value plus the sum of the sizes |
| EmailModel.TotalSizeIsSum | Backend/models/emailModel.js:282-304 | `hasAttachments` exactly when the attachment count is positive; the total size is the message size plus every attachment size, and the early return agrees with it |
| EmailModel.PreSave | Backend/models/emailModel.js:307-332 | stamps `updatedAt`; categorises when the category is unset or `other`; derives a missing thread id; a spam score of 7 or more forces `isSpam` and the `SPAM` folder; no other field changes |
| EmailModel.PreSaveIdempotent | Backend/models/emailModel.js:307-332 | running the hook twice is running it once, up to the timestamp |
| EmailModel.PreSaveValidates | Backend/models/emailModel.js:307-332 | a document that passed validation still passes after the hook |
| EmailModel.Save | Backend/models/emailModel.js:307-332 | `Validates`: a save succeeds exactly when validation passes, and stores the hooked document |
| EmailModel.WithItem | Backend/models/emailModel.js:413-416 | the item is present afterwards and only it is added; a list that held it is unchanged |
| EmailModel.WithItemKeepsDistinct | Backend/models/emailModel.js:413-428 | adding keeps a list free of duplicates, and adding twice is adding once |
| EmailModel.EmailDocument.constructor | Backend/models/emailModel.js:1-268 | the document holds the given fields |
| EmailModel.EmailDocument.SaveDocument | Backend/models/emailModel.js:307-332 | succeeds exactly when the document validates; then it holds the hooked record, else it is unchanged |
| EmailModel.EmailDocument.MarkAsRead | Backend/models/emailModel.js:396-400 | read and opened now, then saved through the hook; a failed save leaves the record with only that change |
| EmailModel.EmailDocument.MarkAsUnread | Backend/models/emailModel.js:402-406 | unread with `openedAt` cleared, then saved through the hook; a failed save leaves the record with only that change |
| EmailModel.EmailDocument.MoveToFolder | Backend/models/emailModel.js:408-411 | a folder outside the six values fails; otherwise the folder is set unless the spam rule overrides it; a failed save leaves the record with only that change |
| EmailModel.EmailDocument.AddLabel | Backend/models/emailModel.js:413-418 | the labels become `WithItem` of the old labels; saved exactly when the document validates, then the whole record is the hooked one, otherwise the record is the old one with only that list changed |
| EmailModel.EmailDocument.RemoveLabel | Backend/models/emailModel.js:420-423 | every copy of the label is removed; saved exactly when the document validates, then the whole record is the hooked one, otherwise the record is the old one with only that list changed |
| EmailModel.EmailDocument.AddTag | Backend/models/emailModel.js:425-430 | the tags become `WithItem` of the old tags; saved exactly when the document validates, then the whole record is the hooked one, otherwise the record is the old one with only that list changed |
| EmailModel.EmailDocument.RemoveTag | Backend/models/emailModel.js:432-435 | every copy of the tag is removed; saved exactly when the document validates, then the whole record is the hooked one, otherwise the record is the old one with only that list changed |
| EmailService.ServiceCategorizePrecedence | Backend/services/emailService.js:517-547 | `ServiceCategorize`: the subject alone decides, in the order marketing, support, sales, spam, each as an if-and-only-if; never personal |
| EmailService.ServiceMarketingAgrees | Backend/services/emailService.js:517-526 | what the service calls marketing the document's own rule calls marketing too |
| EmailService.Priority | Backend/services/emailService.js:549-574 | the priority lies in `[2, 7]` |
| EmailService.PriorityBonus | Backend/services/emailService.js:549-574 | the bonus is exactly 2, given exactly when the subject mentions urgent or important; a sender without a category gets 3 or 5 |
| EmailService.SpamScore | Backend/services/emailService.js:576-591 | the score is the points of the indicators that fire, capped at 10 |
| EmailService.SpamTableTotal | Backend/services/emailService.js:582-588 | the indicator table adds the same points as the seven checks |
| EmailService.IndicatorTotalBounds | Backend/services/emailService.js:576-591 | `IndicatorTotal`: the points are at most the table's sum, and 0 when no indicator fires |
| EmailService.Points | Backend/services/emailService.js:582-588 | one entry per indicator, holding its points |
| EmailService.ServiceThreadId | Backend/services/emailService.js:503-511 | agrees with the document's rule when the message has an id; a message with nothing to go on gets the generated id |
| EmailService.ZeroStats | Backend/services/emailService.js:480-487 | an entry for exactly the six folders |
| EmailService.LastRow | Backend/services/emailService.js:489-493 | the last aggregation row for a folder, or none when it has no row |
| EmailService.FormatStats | Backend/services/emailService.js:480-495 | the loop's result is the six zero entries overwritten by the rows in order |
| EmailService.ApplyRowsValue | Backend/services/emailService.js:489-493 | `ApplyRows`: after the rows a key holds its last row, else what it held |
| EmailService.ApplyRowsSnoc | Backend/services/emailService.js:489-493 | one more row overwrites only its own folder |
| EmailService.FormatStatsSpec | Backend/services/emailService.js:462-495 | the statistics always list the six folders; a folder without rows is all zeros, one with rows holds the last of them |
| EmailService.ListQuery | Backend/services/emailService.js:323-384 | account and folder are always constrained; every other condition is present exactly when its option is given, with the option's value |
| EmailService.Pages | Backend/services/emailService.js:401 | `Math.ceil(total / limit)`: the least page count covering the total; non-finite for a zero limit |
| EmailService.PagesCover | Backend/services/emailService.js:386-401 | `Skip`: with a positive limit the last page starts inside the total and ends at or after it |
| EmailService.Prepare | Backend/services/emailService.js:298-307 | the account id and address are set and the message id is kept |
| EmailService.ProcessAndSave | Backend/services/emailService.js:282-320 | the loop saves exactly `SavedFrom`, and the store grows by exactly what it saved |
| EmailService.SavedFromStep | Backend/services/emailService.js:285-317 | one turn of the loop moves one email's outcome from the rest into the result |
| EmailService.SavedFromFresh | Backend/services/emailService.js:282-320 | `SavedFrom`: every saved email belongs to the account, validates, was not stored before, and no two share a message id |
| EmailService.StoredAppend | Backend/services/emailService.js:288-295 | an email found in the store is still found after more are saved |
| EmailService.PreSaveKeeps | Backend/services/emailService.js:310 | creating the document keeps its message id and account |
| EmailService.SavedWhenNew | Backend/services/emailService.js:285-317 | a new, valid email that meets no database error is saved: one failure does not stop the others |
| EmailService.SaveOne | Backend/services/emailService.js:285-317 | an email is saved exactly when it is not stored for the account, validates once prepared, and meets no database error; the saved document is the prepared, hooked one with the same message id |
| EmailService.Hooked | Backend/services/emailService.js:293-310 | one prepared, hooked document per input, position by position |
| EmailService.SavedInInputOrder | Backend/services/emailService.js:282-320 | the saved documents are the hooked inputs in input order, with skipped and failed ones left out |
| EmailService.SavedDespiteEarlierFailures | Backend/services/emailService.js:285-317 | an email new to the store and to the emails before it, valid and meeting no database error, is saved whatever happened to the emails before it |
| EmailService.EmailStore.constructor | Backend/services/emailService.js:407-415 | the store holds the given documents |
| EmailService.EmailStore.MoveToFolder | Backend/services/emailService.js:435-443 | unknown id: not found and nothing changes; invalid folder: error and nothing changes; else the hooked document is stored and returned |
| EmailService.MoveErrorText | Backend/services/emailService.js:435-443 | a missing email reports `Email not found`; a validation failure reports a different, fixed text |
| EmailService.EmailStore.Find | Backend/services/emailService.js:407-416 | found exactly for a stored id, with its document; otherwise not found |
| EmailService.EmailStore.MarkAsRead | Backend/services/emailService.js:419-432 | unknown id: not found; otherwise read or unread as asked, stored only when it validates |
| EmailService.EmailStore.PermanentlyDelete | Backend/services/emailService.js:451-459 | unknown id: not found and nothing changes; otherwise exactly that document is removed |
| EmailService.EmailStore.DeleteEmail | Backend/services/emailService.js:446-448 | a move to `TRASH`, with the move's three outcomes |
| EmailService.DeleteDestination | Backend/services/emailService.js:446-448 | a deleted email lands in `TRASH` unless its spam score is 7 or more, when the hook sends it to `SPAM` |
| BatchProcessor.CeilDivIsCeiling | Backend/services/batchEmailProcessor.js:266-272 | `CeilDiv`: the chunk count is the ceiling of `n / size`: enough slices to cover `n`, and one fewer would not |
| BatchProcessor.Chunks | Backend/services/batchEmailProcessor.js:266-272 | `ceil(n / size)` slices |
| BatchProcessor.ChunksFlatten | Backend/services/batchEmailProcessor.js:266-272 | `Flatten`: joining the chunks gives the input back |
| BatchProcessor.ChunksSizes | Backend/services/batchEmailProcessor.js:266-272 | every chunk is non-empty and at most `size` long, and all but the last are exactly `size` |
| BatchProcessor.ChunkArray | Backend/services/batchEmailProcessor.js:266-272 | the loop's slices are exactly `Chunks` |
| BatchProcessor.UrgentEmails | Backend/services/batchEmailProcessor.js:253-257 | non-empty exactly when some email of the chunk is urgent |
| BatchProcessor.BatchPriority | Backend/services/batchEmailProcessor.js:234-263 | the priority lies in `[2, 7]` |
| BatchProcessor.BatchPriorityAgrees | Backend/services/batchEmailProcessor.js:234-263 | a one-email chunk gets the service's priority for that email; the bonus applies exactly when some email is urgent; no email's own priority exceeds its chunk's |
| BatchProcessor.FailedEntries | Backend/services/batchEmailProcessor.js:151-158 | at most one error entry per email |
| BatchProcessor.Successes | Backend/services/batchEmailProcessor.js:149-150 | at most one success per email |
| BatchProcessor.FailedEntriesCount | Backend/services/batchEmailProcessor.js:147-160 | errors plus successes is the number of emails |
| BatchProcessor.FailedEntriesAppend | Backend/services/batchEmailProcessor.js:147-160 | one more email adds its error, or one success, and nothing else |
| BatchProcessor.ProcessChunk | Backend/services/batchEmailProcessor.js:140-163 | every email is attempted: the two counts add up to the chunk, and the errors are the failed emails in order |
| BatchProcessor.AsArray | Backend/services/batchEmailProcessor.js:25-27 | a single email becomes a one-element array; an array is kept |
| BatchProcessor.BatchEmailProcessor.constructor | Backend/services/batchEmailProcessor.js:6-21 | batch size 50, 3 concurrent batches, empty queue, zero statistics |
| BatchProcessor.BatchEmailProcessor.AddEmailsToQueue | Backend/services/batchEmailProcessor.js:24-48 | the queue grows by one entry per chunk, in order, and the chunk count is returned |
| BatchProcessor.BatchEmailProcessor.ClearQueue | Backend/services/batchEmailProcessor.js:305-309 | the queue becomes empty |
| BatchProcessor.BatchEmailProcessor.UpdateBatchSize | Backend/services/batchEmailProcessor.js:312-317 | a size in `1..200` is taken, any other is ignored |
| BatchProcessor.BatchEmailProcessor.UpdateMaxConcurrentBatches | Backend/services/batchEmailProcessor.js:320-325 | a value in `1..10` is taken, any other is ignored |
| BatchProcessor.BatchEmailProcessor.ResetStats | Backend/services/batchEmailProcessor.js:328-337 | the statistics return to zero with no times |
| BatchProcessor.AddedEntries | Backend/services/batchEmailProcessor.js:24-48 | `Entries`: one call adds `ceil(n / batchSize)` entries numbered from 0 whose chunks join back to the input, each non-empty, at most `batchSize` long and with its own chunk's priority |
| BatchProcessor.EntriesSnoc | Backend/services/batchEmailProcessor.js:31-38 | the entries of one more chunk are the earlier entries followed by that chunk's entry, numbered by its position |
| BatchProcessor.Batches | Backend/services/batchEmailProcessor.js:31-38 | the chunk of each queue entry, in order |
| ConnectionPool.IndexOf | Backend/services/connectionPool.js:179 | the first position holding the id, or none when no connection has it |
| ConnectionPool.FirstAvailable | Backend/services/connectionPool.js:40-42 | the first connection that is idle and not in use, or none when there is no such connection |
| ConnectionPool.RemoveAt | Backend/services/connectionPool.js:185 | `splice(i, 1)` removes one element |
| ConnectionPool.CountInUse | Backend/services/connectionPool.js:235-236 | a filtered count is at most the number of connections |
| ConnectionPool.IdsOf | Backend/services/connectionPool.js:173-193 | the connection ids, position by position |
| ConnectionPool.EnsurePool | Backend/services/connectionPool.js:17-34 | the sender has a pool afterwards; an existing pool is kept; otherwise an empty pool of cap 3 is added |
| ConnectionPool.EnsurePoolIdempotent | Backend/services/connectionPool.js:17-34 | creating a pool that exists changes nothing, and other pools are untouched |
| ConnectionPool.RemoveConnSpec | Backend/services/connectionPool.js:173-194 | `RemoveConn`: only the named pool changes; only the matching connection goes; the pool is deleted exactly when nothing is left in it |
| ConnectionPool.StaleIds | Backend/services/connectionPool.js:202-204 | `Stale`: exactly the ids of connections unused for more than the idle timeout |
| ConnectionPool.Fresh | Backend/services/connectionPool.js:202-204 | exactly the connections that are not stale |
| ConnectionPool.WithoutIds | Backend/services/connectionPool.js:206-209 | dropping ids never lengthens the list |
| ConnectionPool.ConnectionPool.constructor | Backend/services/connectionPool.js:5-14 | no pools |
| ConnectionPool.ConnectionPool.CreatePool | Backend/services/connectionPool.js:17-34 | the pools become `EnsurePool` and the sender's pool is returned |
| ConnectionPool.ConnectionPool.GetConnection | Backend/services/connectionPool.js:36-84 | reuse exactly when an idle unused connection exists (the first one); else open one below the cap; else queue the request; other pools untouched |
| ConnectionPool.StoredResolver | Backend/services/connectionPool.js:71-75 | the callback a queue entry holds is the wrapper, never the promise's own `resolve` |
| ConnectionPool.ConnectionPool.TimeOutWaiter | Backend/services/connectionPool.js:63-69 | as written: the lookup by the promise's own `resolve` finds no entry (index -1), the queue is untouched and the request is rejected with `Connection timeout` |
| ConnectionPool.TimedOutHeadIsServed | Backend/services/connectionPool.js:63-69 | as written, a timed-out request at the head of the queue is handed the next released connection, and the queue behind it stays |
| ConnectionPool.ConnectionPool.TimeOutWaiterCorrected | Backend/services/connectionPool.js:63-69 | corrected: the first entry with the ticket leaves the queue (`WithoutWaiter`), and the request is rejected |
| ConnectionPool.DropTicketAt | Backend/services/connectionPool.js:64-67 | `findIndex` then `splice` on the ticket drops exactly the first entry with it, or nothing |
| ConnectionPool.DropTicketGone | Backend/services/connectionPool.js:64-67 | with distinct tickets, no entry for the ticket is left and every other entry stays |
| ConnectionPool.TimedOutNeverServed | Backend/services/connectionPool.js:63-170 | after the corrected timer, a release never hands the connection to the timed-out request, and every other waiting request is still queued |
| ConnectionPool.ConnectionPool.ReleaseConnection | Backend/services/connectionPool.js:152-170 | unknown pool or connection: nothing changes; else the connection is marked unused and the oldest waiter, if any, is handed it and leaves the queue; the whole effect is `Released` |
| ConnectionPool.ConnectionPool.RemoveConnection | Backend/services/connectionPool.js:173-194 | the pools become `RemoveConn` of the old pools |
| ConnectionPool.ConnectionPool.RemoveConnections | Backend/services/connectionPool.js:207-210 | removing the given ids one after another leaves the pools as `RemoveEach` of the old pools |
| ConnectionPool.ConnectionPool.CleanupIdleConnections | Backend/services/connectionPool.js:197-215 | no pool appears, and every pool ends as the removals of its own stale connections leave it |
| ConnectionPool.ConnectionPool.PoolStatusOf | Backend/services/connectionPool.js:225-247 | none exactly for an unknown sender; idle plus active is the total, and the counts match the pool |
| ConnectionPool.ConnectionPool.UpdatePoolConfig | Backend/services/connectionPool.js:292-300 | a present, non-zero cap replaces the pool's cap; otherwise nothing changes |
| ConnectionPool.ConnectionPool.ResetPool | Backend/services/connectionPool.js:275-289 | the sender's pool is removed and no other |
| ConnectionPool.ConnectionPool.CloseAllConnections | Backend/services/connectionPool.js:259-272 | no pools remain |
| ConnectionPool.InUseSplit | Backend/services/connectionPool.js:235-236 | every connection is counted as either idle or active, once |
| ConnectionPool.RemoveEachOthers | Backend/services/connectionPool.js:206-209 | removals for one sender leave every other pool as it was |
| ConnectionPool.RemoveEachOthersAll | Backend/services/connectionPool.js:206-209 | removals for one sender depend only on that sender's pool |
| ConnectionPool.RemoveAtIndexOf | Backend/services/connectionPool.js:179-186 | `findIndex` then `splice` drops the first connection with the id |
| ConnectionPool.RemoveFirstWithout | Backend/services/connectionPool.js:179-186 | with unique ids, removing one more id drops exactly that connection |
| ConnectionPool.RemoveEachWithout | Backend/services/connectionPool.js:206-209 | `RemoveEach`: removing distinct ids in turn leaves exactly the others, and deletes the pool when none is left |
| ConnectionPool.StaleIdsFacts | Backend/services/connectionPool.js:202-209 | the stale ids are distinct ids of the pool, and dropping them leaves exactly the fresh connections |
| ConnectionPool.CleanupRemovesStale | Backend/services/connectionPool.js:197-215 | with nothing stale a pool is left as it was (even an empty one); otherwise exactly the stale connections go, and the pool goes when nothing else is left |
| EmailController.ServiceErrorResponse | Backend/controllers/emailController.js:109-120 | 404 exactly for a missing email, 500 exactly for any other service failure |
| EmailController.LeadingDigits | Backend/controllers/emailController.js:44-45 | the longest prefix of decimal digits: a prefix, all digits, followed by no digit |
| EmailController.LeadingDigitsOf | Backend/controllers/emailController.js:44-45 | the digits of a number stop at the first non-digit |
| EmailController.ParseIntOfDecimal | Backend/controllers/emailController.js:44-45 | `ParseInt`: `parseInt` reads back the decimal text of any integer, also with trailing text such as `20px` |
| EmailController.ParseIntOfNat | Backend/controllers/emailController.js:44-45 | `parseInt` reads back the decimal text of any natural number |
| EmailController.ParseIntOfNegative | Backend/controllers/emailController.js:44-45 | `parseInt` reads back the decimal text of any negative integer |
| EmailController.ParseIntDigits | Backend/controllers/emailController.js:44-45 | digits followed by a non-digit read as their value |
| EmailController.ParseIntNegativeDigits | Backend/controllers/emailController.js:44-45 | a minus sign, digits and a non-digit read as the negated value |
| EmailController.GetEmailsOptions | Backend/controllers/emailController.js:11-54 | defaults for an absent folder, page, limit and sort; the limit never exceeds 100; each flag is absent exactly when its parameter is, and true exactly for the text `true` |
| EmailController.GetEmailsNumbers | Backend/controllers/emailController.js:44-45 | a decimal page and limit arrive as those numbers, the limit capped at 100 |
| EmailController.GetEmailsRequest | Backend/controllers/emailController.js:26-42 | an error exactly for a missing (400) or unknown (404) sender; otherwise the options |
| EmailController.FetchErrorResponse | Backend/controllers/emailController.js:177-189 | 400, 401, 408 by the first of `IMAP`, `authentication`, `timeout` the message contains, each as an if-and-only-if; else 500 |
| EmailController.FetchTimeouts | Backend/controllers/emailController.js:180-188 | the service's IMAP connection timeout is answered 400, only its fetch timeout 408 |
| EmailController.FetchEmailsFromServer | Backend/controllers/emailController.js:125-197 | the checks in order (400, 404, 400); 200 exactly when all pass and the fetch succeeds, with the fetched count in the message |
| EmailController.FetchRefusedForSchemaSender | Backend/controllers/emailController.js:146-151 | as written, every sender loaded through the sender schema is refused with 400 before the fetch |
| EmailController.FetchReachesServerWithSyncFields | Backend/controllers/emailController.js:146-170 | with the sync fields present, an enabled sender with an IMAP host reaches the fetch, whose outcome decides the reply |
| EmailController.MoveRequestCheck | Backend/controllers/emailController.js:244-265 | passes exactly for an id and one of the six folders; otherwise 400, `Folder is required` for a missing folder |
| EmailController.CheckedMoveValidates | Backend/controllers/emailController.js:259-266 | once the folder is validated, a move fails only for a document invalid in some other field |
| EmailController.MoveToFolder | Backend/controllers/emailController.js:239-291 | check failures change nothing; unknown id is 404; 200 exactly when the moved document validates, which is then stored through the pre-save hook; every other reply, the 500 of a failed validation included, leaves the store unchanged |
| EmailController.GetEmailById | Backend/controllers/emailController.js:83-122 | 400 or 404 change nothing; a found email is returned as it was before the read mark, and an unread one is marked read in the store (read, opened now, through the pre-save hook); a mark that fails validation is 500 with no data and the store unchanged |
| EmailController.MarkAsRead | Backend/controllers/emailController.js:200-236 | 400 and 404 change nothing; `isRead` defaults to true; 200 exactly when the marked document (read flag set, `openedAt` now or cleared) validates, and then the store holds it through the pre-save hook and the message says which; any other reply leaves the store unchanged |
| EmailController.PreSaveKeepsRead | Backend/models/emailModel.js:307-332 | the pre-save hook never touches the read flag |
| EmailController.DeleteEmail | Backend/controllers/emailController.js:294-329 | 400 and 404 change nothing; 200 exactly when the document moved to `TRASH` validates, and then the store holds it through the pre-save hook (so a spam score of 7 or more lands it in `SPAM`, `DeleteDestination`); a 500 leaves the store unchanged |
| EmailController.PermanentlyDeleteEmail | Backend/controllers/emailController.js:332-366 | 200 exactly for a stored id, which is then removed; otherwise nothing changes |
| EmailController.ParseOperation | Backend/controllers/emailController.js:481-503 | unknown exactly for a name outside the five operations |
| EmailController.BulkOne | Backend/controllers/emailController.js:479-508 | a failed id names itself and changes nothing |
| EmailController.BulkRun | Backend/controllers/emailController.js:479-508 | one outcome per id |
| EmailController.BulkRunIds | Backend/controllers/emailController.js:505-507 | the error at each position names the id at that position |
| EmailController.OksErrsPartition | Backend/controllers/emailController.js:504-507 | `Oks` and `Errs`: every outcome lands in exactly one of `results` and `errors` |
| EmailController.BulkRejected | Backend/controllers/emailController.js:481-503 | an unknown operation, or a move without folder, fails every id with the same message and changes nothing |
| EmailController.BulkMissing | Backend/controllers/emailController.js:479-508 | an id that is not stored fails, as not found for a valid operation, and changes nothing |
| EmailController.ApplyOne | Backend/controllers/emailController.js:479-508 | one pass of the loop on the store performs `BulkOne` |
| EmailController.BulkRunStep | Backend/controllers/emailController.js:479-508 | one pass moves one outcome from the rest of the loop into the pushed lists |
| EmailController.RunBulk | Backend/controllers/emailController.js:476-508 | the pushed results and errors and the final store are exactly those of `BulkRun` |
| EmailController.BulkProgressStep | Backend/controllers/emailController.js:476-508 | the loop invariant survives one pass |
| EmailController.BulkOperations | Backend/controllers/emailController.js:463-531 | 400, changing nothing, exactly when a parameter is missing; otherwise every id is processed and success plus error counts equal the number of ids |
| EmailController.SearchQuery | Backend/controllers/emailController.js:546-553 | accepted exactly when the trimmed query's JavaScript `length` (UTF-16 code units, two for a character above U+FFFF) is at least two; then the trimmed query is used; else 400 |
| EmailController.SearchQueryBmp | Backend/controllers/emailController.js:546-553 | for text without characters above U+FFFF the check is "at least two characters" |
| EmailController.SearchQueryAstral | Backend/controllers/emailController.js:546-553 | a single character above U+FFFF, such as an emoji, is two code units and is accepted |
| EmailController.SearchQueryTrimmed | Backend/controllers/emailController.js:546-553 | surrounding white space never changes the outcome |
| EmailController.HtmlBody | Backend/controllers/emailController.js:657 | no line break is left, and each one became the four characters `<br>` |
| EmailController.HtmlBodyAppend | Backend/controllers/emailController.js:657 | the replacement distributes over concatenation |
| EmailController.HtmlBodyPlain | Backend/controllers/emailController.js:657 | a body without line breaks is sent as it is |
| EmailController.FromHeader | Backend/controllers/emailController.js:653 | the display name is the sender's name, or its address when it has none |
| EmailController.ComposeMail | Backend/controllers/emailController.js:652-658 | recipient, subject and text are kept; the HTML is the body with `<br>` for line breaks |
| EmailController.SendErrorResponse | Backend/controllers/emailController.js:698-713 | 401 exactly for `EAUTH`, 503 exactly for `ECONNECTION`, else 500 |
| EmailController.SendEmail | Backend/controllers/emailController.js:619-715 | 400 exactly when a field is missing, 404 exactly for an unknown sender, 200 exactly when the transport succeeds, else the transport error's status |
| SenderController.WithDefaults | Backend/controllers/senderController.js:14-19 | every field kept except `host`, `port` and `secure`, which get their defaults exactly when missing (falsy host or port, non-boolean secure) |
| SenderController.WithDefaultsIdempotent | Backend/controllers/senderController.js:14-19 | filling the defaults twice is filling them once |
| SenderController.AddSenders | Backend/controllers/senderController.js:12-28 | as written: a non-array body is 409, an empty array 400, otherwise 201 or 409 by the insert, every account with its defaults |
| SenderController.AddSendersNonArray | Backend/controllers/senderController.js:14-22 | the array check never rejects a non-array body |
| SenderController.AddSendersChecked | Backend/controllers/senderController.js:20-22 | with the array test first: 400 exactly for a non-array or empty body, else as written |
| SenderController.StripUndefined | Backend/controllers/senderController.js:32-35 | `host`, `port`, `secure` are dropped exactly when undefined; every other key and value is kept |
| SenderController.StripParsedJson | Backend/controllers/senderController.js:32-35 | a body parsed from JSON passes unchanged |
| SenderController.ApplyUpdate | Backend/controllers/senderController.js:36 | the update's schema paths overwrite the document, everything else of the document stays |
| SenderController.ZeroSentCounts | Backend/controllers/senderController.js:57 | the same senders, each with `sentCount` 0 and nothing else changed |
| SenderController.ZeroSentCountsIdempotent | Backend/controllers/senderController.js:54-71 | resetting twice is resetting once, and every count is then zero |
| SenderController.SenderStore.constructor | Backend/controllers/senderController.js:1 | the store holds the given senders |
| SenderController.SenderStore.UpdateSender | Backend/controllers/senderController.js:30-42 | an unknown id is 404 and changes nothing; otherwise 200 with the stripped update applied to that sender alone |
| SenderController.SenderStore.DeleteSender | Backend/controllers/senderController.js:44-51 | 200, and the id is gone whether or not it existed |
| SenderController.SenderStore.ResetSentCounts | Backend/controllers/senderController.js:54-71 | 200, and every sender's count is zeroed |
| SenderController.SignedDecimal | Backend/controllers/senderController.js:114 | `Number` on trimmed text: empty text is 0; digits, or a `+` or `-` sign and digits, read as their signed value; a lone sign is NaN |
| SenderController.ToNumberOfText | Backend/controllers/senderController.js:114 | `ToNumber`: `Number` reads back the decimal text of every integer, negative ones included |
| SenderController.RowDailyLimit | Backend/controllers/senderController.js:99 | a missing or falsy limit cell is 100 |
| SenderController.Entry | Backend/controllers/senderController.js:111-115 | the queued account carries the trimmed email and password and the row's limit |
| SenderController.ClassifyAsWritten | Backend/controllers/senderController.js:96-117 | as written (keyed on the raw cell): every row lands in exactly one of the three lists |
| SenderController.ClassifyAsWrittenStep | Backend/controllers/senderController.js:96-117 | one pass of the loop keeps pushed-so-far plus the rest equal to the whole classification |
| SenderController.ClassifyRowsAsWritten | Backend/controllers/senderController.js:89-117 | the three lists the loop pushes are the as-written classification against the stored emails |
| SenderController.ClassifyAsWrittenNew | Backend/controllers/senderController.js:106-116 | a complete row with an unseen cell is queued first and its cell is seen afterwards |
| SenderController.ClassifyAsWrittenTwo | Backend/controllers/senderController.js:96-117 | two complete rows with different cells are both queued |
| SenderController.ClassifyAsWrittenDuplicates | Backend/controllers/senderController.js:106-116 | `"a@b.c"` and `" a@b.c"` are both queued, as the same email |
| SenderController.ClassifyHead | Backend/controllers/senderController.js:101-116 | keyed on the trimmed email, each row adds exactly one entry to one list |
| SenderController.ClassifyTotal | Backend/controllers/senderController.js:96-117 | `Classify`: keyed on the trimmed email: every row lands in exactly one list |
| SenderController.ClassifyDistinct | Backend/controllers/senderController.js:94-117 | keyed on the trimmed email, no account is queued twice and none that is already stored |
| SenderController.AddSendersFromExcel | Backend/controllers/senderController.js:74-154 | as written: 400 without a file, else always 500 |
| SenderController.ExcelUploadAlwaysFails | Backend/controllers/senderController.js:80 | no upload is ever answered 200 |
| SenderController.ImportSenders | Backend/controllers/senderController.js:76-149 | 400 exactly for no file or no rows; otherwise the report lists the existing and faulty rows, and the inserted count is the number of queued accounts that pass the schema (non-empty email and password, a limit that is not NaN), or 0 when the insert fails |
| SenderController.NaNLimitNotInserted | Backend/controllers/senderController.js:110-131 | a complete new row whose limit cell is NaN is queued, yet the import reports nothing inserted, as the unordered `insertMany` skips it |
| SenderController.NaNLimitCell | Backend/controllers/senderController.js:99-114 | the limit cell `abc` makes `Number` NaN on a complete row |
| SenderController.LetterTextIsNaN | Backend/controllers/senderController.js:114 | `Number` of a text that starts and ends with a letter is NaN |
| SenderController.ImportNeverEmpty | Backend/controllers/senderController.js:119-121 | a non-empty sheet always fills some list, so the "nothing found" answer is unreachable |
| RecipientController.StatusName | Backend/models/recipientModel.js:15-16 | every status is one of the schema's three names |
| RecipientController.StatusNameInjective | Backend/models/recipientModel.js:16 | two statuses share a name exactly when they are equal |
| RecipientController.AddRecipient | Backend/controllers/recipientController.js:21-31 | 400 exactly for a missing or empty email; stored exactly when the email trims to something, as `pending` with the trimmed email and the trimmed name, or no name when none is given; otherwise 500 |
| RecipientController.AddRecipientTrimmed | Backend/models/recipientModel.js:5-11 | what is stored is already in trimmed form and its email is not empty |
| RecipientController.ForcePending | Backend/controllers/recipientController.js:41 | one object per element, each with status `pending` and every other key and value kept |
| RecipientController.ForcePendingIdempotent | Backend/controllers/recipientController.js:41 | forcing `pending` twice is forcing it once |
| RecipientController.AddRecipientsFromJson | Backend/controllers/recipientController.js:33-47 | 400 exactly for no file, a non-array or an empty array; 500 exactly for unparsable text or a failed insert; 201 otherwise, inserting every element as `pending` and reporting their number |
| RecipientController.CollectCsvRows | Backend/controllers/recipientController.js:97-115 | the records and skipped rows the handler pushes are exactly the accepted and skipped rows, in row order |
| RecipientController.CsvEntry | Backend/controllers/recipientController.js:106-111 | a `pending` record with the trimmed email and the trimmed name, or the empty name when the cell is missing or empty |
| RecipientController.CsvPartition | Backend/controllers/recipientController.js:106-114 | `CsvAccepted` and `CsvSkipped`: every row lands in exactly one list; skipped rows have no email and each record comes from a row that has one |
| RecipientController.CsvAcceptedTrimmed | Backend/controllers/recipientController.js:107-111 | every record is `pending` with a trimmed email and a trimmed name |
| RecipientController.CsvNoneAccepted | Backend/controllers/recipientController.js:117-119 | nothing is collected exactly when no row has an email |
| RecipientController.CsvEntryValidIffAdd | Backend/models/recipientModel.js:4-8 | a collected record passes the schema exactly when `addRecipient` would store the same email |
| RecipientController.CsvEntryAccepted | Backend/controllers/recipientController.js:104-111 | every row with an email contributes its record to the collected list |
| RecipientController.CsvCreated | Backend/controllers/recipientController.js:124-129 | the records the unordered insert stores are exactly the entries of the rows whose email is not blank once trimmed |
| RecipientController.BlankEmailRowNotCreated | Backend/controllers/recipientController.js:104-129 | a row whose email is a single space is collected as a record with an empty email, and the insert stores nothing of it |
| RecipientController.AddRecipientsFromCsv | Backend/controllers/recipientController.js:86-144 | 400 exactly for no file or no email in any row; 201 exactly when the insert succeeds, with the skipped rows and the collected records that pass the schema (a non-empty trimmed email), the ones the unordered insert returns; 409 with the duplicate emails for duplicate keys, otherwise 500 |
| RecipientController.ResetWhere | Backend/controllers/recipientController.js:175-178 | one document out per document in |
| RecipientController.StatusCount | Backend/models/recipientModel.js:15-16 | never more than the number of documents |
| RecipientController.Modified | Backend/controllers/recipientController.js:180-181 | never more than the number of documents |
| RecipientController.ResetWhereAt | Backend/controllers/recipientController.js:175-178 | exactly the selected documents become `pending`; ids, emails and other documents are untouched |
| RecipientController.ResetWhereCounts | Backend/controllers/recipientController.js:173-202 | resetting `sent` or `failed` leaves none of that status, adds its count to `pending`, and `modifiedCount` is that count |
| RecipientController.ResetAllPending | Backend/controllers/recipientController.js:77-84 | after the full reset every document is `pending` |
| RecipientController.ResetWhereIdempotent | Backend/controllers/recipientController.js:175-178 | a repeated reset changes nothing and modifies no document |
| RecipientController.ResetStep | Backend/controllers/recipientController.js:175-178 | the modified count grows by one exactly for a selected document that was not yet `pending` |
| RecipientController.ResetMatching | Backend/controllers/recipientController.js:175-181 | the array afterwards is the reset of the array before, and the count is the modified count |
| RecipientController.ResetRecipientsStatus | Backend/controllers/recipientController.js:77-84 | 200, and every document is reset |
| RecipientController.ResetSentStatus | Backend/controllers/recipientController.js:173-186 | 200; the `sent` documents are reset and the reply counts them, in number and in text |
| RecipientController.ResetFailedStatus | Backend/controllers/recipientController.js:189-202 | 200; the `failed` documents are reset and the reply counts them, in number and in text |
| RecipientController.FindId | Backend/controllers/recipientController.js:160 | the first position holding the id, or none exactly when no document holds it |
| RecipientController.ResetStatus | Backend/controllers/recipientController.js:157-170 | an unknown id is 404 and changes nothing; otherwise that document alone becomes `pending` and is returned |
| RecipientController.FindFirst | Backend/controllers/recipientController.js:160 | the first index holding the id is the one found |
| RecipientController.ResetOneOthersUntouched | Backend/controllers/recipientController.js:164-165 | resetting one recipient leaves every other document as it was |
| RecipientController.PlanRecipients | Backend/controllers/recipientController.js:7-14 | a plan exactly when both numbers parse; filtered exactly when a non-empty status is given, on that status |
| RecipientController.PlanDefaults | Backend/controllers/recipientController.js:7 | without paging values the first 100 documents are asked for |
| RecipientController.PlanNumbers | Backend/controllers/recipientController.js:9-14 | decimal page and size give `skip = (page - 1) * size` and limit `size` |
| RecipientController.Filtered | Backend/controllers/recipientController.js:8-11 | exactly the documents with the asked status, or all of them, none added |
| RecipientController.FilteredAll | Backend/controllers/recipientController.js:8 | with no status the whole list, in order |
| RecipientController.Window | Backend/controllers/recipientController.js:13-14 | a contiguous slice starting at the skip, no longer than the limit's magnitude, empty past the end |
| RecipientController.PagesTile | Backend/controllers/recipientController.js:9-14 | consecutive pages of one size join into the window of twice the size, so no document is skipped or repeated |
| RecipientController.WindowWithin | Backend/controllers/recipientController.js:13-14 | a page holds only listed documents |
| RecipientController.GetRecipients | Backend/controllers/recipientController.js:5-19 | 500 exactly for a NaN number or negative skip; otherwise the matching total and the requested window of matching documents |
| RecipientController.GetRecipientsPage | Backend/controllers/recipientController.js:5-19 | a page holds only documents of the asked status and at most the page size; with no status the total is the collection size |
| CampaignSender.Toggle | Frontend/src/components/CampaignSender.tsx:130-140 | the toggled id is selected afterwards exactly when it was not before; every other id keeps its state |
| CampaignSender.ToggleNoDuplicates | Frontend/src/components/CampaignSender.tsx:130-140 | toggling never selects an id twice |
| CampaignSender.ToggleTwice | Frontend/src/components/CampaignSender.tsx:130-140 | toggling an unselected id twice restores the selection; a selected one keeps the same ids and moves to the end |
| CampaignSender.CheckAll | Frontend/src/components/CampaignSender.tsx:292-302 | a fully checked page is removed from the selection; otherwise the selection is kept as a prefix and the page's ids are added |
| CampaignSender.EmptyPageNotChecked | Frontend/src/components/CampaignSender.tsx:292 | an empty page is never all checked, and check-all then changes nothing |
| CampaignSender.CheckAllNoDuplicates | Frontend/src/components/CampaignSender.tsx:293-302 | check-all never selects an id twice |
| CampaignSender.CheckAllRoundTrip | Frontend/src/components/CampaignSender.tsx:292-302 | checking a page none of whose ids is selected, then unchecking it, restores the selection |
| CampaignSender.Validate | Frontend/src/components/CampaignSender.tsx:180-200 | the request is sent exactly when a template is chosen, `0 <= minDelay <= maxDelay` and the limit is at least 1; otherwise the first failing check's message |
| CampaignSender.StartSend | Frontend/src/components/CampaignSender.tsx:143-200 | the job's viewer is appended as `running` with no lines before the checks run, whatever their outcome; the request is posted exactly when the checks pass, and a refused send leaves its viewer `running` |
| CampaignSender.ValidatedDelays | Frontend/src/components/CampaignSender.tsx:188-200 | validated settings make every delay the engine draws lie between 0 and `maxDelay` |
| CampaignSender.ColonFrom | Frontend/src/components/CampaignSender.tsx:161 | the first `:` at or after a position, or none exactly when there is none |
| CampaignSender.CaptureAt | Frontend/src/components/CampaignSender.tsx:161 | a match at a position is the phrase followed by a non-empty run without `:` that ends at a `:`, and the capture is that run |
| CampaignSender.MatchFromShape | Frontend/src/components/CampaignSender.tsx:161-162 | `MatchFrom`: any match captures a non-empty address without `:` |
| CampaignSender.MatchFromSkip | Frontend/src/components/CampaignSender.tsx:161 | positions where the phrase does not start do not change the leftmost match |
| CampaignSender.FailureLineShape | Backend/controllers/campaignController.js:300 | an engine failure line is its lead, the phrase, the address, `: ` and the error |
| CampaignSender.FailedAddressOfFailureLine | Frontend/src/components/CampaignSender.tsx:161-162 | `FailedAddress`: the pattern reads the recipient address out of every engine failure line whose sender does not hold the phrase and whose address holds no `:` |
| CampaignSender.AddFailed | Frontend/src/components/CampaignSender.tsx:158-165 | the list gains exactly the address of a listed, matching line, and never holds an address twice |
| CampaignSender.OnMessage | Frontend/src/components/CampaignSender.tsx:153-172 | the line is appended to the viewer's own log; it becomes done exactly when it was done or the line ends the run |
| CampaignSender.Feed | Frontend/src/components/CampaignSender.tsx:153-177 | a stream of lines never changes which job the viewer follows |
| CampaignSender.FeedKeeps | Frontend/src/components/CampaignSender.tsx:153-172 | the live viewer keeps every line in order and never lists an address twice |
| CampaignSender.RenderAll | Backend/controllers/campaignController.js:394-399 | one text per engine line, in order |
| CampaignSender.NeverFinished | Frontend/src/components/CampaignSender.tsx:169-173 | as written, no line the engine emits marks a viewer done |
| CampaignSender.FeedNeverDone | Frontend/src/components/CampaignSender.tsx:169-173 | as written, a viewer fed a whole run stays running |
| CampaignSender.FeedCorrectedDone | Frontend/src/components/CampaignSender.tsx:169-173 | with the summary's own prefix, a viewer is done exactly once the summary has arrived |
| CampaignSender.FailureLineNotListed | Frontend/src/components/CampaignSender.tsx:159 | as written, an engine failure line is never read for an address |
| CampaignSender.FailureLineListedCorrected | Frontend/src/components/CampaignSender.tsx:158-165 | with the corrected filter, a failure line adds its address, appended once |
| CampaignSender.BatchMatchesLive | Frontend/src/components/CampaignSender.tsx:158-241 | `BatchFailed`: the list built from the response and the one built live name the same addresses |

## Left out

- The SMTP transport, IMAP connections and mail parsing (`connectIMAP`, `fetchEmails` and the parsing in `Backend/services/emailService.js`, `createNewConnection` in `Backend/services/connectionPool.js`): I/O; each outcome is an input of the operation that uses it.
- The timing of `sendCampaign`: the one-second pause poll and the delay between sends are not waited for; a paused job simply takes no step, and the drawn delay is proved to lie in its range.
- The legacy `sendChunk` of `Backend/controllers/campaignController.js`: no route or caller reaches it; only its log format is cited, as evidence for a finding.
- CampaignEngine.CampaignRun.Run: driven by a finite sequence of ticks (random draws, transport outcomes and pause or resume requests); when the ticks run out inside a round it returns false and the model says nothing about the rest of the campaign.
- Concurrency: requests that would interleave with a running campaign are served between its steps, one tick at a time; in the source they are served only at the campaign's `await`s, and the loop that spins at `totalLimit` has none. The race between a pool's waiter timing out and a release is modelled as two separate operations. ConnectionPool.ConnectionPool.GetConnection checks the cap (Backend/services/connectionPool.js:52) and pushes the new connection (line 54) across an `await`, so concurrent callers can each pass the check and exceed `maxConnections`; the model runs each call as one atomic step and proves the cap only for calls that do not overlap.
- HTTP and SSE plumbing (headers, `req.on('close')` timing, JSON serialisation of rows and errors, `console` logging): only the statuses, messages, frames and registry contents are modelled.
- Mongoose casting, `null` values and the unique index: a stored document is a record; the database's verdict on an insert is an input.
- `getSenders` and the sort order of queries: collections are held in creation order.
- `updateRecipient`, `deleteRecipient` and `clearRecipients` in `Backend/controllers/recipientController.js`: plain pass-through database calls with no logic of their own.
- The CSV stream's `error` event and the handlers' outer `catch` blocks: failures of the parsing libraries, which are not part of this model.
- JSON upload elements that are not objects: an element is a map of string fields.
- `getEmailStats` and `toggleEmailSync` in `Backend/controllers/emailController.js`, and `getEmailThread`: thin wrappers around the service and the sync queue; the statistics formatting itself is modelled in `EmailService`.
- The reply update in `sendEmail` (marking the original as replied): a database side effect after the transport call.
- `parseInt` and `Number` with hexadecimal prefixes or exponents, and floating-point values: numbers are integers given in decimal, with an optional sign.
- Lower-casing: only ASCII letters are folded.
- The statics of `Backend/models/emailModel.js` (`findByThread`, `findUnread`, `findByCategory`, `searchEmails`): database queries.
- `startProcessing`, `processBatch`, `getQueueStatus`, pause/resume and `getStatistics` of `Backend/services/batchEmailProcessor.js`: asynchronous batch driving and float percentages.
- `startCleanupInterval`, `getAllPoolsStatus` and `getStatistics` of `Backend/services/connectionPool.js`: a timer and reporting wrappers.
- ConnectionPool.CleanupRemovesStale: proved for pools whose connection ids are distinct; the source makes them from a timestamp and a random suffix, so their distinctness is an assumption, not something the code checks.
- The UI side of `Frontend/src/components/CampaignSender.tsx` beyond the modelled helpers: the EventSource lifecycle, axios calls, localStorage, `handlePauseResume`, template search, pagination and sorting.
- CampaignEngine.CampaignRun.PlayTick: serves the tick's requests on every pass, also once the run spins at `totalLimit` (`CampaignRounds.LimitSpins`). In the source, a spinning pass that is not paused never yields (Backend/controllers/campaignController.js:199-214), so after the first such pass no request is answered at all; the model's later ticks still serve requests, and a pause among them takes effect, which the source cannot do. The run's state is the same either way, since a spinning pass changes nothing.
- CampaignSender.Validate: the settings are integers. In the source they come from `Number(...)` or `parseInt(...)` of the input fields (Frontend/src/components/CampaignSender.tsx:106-108, 436-459) and can be NaN; every comparison with NaN is false, so a NaN delay or limit passes all three checks.
- RecipientController.GetRecipients: a NaN number or a negative skip is answered 500, taking the database driver's refusal as given.
- BatchProcessor.BatchEmailProcessor.AddEmailsToQueue: the post-state is the queue with the new entries appended; when the processor is idle, `startProcessing` (Backend/services/batchEmailProcessor.js:43-45, 51-74) runs synchronously up to its first `await` and shifts up to `maxConcurrentBatches` entries off the front before the call returns. That dequeue is not modelled, because `startProcessing` and `processBatch` are not part of this model.
- The database writes of a campaign attempt (Backend/controllers/campaignController.js:270-282 in the `try`, 293-307 in the `catch`) are taken to succeed. A write that throws after `sendMail` succeeded would send control to the `catch`: the recipient would be marked `failed` although the mail went out, and the sender would be charged a second time. A write that throws inside the `catch` would end the campaign with the 500 reply of line 350. Neither path is modelled, because the database's verdict on each write is not an input of the run.
- The sender schema (Backend/models/senderModel.js:3-48) has no `isEmailSyncEnabled`, `imapHost`, `smtpHost`, `smtpPort`, `smtpSecure`, `password` or `name`. `fetchEmailsFromServer` therefore refuses every sender (see Findings). In `sendEmail` (Backend/controllers/emailController.js:641-653) the transport gets no host, port or password, and the `from` name falls back to the address. The model takes the transport's outcome as an input, so this shows only through that input.
- EmailService.MoveErrorText: a failed validation is reported as `Email validation failed`, the start of the message that the `Email` model's validation error carries; the per-field details after it are not modelled.
- RecipientController.Modified: counts the documents whose status changes. The collection keeps timestamps, so MongoDB counts every matched document as modified. The two agree for the `sent` and `failed` resets, the only ones whose count is reported. For the unfiltered reset, `ResetWhereIdempotent`'s "modifies no document" holds only for the status.

## Findings

| source | as written | input that shows it | evidently intended | confidence | as-written member | corrected member |
|---|---|---|---|---|---|---|
| Frontend/src/components/CampaignSender.tsx:159 | a line is read for a failed address only when it starts with `[` and holds `Lỗi gửi tới` | any engine failure line, such as `Vòng 1 - [a@x.com] Lỗi gửi tới b@y.com: timeout` (built at Backend/controllers/campaignController.js:300), starts with `V` and is never read | every line holding the phrase is read, so the failed address `b@y.com` is listed | not executed | CampaignSender.FailureLineNotListed | CampaignSender.FailureLineListedCorrected |
| Frontend/src/components/CampaignSender.tsx:169-173 | a viewer is done when a line starts with `Chiến dịch hoàn tất.` | the final line `Chiến dịch hoàn tất sau 1 vòng…` (Backend/controllers/campaignController.js:340-341) never starts with it, so no viewer is ever done | the viewer is done exactly when the summary line arrives | not executed | CampaignSender.FeedNeverDone | CampaignSender.FeedCorrectedDone |
| Backend/controllers/senderController.js:106-116 | a row is a duplicate when its raw `Email` cell was seen, but the trimmed email is stored | two rows with `a@b.c` and ` a@b.c` both become new accounts with the email `a@b.c` | no email is queued twice, nor one already stored | not executed | SenderController.ClassifyAsWrittenDuplicates | SenderController.ClassifyDistinct |
| Backend/controllers/senderController.js:80 | `xlsx` is used but never imported | any upload with a file is answered 500 | the sheet is read and its rows imported | not executed | SenderController.ExcelUploadAlwaysFails | SenderController.ImportSenders |
| Backend/controllers/senderController.js:14-22 | `req.body.map` runs before `Array.isArray` | a JSON object as body throws in `map` and is answered 409 | a body that is not an array is answered 400 | not executed | SenderController.AddSendersNonArray | SenderController.AddSendersChecked |
| Backend/services/connectionPool.js:64 | the timer looks its waiter up by `w.resolve === resolve`, but the queue holds the wrapper of lines 72-75, so the lookup is always -1 and the waiter stays queued | one queued request whose timer fires, then `releaseConnection` of one of the sender's connections: the connection goes to the rejected request, and a later request behind it keeps waiting | the timed-out waiter leaves the queue and is never handed a connection | not executed | ConnectionPool.TimedOutHeadIsServed | ConnectionPool.TimedOutNeverServed |
| Backend/controllers/emailController.js:146 | `fetchEmailsFromServer` requires `sender.isEmailSyncEnabled` and `sender.imapHost`, but the sender schema (Backend/models/senderModel.js:3-48) declares neither, so both read as `undefined` | any existing sender id: the reply is 400 `Email sync is not enabled for this sender` and no mail is fetched | the schema holds the sync settings, and an enabled sender with an IMAP host is fetched | not executed | EmailController.FetchRefusedForSchemaSender | EmailController.FetchReachesServerWithSyncFields |
