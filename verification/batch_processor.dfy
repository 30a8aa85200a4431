/** The batch processor for fetched mail: it cuts the mail into chunks, queues
    one entry per chunk with a priority, processes a chunk email by email, and
    keeps its two settings inside their accepted ranges. */
module BatchProcessor {
  import opened Common
  import opened EmailModel
  import opened EmailService

  // ---------------------------------------------------------------------
  // Chunking
  // ---------------------------------------------------------------------

  /** The chunks joined back together. */
  function Flatten<T>(chunks: seq<seq<T>>): seq<T>
  {
    if chunks == [] then [] else chunks[0] + Flatten(chunks[1..])
  }

  /** The number of slices of `size` needed for `n` elements. */
  function CeilDiv(n: nat, size: nat): nat
    requires size > 0
    decreases n
  {
    if n == 0 then 0 else if n <= size then 1 else 1 + CeilDiv(n - size, size)
  }

  /** It is the ceiling of n / size: the least count whose slices cover `n`. */
  lemma {:induction false} CeilDivIsCeiling(n: nat, size: nat)
    requires size > 0
    ensures CeilDiv(n, size) * size >= n
    ensures n > 0 ==> (CeilDiv(n, size) - 1) * size < n
    decreases n
  {
    if n > size {
      CeilDivIsCeiling(n - size, size);
      var k := CeilDiv(n - size, size);
      assert (k + 1) * size == k * size + size;
    }
  }

  /** The slices `a[i .. i + size]` for i = 0, size, 2·size, … below `|a|`. */
  function Chunks<T>(a: seq<T>, size: nat): (c: seq<seq<T>>)
    requires size > 0
    ensures |c| == CeilDiv(|a|, size)
    decreases |a|
  {
    if a == [] then []
    else if |a| <= size then [a]
    else [a[..size]] + Chunks(a[size..], size)
  }

  /** Joining the chunks gives the input back. */
  lemma {:induction false} ChunksFlatten<T>(a: seq<T>, size: nat)
    requires size > 0
    ensures Flatten(Chunks(a, size)) == a
    decreases |a|
  {
    var c := Chunks(a, size);
    if a == [] {
    } else if |a| <= size {
      assert c[1..] == [];
    } else {
      ChunksFlatten(a[size..], size);
      assert c[1..] == Chunks(a[size..], size);
      assert a[..size] + a[size..] == a;
    }
  }

  /** Every chunk is non-empty and holds at most `size` elements, all but the
      last exactly `size`. */
  lemma {:induction false} ChunksSizes<T>(a: seq<T>, size: nat)
    requires size > 0
    ensures forall j :: 0 <= j < |Chunks(a, size)| ==> 0 < |Chunks(a, size)[j]| <= size
    ensures forall j :: 0 <= j < |Chunks(a, size)| - 1 ==> |Chunks(a, size)[j]| == size
    decreases |a|
  {
    if |a| > size {
      var rest := Chunks(a[size..], size);
      ChunksSizes(a[size..], size);
      assert forall j :: 1 <= j < |Chunks(a, size)| ==> Chunks(a, size)[j] == rest[j - 1];
    }
  }

  /** `chunkArray`: slices of `size` elements taken from the front; the last
      one holds what is left. */
  method ChunkArray<T>(a: seq<T>, size: nat) returns (chunks: seq<seq<T>>)
    requires size > 0
    ensures chunks == Chunks(a, size)
  {
    chunks := [];
    var i := 0;
    while i < |a|
      invariant i <= |a| ==> chunks + Chunks(a[i..], size) == Chunks(a, size)
      invariant i > |a| ==> chunks == Chunks(a, size)
    {
      var end := if i + size <= |a| then i + size else |a|;
      if end < |a| {
        assert a[i..][..size] == a[i..end] && a[i..][size..] == a[end..];
        assert chunks + Chunks(a[i..], size) == (chunks + [a[i..end]]) + Chunks(a[end..], size);
      } else {
        assert a[i..end] == a[i..];
      }
      chunks := chunks + [a[i..end]];
      i := i + size;
    }
    if i <= |a| {
      assert a[i..] == [];
    }
  }

  // ---------------------------------------------------------------------
  // Priority
  // ---------------------------------------------------------------------

  /** The subject mentions `urgent` or `important`. */
  predicate Urgent(e: EmailRecord)
  {
    var s := Lower(e.subject);
    Contains(s, "urgent") || Contains(s, "important")
  }

  /** `emails.filter(...)` keeping the urgent ones. */
  function UrgentEmails(emails: seq<EmailRecord>): (r: seq<EmailRecord>)
    ensures |r| > 0 <==> exists i :: 0 <= i < |emails| && Urgent(emails[i])
  {
    if emails == [] then []
    else
      assert forall i :: 1 <= i < |emails| ==> emails[i] == emails[1..][i - 1];
      (if Urgent(emails[0]) then [emails[0]] else []) + UrgentEmails(emails[1..])
  }

  /** The batch's `calculatePriority`: the base of the sender's category, plus
      2 when any email of the chunk is urgent. */
  function BatchPriority(emails: seq<EmailRecord>, senderCategory: Option<string>): (p: int)
    ensures 2 <= p <= 7
  {
    var base := if senderCategory == Some("support") then 5
                else if senderCategory == Some("sales") then 4
                else if senderCategory == Some("marketing") then 2
                else 3;
    if |UrgentEmails(emails)| > 0 then base + 2 else base
  }

  /** A chunk's priority is the service priority of its most urgent email, and
      a one-email chunk has exactly the service priority of that email. */
  lemma BatchPriorityAgrees(emails: seq<EmailRecord>, senderCategory: Option<string>)
    ensures |emails| == 1 ==> BatchPriority(emails, senderCategory) == Priority(senderCategory, emails[0].subject)
    ensures (exists i :: 0 <= i < |emails| && Urgent(emails[i])) <==>
            BatchPriority(emails, senderCategory) == BatchPriority([], senderCategory) + 2
    ensures forall i :: 0 <= i < |emails| ==> Priority(senderCategory, emails[i].subject) <= BatchPriority(emails, senderCategory)
  {
    if |emails| == 1 {
      assert emails[1..] == [];
    }
  }

  // ---------------------------------------------------------------------
  // Processing one chunk
  // ---------------------------------------------------------------------

  /** The outcome of `processSingleEmail` for one email: `None` when it
      returned, the error message when it threw. */
  type Outcome = Option<string>

  datatype ChunkError = ChunkError(emailId: string, error: string)

  datatype ChunkResults = ChunkResults(successCount: nat, errorCount: nat, errors: seq<ChunkError>)

  /** The errors of a chunk, one per failed email, in order. */
  function FailedEntries(emails: seq<EmailRecord>, outcomes: seq<Outcome>): (r: seq<ChunkError>)
    requires |outcomes| == |emails|
    ensures |r| <= |emails|
    decreases |emails|
  {
    if emails == [] then []
    else
      (if outcomes[0].Some? then [ChunkError(emails[0].messageId, outcomes[0].value)] else [])
      + FailedEntries(emails[1..], outcomes[1..])
  }

  /** Number of emails that went through. */
  function Successes(outcomes: seq<Outcome>): (n: nat)
    ensures n <= |outcomes|
  {
    if outcomes == [] then 0 else (if outcomes[0].None? then 1 else 0) + Successes(outcomes[1..])
  }

  lemma {:induction false} FailedEntriesCount(emails: seq<EmailRecord>, outcomes: seq<Outcome>)
    requires |outcomes| == |emails|
    ensures |FailedEntries(emails, outcomes)| + Successes(outcomes) == |emails|
    decreases |emails|
  {
    if emails != [] {
      FailedEntriesCount(emails[1..], outcomes[1..]);
    }
  }

  lemma FailedEntriesAppend(emails: seq<EmailRecord>, outcomes: seq<Outcome>, e: EmailRecord, o: Outcome)
    requires |outcomes| == |emails|
    ensures FailedEntries(emails + [e], outcomes + [o])
            == FailedEntries(emails, outcomes) + (if o.Some? then [ChunkError(e.messageId, o.value)] else [])
    ensures Successes(outcomes + [o]) == Successes(outcomes) + (if o.None? then 1 else 0)
    decreases |emails|
  {
    if emails == [] {
      assert emails + [e] == [e] && outcomes + [o] == [o];
    } else {
      assert (emails + [e])[1..] == emails[1..] + [e];
      assert (outcomes + [o])[1..] == outcomes[1..] + [o];
      FailedEntriesAppend(emails[1..], outcomes[1..], e, o);
    }
  }

  /** `processChunk`: every email is attempted; a failure is counted and
      recorded and the loop goes on. */
  method ProcessChunk(emails: seq<EmailRecord>, outcomes: seq<Outcome>) returns (r: ChunkResults)
    requires |outcomes| == |emails|
    ensures r.successCount + r.errorCount == |emails|
    ensures r.errorCount == |r.errors|
    ensures r.errors == FailedEntries(emails, outcomes)
    ensures r.successCount == Successes(outcomes)
  {
    r := ChunkResults(0, 0, []);
    var i := 0;
    while i < |emails|
      invariant 0 <= i <= |emails|
      invariant r.errors == FailedEntries(emails[..i], outcomes[..i])
      invariant r.successCount == Successes(outcomes[..i])
      invariant r.errorCount == |r.errors|
    {
      FailedEntriesAppend(emails[..i], outcomes[..i], emails[i], outcomes[i]);
      assert emails[..i + 1] == emails[..i] + [emails[i]];
      assert outcomes[..i + 1] == outcomes[..i] + [outcomes[i]];
      if outcomes[i].None? {
        r := r.(successCount := r.successCount + 1);
      } else {
        r := r.(errorCount := r.errorCount + 1, errors := r.errors + [ChunkError(emails[i].messageId, outcomes[i].value)]);
      }
      i := i + 1;
    }
    assert emails[..i] == emails && outcomes[..i] == outcomes;
    FailedEntriesCount(emails, outcomes);
  }

  // ---------------------------------------------------------------------
  // The processor object
  // ---------------------------------------------------------------------

  /** What `addEmailsToQueue` is given: an array, or a single email. */
  datatype EmailInput = Many(emails: seq<EmailRecord>) | One(email: EmailRecord)

  function AsArray(input: EmailInput): (r: seq<EmailRecord>)
    ensures input.One? ==> r == [input.email]
    ensures input.Many? ==> r == input.emails
  {
    match input
    case Many(es) => es
    case One(e) => [e]
  }

  datatype QueueEntry = QueueEntry(emails: seq<EmailRecord>, sender: SenderAccount, batchIndex: nat, priority: int)

  datatype Stats = Stats(totalProcessed: nat, totalBatches: nat, totalErrors: nat,
                         startTime: Option<int>, endTime: Option<int>)

  const EmptyStats := Stats(0, 0, 0, None, None)

  class BatchEmailProcessor {
    var batchSize: int
    var maxConcurrentBatches: int
    var queue: seq<QueueEntry>
    var stats: Stats

    /** The two settings stay inside the ranges their setters accept. */
    ghost predicate Valid()
      reads this
    {
      1 <= batchSize <= 200 && 1 <= maxConcurrentBatches <= 10
    }

    constructor ()
      ensures Valid()
      ensures batchSize == 50 && maxConcurrentBatches == 3 && queue == [] && stats == EmptyStats
    {
      batchSize := 50;
      maxConcurrentBatches := 3;
      queue := [];
      stats := EmptyStats;
    }

    /** `addEmailsToQueue`: one entry per chunk, appended in order; returns
        the number of chunks. */
    method AddEmailsToQueue(input: EmailInput, sender: SenderAccount) returns (k: nat)
      requires Valid()
      modifies this`queue
      ensures Valid()
      ensures queue == old(queue) + Entries(Chunks(AsArray(input), batchSize), sender)
      ensures k == |Chunks(AsArray(input), batchSize)|
    {
      var chunks := ChunkArray(AsArray(input), batchSize);
      ghost var q0 := queue;
      var index := 0;
      while index < |chunks|
        invariant 0 <= index <= |chunks|
        invariant queue == q0 + Entries(chunks[..index], sender)
      {
        EntriesSnoc(chunks, sender, index);
        queue := queue + [QueueEntry(chunks[index], sender, index, BatchPriority(chunks[index], sender.category))];
        index := index + 1;
      }
      assert chunks[..index] == chunks;
      k := |chunks|;
    }

    /** `clearQueue` */
    method ClearQueue()
      modifies this`queue
      ensures queue == []
    {
      queue := [];
    }

    /** `updateBatchSize`: only 1..200 is accepted. */
    method UpdateBatchSize(newSize: int)
      requires Valid()
      modifies this`batchSize
      ensures Valid()
      ensures 0 < newSize <= 200 ==> batchSize == newSize
      ensures !(0 < newSize <= 200) ==> batchSize == old(batchSize)
    {
      if 0 < newSize <= 200 {
        batchSize := newSize;
      }
    }

    /** `updateMaxConcurrentBatches`: only 1..10 is accepted. */
    method UpdateMaxConcurrentBatches(newMax: int)
      requires Valid()
      modifies this`maxConcurrentBatches
      ensures Valid()
      ensures 0 < newMax <= 10 ==> maxConcurrentBatches == newMax
      ensures !(0 < newMax <= 10) ==> maxConcurrentBatches == old(maxConcurrentBatches)
    {
      if 0 < newMax <= 10 {
        maxConcurrentBatches := newMax;
      }
    }

    /** `resetStats` */
    method ResetStats()
      modifies this`stats
      ensures stats == EmptyStats
    {
      stats := EmptyStats;
    }
  }

  /** The queue entries for a list of chunks, numbered from 0. */
  function Entries(chunks: seq<seq<EmailRecord>>, sender: SenderAccount): (r: seq<QueueEntry>)
  {
    seq(|chunks|, j requires 0 <= j < |chunks| => QueueEntry(chunks[j], sender, j, BatchPriority(chunks[j], sender.category)))
  }

  /** The entries of one more chunk end with that chunk's entry. */
  lemma EntriesSnoc(chunks: seq<seq<EmailRecord>>, sender: SenderAccount, i: nat)
    requires i < |chunks|
    ensures Entries(chunks[..i + 1], sender)
            == Entries(chunks[..i], sender) + [QueueEntry(chunks[i], sender, i, BatchPriority(chunks[i], sender.category))]
  {
    var l, r := Entries(chunks[..i + 1], sender), Entries(chunks[..i], sender) + [QueueEntry(chunks[i], sender, i, BatchPriority(chunks[i], sender.category))];
    assert |l| == |r|;
    forall j | 0 <= j < |l| ensures l[j] == r[j] {
      if j < i {
        assert chunks[..i + 1][j] == chunks[..i][j];
      }
    }
  }

  /** What one call adds to the queue: ceil(n / batchSize) entries numbered
      0, 1, … whose chunks join back to the emails given (a single email
      counting as a one-element array), each non-empty and at most
      `batchSize` long, each with the priority of its own chunk. */
  lemma AddedEntries(input: EmailInput, sender: SenderAccount, batchSize: nat)
    requires batchSize > 0
    ensures var added := Entries(Chunks(AsArray(input), batchSize), sender);
            && |added| == CeilDiv(|AsArray(input)|, batchSize)
            && Flatten(Batches(added)) == AsArray(input)
            && (forall j :: 0 <= j < |added| ==>
                  && added[j].batchIndex == j && added[j].sender == sender
                  && 0 < |added[j].emails| <= batchSize
                  && added[j].priority == BatchPriority(added[j].emails, sender.category))
  {
    var chunks := Chunks(AsArray(input), batchSize);
    ChunksFlatten(AsArray(input), batchSize);
    ChunksSizes(AsArray(input), batchSize);
    assert Batches(Entries(chunks, sender)) == chunks;
  }

  /** The chunks held by a run of queue entries. */
  function Batches(entries: seq<QueueEntry>): (r: seq<seq<EmailRecord>>)
    ensures |r| == |entries|
    ensures forall j :: 0 <= j < |entries| ==> r[j] == entries[j].emails
  {
    if entries == [] then [] else [entries[0].emails] + Batches(entries[1..])
  }
}
