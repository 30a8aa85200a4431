/** The campaign screen's own logic: the template selection it keeps, the
    settings it checks before starting, and how each progress viewer reads
    the engine's lines (which addresses failed, and when the run is over). */
module CampaignSender {
  import opened Common
  import opened CampaignModel

  // ---------------------------------------------------------------------
  // Template selection
  // ---------------------------------------------------------------------

  /** Removing `x` keeps every other element. */
  lemma {:induction false} RemoveAllKeeps(xs: seq<string>, x: string, y: string)
    requires y in xs && y != x
    ensures y in RemoveAll(xs, x)
  {
    if xs[0] != y {
      RemoveAllKeeps(xs[1..], x, y);
    }
  }

  /** `handleCheckboxChange`: a selected id is filtered out, any other is appended. */
  function Toggle(selected: seq<string>, id: string): (r: seq<string>)
    ensures id in r <==> id !in selected
    ensures forall x :: x != id ==> (x in r <==> x in selected)
  {
    if id in selected then
      var r := RemoveAll(selected, id);
      assert forall x :: x != id && x in selected ==> x in r by {
        forall x | x != id && x in selected
          ensures x in r
        {
          RemoveAllKeeps(selected, id, x);
        }
      }
      r
    else selected + [id]
  }

  /** Toggling keeps the selection free of duplicates. */
  lemma ToggleNoDuplicates(selected: seq<string>, id: string)
    requires NoDuplicates(selected)
    ensures NoDuplicates(Toggle(selected, id))
  {
    if id in selected {
      RemoveAllNoDuplicates(selected, id);
    }
  }

  /** Toggling an unselected id twice restores the selection exactly; toggling
      a selected one twice keeps the same ids and moves it to the end. */
  lemma ToggleTwice(selected: seq<string>, id: string)
    requires NoDuplicates(selected)
    ensures id !in selected ==> Toggle(Toggle(selected, id), id) == selected
    ensures id in selected ==> Toggle(Toggle(selected, id), id) == RemoveAll(selected, id) + [id]
  {
    if id !in selected {
      RemoveAllAbsent(selected, id);
      RemoveAllSnoc(selected, id);
    }
  }

  lemma RemoveAllSnoc(xs: seq<string>, x: string)
    requires x !in xs
    ensures RemoveAll(xs + [x], x) == xs
  {
    RemoveAllAppend(xs, [x], x);
    RemoveAllAbsent(xs, x);
    assert RemoveAll([x], x) == RemoveAll([x][1..], x);
    assert [x][1..] == [];
  }

  /** `xs` with the elements of `ys` filtered out, in order. */
  function Without(xs: seq<string>, ys: seq<string>): (r: seq<string>)
    ensures |r| <= |xs|
    ensures forall z :: z in r <==> z in xs && z !in ys
  {
    if xs == [] then [] else (if xs[0] in ys then [] else [xs[0]]) + Without(xs[1..], ys)
  }

  lemma {:induction false} WithoutNoDuplicates(xs: seq<string>, ys: seq<string>)
    requires NoDuplicates(xs)
    ensures NoDuplicates(Without(xs, ys))
  {
    if xs != [] {
      WithoutNoDuplicates(xs[1..], ys);
      var rest := Without(xs[1..], ys);
      assert xs[0] !in xs[1..];
      assert xs[0] !in rest;
      AppendNoDuplicates(if xs[0] in ys then [] else [xs[0]], rest);
    }
  }

  lemma AppendNoDuplicates(a: seq<string>, b: seq<string>)
    requires NoDuplicates(a) && NoDuplicates(b)
    requires forall x :: x in a ==> x !in b
    ensures NoDuplicates(a + b)
  {
    var c := a + b;
    forall i, j | 0 <= i < j < |c|
      ensures c[i] != c[j]
    {
      if i < |a| && j >= |a| {
        assert c[i] in a && c[j] == b[j - |a|];
      }
    }
  }

  lemma {:induction false} WithoutAppend(a: seq<string>, b: seq<string>, ys: seq<string>)
    ensures Without(a + b, ys) == Without(a, ys) + Without(b, ys)
  {
    if a != [] {
      assert (a + b)[1..] == a[1..] + b;
      WithoutAppend(a[1..], b, ys);
    } else {
      assert a + b == b;
    }
  }

  lemma {:induction false} WithoutDisjoint(xs: seq<string>, ys: seq<string>)
    requires forall x :: x in xs ==> x !in ys
    ensures Without(xs, ys) == xs
  {
    if xs != [] {
      WithoutDisjoint(xs[1..], ys);
    }
  }

  lemma {:induction false} WithoutCovered(xs: seq<string>, ys: seq<string>)
    requires forall x :: x in xs ==> x in ys
    ensures Without(xs, ys) == []
  {
    if xs != [] {
      WithoutCovered(xs[1..], ys);
    }
  }

  /** `allChecked`: the page is non-empty and every id on it is selected. */
  predicate AllChecked(page: seq<string>, selected: seq<string>)
  {
    |page| > 0 && forall i :: 0 <= i < |page| ==> page[i] in selected
  }

  /** `handleCheckAll`: with the page all checked its ids are removed;
      otherwise the page ids not yet selected are appended. */
  function CheckAll(page: seq<string>, selected: seq<string>): (r: seq<string>)
    ensures AllChecked(page, selected) ==> forall x :: x in r <==> x in selected && x !in page
    ensures !AllChecked(page, selected) ==>
              |selected| <= |r| && r[..|selected|] == selected
              && forall x :: x in r <==> x in selected || x in page
  {
    if AllChecked(page, selected) then Without(selected, page)
    else
      var r := selected + Without(page, selected);
      assert r[..|selected|] == selected;
      r
  }

  /** An empty page is never all checked. */
  lemma EmptyPageNotChecked(selected: seq<string>)
    ensures !AllChecked([], selected)
    ensures CheckAll([], selected) == selected
  {
    assert selected + Without([], selected) == selected;
  }

  /** Check-all keeps the selection free of duplicates. */
  lemma CheckAllNoDuplicates(page: seq<string>, selected: seq<string>)
    requires NoDuplicates(page) && NoDuplicates(selected)
    ensures NoDuplicates(CheckAll(page, selected))
  {
    if AllChecked(page, selected) {
      WithoutNoDuplicates(selected, page);
    } else {
      WithoutNoDuplicates(page, selected);
      AppendNoDuplicates(selected, Without(page, selected));
    }
  }

  /** Checking a page none of whose ids is selected, then unchecking it,
      restores the selection. */
  lemma CheckAllRoundTrip(page: seq<string>, selected: seq<string>)
    requires |page| > 0 && NoDuplicates(page)
    requires forall x :: x in page ==> x !in selected
    ensures CheckAll(page, CheckAll(page, selected)) == selected
  {
    assert !AllChecked(page, selected) by {
      assert page[0] in page;
    }
    WithoutDisjoint(page, selected);
    var once := selected + page;
    assert CheckAll(page, selected) == once;
    assert AllChecked(page, once);
    WithoutAppend(selected, page, page);
    WithoutDisjoint(selected, page);
    WithoutCovered(page, page);
    assert Without(once, page) == selected + [];
    assert selected + [] == selected;
    CheckAllChecked(page, once);
  }

  lemma CheckAllChecked(page: seq<string>, selected: seq<string>)
    requires AllChecked(page, selected)
    ensures CheckAll(page, selected) == Without(selected, page)
  {
  }

  // ---------------------------------------------------------------------
  // Pre-send validation
  // ---------------------------------------------------------------------

  datatype Settings = Settings(selected: seq<string>, minDelay: int, maxDelay: int, concurrencyLimit: int)

  const NoTemplateMessage := "Vui lòng chọn ít nhất một mẫu email để gửi."
  const DelayOrderMessage := "Độ trễ tối thiểu không được lớn hơn độ trễ tối đa."
  const RangeMessage := "Các giá trị độ trễ và giới hạn gửi đồng thời phải hợp lệ (không âm, giới hạn đồng thời >= 1)."

  /** The checks `handleSend` makes before posting, in their order; the
      result is the message shown, or `None` when the request is sent. */
  function Validate(c: Settings): (r: Option<string>)
    ensures r.None? <==> |c.selected| > 0 && 0 <= c.minDelay <= c.maxDelay && c.concurrencyLimit >= 1
    ensures |c.selected| == 0 ==> r == Some(NoTemplateMessage)
    ensures |c.selected| > 0 && c.minDelay > c.maxDelay ==> r == Some(DelayOrderMessage)
    ensures |c.selected| > 0 && c.minDelay <= c.maxDelay && r.Some? ==> r == Some(RangeMessage)
  {
    if |c.selected| == 0 then Some(NoTemplateMessage)
    else if c.minDelay > c.maxDelay then Some(DelayOrderMessage)
    else if c.minDelay < 0 || c.maxDelay < 0 || c.concurrencyLimit < 1 then Some(RangeMessage)
    else None
  }

  /** Settings that pass give the engine a delay range whose every draw is a
      non-negative number of seconds no larger than `maxDelay`. */
  lemma ValidatedDelays(c: Settings, u: real)
    requires Validate(c).None? && IsUnit(u)
    ensures 0 <= RandomDelay(c.minDelay, c.maxDelay, u) <= c.maxDelay
  {
    RandomDelayInRange(c.minDelay, c.maxDelay, u);
  }

  /** The start of `handleSend`: the viewer of the new job is appended as
      `running`, and its stream opened, before any check runs; the checks
      then decide whether the request is posted. A refused send keeps its
      viewer: no request reaches the engine, so no line will ever mark it
      done. */
  function StartSend(viewers: seq<Viewer>, jobId: string, c: Settings): (r: (seq<Viewer>, Option<string>))
    ensures |r.0| == |viewers| + 1 && r.0[..|viewers|] == viewers
    ensures r.0[|viewers|] == Viewer(jobId, [], Running, [])
    ensures r.1.None? <==> |c.selected| > 0 && 0 <= c.minDelay <= c.maxDelay && c.concurrencyLimit >= 1
    ensures r.1.Some? ==> r.0[|viewers|].status == Running && r.1 == Validate(c)
  {
    (viewers + [Viewer(jobId, [], Running, [])], Validate(c))
  }

  // ---------------------------------------------------------------------
  // Reading a failed address out of a progress line
  // ---------------------------------------------------------------------

  /** The first `:` at or after `j`. */
  function ColonFrom(s: string, j: nat): (r: Option<nat>)
    ensures r.Some? ==> j <= r.value < |s| && s[r.value] == ':'
    ensures r.Some? ==> forall m :: j <= m < r.value ==> s[m] != ':'
    ensures r.None? ==> forall m :: j <= m < |s| ==> s[m] != ':'
    decreases |s| - j
  {
    if j >= |s| then None else if s[j] == ':' then Some(j) else ColonFrom(s, j + 1)
  }

  lemma {:induction false} ColonFromFirst(s: string, j: nat, k: nat)
    requires j <= k < |s| && s[k] == ':'
    requires forall m :: j <= m < k ==> s[m] != ':'
    ensures ColonFrom(s, j) == Some(k)
    decreases k - j
  {
    if j < k {
      ColonFromFirst(s, j + 1, k);
    }
  }

  /** `/Lỗi gửi tới ([^:]+):/` tried at position `i`: the phrase, one or more
      characters other than `:`, then `:`. The capture is those characters. */
  function CaptureAt(s: string, i: nat): (r: Option<string>)
    ensures r.Some? ==> OccursAt(s, FailurePhrase, i) && r.value != [] && ':' !in r.value
    ensures r.Some? ==> var k := i + |FailurePhrase| + |r.value|;
                        k < |s| && s[k] == ':' && s[i + |FailurePhrase|..k] == r.value
  {
    if !OccursAt(s, FailurePhrase, i) then None
    else
      var start := i + |FailurePhrase|;
      match ColonFrom(s, start)
      case None => None
      case Some(k) =>
        if k == start then None
        else
          var a := s[start..k];
          assert forall m :: 0 <= m < |a| ==> a[m] == s[start + m];
          Some(a)
  }

  /** `log.match(...)`: the leftmost position where the pattern matches. */
  function MatchFrom(s: string, i: nat): (r: Option<string>)
    decreases |s| - i
  {
    if i >= |s| then None
    else
      match CaptureAt(s, i)
      case Some(a) => Some(a)
      case None => MatchFrom(s, i + 1)
  }

  /** `match[1]`, when the line matches. */
  function FailedAddress(log: string): (r: Option<string>)
  {
    MatchFrom(log, 0)
  }

  /** A match found anywhere is a non-empty capture without `:` that the line holds. */
  lemma {:induction false} MatchFromShape(s: string, i: nat)
    requires MatchFrom(s, i).Some?
    ensures var a := MatchFrom(s, i).value; a != [] && ':' !in a
    decreases |s| - i
  {
    if CaptureAt(s, i).None? {
      MatchFromShape(s, i + 1);
    }
  }

  /** Positions where the phrase does not start are passed over. */
  lemma {:induction false} MatchFromSkip(s: string, i: nat, k: nat)
    requires i <= k <= |s|
    requires forall j :: i <= j < k ==> !OccursAt(s, FailurePhrase, j)
    ensures MatchFrom(s, i) == MatchFrom(s, k)
    decreases k - i
  {
    if i < k {
      MatchFromSkip(s, i + 1, k);
    }
  }

  // The failure line `Vòng r - [sender] Lỗi gửi tới to: error`, cut at the phrase.

  function FailureLead(round: nat, sender: string): string
  {
    "Vòng " + NatToString(round) + " - [" + sender + "] "
  }

  lemma FailureLineShape(round: nat, sender: string, to: string, error: string)
    ensures Render(SendFailed(round, sender, to, error))
            == FailureLead(round, sender) + FailurePhrase + to + ": " + error
  {
  }

  /** No character of the lead before the sender is the phrase's first letter. */
  lemma HeadHasNoL(round: nat, j: nat)
    requires j < |"Vòng " + NatToString(round) + " - ["|
    ensures ("Vòng " + NatToString(round) + " - [")[j] != 'L'
  {
    var n := NatToString(round);
    var h := "Vòng " + n + " - [";
    if j < 5 {
      assert h[j] == "Vòng "[j];
    } else if j < 5 + |n| {
      assert h[j] == n[j - 5];
    } else {
      assert h[j] == " - ["[j - 5 - |n|];
    }
  }

  /** The phrase does not start inside the lead when the sender does not hold it. */
  lemma LeadHasNoPhrase(round: nat, sender: string, rest: string, j: nat)
    requires !Contains(sender, FailurePhrase)
    requires j < |FailureLead(round, sender)|
    ensures !OccursAt(FailureLead(round, sender) + rest, FailurePhrase, j)
  {
    var h := "Vòng " + NatToString(round) + " - [";
    var t := FailureLead(round, sender) + rest;
    var p := FailurePhrase;
    assert p[0] == 'L';
    assert t == h + sender + "] " + rest;
    if j < |h| {
      HeadHasNoL(round, j);
      assert t[j] == h[j];
    } else if j < |h| + |sender| {
      var m := |h| + |sender| - j;
      if m >= |p| {
        assert t[j..j + |p|] == sender[j - |h|..j - |h| + |p|];
        if OccursAt(sender, p, j - |h|) {
          OccursAtContains(sender, p, j - |h|);
        }
      } else {
        assert ']' !in p;
        assert t[j + m] == ']';
        assert t[j + m] != p[m];
      }
    } else {
      assert t[j] == "] "[j - |h| - |sender|];
    }
  }

  /** A failure line of the engine yields the recipient address, provided the
      sender does not hold the phrase and the address holds no `:`. */
  lemma FailedAddressOfFailureLine(round: nat, sender: string, to: string, error: string)
    requires !Contains(sender, FailurePhrase)
    requires to != [] && ':' !in to
    ensures FailedAddress(Render(SendFailed(round, sender, to, error))) == Some(to)
    ensures Contains(Render(SendFailed(round, sender, to, error)), FailurePhrase)
  {
    var lead := FailureLead(round, sender);
    var rest := FailurePhrase + to + ": " + error;
    var t := lead + rest;
    FailureLineShape(round, sender, to, error);
    assert Render(SendFailed(round, sender, to, error)) == t;
    LeadSkipped(round, sender, rest);
    PhraseAfterLead(lead, to, error);
  }

  /** The search passes over the whole lead. */
  lemma LeadSkipped(round: nat, sender: string, rest: string)
    requires !Contains(sender, FailurePhrase)
    ensures var lead := FailureLead(round, sender);
            MatchFrom(lead + rest, 0) == MatchFrom(lead + rest, |lead|)
  {
    var lead := FailureLead(round, sender);
    var t := lead + rest;
    forall j | 0 <= j < |lead|
      ensures !OccursAt(t, FailurePhrase, j)
    {
      LeadHasNoPhrase(round, sender, rest, j);
    }
    MatchFromSkip(t, 0, |lead|);
  }

  /** Right after the lead the pattern matches and captures the address. */
  lemma PhraseAfterLead(lead: string, to: string, error: string)
    requires to != [] && ':' !in to
    ensures var t := lead + (FailurePhrase + to + ": " + error);
            MatchFrom(t, |lead|) == Some(to) && Contains(t, FailurePhrase)
  {
    var t := lead + (FailurePhrase + to + ": " + error);
    CaptureAfterLead(lead, to, error);
    MatchFromAt(t, |lead|, to);
    OccursAtContains(t, FailurePhrase, |lead|);
  }

  lemma CaptureAfterLead(lead: string, to: string, error: string)
    requires to != [] && ':' !in to
    ensures var t := lead + (FailurePhrase + to + ": " + error);
            |lead| < |t| && OccursAt(t, FailurePhrase, |lead|) && CaptureAt(t, |lead|) == Some(to)
  {
    var t := lead + (FailurePhrase + to + ": " + error);
    Pieces(lead, FailurePhrase, to, ": ", error);
    CaptureAtOf(t, |lead|, to);
  }

  lemma MatchFromAt(s: string, i: nat, a: string)
    requires i < |s| && CaptureAt(s, i) == Some(a)
    ensures MatchFrom(s, i) == Some(a)
  {
  }

  /** Where each piece of a concatenation sits. */
  lemma Pieces(lead: string, p: string, a: string, sep: string, rest: string)
    requires |sep| > 0
    ensures var t := lead + (p + a + sep + rest);
            var i := |lead| + |p|;
            i + |a| < |t| && t[|lead|..i] == p && t[i..i + |a|] == a && t[i + |a|] == sep[0]
  {
    var t := lead + (p + a + sep + rest);
    var i := |lead| + |p|;
    forall k | 0 <= k < |p|
      ensures t[|lead| + k] == p[k]
    {
    }
    assert t[|lead|..i] == p;
    forall k | 0 <= k < |a|
      ensures t[i + k] == a[k]
    {
    }
    assert t[i..i + |a|] == a;
  }

  /** The pattern matches at `i` when the phrase there is followed by `a`
      and a colon. */
  lemma CaptureAtOf(s: string, i: nat, a: string)
    requires OccursAt(s, FailurePhrase, i)
    requires a != [] && ':' !in a
    requires i + |FailurePhrase| + |a| < |s|
    requires s[i + |FailurePhrase|..i + |FailurePhrase| + |a|] == a
    requires s[i + |FailurePhrase| + |a|] == ':'
    ensures CaptureAt(s, i) == Some(a)
  {
    var start := i + |FailurePhrase|;
    forall m | start <= m < start + |a|
      ensures s[m] != ':'
    {
      assert s[m] == a[m - start];
    }
    ColonFromFirst(s, start, start + |a|);
  }

  // ---------------------------------------------------------------------
  // Progress viewers
  // ---------------------------------------------------------------------

  /** The line prefix `handleSend` waits for. */
  const DonePrefix := "Chiến dịch hoàn tất."

  /** As written: a line is read for an address only if it starts with `[`
      and holds the phrase. */
  predicate Listed(log: string)
  {
    StartsWith(log, "[") && Contains(log, FailurePhrase)
  }

  /** Corrected: every line holding the phrase is read. */
  predicate ListedCorrected(log: string)
  {
    Contains(log, FailurePhrase)
  }

  /** As written: the viewer closes on a line starting with `Chiến dịch hoàn tất.`. */
  predicate Finished(log: string)
  {
    StartsWith(log, DonePrefix)
  }

  /** Corrected: the viewer closes on the summary's own prefix. */
  predicate FinishedCorrected(log: string)
  {
    StartsWith(log, SummaryPrefix)
  }

  datatype ViewerStatus = Running | Done

  /** One progress viewer: its job, the lines received, and the failed addresses. */
  datatype Viewer = Viewer(jobId: string, logs: seq<string>, status: ViewerStatus, failedEmails: seq<string>)

  /** The live path's update of `failedEmails` for one line: a listed line
      whose address is not yet there appends it. */
  function AddFailed(failed: seq<string>, log: string, listed: bool): (r: seq<string>)
    ensures NoDuplicates(failed) ==> NoDuplicates(r)
    ensures forall a :: a in r <==> a in failed || (listed && FailedAddress(log) == Some(a))
  {
    if listed && FailedAddress(log).Some? && FailedAddress(log).value !in failed then
      var r := failed + [FailedAddress(log).value];
      assert forall i :: 0 <= i < |failed| ==> r[i] == failed[i];
      r
    else failed
  }

  /** `sse.onmessage` for one line; `corrected` picks the corrected filter and
      done test instead of the ones written. */
  function OnMessage(v: Viewer, log: string, corrected: bool): (r: Viewer)
    ensures r.jobId == v.jobId && r.logs == v.logs + [log]
    ensures r.status == Done <==> v.status == Done || (if corrected then FinishedCorrected(log) else Finished(log))
  {
    var listed := if corrected then ListedCorrected(log) else Listed(log);
    var done := if corrected then FinishedCorrected(log) else Finished(log);
    Viewer(v.jobId, v.logs + [log], if done then Done else v.status, AddFailed(v.failedEmails, log, listed))
  }

  /** The viewer after a stream of lines. */
  function Feed(v: Viewer, lines: seq<string>, corrected: bool): (r: Viewer)
    ensures r.jobId == v.jobId
    decreases |lines|
  {
    if lines == [] then v else OnMessage(Feed(v, lines[..|lines| - 1], corrected), lines[|lines| - 1], corrected)
  }

  /** The live path keeps every line and never lists an address twice. */
  lemma {:induction false} FeedKeeps(v: Viewer, lines: seq<string>, corrected: bool)
    requires NoDuplicates(v.failedEmails)
    ensures Feed(v, lines, corrected).logs == v.logs + lines
    ensures NoDuplicates(Feed(v, lines, corrected).failedEmails)
  {
    if lines != [] {
      var init := lines[..|lines| - 1];
      FeedKeeps(v, init, corrected);
      assert lines == init + [lines[|lines| - 1]];
    }
  }

  /** The rendered text of a run's lines. */
  function RenderAll(lines: seq<LogLine>): (r: seq<string>)
    ensures |r| == |lines| && forall i :: 0 <= i < |lines| ==> r[i] == Render(lines[i])
  {
    seq(|lines|, i requires 0 <= i < |lines| => Render(lines[i]))
  }

  /** As written, no line the engine emits marks a viewer done. */
  lemma NeverFinished(l: LogLine)
    ensures !Finished(Render(l))
  {
    var t := Render(l);
    SummaryPrefixOnlySummary(l);
    assert DonePrefix[..|SummaryPrefix|] == SummaryPrefix;
    assert DonePrefix[|SummaryPrefix|] == '.';
    if l.Summary? {
      assert t[|SummaryPrefix|] == ' ';
    }
  }

  /** As written, a viewer fed a whole run stays running. */
  lemma {:induction false} FeedNeverDone(v: Viewer, lines: seq<LogLine>)
    requires v.status == Running
    ensures Feed(v, RenderAll(lines), false).status == Running
  {
    if lines != [] {
      var init := lines[..|lines| - 1];
      FeedNeverDone(v, init);
      assert RenderAll(lines)[..|lines| - 1] == RenderAll(init);
      NeverFinished(lines[|lines| - 1]);
    }
  }

  /** With the corrected test, a viewer is done exactly once the summary arrives. */
  lemma {:induction false} FeedCorrectedDone(v: Viewer, lines: seq<LogLine>)
    requires v.status == Running
    ensures Feed(v, RenderAll(lines), true).status == Done <==> exists i :: 0 <= i < |lines| && lines[i].Summary?
  {
    if lines != [] {
      var init := lines[..|lines| - 1];
      var last := lines[|lines| - 1];
      FeedCorrectedDone(v, init);
      assert RenderAll(lines)[..|lines| - 1] == RenderAll(init);
      SummaryPrefixOnlySummary(last);
      if exists i :: 0 <= i < |lines| && lines[i].Summary? {
        var i :| 0 <= i < |lines| && lines[i].Summary?;
        if i < |lines| - 1 {
          assert init[i].Summary?;
        }
      }
      if exists i :: 0 <= i < |init| && init[i].Summary? {
        var i :| 0 <= i < |init| && init[i].Summary?;
        assert lines[i].Summary?;
      }
    }
  }

  /** As written, a failure line of the engine is never read for an address:
      it starts with `V`, not `[`. */
  lemma FailureLineNotListed(round: nat, sender: string, to: string, error: string)
    ensures !Listed(Render(SendFailed(round, sender, to, error)))
  {
    LeadAttempt(SendFailed(round, sender, to, error));
  }

  /** With the corrected filter, a failure line adds its recipient, once. */
  lemma FailureLineListedCorrected(v: Viewer, round: nat, sender: string, to: string, error: string)
    requires !Contains(sender, FailurePhrase)
    requires to != [] && ':' !in to
    ensures to in OnMessage(v, Render(SendFailed(round, sender, to, error)), true).failedEmails
    ensures to !in v.failedEmails ==>
              OnMessage(v, Render(SendFailed(round, sender, to, error)), true).failedEmails == v.failedEmails + [to]
  {
    FailedAddressOfFailureLine(round, sender, to, error);
  }

  /** The address list `handleSend` builds from the full `logs` of the
      response: every listed line with a match, duplicates kept. */
  function BatchFailed(logs: seq<string>, corrected: bool): (r: seq<string>)
    decreases |logs|
  {
    if logs == [] then []
    else
      var log := logs[|logs| - 1];
      var listed := if corrected then ListedCorrected(log) else Listed(log);
      BatchFailed(logs[..|logs| - 1], corrected)
      + (if listed && FailedAddress(log).Some? then [FailedAddress(log).value] else [])
  }

  /** The batch list and the live list name the same addresses. */
  lemma {:induction false} BatchMatchesLive(v: Viewer, logs: seq<string>, corrected: bool)
    requires v.failedEmails == []
    ensures forall a :: a in BatchFailed(logs, corrected) <==> a in Feed(v, logs, corrected).failedEmails
  {
    if logs != [] {
      BatchMatchesLive(v, logs[..|logs| - 1], corrected);
    }
  }
}
