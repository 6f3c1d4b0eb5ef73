/** orchestration/aggregation/aggregator.go: the client's end of the feedback stream. The
    incremental Process is proved equal to a rule over the completed stream, which is then
    applied to the streams the job engine really produces. */
module Aggregator {
  import opened Protocol
  import opened JobModel
  import opened JobInvariant
  import JobRuns
  import JobLifetime
  import JobHistory
  import JobVerdicts

  datatype AggregateError = WorkerError(err: PeerError) | EmptyJob | InconsistentResult | ContextDone

  /** Panic is an index out of range. */
  datatype Outcome = Value(result: Option<real>) | Failure(error: AggregateError) | Panic

  /** Either no peer has a numeric result or all have the same. */
  predicate Consistent(msgs: seq<CmdResult>) {
    forall i | 0 <= i < |msgs| :: msgs[i].result == msgs[0].result
  }

  /** No peer has a numeric result, or all of them have this one. */
  lemma ConsistentIff(msgs: seq<CmdResult>)
    ensures Consistent(msgs) <==>
      || (forall m <- msgs :: m.result.None?)
      || (exists v: real :: forall m <- msgs :: m.result == Some(v))
  {
    if msgs != [] {
      assert msgs[0] in msgs;
      assert Consistent(msgs) <==> forall m <- msgs :: m.result == msgs[0].result by {
        assert forall i | 0 <= i < |msgs| :: msgs[i] in msgs;
      }
      if msgs[0].result.Some? {
        var v := msgs[0].result.value;
        assert msgs[0].result == Some(v);
        assert Consistent(msgs) ==> forall m <- msgs :: m.result == Some(v);
      }
    }
  }

  /** analyzeResultConsistency */
  method AnalyzeResultConsistency(msgs: seq<CmdResult>) returns (ok: bool)
    ensures ok <==> Consistent(msgs)
  {
    if |msgs| == 0 {
      return true;
    }
    if msgs[0].result.None? {
      for i := 0 to |msgs|
        invariant forall k | 0 <= k < i :: msgs[k].result == msgs[0].result
      {
        if msgs[i].result.Some? {
          return false;
        }
      }
    }
    if msgs[0].result.Some? {
      var res := msgs[0].result.value;
      for i := 0 to |msgs|
        invariant forall k | 0 <= k < i :: msgs[k].result == msgs[0].result
      {
        if msgs[i].result.None? || res != msgs[i].result.value {
          return false;
        }
      }
    }
    return true;
  }

  /** The highest phase on the stream, -1 if it is empty. */
  function Top(items: seq<PeerResult>): int {
    if items == [] then -1
    else
      var n := |items| - 1;
      if Top(items[..n]) < items[n].progress then items[n].progress else Top(items[..n])
  }

  /** How the results alone end the evaluation, if they do: a phase that is found inconsistent
      when a higher one starts, or a result whose phase is none of the job's. */
  ghost function Scan(items: seq<PeerResult>, tasks: nat): Option<Outcome> {
    if items == [] then None
    else
      var n := |items| - 1;
      var front, progress := items[..n], items[n].progress;
      if Scan(front, tasks).Some? then Scan(front, tasks)
      else if 0 <= Top(front) < progress && !Consistent(Block(front, Top(front))) then Some(Failure(InconsistentResult))
      else if 0 <= progress < tasks then None
      else Some(Panic)
  }

  /** The outcome as a rule over the whole stream and the error it was closed with. */
  ghost function Expected(items: seq<PeerResult>, err: Option<PeerError>, tasks: nat): Outcome {
    if Scan(items, tasks).Some? then Scan(items, tasks).value
    else if err.Some? then Failure(WorkerError(err.value))
    else if tasks == 0 then Panic
    else if Block(items, 0) == [] then Failure(EmptyJob)
    else if !Consistent(Block(items, tasks - 1)) then Failure(InconsistentResult)
    else if Block(items, tasks - 1) == [] then Panic
    else Value(Block(items, tasks - 1)[0].result)
  }

  lemma {:induction false} BlockMembers(items: seq<PeerResult>, k: int)
    ensures Block(items, k) != [] <==> exists i :: 0 <= i < |items| && items[i].progress == k
  {
    if items != [] {
      var n := |items| - 1;
      BlockMembers(items[..n], k);
      if i :| 0 <= i < |items| && items[i].progress == k {
        assert i < n ==> items[..n][i].progress == k;
      }
    }
  }

  /** A phase is complete once a later one is on the stream. */
  lemma {:induction false} BlockComplete(items: seq<PeerResult>, n: nat, k: int)
    requires Sorted(items) && n <= |items|
    requires n < |items| ==> k < items[n].progress
    ensures Block(items[..n], k) == Block(items, k)
  {
    if n == |items| {
      assert items[..n] == items;
    } else {
      var m := |items| - 1;
      BlockComplete(items[..m], n, k);
      assert items[..m][..n] == items[..n];
      assert items[n].progress <= items[m].progress;
    }
  }

  lemma BlockOneMore(items: seq<PeerResult>, n: nat, k: int)
    requires n < |items|
    ensures Block(items[..n + 1], k) ==
      Block(items[..n], k) + if items[n].progress == k then [items[n].response] else []
  {
    assert items[..n + 1][..n] == items[..n];
  }

  /** What msgBuf holds after "n" results. */
  ghost predicate Buffered(items: seq<PeerResult>, n: nat, tasks: nat, msgBuf: seq<seq<CmdResult>>)
    requires n <= |items|
  {
    |msgBuf| == tasks && forall k | 0 <= k < tasks :: msgBuf[k] == Block(items[..n], k)
  }

  lemma {:induction false} NothingAboveTop(items: seq<PeerResult>, k: int)
    requires Top(items) < k
    ensures Block(items, k) == []
  {
    if items != [] {
      NothingAboveTop(items[..|items| - 1], k);
    }
  }

  /** One result: the buffer of a new phase is still empty. */
  lemma BufferMore(items: seq<PeerResult>, n: nat, tasks: nat, msgBuf: seq<seq<CmdResult>>)
    requires n < |items| && 0 <= items[n].progress < tasks
    requires Buffered(items, n, tasks, msgBuf)
    ensures Top(items[..n]) < items[n].progress ==> msgBuf[items[n].progress] == []
    ensures Buffered(items, n + 1, tasks, msgBuf[items[n].progress := msgBuf[items[n].progress] + [items[n].response]])
  {
    hide Top;
    if Top(items[..n]) < items[n].progress {
      NothingAboveTop(items[..n], items[n].progress);
    }
    forall k | 0 <= k < tasks
      ensures Block(items[..n + 1], k) ==
        Block(items[..n], k) + if items[n].progress == k then [items[n].response] else []
    {
      BlockOneMore(items, n, k);
    }
  }

  lemma BufferedAtStart(items: seq<PeerResult>, tasks: nat, msgBuf: seq<seq<CmdResult>>)
    requires |msgBuf| == tasks && forall k | 0 <= k < tasks :: msgBuf[k] == []
    ensures Buffered(items, 0, tasks, msgBuf) && Top(items[..0]) == -1 && Scan(items[..0], tasks).None?
  {
  }

  lemma BufferAt(items: seq<PeerResult>, n: nat, tasks: nat, msgBuf: seq<seq<CmdResult>>, k: nat)
    requires n <= |items| && Buffered(items, n, tasks, msgBuf) && k < tasks
    ensures k < |msgBuf| && msgBuf[k] == Block(items[..n], k)
  {
  }

  lemma ScanOneMore(items: seq<PeerResult>, n: nat, tasks: nat)
    requires n < |items| && Scan(items[..n], tasks).None?
    ensures var top, progress := Top(items[..n]), items[n].progress;
      && Top(items[..n + 1]) == (if top < progress then progress else top)
      && Scan(items[..n + 1], tasks) ==
        if 0 <= top < progress && !Consistent(Block(items[..n], top)) then Some(Failure(InconsistentResult))
        else if 0 <= progress < tasks then None
        else Some(Panic)
  {
    assert items[..n + 1][..n] == items[..n];
  }

  /** Nothing that follows changes how the evaluation ended. */
  lemma {:induction false} ScanStays(items: seq<PeerResult>, n: nat, m: nat, tasks: nat)
    requires n <= m <= |items| && Scan(items[..n], tasks).Some?
    ensures Scan(items[..m], tasks) == Scan(items[..n], tasks)
    decreases m
  {
    hide Top, Block, Consistent;
    if n < m {
      ScanStays(items, n, m - 1, tasks);
      assert items[..m][..m - 1] == items[..m - 1];
    }
  }

  /** Process. The stream's results arrive one by one, then its end; in the turn "ctxDone", if
      any, the loop finds its context done instead. Any stream whatever has an outcome. */
  method Process(items: seq<PeerResult>, err: Option<PeerError>, tasks: nat, ctxDone: Option<nat>) returns (r: Outcome)
    ensures ctxDone.None? || ctxDone.value > |items| ==> r == Expected(items, err, tasks)
    ensures ctxDone.Some? && ctxDone.value <= |items| ==>
      var sofar := Scan(items[..ctxDone.value], tasks);
      r == if sofar.Some? then sofar.value else Failure(ContextDone)
  {
    hide Block, Consistent, Buffered, Top, Scan;
    var msgBuf: seq<seq<CmdResult>> := seq(tasks, _ => []);
    var lastProgress := -1;
    BufferedAtStart(items, tasks, msgBuf);
    for n := 0 to |items|
      invariant |msgBuf| == tasks && Buffered(items, n, tasks, msgBuf) && Scan(items[..n], tasks).None?
      invariant -1 <= lastProgress == Top(items[..n]) < tasks
      invariant ctxDone.None? || ctxDone.value >= n
    {
      if ctxDone == Some(n) {
        return Failure(ContextDone);
      }
      var res := items[n];
      ScanOneMore(items, n, tasks);
      Ends(items, n, tasks, ctxDone);
      if lastProgress < res.progress {
        if lastProgress >= 0 {
          var ok := AnalyzeResultConsistency(msgBuf[lastProgress]);
          BufferAt(items, n, tasks, msgBuf, lastProgress);
          if !ok {
            return Failure(InconsistentResult);
          }
        }
        if res.progress >= tasks {
          return Panic;
        }
        BufferMore(items, n, tasks, msgBuf);
        assert msgBuf[res.progress := []] == msgBuf;
        msgBuf := msgBuf[res.progress := []];
        lastProgress := res.progress;
      }
      if res.progress < 0 {
        return Panic;
      }
      BufferMore(items, n, tasks, msgBuf);
      msgBuf := msgBuf[res.progress := msgBuf[res.progress] + [res.response]];
    }
    assert items[..|items|] == items;
    if ctxDone == Some(|items|) {
      return Failure(ContextDone);
    }
    if err.Some? {
      return Failure(WorkerError(err.value));
    }
    if tasks == 0 {
      return Panic;
    }
    BufferAt(items, |items|, tasks, msgBuf, 0);
    BufferAt(items, |items|, tasks, msgBuf, tasks - 1);
    if |msgBuf[0]| == 0 {
      return Failure(EmptyJob);
    }
    var ok := AnalyzeResultConsistency(msgBuf[tasks - 1]);
    if !ok {
      return Failure(InconsistentResult);
    }
    if |msgBuf[tasks - 1]| == 0 {
      return Panic;
    }
    return Value(msgBuf[tasks - 1][0].result);
  }

  lemma Ends(items: seq<PeerResult>, n: nat, tasks: nat, ctxDone: Option<nat>)
    requires n < |items| && (ctxDone.Some? ==> ctxDone.value > n)
    ensures Scan(items[..n + 1], tasks).Some? ==>
      && Scan(items, tasks) == Scan(items[..n + 1], tasks)
      && (ctxDone.Some? && ctxDone.value <= |items| ==>
        Scan(items[..ctxDone.value], tasks) == Scan(items[..n + 1], tasks))
  {
    hide Scan;
    if Scan(items[..n + 1], tasks).Some? {
      ScanStays(items, n + 1, |items|, tasks);
      assert items[..|items|] == items;
      if ctxDone.Some? && ctxDone.value <= |items| {
        ScanStays(items, n + 1, ctxDone.value, tasks);
      }
    }
  }

  // On the streams of workers

  /** The contract of JobWatcher: progress does not mix. */
  predicate Sorted(items: seq<PeerResult>) {
    forall i, k | 0 <= i < k < |items| :: items[i].progress <= items[k].progress
  }

  /** A phase before the last one on the stream has inconsistent results. */
  ghost predicate EarlierInconsistent(items: seq<PeerResult>) {
    items != [] && exists k :: 0 <= k < items[|items| - 1].progress && !Consistent(Block(items, k))
  }

  /** What a worker guarantees of its stream: phases in order, each one of the job's; a stream
      from phase 0 that ends without error has reached the last one. */
  ghost predicate Streams(items: seq<PeerResult>, err: Option<PeerError>, tasks: nat) {
    && Sorted(items)
    && (forall i | 0 <= i < |items| :: 0 <= items[i].progress < tasks)
    && (err.None? && Block(items, 0) != [] ==> Block(items, tasks - 1) != [])
  }

  lemma {:induction false} TopOfSorted(items: seq<PeerResult>)
    requires Sorted(items) && items != [] && items[0].progress >= 0
    ensures Top(items) == items[|items| - 1].progress
  {
    var n := |items| - 1;
    if n > 0 {
      TopOfSorted(items[..n]);
    }
  }

  /** On a stream in order each phase is judged once, when it is complete. */
  lemma {:induction false} ScanOfSorted(items: seq<PeerResult>, tasks: nat)
    requires Sorted(items) && forall i | 0 <= i < |items| :: 0 <= items[i].progress < tasks
    ensures Scan(items, tasks) == if EarlierInconsistent(items) then Some(Failure(InconsistentResult)) else None
  {
    hide Consistent, Top, Block;
    if items == [] {
    } else {
      var n := |items| - 1;
      ScanOfSorted(items[..n], tasks);
      if n > 0 {
        TopOfSorted(items[..n]);
        EarlierOneMore(items);
      } else {
        FirstResult(items);
      }
    }
  }

  lemma FirstResult(items: seq<PeerResult>)
    requires |items| == 1
    ensures Top(items[..0]) == -1 && !EarlierInconsistent(items)
  {
    forall k | 0 <= k < items[0].progress ensures Block(items, k) == [] {
      assert items[..0] == [];
    }
  }

  lemma EarlierOneMore(items: seq<PeerResult>)
    requires |items| > 1 && Sorted(items) && items[0].progress >= 0
    ensures var n := |items| - 1; var last := items[n - 1].progress;
      EarlierInconsistent(items) <==>
        EarlierInconsistent(items[..n]) || (last < items[n].progress && !Consistent(Block(items[..n], last)))
  {
    hide Consistent;
    var n := |items| - 1;
    var front := items[..n];
    assert forall k | k < items[n].progress :: Block(items, k) == Block(front, k);
    forall k | items[n - 1].progress < k ensures Block(front, k) == [] {
      TopOfSorted(front);
      NothingAboveTop(front, k);
    }
    assert Consistent([]) by {
      NoneIsConsistent();
    }
    if EarlierInconsistent(items) {
      var k :| 0 <= k < items[n].progress && !Consistent(Block(items, k));
      assert k <= items[n - 1].progress;
    }
  }

  lemma NoneIsConsistent()
    ensures Consistent([])
  {
  }

  /** Once a result follows on a phase with inconsistent ones, the evaluation is over, whatever
      the worker still sends and however it ends: the client goes on to reschedule or abort a
      job that is still being worked on. */
  lemma ReturnsEarly(items: seq<PeerResult>, n: nat, err: Option<PeerError>, tasks: nat)
    requires Sorted(items) && n <= |items| && forall i | 0 <= i < n :: 0 <= items[i].progress < tasks
    requires EarlierInconsistent(items[..n])
    ensures Scan(items[..n], tasks) == Some(Failure(InconsistentResult))
    ensures Expected(items, err, tasks) == Failure(InconsistentResult)
  {
    hide Scan, Top, Consistent, EarlierInconsistent, Block;
    ScanOfSorted(items[..n], tasks);
    ScanStays(items, n, |items|, tasks);
    assert items[..|items|] == items;
  }

  /** Two peers that disagree on the first phase, and any answer to the second one. */
  lemma ThirdResultEndsIt(a: CmdResult, b: CmdResult, c: CmdResult)
    requires a.result != b.result
    ensures EarlierInconsistent([PeerResult(0, a), PeerResult(0, b), PeerResult(1, c)])
  {
    var items := [PeerResult(0, a), PeerResult(0, b), PeerResult(1, c)];
    BlockOneMore(items, 0, 0);
    BlockOneMore(items, 1, 0);
    BlockOneMore(items, 2, 0);
    assert items[..3] == items && items[..0] == [];
    assert Block(items, 0)[1] == b;
  }

  // Against the batch rule

  /** The rule for a completed job: group the results by phase; fail iff the results of some
      phase are neither all absent nor all equal; else the last phase's common result. */
  ghost function Batch(items: seq<PeerResult>, tasks: nat): Outcome
    requires tasks > 0 && Block(items, tasks - 1) != []
  {
    if exists k :: 0 <= k < tasks && !Consistent(Block(items, k)) then Failure(InconsistentResult)
    else Value(Block(items, tasks - 1)[0].result)
  }

  /** A stream of all phases from "start" on, each with at least one result. */
  ghost predicate Complete(items: seq<PeerResult>, start: nat, tasks: nat) {
    && Sorted(items) && start < tasks
    && (forall i | 0 <= i < |items| :: start <= items[i].progress < tasks)
    && (forall k | start <= k < tasks :: Block(items, k) != [])
  }

  lemma CompleteStreams(items: seq<PeerResult>, start: nat, tasks: nat)
    requires Complete(items, start, tasks)
    ensures Streams(items, None, tasks)
    ensures items != [] && items[|items| - 1].progress == tasks - 1
    ensures start > 0 ==> Block(items, 0) == []
  {
    BlockMembers(items, tasks - 1);
    BlockMembers(items, 0);
    var i :| 0 <= i < |items| && items[i].progress == tasks - 1;
    assert i < |items| - 1 ==> items[i].progress <= items[|items| - 1].progress;
  }

  /** From phase 0 the incremental outcome is that of the batch rule. */
  lemma RefinesBatch(items: seq<PeerResult>, tasks: nat)
    requires Complete(items, 0, tasks)
    ensures Streams(items, None, tasks)
    ensures Expected(items, None, tasks) == Batch(items, tasks)
  {
    CompleteStreams(items, 0, tasks);
    ScanOfSorted(items, tasks);
    if k :| 0 <= k < tasks && !Consistent(Block(items, k)) {
      assert k == tasks - 1 || EarlierInconsistent(items);
    }
  }

  /** From a later phase, as after a reschedule, it is never a value, whatever the peers
      computed: it fails with an empty job iff the phases before the last are consistent. */
  lemma ResumedIsEmpty(items: seq<PeerResult>, start: nat, tasks: nat)
    requires Complete(items, start, tasks) && start > 0
    ensures Streams(items, None, tasks)
    ensures Expected(items, None, tasks) ==
      Failure(if forall k | start <= k < tasks - 1 :: Consistent(Block(items, k)) then EmptyJob else InconsistentResult)
  {
    CompleteStreams(items, start, tasks);
    ScanOfSorted(items, tasks);
    if EarlierInconsistent(items) {
      var k :| 0 <= k < tasks - 1 && !Consistent(Block(items, k));
      BlockMembers(items, k);
    } else {
      assert forall k | start <= k < tasks - 1 :: Consistent(Block(items, k));
    }
  }

  // On the streams of the job engine

  /** A run that finished has the stream of all phases from its start, unless it had no chat, or
      nothing to do: then the stream is empty. */
  lemma FinishedStream(j: Job, run: Run)
    requires Inv(j) && j.queued && RunOf(j, run) && JobModel.Process(j, run).lastErr.None?
    ensures run.Started?
    ensures var items := JobModel.Process(j, run).feedback.items;
      if OpenPeers(j.(queued := false), run.attempts).0.chats != map[] && j.progress < |j.instr.tasks|
      then Complete(items, j.progress, |j.instr.tasks|) else items == []
  {
    hide PhasesOf, Phases, JobModel.Process, Block, Conserved;
    JobLifetime.ProcessKeeps(j, run);
    var items := JobModel.Process(j, run).feedback.items;
    forall k: int ensures run.Started? && (Block(items, k) != [] <==>
      j.progress <= k < |j.instr.tasks| && OpenPeers(j.(queued := false), run.attempts).0.chats != map[])
    {
      JobHistory.FinishedRun(j, run, k);
    }
    forall i | 0 <= i < |items| ensures Block(items, items[i].progress) != [] {
      BlockMembers(items, items[i].progress);
    }
    if items != [] {
      assert Block(items, items[0].progress) != [];
    }
  }

  lemma FailedStream(j: Job, run: Run)
    requires Inv(j) && j.queued && RunOf(j, run) && JobModel.Process(j, run).lastErr.Some?
    ensures var j' := JobModel.Process(j, run); Streams(j'.feedback.items, j'.lastErr, |j.instr.tasks|)
  {
    JobLifetime.ProcessKeeps(j, run);
    JobHistory.FailedRun(j, run);
  }

  /** The aggregator on the stream of every run, whatever the peers did: a failed run yields its
      error, unless an earlier phase was inconsistent; a finished first run with a chat left the
      batch outcome; one without chats an empty job; one resumed at a later phase no value. An
      index is out of range iff a job without tasks finishes. */
  lemma AggregatesRuns(j: Job, run: Run)
    requires Inv(j) && j.queued && RunOf(j, run)
    ensures var j' := JobModel.Process(j, run);
      var items, tasks := j'.feedback.items, |j.instr.tasks|;
      var outcome := Expected(items, j'.lastErr, tasks);
      && (outcome == Panic <==> j'.lastErr.None? && tasks == 0)
      && (j'.lastErr.Some? ==>
            outcome == Failure(
              if EarlierInconsistent(items) then InconsistentResult else WorkerError(j'.lastErr.value)))
      && (j'.lastErr.None? && tasks > 0 ==>
            && run.Started?
            && var reached := OpenPeers(j.(queued := false), run.attempts).0.chats != map[];
               && (!reached ==> outcome == Failure(EmptyJob))
               && (j.progress > 0 ==> outcome.Failure?)
               && (reached && j.progress == 0 ==> Block(items, tasks - 1) != [] && outcome == Batch(items, tasks)))
  {
    hide Inv, PhasesOf, Phases, JobModel.Process, Batch, OpenPeers, Consistent, Block, EarlierInconsistent, Top, Scan;
    var j' := JobModel.Process(j, run);
    var items, tasks := j'.feedback.items, |j.instr.tasks|;
    if j'.lastErr.Some? {
      FailedStream(j, run);
      ScanOfSorted(items, tasks);
    } else {
      FinishedStream(j, run);
      NothingScanned(tasks);
      if items != [] {
        if j.progress == 0 {
          RefinesBatch(items, tasks);
          BatchIsNoPanic(items, tasks);
        } else {
          ResumedIsEmpty(items, j.progress, tasks);
        }
      }
    }
  }

  // End to end

  /** All peers answered the query with this result. */
  ghost predicate Unanimous(x: Exchange, result: Option<real>) {
    forall a <- x.answers :: a.reply.Some? && a.reply.value.result == result
  }

  lemma CleanReplies(x: Exchange)
    requires JobVerdicts.Clean(x)
    ensures forall a <- x.answers :: a.reply.Some? && a.reply.value in Replies(x.answers)
    ensures forall r <- Replies(x.answers) :: exists a :: a in x.answers && a.reply == Some(r)
  {
    AllReply(x.answers);
    forall r <- Replies(x.answers) ensures exists a :: a in x.answers && a.reply == Some(r) {
      JobRuns.RepliesAreClean(x.answers, r);
    }
  }

  lemma {:induction false} AllReply(xs: seq<Answer>)
    requires forall a <- xs :: a.reply.Some? && a.reply.value.status & ALL_ERROR_CLASSES == 0
    ensures forall a <- xs :: a.reply.value in Replies(xs)
  {
    if xs != [] {
      var n := |xs| - 1;
      AllReply(xs[..n]);
      assert xs[n] in xs;
      assert forall a <- xs :: a in xs[..n] || a == xs[n];
    }
  }

  /** The checks on the responses of a clean query are checks on what the peers said. */
  lemma ConsistentReplies(x: Exchange)
    requires JobVerdicts.Clean(x) && Replies(x.answers) != []
    ensures Consistent(Replies(x.answers)) <==> exists result :: Unanimous(x, result)
    ensures Consistent(Replies(x.answers)) ==> Unanimous(x, Replies(x.answers)[0].result)
  {
    hide Replies, JobVerdicts.Clean;
    CleanReplies(x);
    var rs := Replies(x.answers);
    if result :| Unanimous(x, result) {
      forall i | 0 <= i < |rs| ensures rs[i].result == result {
        assert rs[i] in rs;
        var a :| a in x.answers && a.reply == Some(rs[i]);
      }
    }
    if Consistent(rs) {
      forall a <- x.answers ensures a.reply.Some? && a.reply.value.result == rs[0].result {
        var i :| 0 <= i < |rs| && rs[i] == a.reply.value;
      }
      assert Unanimous(x, rs[0].result);
    }
  }

  /** The stream of a finished first run, phase by phase. */
  lemma CleanBlocks(j: Job, run: Run)
    requires Inv(j) && j.queued && RunOf(j, run) && j.progress == 0
    requires JobModel.Process(j, run).lastErr.None?
    ensures run.Started? && |run.exchanges| == |j.instr.tasks|
    ensures forall x <- run.exchanges :: JobVerdicts.Clean(x)
    ensures var items := JobModel.Process(j, run).feedback.items;
      forall k | 0 <= k < |run.exchanges| ::
        && Block(items, k) == Replies(run.exchanges[k].answers)
        && (OpenPeers(j.(queued := false), run.attempts).0.chats != map[] ==> Block(items, k) != [])
  {
    hide Phases, PhasesOf, OpenPeers, JobModel.Process, Block, Conserved, InOrder, IsHalted, JobVerdicts.Clean, Replies;
    JobVerdicts.RunVerdict(j, run);
    JobHistory.CleanRun(j, run);
    var j1 := OpenPeers(j.(queued := false), run.attempts).0;
    forall k: nat | k < |run.exchanges|
      ensures Block(JobModel.Process(j, run).feedback.items, k) == Replies(run.exchanges[k].answers)
      ensures j1.chats != map[] ==> Block(JobModel.Process(j, run).feedback.items, k) != []
    {
      JobHistory.RunDelivers(j1, run.exchanges, k);
      JobHistory.FinishedRun(j, run, k);
    }
    JobHistory.FinishedRun(j, run, 0);
  }

  /** The batch rule on the responses of these queries. */
  lemma BatchIsUnanimous(items: seq<PeerResult>, xs: seq<Exchange>)
    requires xs != [] && forall x <- xs :: JobVerdicts.Clean(x)
    requires forall k | 0 <= k < |xs| :: Block(items, k) == Replies(xs[k].answers) != []
    ensures var outcome := Batch(items, |xs|);
      && (outcome.Value? || outcome == Failure(InconsistentResult))
      && (outcome.Value? <==> forall x <- xs :: exists result :: Unanimous(x, result))
      && (outcome.Value? ==> Unanimous(xs[|xs| - 1], outcome.result))
  {
    hide Unanimous, JobVerdicts.Clean, Replies, Consistent, Block;
    forall k | 0 <= k < |xs|
      ensures Consistent(Block(items, k)) <==> exists result :: Unanimous(xs[k], result)
      ensures Consistent(Block(items, k)) ==> Unanimous(xs[k], Block(items, k)[0].result)
    {
      assert xs[k] in xs;
      ConsistentReplies(xs[k]);
    }
    if forall x <- xs :: exists result :: Unanimous(x, result) {
      assert forall k | 0 <= k < |xs| :: xs[k] in xs;
    } else {
      var x :| x in xs && !exists result :: Unanimous(x, result);
      var k :| 0 <= k < |xs| && xs[k] == x;
      assert !Consistent(Block(items, k));
    }
  }

  /** From the peers' answers to the client's value: a job whose first run finishes, with a chat,
      yields a value iff in every phase all peers gave the same result, and then it is the one all
      of them gave in the last phase. Otherwise the client learns that they disagreed. */
  lemma ValueIsUnanimous(j: Job, run: Run)
    requires Inv(j) && j.queued && RunOf(j, run) && j.progress == 0 && j.instr.tasks != []
    requires JobModel.Process(j, run).lastErr.None?
    ensures run.Started? && |run.exchanges| == |j.instr.tasks|
    ensures OpenPeers(j.(queued := false), run.attempts).0.chats != map[] ==>
      var outcome := Expected(JobModel.Process(j, run).feedback.items, None, |j.instr.tasks|);
      var last := run.exchanges[|run.exchanges| - 1];
      && (outcome.Value? || outcome == Failure(InconsistentResult))
      && (outcome.Value? <==> forall x <- run.exchanges :: exists result :: Unanimous(x, result))
      && (outcome.Value? ==> Unanimous(last, outcome.result))
  {
    hide Inv, PhasesOf, Phases, JobModel.Process, OpenPeers, Expected, Unanimous, JobVerdicts.Clean, Block, Batch,
         Replies;
    CleanBlocks(j, run);
    if OpenPeers(j.(queued := false), run.attempts).0.chats != map[] {
      AggregatesRuns(j, run);
      BatchIsUnanimous(JobModel.Process(j, run).feedback.items, run.exchanges);
    }
  }

  lemma BatchIsNoPanic(items: seq<PeerResult>, tasks: nat)
    requires Complete(items, 0, tasks)
    ensures Batch(items, tasks) != Panic
  {
  }

  lemma NothingScanned(tasks: nat)
    ensures Scan([], tasks).None? && Block([], 0) == []
  {
  }
}
