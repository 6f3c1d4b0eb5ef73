/** The guarantees over a job's whole history, and where the code falls short of them. */
module JobHistory {
  import opened MapOrder
  import opened Protocol
  import opened JobModel
  import opened JobInvariant
  import opened JobRuns
  import opened JobLifetime

  /** What can happen to a job between two points where nobody is working on it. */
  datatype Action =
    | Work(run: Run)
    | Resched(instr: Instr, flags: Option<Flags>, order: seq<ChannelID>, enqueued: bool)
    | Quit

  /** A worker takes a queued job; the client acts only on a job no worker holds. */
  ghost predicate Enabled(j: Job, a: Action) {
    match a
    case Work(run) => j.queued && RunOf(j, run)
    case Resched(instr, _, order, _) => !j.queued && IsOrder(order, instr.participants.Keys)
    case Quit => !j.queued
  }

  ghost function After(j: Job, a: Action): Job
    requires Enabled(j, a)
  {
    match a
    case Work(run) => Process(j, run)
    case Resched(instr, flags, order, enqueued) => Reschedule(j, instr, flags, order, enqueued).0
    case Quit => Abort(j)
  }

  /** The new instruction names participants of the previous one only. */
  predicate Shrinks(j: Job, a: Action) {
    a.Resched? ==> a.instr.participants.Values <= j.instr.participants.Values
  }

  /** The job j is what the acts make of a freshly submitted job j0. */
  ghost predicate History(j0: Job, acts: seq<Action>, j: Job, shrinking: bool) {
    if acts == [] then j == j0
    else
      var n := |acts| - 1;
      exists j1 ::
        && History(j0, acts[..n], j1, shrinking)
        && Enabled(j1, acts[n])
        && (shrinking ==> Shrinks(j1, acts[n]))
        && j == After(j1, acts[n])
  }

  lemma OneAction(j0: Job, acts: seq<Action>, j: Job, a: Action) returns (acts': seq<Action>, j': Job)
    requires History(j0, acts, j, false) && Enabled(j, a)
    ensures acts' == acts + [a] && j' == After(j, a) && History(j0, acts', j', false)
  {
    hide Enabled, After;
    acts', j' := acts + [a], After(j, a);
    assert acts'[..|acts|] == acts;
  }

  lemma {:induction false} Unshrunk(j0: Job, acts: seq<Action>, j: Job)
    requires History(j0, acts, j, true)
    ensures History(j0, acts, j, false)
  {
    hide Enabled, After, Shrinks;
    if acts != [] {
      var n := |acts| - 1;
      var j1 :| History(j0, acts[..n], j1, true) && Enabled(j1, acts[n]) && Shrinks(j1, acts[n])
        && j == After(j1, acts[n]);
      Unshrunk(j0, acts[..n], j1);
    }
  }

  /** One action more, keeping count of whether the participants have only ever shrunk. */
  lemma NextAction(j0: Job, acts: seq<Action>, j: Job, a: Action, shrunk: bool)
    requires History(j0, acts, j, shrunk) && Enabled(j, a)
    ensures History(j0, acts + [a], After(j, a), shrunk && Shrinks(j, a))
  {
    hide Enabled, After, Shrinks;
    if shrunk && !Shrinks(j, a) {
      Unshrunk(j0, acts, j);
    }
    assert (acts + [a])[..|acts|] == acts;
  }

  lemma ActionKeeps(j: Job, a: Action)
    requires Inv(j) && Enabled(j, a)
    ensures Inv(After(j, a))
    ensures j.progress <= After(j, a).progress
    ensures |j.instr.tasks| <= |After(j, a).instr.tasks|
  {
    match a
    case Work(run) => ProcessKeeps(j, run);
    case Resched(instr, flags, order, enqueued) => RecycleKeeps(j, instr, flags, order);
    case Quit => AbortKeeps(j);
  }

  lemma NewJobInv(instr: Instr, flags: Flags)
    ensures Inv(NewJob(instr, flags)) && Barrier(NewJob(instr, flags))
  {
  }

  /** Conservation over whole histories: every line a job ever opened is live or closed, never
      both, and closed once at most; once the job is over, all of them have been closed
      exactly once. */
  lemma {:induction false} ChatsConserved(instr: Instr, flags: Flags, acts: seq<Action>, j: Job)
    requires History(NewJob(instr, flags), acts, j, false)
    ensures Inv(j)
    ensures forall l :: l in j.everOpened <==> l in Lines(j.chats) || l in j.closes
    ensures forall l <- j.everOpened :: j.closes[l] == if l in Lines(j.chats) then 0 else 1
    ensures Over(j) ==> forall l <- j.everOpened :: j.closes[l] == 1
  {
    if acts == [] {
      NewJobInv(instr, flags);
    } else {
      var n := |acts| - 1;
      var j1 :| History(NewJob(instr, flags), acts[..n], j1, false) && Enabled(j1, acts[n]) && j == After(j1, acts[n]);
      ChatsConserved(instr, flags, acts[..n], j1);
      ActionKeeps(j1, acts[n]);
    }
  }

  /** Progress through a lifetime: it never goes back and never passes the last task. */
  lemma {:induction false} ProgressMonotone(j0: Job, acts: seq<Action>, j: Job)
    requires Inv(j0) && History(j0, acts, j, false)
    ensures Inv(j) && j0.progress <= j.progress <= |j.instr.tasks|
  {
    if acts != [] {
      var n := |acts| - 1;
      var j1 :| History(j0, acts[..n], j1, false) && Enabled(j1, acts[n]) && j == After(j1, acts[n]);
      ProgressMonotone(j0, acts[..n], j1);
      ActionKeeps(j1, acts[n]);
    }
  }

  lemma BarrierStep(j: Job, a: Action)
    requires Inv(j) && Enabled(j, a) && Shrinks(j, a) && Barrier(j)
    requires j.queued ==> j.progress == 0 || Connected(j)
    ensures Barrier(After(j, a))
    ensures After(j, a).queued ==> Connected(After(j, a))
  {
    match a
    case Work(run) =>
      ProcessKeeps(j, run);
      ProcessBarrier(j, run);
    case Resched(instr, flags, order, enqueued) =>
      RecycleKeeps(j, instr, flags, order);
      RecycleSucceedsIff(j, instr, flags, order);
      if Recyclable(j, instr) {
        ResumesConnectedIff(j, instr, flags, order);
      }
    case Quit =>
  }

  /** The phase barrier, as long as participants only shrink: every live chat has answered
      every phase below "progress" cleanly, nobody was ever instructed a phase above it, and
      a resumed run finds all its participants connected. */
  lemma {:induction false} PhaseBarrier(instr: Instr, flags: Flags, acts: seq<Action>, j: Job)
    requires History(NewJob(instr, flags), acts, j, true)
    ensures Inv(j)
    ensures Barrier(j)
    ensures forall e <- j.asked :: e.1 <= j.progress
    ensures j.queued && acts != [] ==> Connected(j)
    ensures acts == [] ==> j.progress == 0
  {
    if acts == [] {
      NewJobInv(instr, flags);
    } else {
      hide Conserved, InOrder, Barrier, Enabled, After, Shrinks;
      var n := |acts| - 1;
      var j1 :| History(NewJob(instr, flags), acts[..n], j1, true) && Enabled(j1, acts[n]) && Shrinks(j1, acts[n])
        && j == After(j1, acts[n]);
      PhaseBarrier(instr, flags, acts[..n], j1);
      ActionKeeps(j1, acts[n]);
      BarrierStep(j1, acts[n]);
    }
  }

  lemma {:induction false} PhasesShrinkChats(j: Job, xs: seq<Exchange>)
    requires !j.feedback.closed && PhasesOf(j, xs)
    ensures Phases(j, xs).chats.Keys <= j.chats.Keys
  {
    hide Phase, ExchangeOf;
    if xs != [] {
      PhasesShrinkChats(j, xs[..|xs| - 1]);
      PhaseFrame(Phases(j, xs[..|xs| - 1]), xs[|xs| - 1]);
    }
  }

  /** A run talks to the peers it had chats with and to its participants. */
  lemma ProcessChats(j: Job, run: Run)
    requires RunOf(j, run) && !j.feedback.closed
    ensures Process(j, run).instr == j.instr
    ensures Process(j, run).chats.Keys <= j.chats.Keys + j.instr.participants.Values
  {
    if run.Started? {
      hide PhasesOf, Phases, Conserved;
      var j0 := j.(queued := false);
      OpenPeersFacts(j0, run.attempts);
      var (j1, missing) := OpenPeers(j0, run.attempts);
      forall p <- j1.chats ensures p in j.chats.Keys + j.instr.participants.Values {
        if p !in j.chats {
          var a :| a in run.attempts && j.instr.participants[a.cid] == p;
        }
      }
      if missing == [] {
        PhasesShrinkChats(j1, run.exchanges);
        PhasesShape(j1, run.exchanges);
      }
    }
  }

  predicate AllStamped(j: Job) {
    forall p <- j.instr.participants.Values :: p in j.chats && Stamped(j.chats, j.instr.participants, p)
  }

  /** Over any chain of shrinking recycles a job never has a chat with anybody but the
      participants it was submitted with; and after each successful one, whether it then got into
      the queue or not, every peer of the new instruction is connected under a channel ID that it
      gives this peer. */
  lemma {:induction false} NoStrangers(instr: Instr, flags: Flags, acts: seq<Action>, j: Job)
    requires History(NewJob(instr, flags), acts, j, true)
    ensures j.chats.Keys <= instr.participants.Values && j.instr.participants.Values <= instr.participants.Values
    ensures acts != [] && !j.feedback.closed ==> AllStamped(j)
  {
    if acts != [] {
      hide Inv, After, Shrinks, Process, Reschedule, AllStamped;
      var n := |acts| - 1;
      var j1 :| History(NewJob(instr, flags), acts[..n], j1, true) && Enabled(j1, acts[n]) && Shrinks(j1, acts[n])
        && j == After(j1, acts[n]);
      NoStrangers(instr, flags, acts[..n], j1);
      PhaseBarrier(instr, flags, acts[..n], j1);
      ActionChats(j1, acts[n]);
    }
  }

  lemma RescheduleChats(j: Job, a: Action)
    requires Control(j) && Enabled(j, a) && a.Resched? && Shrinks(j, a)
    ensures After(j, a).chats.Keys <= j.chats.Keys
    ensures After(j, a).instr.participants.Values <= j.instr.participants.Values
    ensures After(j, a).feedback.closed || AllStamped(After(j, a)) || After(j, a) == j
  {
    hide IsOrder, Restamp;
    OrderMembers(a.order, a.instr.participants.Keys);
    RestampKeeps(j.chats, a.instr.participants, a.order);
    RecycleSucceedsIff(j, a.instr, a.flags, a.order);
    if Recyclable(j, a.instr) {
      RecycleBracket(j, a.instr, a.flags, a.order);
    }
  }

  lemma ActionChats(j: Job, a: Action)
    requires Inv(j) && Enabled(j, a) && Shrinks(j, a)
    ensures After(j, a).chats.Keys <= j.chats.Keys + j.instr.participants.Values
    ensures After(j, a).instr.participants.Values <= j.instr.participants.Values
    ensures !After(j, a).feedback.closed ==> AllStamped(After(j, a)) || (After(j, a) == j && !j.queued)
  {
    hide AllStamped, Recycle, RunOf, Process, Conserved, Ledger, InOrder;
    match a
    case Work(run) =>
      ProcessKeeps(j, run);
      ProcessChats(j, run);
    case Resched(_, _, _, _) => RescheduleChats(j, a);
    case Quit =>
  }

  /** A job that is over stays exactly as it is: both operations of the client refuse. */
  lemma OverForever(j: Job, a: Action)
    requires Inv(j) && Over(j) && Enabled(j, a)
    ensures After(j, a) == j
    ensures a.Resched? ==> Reschedule(j, a.instr, a.flags, a.order, a.enqueued).1 == Some(NotHalted)
  {
  }

  /** With no flags to handle, a run finishes or aborts. */
  lemma PhasesWithoutFlags(j: Job, xs: seq<Exchange>)
    requires !j.feedback.closed && PhasesOf(j, xs) && j.handleErrFlags == 0 && !IsHalted(j)
    ensures !IsHalted(Phases(j, xs))
  {
    if xs != [] {
      var n := |xs| - 1;
      PhasesShape(j, xs[..n]);
      PhaseFrame(Phases(j, xs[..n]), xs[n]);
      QueryDecision(Phases(j, xs[..n]), xs[n]);
    }
  }

  /** After a reschedule with flags 0 the next run brings the job to its end, with every chat
      closed. */
  lemma LastRun(j: Job, run: Run)
    requires Inv(j) && j.queued && RunOf(j, run) && j.handleErrFlags == 0
    ensures Over(Process(j, run)) && Process(j, run).chats == map[]
  {
    ProcessKeeps(j, run);
    if run.Started? {
      var j0 := j.(queued := false);
      OpenedKeeps(j0, run.attempts);
      OpenPeersFacts(j0, run.attempts);
      var (j1, missing) := OpenPeers(j0, run.attempts);
      assert !HasComm(0);
      if missing == [] {
        PhasesWithoutFlags(j1, run.exchanges);
      }
    }
  }

  /** A recycled job that could not be enqueued is nobody's: no worker will run it, and the
      client can neither reschedule nor abort it, so its chats are never closed. */
  lemma {:induction false} StrandedForever(j0: Job, acts: seq<Action>, j: Job)
    requires Inv(j0) && !j0.queued && !j0.feedback.closed
    requires History(j0, acts, j, false)
    ensures j == j0
  {
    if acts != [] {
      var n := |acts| - 1;
      var j1 :| History(j0, acts[..n], j1, false) && Enabled(j1, acts[n]) && j == After(j1, acts[n]);
      StrandedForever(j0, acts[..n], j1);
    }
  }

  /** So a client that gets the error of RescheduleOpenJob because the queue stayed full leaks
      chats iff the job was recyclable with a participant connected. */
  lemma RescheduleLeaksIff(j: Job, a: Action)
    requires Inv(j) && Enabled(j, a) && a.Resched? && !a.enqueued && IsHalted(j)
    ensures var j' := After(j, a);
      (!j'.queued && !j'.feedback.closed && j'.chats != map[]) <==>
        Recyclable(j, a.instr) && j.chats.Keys * j.instr.participants.Values != {}
  {
    RecycleSucceedsIff(j, a.instr, a.flags, a.order);
    if Recyclable(j, a.instr) {
      RecycleBracket(j, a.instr, a.flags, a.order);
      assert After(j, a).chats == map[] <==> After(j, a).chats.Keys == {};
    }
  }

  // The feedback stream

  lemma {:induction false} BlockOfDelivery(items: seq<PeerResult>, progress: int, rs: seq<CmdResult>, k: int)
    ensures Block(items + Tagged(progress, rs), k) == Block(items, k) + if k == progress then rs else []
  {
    var all := items + Tagged(progress, rs);
    if rs == [] {
      assert all == items;
    } else {
      var m := |rs| - 1;
      BlockOfDelivery(items, progress, rs[..m], k);
      assert all[..|all| - 1] == items + Tagged(progress, rs[..m]);
      assert rs == rs[..m] + [rs[m]];
    }
  }

  /** Each prefix of a run is one. */
  lemma {:induction false} PhasesPrefix(j: Job, xs: seq<Exchange>, n: nat)
    requires PhasesOf(j, xs) && n <= |xs|
    ensures PhasesOf(j, xs[..n])
  {
    if n == |xs| {
      assert xs[..n] == xs;
    } else {
      PhasesPrefix(j, xs[..|xs| - 1], n);
      assert xs[..|xs| - 1][..n] == xs[..n];
    }
  }

  /** One turn of the loop: the run was on, and what it added to the stream. */
  lemma OneTurn(j: Job, xs: seq<Exchange>, n: nat)
    requires !j.feedback.closed && PhasesOf(j, xs) && n < |xs|
    ensures var before, after := Phases(j, xs[..n]), Phases(j, xs[..n + 1]);
      && after == Phase(before, xs[n])
      && ExchangeOf(before.chats, xs[n]) && before.chats == j.chats
      && after.feedback.items == before.feedback.items + Tagged(j.progress + n, Replies(xs[n].answers))
      && after.feedback.closed == QueryError(before, xs[n]).Some?
  {
    hide Query, QueryError, HaltOrAbort, Replies, Revoke;
    PhasesPrefix(j, xs, n + 1);
    assert xs[..n + 1][..n] == xs[..n];
    PhasesShape(j, xs[..n]);
    PhaseFrame(Phases(j, xs[..n]), xs[n]);
  }

  lemma NothingSent(j: Job, xs: seq<Exchange>, k: int)
    requires j.feedback.items == []
    ensures Block(Phases(j, xs[..0]).feedback.items, k) == []
  {
  }

  lemma {:induction false} BlocksUpTo(j: Job, xs: seq<Exchange>, n: nat, k: int)
    requires j.feedback.items == [] && !j.feedback.closed && PhasesOf(j, xs) && n <= |xs|
    ensures Block(Phases(j, xs[..n]).feedback.items, j.progress + k) ==
      if 0 <= k < n then Replies(xs[k].answers) else []
  {
    hide *;
    if n == 0 {
      NothingSent(j, xs, j.progress + k);
    } else {
      BlocksUpTo(j, xs, n - 1, k);
      OneTurn(j, xs, n - 1);
      BlockOfDelivery(Phases(j, xs[..n - 1]).feedback.items, j.progress + n - 1, Replies(xs[n - 1].answers),
        j.progress + k);
    }
  }

  /** The results a run sends: for each phase queried, in order, exactly the clean responses
      of that query. */
  lemma RunDelivers(j: Job, xs: seq<Exchange>, k: int)
    requires j.feedback.items == [] && !j.feedback.closed && PhasesOf(j, xs)
    ensures Block(Phases(j, xs).feedback.items, j.progress + k) == if 0 <= k < |xs| then Replies(xs[k].answers) else []
  {
    hide Phase, Phases, PhasesOf, Replies, Block;
    BlocksUpTo(j, xs, |xs|, k);
    assert xs[..|xs|] == xs;
  }

  /** While a run goes on, every completed phase has one response of every chat. */
  lemma RunWidth(j: Job, xs: seq<Exchange>, k: nat)
    requires !j.feedback.closed && PhasesOf(j, xs) && k < |xs|
    requires !Phases(j, xs).feedback.closed
    ensures |Replies(xs[k].answers)| == |j.chats|
  {
    hide Phase, Query, PhasesOf, QueryError, Replies, ExchangeOf, Tagged;
    OneTurn(j, xs, k);
    if k + 1 == |xs| {
      assert xs[..k + 1] == xs;
    } else {
      PhasesPrefix(j, xs, k + 2);
      assert xs[..k + 2][..k + 1] == xs[..k + 1];
    }
    PhaseOnward(Phases(j, xs[..k]), xs[k]);
  }

  /** The loop, up to its end without error: one response of every chat in each phase that
      was left, and nothing else on the stream. */
  lemma CleanPhases(j: Job, xs: seq<Exchange>, k: int)
    requires j.feedback.items == [] && !j.feedback.closed && PhasesOf(j, xs)
    requires !Phases(j, xs).feedback.closed
    ensures |Block(Phases(j, xs).feedback.items, j.progress + k)| == if 0 <= k < |xs| then |j.chats| else 0
  {
    RunDelivers(j, xs, k);
    if 0 <= k < |xs| {
      RunWidth(j, xs, k);
    }
  }

  /** A run that ends without error went through the whole loop. */
  lemma CleanRun(j: Job, run: Run)
    requires j.queued && j.feedback == Feedback(j.progress, [], false) && j.lastErr.None? && RunOf(j, run)
    requires Process(j, run).lastErr.None?
    ensures run.Started? && OpenPeers(j.(queued := false), run.attempts).1 == []
    ensures var j1, j' := OpenPeers(j.(queued := false), run.attempts).0, Process(j, run);
      && j1.feedback == j.feedback && j1.progress == j.progress && j1.instr == j.instr
      && PhasesOf(j1, run.exchanges) && !Phases(j1, run.exchanges).feedback.closed
      && j'.instr == j.instr && j'.progress == j.progress + |run.exchanges| >= |j.instr.tasks|
      && j'.feedback == Phases(j1, run.exchanges).feedback.(closed := true)
  {
    var j0 := j.(queued := false);
    OpenPeersFacts(j0, run.attempts);
    PhasesShape(OpenPeers(j0, run.attempts).0, run.exchanges);
  }

  /** A run that ends without error has done every phase, and its stream holds, phase after
      phase from where it started, one response of every chat. */
  lemma FinishedRun(j: Job, run: Run, k: int)
    requires Inv(j) && j.queued && RunOf(j, run)
    requires Process(j, run).lastErr.None?
    ensures run.Started?
    ensures var j1, j' := OpenPeers(j.(queued := false), run.attempts).0, Process(j, run);
      && j'.progress == |j'.instr.tasks| == |j.instr.tasks|
      && j'.feedback.closed && j'.feedback.start == j.progress
      && |Block(j'.feedback.items, k)| == if j.progress <= k < j'.progress then |j1.chats| else 0
  {
    hide Phases, PhasesOf, OpenPeers, Process, Block, Conserved, InOrder, IsHalted;
    CleanRun(j, run);
    var j1 := OpenPeers(j.(queued := false), run.attempts).0;
    PhasesShape(j1, run.exchanges);
    CleanPhases(j1, run.exchanges, k - j.progress);
    RunLength(j1, run.exchanges);
  }

  /** A run that ends with an error stopped at a phase it did not complete, or sent nothing. */
  lemma FailedRun(j: Job, run: Run)
    requires j.queued && j.feedback == Feedback(j.progress, [], false) && RunOf(j, run)
    requires j.lastErr.None? && Process(j, run).lastErr.Some?
    ensures Process(j, run).progress < |j.instr.tasks| || Process(j, run).feedback.items == []
  {
    if run.Started? {
      var j0 := j.(queued := false);
      OpenPeersFacts(j0, run.attempts);
      var (j1, missing) := OpenPeers(j0, run.attempts);
      if missing == [] {
        PhasesShape(j1, run.exchanges);
      }
    }
  }
}
