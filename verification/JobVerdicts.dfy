/** How a run ends and what a reschedule makes of a job, in terms of what its client knows: the
    flags it gave, the peers it named, and what became of them. */
module JobVerdicts {
  import opened MapOrder
  import opened Protocol
  import opened JobModel
  import opened JobInvariant
  import opened JobRuns
  import opened JobLifetime
  import opened JobHistory

  // Opening chats

  /** Some talk request to the peer was taken. */
  ghost predicate TookRequest(j: Job, attempts: seq<Attempt>, p: PeerID)
    requires forall a <- attempts :: a.cid in j.instr.participants
  {
    exists a :: a in attempts && j.instr.participants[a.cid] == p && a.line.Some?
  }

  /** A peer has a chat afterwards iff it had one or took the request; who is missing. */
  lemma {:induction false} OpenedIff(j: Job, attempts: seq<Attempt>, p: PeerID)
    requires forall a <- attempts :: a.cid in j.instr.participants
    ensures var (j', missing) := OpenPeers(j, attempts);
      && (p in j'.chats <==> p in j.chats || TookRequest(j, attempts, p))
      && (p in missing ==> p in j.instr.participants.Values && p !in j.chats)
      && ((exists a :: a in attempts && j.instr.participants[a.cid] == p) && p !in j'.chats ==> p in missing)
      && (p in missing ==> exists a :: a in attempts && j.instr.participants[a.cid] == p && a.line.None?)
  {
    if attempts != [] {
      var n := |attempts| - 1;
      OpenedIff(j, attempts[..n], p);
      assert attempts[n] in attempts;
      assert forall a <- attempts :: a in attempts[..n] || a == attempts[n];
      OpenPeersFacts(j, attempts[..n]);
    }
  }

  lemma AttemptsPerPeer(j: Job, attempts: seq<Attempt>)
    requires AttemptsOf(j, attempts)
    ensures forall a <- attempts :: a.cid in j.instr.participants
    ensures forall p <- j.instr.participants.Values :: exists a :: a in attempts && j.instr.participants[a.cid] == p
    ensures Injective(j.instr.participants) ==>
      forall a, b | a in attempts && b in attempts && j.instr.participants[a.cid] == j.instr.participants[b.cid] ::
        a == b
  {
    forall a <- attempts ensures a.cid in j.instr.participants {
      assert a.cid in (set b | b in attempts :: b.cid);
    }
    forall p <- j.instr.participants.Values ensures exists a :: a in attempts && j.instr.participants[a.cid] == p {
      var cid := KeyOf(j.instr.participants, p);
      assert cid in (set a | a in attempts :: a.cid);
    }
  }

  lemma TakenUp(j: Job, run: Run)
    requires RunOf(j, run) && run.Started?
    ensures AttemptsOf(j.(queued := false), run.attempts)
    ensures Inv(j) ==> Inv(j.(queued := false))
  {
    hide PhasesOf, Phases, OpenPeers;
  }

  /** The chats once a run has opened what it could. */
  ghost function OpenedChats(j: Job, run: Run): map<PeerID, PeerChat>
    requires RunOf(j, run) && run.Started?
  {
    OpenPeers(j.(queued := false), run.attempts).0.chats
  }

  /** The participants that a run misses are those without a chat, if no peer is named twice. */
  lemma MissingPeers(j: Job, run: Run, p: PeerID)
    requires RunOf(j, run) && run.Started?
    ensures p in j.instr.participants.Values && p !in OpenedChats(j, run) ==> p in Missing(j, run)
    ensures p in Missing(j, run) ==> p in j.instr.participants.Values && p !in j.chats
    ensures p in Missing(j, run) && Injective(j.instr.participants) ==> p !in OpenedChats(j, run)
  {
    hide OpenPeers, Fresh, PhasesOf, Phases, Injective;
    var j0 := j.(queued := false);
    TakenUp(j, run);
    AttemptsPerPeer(j0, run.attempts);
    OpenedIff(j0, run.attempts, p);
  }

  /** A run that misses somebody halts iff its client handles communication errors, and aborts
      otherwise. It names whom it missed. Halted it keeps all chats, the new ones included, so
      that it can be recycled with any of the peers it has reached; aborted it has closed them and
      is refused. */
  lemma OpeningVerdict(j: Job, run: Run)
    requires Inv(j) && j.queued && RunOf(j, run) && Missing(j, run) != []
    ensures run.Started? && run.exchanges == []
    ensures var j' := Process(j, run);
      && j'.lastErr.Some? && j'.progress == j.progress && j'.feedback.items == []
      && j'.lastErr.value.status == (if j.handleErrFlags & ERR_CLASS_COMM != 0 then Halted else Aborted)
      && j'.lastErr.value.progress == j.progress && j'.lastErr.value.peers == Missing(j, run)
      && j'.chats == (if j.handleErrFlags & ERR_CLASS_COMM != 0 then OpenedChats(j, run) else map[])
      && (forall instr: Instr | |instr.tasks| >= |j.instr.tasks| ::
            Recyclable(j', instr) <==>
              j.handleErrFlags & ERR_CLASS_COMM != 0 && instr.participants.Values <= OpenedChats(j, run).Keys)
  {
    hide PhasesOf, Phases, OpenPeers, Conserved;
    var j0 := j.(queued := false);
    AttemptsPerPeer(j0, run.attempts);
    OpenPeersFacts(j0, run.attempts);
    var j1 := OpenPeers(j0, run.attempts).0;
    assert j1.chats - j1.chats.Keys == map[];
  }

  // Phases

  /** No peer's answer to the query is missing or has an error class. */
  predicate Clean(x: Exchange) {
    forall a <- x.answers :: a.reply.Some? && a.reply.value.status & ALL_ERROR_CLASSES == 0
  }

  lemma CleanIff(j: Job, x: Exchange)
    ensures Clean(x) <==> QueryError(j, x).None?
  {
    QueryDecision(j, x);
  }

  /** A phase whose query fails is the last one of the run. */
  lemma {:induction false} CleanButLast(j: Job, xs: seq<Exchange>)
    requires !j.feedback.closed && PhasesOf(j, xs)
    ensures forall i | 0 <= i < |xs| - 1 :: Clean(xs[i])
    ensures Phases(j, xs).feedback.closed <==> xs != [] && !Clean(xs[|xs| - 1])
  {
    hide Phase, Query, QueryError, ExchangeOf, Clean;
    if xs != [] {
      var n := |xs| - 1;
      CleanButLast(j, xs[..n]);
      PhasesShape(j, xs[..n]);
      var j1 := Phases(j, xs[..n]);
      CleanIff(j1, xs[n]);
      PhaseFrame(j1, xs[n]);
    }
  }

  /** The error of the loop: at which phase, with whom, and halted iff the client handles every
      flag that was raised. */
  lemma PhasesVerdict(j: Job, xs: seq<Exchange>)
    requires !j.feedback.closed && PhasesOf(j, xs) && Phases(j, xs).feedback.closed
    ensures xs != []
    ensures var j', last := Phases(j, xs), xs[|xs| - 1];
      && j'.lastErr.Some? && j'.progress == j'.lastErr.value.progress == j.progress + |xs| - 1
      && j'.lastErr.value.status == (if Includes(j.handleErrFlags, Raised(last.answers)) then Halted else Aborted)
      && (forall p :: p in j'.lastErr.value.peers <==> p in FailedPeers(last.answers))
      && j'.chats == if j'.lastErr.value.status == Halted then j.chats - CommPeers(last.answers) else map[]
  {
    hide PhasesOf, Query, ExchangeOf, Includes, Raised, FailedPeers, CommPeers, HasComm, QueryError, HaltOrAbort;
    var n := |xs| - 1;
    var j1 := Phases(j, xs[..n]);
    LastTurn(j, xs);
    QueryDecision(j1, xs[n]);
    QueryPartition(j1, xs[n]);
    PhaseFrame(j1, xs[n]);
    FailedPhaseChats(j1, xs[n]);
  }

  lemma LastTurn(j: Job, xs: seq<Exchange>)
    requires !j.feedback.closed && PhasesOf(j, xs) && Phases(j, xs).feedback.closed
    ensures xs != []
    ensures var n := |xs| - 1; var j1 := Phases(j, xs[..n]);
      && !j1.feedback.closed && ExchangeOf(j1.chats, xs[n]) && QueryError(j1, xs[n]).Some?
      && Phases(j, xs) == Phase(j1, xs[n])
      && j1.chats == j.chats && j1.progress == j.progress + n && j1.handleErrFlags == j.handleErrFlags
      && QueryError(j1, xs[n]).value.progress == j1.progress
  {
    hide Phase, Query, ExchangeOf;
    var n := |xs| - 1;
    PhasesShape(j, xs[..n]);
    PhaseFrame(Phases(j, xs[..n]), xs[n]);
  }

  lemma FailedPhaseChats(j: Job, x: Exchange)
    requires !j.feedback.closed && ExchangeOf(j.chats, x) && QueryError(j, x).Some?
    ensures Phase(j, x).chats ==
      if QueryError(j, x).value.status == Halted then j.chats - CommPeers(x.answers) else map[]
  {
    hide ExchangeOf, Handled, Replies, Unsent, Failing, FailedPeers, CommPeers, Spoken, Lines, Only, Asked, Answered;
    QueryKeepsChats(j, x);
    var j1 := Query(j, x);
    assert j1.chats - j1.chats.Keys == map[];
  }

  // Whole runs

  /** The run failed of something that these flags handle. */
  ghost predicate Tolerates(flags: Flags, j: Job, run: Run)
    requires RunOf(j, run)
  {
    && run.Started?
    && if Missing(j, run) != [] then flags & ERR_CLASS_COMM != 0
       else run.exchanges != [] && Includes(flags, Raised(run.exchanges[|run.exchanges| - 1].answers))
  }

  /** The run did all that was left to do, with everybody. */
  ghost predicate Flawless(j: Job, run: Run)
    requires RunOf(j, run)
  {
    run.Started? && Missing(j, run) == [] && forall x <- run.exchanges :: Clean(x)
  }

  /** How every run ends. Without error iff it was flawless, at the last task. An expired one is
      aborted before any peer was contacted. Any other one halts iff its client's flags handle
      what happened, and is aborted, with every chat closed, iff not. */
  lemma RunVerdict(j: Job, run: Run)
    requires Inv(j) && j.queued && RunOf(j, run)
    ensures var j' := Process(j, run);
      && (j'.lastErr.None? <==> Flawless(j, run))
      && (Flawless(j, run) ==> j'.progress == |j.instr.tasks|)
      && (IsHalted(j') <==> !Flawless(j, run) && Tolerates(j.handleErrFlags, j, run))
      && (!IsHalted(j') ==> j'.chats == map[])
      && (run.Expired? ==> j'.lastErr == Some(PeerError(Aborted, -1, [])) && j'.everOpened == j.everOpened)
      && j'.handleErrFlags == j.handleErrFlags && j'.instr == j.instr
  {
    hide PhasesOf, Phases, OpenPeers, Conserved, Includes, Raised, Clean, Inv;
    ProcessKeeps(j, run);
    OverChats(Process(j, run));
    if run.Started? {
      if Missing(j, run) != [] {
        OpeningVerdict(j, run);
        SameTerms(j, run);
      } else {
        LoopVerdict(j, run);
      }
    } else {
      Expires(j, run);
    }
  }

  lemma Expires(j: Job, run: Run)
    requires run.Expired?
    ensures var j' := Process(j, run);
      && j'.lastErr == Some(PeerError(Aborted, -1, [])) && j'.everOpened == j.everOpened
      && j'.handleErrFlags == j.handleErrFlags && j'.instr == j.instr
  {
    hide Lines, Only;
  }

  lemma OverChats(j: Job)
    requires Inv(j) && j.feedback.closed
    ensures !IsHalted(j) ==> j.chats == map[]
    ensures j.lastErr.Some? ==> j.lastErr.value.status in {Halted, Aborted}
  {
    hide Conserved, Ledger, InOrder;
  }

  lemma SameTerms(j: Job, run: Run)
    requires RunOf(j, run) && run.Started? && Missing(j, run) != []
    ensures Process(j, run).handleErrFlags == j.handleErrFlags && Process(j, run).instr == j.instr
  {
    hide PhasesOf, Phases, OpenPeers, Lines, Only, Fresh;
    TakenUp(j, run);
    AttemptsPerPeer(j.(queued := false), run.attempts);
    OpenPeersFacts(j.(queued := false), run.attempts);
  }

  lemma LoopVerdict(j: Job, run: Run)
    requires Inv(j) && j.queued && RunOf(j, run) && run.Started? && Missing(j, run) == []
    ensures var j' := Process(j, run);
      && (j'.lastErr.None? <==> forall x <- run.exchanges :: Clean(x))
      && (j'.lastErr.None? ==> j'.progress == |j.instr.tasks|)
      && (IsHalted(j') <==> j'.lastErr.Some? && Tolerates(j.handleErrFlags, j, run))
      && j'.handleErrFlags == j.handleErrFlags && j'.instr == j.instr
  {
    hide PhasesOf, Phases, OpenPeers, Conserved, Includes, Raised, Clean, InOrder, Lines, Only, AttemptsOf;
    var j0 := j.(queued := false);
    TakenUp(j, run);
    OpenedKeeps(j0, run.attempts);
    AttemptsPerPeer(j0, run.attempts);
    OpenPeersFacts(j0, run.attempts);
    var j1 := OpenPeers(j0, run.attempts).0;
    var xs := run.exchanges;
    PhasesShape(j1, xs);
    RunLength(j1, xs);
    CleanButLast(j1, xs);
    if Phases(j1, xs).feedback.closed {
      PhasesVerdict(j1, xs);
    }
  }

  // Reschedules

  /** What a reschedule of a recyclable job hands to the next run: the new instruction, the phase
      where it halted, an empty open feedback, and the error flags given with it, or else those it
      had. Refused it changes none of them. */
  lemma RescheduleHandsOver(j: Job, a: Action)
    requires Inv(j) && Enabled(j, a) && a.Resched?
    ensures var j' := After(j, a);
      && j'.progress == j.progress
      && if Recyclable(j, a.instr) then
           && j'.instr == a.instr && j'.queued == a.enqueued && j'.lastErr.None?
           && j'.feedback == Feedback(j.progress, [], false)
           && (a.flags.Some? ==> j'.handleErrFlags == a.flags.value)
           && (a.flags.None? ==> j'.handleErrFlags == j.handleErrFlags)
         else
           && j'.instr == j.instr && j'.handleErrFlags == j.handleErrFlags && j'.lastErr == j.lastErr
           && j'.feedback == j.feedback && !j'.queued && j'.chats.Keys == j.chats.Keys
  {
    OrderMembers(a.order, a.instr.participants.Keys);
    RecycleSucceedsIff(j, a.instr, a.flags, a.order);
    RestampKeeps(j.chats, a.instr.participants, a.order);
    hide Restamp, Lines, Only, Conserved, InOrder, Recyclable;
  }

  /** The flags that a reschedule passes decide about the next run. */
  lemma FlagsDecideNextRun(j: Job, a: Action, run: Run)
    requires Inv(j) && Enabled(j, a) && a.Resched? && Recyclable(j, a.instr) && a.enqueued
    requires RunOf(After(j, a), run)
    ensures var j1, j' := After(j, a), Process(After(j, a), run);
      var flags := if a.flags.Some? then a.flags.value else j.handleErrFlags;
      && j1.queued
      && (IsHalted(j') <==> !Flawless(j1, run) && Tolerates(flags, j1, run))
      && (!IsHalted(j') ==> Over(j') && j'.chats == map[])
  {
    hide Inv, RunOf, Process, Flawless, Tolerates, Recyclable, Reschedule;
    RescheduleHandsOver(j, a);
    ActionKeeps(j, a);
    RunVerdict(After(j, a), run);
    ProcessKeeps(After(j, a), run);
  }

  /** The orchestration reschedules with no flags: whatever the next run meets, it brings the job
      to its end with every chat closed. */
  lemma LastReschedule(j: Job, a: Action, run: Run)
    requires Inv(j) && Enabled(j, a) && a.Resched? && Recyclable(j, a.instr) && a.enqueued
    requires a.flags == Some(0) && RunOf(After(j, a), run)
    ensures Over(Process(After(j, a), run)) && Process(After(j, a), run).chats == map[]
  {
    hide Inv, RunOf, Process, Recyclable, Reschedule;
    RescheduleHandsOver(j, a);
    ActionKeeps(j, a);
    LastRun(After(j, a), run);
  }
}
