/** Histories of concrete jobs that show where recycling falls short: peers "a" and "b", PREPARE
    and one session phase, the flags of the orchestration. "b" denies the second phase, so that
    the job halts and its client reschedules it. */
module JobScenarios {
  import opened MapOrder
  import opened Protocol
  import opened JobModel
  import opened JobInvariant
  import opened JobLifetime
  import opened JobHistory
  import opened JobSteps
  import Aggregator
  import Numbering

  const FLAGS := ERR_CLASS_NORM | ERR_CLASS_COMM
  const TABLE := [TableEntry("a", 1, 10001), TableEntry("b", 2, 10002)]
  const TASKS := [SMCCmd("f13x00000", 0, Prepare(TABLE)), SMCCmd("f13x00000", 0, Session(0))]
  const BOTH := Instr(TASKS, map[1 := "a", 2 := "b"])
  const ONLY_A := Instr(TASKS, map[1 := "a"])
  const ONLY_B := Instr(TASKS, map[1 := "b"])

  const FINE := CmdResult(SUCCESS, None)
  const COMPUTES := CmdResult(SUCCESS, Some(1.0))
  const DENIES := CmdResult(DENIED, None)

  /** A phase in which the peers answer this. */
  function Turn(a: CmdResult, b: CmdResult): Exchange {
    Exchange([Send("a", true), Send("b", true)], [Answer("a", Some(a)), Answer("b", Some(b))])
  }

  lemma Statuses()
    ensures ErrorClass(SUCCESS) == 0 && ErrorClass(DENIED) == 32 && Includes(FLAGS, 32)
    ensures !HasComm(SUCCESS) && !HasComm(DENIED)
    ensures 32 != 0 as Flags
  {
    assert 0 & 224 == 0 as bv32 && 34 & 224 == 32 as bv32;
    assert (32 | 128) & 32 == 32 as bv32;
    assert 34 & 128 == 0 as bv32 && 0 & 128 == 0 as bv32;
  }

  lemma ExchangeFacts(chats: map<PeerID, PeerChat>, a: CmdResult, b: CmdResult)
    requires chats.Keys == {"a", "b"} && a in {FINE, COMPUTES} && b in {FINE, COMPUTES, DENIES}
    ensures ExchangeOf(chats, Turn(a, b))
    ensures FailedPeers(Turn(a, b).answers) == if b == DENIES then {"b"} else {}
    ensures CommPeers(Turn(a, b).answers) == {} && Handled(FLAGS, Turn(a, b).answers)
  {
    var x := Turn(a, b);
    assert x.sends[0] in x.sends && x.sends[1] in x.sends && x.answers[0] in x.answers && x.answers[1] in x.answers;
    Statuses();
    hide Includes, ErrorClass, HasComm;
  }

  /** What such a phase makes of a running job with both peers connected. */
  lemma PhaseFacts(j: Job, a: CmdResult, b: CmdResult)
    requires !j.feedback.closed && j.chats.Keys == {"a", "b"} && j.handleErrFlags == FLAGS
    requires a in {FINE, COMPUTES} && b in {FINE, COMPUTES, DENIES}
    ensures ExchangeOf(j.chats, Turn(a, b))
    ensures var j' := Phase(j, Turn(a, b));
      && j'.chats == j.chats && j'.instr == j.instr && j'.handleErrFlags == j.handleErrFlags
      && j'.everOpened == j.everOpened
      && j'.feedback.closed == (b == DENIES) && IsHalted(j') == (b == DENIES || IsHalted(j))
      && (b != DENIES ==> j'.lastErr == j.lastErr)
      && j'.progress == (if b == DENIES then j.progress else j.progress + 1)
      && j'.clean == j.clean + Answered(j.chats, j.progress, Turn(a, b).answers)
  {
    hide Turn, FailedPeers, CommPeers, Handled, Answered, Asked, Replies, Failing, Unsent, ExchangeOf, Tagged,
         Lines, Only;
    ExchangeFacts(j.chats, a, b);
    PhaseFrame(j, Turn(a, b));
    assert j.chats - {} == j.chats;
  }

  /** The phases of a run from here until "b" denies the second one. */
  function Exchanges(progress: nat): seq<Exchange> {
    if progress == 0 then [Turn(FINE, FINE), Turn(FINE, DENIES)] else [Turn(FINE, DENIES)]
  }

  ghost predicate Ready(j: Job) {
    !j.feedback.closed && !IsHalted(j) && j.handleErrFlags == FLAGS && |j.instr.tasks| == 2 && j.progress <= 1
  }

  lemma HaltingPhases(j: Job)
    requires Ready(j) && j.chats.Keys == {"a", "b"}
    ensures PhasesOf(j, Exchanges(j.progress))
    ensures var j' := Phases(j, Exchanges(j.progress));
      && j'.chats == j.chats && j'.instr == j.instr && j'.handleErrFlags == j.handleErrFlags
        && j'.everOpened == j.everOpened
      && j'.feedback.closed && IsHalted(j') && j'.progress == 1
      && (j.progress == 1 ==> forall l: nat | (l, 0) in j'.clean :: (l, 0) in j.clean)
  {
    hide Phase, Turn, ExchangeOf;
    var xs := Exchanges(j.progress);
    assert Phases(j, []) == j && PhasesOf(j, []);
    if j.progress == 0 {
      assert xs[..1] == [Turn(FINE, FINE)] && xs[..1][..0] == [];
      PhaseFacts(j, FINE, FINE);
      assert Phases(j, xs[..1]) == Phase(j, Turn(FINE, FINE));
      PhaseFacts(Phase(j, Turn(FINE, FINE)), FINE, DENIES);
    } else {
      assert xs[..0] == [];
      PhaseFacts(j, FINE, DENIES);
    }
  }

  /** A run that finds both peers and halts at the second phase. */
  lemma HaltingRun(j: Job, attempts: seq<Attempt>)
    requires Ready(j) && AttemptsOf(j, attempts)
    requires var (j1, missing) := OpenPeers(j.(queued := false), attempts); missing == [] && j1.chats.Keys == {"a", "b"}
    ensures RunOf(j, Started(attempts, Exchanges(j.progress)))
    ensures var j1, j' := OpenPeers(j.(queued := false), attempts).0,
      Process(j, Started(attempts, Exchanges(j.progress)));
      && j'.chats == j1.chats && j'.instr == j.instr && j'.handleErrFlags == FLAGS && j'.everOpened == j1.everOpened
      && !j'.queued && j'.feedback.closed && IsHalted(j') && j'.progress == 1
      && (j.progress == 1 ==> forall l: nat | (l, 0) in j'.clean :: (l, 0) in j1.clean)
  {
    hide Exchanges, OpenPeers, Phases, PhasesOf, Finish;
    var j0 := j.(queued := false);
    OpenPeersFacts(j0, attempts);
    var j1 := OpenPeers(j0, attempts).0;
    HaltingPhases(j1);
    PhasesShape(j1, Exchanges(j.progress));
  }

  /** The first run of a job for both peers: both take the talk request, and the job halts with
      both of them connected. */
  lemma FirstHalt() returns (acts: seq<Action>, j: Job)
    ensures History(NewJob(BOTH, FLAGS), acts, j, false) && !j.queued
    ensures j.chats == map["a" := PeerChat("a", 10, 1), "b" := PeerChat("b", 11, 2)] && j.everOpened == {10, 11}
    ensures IsHalted(j) && j.instr == BOTH && j.handleErrFlags == FLAGS && j.progress == 1
  {
    var j0 := NewJob(BOTH, FLAGS);
    var attempts := [Attempt(1, Some(10)), Attempt(2, Some(11))];
    BothOpened(j0.(queued := false), attempts);
    BothAttempted(j0, attempts);
    HaltingRun(j0, attempts);
    var run := Started(attempts, Exchanges(0));
    hide RunOf, Process, Exchanges, HaltOrAbort;
    assert History(j0, [], j0, false);
    acts, j := OneAction(j0, [], j0, Work(run));
  }

  lemma BothAttempted(j: Job, attempts: seq<Attempt>)
    requires j.instr == BOTH && j.everOpened == {} && attempts == [Attempt(1, Some(10)), Attempt(2, Some(11))]
    ensures AttemptsOf(j, attempts)
  {
    assert attempts[0] in attempts && attempts[1] in attempts;
  }

  lemma BothOpened(j: Job, attempts: seq<Attempt>)
    requires j.instr == BOTH && j.chats == map[] && j.everOpened == {} && j.log == map[]
    requires attempts == [Attempt(1, Some(10)), Attempt(2, Some(11))]
    ensures AttemptsOf(j, attempts)
    ensures OpenPeers(j, attempts) ==
      (j.(chats := map["a" := PeerChat("a", 10, 1), "b" := PeerChat("b", 11, 2)], everOpened := {10, 11},
          log := map[10 := [], 11 := []]), [])
  {
    BothAttempted(j, attempts);
    hide OpenPeers, Fresh;
    assert j.instr.participants[1] == "a" && j.instr.participants[2] == "b";
    assert [] + [attempts[0]] + [attempts[1]] == attempts;
    OpenNobody(j);
    OpenOneMore(j, [], attempts[0]);
    OpenOneMore(j, [] + [attempts[0]], attempts[1]);
    var none: map<PeerID, PeerChat> := map[];
    var a, b := PeerChat("a", 10, 1), PeerChat("b", 11, 2);
    assert none["a" := a]["b" := b] == map["a" := a, "b" := b];
    assert {} + {10} + {11} == {10, 11};
    var silent: map<nat, seq<Entry>> := map[];
    assert silent[10 := []][11 := []] == map[10 := [], 11 := []];
  }

  /** Rescheduling a halted job of this kind with some of its peers. */
  lemma Rescheduled(j: Job, instr: Instr, order: seq<ChannelID>, enqueued: bool)
    requires !j.queued && Recyclable(j, instr) && IsOrder(order, instr.participants.Keys)
    ensures Enabled(j, Resched(instr, None, order, enqueued))
    ensures var j' := After(j, Resched(instr, None, order, enqueued));
      && j' == j.(chats := j'.chats, closes := j'.closes, feedback := Feedback(j.progress, [], false), lastErr := None,
                  instr := instr, queued := enqueued)
      && j'.chats.Keys == j.chats.Keys * j.instr.participants.Values
      && (forall p | p in j'.chats :: j'.chats[p].line == j.chats[p].line)
      && (forall p | p in j'.chats ::
            if p in instr.participants.Values then Stamped(j'.chats, instr.participants, p)
              else j'.chats[p] == j.chats[p])
      && (instr.participants.Values <= j.instr.participants.Values ==> Connected(j'))
  {
    RecycleBracket(j, instr, None, order);
    OrderMembers(order, instr.participants.Keys);
    RestampKeeps(j.chats, instr.participants, order);
    hide Restamp, Lines, Only, Recyclable;
  }

  lemma Peers()
    ensures BOTH.participants.Values == {"a", "b"} && ONLY_A.participants.Values == {"a"}
      && ONLY_B.participants.Values == {"b"}
    ensures IsOrder([1, 2], BOTH.participants.Keys) && IsOrder([1], ONLY_A.participants.Keys)
      && IsOrder([1], ONLY_B.participants.Keys)
  {
    assert BOTH.participants[1] == "a" && BOTH.participants[2] == "b";
    assert ONLY_A.participants[1] == "a" && ONLY_B.participants[1] == "b";
  }

  /** A real history after which two live chats have the channel ID 1: the new instruction gives
      it to "b" and leaves out "a", whose chat stays open with the ID it had. */
  lemma LeftoverSharesAnID() returns (acts: seq<Action>, j: Job)
    ensures History(NewJob(BOTH, FLAGS), acts, j, false) && j.queued && j.instr == ONLY_B
    ensures "a" in j.chats && "b" in j.chats && j.chats["a"].cid == 1 == j.chats["b"].cid
    ensures j.progress == 1 && TASKS[0].payload == Prepare(TABLE) && !Numbering.Agrees(TABLE, j.chats)
  {
    hide History, Enabled, After, Recyclable;
    acts, j := FirstHalt();
    Peers();
    CanReschedule(j, ONLY_B);
    Rescheduled(j, ONLY_B, [1], true);
    acts, j := OneAction(NewJob(BOTH, FLAGS), acts, j, Resched(ONLY_B, None, [1], true));
    assert TABLE[1].authID == "b" && TABLE[1].smcPeerID == 2;
    assert !Numbering.Tabled(TABLE, "b", j.chats["b"].cid);
  }

  lemma CanReschedule(j: Job, instr: Instr)
    requires IsHalted(j) && |instr.tasks| == |j.instr.tasks| && instr.participants.Values <= j.chats.Keys
    ensures Recyclable(j, instr)
  {
  }

  /** A real history that strands a job: it was recycled, but the queue stayed full. Whatever
      anybody does, the chat of "a" is never closed. */
  lemma StrandedWithAChat() returns (acts: seq<Action>, j: Job)
    ensures History(NewJob(BOTH, FLAGS), acts, j, false)
    ensures !j.queued && !Over(j) && "a" in j.chats && j.chats["a"].line == 10
    ensures forall more, j' :: History(j, more, j', false) ==> j' == j && 10 !in j'.closes
  {
    hide History, Enabled, After, Recyclable;
    var first;
    acts, first := FirstHalt();
    Peers();
    CanReschedule(first, ONLY_A);
    Rescheduled(first, ONLY_A, [1], false);
    ChatsConserved(BOTH, FLAGS, acts, first);
    RecycleKeeps(first, ONLY_A, None, [1]);
    acts, j := OneAction(NewJob(BOTH, FLAGS), acts, first, Resched(ONLY_A, None, [1], false));
    ChatsConserved(BOTH, FLAGS, acts, j);
    forall more, j' | History(j, more, j', false) ensures j' == j && 10 !in j'.closes {
      StrandedForever(j, more, j');
    }
  }

  lemma ResumedWithoutB() returns (acts: seq<Action>, j: Job)
    ensures History(NewJob(BOTH, FLAGS), acts, j, false)
    ensures Ready(j) && j.queued && j.instr == ONLY_A && j.progress == 1 && j.lastErr.None? && j.feedback.items == []
    ensures |j.instr.tasks| == 2
    ensures j.chats.Keys == {"a", "b"} && j.chats["a"].line == 10 && j.everOpened == {10, 11}
  {
    hide History, Enabled, After, Recyclable;
    acts, j := FirstHalt();
    Peers();
    CanReschedule(j, ONLY_A);
    Rescheduled(j, ONLY_A, [1], true);
    acts, j := OneAction(NewJob(BOTH, FLAGS), acts, j, Resched(ONLY_A, None, [1], true));
  }

  /** A real history of a job that was resumed at the second phase and has now finished, all its
      peers having answered both phases and computed the same result: the client learns nothing
      but that the job was empty. */
  lemma FinishedButEmpty() returns (acts: seq<Action>, j: Job)
    ensures History(NewJob(BOTH, FLAGS), acts, j, false)
    ensures Over(j) && j.lastErr.None? && j.progress == |j.instr.tasks| == 2 && j.instr == ONLY_A
    ensures Block(j.feedback.items, 1) == [COMPUTES, COMPUTES]
    ensures Aggregator.Expected(j.feedback.items, j.lastErr, 2) == Aggregator.Failure(Aggregator.EmptyJob)
  {
    hide *;
    acts, j := ResumedWithoutB();
    ChatsConserved(BOTH, FLAGS, acts, j);
    var run := FinishingRun(j);
    StillEmpty(j, run);
    acts, j := WorkedOff(acts, j, run);
  }

  lemma WorkedOff(acts: seq<Action>, j: Job, run: Run) returns (acts': seq<Action>, j': Job)
    requires History(NewJob(BOTH, FLAGS), acts, j, false) && j.queued && RunOf(j, run)
    ensures History(NewJob(BOTH, FLAGS), acts', j', false) && j' == Process(j, run)
  {
    hide History, RunOf, Process;
    acts', j' := OneAction(NewJob(BOTH, FLAGS), acts, j, Work(run));
  }

  lemma FinishingRun(j: Job) returns (run: Run)
    requires Ready(j) && j.queued && j.instr == ONLY_A && j.chats.Keys == {"a", "b"} && j.progress == 1
    requires j.feedback.items == [] && j.lastErr.None?
    ensures RunOf(j, run) && run.Started? && OpenPeers(j.(queued := false), run.attempts).0.chats != map[]
    ensures var j' := Process(j, run);
      && Over(j') && j'.lastErr.None? && j'.progress == |j'.instr.tasks| == 2 && j'.instr == j.instr
      && Block(j'.feedback.items, 1) == [COMPUTES, COMPUTES]
  {
    hide OpenPeers, Phases, PhasesOf, Block;
    var attempts := [Attempt(1, None)];
    Peers();
    assert attempts[0] in attempts;
    var j1 := j.(queued := false);
    OpensNothing(j1, attempts);
    run := Started(attempts, [Turn(COMPUTES, COMPUTES)]);
    FinishingPhase(j1);
  }

  lemma StillEmpty(j: Job, run: Run)
    requires Inv(j) && j.queued && j.progress == 1 && |j.instr.tasks| == 2 && RunOf(j, run) && run.Started?
    requires OpenPeers(j.(queued := false), run.attempts).0.chats != map[] && Process(j, run).lastErr.None?
    ensures var j' := Process(j, run);
      Aggregator.Expected(j'.feedback.items, j'.lastErr, 2) == Aggregator.Failure(Aggregator.EmptyJob)
  {
    hide Inv, OpenPeers, Process, Phases, PhasesOf, Aggregator.Expected, Aggregator.Complete, Block;
    Aggregator.FinishedStream(j, run);
    Aggregator.ResumedIsEmpty(Process(j, run).feedback.items, 1, 2);
  }

  lemma FinishingPhase(j: Job)
    requires Ready(j) && j.chats.Keys == {"a", "b"} && j.progress == 1 && j.feedback.items == []
    ensures var xs := [Turn(COMPUTES, COMPUTES)];
      && PhasesOf(j, xs)
      && var j' := Phases(j, xs);
        && !j'.feedback.closed && j'.lastErr == j.lastErr && j'.progress == 2 && j'.instr == j.instr
        && Block(j'.feedback.items, 1) == [COMPUTES, COMPUTES]
  {
    hide Phase, ExchangeOf;
    var xs := [Turn(COMPUTES, COMPUTES)];
    assert xs[..0] == [] && Phases(j, []) == j && PhasesOf(j, []);
    PhaseFacts(j, COMPUTES, COMPUTES);
    RunDelivers(j, xs, 0);
    BothReply();
  }

  lemma BothReply()
    ensures Replies(Turn(COMPUTES, COMPUTES).answers) == [COMPUTES, COMPUTES]
  {
    Statuses();
    hide Includes, ErrorClass, HasComm;
    var xs := Turn(COMPUTES, COMPUTES).answers;
    assert xs[..1][..0] == [] && Replies([]) == [];
    assert Replies(xs[..1]) == [COMPUTES];
  }

  /** A real history in which "b" is left out once and then named again: its chat is closed all
      the same, and the next run opens a new one in the middle of the protocol, so that a live
      chat has not answered the first phase. */
  lemma ReturningPeerLosesItsChat() returns (acts: seq<Action>, j: Job, next: Action)
    ensures History(NewJob(BOTH, FLAGS), acts, j, false)
    ensures j.queued && j.instr == BOTH && j.progress == 1 && "b" !in j.chats && 11 in j.closes
    ensures Enabled(j, next) && "b" in After(j, next).chats && !Barrier(After(j, next))
  {
    hide History, Enabled, After, Recyclable, RunOf, Process;
    acts, j := HaltedTwice();
    Peers();
    CanReschedule(j, BOTH);
    Rescheduled(j, BOTH, [1, 2], true);
    acts, j := OneAction(NewJob(BOTH, FLAGS), acts, j, Resched(BOTH, None, [1, 2], true));
    ChatsConserved(BOTH, FLAGS, acts, j);
    assert 11 !in Lines(j.chats);
    next := OpensLate(acts, j);
  }

  /** Rescheduled without "b", the job still drives the chat of "b", which makes it halt once
      more. */
  lemma HaltedTwice() returns (acts: seq<Action>, j: Job)
    ensures History(NewJob(BOTH, FLAGS), acts, j, false)
    ensures j.chats.Keys == {"a", "b"} && j.chats["a"].line == 10 && j.everOpened == {10, 11}
    ensures !j.queued && IsHalted(j) && j.progress == 1 && j.instr == ONLY_A && j.handleErrFlags == FLAGS
  {
    hide History;
    acts, j := ResumedWithoutB();
    acts, j := HaltsAgain(acts, j);
  }

  lemma HaltsAgain(acts: seq<Action>, j: Job) returns (acts': seq<Action>, j': Job)
    requires History(NewJob(BOTH, FLAGS), acts, j, false)
    requires Ready(j) && j.queued && j.instr == ONLY_A && j.chats.Keys == {"a", "b"} && j.progress == 1
    ensures History(NewJob(BOTH, FLAGS), acts', j', false)
    ensures j'.chats == j.chats && !j'.queued && IsHalted(j') && j'.progress == 1
    ensures j'.instr == ONLY_A && j'.handleErrFlags == FLAGS && j'.everOpened == j.everOpened
  {
    var attempts := [Attempt(1, None)];
    Peers();
    assert attempts[0] in attempts;
    OpensNothing(j.(queued := false), attempts);
    HaltingRun(j, attempts);
    var run := Started(attempts, Exchanges(1));
    hide RunOf, Process, Exchanges, History;
    acts', j' := OneAction(NewJob(BOTH, FLAGS), acts, j, Work(run));
  }

  lemma OpensLate(acts: seq<Action>, j: Job) returns (next: Action)
    requires History(NewJob(BOTH, FLAGS), acts, j, false)
    requires Ready(j) && j.queued && j.instr == BOTH && j.chats.Keys == {"a"} && j.progress == 1
      && j.everOpened == {10, 11}
    ensures Enabled(j, next) && "b" in After(j, next).chats && !Barrier(After(j, next))
  {
    var j0 := j.(queued := false);
    var attempts := [Attempt(1, None), Attempt(2, Some(12))];
    LateAttempts(j0, attempts);
    HaltingRun(j, attempts);
    var run := Started(attempts, Exchanges(1));
    next := Work(run);
    ChatsConserved(BOTH, FLAGS, acts, j);
    assert (12, 0) !in j.clean;
    hide RunOf, Process, Exchanges, History, Conserved;
    var j' := After(j, next);
    assert j'.chats["b"].line == 12 && (12, 0) !in j'.clean;
  }

  lemma LateAttempts(j: Job, attempts: seq<Attempt>)
    requires j.instr == BOTH && j.chats.Keys == {"a"} && j.everOpened == {10, 11}
    requires attempts == [Attempt(1, None), Attempt(2, Some(12))]
    ensures AttemptsOf(j, attempts)
    ensures OpenPeers(j, attempts) ==
      (Opened(j, "b", 12, 2), [])
  {
    assert attempts[0] in attempts && attempts[1] in attempts;
    hide OpenPeers;
    assert j.instr.participants[1] == "a" && j.instr.participants[2] == "b";
    assert [] + [attempts[0]] + [attempts[1]] == attempts;
    OpenNobody(j);
    OpenOneMore(j, [], attempts[0]);
    OpenOneMore(j, [] + [attempts[0]], attempts[1]);
    assert {10, 11} + {12} == {10, 11, 12};
  }
}
