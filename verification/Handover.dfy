/** Who may touch a job. Two kinds of parties run at once: the workers of the PeerNetwork, who
    take jobs from its queue, and the clients, one for each job. Only "lastErr" is under the
    job's mutex; the chats map and the feedback channel are not. The machine interleaves
    single steps of all of them (orchestration/worker/comm.go, job.go). */
module Handover {

  type JobId = nat
  type WorkerId = nat

  /** make(chan *job, 4) */
  const QUEUE_CAP := 4

  datatype Status = NoError | Halted | Aborted

  /** Where a worker stands. It works on the chats while Running and Closing. */
  datatype WorkerPc =
    | Idle
    | Running(job: JobId)
    | Published(job: JobId, status: Status)
    | Closing(job: JobId)

  /** Where the client of a job stands. It reads the feedback while Watching; it has Left if it
      stopped reading before it saw the close, as after an early return of the aggregator. It
      works on the chats while Recycling and Aborting. */
  datatype ClientPc =
    | Unborn
    | Watching
    | Left
    | SawClose
    | Recycling
    | Aborting
    | Installed
    | Refused

  /** "outcome" is how the last run ended, for stating what the client learns. */
  datatype JobCtl = JobCtl(client: ClientPc, lastErr: Status, feedbackClosed: bool, outcome: Status, over: bool)

  datatype State = State(jobs: map<JobId, JobCtl>, queue: seq<JobId>, workers: map<WorkerId, WorkerPc>, panicked: bool)

  datatype Step =
    // a worker
    | Take(w: WorkerId)
    | Send(w: WorkerId)
    | Publish(w: WorkerId, status: Status)
    | CloseFeedback(w: WorkerId)
    | CloseFinished(w: WorkerId)
    | ChatsClosed(w: WorkerId)
    // the client of a job
    | Submit(j: JobId)
    | Leave(j: JobId)
    | SeeClose(j: JobId)
    | CheckHalted(j: JobId, recycle: bool)
    | RecycleFails(j: JobId)
    | Install(j: JobId)
    | Enqueue(j: JobId)
    | EnqueueFails(j: JobId)
    | AbortDone(j: JobId)

  function Worker(s: State, w: WorkerId): WorkerPc {
    if w in s.workers then s.workers[w] else Idle
  }

  function Ctl(s: State, j: JobId): JobCtl {
    if j in s.jobs then s.jobs[j] else JobCtl(Unborn, NoError, false, NoError, false)
  }

  function SetWorker(s: State, w: WorkerId, pc: WorkerPc): State {
    s.(workers := s.workers[w := pc])
  }

  function SetCtl(s: State, j: JobId, c: JobCtl): State {
    s.(jobs := s.jobs[j := c])
  }

  /** A client turns to a job again once it saw the end of its results, or has left. */
  predicate MayAct(c: ClientPc) {
    c == SawClose || c == Left || c == Refused
  }

  /** What the client owes the worker. It may abort at any time; it must not recycle a job that
      is halted but whose feedback channel the worker has yet to close. A client that keeps the
      contract of JobWatcher, and acts only after it saw the close, never does. */
  predicate Timely(s: State, j: JobId, recycle: bool) {
    recycle && Ctl(s, j).lastErr == Halted ==> Ctl(s, j).feedbackClosed
  }

  predicate Enabled(s: State, t: Step, timely: bool) {
    match t
    case Take(w) => w in s.workers && s.workers[w].Idle? && s.queue != []
    case Send(w) => Worker(s, w).Running? && (Reads(s, Worker(s, w).job) || Ctl(s, Worker(s, w).job).feedbackClosed)
    case Publish(w, status) => Worker(s, w).Running? && status != NoError
    case CloseFeedback(w) => Worker(s, w).Published?
    case CloseFinished(w) => Worker(s, w).Running?
    case ChatsClosed(w) => Worker(s, w).Closing?
    case Submit(j) => j !in s.jobs && |s.queue| < QUEUE_CAP
    case Leave(j) => Ctl(s, j).client == Watching
    case SeeClose(j) => Ctl(s, j).client == Watching && Ctl(s, j).feedbackClosed
    case CheckHalted(j, recycle) => MayAct(Ctl(s, j).client) && (timely ==> Timely(s, j, recycle))
    case RecycleFails(j) => Ctl(s, j).client == Recycling
    case Install(j) => Ctl(s, j).client == Recycling
    case Enqueue(j) => Ctl(s, j).client == Installed && |s.queue| < QUEUE_CAP
    case EnqueueFails(j) => Ctl(s, j).client == Installed
    case AbortDone(j) => Ctl(s, j).client == Aborting
  }

  /** The feedback channel is unbuffered: a send waits for a reader. */
  predicate Reads(s: State, j: JobId) {
    Ctl(s, j).client == Watching
  }

  /** Sending on a closed feedback channel and closing it twice panic. */
  function Next(s: State, t: Step): State
    requires Enabled(s, t, false)
  {
    match t
    case Take(w) => SetWorker(s.(queue := s.queue[1..]), w, Running(s.queue[0]))
    case Send(w) => s.(panicked := s.panicked || Ctl(s, Worker(s, w).job).feedbackClosed)
    case Publish(w, status) =>
      var j := Worker(s, w).job;
      SetWorker(SetCtl(s, j, Ctl(s, j).(lastErr := status, outcome := status, over := status == Aborted)), w,
        Published(j, status))
    case CloseFeedback(w) =>
      var Published(j, status) := Worker(s, w);
      SetWorker(SetCtl(s.(panicked := s.panicked || Ctl(s, j).feedbackClosed), j, Ctl(s, j).(feedbackClosed := true)),
                w, if status == Aborted then Closing(j) else Idle)
    case CloseFinished(w) =>
      var j := Worker(s, w).job;
      SetWorker(SetCtl(s.(panicked := s.panicked || Ctl(s, j).feedbackClosed), j,
                       Ctl(s, j).(feedbackClosed := true, outcome := NoError, over := true)), w, Closing(j))
    case ChatsClosed(w) => SetWorker(s, w, Idle)
    case Submit(j) => SetCtl(s.(queue := s.queue + [j]), j, JobCtl(Watching, NoError, false, NoError, false))
    case Leave(j) => SetCtl(s, j, Ctl(s, j).(client := Left))
    case SeeClose(j) => SetCtl(s, j, Ctl(s, j).(client := SawClose))
    case CheckHalted(j, recycle) =>
      SetCtl(s, j, Ctl(s, j).(client :=
        if Ctl(s, j).lastErr != Halted then Refused else if recycle then Recycling else Aborting))
    case RecycleFails(j) => SetCtl(s, j, Ctl(s, j).(client := SawClose))
    case Install(j) => SetCtl(s, j, Ctl(s, j).(client := Installed, lastErr := NoError, feedbackClosed := false))
    case Enqueue(j) => SetCtl(s.(queue := s.queue + [j]), j, Ctl(s, j).(client := Watching))
    case EnqueueFails(j) => SetCtl(s, j, Ctl(s, j).(client := Refused))
    case AbortDone(j) => SetCtl(s, j, Ctl(s, j).(client := Refused, lastErr := NoError, over := true))
  }

  predicate Init(s: State) {
    s.jobs == map[] && s.queue == [] && !s.panicked && forall w | w in s.workers :: s.workers[w] == Idle
  }

  ghost predicate Reaches(s0: State, steps: seq<Step>, s: State, timely: bool) {
    if steps == [] then s == s0
    else
      var n := |steps| - 1;
      exists s1 :: Reaches(s0, steps[..n], s1, timely) && Enabled(s1, steps[n], timely)
        && s == Next(s1, steps[n])
  }

  predicate WorkerHolds(s: State, w: WorkerId, j: JobId) {
    !Worker(s, w).Idle? && Worker(s, w).job == j
  }

  /** The worker reads or changes the job's chats. */
  predicate WorkerTouches(s: State, w: WorkerId, j: JobId) {
    (Worker(s, w).Running? || Worker(s, w).Closing?) && Worker(s, w).job == j
  }

  predicate ClientTouches(s: State, j: JobId) {
    Ctl(s, j).client == Recycling || Ctl(s, j).client == Aborting
  }

  /** Nobody will run the job, unless its client enqueues it again. */
  predicate AtRest(s: State, j: JobId) {
    j !in s.queue && forall w | w in s.workers :: WorkerHolds(s, w, j) ==> s.workers[w].Closing?
  }

  /** The same, but for a worker that is about to close the feedback. */
  predicate NearRest(s: State, j: JobId) {
    && j !in s.queue
    && forall w | w in s.workers :: WorkerHolds(s, w, j) ==> s.workers[w].Closing? || s.workers[w].Published?
  }

  /** A job in the queue or in its run: its client reads, has left, or was refused, and the
      feedback channel is open. */
  predicate FreshRun(c: JobCtl) {
    c.client in {Watching, Left, Refused} && c.lastErr == NoError && !c.feedbackClosed && !c.over
  }

  /** The outcome is what the worker set, unless the client has aborted a halted job already. */
  predicate WorkerFits(s: State, pc: WorkerPc) {
    match pc
    case Idle => true
    case Running(j) => FreshRun(Ctl(s, j))
    case Published(j, status) =>
      var c := Ctl(s, j);
      && c.client in {Watching, Left, Refused, Aborting} && !c.feedbackClosed
      && status != NoError && c.outcome == status
      && (c.lastErr == status || (status == Halted && c.lastErr == NoError && c.client == Refused))
      && (c.over <==> c.lastErr != Halted)
    case Closing(j) =>
      Ctl(s, j).feedbackClosed && Ctl(s, j).over
  }

  /** What a client that saw the close read is the outcome of the run; a client that recycles
      has a halted job at rest, one that aborts a halted job nobody runs any more. */
  predicate ClientFits(s: State, j: JobId) {
    var c := Ctl(s, j);
    && c.client != Unborn
    && (c.over ==> c.lastErr != Halted && c.client in {Watching, Left, SawClose, Refused})
    && (c.feedbackClosed ==> AtRest(s, j))
    && (c.client in {SawClose, Recycling} ==> c.feedbackClosed)
    && (c.client == Installed ==> AtRest(s, j) && c.lastErr == NoError && !c.feedbackClosed && !c.over)
    && (c.client == Aborting ==> NearRest(s, j))
    && (c.client in {Recycling, Aborting} ==> c.lastErr == Halted && !c.over)
    && (c.lastErr == Halted ==> c.outcome == Halted)
    && (c.feedbackClosed && c.client in {Watching, Left, SawClose, Recycling} ==> c.lastErr == c.outcome)
  }

  ghost predicate Exclusive(s: State) {
    && (forall i, k | 0 <= i < k < |s.queue| :: s.queue[i] != s.queue[k])
    && (forall w | w in s.workers && !s.workers[w].Idle? :: s.workers[w].job !in s.queue)
    && (forall v, w | v in s.workers && w in s.workers && v != w && !s.workers[v].Idle? && !s.workers[w].Idle? ::
      s.workers[v].job != s.workers[w].job)
  }

  ghost predicate WorkersFit(s: State) {
    && !s.panicked && |s.queue| <= QUEUE_CAP
    && Exclusive(s)
    && (forall j <- s.queue :: j in s.jobs && FreshRun(s.jobs[j]))
    && (forall w | w in s.workers && !s.workers[w].Idle? :: s.workers[w].job in s.jobs)
    && (forall w | w in s.workers :: WorkerFits(s, s.workers[w]))
  }

  ghost predicate ClientsFit(s: State) {
    forall j | j in s.jobs :: ClientFits(s, j)
  }

  ghost predicate Inv(s: State) {
    WorkersFit(s) && ClientsFit(s)
  }

  lemma TakeClients(s: State, t: Step)
    requires Inv(s) && t.Take? && Enabled(s, t, true)
    ensures ClientsFit(Next(s, t))
  {
  }

  lemma TakeKeeps(s: State, t: Step)
    requires Inv(s) && t.Take? && Enabled(s, t, true)
    ensures Inv(Next(s, t))
  {
    hide ClientsFit;
    TakeClients(s, t);
  }

  lemma SendKeeps(s: State, t: Step)
    requires Inv(s) && t.Send? && Enabled(s, t, true)
    ensures Inv(Next(s, t))
  {
  }

  lemma PublishClients(s: State, t: Step)
    requires Inv(s) && t.Publish? && Enabled(s, t, true)
    ensures ClientsFit(Next(s, t))
  {
  }

  lemma PublishKeeps(s: State, t: Step)
    requires Inv(s) && t.Publish? && Enabled(s, t, true)
    ensures Inv(Next(s, t))
  {
    hide ClientsFit;
    PublishClients(s, t);
  }

  lemma CloseFeedbackClients(s: State, t: Step)
    requires Inv(s) && t.CloseFeedback? && Enabled(s, t, true)
    ensures ClientsFit(Next(s, t))
  {
  }

  lemma CloseFeedbackKeeps(s: State, t: Step)
    requires Inv(s) && t.CloseFeedback? && Enabled(s, t, true)
    ensures Inv(Next(s, t))
  {
    hide ClientsFit;
    CloseFeedbackClients(s, t);
  }

  lemma CloseFinishedClients(s: State, t: Step)
    requires Inv(s) && t.CloseFinished? && Enabled(s, t, true)
    ensures ClientsFit(Next(s, t))
  {
  }

  lemma CloseFinishedKeeps(s: State, t: Step)
    requires Inv(s) && t.CloseFinished? && Enabled(s, t, true)
    ensures Inv(Next(s, t))
  {
    hide ClientsFit;
    CloseFinishedClients(s, t);
  }

  lemma ChatsClosedKeeps(s: State, t: Step)
    requires Inv(s) && t.ChatsClosed? && Enabled(s, t, true)
    ensures Inv(Next(s, t))
  {
  }

  lemma SubmitClients(s: State, t: Step)
    requires Inv(s) && t.Submit? && Enabled(s, t, true)
    ensures ClientsFit(Next(s, t))
  {
  }

  lemma SubmitKeeps(s: State, t: Step)
    requires Inv(s) && t.Submit? && Enabled(s, t, true)
    ensures Inv(Next(s, t))
  {
    SubmitClients(s, t);
  }

  lemma LeaveKeeps(s: State, t: Step)
    requires Inv(s) && t.Leave? && Enabled(s, t, true)
    ensures Inv(Next(s, t))
  {
  }

  lemma SeeCloseKeeps(s: State, t: Step)
    requires Inv(s) && t.SeeClose? && Enabled(s, t, true)
    ensures Inv(Next(s, t))
  {
  }

  lemma CheckHaltedClients(s: State, t: Step)
    requires Inv(s) && t.CheckHalted? && Enabled(s, t, true)
    ensures ClientsFit(Next(s, t))
  {
  }

  lemma CheckHaltedKeeps(s: State, t: Step)
    requires Inv(s) && t.CheckHalted? && Enabled(s, t, true)
    ensures Inv(Next(s, t))
  {
    CheckHaltedClients(s, t);
  }

  lemma RecycleFailsKeeps(s: State, t: Step)
    requires Inv(s) && t.RecycleFails? && Enabled(s, t, true)
    ensures Inv(Next(s, t))
  {
  }

  lemma InstallKeeps(s: State, t: Step)
    requires Inv(s) && t.Install? && Enabled(s, t, true)
    ensures Inv(Next(s, t))
  {
  }

  lemma EnqueueClients(s: State, t: Step)
    requires Inv(s) && t.Enqueue? && Enabled(s, t, true)
    ensures ClientsFit(Next(s, t))
  {
  }

  lemma EnqueueKeeps(s: State, t: Step)
    requires Inv(s) && t.Enqueue? && Enabled(s, t, true)
    ensures Inv(Next(s, t))
  {
    EnqueueClients(s, t);
  }

  lemma EnqueueFailsKeeps(s: State, t: Step)
    requires Inv(s) && t.EnqueueFails? && Enabled(s, t, true)
    ensures Inv(Next(s, t))
  {
  }

  lemma AbortDoneClients(s: State, t: Step)
    requires Inv(s) && t.AbortDone? && Enabled(s, t, true)
    ensures ClientsFit(Next(s, t))
  {
  }

  lemma AbortDoneKeeps(s: State, t: Step)
    requires Inv(s) && t.AbortDone? && Enabled(s, t, true)
    ensures Inv(Next(s, t))
  {
    AbortDoneClients(s, t);
  }

  lemma StepKeeps(s: State, t: Step)
    requires Inv(s) && Enabled(s, t, true)
    ensures Inv(Next(s, t))
  {
    hide *;
    match t
    case Take(_) => TakeKeeps(s, t);
    case Send(_) => SendKeeps(s, t);
    case Publish(_, _) => PublishKeeps(s, t);
    case CloseFeedback(_) => CloseFeedbackKeeps(s, t);
    case CloseFinished(_) => CloseFinishedKeeps(s, t);
    case ChatsClosed(_) => ChatsClosedKeeps(s, t);
    case Submit(_) => SubmitKeeps(s, t);
    case Leave(_) => LeaveKeeps(s, t);
    case SeeClose(_) => SeeCloseKeeps(s, t);
    case CheckHalted(_, _) => CheckHaltedKeeps(s, t);
    case RecycleFails(_) => RecycleFailsKeeps(s, t);
    case Install(_) => InstallKeeps(s, t);
    case Enqueue(_) => EnqueueKeeps(s, t);
    case EnqueueFails(_) => EnqueueFailsKeeps(s, t);
    case AbortDone(_) => AbortDoneKeeps(s, t);
  }

  lemma {:induction false} ReachableInv(s0: State, steps: seq<Step>, s: State)
    requires Init(s0) && Reaches(s0, steps, s, true)
    ensures Inv(s)
  {
    if steps != [] {
      var n := |steps| - 1;
      var s1 :| Reaches(s0, steps[..n], s1, true) && Enabled(s1, steps[n], true) && s == Next(s1, steps[n]);
      ReachableInv(s0, steps[..n], s1);
      StepKeeps(s1, steps[n]);
    }
  }

  /** As long as no client recycles too early, in every interleaving of any number of workers and
      jobs, whether clients read their results to the end or leave them and act at any time: a
      job's chats are worked on by one party at a time, no job is run by two workers or queued
      while it runs, and nothing is sent on or done twice to a closed feedback channel. */
  lemma OnePartyAtATime(s0: State, steps: seq<Step>, s: State, j: JobId)
    requires Init(s0) && Reaches(s0, steps, s, true)
    ensures !s.panicked
    ensures forall v, w :: WorkerTouches(s, v, j) && WorkerTouches(s, w, j) ==> v == w
    ensures forall w :: !(WorkerTouches(s, w, j) && ClientTouches(s, j))
    ensures forall v, w :: WorkerHolds(s, v, j) && WorkerHolds(s, w, j) ==> v == w
    ensures j in s.queue ==> forall w :: !WorkerHolds(s, w, j)
    ensures forall i, k | 0 <= i < k < |s.queue| :: s.queue[i] != s.queue[k]
  {
    ReachableInv(s0, steps, s);
  }

  /** A client that saw its feedback channel closed reads the outcome of the run: no error if
      it finished, and otherwise the error the worker set. */
  lemma TrueOutcome(s0: State, steps: seq<Step>, s: State, j: JobId)
    requires Init(s0) && Reaches(s0, steps, s, true) && j in s.jobs
    ensures s.jobs[j].client == SawClose ==> s.jobs[j].feedbackClosed && s.jobs[j].lastErr == s.jobs[j].outcome
    ensures s.jobs[j].client == SawClose && s.jobs[j].lastErr == Halted ==>
      AtRest(s, j) && forall w :: !WorkerHolds(s, w, j)
  {
    ReachableInv(s0, steps, s);
  }

  lemma OverStays(s: State, t: Step, j: JobId)
    requires Inv(s) && Enabled(s, t, true) && j in s.jobs && s.jobs[j].over
    ensures var s' := Next(s, t); j in s'.jobs && s'.jobs[j].over
  {
  }

  lemma {:induction false} OverForGood(s: State, steps: seq<Step>, s': State, j: JobId)
    requires Inv(s) && Reaches(s, steps, s', true) && j in s.jobs && s.jobs[j].over
    ensures Inv(s') && j in s'.jobs && s'.jobs[j].over
  {
    hide Inv;
    if steps != [] {
      var n := |steps| - 1;
      var s1 :| Reaches(s, steps[..n], s1, true) && Enabled(s1, steps[n], true) && s' == Next(s1, steps[n]);
      OverForGood(s, steps[..n], s1, j);
      StepKeeps(s1, steps[n]);
      OverStays(s1, steps[n], j);
    }
  }

  /** Once a job finished or was aborted, by the worker or by its client, the client's check
      refuses for good: it never again works on the chats, nor enqueues the job. */
  lemma RefusedForGood(s0: State, before: seq<Step>, s: State, after: seq<Step>, s': State, j: JobId)
    requires Init(s0) && Reaches(s0, before, s, true) && Reaches(s, after, s', true)
    requires j in s.jobs && s.jobs[j].over
    ensures j in s'.jobs && s'.jobs[j].client in {Watching, Left, SawClose, Refused}
    ensures forall recycle :: Enabled(s', CheckHalted(j, recycle), true) ==>
      Ctl(Next(s', CheckHalted(j, recycle)), j).client == Refused
  {
    hide Reaches;
    ReachableInv(s0, before, s);
    OverForGood(s, after, s', j);
  }

  // Exactly when a client is early

  /** A job that is halted with its feedback open has a worker that is about to close it. */
  ghost predicate Pending(s: State) {
    forall j | j in s.jobs && s.jobs[j].lastErr == Halted && !s.jobs[j].feedbackClosed ::
      exists w :: w in s.workers && s.workers[w] == Published(j, Halted)
  }

  lemma StepKeepsPending(s: State, t: Step)
    requires Inv(s) && Pending(s) && Enabled(s, t, true)
    ensures Pending(Next(s, t))
  {
    var s' := Next(s, t);
    forall j | j in s'.jobs && s'.jobs[j].lastErr == Halted && !s'.jobs[j].feedbackClosed
      ensures exists w :: w in s'.workers && s'.workers[w] == Published(j, Halted)
    {
      if t.Publish? && Worker(s, t.w).job == j {
        assert s'.workers[t.w] == Published(j, Halted);
      } else {
        var w :| w in s.workers && s.workers[w] == Published(j, Halted);
        assert s'.workers[w] == Published(j, Halted);
      }
    }
  }

  lemma {:induction false} ReachablePending(s0: State, steps: seq<Step>, s: State)
    requires Init(s0) && Reaches(s0, steps, s, true)
    ensures Inv(s) && Pending(s)
  {
    hide Inv, Pending, Next;
    if steps == [] {
      NothingPending(s0);
    } else {
      var n := |steps| - 1;
      var s1 :| Reaches(s0, steps[..n], s1, true) && Enabled(s1, steps[n], true) && s == Next(s1, steps[n]);
      ReachablePending(s0, steps[..n], s1);
      StepKeeps(s1, steps[n]);
      StepKeepsPending(s1, steps[n]);
    }
  }

  lemma NothingPending(s: State)
    requires Init(s)
    ensures Inv(s) && Pending(s)
  {
  }

  lemma NoSteps(s0: State, timely: bool)
    ensures Reaches(s0, [], s0, timely)
  {
  }

  lemma OneMore(s0: State, steps: seq<Step>, s: State, t: Step, timely: bool) returns (steps': seq<Step>, s': State)
    requires Reaches(s0, steps, s, timely) && Enabled(s, t, timely)
    ensures steps' == steps + [t] && s' == Next(s, t) && Reaches(s0, steps', s', timely)
  {
    hide Next;
    steps', s' := steps + [t], Next(s, t);
    assert steps'[..|steps|] == steps;
  }

  /** An idle worker runs the job at the head of the queue to its end. */
  lemma RunHead(s0: State, steps: seq<Step>, s: State, w: WorkerId) returns (steps': seq<Step>, s': State)
    requires Reaches(s0, steps, s, true)
    requires w in s.workers && s.workers[w].Idle? && s.queue != []
    ensures Reaches(s0, steps', s', true)
    ensures s'.queue == s.queue[1..] && w in s'.workers && s'.workers[w].Idle?
    ensures forall k | k != s.queue[0] :: Ctl(s', k) == Ctl(s, k)
  {
    hide Reaches;
    steps', s' := OneMore(s0, steps, s, Take(w), true);
    steps', s' := OneMore(s0, steps', s', CloseFinished(w), true);
    steps', s' := OneMore(s0, steps', s', ChatsClosed(w), true);
  }

  /** A job that is queued with its feedback closed makes the worker that gets to it panic. */
  lemma ClosedInQueuePanics(s0: State, steps: seq<Step>, s: State, w: WorkerId, j: JobId)
    returns (steps': seq<Step>, s': State)
    requires Reaches(s0, steps, s, true)
    requires w in s.workers && s.workers[w].Idle? && j in s.queue && Ctl(s, j).feedbackClosed
    ensures Reaches(s0, steps', s', true) && s'.panicked
    decreases |s.queue|
  {
    hide Reaches;
    if s.queue[0] == j {
      steps', s' := OneMore(s0, steps, s, Take(w), true);
      steps', s' := OneMore(s0, steps', s', Send(w), true);
    } else {
      steps', s' := RunHead(s0, steps, s, w);
      steps', s' := ClosedInQueuePanics(s0, steps', s', w, j);
    }
  }

  /** The client recycles, and the worker closes the channel that it has just made. */
  lemma ClosesTheNewChannel(s: State, j: JobId) returns (steps: seq<Step>, s': State, w: WorkerId)
    requires Inv(s) && Pending(s) && Enabled(s, CheckHalted(j, true), false) && !Timely(s, j, true)
    ensures Reaches(Next(s, CheckHalted(j, true)), steps, s', true)
    ensures w in s'.workers && s'.workers[w].Idle? && j !in s'.queue && |s'.queue| <= QUEUE_CAP
    ensures Ctl(s', j).client == Installed && Ctl(s', j).feedbackClosed
  {
    hide Reaches, WorkerFits, ClientFits, FreshRun;
    w :| w in s.workers && s.workers[w] == Published(j, Halted);
    var s0 := Next(s, CheckHalted(j, true));
    NoSteps(s0, true);
    steps, s' := OneMore(s0, [], s0, Install(j), true);
    steps, s' := OneMore(s0, steps, s', CloseFeedback(w), true);
  }

  /** The job is then enqueued, if need be after the queue's head was run. */
  lemma EarlyRecyclePanics(s: State, j: JobId) returns (steps: seq<Step>, s': State)
    requires Inv(s) && Pending(s) && Enabled(s, CheckHalted(j, true), false) && !Timely(s, j, true)
    ensures Reaches(Next(s, CheckHalted(j, true)), steps, s', true) && s'.panicked
  {
    hide Reaches, Inv, Pending;
    var s0 := Next(s, CheckHalted(j, true));
    var w;
    steps, s', w := ClosesTheNewChannel(s, j);
    steps, s' := MakeRoom(s0, steps, s', w, j);
    steps, s' := OneMore(s0, steps, s', Enqueue(j), true);
    steps, s' := ClosedInQueuePanics(s0, steps, s', w, j);
  }

  lemma MakeRoom(s0: State, steps: seq<Step>, s: State, w: WorkerId, j: JobId) returns (steps': seq<Step>, s': State)
    requires Reaches(s0, steps, s, true)
    requires w in s.workers && s.workers[w].Idle? && j !in s.queue && |s.queue| <= QUEUE_CAP
    ensures Reaches(s0, steps', s', true)
    ensures w in s'.workers && s'.workers[w].Idle? && |s'.queue| < QUEUE_CAP && Ctl(s', j) == Ctl(s, j)
  {
    hide Reaches;
    steps', s' := steps, s;
    if |s.queue| == QUEUE_CAP {
      steps', s' := RunHead(s0, steps, s, w);
    }
  }

  /** The exact condition, for a client that may act, in any state reached so far: turning to its
      job can lead to a panic iff it recycles a job that is halted and not closed. Recycling any
      later, and aborting at any time, is safe whatever happens next. */
  lemma ActingIsSafeIff(s0: State, before: seq<Step>, s: State, j: JobId, recycle: bool)
    requires Init(s0) && Reaches(s0, before, s, true) && Enabled(s, CheckHalted(j, recycle), false)
    ensures (forall steps, s' :: Reaches(Next(s, CheckHalted(j, recycle)), steps, s', true) ==> !s'.panicked)
      <==> Timely(s, j, recycle)
  {
    ReachablePending(s0, before, s);
    var s1 := Next(s, CheckHalted(j, recycle));
    if Timely(s, j, recycle) {
      StepKeeps(s, CheckHalted(j, recycle));
      forall steps, s' | Reaches(s1, steps, s', true) ensures !s'.panicked {
        InvForGood(s1, steps, s');
      }
    } else {
      var steps, s' := EarlyRecyclePanics(s, j);
    }
  }

  lemma {:induction false} InvForGood(s: State, steps: seq<Step>, s': State)
    requires Inv(s) && Reaches(s, steps, s', true)
    ensures Inv(s')
  {
    hide Inv, Next;
    if steps != [] {
      var n := |steps| - 1;
      var s1 :| Reaches(s, steps[..n], s1, true) && Enabled(s1, steps[n], true) && s' == Next(s1, steps[n]);
      InvForGood(s, steps[..n], s1);
      StepKeeps(s1, steps[n]);
    }
  }

  /** The contract of JobWatcher is enough: a client that saw the close is never early. */
  lemma ContractIsTimely(s0: State, before: seq<Step>, s: State, j: JobId, recycle: bool)
    requires Init(s0) && Reaches(s0, before, s, true) && Ctl(s, j).client == SawClose
    ensures Timely(s, j, recycle)
  {
    ReachableInv(s0, before, s);
  }

  const TWO_WORKERS := State(map[], [], map[1 := Idle, 2 := Idle], false)

  /** A client that left its results early, and keeps no contract, causes it: it has read the
      results of a phase and one of the next, leaves, finds the job halted before the worker has
      closed the feedback, and recycles it. The next run panics. */
  lemma LeftTooEarly() returns (before: seq<Step>, s: State, steps: seq<Step>, s': State)
    ensures before == [Submit(7), Take(1), Send(1), Send(1), Send(1), Leave(7), Publish(1, Halted)]
    ensures Reaches(TWO_WORKERS, before, s, true)
    ensures Enabled(s, CheckHalted(7, true), false) && !Timely(s, 7, true)
    ensures Reaches(Next(s, CheckHalted(7, true)), steps, s', true) && s'.panicked
  {
    hide Reaches, Inv, Pending;
    before, s := [], TWO_WORKERS;
    NoSteps(s, true);
    before, s := OneMore(TWO_WORKERS, before, s, Submit(7), true);
    before, s := OneMore(TWO_WORKERS, before, s, Take(1), true);
    before, s := OneMore(TWO_WORKERS, before, s, Send(1), true);
    before, s := OneMore(TWO_WORKERS, before, s, Send(1), true);
    before, s := OneMore(TWO_WORKERS, before, s, Send(1), true);
    before, s := OneMore(TWO_WORKERS, before, s, Leave(7), true);
    before, s := OneMore(TWO_WORKERS, before, s, Publish(1, Halted), true);
    ReachablePending(TWO_WORKERS, before, s);
    steps, s' := EarlyRecyclePanics(s, 7);
  }
}
