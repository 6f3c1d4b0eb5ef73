/** The histories of JobHistory are what the interleaved machine of Handover does to its jobs: the
    machine with the jobs themselves added to it. A run takes effect on the job when its outcome
    becomes visible, a client's operation when it is done; OnePartyAtATime is why nobody sees the
    job in between. */
module Linearization {
  import opened MapOrder
  import opened Protocol
  import opened JobModel
  import opened JobInvariant
  import opened JobLifetime
  import opened JobHistory
  import H = Handover

  /** What a step does apart from control: what is submitted, what the peers did in the run, what
      the client asks for. */
  datatype Data =
    | Nothing
    | Submitted(instr: Instr, flags: Flags)
    | Ran(run: Run)
    | Asks(instr: Instr, newFlags: Option<Flags>, order: seq<ChannelID>)

  datatype System = System(ctl: H.State, jobs: map<H.JobId, Job>)

  function StatusOf(e: Option<PeerError>): H.Status {
    match e
    case None => H.NoError
    case Some(e) => if e.status == Halted then H.Halted else H.Aborted
  }

  ghost predicate RunFits(s: System, w: H.WorkerId, d: Data, status: H.Status) {
    var pc := H.Worker(s.ctl, w);
    && pc.Running? && pc.job in s.jobs && d.Ran? && RunOf(s.jobs[pc.job], d.run)
    && StatusOf(Process(s.jobs[pc.job], d.run).lastErr) == status
  }

  ghost predicate RecycleFits(s: System, j: H.JobId, d: Data, ok: bool) {
    && j in s.jobs && d.Asks? && IsOrder(d.order, d.instr.participants.Keys)
    && Recyclable(s.jobs[j], d.instr) == ok
  }

  ghost predicate Possible(s: System, t: H.Step, d: Data) {
    && H.Enabled(s.ctl, t, true)
    && match t
       case Submit(_) => d.Submitted?
       case Publish(w, status) => RunFits(s, w, d, status)
       case CloseFinished(w) => RunFits(s, w, d, H.NoError)
       case RecycleFails(j) => RecycleFits(s, j, d, false)
       case Install(j) => RecycleFits(s, j, d, true)
       case Enqueue(j) => d.Nothing? && j in s.jobs
       case AbortDone(j) => d.Nothing? && j in s.jobs
       case _ => d.Nothing?
  }

  /** The job a step changes, and what it makes of it. */
  ghost function Changed(s: System, t: H.Step, d: Data): Option<(H.JobId, Job)>
    requires Possible(s, t, d)
  {
    match t
    case Submit(j) => Some((j, NewJob(d.instr, d.flags)))
    case Publish(w, _) => var j := H.Worker(s.ctl, w).job; Some((j, Process(s.jobs[j], d.run)))
    case CloseFinished(w) => var j := H.Worker(s.ctl, w).job; Some((j, Process(s.jobs[j], d.run)))
    case RecycleFails(j) => Some((j, Recycle(s.jobs[j], d.instr, d.newFlags, d.order).0))
    case Install(j) => Some((j, Recycle(s.jobs[j], d.instr, d.newFlags, d.order).0))
    case Enqueue(j) => Some((j, s.jobs[j].(queued := true)))
    case AbortDone(j) => Some((j, Abort(s.jobs[j])))
    case _ => None
  }

  ghost function Next(s: System, t: H.Step, d: Data): System
    requires Possible(s, t, d)
  {
    var c := Changed(s, t, d);
    System(H.Next(s.ctl, t), if c.Some? then s.jobs[c.value.0 := c.value.1] else s.jobs)
  }

  ghost predicate Reaches(s0: System, trace: seq<(H.Step, Data)>, s: System) {
    if trace == [] then s == s0
    else
      var n := |trace| - 1;
      exists s1 :: Reaches(s0, trace[..n], s1) && Possible(s1, trace[n].0, trace[n].1)
        && s == Next(s1, trace[n].0, trace[n].1)
  }

  ghost predicate Lived(j: Job) {
    exists instr, flags, acts :: History(NewJob(instr, flags), acts, j, false)
  }

  /** The job has just been recycled. */
  ghost predicate Recycled(j: Job) {
    exists instr, flags, acts, before, a ::
      && History(NewJob(instr, flags), acts, before, false)
      && JobHistory.Enabled(before, a) && a.Resched? && Recyclable(before, a.instr)
      && j == Recycle(before, a.instr, a.flags, a.order).0
  }

  predicate RunsIt(workers: map<H.WorkerId, H.WorkerPc>, j: H.JobId) {
    exists w :: w in workers && workers[w] == H.Running(j)
  }

  /** In the queue, or in its run. */
  predicate InProgress(s: H.State, j: H.JobId) {
    j in s.queue || RunsIt(s.workers, j)
  }

  /** Control and job agree. */
  ghost predicate Linked(s: System, j: H.JobId)
    requires j in s.ctl.jobs
  {
    var c := s.ctl.jobs[j];
    && j in s.jobs
    && Lived(s.jobs[j])
    && (c.client == H.Installed ==> Recycled(s.jobs[j]))
    && StatusOf(s.jobs[j].lastErr) == c.lastErr
    && (c.over <==> Over(s.jobs[j]))
    && (s.jobs[j].queued <==> InProgress(s.ctl, j))
  }

  ghost predicate Good(s: System) {
    H.Inv(s.ctl) && forall j <- s.ctl.jobs :: Linked(s, j)
  }

  // The jobs

  lemma LivedOneMore(j: Job, a: Action)
    requires Lived(j) && JobHistory.Enabled(j, a)
    ensures Lived(After(j, a))
  {
    hide History, JobHistory.Enabled, After;
    var instr, flags, acts :| History(NewJob(instr, flags), acts, j, false);
    var acts', j' := OneAction(NewJob(instr, flags), acts, j, a);
  }

  lemma LivedInv(j: Job)
    requires Lived(j)
    ensures Inv(j)
  {
    hide History, Inv;
    var instr, flags, acts :| History(NewJob(instr, flags), acts, j, false);
    ChatsConserved(instr, flags, acts, j);
  }

  lemma Submits(instr: Instr, flags: Flags)
    ensures var j := NewJob(instr, flags); Lived(j) && j.queued && j.lastErr.None? && !Over(j)
  {
    assert History(NewJob(instr, flags), [], NewJob(instr, flags), false);
  }

  lemma Runs(j: Job, run: Run)
    requires Lived(j) && j.queued && RunOf(j, run)
    ensures var j' := Process(j, run);
      Lived(j') && !j'.queued && (Over(j') <==> StatusOf(j'.lastErr) != H.Halted)
  {
    hide RunOf, Process, History, Conserved, InOrder, Ledger;
    LivedInv(j);
    LivedOneMore(j, Work(run));
    ProcessKeeps(j, run);
  }

  lemma Recycles(j: Job, instr: Instr, flags: Option<Flags>, order: seq<ChannelID>)
    requires Lived(j) && !j.queued && IsHalted(j) && IsOrder(order, instr.participants.Keys)
    ensures var j' := Recycle(j, instr, flags, order).0;
      && Lived(j') && !j'.queued && !Over(j')
      && (if Recyclable(j, instr) then Recycled(j') && j'.lastErr.None? else j'.lastErr == j.lastErr)
  {
    hide History, Restamp, CloseUnused, IsOrder;
    var a := Resched(instr, flags, order, false);
    LivedOneMore(j, a);
    RecycleSucceedsIff(j, instr, flags, order);
    RecycleFields(j, instr, flags, order);
    assert After(j, a) == Recycle(j, instr, flags, order).0;
    if Recyclable(j, instr) {
      var first, firstFlags, acts :| History(NewJob(first, firstFlags), acts, j, false);
    }
  }

  lemma RecycleFields(j: Job, instr: Instr, flags: Option<Flags>, order: seq<ChannelID>)
    requires IsOrder(order, instr.participants.Keys) && IsHalted(j)
    ensures var (j', err) := Recycle(j, instr, flags, order);
      && j'.queued == j.queued
      && (if err.None?
          then j'.lastErr.None? && !j'.feedback.closed
          else j'.lastErr == j.lastErr && j'.feedback == j.feedback)
  {
  }

  lemma Enqueues(j: Job)
    requires Recycled(j)
    ensures Lived(j.(queued := true))
  {
    hide History, Recycle, IsOrder;
    var instr, flags, acts, before, a :|
      && History(NewJob(instr, flags), acts, before, false)
      && JobHistory.Enabled(before, a) && a.Resched? && Recyclable(before, a.instr)
      && j == Recycle(before, a.instr, a.flags, a.order).0;
    RecycleSucceedsIff(before, a.instr, a.flags, a.order);
    assert Lived(before);
    LivedOneMore(before, a.(enqueued := true));
  }

  lemma Aborts(j: Job)
    requires Lived(j) && !j.queued && IsHalted(j)
    ensures var j' := Abort(j); Lived(j') && !j'.queued && j'.lastErr.None? && Over(j')
  {
    hide History, Lines, Only, Conserved;
    LivedInv(j);
    LivedOneMore(j, Quit);
  }

  // Control

  lemma WorkerTurns(workers: map<H.WorkerId, H.WorkerPc>, w: H.WorkerId, pc: H.WorkerPc, k: H.JobId)
    requires w in workers
    ensures pc == H.Running(k) ==> RunsIt(workers[w := pc], k)
    ensures workers[w] != H.Running(k) && pc != H.Running(k) ==> (RunsIt(workers[w := pc], k) <==> RunsIt(workers, k))
    ensures pc != H.Running(k) && (forall v | v in workers && v != w :: workers[v] != H.Running(k)) ==>
      !RunsIt(workers[w := pc], k)
  {
    var after := workers[w := pc];
    assert after[w] == pc;
    if v :| v in workers && workers[v] == H.Running(k) {
      assert v != w ==> after[v] == H.Running(k);
    }
    if v :| v in after && after[v] == H.Running(k) {
      assert v != w ==> workers[v] == H.Running(k);
    }
  }

  lemma InProgressAfter(s: H.State, t: H.Step, k: H.JobId)
    requires H.Inv(s) && H.Enabled(s, t, true)
    ensures var after := InProgress(H.Next(s, t), k);
      match t
      case Publish(w, _) => after <==> InProgress(s, k) && k != H.Worker(s, w).job
      case CloseFinished(w) => after <==> InProgress(s, k) && k != H.Worker(s, w).job
      case Submit(j) => after <==> InProgress(s, k) || k == j
      case Enqueue(j) => after <==> InProgress(s, k) || k == j
      case _ => after <==> InProgress(s, k)
  {
    hide RunsIt, H.ClientsFit, H.WorkerFits, H.FreshRun;
    var s' := H.Next(s, t);
    match t
    case Take(w) => WorkerTurns(s.workers, w, s'.workers[w], k);
    case Publish(w, _) => WorkerTurns(s.workers, w, s'.workers[w], k);
    case CloseFeedback(w) => WorkerTurns(s.workers, w, s'.workers[w], k);
    case CloseFinished(w) => WorkerTurns(s.workers, w, s'.workers[w], k);
    case ChatsClosed(w) => WorkerTurns(s.workers, w, s'.workers[w], k);
    case _ =>
  }

  lemma RestIsNoProgress(s: H.State, j: H.JobId)
    requires H.NearRest(s, j)
    ensures !InProgress(s, j)
  {
    if w :| w in s.workers && s.workers[w] == H.Running(j) {
      assert H.WorkerHolds(s, w, j);
      assert false;
    }
  }

  /** A client that works on a job has a halted one that nobody runs. */
  lemma ClientActs(s: System, j: H.JobId)
    requires Good(s) && j in s.ctl.jobs && s.ctl.jobs[j].client in {H.Recycling, H.Aborting}
    ensures IsHalted(s.jobs[j]) && !s.jobs[j].queued && Lived(s.jobs[j])
  {
    hide H.WorkersFit, Lived, Recycled, InProgress;
    assert H.ClientFits(s.ctl, j);
    RestIsNoProgress(s.ctl, j);
  }

  /** What a step on control alone leaves alone. */
  lemma ControlOnly(s: H.State, t: H.Step, k: H.JobId)
    requires H.Inv(s) && H.Enabled(s, t, true) && k in s.jobs
    requires match t
             case Submit(j) => j != k
             case Publish(w, _) => H.Worker(s, w).job != k
             case CloseFinished(w) => H.Worker(s, w).job != k
             case Install(j) => j != k
             case AbortDone(j) => j != k
             case _ => true
    ensures var s' := H.Next(s, t);
      && k in s'.jobs && s'.jobs[k].lastErr == s.jobs[k].lastErr && s'.jobs[k].over == s.jobs[k].over
      && (s'.jobs[k].client == H.Installed ==> s.jobs[k].client == H.Installed)
  {
    hide H.ClientsFit, H.Exclusive, H.FreshRun;
  }

  /** The job itself, next to it. */
  lemma SameJob(s: System, t: H.Step, d: Data, k: H.JobId)
    requires Possible(s, t, d) && k in s.jobs
    requires Changed(s, t, d).None? || Changed(s, t, d).value.0 != k
    ensures k in Next(s, t, d).jobs && Next(s, t, d).jobs[k] == s.jobs[k]
    ensures Next(s, t, d).ctl == H.Next(s.ctl, t)
  {
    hide H.Next, H.Enabled, RunOf, Recyclable, Process, Recycle, Abort;
  }

  /** The step is on another job, as far as this job's value goes. */
  lemma Untouched(s: System, t: H.Step, d: Data, k: H.JobId)
    requires Good(s) && Possible(s, t, d) && k in s.ctl.jobs
    requires Changed(s, t, d).None? || Changed(s, t, d).value.0 != k
    ensures k in Next(s, t, d).ctl.jobs && Linked(Next(s, t, d), k)
  {
    hide H.Inv, H.Next, H.Enabled, Lived, Recycled, InProgress, Over, RunOf, Recyclable, Process, Recycle, Abort, Next;
    SameJob(s, t, d, k);
    ControlOnly(s.ctl, t, k);
    InProgressAfter(s.ctl, t, k);
  }

  lemma RunLinks(s: System, t: H.Step, d: Data)
    requires Good(s) && Possible(s, t, d) && (t.Publish? || t.CloseFinished?)
    ensures var j := H.Worker(s.ctl, t.w).job; j in Next(s, t, d).ctl.jobs && Linked(Next(s, t, d), j)
  {
    hide H.ClientsFit, H.Exclusive, Lived, Recycled, Over, RunOf, Process;
    var j := H.Worker(s.ctl, t.w).job;
    assert s.ctl.workers[t.w] == H.Running(j) && H.WorkerFits(s.ctl, s.ctl.workers[t.w]);
    Runs(s.jobs[j], d.run);
    InProgressAfter(s.ctl, t, j);
  }

  lemma RecycleLinks(s: System, t: H.Step, d: Data)
    requires Good(s) && Possible(s, t, d) && (t.RecycleFails? || t.Install?)
    ensures t.j in Next(s, t, d).ctl.jobs && Linked(Next(s, t, d), t.j)
  {
    hide H.Inv, Lived, Recycled, Over, Recyclable, Recycle, InProgress, IsOrder;
    ClientActs(s, t.j);
    Recycles(s.jobs[t.j], d.instr, d.newFlags, d.order);
    InProgressAfter(s.ctl, t, t.j);
    NotOver(s.ctl, t.j);
  }

  lemma NotOver(s: H.State, j: H.JobId)
    requires H.Inv(s) && j in s.jobs && s.jobs[j].client == H.Recycling
    ensures !s.jobs[j].over
  {
    assert H.ClientFits(s, j);
  }

  lemma ClientLinks(s: System, t: H.Step, d: Data)
    requires Good(s) && Possible(s, t, d) && (t.Enqueue? || t.AbortDone? || t.Submit?)
    ensures t.j in Next(s, t, d).ctl.jobs && Linked(Next(s, t, d), t.j)
  {
    hide H.Inv, Lived, Recycled, InProgress, Abort;
    InProgressAfter(s.ctl, t, t.j);
    match t
    case Enqueue(j) => Enqueues(s.jobs[j]);
    case AbortDone(j) => ClientActs(s, j); Aborts(s.jobs[j]);
    case Submit(j) => Submits(d.instr, d.flags);
  }

  lemma OnlySubmitAdds(s: H.State, t: H.Step, k: H.JobId)
    requires H.Inv(s) && H.Enabled(s, t, true) && k in H.Next(s, t).jobs && k !in s.jobs
    ensures t == H.Submit(k)
  {
    hide H.ClientsFit, H.Exclusive, H.FreshRun, H.WorkerFits;
  }

  lemma StepLinks(s: System, t: H.Step, d: Data)
    requires Good(s) && Possible(s, t, d)
    ensures Good(Next(s, t, d))
  {
    hide H.Inv, Linked;
    H.StepKeeps(s.ctl, t);
    var c := Changed(s, t, d);
    forall k <- Next(s, t, d).ctl.jobs ensures Linked(Next(s, t, d), k) {
      if c.Some? && c.value.0 == k {
        match t
        case Publish(_, _) => RunLinks(s, t, d);
        case CloseFinished(_) => RunLinks(s, t, d);
        case RecycleFails(_) => RecycleLinks(s, t, d);
        case Install(_) => RecycleLinks(s, t, d);
        case _ => ClientLinks(s, t, d);
      } else {
        if k !in s.ctl.jobs {
          OnlySubmitAdds(s.ctl, t, k);
        }
        Untouched(s, t, d, k);
      }
    }
  }

  /** Every execution in which no client recycles too early, with any number of workers and jobs,
      is for each job a history: what the interleaved steps have made of it is what a sequence of whole
      runs, reschedules and aborts makes of it, and the shared control state tells the truth
      about it. */
  lemma {:induction false} EveryJobHasAHistory(s0: System, trace: seq<(H.Step, Data)>, s: System, j: H.JobId)
    requires H.Init(s0.ctl) && Reaches(s0, trace, s) && j in s.ctl.jobs
    ensures j in s.jobs && Lived(s.jobs[j]) && Inv(s.jobs[j])
    ensures s.ctl.jobs[j].over <==> Over(s.jobs[j])
    ensures StatusOf(s.jobs[j].lastErr) == s.ctl.jobs[j].lastErr
    ensures s.jobs[j].queued <==> InProgress(s.ctl, j)
  {
    ReachesGood(s0, trace, s);
    LivedInv(s.jobs[j]);
  }

  lemma {:induction false} ReachesGood(s0: System, trace: seq<(H.Step, Data)>, s: System)
    requires H.Init(s0.ctl) && Reaches(s0, trace, s)
    ensures Good(s)
  {
    hide Linked, Possible, Next;
    if trace != [] {
      var n := |trace| - 1;
      var s1 :| Reaches(s0, trace[..n], s1) && Possible(s1, trace[n].0, trace[n].1)
        && s == Next(s1, trace[n].0, trace[n].1);
      ReachesGood(s0, trace[..n], s1);
      StepLinks(s1, trace[n].0, trace[n].1);
    }
  }
}
