/** Whole lifetimes of a job: any sequence of runs, reschedules and aborts. */
module JobLifetime {
  import opened MapOrder
  import opened Protocol
  import opened JobModel
  import opened JobInvariant
  import opened JobRuns

  /** A worker is in the middle of a run. */
  ghost predicate Running(j: Job) {
    Inv(j) && !j.queued && !j.feedback.closed
  }

  /** Every live chat has answered every phase below "progress" without an error class. */
  ghost predicate Barrier(j: Job) {
    forall p, k: nat | p in j.chats && k < j.progress :: (j.chats[p].line, k) in j.clean
  }

  // One phase

  lemma AnsweredWasAsked(chats: map<PeerID, PeerChat>, phase: nat, x: Exchange)
    requires ExchangeOf(chats, x)
    ensures Answered(chats, phase, x.answers) <= Asked(chats, phase, x.sends)
  {
    forall e <- Answered(chats, phase, x.answers) ensures e in Asked(chats, phase, x.sends) {
      var a :| a in x.answers && !Failed(a.reply) && a.peer in chats && e == (chats[a.peer].line, phase);
      assert a.peer in (set s | s in x.sends :: s.peer);
      var s :| s in x.sends && s.peer == a.peer;
      assert s.ok;
    }
  }

  lemma AskedFits(j: Job, x: Exchange)
    requires Conserved(j)
    ensures forall e <- Asked(j.chats, j.progress, x.sends) :: e.0 in j.everOpened && e.1 == j.progress
  {
  }

  lemma QueryKeeps(j: Job, x: Exchange)
    requires Conserved(j) && Ledger(j) && ExchangeOf(j.chats, x)
    ensures Conserved(Query(j, x)) && Ledger(Query(j, x))
  {
    hide Asked, Answered, ExchangeOf, Handled, CommPeers, FailedPeers, Lines, Only, Distinct;
    AskedFits(j, x);
    AnsweredWasAsked(j.chats, j.progress, x);
    var j1 := j.(asked := j.asked + Asked(j.chats, j.progress, x.sends),
                 clean := j.clean + Answered(j.chats, j.progress, x.answers));
    assert Conserved(j1);
    RevokeConserves(j1, if Handled(j.handleErrFlags, x.answers) then CommPeers(x.answers) else FailedPeers(x.answers));
  }

  lemma DeliverInOrder(f: Feedback, progress: nat, rs: seq<CmdResult>)
    requires InOrder(f, progress) && !f.closed
    ensures var f' := f.(items := f.items + Tagged(progress, rs));
      InOrder(f'.(closed := true), progress) && InOrder(f', progress + 1)
  {
  }

  lemma PhaseKeeps(j: Job, x: Exchange)
    requires Running(j) && j.progress < |j.instr.tasks| && ExchangeOf(j.chats, x)
    ensures Inv(Phase(j, x)) && !Phase(j, x).queued
    ensures Phase(j, x).instr == j.instr && Phase(j, x).everOpened == j.everOpened
    ensures Phase(j, x).feedback.closed <==> QueryError(j, x).Some?
    ensures Phase(j, x).progress == if QueryError(j, x).Some? then j.progress else j.progress + 1
  {
    hide Asked, Answered, Handled, ExchangeOf, Replies, Unsent, Failing, FailedPeers, TalkOn, Distinct, Lines, Only;
    QueryKeeps(j, x);
    DeliverInOrder(j.feedback, j.progress, Replies(x.answers));
    var j1 := Deliver(Query(j, x).(log := Spoken(j, Task(j), x)), Replies(x.answers));
    assert Conserved(j1) && Ledger(j1);
    if QueryError(j, x).Some? {
      HaltOrAbortKeeps(j1, QueryError(j, x).value);
    }
  }

  /** Without an error every live chat has answered the phase without an error class. */
  lemma AllAnswered(j: Job, x: Exchange, p: PeerID)
    requires ExchangeOf(j.chats, x) && QueryError(j, x).None? && p in j.chats
    ensures (j.chats[p].line, j.progress) in Answered(j.chats, j.progress, x.answers)
  {
    assert p in Visited(x.answers);
    var a :| a in x.answers && a.peer == p;
    assert Failed(a.reply) ==> p in FailedPeers(x.answers);
  }

  /** What one phase does to each field, apart from who is kicked. */
  lemma PhaseFrame(j: Job, x: Exchange)
    requires !j.feedback.closed
    ensures var j' := Phase(j, x);
      && j'.clean == j.clean + Answered(j.chats, j.progress, x.answers)
      && (forall p | p in j'.chats :: p in j.chats && j'.chats[p] == j.chats[p])
      && j'.progress == (if QueryError(j, x).Some? then j.progress else j.progress + 1)
      && j'.feedback == Feedback(j.feedback.start, j.feedback.items + Tagged(j.progress, Replies(x.answers)),
        QueryError(j, x).Some?)
      && j'.lastErr == (if QueryError(j, x).Some? then QueryError(j, x) else j.lastErr)
      && j'.instr == j.instr && j'.handleErrFlags == j.handleErrFlags && j'.queued == j.queued
  {
  }

  lemma PhaseBarrier(j: Job, x: Exchange)
    requires !j.feedback.closed && ExchangeOf(j.chats, x) && Barrier(j)
    ensures Barrier(Phase(j, x))
  {
    PhaseFrame(j, x);
    var j' := Phase(j, x);
    forall p, k: nat | p in j'.chats && k < j'.progress ensures (j'.chats[p].line, k) in j'.clean {
      if k == j.progress {
        AllAnswered(j, x, p);
      }
    }
  }

  /** While the run goes on, every chat delivered one response and all chats are there. */
  lemma PhaseOnward(j: Job, x: Exchange)
    requires ExchangeOf(j.chats, x)
    requires QueryError(j, x).None?
    ensures Phase(j, x).chats == j.chats
    ensures |Replies(x.answers)| == |j.chats|
  {
    QueryPartition(j, x);
    QueryKeepsChats(j, x);
  }

  // The loop over the remaining tasks

  lemma {:induction false} PhasesShape(j: Job, xs: seq<Exchange>)
    requires !j.feedback.closed && PhasesOf(j, xs)
    ensures var j' := Phases(j, xs);
      && j'.instr == j.instr && j'.handleErrFlags == j.handleErrFlags && j'.queued == j.queued
      && j'.feedback.start == j.feedback.start
      && j'.progress + (if j'.feedback.closed then 1 else 0) == j.progress + |xs|
      && (if j'.feedback.closed
          then j'.lastErr.Some? && j'.progress < |j'.instr.tasks|
          else j'.lastErr == j.lastErr && j'.chats == j.chats)
  {
    if xs != [] {
      var n := |xs| - 1;
      PhasesShape(j, xs[..n]);
      var j1 := Phases(j, xs[..n]);
      PhaseFrame(j1, xs[n]);
      if QueryError(j1, xs[n]).None? {
        PhaseOnward(j1, xs[n]);
      }
    }
  }

  lemma {:induction false} PhasesKeep(j: Job, xs: seq<Exchange>)
    requires Running(j) && PhasesOf(j, xs)
    ensures Inv(Phases(j, xs)) && !Phases(j, xs).queued
    ensures Barrier(j) ==> Barrier(Phases(j, xs))
  {
    if xs != [] {
      var n := |xs| - 1;
      PhasesKeep(j, xs[..n]);
      var j1 := Phases(j, xs[..n]);
      PhaseKeeps(j1, xs[n]);
      if Barrier(j) {
        PhaseBarrier(j1, xs[n]);
      }
    }
  }

  /** processJob terminates: a run queries no more often than tasks remain. */
  lemma RunLength(j: Job, xs: seq<Exchange>)
    requires !j.feedback.closed && PhasesOf(j, xs) && j.progress <= |j.instr.tasks|
    ensures |xs| <= |j.instr.tasks| - j.progress
  {
    if xs != [] {
      PhasesShape(j, xs[..|xs| - 1]);
    }
  }

  // A whole run

  lemma OpenedKeeps(j: Job, attempts: seq<Attempt>)
    requires Inv(j) && !j.feedback.closed && !j.queued && AttemptsOf(j, attempts)
    ensures var (j1, missing) := OpenPeers(j, attempts);
      && Running(j1)
      && j1.instr == j.instr && j1.progress == j.progress && j1.feedback == j.feedback && j1.clean == j.clean
      && (missing == [] ==> Connected(j1))
  {
    OpenPeersFacts(j, attempts);
    OpenPeersConserves(j, attempts);
    OpensAll(j, attempts);
  }

  /** A run leaves the job consistent and its feedback closed: halted for the client, or over. */
  lemma ProcessKeeps(j: Job, r: Run)
    requires Inv(j) && j.queued && RunOf(j, r)
    ensures var j' := Process(j, r);
      && Inv(j') && !j'.queued && j'.feedback.closed
      && j'.instr == j.instr
      && j.progress <= j'.progress
  {
    var j0 := j.(queued := false);
    assert Conserved(j0);
    match r
    case Expired =>
      HaltOrAbortKeeps(j0, PeerError(Aborted, -1, []));
    case Started(attempts, exchanges) =>
      OpenedKeeps(j0, attempts);
      var (j1, missing) := OpenPeers(j0, attempts);
      if missing != [] {
        HaltOrAbortKeeps(j1, OpenError(j1, missing));
      } else {
        PhasesKeep(j1, exchanges);
        PhasesShape(j1, exchanges);
        var j2 := Phases(j1, exchanges);
        if !j2.feedback.closed {
          FinishKeeps(j2);
        }
      }
  }

  /** The barrier survives a run that starts at phase 0 or with all participants connected. */
  lemma ProcessBarrier(j: Job, r: Run)
    requires Inv(j) && j.queued && RunOf(j, r) && Barrier(j)
    requires j.progress == 0 || Connected(j)
    ensures Barrier(Process(j, r))
  {
    var j0 := j.(queued := false);
    if r.Started? {
      OpenedKeeps(j0, r.attempts);
      var (j1, missing) := OpenPeers(j0, r.attempts);
      if Connected(j) {
        OpensNothing(j0, r.attempts);
      }
      assert Barrier(j1);
      if missing == [] {
        PhasesKeep(j1, r.exchanges);
      }
    }
  }

  // Recycling

  /** Setting channel IDs changes nothing else, and succeeds iff every peer has a chat. */
  lemma {:induction false} RestampKeeps(chats: map<PeerID, PeerChat>, parts: map<ChannelID, PeerID>,
                                        order: seq<ChannelID>)
    requires forall i | 0 <= i < |order| :: order[i] in parts
    ensures var (chats', ok) := Restamp(chats, parts, order);
      && chats'.Keys == chats.Keys
      && (forall p | p in chats :: chats'[p].peer == chats[p].peer && chats'[p].line == chats[p].line)
      && (ok <==> forall i | 0 <= i < |order| :: parts[order[i]] in chats)
  {
    if order != [] && parts[order[0]] in chats {
      var p := parts[order[0]];
      RestampKeeps(chats[p := chats[p].(cid := order[0])], parts, order[1..]);
      assert forall i | 0 < i < |order| :: order[i] == order[1..][i - 1];
    }
  }

  /** The peer's chat carries a channel ID under which the instruction lists the peer. */
  predicate Stamped(chats: map<PeerID, PeerChat>, parts: map<ChannelID, PeerID>, p: PeerID)
    requires p in chats
  {
    chats[p].cid in parts && parts[chats[p].cid] == p
  }

  lemma {:induction false} RestampPeer(chats: map<PeerID, PeerChat>, parts: map<ChannelID, PeerID>,
                                       order: seq<ChannelID>, p: PeerID)
    requires forall i | 0 <= i < |order| :: order[i] in parts
    requires p in chats
    ensures var (chats', ok) := Restamp(chats, parts, order);
      && p in chats'
      && (ok && (Stamped(chats, parts, p) || exists i :: 0 <= i < |order| && parts[order[i]] == p) ==>
        Stamped(chats', parts, p))
      && ((forall i | 0 <= i < |order| :: parts[order[i]] != p) ==> chats'[p] == chats[p])
  {
    if order != [] && parts[order[0]] in chats {
      var q := parts[order[0]];
      RestampPeer(chats[q := chats[q].(cid := order[0])], parts, order[1..], p);
      assert forall i | 0 < i < |order| :: order[i] == order[1..][i - 1];
    }
  }

  lemma SameLinesConserve(j: Job, chats: map<PeerID, PeerChat>)
    requires Conserved(j) && chats.Keys == j.chats.Keys
    requires forall p | p in chats :: chats[p].peer == j.chats[p].peer && chats[p].line == j.chats[p].line
    ensures Conserved(j.(chats := chats))
  {
    assert Lines(chats) == Lines(j.chats);
  }

  lemma RecycleKeeps(j: Job, instr: Instr, flags: Option<Flags>, order: seq<ChannelID>)
    requires Inv(j) && IsOrder(order, instr.participants.Keys)
    ensures Inv(Recycle(j, instr, flags, order).0)
    ensures Recycle(j, instr, flags, order).0.progress == j.progress
    ensures Barrier(j) ==> Barrier(Recycle(j, instr, flags, order).0)
  {
    if IsHalted(j) && |instr.tasks| >= |j.instr.tasks| {
      assert forall i | 0 <= i < |order| :: order[i] in order;
      RestampKeeps(j.chats, instr.participants, order);
      var (chats, ok) := Restamp(j.chats, instr.participants, order);
      SameLinesConserve(j, chats);
      var j1 := j.(chats := chats);
      RevokeConserves(j1, j1.chats.Keys - j1.instr.participants.Values);
      assert Conserved(CloseUnused(j1));
    }
  }

  lemma AbortKeeps(j: Job)
    requires Inv(j)
    ensures Inv(Abort(j))
    ensures IsHalted(j) ==> Over(Abort(j))
  {
    RevokeConserves(j, j.chats.Keys);
  }

  /** Which check refuses a recycle, whatever the order of the participants; none does iff the
      job is recyclable. */
  lemma RecycleSucceedsIff(j: Job, instr: Instr, flags: Option<Flags>, order: seq<ChannelID>)
    requires IsOrder(order, instr.participants.Keys)
    ensures Recycle(j, instr, flags, order).1.None? <==> Recyclable(j, instr)
    ensures Recycle(j, instr, flags, order).1 == Some(NotHalted) <==> !IsHalted(j)
    ensures Recycle(j, instr, flags, order).1 == Some(NewParticipants) <==>
      IsHalted(j) && |instr.tasks| >= |j.instr.tasks| && !(instr.participants.Values <= j.chats.Keys)
  {
    OrderMembers(order, instr.participants.Keys);
    RestampKeeps(j.chats, instr.participants, order);
    forall p <- instr.participants.Values ensures exists i :: 0 <= i < |order| && instr.participants[order[i]] == p {
      var cid :| cid in instr.participants && instr.participants[cid] == p;
      assert cid in order;
    }
  }

  /** After a successful recycle: every peer of the new instruction that was a participant
      before is connected under one of its new channel IDs, and live chats belong to
      participants of the previous instruction. */
  lemma RecycleBracket(j: Job, instr: Instr, flags: Option<Flags>, order: seq<ChannelID>)
    requires IsOrder(order, instr.participants.Keys) && Recyclable(j, instr)
    ensures Recycle(j, instr, flags, order).1.None?
    ensures var j' := Recycle(j, instr, flags, order).0;
      && j'.chats.Keys == j.chats.Keys * j.instr.participants.Values
      && (forall p | p in j'.chats ::
            if p in instr.participants.Values then Stamped(j'.chats, instr.participants, p)
              else j'.chats[p] == j.chats[p])
  {
    RecycleSucceedsIff(j, instr, flags, order);
    OrderMembers(order, instr.participants.Keys);
    RestampKeeps(j.chats, instr.participants, order);
    var j' := Recycle(j, instr, flags, order).0;
    forall p <- instr.participants.Values ensures exists i :: 0 <= i < |order| && instr.participants[order[i]] == p {
      var cid :| cid in instr.participants && instr.participants[cid] == p;
      assert cid in order;
    }
    forall p | p in j'.chats
      ensures if p in instr.participants.Values then Stamped(j'.chats, instr.participants, p)
        else j'.chats[p] == j.chats[p]
    {
      RestampPeer(j.chats, instr.participants, order, p);
    }
  }

  /** A resumed job finds all its participants connected, so that it opens nothing, iff the
      new instruction names participants of the previous one only. */
  lemma ResumesConnectedIff(j: Job, instr: Instr, flags: Option<Flags>, order: seq<ChannelID>)
    requires IsOrder(order, instr.participants.Keys) && Recyclable(j, instr)
    ensures Connected(Recycle(j, instr, flags, order).0) <==> instr.participants.Values <= j.instr.participants.Values
  {
    RecycleBracket(j, instr, flags, order);
  }
}
