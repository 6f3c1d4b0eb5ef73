/** The job engine as functions on values: what orchestration/worker/job.go and comm.go make
    of a job, given what the peers did. The class in JobEngine is proved against these
    functions; JobRuns proves what the engine promises about them. */
module JobModel {
  import opened MapOrder
  import opened Protocol

  datatype Instr = Instr(tasks: seq<SMCCmd>, participants: map<ChannelID, PeerID>)

  /** smcChat: copies made by UpdateMetadata share the channels, that is, the line. */
  datatype PeerChat = PeerChat(peer: PeerID, line: nat, cid: ChannelID)

  datatype Implication = Unknown | Halted | Finished | Aborted

  datatype PeerError = PeerError(status: Implication, progress: int, peers: seq<PeerID>)

  datatype PeerResult = PeerResult(progress: int, response: CmdResult)

  /** One feedback channel: everything sent on it since it was made at phase "start". */
  datatype Feedback = Feedback(start: nat, items: seq<PeerResult>, closed: bool)

  /** One command sent on a line, at which phase, and the feedback pulled for it, if any. */
  datatype Entry = Entry(phase: nat, cmd: SMCCmd, reply: Option<CmdResult>)

  /** The fields of the source's job and, below them, the ledger the theorems are about:
      lines ever opened, every Close of a line, which phase was instructed on which line,
      which phase was answered on it without an error class, and everything that was sent on
      and pulled from each line, in order. */
  datatype Job = Job(
    instr: Instr,
    handleErrFlags: Flags,
    progress: nat,
    chats: map<PeerID, PeerChat>,
    feedback: Feedback,
    lastErr: Option<PeerError>,
    queued: bool,
    everOpened: set<nat>,
    closes: multiset<nat>,
    asked: set<(nat, nat)>,
    clean: set<(nat, nat)>,
    log: map<nat, seq<Entry>>)

  function NewJob(instr: Instr, flags: Flags): Job {
    Job(instr, flags, 0, map[], Feedback(0, [], false), None, true, {}, multiset{}, {}, {}, map[])
  }

  predicate IsHalted(j: Job) {
    j.lastErr.Some? && j.lastErr.value.status == Halted
  }

  function Lines(chats: map<PeerID, PeerChat>): set<nat> {
    set p | p in chats :: chats[p].line
  }

  function Only(chats: map<PeerID, PeerChat>, ps: set<PeerID>): map<PeerID, PeerChat> {
    map p | p in chats && p in ps :: chats[p]
  }

  /** Closes and forgets the chats of these peers; peers without a chat are skipped. */
  function Revoke(j: Job, ps: set<PeerID>): Job {
    j.(chats := j.chats - ps, closes := j.closes + multiset(Lines(Only(j.chats, ps))))
  }

  function CloseAll(j: Job): Job {
    Revoke(j, j.chats.Keys)
  }

  function HaltOrAbort(j: Job, e: PeerError): Job {
    var j1 := j.(lastErr := Some(e), feedback := j.feedback.(closed := true));
    if e.status == Aborted then CloseAll(j1) else j1
  }

  // Opening chats

  /** One turn of the loop over the participants: the line on which the peer took the talk
      request, or None if it did not or was not asked. */
  datatype Attempt = Attempt(cid: ChannelID, line: Option<nat>)

  /** A new chat, on a line nothing was sent on. */
  function Opened(j: Job, p: PeerID, line: nat, cid: ChannelID): Job {
    j.(chats := j.chats[p := PeerChat(p, line, cid)], everOpened := j.everOpened + {line}, log := j.log[line := []])
  }

  /** The job after the attempts, and the peers that did not take the request. */
  function OpenPeers(j: Job, attempts: seq<Attempt>): (Job, seq<PeerID>)
    requires forall a <- attempts :: a.cid in j.instr.participants
  {
    if attempts == [] then (j, [])
    else
      var n := |attempts| - 1;
      var (j1, missing) := OpenPeers(j, attempts[..n]);
      var a := attempts[n];
      var p := j.instr.participants[a.cid];
      if p in j1.chats then (j1, missing)
      else if a.line.Some? then
        (Opened(j1, p, a.line.value, a.cid), missing)
      else (j1, missing + [p])
  }

  /** Every talk request that was taken got a line of its own. */
  predicate Fresh(j: Job, attempts: seq<Attempt>) {
    && (forall a <- attempts | a.line.Some? :: a.line.value !in j.everOpened)
    && (forall i, k | 0 <= i < k < |attempts| && attempts[i].line.Some? :: attempts[i].line != attempts[k].line)
  }

  function OpenError(j: Job, missing: seq<PeerID>): PeerError {
    PeerError(if HasComm(j.handleErrFlags) then Halted else Aborted, j.progress, missing)
  }

  // One phase

  /** What Instruct on a chat came to. */
  datatype Send = Send(peer: PeerID, ok: bool)

  /** What pullRespUntilDone on a chat came to; None is a communication error. */
  datatype Answer = Answer(peer: PeerID, reply: Option<CmdResult>)

  /** The sends and the answers of one phase, each in the order the chats were visited. */
  datatype Exchange = Exchange(sends: seq<Send>, answers: seq<Answer>)

  /** Every chat took the command. */
  predicate AllSent(sends: seq<Send>) {
    forall s <- sends :: s.ok
  }

  /** Every chat delivered an answer. */
  predicate AllAnswer(answers: seq<Answer>) {
    forall a <- answers :: a.reply.Some?
  }

  /** Nothing went wrong between the engine and the chats, whatever the peers said. */
  predicate Delivered(x: Exchange) {
    AllSent(x.sends) && AllAnswer(x.answers)
  }

  /** A communication failure counts with all its bits, a status only with its classes. */
  function ErrFlag(reply: Option<CmdResult>): Flags {
    match reply
    case None => STREAM_ERR
    case Some(r) => ErrorClass(r.status)
  }

  predicate Failed(reply: Option<CmdResult>) {
    reply.Some? ==> ErrorClass(reply.value.status) != 0
  }

  predicate CommFailed(reply: Option<CmdResult>) {
    reply.Some? ==> HasComm(reply.value.status)
  }

  /** The source tests the flag itself, which comes to the same. */
  lemma ErrFlagClassifies(reply: Option<CmdResult>)
    ensures Failed(reply) <==> ErrorClass(ErrFlag(reply)) != 0
    ensures CommFailed(reply) <==> HasComm(ErrFlag(reply))
    ensures CommFailed(reply) ==> Failed(reply)
    ensures ErrFlag(reply) == 0 ==> !Failed(reply)
  {
    match reply
    case None =>
      assert 129 & 224 != 0 as bv32 && 129 & 128 != 0 as bv32;
    case Some(r) =>
      assert r.status & 224 & 224 == r.status & 224;
      assert r.status & 224 & 128 == r.status & 128;
      assert r.status & 224 == 0 ==> r.status & 128 == 0;
  }

  function Visited(xs: seq<Answer>): set<PeerID> {
    set a | a in xs :: a.peer
  }

  function FailedPeers(xs: seq<Answer>): set<PeerID> {
    set a | a in xs && Failed(a.reply) :: a.peer
  }

  function CommPeers(xs: seq<Answer>): set<PeerID> {
    set a | a in xs && CommFailed(a.reply) :: a.peer
  }

  function Replies(xs: seq<Answer>): seq<CmdResult> {
    if xs == [] then []
    else
      var n := |xs| - 1;
      Replies(xs[..n]) + if Failed(xs[n].reply) then [] else [xs[n].reply.value]
  }

  function Failing(xs: seq<Answer>): seq<PeerID> {
    if xs == [] then []
    else
      var n := |xs| - 1;
      Failing(xs[..n]) + if Failed(xs[n].reply) then [xs[n].peer] else []
  }

  function Unsent(xs: seq<Send>): seq<PeerID> {
    if xs == [] then []
    else
      var n := |xs| - 1;
      Unsent(xs[..n]) + if xs[n].ok then [] else [xs[n].peer]
  }

  /** The originator handles every error class raised. */
  predicate Handled(flags: Flags, xs: seq<Answer>) {
    forall a <- xs | Failed(a.reply) :: Includes(flags, ErrFlag(a.reply))
  }

  function Asked(chats: map<PeerID, PeerChat>, phase: nat, xs: seq<Send>): set<(nat, nat)> {
    set s | s in xs && s.ok && s.peer in chats :: (chats[s.peer].line, phase)
  }

  function Answered(chats: map<PeerID, PeerChat>, phase: nat, xs: seq<Answer>): set<(nat, nat)> {
    set a | a in xs && !Failed(a.reply) && a.peer in chats :: (chats[a.peer].line, phase)
  }

  /** Both loops of queryTargetsSync visit every chat once, and an answer can only come from
      a chat that got the command. */
  predicate ExchangeOf(chats: map<PeerID, PeerChat>, x: Exchange) {
    && (forall i, k | 0 <= i < k < |x.sends| :: x.sends[i].peer != x.sends[k].peer)
    && (forall i, k | 0 <= i < k < |x.answers| :: x.answers[i].peer != x.answers[k].peer)
    && (set s | s in x.sends :: s.peer) == chats.Keys
    && Visited(x.answers) == chats.Keys
    && (forall s <- x.sends, a <- x.answers | s.peer == a.peer && !s.ok :: a.reply.None?)
  }

  function QueryError(j: Job, x: Exchange): Option<PeerError> {
    if FailedPeers(x.answers) == {} then None
    else
      Some(PeerError(
        if Handled(j.handleErrFlags, x.answers) then Halted else Aborted,
        j.progress,
        Unsent(x.sends) + Failing(x.answers)))
  }

  /** The command of a phase; the chats of a query get it each with their own channel ID. */
  function Task(j: Job): SMCCmd {
    if j.progress < |j.instr.tasks| then j.instr.tasks[j.progress] else SMCCmd("", 0, Link)
  }

  function ReplyOf(xs: seq<Answer>, p: PeerID): Option<CmdResult> {
    if xs == [] then None
    else
      var n := |xs| - 1;
      if xs[n].peer == p then xs[n].reply else ReplyOf(xs[..n], p)
  }

  /** What is sent on a line, and pulled from it, while these peers are instructed. */
  function TalkOn(j: Job, cmd: SMCCmd, sends: seq<Send>, answers: seq<Answer>, line: nat): seq<Entry> {
    if sends == [] then []
    else
      var n := |sends| - 1;
      var p := sends[n].peer;
      TalkOn(j, cmd, sends[..n], answers, line) +
      if sends[n].ok && p in j.chats && j.chats[p].line == line
      then [Entry(j.progress, cmd.(smcPeerID := j.chats[p].cid), ReplyOf(answers, p))] else []
  }

  /** The log after a query for this command. */
  function Spoken(j: Job, cmd: SMCCmd, x: Exchange): map<nat, seq<Entry>> {
    map l | l in j.log :: j.log[l] + TalkOn(j, cmd, x.sends, x.answers, l)
  }

  function Query(j: Job, x: Exchange): Job {
    var j1 := j.(asked := j.asked + Asked(j.chats, j.progress, x.sends),
                 clean := j.clean + Answered(j.chats, j.progress, x.answers));
    Revoke(j1, if Handled(j.handleErrFlags, x.answers) then CommPeers(x.answers) else FailedPeers(x.answers))
  }

  function Tagged(progress: int, rs: seq<CmdResult>): seq<PeerResult> {
    seq(|rs|, i requires 0 <= i < |rs| => PeerResult(progress, rs[i]))
  }

  /** The responses of one phase, in the order they were sent. */
  function Block(items: seq<PeerResult>, phase: int): seq<CmdResult> {
    if items == [] then []
    else
      var n := |items| - 1;
      Block(items[..n], phase) + if items[n].progress == phase then [items[n].response] else []
  }

  function Deliver(j: Job, rs: seq<CmdResult>): Job {
    j.(feedback := j.feedback.(items := j.feedback.items + Tagged(j.progress, rs)))
  }

  /** One turn of processJob's loop over the remaining tasks. */
  function Phase(j: Job, x: Exchange): Job {
    var j1 := Deliver(Query(j, x).(log := Spoken(j, Task(j), x)), Replies(x.answers));
    match QueryError(j, x)
    case None => j1.(progress := j1.progress + 1)
    case Some(e) => HaltOrAbort(j1, e)
  }

  /** The loop until it has used up the exchanges or ended the run. */
  function Phases(j: Job, xs: seq<Exchange>): Job {
    if xs == [] then j
    else
      var n := |xs| - 1;
      var j1 := Phases(j, xs[..n]);
      if j1.feedback.closed then j1 else Phase(j1, xs[n])
  }

  /** Each exchange is one the loop asked for: the run was still on, a task was left, and it
      visits the chats there are. */
  ghost predicate PhasesOf(j: Job, xs: seq<Exchange>) {
    xs == [] ||
    var n := |xs| - 1;
    var j1 := Phases(j, xs[..n]);
    && PhasesOf(j, xs[..n])
    && !j1.feedback.closed
    && j1.progress < |j1.instr.tasks|
    && ExchangeOf(j1.chats, xs[n])
  }

  function Finish(j: Job): Job {
    CloseAll(j.(feedback := j.feedback.(closed := true)))
  }

  /** No query of the run lost anything. */
  predicate AllDelivered(xs: seq<Exchange>) {
    forall x <- xs :: Delivered(x)
  }

  // A whole run of a worker over the job

  datatype Run =
    | Expired
    | Started(attempts: seq<Attempt>, exchanges: seq<Exchange>)

  predicate AttemptsOf(j: Job, attempts: seq<Attempt>) {
    && (forall i, k | 0 <= i < k < |attempts| :: attempts[i].cid != attempts[k].cid)
    && (set a | a in attempts :: a.cid) == j.instr.participants.Keys
    && Fresh(j, attempts)
  }

  /** A complete run: it stopped for a reason. */
  ghost predicate RunOf(j: Job, r: Run) {
    r.Started? ==>
      && AttemptsOf(j, r.attempts)
      && var (j1, missing) := OpenPeers(j.(queued := false), r.attempts);
         if missing != [] then r.exchanges == []
         else
           && PhasesOf(j1, r.exchanges)
           && var j2 := Phases(j1, r.exchanges);
              j2.feedback.closed || j2.progress >= |j2.instr.tasks|
  }

  /** The participants that a run wanted to talk to in vain. */
  ghost function Missing(j: Job, r: Run): seq<PeerID>
    requires RunOf(j, r)
  {
    if r.Expired? then [] else OpenPeers(j.(queued := false), r.attempts).1
  }

  /** These are the participants without a chat that were not ready to take one. */
  ghost predicate Misses(j: Job, missing: seq<PeerID>, ready: set<PeerID>) {
    forall p :: p in missing <==> p in j.instr.participants.Values && p !in j.chats && p !in ready
  }

  /** processJob */
  function Process(j: Job, r: Run): Job
    requires r.Started? ==> forall a <- r.attempts :: a.cid in j.instr.participants
  {
    var j0 := j.(queued := false);
    match r
    case Expired => HaltOrAbort(j0, PeerError(Aborted, -1, []))
    case Started(attempts, exchanges) =>
      var (j1, missing) := OpenPeers(j0, attempts);
      if missing != [] then HaltOrAbort(j1, OpenError(j1, missing))
      else
        var j2 := Phases(j1, exchanges);
        if j2.feedback.closed then j2 else Finish(j2)
  }

  // What the client may do with a job no worker holds

  datatype RecycleError = NotHalted | IncompatibleTasks | NewParticipants

  /** The loop over the new participants, from the given order on: it stops at the first peer
      without a chat, keeping the channel IDs it has set so far. */
  function Restamp(chats: map<PeerID, PeerChat>, parts: map<ChannelID, PeerID>, order: seq<ChannelID>): (map<PeerID,
                   PeerChat>, bool)
    requires forall i | 0 <= i < |order| :: order[i] in parts
  {
    if order == [] then (chats, true)
    else
      var p := parts[order[0]];
      if p !in chats then (chats, false)
      else Restamp(chats[p := chats[p].(cid := order[0])], parts, order[1..])
  }

  /** closeUnusedChats compares with the participants the job still has at that point. */
  function CloseUnused(j: Job): Job {
    Revoke(j, j.chats.Keys - j.instr.participants.Values)
  }

  /** recycleJob; "flags" is the option HandleErrFlags if the client passes it. */
  function Recycle(j: Job, instr: Instr, flags: Option<Flags>, order: seq<ChannelID>): (Job, Option<RecycleError>)
    requires IsOrder(order, instr.participants.Keys)
  {
    if !IsHalted(j) then (j, Some(NotHalted))
    else if |instr.tasks| < |j.instr.tasks| then (j, Some(IncompatibleTasks))
    else
      var (chats, ok) := Restamp(j.chats, instr.participants, order);
      var j1 := j.(chats := chats);
      if !ok then (j1, Some(NewParticipants))
      else
        (CloseUnused(j1).(
          feedback := Feedback(j.progress, [], false),
          lastErr := None,
          instr := instr,
          handleErrFlags := if flags.Some? then flags.value else j.handleErrFlags), None)
  }

  /** What a client can check before it reschedules: the job is halted, the new instruction has
      no fewer tasks, and names connected peers only. */
  predicate Recyclable(j: Job, instr: Instr) {
    IsHalted(j) && |instr.tasks| >= |j.instr.tasks| && instr.participants.Values <= j.chats.Keys
  }

  /** RescheduleOpenJob: recycle, then enqueue unless the context expires first. */
  function Reschedule(j: Job, instr: Instr, flags: Option<Flags>, order: seq<ChannelID>, enqueued: bool): (Job,
                      Option<RecycleError>)
    requires IsOrder(order, instr.participants.Keys)
  {
    var (j1, err) := Recycle(j, instr, flags, order);
    if err.Some? then (j1, err) else (j1.(queued := enqueued), None)
  }

  function Abort(j: Job): Job {
    if !IsHalted(j) then j else CloseAll(j).(lastErr := None)
  }
}
