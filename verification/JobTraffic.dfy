/** What a job says on its lines over any history: the phases instructed and answered are those of
    the commands that were sent, one to one and in order, and of the feedback pulled for them. */
module JobTraffic {
  import opened Protocol
  import opened JobModel
  import opened JobInvariant
  import opened JobRuns
  import opened JobSteps
  import opened JobLifetime
  import opened JobHistory

  /** The feedback has come and has no error class. */
  predicate CleanEntry(e: Entry) {
    e.reply.Some? && !Failed(e.reply)
  }

  ghost predicate InPhaseOrder(entries: seq<Entry>) {
    forall i, k | 0 <= i < k < |entries| :: entries[i].phase <= entries[k].phase
  }

  /** The phases of these commands. */
  function AskedOn(entries: seq<Entry>): set<nat> {
    set i | 0 <= i < |entries| :: entries[i].phase
  }

  function CleanOn(entries: seq<Entry>): set<nat> {
    set i | 0 <= i < |entries| && CleanEntry(entries[i]) :: entries[i].phase
  }

  /** "asked" and "clean" are what the log says. */
  ghost predicate Recorded(j: Job) {
    && j.log.Keys == j.everOpened
    && (forall l <- j.log :: InPhaseOrder(j.log[l]))
    && (forall l: nat, k: nat :: Fits(j, l, k))
  }

  predicate Fits(j: Job, l: nat, k: nat) {
    && ((l, k) in j.asked <==> l in j.log && k in AskedOn(j.log[l]))
    && ((l, k) in j.clean <==> l in j.log && k in CleanOn(j.log[l]))
  }

  // One phase

  lemma {:induction false} ReplyIs(xs: seq<Answer>, a: Answer)
    requires a in xs && EachOnce(xs)
    ensures ReplyOf(xs, a.peer) == a.reply
  {
    var n := |xs| - 1;
    if xs[n].peer == a.peer {
      var i :| 0 <= i < |xs| && xs[i] == a;
      assert i == n;
    } else {
      ReplyIs(xs[..n], a);
    }
  }

  /** What is new on the line of a chat. */
  function News(j: Job, x: Exchange, p: PeerID): seq<Entry>
    requires p in j.chats
  {
    if p in SentPeers(x.sends)
    then [Entry(j.progress, Task(j).(smcPeerID := j.chats[p].cid), ReplyOf(x.answers, p))] else []
  }

  lemma SpokenAt(j: Job, x: Exchange, l: nat)
    requires ExchangeOf(j.chats, x) && Distinct(j.chats) && l in j.log
    ensures l !in Lines(j.chats) ==> Spoken(j, Task(j), x)[l] == j.log[l]
    ensures forall p | p in j.chats && j.chats[p].line == l :: Spoken(j, Task(j), x)[l] == j.log[l] + News(j, x, p)
  {
    if l !in Lines(j.chats) {
      TalkNowhere(j, Task(j), x.sends, x.answers, l);
    } else {
      forall p | p in j.chats && j.chats[p].line == l ensures Spoken(j, Task(j), x)[l] == j.log[l] + News(j, x, p) {
        TalkOnChat(j, Task(j), x.sends, x.answers, p);
      }
    }
  }

  /** The new entry is among the phases asked, and clean iff it is among those answered. */
  lemma NewsFit(j: Job, x: Exchange, p: PeerID)
    requires ExchangeOf(j.chats, x) && Distinct(j.chats) && p in j.chats
    ensures News(j, x, p) != [] <==> (j.chats[p].line, j.progress) in Asked(j.chats, j.progress, x.sends)
    ensures News(j, x, p) != [] && CleanEntry(News(j, x, p)[0]) <==>
      (j.chats[p].line, j.progress) in Answered(j.chats, j.progress, x.answers)
  {
    var l := j.chats[p].line;
    if (l, j.progress) in Asked(j.chats, j.progress, x.sends) {
      var s :| s in x.sends && s.ok && s.peer in j.chats && (j.chats[s.peer].line, j.progress) == (l, j.progress);
      assert s.peer == p;
    }
    if p in SentPeers(x.sends) {
      var s :| s in x.sends && s.ok && s.peer == p;
      assert (l, j.progress) in Asked(j.chats, j.progress, x.sends);
    }
    assert p in Visited(x.answers);
    var a :| a in x.answers && a.peer == p;
    ReplyIs(x.answers, a);
    if (l, j.progress) in Answered(j.chats, j.progress, x.answers) {
      var b :| b in x.answers && !Failed(b.reply) && b.peer in j.chats
        && (j.chats[b.peer].line, j.progress) == (l, j.progress);
      assert b.peer == p;
      ReplyIs(x.answers, b);
      assert p in (set s | s in x.sends :: s.peer);
      var s :| s in x.sends && s.peer == p;
      assert s.ok;
    }
  }

  lemma OnMore(entries: seq<Entry>, more: seq<Entry>)
    ensures AskedOn(entries + more) == AskedOn(entries) + AskedOn(more)
    ensures CleanOn(entries + more) == CleanOn(entries) + CleanOn(more)
  {
    var all := entries + more;
    assert forall i | 0 <= i < |entries| :: all[i] == entries[i];
    assert forall i | 0 <= i < |more| :: all[|entries| + i] == more[i];
  }

  /** The line of a chat after the phase. */
  lemma ChatRecorded(j: Job, x: Exchange, p: PeerID, k: nat)
    requires Recorded(j) && Conserved(j) && Ledger(j) && ExchangeOf(j.chats, x) && p in j.chats
    ensures var l := j.chats[p].line;
      var entries := j.log[l] + News(j, x, p);
      && InPhaseOrder(entries)
      && ((l, k) in j.asked + Asked(j.chats, j.progress, x.sends) <==> k in AskedOn(entries))
      && ((l, k) in j.clean + Answered(j.chats, j.progress, x.answers) <==> k in CleanOn(entries))
  {
    var l := j.chats[p].line;
    NewsFit(j, x, p);
    OnMore(j.log[l], News(j, x, p));
    assert Fits(j, l, k);
    forall i | 0 <= i < |j.log[l]| ensures j.log[l][i].phase <= j.progress {
      assert Fits(j, l, j.log[l][i].phase);
      assert j.log[l][i].phase in AskedOn(j.log[l]);
      assert (l, j.log[l][i].phase) in j.asked;
    }
    OneEntry(j, x, p);
    AtThisPhase(j, x, (l, k));
  }

  lemma OneEntry(j: Job, x: Exchange, p: PeerID)
    requires p in j.chats
    ensures var news := News(j, x, p);
      && AskedOn(news) == (if news == [] then {} else {j.progress})
      && CleanOn(news) == (if news != [] && CleanEntry(news[0]) then {j.progress} else {})
  {
    var news := News(j, x, p);
    if news != [] {
      assert news[0].phase == j.progress;
    }
  }

  lemma AtThisPhase(j: Job, x: Exchange, e: (nat, nat))
    ensures e in Asked(j.chats, j.progress, x.sends) ==> e.1 == j.progress && e.0 in Lines(j.chats)
    ensures e in Answered(j.chats, j.progress, x.answers) ==> e.1 == j.progress && e.0 in Lines(j.chats)
  {
  }

  /** One phase: what the query puts on the channels is what it puts into the ledger. */
  lemma PhaseRecords(j: Job, x: Exchange)
    requires !j.feedback.closed && Recorded(j) && Conserved(j) && Ledger(j) && ExchangeOf(j.chats, x)
    ensures Recorded(Phase(j, x))
  {
    hide Asked, Answered, Distinct, Lines, ExchangeOf, News, AskedOn, CleanOn, InPhaseOrder;
    PhaseLedger(j, x);
    var j' := Phase(j, x);
    assert j'.log.Keys == j.log.Keys;
    forall l: nat, k: nat ensures Fits(j', l, k) && (l in j'.log ==> InPhaseOrder(j'.log[l])) {
      assert Fits(j, l, k);
      AtThisPhase(j, x, (l, k));
      if l in j.log {
        LiveLines(j);
        SpokenAt(j, x, l);
        if l in Lines(j.chats) {
          var p := PeerOn(j, l);
          ChatRecorded(j, x, p, k);
        }
      } else {
        LiveLines(j);
      }
    }
    forall l <- j'.log ensures InPhaseOrder(j'.log[l]) {
      assert Fits(j', l, 0);
    }
  }

  lemma LiveLines(j: Job)
    requires Conserved(j)
    ensures Lines(j.chats) <= j.everOpened && Distinct(j.chats)
  {
  }

  lemma PeerOn(j: Job, l: nat) returns (p: PeerID)
    requires l in Lines(j.chats)
    ensures p in j.chats && j.chats[p].line == l
  {
    p :| p in j.chats && j.chats[p].line == l;
  }

  lemma PhaseLedger(j: Job, x: Exchange)
    ensures var j' := Phase(j, x);
      && j'.asked == j.asked + Asked(j.chats, j.progress, x.sends)
      && j'.clean == j.clean + Answered(j.chats, j.progress, x.answers)
      && j'.log == Spoken(j, Task(j), x)
      && j'.everOpened == j.everOpened
  {
    hide Asked, Answered, Spoken, Handled, Replies, Unsent, Failing, FailedPeers, CommPeers, Lines, Only;
  }

  // Histories

  ghost predicate SameSaid(j: Job, j': Job) {
    j'.asked == j.asked && j'.clean == j.clean && j'.log == j.log && j'.everOpened == j.everOpened
  }

  /** What does not speak on the lines keeps the record. */
  lemma SameRecord(j: Job, j': Job)
    requires Recorded(j) && SameSaid(j, j')
    ensures Recorded(j')
  {
    forall l: nat, k: nat ensures Fits(j', l, k) {
      assert Fits(j, l, k);
    }
  }

  lemma OpenedRecords(j: Job, p: PeerID, line: nat, cid: ChannelID)
    requires Recorded(j) && line !in j.everOpened
    ensures Recorded(Opened(j, p, line, cid))
  {
    hide InPhaseOrder;
    var j' := Opened(j, p, line, cid);
    InOrderEmpty();
    forall l: nat, k: nat ensures Fits(j', l, k) {
      assert Fits(j, l, k);
    }
    forall l <- j'.log ensures InPhaseOrder(j'.log[l]) {
      assert l == line || l in j.log;
    }
  }

  lemma InOrderEmpty()
    ensures InPhaseOrder([]) && AskedOn([]) == {} && CleanOn([]) == {}
  {
  }

  lemma {:induction false} OpenPeersRecords(j: Job, attempts: seq<Attempt>)
    requires Conserved(j) && Recorded(j) && Fresh(j, attempts)
    requires forall a <- attempts :: a.cid in j.instr.participants
    ensures Recorded(OpenPeers(j, attempts).0)
  {
    hide Recorded, Conserved;
    if attempts != [] {
      var n := |attempts| - 1;
      OpenPeersRecords(j, attempts[..n]);
      OpenPeersConserves(j, attempts[..n]);
      OpenPeersFacts(j, attempts[..n]);
      var j1 := OpenPeers(j, attempts[..n]).0;
      var a := attempts[n];
      assert a in attempts;
      var p := j.instr.participants[a.cid];
      if p !in j1.chats && a.line.Some? {
        OpenedRecords(j1, p, a.line.value, a.cid);
      }
    }
  }

  lemma {:induction false} PhasesRecord(j: Job, xs: seq<Exchange>)
    requires Running(j) && PhasesOf(j, xs) && Recorded(j)
    ensures Recorded(Phases(j, xs))
  {
    hide Recorded, Phase, Conserved, InOrder, Ledger;
    if xs != [] {
      var n := |xs| - 1;
      PhasesRecord(j, xs[..n]);
      PhasesKeep(j, xs[..n]);
      PhaseRecords(Phases(j, xs[..n]), xs[n]);
    }
  }

  /** The job when the run has said all it will: what follows are closings only. */
  ghost function AllSaid(j: Job, run: Run): Job
    requires RunOf(j, run)
  {
    var j0 := j.(queued := false);
    match run
    case Expired => j0
    case Started(attempts, exchanges) =>
      var (j1, missing) := OpenPeers(j0, attempts);
      if missing != [] then j1 else Phases(j1, exchanges)
  }

  lemma EndsSilently(j: Job, e: PeerError)
    ensures SameSaid(j, HaltOrAbort(j, e)) && SameSaid(j, Finish(j))
  {
    hide Lines, Only;
  }

  lemma NothingMoreSaid(j: Job, run: Run)
    requires RunOf(j, run)
    ensures SameSaid(AllSaid(j, run), Process(j, run))
  {
    hide Phases, PhasesOf, OpenPeers, HaltOrAbort, Finish, Fresh, OpenError;
    var j0 := j.(queued := false);
    match run
    case Expired => EndsSilently(j0, PeerError(Aborted, -1, []));
    case Started(attempts, exchanges) =>
      var (j1, missing) := OpenPeers(j0, attempts);
      EndsSilently(j1, OpenError(j1, missing));
      EndsSilently(Phases(j1, exchanges), OpenError(j1, missing));
  }

  lemma ProcessRecords(j: Job, run: Run)
    requires Inv(j) && j.queued && RunOf(j, run) && Recorded(j)
    ensures Recorded(Process(j, run))
  {
    hide Recorded, Phases, PhasesOf, OpenPeers, Process;
    var j0 := j.(queued := false);
    SameRecord(j, j0);
    NothingMoreSaid(j, run);
    if run.Started? {
      OpenedKeeps(j0, run.attempts);
      OpenPeersRecords(j0, run.attempts);
      var (j1, missing) := OpenPeers(j0, run.attempts);
      if missing == [] {
        PhasesRecord(j1, run.exchanges);
      }
    }
    SameRecord(AllSaid(j, run), Process(j, run));
  }

  lemma ActionRecords(j: Job, a: Action)
    requires Inv(j) && Enabled(j, a) && Recorded(j)
    ensures Recorded(After(j, a))
  {
    hide Recorded, Process, RunOf, Restamp, Conserved, InOrder, Ledger;
    match a
    case Work(run) => ProcessRecords(j, run);
    case Resched(_, _, _, _) => SameRecord(j, After(j, a));
    case Quit => SameRecord(j, After(j, a));
  }

  /** Over every history, shrinking or not: the commands sent on a line are in the order of their
      phases, the phases asked on it are exactly theirs, and the phases answered without an error
      class exactly those of the commands whose feedback came without one. */
  lemma {:induction false} HistoryRecorded(instr: Instr, flags: Flags, acts: seq<Action>, j: Job, shrinking: bool)
    requires History(NewJob(instr, flags), acts, j, shrinking)
    ensures Recorded(j) && Inv(j)
  {
    hide Recorded, Enabled, After, Inv, Shrinks;
    if acts == [] {
      NewJobRecorded(instr, flags);
    } else {
      var n := |acts| - 1;
      var j1 :| History(NewJob(instr, flags), acts[..n], j1, shrinking) && Enabled(j1, acts[n])
        && j == After(j1, acts[n]);
      HistoryRecorded(instr, flags, acts[..n], j1, shrinking);
      ActionKeeps(j1, acts[n]);
      ActionRecords(j1, acts[n]);
    }
  }

  lemma NewJobRecorded(instr: Instr, flags: Flags)
    ensures Recorded(NewJob(instr, flags)) && Inv(NewJob(instr, flags))
  {
    NewJobInv(instr, flags);
  }

  /** A command of this phase was sent, and answered without an error class. */
  predicate SaidCleanly(entries: seq<Entry>, phase: nat) {
    exists i :: 0 <= i < |entries| && entries[i].phase == phase && CleanEntry(entries[i])
  }

  /** The peer's chat has answered all phases below "progress". */
  ghost predicate AnsweredAll(j: Job, p: PeerID)
    requires p in j.chats
  {
    j.chats[p].line in j.log && forall k: nat | k < j.progress :: SaidCleanly(j.log[j.chats[p].line], k)
  }

  /** The phase barrier in terms of what was said: as long as participants only shrink, every live
      chat has been sent, for each phase below "progress", a command of that phase whose feedback
      came without an error class; and no command of a phase above it was ever sent to anybody. */
  lemma SpokenBarrier(instr: Instr, flags: Flags, acts: seq<Action>, j: Job)
    requires History(NewJob(instr, flags), acts, j, true)
    ensures forall p <- j.chats :: AnsweredAll(j, p)
    ensures forall l, i | l in j.log && 0 <= i < |j.log[l]| :: j.log[l][i].phase <= j.progress
  {
    hide Recorded, Inv, Barrier, AnsweredAll;
    HistoryRecorded(instr, flags, acts, j, true);
    JobHistory.PhaseBarrier(instr, flags, acts, j);
    forall p <- j.chats ensures AnsweredAll(j, p) {
      BarrierSaid(j, p);
    }
    NothingAhead(j);
  }

  lemma BarrierSaid(j: Job, p: PeerID)
    requires Recorded(j) && Inv(j) && Barrier(j) && p in j.chats
    ensures AnsweredAll(j, p)
  {
    var l := j.chats[p].line;
    forall k: nat | k < j.progress ensures SaidCleanly(j.log[l], k) {
      assert Fits(j, l, k) && (l, k) in j.clean;
    }
  }

  lemma NothingAhead(j: Job)
    requires Recorded(j) && Inv(j)
    ensures forall l, i | l in j.log && 0 <= i < |j.log[l]| :: j.log[l][i].phase <= j.progress
  {
    forall l, i | l in j.log && 0 <= i < |j.log[l]| ensures j.log[l][i].phase <= j.progress {
      assert Fits(j, l, j.log[l][i].phase);
      assert j.log[l][i].phase in AskedOn(j.log[l]);
    }
  }

  // What the commands are

  /** The command is the job's task for its phase, under the channel ID of the chat on this line. */
  ghost predicate Commanded(j: Job, l: nat, e: Entry) {
    && e.phase < |j.instr.tasks|
    && exists p :: p in j.chats && j.chats[p].line == l && e.cmd == j.instr.tasks[e.phase].(smcPeerID := j.chats[p].cid)
  }

  /** The log has grown by such commands alone. */
  ghost predicate Grown(j: Job, log: map<nat, seq<Entry>>) {
    && log.Keys == j.log.Keys
    && forall l <- log :: j.log[l] <= log[l] && forall i | |j.log[l]| <= i < |log[l]| :: Commanded(j, l, log[l][i])
  }

  lemma PhaseCommands(j: Job, x: Exchange)
    requires Distinct(j.chats) && ExchangeOf(j.chats, x) && j.progress < |j.instr.tasks|
    ensures Grown(j, Phase(j, x).log)
  {
    hide ExchangeOf, Distinct;
    PhaseLedger(j, x);
    var log := Phase(j, x).log;
    forall l <- log ensures j.log[l] <= log[l] && forall i | |j.log[l]| <= i < |log[l]| :: Commanded(j, l, log[l][i]) {
      SpokenAt(j, x, l);
      if l in Lines(j.chats) {
        var p := PeerOn(j, l);
        forall i | |j.log[l]| <= i < |log[l]| ensures Commanded(j, l, log[l][i]) {
          assert log[l][i] == News(j, x, p)[0];
        }
      }
    }
  }

  lemma GrownFurther(j: Job, j1: Job, log: map<nat, seq<Entry>>)
    requires Grown(j, j1.log) && Grown(j1, log) && j1.instr == j.instr && j1.chats == j.chats
    ensures Grown(j, log)
  {
    forall l <- log ensures j.log[l] <= log[l] && forall i | |j.log[l]| <= i < |log[l]| :: Commanded(j, l, log[l][i]) {
      forall i | |j.log[l]| <= i < |log[l]| ensures Commanded(j, l, log[l][i]) {
        if i < |j1.log[l]| {
          assert log[l][i] == j1.log[l][i];
        } else {
          assert Commanded(j1, l, log[l][i]);
        }
      }
    }
  }

  lemma {:induction false} PhasesCommand(j: Job, xs: seq<Exchange>)
    requires !j.feedback.closed && Distinct(j.chats) && PhasesOf(j, xs)
    ensures Grown(j, Phases(j, xs).log)
  {
    hide Phase, ExchangeOf, Grown, Distinct;
    if xs == [] {
      GrownNot(j);
    } else {
      var n := |xs| - 1;
      PhasesCommand(j, xs[..n]);
      PhasesShape(j, xs[..n]);
      PhaseCommands(Phases(j, xs[..n]), xs[n]);
      GrownFurther(j, Phases(j, xs[..n]), Phase(Phases(j, xs[..n]), xs[n]).log);
    }
  }

  lemma GrownNot(j: Job)
    ensures Grown(j, j.log)
  {
  }

  /** Opening chats says nothing: it adds silent lines. */
  lemma {:induction false} OpenPeersSilent(j: Job, attempts: seq<Attempt>)
    requires Conserved(j) && j.log.Keys == j.everOpened && Fresh(j, attempts)
    requires forall a <- attempts :: a.cid in j.instr.participants
    ensures var log := OpenPeers(j, attempts).0.log;
      j.log.Keys <= log.Keys && forall l <- log :: log[l] == if l in j.log then j.log[l] else []
  {
    hide Conserved;
    if attempts != [] {
      var n := |attempts| - 1;
      OpenPeersSilent(j, attempts[..n]);
      OpenPeersConserves(j, attempts[..n]);
      var a := attempts[n];
      assert a in attempts;
    }
  }

  /** What was on the line before. */
  function Before(j: Job, l: nat): seq<Entry> {
    if l in j.log then j.log[l] else []
  }

  /** The command is one this action has sent. */
  ghost predicate SentBy(j: Job, a: Action, l: nat, e: Entry) {
    && Enabled(j, a) && a.Work? && a.run.Started?
    && Commanded(OpenPeers(j.(queued := false), a.run.attempts).0, l, e)
  }

  /** The log has grown by what the action has sent alone. */
  ghost predicate Added(j: Job, a: Action, log: map<nat, seq<Entry>>) {
    forall l <- log :: Before(j, l) <= log[l] && forall i | |Before(j, l)| <= i < |log[l]| :: SentBy(j, a, l, log[l][i])
  }

  /** From the opening of the chats on. */
  lemma AddedSinceOpening(j: Job, run: Run, log: map<nat, seq<Entry>>)
    requires Conserved(j) && RunOf(j, run) && run.Started? && j.queued && Recorded(j)
    requires Grown(OpenPeers(j.(queued := false), run.attempts).0, log)
    ensures Added(j, Work(run), log)
  {
    hide RunOf, OpenPeers, Commanded, Fits, InPhaseOrder, Conserved;
    OpensSilently(j, run);
  }

  lemma OpensSilently(j: Job, run: Run)
    requires Conserved(j) && RunOf(j, run) && run.Started? && Recorded(j)
    ensures var log := OpenPeers(j.(queued := false), run.attempts).0.log;
      forall l <- log :: log[l] == Before(j, l)
  {
    hide OpenPeers, Phases, PhasesOf, Lines;
    OpenPeersSilent(j.(queued := false), run.attempts);
  }

  lemma RunCommands(j: Job, run: Run)
    requires Inv(j) && RunOf(j, run) && j.queued && Recorded(j)
    ensures Added(j, Work(run), Process(j, run).log)
  {
    hide Phases, PhasesOf, OpenPeers, Process, Recorded, Grown, SentBy;
    NothingMoreSaid(j, run);
    if run.Started? {
      var j0 := j.(queued := false);
      OpenedKeeps(j0, run.attempts);
      var (j1, missing) := OpenPeers(j0, run.attempts);
      if missing == [] {
        PhasesCommand(j1, run.exchanges);
      } else {
        GrownNot(j1);
      }
      AddedSinceOpening(j, run, AllSaid(j, run).log);
    }
  }

  /** The command comes from a run of the history, and is the task its job had for that phase. */
  ghost predicate SentInRun(j0: Job, acts: seq<Action>, l: nat, e: Entry) {
    exists n, j :: 0 <= n < |acts| && History(j0, acts[..n], j, false) && SentBy(j, acts[n], l, e)
  }

  lemma SentEarlier(j0: Job, acts: seq<Action>, a: Action, l: nat, e: Entry)
    requires SentInRun(j0, acts, l, e)
    ensures SentInRun(j0, acts + [a], l, e)
  {
    hide SentBy, History;
    var n, j :| 0 <= n < |acts| && History(j0, acts[..n], j, false) && SentBy(j, acts[n], l, e);
    assert (acts + [a])[..n] == acts[..n] && (acts + [a])[n] == acts[n];
  }

  lemma SentNow(j0: Job, acts: seq<Action>, a: Action, j: Job, l: nat, e: Entry)
    requires History(j0, acts, j, false) && SentBy(j, a, l, e)
    ensures SentInRun(j0, acts + [a], l, e)
  {
    hide SentBy, History;
    assert (acts + [a])[..|acts|] == acts && (acts + [a])[|acts|] == a;
  }

  lemma ActionCommands(j: Job, a: Action)
    requires Inv(j) && Enabled(j, a) && Recorded(j)
    ensures Added(j, a, After(j, a).log)
  {
    hide Recorded, Process, RunOf, Restamp, Conserved, InOrder, Ledger, SentBy;
    match a
    case Work(run) => RunCommands(j, run);
    case Resched(_, _, _, _) => assert After(j, a).log == j.log;
    case Quit => assert After(j, a).log == j.log;
  }

  /** Nothing was ever sent on any line of a job but, in some run of its history, a task of the
      instruction it had then, at that task's phase, under the channel ID of the line's chat. */
  lemma {:induction false} EveryCommandIsATask(instr: Instr, flags: Flags, acts: seq<Action>, j: Job)
    requires History(NewJob(instr, flags), acts, j, false)
    ensures forall l, i | l in j.log && 0 <= i < |j.log[l]| :: SentInRun(NewJob(instr, flags), acts, l, j.log[l][i])
  {
    hide Recorded, Enabled, After, Inv, SentBy, SentInRun;
    if acts != [] {
      var j0 := NewJob(instr, flags);
      var n := |acts| - 1;
      var j1 :| History(j0, acts[..n], j1, false) && Enabled(j1, acts[n]) && j == After(j1, acts[n]);
      EveryCommandIsATask(instr, flags, acts[..n], j1);
      HistoryRecorded(instr, flags, acts[..n], j1, false);
      ActionCommands(j1, acts[n]);
      assert acts[..n] + [acts[n]] == acts;
      forall l, i | l in j.log && 0 <= i < |j.log[l]| ensures SentInRun(j0, acts, l, j.log[l][i]) {
        if i < |Before(j1, l)| {
          assert j.log[l][i] == j1.log[l][i];
          SentEarlier(j0, acts[..n], acts[n], l, j.log[l][i]);
        } else {
          SentNow(j0, acts[..n], acts[n], j1, l, j.log[l][i]);
        }
      }
    }
  }
}
