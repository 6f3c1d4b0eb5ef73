/** One step of each loop of the job engine, on the values of JobModel and on the state of the
    channels: what the loops of JobEngine need to know to stay with their specification. */
module JobSteps {
  import opened MapOrder
  import opened Protocol
  import Chat
  import opened JobModel
  import opened JobInvariant
  import JobRuns
  import JobLifetime

  lemma RevokeNone(j: Job)
    ensures Revoke(j, {}) == j
  {
    assert Only(j.chats, {}) == map[];
    assert Lines(map[]) == {};
    assert j.chats - {} == j.chats;
  }

  lemma RevokeOne(j: Job, p: PeerID)
    requires p in j.chats
    ensures Revoke(j, {p}) == j.(chats := j.chats - {p}, closes := j.closes + multiset{j.chats[p].line})
  {
    var only := Only(j.chats, {p});
    assert only == map[p := j.chats[p]];
    assert p in only && Lines(only) == {j.chats[p].line};
  }

  lemma RevokeAbsent(j: Job, p: PeerID)
    requires p !in j.chats
    ensures Revoke(j, {p}) == j
  {
    RevokeOnlyLive(j, {p});
    assert {p} * j.chats.Keys == {};
    RevokeNone(j);
  }

  lemma LiveLine(j: Job, p: PeerID)
    requires Conserved(j) && p in j.chats
    ensures j.chats[p].line in j.everOpened && j.chats[p].line !in j.closes
    ensures forall q | q in j.chats && q != p :: j.chats[q].line != j.chats[p].line
  {
  }

  lemma LinesKnown(j: Job)
    requires Conserved(j)
    ensures forall p | p in j.chats :: j.chats[p].line in j.everOpened && j.chats[p].line !in j.closes
    ensures forall l <- j.closes :: l in j.everOpened
    ensures Distinct(j.chats)
  {
  }

  /** The attempts' lines are new, distinct, and among the lines opened by now. */
  predicate FreshUpTo(j: Job, attempts: seq<Attempt>, lines: set<nat>) {
    && j.everOpened <= lines && Fresh(j, attempts)
    && forall a <- attempts | a.line.Some? :: a.line.value in lines
  }

  lemma FreshOneMore(j: Job, attempts: seq<Attempt>, lines: set<nat>, a: Attempt)
    requires FreshUpTo(j, attempts, lines)
    requires a.line.Some? ==> a.line.value !in lines
    ensures FreshUpTo(j, attempts + [a], if a.line.Some? then lines + {a.line.value} else lines)
  {
    forall i | 0 <= i < |attempts| && attempts[i].line.Some? ensures attempts[i].line != a.line {
      assert attempts[i] in attempts;
    }
  }

  lemma AttemptsCover(j: Job, attempts: seq<Attempt>, order: seq<ChannelID>, lines: set<nat>)
    requires IsOrder(order, j.instr.participants.Keys) && |attempts| == |order|
    requires forall i | 0 <= i < |order| :: attempts[i].cid == order[i]
    requires FreshUpTo(j, attempts, lines)
    ensures AttemptsOf(j, attempts)
  {
    forall cid <- j.instr.participants.Keys ensures exists a :: a in attempts && a.cid == cid {
      var i :| 0 <= i < |order| && order[i] == cid;
      assert attempts[i] in attempts;
    }
    forall a <- attempts ensures a.cid in j.instr.participants {
      var i :| 0 <= i < |attempts| && attempts[i] == a;
      assert order[i] in order;
    }
  }

  lemma LedgerConserves(j: Job, asked: set<(nat, nat)>, clean: set<(nat, nat)>)
    requires Conserved(j)
    ensures Conserved(j.(asked := asked, clean := clean))
  {
  }

  lemma RevokeShape(j: Job, ps: set<PeerID>)
    ensures Revoke(j, ps) == j.(chats := j.chats - ps, closes := Revoke(j, ps).closes)
  {
  }

  /** What closing one more chat does, in the middle of closing all. */
  lemma CloseOneMore(j: Job, done: set<PeerID>, p: PeerID)
    requires Conserved(j) && Conserved(Revoke(j, done)) && p in j.chats && p !in done
    ensures var j1, j2, line := Revoke(j, done), Revoke(j, done + {p}), j.chats[p].line;
      && j2 == j1.(chats := j.chats - (done + {p}), closes := j1.closes + multiset{line})
      && line in j1.everOpened && line !in j1.closes
      && Conserved(j2)
  {
    RevokeShape(j, done);
    RevokeShape(j, done + {p});
    RevokeAgain(j, done, p);
    RevokeOne(Revoke(j, done), p);
    RevokeConserves(Revoke(j, done), {p});
  }

  lemma OpenNobody(j: Job)
    ensures OpenPeers(j, []) == (j, []) && FreshUpTo(j, [], j.everOpened)
  {
  }

  lemma OpenOneMore(j: Job, attempts: seq<Attempt>, a: Attempt)
    requires forall b <- attempts + [a] :: b.cid in j.instr.participants
    ensures (forall b <- attempts :: b.cid in j.instr.participants) && a.cid in j.instr.participants
    ensures var (j1, missing) := OpenPeers(j, attempts); var p := j.instr.participants[a.cid];
      OpenPeers(j, attempts + [a]) ==
        if p in j1.chats then (j1, missing)
        else if a.line.Some? then
          (Opened(j1, p, a.line.value, a.cid), missing)
        else (j1, missing + [p])
  {
    assert a in attempts + [a] && forall b <- attempts :: b in attempts + [a];
    assert (attempts + [a])[..|attempts|] == attempts;
    OpenPeersFacts(j, attempts);
  }

  lemma RevokeAgain(j: Job, ps: set<PeerID>, p: PeerID)
    requires Conserved(j)
    ensures Revoke(Revoke(j, ps), {p}) == Revoke(j, ps + {p})
  {
    RevokeTwice(j, ps, {p});
  }

  /** The loop visited each chat once. */
  predicate SendsOf(chats: map<PeerID, PeerChat>, sends: seq<Send>) {
    && (forall i, k | 0 <= i < k < |sends| :: sends[i].peer != sends[k].peer)
    && (set s | s in sends :: s.peer) == chats.Keys
  }

  /** The chats in the middle of a query for "cmd": a peer in "sent" has been instructed once
      more than before, with the command under its chat's own channel ID; what "got" holds for
      a peer was pulled from its chat and carries the number of that very command. */
  ghost predicate Exchanging(before: map<nat, Chat.Wire>, now: map<nat, Chat.Wire>, chats: map<PeerID, PeerChat>,
                             cmd: SMCCmd, sent: set<PeerID>, got: map<PeerID, CmdResult>) {
    && before.Keys == now.Keys
    && (forall p | p in chats ::
          && chats[p].line in before
          && Exchanged(before[chats[p].line], now[chats[p].line], cmd.(smcPeerID := chats[p].cid),
                       p in sent, if p in got then Some(got[p]) else None))
    && (forall l <- now | l !in Lines(chats) :: now[l].orders == before[l].orders && now[l].pulled == before[l].pulled)
  }

  /** One line: before the query all its commands were answered. */
  predicate Exchanged(b: Chat.Wire, w: Chat.Wire, cmd: SMCCmd, sent: bool, reply: Option<CmdResult>) {
    && Chat.Quiet(b)
    && w.orders == b.orders + (if sent then [cmd] else [])
    && w.pulled == b.pulled + (if reply.Some? then [Chat.Reply(|b.orders|, reply.value)] else [])
    && (reply.Some? ==> sent)
  }

  ghost predicate OthersAlike(now: map<nat, Chat.Wire>, next: map<nat, Chat.Wire>, line: nat) {
    && now.Keys == next.Keys
    && forall l <- next | l != line :: Chat.Undisturbed(now[l], next[l])
  }

  lemma ExchangeStarts(wires: map<nat, Chat.Wire>, chats: map<PeerID, PeerChat>, cmd: SMCCmd)
    requires forall p | p in chats :: chats[p].line in wires && Chat.Quiet(wires[chats[p].line])
    ensures Exchanging(wires, wires, chats, cmd, {}, map[])
  {
  }

  lemma ExchangeStep(before: map<nat, Chat.Wire>, now: map<nat, Chat.Wire>, next: map<nat, Chat.Wire>,
                     chats: map<PeerID, PeerChat>,
                     cmd: SMCCmd, sent: set<PeerID>, got: map<PeerID, CmdResult>, p: PeerID, sent': set<PeerID>,
                       got': map<PeerID, CmdResult>)
    requires Exchanging(before, now, chats, cmd, sent, got) && Distinct(chats) && p in chats
    requires OthersAlike(now, next, chats[p].line) && chats[p].line in next
    requires Exchanged(before[chats[p].line], next[chats[p].line], cmd.(smcPeerID := chats[p].cid),
                       p in sent', if p in got' then Some(got'[p]) else None)
    requires sent' - {p} == sent - {p} && got' - {p} == got - {p}
    ensures Exchanging(before, next, chats, cmd, sent', got')
  {
    hide Exchanged;
    var line := chats[p].line;
    assert line in Lines(chats);
    forall q | q in chats && q != p
      ensures Exchanged(before[chats[q].line], next[chats[q].line], cmd.(smcPeerID := chats[q].cid),
                        q in sent', if q in got' then Some(got'[q]) else None)
    {
      assert q in sent' - {p} <==> q in sent - {p};
      assert q in got' - {p} <==> q in got - {p};
      assert q in got ==> (got' - {p})[q] == (got - {p})[q];
      StillExchanged(before[chats[q].line], now[chats[q].line], next[chats[q].line], cmd.(smcPeerID := chats[q].cid),
                     q in sent, if q in got then Some(got[q]) else None);
    }
  }

  lemma ExchangedAt(before: map<nat, Chat.Wire>, now: map<nat, Chat.Wire>, chats: map<PeerID, PeerChat>,
                    cmd: SMCCmd, sent: set<PeerID>, got: map<PeerID, CmdResult>, p: PeerID)
    requires Exchanging(before, now, chats, cmd, sent, got) && p in chats
    ensures chats[p].line in before && chats[p].line in now
    ensures Exchanged(before[chats[p].line], now[chats[p].line], cmd.(smcPeerID := chats[p].cid),
                      p in sent, if p in got then Some(got[p]) else None)
  {
  }

  lemma InstructExchanged(b: Chat.Wire, w: Chat.Wire, cmd: SMCCmd)
    requires Exchanged(b, w, cmd, false, None)
    ensures Chat.Quiet(w)
    ensures forall w' | Chat.Undisturbed(w, w') :: Exchanged(b, w', cmd, false, None)
    ensures forall w' | Chat.Undisturbed(Chat.Instructed(w, cmd), w') :: Exchanged(b, w', cmd, true, None)
  {
  }

  lemma PullExchanged(b: Chat.Wire, w: Chat.Wire, w': Chat.Wire, cmd: SMCCmd, sent: bool, resp: Option<CmdResult>)
    requires Exchanged(b, w, cmd, sent, None) && w'.orders == w.orders
    requires resp.Some? ==> !Chat.Quiet(w) && w'.pulled == w.pulled + [Chat.Reply(|w'.orders| - 1, resp.value)]
    requires resp.None? ==> w'.pulled == w.pulled
    ensures Exchanged(b, w', cmd, sent, resp) && (resp.Some? ==> sent)
  {
  }

  lemma StillExchanged(b: Chat.Wire, w: Chat.Wire, w': Chat.Wire, cmd: SMCCmd, sent: bool, reply: Option<CmdResult>)
    requires Exchanged(b, w, cmd, sent, reply) && Chat.Undisturbed(w, w')
    ensures Exchanged(b, w', cmd, sent, reply)
  {
  }

  // What the log of the job says about the channels

  /** The log has every command that was ever sent on a line, one to one and in order, with the
      feedback that was pulled for it. */
  ghost predicate Logged(log: map<nat, seq<Entry>>, wires: map<nat, Chat.Wire>) {
    && log.Keys == wires.Keys
    && forall l <- log :: LineLogged(log[l], wires[l])
  }

  predicate LineLogged(entries: seq<Entry>, w: Chat.Wire) {
    && |entries| == |w.orders|
    && forall i | 0 <= i < |entries| ::
         && entries[i].cmd == w.orders[i]
         && entries[i].reply == if i < |w.pulled| then Some(w.pulled[i].res) else None
  }

  /** Closing changes neither what was instructed on a chat nor what was pulled from it. */
  predicate SameTraffic(before: map<nat, Chat.Wire>, after: map<nat, Chat.Wire>) {
    && before.Keys == after.Keys
    && forall l <- after :: after[l].orders == before[l].orders && after[l].pulled == before[l].pulled
  }

  /** The lines ever opened are those of the network, and closed are those whose channel is. */
  predicate WiresFit(j: Job, wires: map<nat, Chat.Wire>) {
    j.everOpened == wires.Keys && forall l <- wires :: wires[l].closed <==> l in j.closes
  }

  predicate Settled(chats: map<PeerID, PeerChat>, wires: map<nat, Chat.Wire>) {
    forall p | p in chats :: chats[p].line in wires && Chat.Quiet(wires[chats[p].line])
  }

  lemma KnownWires(j: Job, wires: map<nat, Chat.Wire>)
    requires WiresFit(j, wires)
    ensures j.everOpened == wires.Keys
  {
  }

  lemma SameWires(j: Job, j': Job, wires: map<nat, Chat.Wire>)
    requires WiresFit(j, wires) && j'.everOpened == j.everOpened && j'.closes == j.closes
    ensures WiresFit(j', wires)
  {
  }

  lemma OpenedFits(j: Job, p: PeerID, line: nat, cid: ChannelID, before: map<nat, Chat.Wire>,
                   after: map<nat, Chat.Wire>)
    requires Conserved(j) && WiresFit(j, before) && Settled(j.chats, before) && line !in before
    requires after.Keys == before.Keys + {line} && after[line] == Chat.FRESH_WIRE
    requires forall l <- before :: Chat.Undisturbed(before[l], after[l])
    ensures WiresFit(Opened(j, p, line, cid), after) && Settled(Opened(j, p, line, cid).chats, after)
  {
    LinesKnown(j);
    hide Lines, Distinct;
  }

  lemma RevokedFits(j: Job, p: PeerID, wires: map<nat, Chat.Wire>)
    requires Conserved(j) && WiresFit(j, wires) && p in j.chats
    ensures var l := j.chats[p].line;
      && l in wires && !wires[l].closed
      && var after := wires[l := Chat.Closed(wires[l])];
        && WiresFit(Revoke(j, {p}), after) && SameTraffic(wires, after)
        && (Settled(j.chats, wires) ==> Settled(j.chats - {p}, after))
  {
    RevokeOne(j, p);
    LiveLine(j, p);
    hide Conserved, Revoke;
  }

  lemma RestampStep(chats: map<PeerID, PeerChat>, parts: map<ChannelID, PeerID>, cids: seq<ChannelID>, i: nat)
    requires i < |cids| && forall k | 0 <= k < |cids| :: cids[k] in parts
    ensures var p := parts[cids[i]];
      Restamp(chats, parts, cids[i..]) ==
        if p !in chats then (chats, false) else Restamp(chats[p := chats[p].(cid := cids[i])], parts, cids[i + 1..])
  {
    assert cids[i..][1..] == cids[i + 1..];
  }

  lemma RestampEnds(chats: map<PeerID, PeerChat>, parts: map<ChannelID, PeerID>, cids: seq<ChannelID>)
    ensures cids[0..] == cids
    ensures Restamp(chats, parts, cids[|cids|..]) == (chats, true)
  {
  }

  lemma StampSettled(chats: map<PeerID, PeerChat>, p: PeerID, cid: ChannelID, wires: map<nat, Chat.Wire>)
    requires Settled(chats, wires) && p in chats
    ensures Settled(chats[p := chats[p].(cid := cid)], wires)
  {
  }

  lemma UndisturbedFits(j: Job, before: map<nat, Chat.Wire>, after: map<nat, Chat.Wire>)
    requires WiresFit(j, before) && Settled(j.chats, before) && after.Keys == before.Keys
    requires forall l <- before :: Chat.Undisturbed(before[l], after[l])
    ensures WiresFit(j, after) && Settled(j.chats, after)
  {
  }

  lemma LoggedStill(log: map<nat, seq<Entry>>, before: map<nat, Chat.Wire>, after: map<nat, Chat.Wire>)
    requires Logged(log, before) && SameTraffic(before, after)
    ensures Logged(log, after)
  {
  }

  lemma LoggedOpened(log: map<nat, seq<Entry>>, before: map<nat, Chat.Wire>, after: map<nat, Chat.Wire>, line: nat)
    requires Logged(log, before) && line !in before
    requires after.Keys == before.Keys + {line} && after[line] == Chat.FRESH_WIRE
    requires forall l <- before :: Chat.Undisturbed(before[l], after[l])
    ensures Logged(log[line := []], after)
  {
  }

  lemma LoggedUndisturbed(log: map<nat, seq<Entry>>, before: map<nat, Chat.Wire>, after: map<nat, Chat.Wire>)
    requires Logged(log, before) && after.Keys == before.Keys
    requires forall l <- before :: Chat.Undisturbed(before[l], after[l])
    ensures Logged(log, after)
  {
  }

  function SentPeers(sends: seq<Send>): set<PeerID> {
    set s | s in sends && s.ok :: s.peer
  }

  lemma SendNobody()
    ensures Unsent([]) == [] && SentPeers([]) == {} && AllSent([])
  {
  }

  lemma SendOneMore(sends: seq<Send>, s: Send)
    ensures Unsent(sends + [s]) == Unsent(sends) + if s.ok then [] else [s.peer]
    ensures SentPeers(sends + [s]) == if s.ok then SentPeers(sends) + {s.peer} else SentPeers(sends)
    ensures AllSent(sends + [s]) <==> AllSent(sends) && s.ok
  {
    assert (sends + [s])[..|sends|] == sends;
  }

  lemma NotYetSent(order: seq<PeerID>, s: set<PeerID>, sends: seq<Send>)
    requires IsOrder(order, s) && |sends| < |order|
    requires forall i | 0 <= i < |sends| :: sends[i].peer == order[i]
    ensures order[|sends|] !in SentPeers(sends)
  {
  }

  lemma SendsCover(chats: map<PeerID, PeerChat>, sends: seq<Send>, order: seq<PeerID>)
    requires IsOrder(order, chats.Keys) && |sends| == |order|
    requires forall i | 0 <= i < |order| :: sends[i].peer == order[i]
    ensures SendsOf(chats, sends)
  {
    forall p <- chats.Keys ensures exists s :: s in sends && s.peer == p {
      var i :| 0 <= i < |order| && order[i] == p;
      assert sends[i] in sends;
    }
    forall s <- sends ensures s.peer in chats {
      var i :| 0 <= i < |sends| && sends[i] == s;
      assert order[i] in order;
    }
  }

  /** What a query started from: the job, its wires, the command and who got it. */
  datatype QueryState = QueryState(start: Job, before: map<nat, Chat.Wire>, cmd: SMCCmd, sent: set<PeerID>)

  /** The job in the middle of the second loop. */
  function Collecting(start: Job, answers: seq<Answer>): Job {
    Revoke(start.(clean := start.clean + Answered(start.chats, start.progress, answers)), CommPeers(answers))
  }

  /** "got" holds what was pulled so far. */
  predicate GotFrom(answers: seq<Answer>, got: map<PeerID, CmdResult>) {
    && got.Keys <= Visited(answers)
    && forall a <- answers :: if a.peer in got then a.reply == Some(got[a.peer]) else a.reply.None?
  }

  lemma GotOneMore(answers: seq<Answer>, got: map<PeerID, CmdResult>, p: PeerID, resp: Option<CmdResult>)
    requires GotFrom(answers, got) && p !in Visited(answers)
    ensures GotFrom(answers + [Answer(p, resp)], if resp.Some? then got[p := resp.value] else got)
  {
    JobRuns.FailedOneMore(answers, Answer(p, resp));
    forall a <- answers ensures a.peer != p {
      assert a.peer in Visited(answers);
    }
  }

  lemma StillThere(start: Job, answers: seq<Answer>, got: map<PeerID, CmdResult>, p: PeerID)
    requires p in start.chats && p !in Visited(answers) && GotFrom(answers, got)
    ensures p !in got
    ensures p in Collecting(start, answers).chats && Collecting(start, answers).chats[p] == start.chats[p]
  {
    assert CommPeers(answers) <= Visited(answers);
  }

  lemma CommOneMore(chats: map<PeerID, PeerChat>, phase: nat, answers: seq<Answer>, a: Answer)
    ensures CommPeers(answers + [a]) == CommPeers(answers) + if CommFailed(a.reply) then {a.peer} else {}
    ensures Failed(a.reply) ==> Answered(chats, phase, answers + [a]) == Answered(chats, phase, answers)
  {
  }

  lemma CollectOneMore(start: Job, answers: seq<Answer>, a: Answer)
    requires Conserved(start) && a.peer in start.chats
    ensures var now, next := Collecting(start, answers), Collecting(start, answers + [a]);
      if CommFailed(a.reply) then next == Revoke(now, {a.peer})
      else if Failed(a.reply) then next == now
      else next == now.(clean := next.clean)
  {
    hide Conserved, CommPeers, Answered, CommFailed, Failed, Lines, Only;
    ErrFlagClassifies(a.reply);
    CommOneMore(start.chats, start.progress, answers, a);
    var j := start.(clean := start.clean + Answered(start.chats, start.progress, answers));
    LedgerConserves(start, j.asked, j.clean);
    RevokeAgain(j, CommPeers(answers), a.peer);
    assert CommPeers(answers) + {} == CommPeers(answers);
  }

  lemma SameTrafficKeepsExchange(q: QueryState, now: map<nat, Chat.Wire>, next: map<nat, Chat.Wire>, got: map<PeerID,
                                 CmdResult>)
    requires Exchanging(q.before, now, q.start.chats, q.cmd, q.sent, got) && SameTraffic(now, next)
    ensures Exchanging(q.before, next, q.start.chats, q.cmd, q.sent, got)
  {
  }

  lemma SameTrafficSelf(wires: map<nat, Chat.Wire>)
    ensures SameTraffic(wires, wires)
  {
  }

  lemma ClosingIsNoTraffic(before: map<nat, Chat.Wire>, now: map<nat, Chat.Wire>, line: nat)
    requires SameTraffic(before, now) && line in now
    ensures SameTraffic(before, now[line := Chat.Closed(now[line])])
  {
  }

  lemma SameTrafficTwice(before: map<nat, Chat.Wire>, now: map<nat, Chat.Wire>, after: map<nat, Chat.Wire>)
    requires SameTraffic(before, now) && SameTraffic(now, after)
    ensures SameTraffic(before, after)
  {
  }

  lemma NothingCollected(start: Job, flags: Flags)
    ensures Collecting(start, []) == start && GotFrom([], map[]) && AllAnswer([])
    ensures Replies([]) == [] && Failing([]) == [] && Handled(flags, [])
  {
    RevokeNone(start);
    assert start.(clean := start.clean + {}) == start;
  }

  lemma NotYetVisited(order: seq<PeerID>, s: set<PeerID>, answers: seq<Answer>)
    requires IsOrder(order, s) && |answers| < |order|
    requires forall i | 0 <= i < |answers| :: answers[i].peer == order[i]
    ensures order[|answers|] !in Visited(answers)
  {
  }

  lemma AnswerOneMore(flags: Flags, answers: seq<Answer>, a: Answer)
    ensures a.reply.None? ==> Failed(a.reply)
    ensures Replies(answers + [a]) == if Failed(a.reply) then Replies(answers) else Replies(answers) + [a.reply.value]
    ensures Failing(answers + [a]) == if Failed(a.reply) then Failing(answers) + [a.peer] else Failing(answers)
    ensures Handled(flags, answers + [a]) <==>
      Handled(flags, answers) && (Failed(a.reply) ==> Includes(flags, ErrFlag(a.reply)))
    ensures AllAnswer(answers + [a]) <==> AllAnswer(answers) && a.reply.Some?
  {
    assert (answers + [a])[..|answers|] == answers;
    JobRuns.HandledOneMore(flags, answers, a);
  }

  lemma AnswersCover(chats: map<PeerID, PeerChat>, answers: seq<Answer>, order: seq<PeerID>)
    requires IsOrder(order, chats.Keys) && |answers| == |order|
    requires forall i | 0 <= i < |order| :: answers[i].peer == order[i]
    ensures JobRuns.EachOnce(answers) && Visited(answers) == chats.Keys
  {
    forall p <- chats.Keys ensures p in Visited(answers) {
      var i :| 0 <= i < |order| && order[i] == p;
      assert answers[i] in answers;
    }
    forall a <- answers ensures a.peer in chats {
      var i :| 0 <= i < |answers| && answers[i] == a;
      assert order[i] in order;
    }
  }

  /** After the query a chat that is still there owes nothing. */
  lemma QuietAgain(q: QueryState, wires: map<nat, Chat.Wire>, answers: seq<Answer>, got: map<PeerID, CmdResult>)
    requires Visited(answers) == q.start.chats.Keys && GotFrom(answers, got)
    requires Exchanging(q.before, wires, q.start.chats, q.cmd, q.sent, got)
    ensures var chats := Collecting(q.start, answers).chats;
      forall p | p in chats :: chats[p].line in wires && Chat.Quiet(wires[chats[p].line])
  {
    var chats := Collecting(q.start, answers).chats;
    forall p | p in chats ensures chats[p].line in wires && Chat.Quiet(wires[chats[p].line]) {
      StayedIsGot(q, answers, got, p);
      assert Exchanged(q.before[chats[p].line], wires[chats[p].line], q.cmd.(smcPeerID := chats[p].cid), p in q.sent,
                       Some(got[p]));
    }
  }

  lemma StayedIsGot(q: QueryState, answers: seq<Answer>, got: map<PeerID, CmdResult>, p: PeerID)
    requires Visited(answers) == q.start.chats.Keys && GotFrom(answers, got) && p in Collecting(q.start, answers).chats
    ensures p in q.start.chats && Collecting(q.start, answers).chats[p] == q.start.chats[p] && p in got
  {
    assert p in Visited(answers);
    var a :| a in answers && a.peer == p;
    assert CommFailed(a.reply) ==> p in CommPeers(answers);
  }

  /** Comparing the accumulated flags once and revoking the failing peers, if need be once
      more, is what Query and QueryError say. */
  lemma QueryOutcome(j: Job, q: QueryState, x: Exchange, got: map<PeerID, CmdResult>, acc: Flags, errPeers: seq<PeerID>)
    requires Conserved(j) && q.start == j.(asked := j.asked + Asked(j.chats, j.progress, x.sends))
    requires SendsOf(j.chats, x.sends) && q.sent == SentPeers(x.sends)
    requires JobRuns.EachOnce(x.answers) && Visited(x.answers) == j.chats.Keys
    requires GotFrom(x.answers, got) && got.Keys <= q.sent
    requires errPeers == Unsent(x.sends) + Failing(x.answers)
    requires Includes(j.handleErrFlags, acc) <==>
      Includes(j.handleErrFlags, if Unsent(x.sends) == [] then 0 else STREAM_ERR)
        && Handled(j.handleErrFlags, x.answers)
    ensures ExchangeOf(j.chats, x)
    ensures Includes(j.handleErrFlags, acc) ==> Query(j, x) == Collecting(q.start, x.answers)
    ensures !Includes(j.handleErrFlags, acc) ==>
      Query(j, x) == Revoke(Collecting(q.start, x.answers), set p | p in errPeers)
    ensures QueryError(j, x) ==
      if !Includes(j.handleErrFlags, acc) then Some(PeerError(Aborted, j.progress, errPeers))
      else if |errPeers| > 0 then Some(PeerError(Halted, j.progress, errPeers))
      else None
  {
    hide Includes, Unsent, Failing, Replies, Asked, Answered, SendsOf, JobRuns.EachOnce, Visited, GotFrom,
         FailedPeers, CommPeers, Revoke, Handled, ExchangeOf;
    ExchangeIs(j, q, x, got);
    DecisionIs(j, x, acc);
    NamesFailed(j, x, errPeers);
    RevokedFailed(j, q.start, x);
  }

  lemma NamesFailed(j: Job, x: Exchange, errPeers: seq<PeerID>)
    requires ExchangeOf(j.chats, x) && errPeers == Unsent(x.sends) + Failing(x.answers)
    ensures (set p | p in errPeers) == FailedPeers(x.answers)
    ensures |errPeers| > 0 <==> FailedPeers(x.answers) != {}
  {
    hide FailedPeers, ExchangeOf;
    forall p ensures p in errPeers <==> p in FailedPeers(x.answers) {
      JobRuns.NamedPeers(j, x, p);
    }
    if |errPeers| > 0 {
      assert errPeers[0] in errPeers;
    }
  }

  lemma RevokedFailed(j: Job, start: Job, x: Exchange)
    requires Conserved(j) && start == j.(asked := j.asked + Asked(j.chats, j.progress, x.sends))
    ensures Query(j, x) ==
      if Handled(j.handleErrFlags, x.answers) then Collecting(start, x.answers)
      else Revoke(Collecting(start, x.answers), FailedPeers(x.answers))
  {
    hide Asked, Answered, Revoke, Handled, FailedPeers, CommPeers;
    JobRuns.CommAmongFailed(x.answers);
    var j1 := start.(clean := j.clean + Answered(j.chats, j.progress, x.answers));
    LedgerConserves(j, j1.asked, j1.clean);
    RevokeTwice(j1, CommPeers(x.answers), FailedPeers(x.answers));
    assert CommPeers(x.answers) + FailedPeers(x.answers) == FailedPeers(x.answers);
  }

  lemma ExchangeIs(j: Job, q: QueryState, x: Exchange, got: map<PeerID, CmdResult>)
    requires SendsOf(j.chats, x.sends) && q.sent == SentPeers(x.sends)
    requires JobRuns.EachOnce(x.answers) && Visited(x.answers) == j.chats.Keys
    requires GotFrom(x.answers, got) && got.Keys <= q.sent
    ensures ExchangeOf(j.chats, x)
  {
    forall s <- x.sends, a <- x.answers | s.peer == a.peer && !s.ok ensures a.reply.None? {
      assert s.peer !in q.sent;
    }
  }

  lemma {:induction false} UnsentExists(sends: seq<Send>)
    requires Unsent(sends) != []
    ensures exists s :: s in sends && !s.ok
  {
    var n := |sends| - 1;
    assert sends[n] in sends;
    if sends[n].ok {
      UnsentExists(sends[..n]);
    }
  }

  lemma DecisionIs(j: Job, x: Exchange, acc: Flags)
    requires ExchangeOf(j.chats, x)
    requires Includes(j.handleErrFlags, acc) <==>
      Includes(j.handleErrFlags, if Unsent(x.sends) == [] then 0 else STREAM_ERR)
        && Handled(j.handleErrFlags, x.answers)
    ensures Includes(j.handleErrFlags, acc) <==> Handled(j.handleErrFlags, x.answers)
    ensures !Handled(j.handleErrFlags, x.answers) ==> FailedPeers(x.answers) != {}
  {
    if a :| a in x.answers && Failed(a.reply) && !Includes(j.handleErrFlags, ErrFlag(a.reply)) {
      assert a.peer in FailedPeers(x.answers);
    }
    assert Includes(j.handleErrFlags, 0);
    hide Includes;
    if Unsent(x.sends) != [] && Handled(j.handleErrFlags, x.answers) {
      UnsentExists(x.sends);
      var s :| s in x.sends && !s.ok;
      assert s.peer in (set t | t in x.sends :: t.peer);
      assert s.peer in Visited(x.answers);
      var a :| a in x.answers && a.peer == s.peer;
      assert a.reply.None? && Failed(a.reply);
    }
  }

  lemma FeedbackConserves(j: Job, feedback: Feedback, lastErr: Option<PeerError>)
    requires Conserved(j)
    ensures Conserved(j.(feedback := feedback, lastErr := lastErr))
  {
  }

  lemma ProgressConserves(j: Job)
    requires Conserved(j)
    ensures Conserved(j.(progress := j.progress + 1))
  {
  }

  lemma QueueConserves(j: Job, queued: bool)
    requires Conserved(j)
    ensures Conserved(j.(queued := queued))
  {
  }

  lemma StampConserves(j: Job, p: PeerID, cid: ChannelID)
    requires Conserved(j) && p in j.chats
    ensures Conserved(j.(chats := j.chats[p := j.chats[p].(cid := cid)]))
  {
    JobLifetime.SameLinesConserve(j, j.chats[p := j.chats[p].(cid := cid)]);
  }

  lemma RenewConserves(j: Job, feedback: Feedback, instr: Instr, flags: Flags)
    requires Conserved(j)
    ensures Conserved(j.(feedback := feedback, lastErr := None, instr := instr, handleErrFlags := flags))
  {
  }

  lemma QueryFrame(j: Job, x: Exchange)
    ensures Query(j, x).feedback == j.feedback && Query(j, x).progress == j.progress
  {
  }

  lemma DeliverNothing(j: Job)
    ensures Deliver(j, []) == j
  {
    assert j.feedback.items + Tagged(j.progress, []) == j.feedback.items;
  }

  lemma DeliverOneMore(j: Job, rs: seq<CmdResult>, i: nat)
    requires i < |rs|
    ensures Deliver(Deliver(j, rs[..i]), [rs[i]]) == Deliver(j, rs[..i + 1])
  {
    assert Tagged(j.progress, rs[..i + 1]) == Tagged(j.progress, rs[..i]) + Tagged(j.progress, [rs[i]]);
  }

  lemma QueuedAttempts(j: Job, attempts: seq<Attempt>)
    requires AttemptsOf(j.(queued := false), attempts)
    ensures AttemptsOf(j, attempts)
    ensures forall a <- attempts :: a.cid in j.instr.participants
  {
    forall a <- attempts ensures a.cid in j.instr.participants {
      assert a.cid in (set b | b in attempts :: b.cid);
    }
  }

  lemma OpenPeersFrame(j: Job, attempts: seq<Attempt>)
    requires forall a <- attempts :: a.cid in j.instr.participants
    ensures var j1 := OpenPeers(j, attempts).0;
      j1.feedback == j.feedback && j1.progress == j.progress && j1.instr == j.instr
        && j1.handleErrFlags == j.handleErrFlags
  {
    OpenPeersFacts(j, attempts);
  }

  /** After so many turns of opening: who is missing, and who has a chat. */
  ghost predicate Sought(j: Job, order: seq<ChannelID>, i: nat, missing: seq<PeerID>, connected: set<PeerID>,
                         ready: set<PeerID>)
  {
    && i <= |order|
    && (forall p <- missing :: p in j.instr.participants.Values && p !in j.chats && p !in ready)
    && (forall p <- connected :: p in j.chats || p in ready)
    && (forall p <- j.chats :: p in connected)
    && (forall k | 0 <= k < i :: order[k] in j.instr.participants
          && (j.instr.participants[order[k]] in connected || j.instr.participants[order[k]] in missing))
  }

  lemma SoughtNobody(j: Job, order: seq<ChannelID>, ready: set<PeerID>)
    ensures Sought(j, order, 0, [], j.chats.Keys, ready)
  {
  }

  lemma SoughtOneMore(j: Job, order: seq<ChannelID>, i: nat, missing: seq<PeerID>, connected: set<PeerID>,
                      ready: set<PeerID>)
    requires Sought(j, order, i, missing, connected, ready) && i < |order| && order[i] in j.instr.participants
    ensures var p := j.instr.participants[order[i]];
      && (p in connected ==> Sought(j, order, i + 1, missing, connected, ready))
      && (p in ready ==> Sought(j, order, i + 1, missing, connected + {p}, ready))
      && (p !in connected && p !in ready ==> Sought(j, order, i + 1, missing + [p], connected, ready))
  {
  }

  lemma SoughtAll(j: Job, order: seq<ChannelID>, missing: seq<PeerID>, connected: set<PeerID>, ready: set<PeerID>)
    requires Sought(j, order, |order|, missing, connected, ready) && IsOrder(order, j.instr.participants.Keys)
    ensures Misses(j, missing, ready)
  {
    forall p | p in j.instr.participants.Values && p !in j.chats && p !in ready ensures p in missing {
      var cid := KeyOf(j.instr.participants, p);
      assert cid in order;
      var k :| 0 <= k < |order| && order[k] == cid;
    }
  }

  lemma DeliveredOneMore(xs: seq<Exchange>, x: Exchange)
    ensures AllDelivered(xs + [x]) <==> AllDelivered(xs) && Delivered(x)
  {
    hide Delivered;
    assert forall y <- xs :: y in xs + [x];
    assert x in xs + [x];
  }

  lemma PhasesNone(j: Job)
    ensures PhasesOf(j, []) && Phases(j, []) == j
  {
  }

  lemma PhasesOneMore(j: Job, xs: seq<Exchange>, x: Exchange)
    requires PhasesOf(j, xs) && !Phases(j, xs).feedback.closed
    requires Phases(j, xs).progress < |Phases(j, xs).instr.tasks| && ExchangeOf(Phases(j, xs).chats, x)
    ensures PhasesOf(j, xs + [x]) && Phases(j, xs + [x]) == Phase(Phases(j, xs), x)
  {
    hide Phase, ExchangeOf;
    assert (xs + [x])[..|xs|] == xs;
  }

  // The log of a query

  lemma {:induction false} ReplyOfVisited(answers: seq<Answer>, got: map<PeerID, CmdResult>, p: PeerID)
    requires forall a <- answers :: if a.peer in got then a.reply == Some(got[a.peer]) else a.reply.None?
    requires p in Visited(answers) || p !in got
    ensures ReplyOf(answers, p) == if p in got then Some(got[p]) else None
  {
    if answers != [] {
      var n := |answers| - 1;
      assert answers[n] in answers;
      if answers[n].peer != p {
        forall a <- answers[..n] ensures a in answers {
        }
        if p in Visited(answers) {
          var a :| a in answers && a.peer == p;
          assert a in answers[..n];
        }
        ReplyOfVisited(answers[..n], got, p);
      }
    }
  }

  /** The line of a chat hears one command at most. */
  lemma {:induction false} TalkOnChat(j: Job, cmd: SMCCmd, sends: seq<Send>, answers: seq<Answer>, p: PeerID)
    requires Distinct(j.chats) && forall i, k | 0 <= i < k < |sends| :: sends[i].peer != sends[k].peer
    requires p in j.chats
    ensures TalkOn(j, cmd, sends, answers, j.chats[p].line) ==
      if p in SentPeers(sends) then [Entry(j.progress, cmd.(smcPeerID := j.chats[p].cid), ReplyOf(answers, p))] else []
  {
    if sends != [] {
      var n := |sends| - 1;
      TalkOnChat(j, cmd, sends[..n], answers, p);
      assert sends == sends[..n] + [sends[n]];
      SendOneMore(sends[..n], sends[n]);
      if p in SentPeers(sends[..n]) {
        var s :| s in sends[..n] && s.ok && s.peer == p;
        assert sends[n].peer != p;
      }
    }
  }

  /** A line without a chat hears nothing. */
  lemma {:induction false} TalkNowhere(j: Job, cmd: SMCCmd, sends: seq<Send>, answers: seq<Answer>, l: nat)
    requires l !in Lines(j.chats)
    ensures TalkOn(j, cmd, sends, answers, l) == []
  {
    if sends != [] {
      TalkNowhere(j, cmd, sends[..|sends| - 1], answers, l);
    }
  }

  lemma LoggedSpoken(j: Job, cmd: SMCCmd, x: Exchange, before: map<nat, Chat.Wire>, now: map<nat, Chat.Wire>,
                     got: map<PeerID, CmdResult>)
    requires Logged(j.log, before) && Exchanging(before, now, j.chats, cmd, SentPeers(x.sends), got)
    requires Distinct(j.chats) && SendsOf(j.chats, x.sends)
    requires Visited(x.answers) == j.chats.Keys && GotFrom(x.answers, got)
    ensures Logged(Spoken(j, cmd, x), now)
  {
    hide TalkOn, ReplyOf, Visited, SentPeers, LineLogged, Exchanged;
    var log := Spoken(j, cmd, x);
    forall l <- log ensures LineLogged(log[l], now[l]) {
      if l !in Lines(j.chats) {
        TalkNowhere(j, cmd, x.sends, x.answers, l);
        assert log[l] == j.log[l];
        LineStill(j.log[l], before[l], now[l]);
      } else {
        var p :| p in j.chats && j.chats[p].line == l;
        TalkOnChat(j, cmd, x.sends, x.answers, p);
        ReplyOfVisited(x.answers, got, p);
        var entry := Entry(j.progress, cmd.(smcPeerID := j.chats[p].cid), ReplyOf(x.answers, p));
        LineSpoken(j.log[l], before[l], now[l], entry, p in SentPeers(x.sends));
      }
    }
  }

  lemma LineStill(entries: seq<Entry>, b: Chat.Wire, w: Chat.Wire)
    requires LineLogged(entries, b) && w.orders == b.orders && w.pulled == b.pulled
    ensures LineLogged(entries, w)
  {
  }

  lemma LineSpoken(entries: seq<Entry>, b: Chat.Wire, w: Chat.Wire, e: Entry, sent: bool)
    requires LineLogged(entries, b) && Exchanged(b, w, e.cmd, sent, e.reply)
    ensures LineLogged(entries + if sent then [e] else [], w)
  {
  }

  lemma RevokeWithLog(j: Job, ps: set<PeerID>, log: map<nat, seq<Entry>>)
    ensures Revoke(j.(log := log), ps) == Revoke(j, ps).(log := log)
    ensures Conserved(j) ==> Conserved(j.(log := log))
  {
  }
}
