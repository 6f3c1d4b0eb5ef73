/** orchestration/worker/job.go and processJob of comm.go as they are written: an object whose
    methods update its fields and drive the channels, visiting maps in any order. Each method
    is proved against the function of JobModel for it; what the peers did in the meantime is
    returned as a ghost result. */
module JobEngine {
  import opened MapOrder
  import opened Protocol
  import Chat
  import opened Channels
  import opened JobModel
  import opened JobInvariant
  import opened JobSteps
  import JobHistory
  import JobRuns
  import JobLifetime
  import JobTraffic

  class ActiveJob {
    const net: Network
    var ctx: Context
    var instr: Instr
    var handleErrFlags: Flags
    var progress: nat
    var chats: map<PeerID, PeerChat>
    var feedback: Feedback
    var lastErr: Option<PeerError>

    /** The job as a value of JobModel. */
    ghost var view: Job

    /** The job as it was submitted, and what has been done with it since. */
    ghost const origin: Job
    ghost var acts: seq<JobHistory.Action>

    /** No reschedule has named a peer that was no participant before. */
    ghost var shrunk: bool

    /** The fields are those of the view, the lines ever opened are those of the network, and
        the lines closed are those whose channel is. */
    ghost predicate Tied()
      reads `view, `instr, `handleErrFlags, `progress, `chats, `feedback, `lastErr, net
    {
      && view.instr == instr && view.handleErrFlags == handleErrFlags && view.progress == progress
      && view.chats == chats && view.feedback == feedback && view.lastErr == lastErr
      && WiresFit(view, net.wires)
    }

    ghost predicate Sound()
      reads `view, `instr, `handleErrFlags, `progress, `chats, `feedback, `lastErr, net
    {
      net.Valid() && Tied() && Conserved(view)
    }

    /** No live chat owes an answer. */
    ghost predicate Calm()
      reads `view, `instr, `handleErrFlags, `progress, `chats, `feedback, `lastErr, net
    {
      Sound() && Settled(chats, net.wires)
    }

    /** Between two queries the log has everything that was ever sent on the channels, and pulled
        from them. */
    ghost predicate Valid()
      reads `view, `instr, `handleErrFlags, `progress, `chats, `feedback, `lastErr, net
    {
      Calm() && Logged(view.log, net.wires)
    }

    /** The object is where a history of JobHistory leads. */
    ghost predicate Lived()
      reads this
    {
      origin == NewJob(origin.instr, origin.handleErrFlags) && JobHistory.History(origin, acts, view, shrunk)
    }

    /** newJob */
    constructor (ctx: Context, instr: Instr, flags: Flags)
      ensures Valid() && fresh(net) && this.ctx == ctx
      ensures view == origin == NewJob(instr, flags) && acts == [] && shrunk && Lived()
    {
      net := new Network();
      this.ctx, this.instr, this.handleErrFlags := ctx, instr, flags;
      progress, chats, feedback, lastErr := 0, map[], Feedback(0, [], false), None;
      view, origin, acts, shrunk := NewJob(instr, flags), NewJob(instr, flags), [], true;
    }

    method IsJobHalted() returns (halted: bool)
      requires Tied()
      ensures halted == IsHalted(view)
    {
      if lastErr.Some? {
        return lastErr.value.status == Halted;
      }
      return false;
    }

    method RevokePeerChat(p: PeerID)
      requires Sound()
      modifies this`chats, this`view, net
      ensures Sound() && (old(Valid()) ==> Valid())
      ensures view == Revoke(old(view), {p})
      ensures SameTraffic(old(net.wires), net.wires)
    {
      hide Conserved, Revoke, Chat.Inv, Logged, WiresFit, Settled, SameTraffic;
      RevokeConserves(view, {p});
      if p in chats {
        RevokedFits(view, p, net.wires);
        RevokeOne(view, p);
        net.Close(chats[p].line);
        view := Revoke(view, {p});
        chats := chats - {p};
      } else {
        SameTrafficSelf(net.wires);
        RevokeAbsent(view, p);
      }
      if old(Valid()) {
        LoggedStill(view.log, old(net.wires), net.wires);
      }
    }

    method RevokePeerChats(peers: seq<PeerID>)
      requires Valid()
      modifies this`chats, this`view, net
      ensures Valid() && view == Revoke(old(view), set p | p in peers)
      ensures SameTraffic(old(net.wires), net.wires)
    {
      hide Conserved, Revoke, SameTraffic;
      RevokeNone(view);
      SameTrafficSelf(net.wires);
      ghost var done: set<PeerID> := {};
      for i := 0 to |peers|
        invariant Valid() && done == (set p | p in peers[..i])
        invariant view == Revoke(old(view), done)
        invariant SameTraffic(old(net.wires), net.wires)
      {
        ghost var now := net.wires;
        RevokeAgain(old(view), done, peers[i]);
        RevokePeerChat(peers[i]);
        SameTrafficTwice(old(net.wires), now, net.wires);
        done := done + {peers[i]};
      }
      assert peers[..|peers|] == peers;
    }

    method CloseUnusedChats()
      requires Valid()
      modifies this`chats, this`view, net
      ensures Valid() && view == CloseUnused(old(view))
    {
      hide Conserved, Revoke;
      RevokeNone(view);
      var order := AnyOrder(chats.Keys);
      ghost var unused: set<PeerID> := {};
      for i := 0 to |order|
        invariant Valid() && view == Revoke(old(view), unused)
        invariant unused == set k | 0 <= k < i && order[k] !in instr.participants.Values :: order[k]
      {
        var needed := IsParticipant(order[i]);
        if !needed {
          RevokeAgain(old(view), unused, order[i]);
          RevokePeerChat(order[i]);
          unused := unused + {order[i]};
        }
      }
      assert unused == old(view).chats.Keys - instr.participants.Values;
    }

    /** The inner loop of closeUnusedChats. */
    method IsParticipant(p: PeerID) returns (needed: bool)
      ensures needed <==> p in instr.participants.Values
    {
      var cids := AnyOrder(instr.participants.Keys);
      needed := false;
      for i := 0 to |cids|
        invariant forall k | 0 <= k < i :: instr.participants[cids[k]] != p
      {
        assert cids[i] in cids;
        if p == instr.participants[cids[i]] {
          return true;
        }
      }
      assert forall cid <- instr.participants.Keys :: cid in cids;
    }

    method CloseAllChats()
      requires Valid()
      modifies this`chats, this`view, net
      ensures Valid() && view == CloseAll(old(view))
      ensures SameTraffic(old(net.wires), net.wires)
    {
      hide Conserved, Revoke, Chat.Inv, SameTraffic, IsOrder, Before, Closing, Logged, WiresFit;
      ghost var before := view;
      RevokeNone(before);
      SameTrafficSelf(net.wires);
      var order := AnyOrder(chats.Keys);
      BeforeEnds(order, chats.Keys);
      StartClosing();
      for i := 0 to |order|
        invariant Closing(before, Before(order, i)) && SameTraffic(old(net.wires), net.wires)
      {
        BeforeNext(order, before.chats.Keys, i);
        CloseNext(order[i], before, Before(order, i), old(net.wires));
      }
      RevokeShape(before, Before(order, |order|));
      EndClosing(before, Before(order, |order|));
      LoggedStill(view.log, old(net.wires), net.wires);
      chats := map[];
    }

    /** In the middle of closing: the channels of these peers are closed, but they are still in
        the chats map. */
    ghost predicate Closing(before: Job, done: set<PeerID>)
      reads this, net
    {
      && net.Valid() && view == Revoke(before, done) && Conserved(view)
      && chats == before.chats && WiresFit(view, net.wires)
    }

    lemma StartClosing()
      requires Sound()
      ensures Closing(view, {})
    {
      RevokeNone(view);
    }

    lemma EndClosing(before: Job, done: set<PeerID>)
      requires Closing(before, done)
      ensures net.Valid() && view == Revoke(before, done) && Conserved(view) && WiresFit(view, net.wires)
    {
    }

    /** The body of the loop in closeAllChats. */
    method CloseNext(p: PeerID, ghost before: Job, ghost done: set<PeerID>, ghost start: map<nat, Chat.Wire>)
      requires Conserved(before) && Closing(before, done) && p in before.chats && p !in done
      requires SameTraffic(start, net.wires)
      modifies this`view, net
      ensures Closing(before, done + {p}) && SameTraffic(start, net.wires)
    {
      hide Conserved, Revoke, Chat.Inv, SameTraffic;
      CloseOneMore(before, done, p);
      ClosingIsNoTraffic(start, net.wires, chats[p].line);
      net.Close(chats[p].line);
      view := Revoke(before, done + {p});
    }

    /** The body of the loop in openPeerChats for a peer without a chat. */
    method OpenChat(p: PeerID, cid: ChannelID, ready: bool, prep: Context) returns (line: Option<nat>)
      requires Valid() && p !in chats
      modifies this`chats, this`view, net, prep
      ensures Valid()
      ensures view == if line.None? then old(view) else Opened(old(view), p, line.value, cid)
      ensures line.Some? ==> line.value !in old(view).everOpened
      ensures chats.Keys == old(chats).Keys + if line.Some? then {p} else {}
      ensures (line.Some? <==> ready) && (line.None? ==> prep.done) && (old(prep.done) ==> prep.done)
    {
      hide Conserved, Chat.Inv, Logged, WiresFit, Settled;
      KnownWires(view, net.wires);
      line := net.RequestChat(ready, prep);
      if line.Some? {
        AddChatConserves(view, p, PeerChat(p, line.value, cid));
        OpenedFits(view, p, line.value, cid, old(net.wires), net.wires);
        LoggedOpened(view.log, old(net.wires), net.wires, line.value);
        chats := chats[p := PeerChat(p, line.value, cid)];
        view := Opened(view, p, line.value, cid);
      } else {
        UndisturbedFits(view, old(net.wires), net.wires);
        LoggedUndisturbed(view.log, old(net.wires), net.wires);
      }
    }

    /** openPeerChats. "ready" are the peers of which a handler would take a chat in time. */
    method OpenPeerChats(prep: Context, ready: set<PeerID>)
      returns (err: Option<PeerError>, ghost attempts: seq<Attempt>)
      requires Valid()
      modifies this`chats, this`view, net, prep
      ensures Valid()
      ensures AttemptsOf(old(view), attempts)
      ensures view == OpenPeers(old(view), attempts).0
      ensures var missing := OpenPeers(old(view), attempts).1;
        err == if missing == [] then None else Some(OpenError(old(view), missing))
      ensures Misses(old(view), OpenPeers(old(view), attempts).1, ready)
      ensures (err.Some? ==> prep.done) && (old(prep.done) ==> prep.done)
    {
      hide Conserved, Chat.Inv, OpenPeers, AttemptsOf, FreshUpTo, WiresFit, Settled, Logged, IsOrder, Sought,
           Misses;
      var errPeers: seq<PeerID> := [];
      attempts := [];
      OpenNobody(view);
      var order := AnyOrder(instr.participants.Keys);
      OrderMembers(order, instr.participants.Keys);
      SoughtNobody(view, order, ready);
      for i := 0 to |order|
        invariant Sought(old(view), order, i, errPeers, chats.Keys, ready)
        invariant Valid() && view == old(view).(chats := view.chats, everOpened := view.everOpened, log := view.log)
        invariant |attempts| == i && forall k | 0 <= k < i :: attempts[k].cid == order[k]
        invariant forall a <- attempts :: a.cid in instr.participants
        invariant OpenPeers(old(view), attempts) == (view, errPeers)
        invariant FreshUpTo(old(view), attempts, view.everOpened)
        invariant (errPeers != [] ==> prep.done) && (old(prep.done) ==> prep.done)
      {
        var cid := order[i];
        var p := instr.participants[cid];
        SoughtOneMore(old(view), order, i, errPeers, chats.Keys, ready);
        if p in chats {
          OpenOneMore(old(view), attempts, Attempt(cid, None));
          FreshOneMore(old(view), attempts, view.everOpened, Attempt(cid, None));
          attempts := attempts + [Attempt(cid, None)];
        } else {
          ghost var lines := view.everOpened;
          var line := OpenChat(p, cid, p in ready, prep);
          FreshOneMore(old(view), attempts, lines, Attempt(cid, line));
          OpenOneMore(old(view), attempts, Attempt(cid, line));
          if line.None? {
            errPeers := errPeers + [p];
          }
          attempts := attempts + [Attempt(cid, line)];
        }
      }
      AttemptsCover(old(view), attempts, order, view.everOpened);
      SoughtAll(old(view), order, errPeers, chats.Keys, ready);
      if errPeers != [] {
        var status := if handleErrFlags & ERR_CLASS_COMM > 0 then Halted else Aborted;
        err := Some(PeerError(status, progress, errPeers));
      } else {
        err := None;
      }
    }

    /** Instruct on one chat: the command carries the chat's own channel ID. */
    method Instruct(p: PeerID, ctx: Context, cmd: SMCCmd, ghost before: map<nat, Chat.Wire>, ghost sends: seq<Send>)
      returns (ok: bool)
      requires Sound() && p in chats && p !in SentPeers(sends)
      requires Exchanging(before, net.wires, chats, cmd, SentPeers(sends), map[])
      modifies net, ctx
      ensures Sound()
      ensures Exchanging(before, net.wires, chats, cmd, SentPeers(sends + [Send(p, ok)]), map[])
      ensures (!ok ==> ctx.done) && (old(ctx.done) ==> ctx.done)
    {
      hide Conserved, Chat.Inv, SentPeers, Exchanging, Exchanged;
      LinesKnown(view);
      ghost var now := net.wires;
      ExchangedAt(before, now, chats, cmd, SentPeers(sends), map[], p);
      InstructExchanged(before[chats[p].line], now[chats[p].line], cmd.(smcPeerID := chats[p].cid));
      ok := net.Instruct(chats[p].line, cmd.(smcPeerID := chats[p].cid), ctx);
      SendOneMore(sends, Send(p, ok));
      ExchangeStep(before, now, net.wires, chats, cmd, SentPeers(sends), map[], p, SentPeers(sends + [Send(p, ok)]),
        map[]);
    }

    /** The first loop of queryTargetsSync. */
    method Disseminate(ctx: Context, cmd: SMCCmd) returns (acc: Flags, errPeers: seq<PeerID>, ghost sends: seq<Send>)
      requires Valid()
      modifies this`view, net, ctx
      ensures Sound()
      ensures view == old(view).(asked := old(view).asked + Asked(chats, progress, sends))
      ensures SendsOf(chats, sends)
      ensures errPeers == Unsent(sends)
      ensures acc == if errPeers == [] then 0 else STREAM_ERR
      ensures Exchanging(old(net.wires), net.wires, chats, cmd, SentPeers(sends), map[])
      ensures (AllSent(sends) || ctx.done) && (old(ctx.done) ==> ctx.done)
    {
      hide Conserved, Chat.Inv, SendsOf, Asked, IsOrder, AllSent;
      LinesKnown(view);
      ExchangeStarts(net.wires, chats, cmd);
      acc, errPeers, sends := SendAll(ctx, cmd);
      LedgerConserves(view, view.asked + Asked(chats, progress, sends), view.clean);
      view := view.(asked := view.asked + Asked(chats, progress, sends));
    }

    method SendAll(ctx: Context, cmd: SMCCmd) returns (acc: Flags, errPeers: seq<PeerID>, ghost sends: seq<Send>)
      requires Sound() && Exchanging(net.wires, net.wires, chats, cmd, {}, map[])
      modifies net, ctx
      ensures Sound() && SendsOf(chats, sends)
      ensures errPeers == Unsent(sends)
      ensures acc == if errPeers == [] then 0 else STREAM_ERR
      ensures Exchanging(old(net.wires), net.wires, chats, cmd, SentPeers(sends), map[])
      ensures (AllSent(sends) || ctx.done) && (old(ctx.done) ==> ctx.done)
    {
      hide Conserved, Chat.Inv, SendsOf, Unsent, Or, IsOrder, Exchanging, SentPeers, Sound, AllSent;
      acc, errPeers, sends := 0, [], [];
      OrBasics(STREAM_ERR);
      SendNobody();
      var order := AnyOrder(chats.Keys);
      OrderMembers(order, chats.Keys);
      for i := 0 to |order|
        invariant Sound() && |sends| == i
        invariant forall k | 0 <= k < i :: sends[k].peer == order[k]
        invariant errPeers == Unsent(sends) && acc == if errPeers == [] then 0 else STREAM_ERR
        invariant Exchanging(old(net.wires), net.wires, chats, cmd, SentPeers(sends), map[])
        invariant (AllSent(sends) || ctx.done) && (old(ctx.done) ==> ctx.done)
      {
        var p := order[i];
        NotYetSent(order, chats.Keys, sends);
        var ok := Instruct(p, ctx, cmd, old(net.wires), sends);
        if !ok {
          acc := Or(acc, STREAM_ERR);
          errPeers := errPeers + [p];
        }
        SendOneMore(sends, Send(p, ok));
        sends := sends + [Send(p, ok)];
      }
      SendsCover(chats, sends, order);
    }

    /** pullRespUntilDone on one chat: what it takes answers the command of this query. */
    method Pull(p: PeerID, ctx: Context, ghost q: QueryState, ghost got: map<PeerID, CmdResult>)
      returns (resp: Option<CmdResult>)
      requires Sound() && p in chats && p !in got && p in q.start.chats && chats[p] == q.start.chats[p]
      requires Distinct(q.start.chats) && Exchanging(q.before, net.wires, q.start.chats, q.cmd, q.sent, got)
      modifies net, ctx
      ensures Sound()
      ensures Exchanging(q.before, net.wires, q.start.chats, q.cmd, q.sent,
                         if resp.Some? then got[p := resp.value] else got)
      ensures resp.Some? ==> p in q.sent
      ensures (resp.None? ==> ctx.done) && (old(ctx.done) ==> ctx.done)
    {
      hide Conserved, Chat.Inv, Exchanging, Exchanged;
      LinesKnown(view);
      ghost var now := net.wires;
      ExchangedAt(q.before, now, q.start.chats, q.cmd, q.sent, got, p);
      resp := net.PullRespUntilDone(chats[p].line, ctx);
      PullExchanged(q.before[chats[p].line], now[chats[p].line], net.wires[chats[p].line],
                    q.cmd.(smcPeerID := chats[p].cid), p in q.sent, resp);
      ExchangeStep(q.before, now, net.wires, q.start.chats, q.cmd, q.sent, got, p, q.sent, if resp.Some?
        then got[p := resp.value] else got);
    }

    /** The first switch of the second loop. */
    static method Classify(resp: Option<CmdResult>) returns (errFlag: Flags)
      ensures errFlag == ErrFlag(resp)
    {
      hide ErrorClass;
      errFlag := 0;
      if resp.None? {
        errFlag := STREAM_ERR;
      } else if ErrorClass(resp.value.status) != 0 {
        errFlag := ErrorClass(resp.value.status);
      }
    }

    /** The body of the second loop up to the classification: a chat that failed on the
        communication layer is revoked at once. */
    method CollectOne(p: PeerID, ctx: Context, ghost q: QueryState, ghost answers: seq<Answer>, ghost got: map<PeerID,
                      CmdResult>)
      returns (resp: Option<CmdResult>, errFlag: Flags)
      requires Sound() && Conserved(q.start) && view == Collecting(q.start, answers)
      requires p in q.start.chats && p !in Visited(answers) && GotFrom(answers, got)
      requires Exchanging(q.before, net.wires, q.start.chats, q.cmd, q.sent, got)
      modifies this`chats, this`view, net, ctx
      ensures Sound() && view == Collecting(q.start, answers + [Answer(p, resp)])
      ensures errFlag == ErrFlag(resp)
      ensures GotFrom(answers + [Answer(p, resp)], if resp.Some? then got[p := resp.value] else got)
      ensures Exchanging(q.before, net.wires, q.start.chats, q.cmd, q.sent,
                         if resp.Some? then got[p := resp.value] else got)
      ensures resp.Some? ==> p in q.sent
      ensures (resp.None? ==> ctx.done) && (old(ctx.done) ==> ctx.done)
    {
      hide Conserved, Chat.Inv, WiresFit, Settled, Logged, Collecting, ErrFlag, Revoke, Exchanging, ErrorClass,
           HasComm, CommPeers, Answered, GotFrom;
      StillThere(q.start, answers, got, p);
      LinesKnown(q.start);
      resp := Pull(p, ctx, q, got);
      GotOneMore(answers, got, p, resp);
      CollectOneMore(q.start, answers, Answer(p, resp));
      errFlag := Classify(resp);
      ErrFlagClassifies(resp);
      if ErrorClass(errFlag) != 0 {
        if HasComm(errFlag) {
          ghost var now := net.wires;
          RevokePeerChat(p);
          SameTrafficKeepsExchange(q, now, net.wires, if resp.Some? then got[p := resp.value] else got);
        }
      } else {
        MarkClean(Collecting(q.start, answers + [Answer(p, resp)]).clean);
      }
    }

    ghost method MarkClean(clean: set<(nat, nat)>)
      requires Sound()
      modifies this`view
      ensures Sound() && view == old(view).(clean := clean)
    {
      hide Conserved, Chat.Inv, WiresFit;
      LedgerConserves(view, view.asked, clean);
      SameWires(view, view.(clean := clean), net.wires);
      view := view.(clean := clean);
    }

    /** The second loop of queryTargetsSync. */
    method Collect(ctx: Context, ghost q: QueryState, acc0: Flags, errPeers0: seq<PeerID>)
      returns (resps: seq<CmdResult>, acc: Flags, errPeers: seq<PeerID>, ghost answers: seq<Answer>,
        ghost got: map<PeerID, CmdResult>)
      requires Sound() && view == q.start
      requires Exchanging(q.before, net.wires, q.start.chats, q.cmd, q.sent, map[])
      modifies this`chats, this`view, net, ctx
      ensures Calm() && view == Collecting(q.start, answers)
      ensures JobRuns.EachOnce(answers) && Visited(answers) == q.start.chats.Keys
      ensures resps == Replies(answers) && errPeers == errPeers0 + Failing(answers)
      ensures Includes(handleErrFlags, acc) <==> Includes(handleErrFlags, acc0) && Handled(handleErrFlags, answers)
      ensures GotFrom(answers, got) && Exchanging(q.before, net.wires, q.start.chats, q.cmd, q.sent, got)
      ensures got.Keys <= q.sent
      ensures (AllAnswer(answers) || ctx.done) && (old(ctx.done) ==> ctx.done)
    {
      hide Conserved, Chat.Inv, Collecting, Exchanging, ErrorClass, GotFrom, Or, Includes, Handled, Replies, Failing,
           Visited, IsOrder, AllAnswer;
      resps, acc, errPeers, answers, got := [], acc0, errPeers0, [], map[];
      NothingCollected(q.start, handleErrFlags);
      var order := AnyOrder(chats.Keys);
      OrderMembers(order, q.start.chats.Keys);
      for i := 0 to |order|
        invariant Sound() && view == Collecting(q.start, answers) && handleErrFlags == q.start.handleErrFlags
        invariant |answers| == i && forall k | 0 <= k < i :: answers[k].peer == order[k]
        invariant resps == Replies(answers) && errPeers == errPeers0 + Failing(answers)
        invariant Includes(handleErrFlags, acc) <==> Includes(handleErrFlags, acc0) && Handled(handleErrFlags, answers)
        invariant GotFrom(answers, got) && Exchanging(q.before, net.wires, q.start.chats, q.cmd, q.sent, got)
        invariant got.Keys <= q.sent
        invariant (AllAnswer(answers) || ctx.done) && (old(ctx.done) ==> ctx.done)
      {
        var p := order[i];
        NotYetVisited(order, q.start.chats.Keys, answers);
        var resp, errFlag := CollectOne(p, ctx, q, answers, got);
        ErrFlagClassifies(resp);
        AnswerOneMore(handleErrFlags, answers, Answer(p, resp));
        if ErrorClass(errFlag) != 0 {
          IncludesUnion(handleErrFlags, acc, errFlag);
          acc := Or(acc, errFlag);
          errPeers := errPeers + [p];
        } else {
          resps := resps + [resp.value];
        }
        answers := answers + [Answer(p, resp)];
        got := if resp.Some? then got[p := resp.value] else got;
      }
      AnswersCover(q.start.chats, answers, order);
      QuietAgain(q, net.wires, answers, got);
    }

    /** Both loops of queryTargetsSync. */
    method Ask(ctx: Context, cmd: SMCCmd)
      returns (resps: seq<CmdResult>, acc: Flags, errPeers: seq<PeerID>,
               ghost x: Exchange, ghost got: map<PeerID, CmdResult>)
      requires Valid()
      modifies this`chats, this`view, net, ctx
      ensures Valid() && ExchangeOf(old(view).chats, x)
      ensures Query(old(view), x).(log := Spoken(old(view), cmd, x)) ==
        if Includes(handleErrFlags, acc) then view else Revoke(view, set p | p in errPeers)
      ensures resps == Replies(x.answers)
      ensures QueryError(old(view), x) ==
        if !Includes(handleErrFlags, acc) then Some(PeerError(Aborted, old(view).progress, errPeers))
        else if |errPeers| > 0 then Some(PeerError(Halted, old(view).progress, errPeers))
        else None
      ensures GotFrom(x.answers, got)
      ensures Exchanging(old(net.wires), net.wires, old(chats), cmd, SentPeers(x.sends), got)
      ensures (Delivered(x) || ctx.done) && (old(ctx.done) ==> ctx.done)
    {
      hide Conserved, Chat.Inv, Collecting, Exchanging, GotFrom, Or, Includes, Handled, Replies, Failing, Unsent,
           Revoke, ExchangeOf, Asked, Answered, Query, QueryError, Visited, SendsOf, JobRuns.EachOnce, FailedPeers,
           CommPeers, SentPeers, Logged, Spoken, Distinct, AllSent, AllAnswer;
      ghost var sends, answers;
      acc, errPeers, sends := Disseminate(ctx, cmd);
      ghost var q := QueryState(view, old(net.wires), cmd, SentPeers(sends));
      resps, acc, errPeers, answers, got := Collect(ctx, q, acc, errPeers);
      x := Exchange(sends, answers);
      QueryOutcome(old(view), q, x, got, acc, errPeers);
      RevokeWithLog(view, (set p | p in errPeers), Spoken(old(view), cmd, x));
      Record(old(view), old(net.wires), cmd, x, got);
    }

    /** Writes the query into the log. */
    ghost method Record(start: Job, before: map<nat, Chat.Wire>, cmd: SMCCmd, x: Exchange, got: map<PeerID, CmdResult>)
      requires Calm() && Conserved(start) && Logged(start.log, before)
      requires Exchanging(before, net.wires, start.chats, cmd, SentPeers(x.sends), got)
      requires SendsOf(start.chats, x.sends) && Visited(x.answers) == start.chats.Keys && GotFrom(x.answers, got)
      modifies this`view
      ensures Valid() && view == old(view).(log := Spoken(start, cmd, x))
    {
      hide Conserved, Chat.Inv, Chat.Quiet, Exchanging, GotFrom, Visited, SendsOf, SentPeers, Logged, Spoken, Distinct;
      LinesKnown(start);
      LoggedSpoken(start, cmd, x, before, net.wires, got);
      RevokeWithLog(view, {}, Spoken(start, cmd, x));
      view := view.(log := Spoken(start, cmd, x));
    }

    /** queryTargetsSync: one phase. What was pulled from a chat answers the command instructed
        on it in this very query (Exchanging). */
    method QueryTargetsSync(ctx: Context, cmd: SMCCmd)
      returns (resps: seq<CmdResult>, err: Option<PeerError>, ghost x: Exchange, ghost got: map<PeerID, CmdResult>)
      requires Valid()
      modifies this`chats, this`view, net, ctx
      ensures Valid() && ExchangeOf(old(view).chats, x)
      ensures view == Query(old(view), x).(log := Spoken(old(view), cmd, x))
      ensures resps == Replies(x.answers) && err == QueryError(old(view), x)
      ensures GotFrom(x.answers, got)
      ensures Exchanging(old(net.wires), net.wires, old(chats), cmd, SentPeers(x.sends), got)
      ensures (Delivered(x) || ctx.done) && (old(ctx.done) ==> ctx.done)
    {
      hide Conserved, Chat.Inv, Exchanging, GotFrom, Includes, Replies, Revoke, ExchangeOf, Query, QueryError,
           SentPeers, Logged, Spoken, SameTraffic, Delivered;
      var acc, errPeers;
      resps, acc, errPeers, x, got := Ask(ctx, cmd);
      var status := Halted;
      if !Includes(handleErrFlags, acc) {
        ghost var now := net.wires;
        RevokePeerChats(errPeers);
        SameTrafficKeepsExchange(QueryState(old(view), old(net.wires), cmd, SentPeers(x.sends)), now, net.wires, got);
        status := Aborted;
        err := Some(PeerError(status, progress, errPeers));
      } else if |errPeers| > 0 {
        err := Some(PeerError(status, progress, errPeers));
      } else {
        err := None;
      }
    }

    /** sendFeedback; sending on a closed channel would panic. */
    method SendFeedback(resp: CmdResult)
      requires Sound() && !feedback.closed
      modifies this`feedback, this`view
      ensures Sound() && (old(Valid()) ==> Valid())
      ensures view == Deliver(old(view), [resp]) && !feedback.closed
    {
      hide Conserved, Chat.Inv;
      FeedbackConserves(view, Deliver(view, [resp]).feedback, view.lastErr);
      assert Tagged(progress, [resp]) == [PeerResult(progress, resp)];
      feedback := feedback.(items := feedback.items + [PeerResult(progress, resp)]);
      view := view.(feedback := feedback);
    }

    method SendResults(results: seq<CmdResult>)
      requires Valid() && !feedback.closed
      modifies this`feedback, this`view
      ensures Valid() && !feedback.closed
      ensures view == Deliver(old(view), results)
    {
      hide Conserved, Chat.Inv, Deliver;
      DeliverNothing(view);
      for i := 0 to |results|
        invariant Valid() && !feedback.closed
        invariant view == Deliver(old(view), results[..i])
      {
        DeliverOneMore(old(view), results, i);
        SendFeedback(results[i]);
      }
      assert results[..|results|] == results;
    }

    /** haltOrAbort: the error is set before the feedback channel is closed; closing it twice
        would panic. */
    method HaltOrAbort(e: PeerError)
      requires Valid() && !feedback.closed
      modifies this`lastErr, this`feedback, this`chats, this`view, net
      ensures Valid() && view == JobModel.HaltOrAbort(old(view), e)
      ensures SameTraffic(old(net.wires), net.wires)
    {
      hide Conserved, Chat.Inv, CloseAll, SameTraffic;
      SameTrafficSelf(net.wires);
      lastErr := Some(e);
      feedback := feedback.(closed := true);
      FeedbackConserves(view, feedback, lastErr);
      view := view.(feedback := feedback, lastErr := lastErr);
      if e.status == Aborted {
        CloseAllChats();
      }
    }

    method RemainingTasks() returns (tasks: seq<SMCCmd>)
      ensures |tasks| == if progress >= |instr.tasks| then 0 else |instr.tasks| - progress
      ensures forall i | 0 <= i < |tasks| :: tasks[i] == instr.tasks[progress + i]
    {
      if progress >= |instr.tasks| {
        return [];
      }
      return instr.tasks[progress..];
    }

    /** The body of the loop over the remaining tasks in processJob: the chats are instructed
        the task at the job's progress. */
    method RunPhase(cmd: SMCCmd) returns (stop: bool, ghost x: Exchange, ghost got: map<PeerID, CmdResult>)
      requires Valid() && !feedback.closed
      requires progress < |instr.tasks| && cmd == instr.tasks[progress]
      modifies this`progress, this`chats, this`feedback, this`lastErr, this`view, net, ctx
      ensures Valid() && ExchangeOf(old(view).chats, x)
      ensures view == Phase(old(view), x) && stop == QueryError(old(view), x).Some?
      ensures GotFrom(x.answers, got)
      ensures Exchanging(old(net.wires), net.wires, old(chats), instr.tasks[old(progress)], SentPeers(x.sends), got)
      ensures (Delivered(x) || ctx.done) && (old(ctx.done) ==> ctx.done)
    {
      hide Conserved, Chat.Inv, ExchangeOf, Query, QueryError, Replies, Exchanging, GotFrom, JobModel.HaltOrAbort,
           SameTraffic, SentPeers, WiresFit, Settled, Logged, Spoken, Delivered;
      var results, err;
      results, err, x, got := QueryTargetsSync(ctx, cmd);
      QueryFrame(old(view), x);
      SendResults(results);
      if err.Some? {
        ghost var now := net.wires;
        HaltOrAbort(err.value);
        SameTrafficKeepsExchange(QueryState(old(view), old(net.wires), cmd, SentPeers(x.sends)), now, net.wires, got);
        return true, x, got;
      }
      progress := progress + 1;
      ProgressConserves(view);
      SameWires(view, view.(progress := progress), net.wires);
      view := view.(progress := progress);
      return false, x, got;
    }

    /** The loop over the remaining tasks in processJob. */
    method RunPhases() returns (ghost xs: seq<Exchange>)
      requires Valid() && !feedback.closed
      modifies this`progress, this`chats, this`feedback, this`lastErr, this`view, net, ctx
      ensures Valid() && PhasesOf(old(view), xs) && view == Phases(old(view), xs)
      ensures feedback.closed || progress >= |instr.tasks|
      ensures (AllDelivered(xs) || ctx.done) && (old(ctx.done) ==> ctx.done)
    {
      hide Conserved, Chat.Inv, Phase, ExchangeOf, PhasesOf, Phases, Delivered;
      var cmds := RemainingTasks();
      xs := [];
      PhasesNone(view);
      for i := 0 to |cmds|
        invariant Valid() && !feedback.closed && |xs| == i
        invariant PhasesOf(old(view), xs) && Phases(old(view), xs) == view
        invariant progress == old(progress) + i
        invariant (AllDelivered(xs) || ctx.done) && (old(ctx.done) ==> ctx.done)
      {
        ghost var before := view;
        var stop, x, got := RunPhase(cmds[i]);
        JobLifetime.PhaseFrame(before, x);
        PhasesOneMore(old(view), xs, x);
        DeliveredOneMore(xs, x);
        xs := xs + [x];
        if stop {
          return;
        }
      }
    }

    /** processJob; "prep" is the context for opening chats, "ready" are the peers that would take
        one in time. A run is expired iff its job's context was done when it started; it misses
        just the participants without a chat that are not ready, and a command or an answer only
        if the job's context ran out. */
    method ProcessJob(ready: set<PeerID>) returns (ghost run: Run, ghost prep: Context?)
      requires Valid() && view.queued && !feedback.closed
      modifies this`progress, this`chats, this`feedback, this`lastErr, this`view, net, ctx
      ensures Valid() && RunOf(old(view), run) && view == Process(old(view), run)
      ensures (old(ctx.done) ==> run.Expired?) && (run.Expired? ==> ctx.done)
      ensures run.Started? ==> AllDelivered(run.exchanges) || ctx.done
      ensures run.Started? ==> Misses(old(view), Missing(old(view), run), ready)
      ensures Missing(old(view), run) != [] ==> prep != null && fresh(prep) && prep.done
    {
      hide Conserved, Chat.Inv, Phase, OpenPeers, AttemptsOf, JobModel.HaltOrAbort, PhasesOf, Phases, Revoke,
           Delivered;
      QueueConserves(view, false);
      view := view.(queued := false);
      ghost var j0 := view;
      var expired := ctx.Err();
      prep := null;
      if expired {
        run := Expired;
        HaltOrAbort(PeerError(Aborted, -1, []));
      } else {
        var prepCtx := new Context();
        prep := prepCtx;
        var err, attempts := OpenPeerChats(prepCtx, ready);
        QueuedAttempts(old(view), attempts);
        OpenPeersFrame(j0, attempts);
        if err.Some? {
          run := Started(attempts, []);
          HaltOrAbort(err.value);
        } else {
          ghost var xs := RunPhases();
          run := Started(attempts, xs);
          if !feedback.closed {
            Finish();
          }
        }
      }
    }

    /** What jobWorker does with a job it takes from the queue. */
    method Work(ready: set<PeerID>) returns (ghost run: Run, ghost prep: Context?)
      requires Valid() && Lived() && view.queued && !feedback.closed
      modifies this`progress, this`chats, this`feedback, this`lastErr, this`view, this`acts, this`shrunk, net, ctx
      ensures Valid() && RunOf(old(view), run) && view == Process(old(view), run)
      ensures (old(ctx.done) ==> run.Expired?) && (run.Expired? ==> ctx.done)
      ensures run.Started? ==> AllDelivered(run.exchanges) || ctx.done
      ensures run.Started? ==> Misses(old(view), Missing(old(view), run), ready)
      ensures Missing(old(view), run) != [] ==> prep != null && fresh(prep) && prep.done
      ensures Lived() && acts == old(acts) + [JobHistory.Work(run)] && shrunk == old(shrunk)
    {
      hide Conserved, Process, RunOf, JobHistory.History, AllDelivered, Missing, Misses;
      run, prep := ProcessJob(ready);
      Note(old(view), JobHistory.Work(run));
    }

    /** Adds an action to the history. */
    ghost method Note(before: Job, a: JobHistory.Action)
      requires origin == NewJob(origin.instr, origin.handleErrFlags) && JobHistory.History(origin, acts, before, shrunk)
      requires JobHistory.Enabled(before, a) && view == JobHistory.After(before, a)
      modifies this`acts, this`shrunk
      ensures Lived() && acts == old(acts) + [a] && shrunk == (old(shrunk) && JobHistory.Shrinks(before, a))
    {
      hide JobHistory.History, JobHistory.Enabled, JobHistory.After, JobHistory.Shrinks;
      JobHistory.NextAction(origin, acts, before, a, shrunk);
      acts, shrunk := acts + [a], shrunk && JobHistory.Shrinks(before, a);
    }

    /** The end of processJob: notify the client, then close all chats. */
    method Finish()
      requires Valid() && !feedback.closed
      modifies this`feedback, this`chats, this`view, net
      ensures Valid() && view == JobModel.Finish(old(view))
    {
      hide Conserved, Chat.Inv, CloseAll;
      feedback := feedback.(closed := true);
      FeedbackConserves(view, feedback, view.lastErr);
      view := view.(feedback := feedback);
      CloseAllChats();
    }

    /** The loop of recycleJob over the new participants. */
    method Restamp(parts: map<ChannelID, PeerID>) returns (ok: bool, ghost order: seq<ChannelID>)
      requires Valid()
      modifies this`chats, this`view
      ensures Valid() && IsOrder(order, parts.Keys)
      ensures (forall i | 0 <= i < |order| :: order[i] in parts)
        && JobModel.Restamp(old(chats), parts, order) == (chats, ok)
      ensures view == old(view).(chats := chats)
    {
      hide Conserved, Chat.Inv, IsOrder, WiresFit, Settled, Logged, JobModel.Restamp;
      var cids := AnyOrder(parts.Keys);
      order := cids;
      OrderMembers(cids, parts.Keys);
      RestampEnds(chats, parts, cids);
      for i := 0 to |cids|
        invariant Valid() && view == old(view).(chats := chats)
        invariant JobModel.Restamp(old(chats), parts, cids) == JobModel.Restamp(chats, parts, cids[i..])
      {
        var p := parts[cids[i]];
        RestampStep(chats, parts, cids, i);
        if p !in chats {
          return false, order;
        }
        StampConserves(view, p, cids[i]);
        StampSettled(chats, p, cids[i], net.wires);
        chats := chats[p := chats[p].(cid := cids[i])];
        SameWires(view, view.(chats := chats), net.wires);
        view := view.(chats := chats);
      }
      RestampEnds(chats, parts, cids);
      return true, order;
    }

    /** recycleJob */
    method RecycleJob(newCtx: Context, newInstr: Instr, flags: Option<Flags>)
      returns (err: Option<RecycleError>, ghost order: seq<ChannelID>)
      requires Valid()
      modifies this`ctx, this`instr, this`handleErrFlags, this`chats, this`feedback, this`lastErr, this`view, net
      ensures Valid() && IsOrder(order, newInstr.participants.Keys)
      ensures (view, err) == Recycle(old(view), newInstr, flags, order)
      ensures ctx == if err.None? then newCtx else old(ctx)
    {
      hide Conserved, Chat.Inv, IsOrder, JobModel.Restamp, CloseUnused, Chat.Quiet;
      var cids := AnyOrder(newInstr.participants.Keys);
      order := cids;
      var halted := IsJobHalted();
      if !halted {
        return Some(NotHalted), order;
      }
      if |newInstr.tasks| < |instr.tasks| {
        return Some(IncompatibleTasks), order;
      }
      var ok;
      ok, order := Restamp(newInstr.participants);
      if !ok {
        return Some(NewParticipants), order;
      }
      CloseUnusedChats();
      Renew(newCtx, newInstr, flags);
      return None, order;
    }

    /** The end of recycleJob, under the lock. */
    method Renew(newCtx: Context, newInstr: Instr, flags: Option<Flags>)
      requires Valid()
      modifies this`ctx, this`instr, this`handleErrFlags, this`feedback, this`lastErr, this`view
      ensures Valid() && ctx == newCtx
      ensures view == old(view).(
        feedback := Feedback(old(view).progress, [], false), lastErr := None, instr := newInstr,
        handleErrFlags := if flags.Some? then flags.value else old(view).handleErrFlags)
    {
      hide Conserved, Chat.Inv, Distinct, Lines, WiresFit, Settled, Logged;
      var newFlags := handleErrFlags;
      if flags.Some? {
        newFlags := flags.value;
      }
      RenewConserves(view, Feedback(progress, [], false), newInstr, newFlags);
      ctx, feedback, lastErr, instr, handleErrFlags := newCtx, Feedback(progress, [], false), None, newInstr, newFlags;
      ghost var next := view.(feedback := feedback, lastErr := None, instr := instr, handleErrFlags := handleErrFlags);
      SameWires(view, next, net.wires);
      view := next;
    }

    /** RescheduleOpenJob: the queue may stay full until the context expires. */
    method RescheduleOpenJob(newCtx: Context, newInstr: Instr, flags: Option<Flags>)
      returns (err: Option<RecycleError>, enqueued: bool, ghost order: seq<ChannelID>)
      requires Valid() && Lived() && !view.queued
      modifies this, net, newCtx
      ensures Valid() && IsOrder(order, newInstr.participants.Keys)
      ensures err.None? ==> ctx == newCtx && (enqueued || newCtx.done)
      ensures err.Some? ==> ctx == old(ctx)
      ensures old(newCtx.done) ==> newCtx.done
      ensures (view, err) == Reschedule(old(view), newInstr, flags, order, enqueued)
      ensures Lived() && acts == old(acts) + [JobHistory.Resched(newInstr, flags, order, enqueued)]
      ensures shrunk <==> old(shrunk) && newInstr.participants.Values <= old(view).instr.participants.Values
    {
      hide Conserved, IsOrder, Recycle, JobHistory.History, Logged, Tied, Calm;
      err, order := RecycleJob(newCtx, newInstr, flags);
      enqueued := *;
      if err.None? {
        if !enqueued {
          newCtx.done := true;
        }
        Enqueue(enqueued);
      }
      ghost var a := JobHistory.Resched(newInstr, flags, order, enqueued);
      Note(old(view), a);
    }

    /** The select at the end of RescheduleOpenJob. */
    ghost method Enqueue(enqueued: bool)
      requires Valid()
      modifies this`view
      ensures Valid() && view == old(view).(queued := enqueued)
    {
      hide Conserved, Chat.Inv;
      QueueConserves(view, enqueued);
      view := view.(queued := enqueued);
    }

    /** Abort, by the client */
    method Abort() returns (ok: bool)
      requires Valid() && Lived() && !view.queued
      modifies this`chats, this`lastErr, this`view, this`acts, this`shrunk, net
      ensures Valid() && view == JobModel.Abort(old(view)) && ok == IsHalted(old(view))
      ensures Lived() && acts == old(acts) + [JobHistory.Quit] && shrunk == old(shrunk)
    {
      hide Conserved, CloseAll, JobHistory.History;
      ok := IsJobHalted();
      if ok {
        CloseAllChats();
        ForgetError();
      }
      Note(old(view), JobHistory.Quit);
    }

    method ForgetError()
      requires Valid()
      modifies this`lastErr, this`view
      ensures Valid() && view == old(view).(lastErr := None)
    {
      hide Conserved, Chat.Inv;
      lastErr := None;
      FeedbackConserves(view, view.feedback, None);
      view := view.(lastErr := None);
    }
  }

  /** So what is proved of all histories holds of the object and its channels: the command
      channel of every line ever opened is closed iff no live chat is on that line, and once the
      job is over all of them are closed. */
  lemma ChannelsConserved(job: ActiveJob)
    requires job.Valid() && job.Lived()
    ensures Inv(job.view)
    ensures forall l <- job.net.wires :: job.net.wires[l].closed <==> l !in Lines(job.chats)
    ensures Over(job.view) ==> forall l <- job.net.wires :: job.net.wires[l].closed
  {
    if job.shrunk {
      JobHistory.Unshrunk(job.origin, job.acts, job.view);
    }
    JobHistory.ChatsConserved(job.origin.instr, job.origin.handleErrFlags, job.acts, job.view);
  }

  /** The i-th command that was ever sent on this line, which is of this phase. */
  ghost predicate SentAt(job: ActiveJob, l: nat, i: nat, phase: nat)
    reads job, job.net
  {
    && l in job.net.wires && i < |job.net.wires[l].orders|
    && l in job.view.log && i < |job.view.log[l]|
    && job.view.log[l][i].phase == phase && job.view.log[l][i].cmd == job.net.wires[l].orders[i]
  }

  /** The feedback for it was pulled, has no error class, and is what the peer said to it. */
  ghost predicate PulledCleanly(job: ActiveJob, l: nat, i: nat)
    reads job, job.net
  {
    && l in job.net.wires && i < |job.net.wires[l].pulled|
    && job.net.wires[l].pulled[i].no == i && ErrorClass(job.net.wires[l].pulled[i].res.status) == 0
    && i < |job.net.wires[l].orders| && i < |job.net.wires[l].heard| && i < |job.net.wires[l].said|
    && job.net.wires[l].heard[i].cmd == job.net.wires[l].orders[i]
    && job.net.wires[l].said[i] == job.net.wires[l].pulled[i].res
  }

  /** A chat of the object whose channels have carried, for this phase, a command and its clean
      feedback. */
  ghost predicate HasAnswered(job: ActiveJob, p: PeerID, phase: nat)
    reads job, job.net
  {
    && p in job.chats
    && exists i: nat :: SentAt(job, job.chats[p].line, i, phase) && PulledCleanly(job, job.chats[p].line, i)
  }

  lemma AnsweredOnChannel(job: ActiveJob, p: PeerID, phase: nat)
    requires job.Valid() && p in job.chats && job.chats[p].line in job.view.log
    requires JobTraffic.SaidCleanly(job.view.log[job.chats[p].line], phase)
    ensures HasAnswered(job, p, phase)
  {
    hide ErrorClass, Chat.Quiet, Chat.Flow, Chat.Faithful;
    var l := job.chats[p].line;
    var entries := job.view.log[l];
    var i :| 0 <= i < |entries| && entries[i].phase == phase && JobTraffic.CleanEntry(entries[i]);
    assert LineLogged(entries, job.net.wires[l]) && Chat.Inv(job.net.wires[l]);
    Chat.CleanIsSaid(job.net.wires[l], i);
    assert SentAt(job, l, i, phase) && PulledCleanly(job, l, i);
  }

  /** The phase barrier on the object's channels: as long as no reschedule named new peers, the
      channels of every live chat have carried a command of each phase below "progress" and a
      feedback for it without an error class. Whatever was rescheduled, every command ever sent on
      any channel is in the log, one to one; its phase is none above "progress"; and it is the
      task that the job had for that phase in some run. */
  lemma ChannelsKeepBarrier(job: ActiveJob)
    requires job.Valid() && job.Lived()
    ensures job.shrunk ==> forall p, k: nat :: p in job.chats && k < job.progress ==> HasAnswered(job, p, k)
    ensures job.net.wires.Keys == job.view.log.Keys && JobTraffic.Recorded(job.view)
    ensures forall l, i: nat | l in job.net.wires && i < |job.net.wires[l].orders| ::
      && |job.view.log[l]| == |job.net.wires[l].orders|
      && SentAt(job, l, i, job.view.log[l][i].phase) && job.view.log[l][i].phase <= job.progress
      && JobTraffic.SentInRun(job.origin, job.acts, l, job.view.log[l][i])
  {
    var instr, flags := job.origin.instr, job.origin.handleErrFlags;
    if job.shrunk {
      JobTraffic.SpokenBarrier(instr, flags, job.acts, job.view);
      forall p, k: nat | p in job.chats && k < job.progress ensures HasAnswered(job, p, k) {
        AnsweredOnChannel(job, p, k);
      }
      JobHistory.Unshrunk(job.origin, job.acts, job.view);
    }
    JobTraffic.HistoryRecorded(instr, flags, job.acts, job.view, false);
    JobTraffic.NothingAhead(job.view);
    JobTraffic.EveryCommandIsATask(instr, flags, job.acts, job.view);
  }
}
