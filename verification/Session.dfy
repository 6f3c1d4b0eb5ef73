/** The peer's end: an SMC session on the FRESCO backend (smc/smc_fresco.go) and the bridge that
    drives it from the gateway's stream (node/modules/smcadvisor.go). The backend and the
    stream are oracles. A session holds one of the tokens of the connector's pool. */
module Session {
  import opened Protocol

  const PARALLEL_SESSIONS := 2

  datatype ChatState = Running | RequestTearDown | Stopped

  datatype FrescoSession = FrescoSession(state: ChatState, id: string)

  /** RequestSession, once it has a token. */
  const NEW_SESSION := FrescoSession(Running, "")

  /** condFreeResources, with the number of tokens it returns. */
  function CondFreeResources(s: FrescoSession): (FrescoSession, nat) {
    if s.state.RequestTearDown? then (s.(state := Stopped), 1) else (s, 0)
  }

  function TearDown(s: FrescoSession): (FrescoSession, nat) {
    if s.state.Stopped? then (s, 0) else CondFreeResources(s.(state := RequestTearDown))
  }

  /** Init; "reply" is the status of the backend, None if the call failed. */
  function Init(s: FrescoSession, id: string, reply: Option<Flags>): (FrescoSession, nat, bool) {
    if reply != Some(SUCCESS) then
      var (s1, tokens) := TearDown(s);
      (s1, tokens, false)
    else (FrescoSession(Running, id), 0, true)
  }

  /** A status without a severe error class keeps the session going. */
  predicate Mild(status: Flags) {
    status & SEVERE_ERROR_CLASSES == 0
  }

  const DENIAL := CmdResult(DENIED, None)

  /** NextCmd; "reply" is the answer of the backend, None if the call failed. */
  function NextCmd(s: FrescoSession, cmd: SMCCmd, reply: Option<CmdResult>): (FrescoSession, nat, CmdResult, bool) {
    var (requested, out, more) :=
      if s.id != cmd.sessionID || reply.None? then (s.(state := RequestTearDown), DENIAL, false)
      else if reply.value.status == SUCCESS_DONE then (s.(state := RequestTearDown), reply.value, false)
      else if reply.value.status == SUCCESS || Mild(reply.value.status) then (s, reply.value, true)
      else (s.(state := RequestTearDown), reply.value, false);
    var (s1, tokens) := CondFreeResources(requested);
    (s1, tokens, out, more)
  }

  /** Sending tokens on the connector's channel, which holds PARALLEL_SESSIONS: with no room the
      sender blocks for ever. */
  predicate Pushed(before: nat, tokens: nat, after: nat, blocked: bool) {
    && blocked == (before + tokens > PARALLEL_SESSIONS)
    && after == if blocked then before else before + tokens
  }

  /** What every operation keeps: a session gives its token back when it stops, and only then. */
  predicate Accounted(s: FrescoSession, s': FrescoSession, tokens: nat) {
    && !s'.state.RequestTearDown?
    && (if s.state.Running? && s'.state.Stopped? then tokens == 1 else tokens == 0)
    && (s.state.Stopped? ==> s'.state.Stopped?)
  }

  /** On a running session NextCmd promises more exactly if the session is still running. */
  lemma MoreIffRunning(s: FrescoSession, cmd: SMCCmd, reply: Option<CmdResult>)
    requires s.state.Running?
    ensures var (s1, tokens, out, more) := NextCmd(s, cmd, reply);
      Accounted(s, s1, tokens) && (more <==> s1.state.Running?)
    ensures var (s1, tokens, out, more) := NextCmd(s, cmd, reply);
      more <==> s.id == cmd.sessionID && reply.Some? && Mild(reply.value.status) && reply.value.status != SUCCESS_DONE
  {
    assert 0 & 192 == 0 as bv32;
  }

  /** What a session answers: the backend's reply to a command of its own, and otherwise that the
      command is denied. Its ID stays. */
  lemma AnswersOwnCommands(s: FrescoSession, cmd: SMCCmd, reply: Option<CmdResult>)
    ensures var (s1, tokens, out, more) := NextCmd(s, cmd, reply);
      && s1.id == s.id
      && (cmd.sessionID == s.id && reply.Some? ==> out == reply.value)
      && (cmd.sessionID != s.id || reply.None? ==> out == CmdResult(DENIED, None) && !more)
  {
  }

  /** A successful Init gives the session the ID it is called with. */
  lemma InitStores(s: FrescoSession, id: string, reply: Option<Flags>)
    ensures var (s1, tokens, ok) := Init(s, id, reply);
      && (ok <==> reply == Some(SUCCESS))
      && (ok ==> s1.state.Running? && s1.id == id && tokens == 0)
      && (!ok ==> s1.id == s.id)
  {
  }

  /** Init stops the session iff it fails. */
  lemma InitAccounts(s: FrescoSession, id: string, reply: Option<Flags>)
    requires s.state.Running?
    ensures var (s1, tokens, ok) := Init(s, id, reply);
      Accounted(s, s1, tokens) && (ok <==> s1.state.Running?)
  {
  }

  lemma TearDownAccounts(s: FrescoSession)
    requires !s.state.RequestTearDown?
    ensures var (s1, tokens) := TearDown(s);
      Accounted(s, s1, tokens) && s1.state.Stopped?
    ensures TearDown(TearDown(s).0) == (TearDown(s).0, 0)
  {
  }

  /** Used after it stopped, a session would promise more or return its token again, and an
      Init would revive it; hence the bridge's discipline. */
  lemma StoppedSessionMisleads(cmd: SMCCmd, other: SMCCmd)
    requires other.sessionID != cmd.sessionID
    ensures var stopped := FrescoSession(Stopped, cmd.sessionID);
      && NextCmd(stopped, cmd, Some(CmdResult(SUCCESS, None))).3
      && NextCmd(stopped, other, None).1 == 1
      && TearDown(Init(stopped, cmd.sessionID, Some(SUCCESS)).0).1 == 1
  {
    assert 0 & 192 == 0 as bv32;
  }

  // The bridge: one iteration at a time

  datatype BridgePc = Opening | Looping | Ending | Done

  /** "received" and "inits" count what the bridge has taken from its stream and how often it
      initialised the session, "sent" is what it sent back; "cntCmds" is the source's counter. */
  datatype Bridge = Bridge(pc: BridgePc, session: FrescoSession, cntCmds: nat, received: nat, sent: seq<CmdResult>,
    inits: nat)

  const NEW_BRIDGE := Bridge(Opening, NEW_SESSION, 0, 0, [], 0)

  const INVALID_SESSION := CmdResult(ABORTED, None)

  /** The answer to a debug command that does not concern the backend. */
  const SKIPPED := CmdResult(SUCCESS_DONE, None)

  /** What comes next from the stream and the backend. */
  datatype Event =
    | StreamOpened
    | StreamFailed
    | RecvFailed
    | DebugCmd(cmd: SMCCmd)
    | Cmd(cmd: SMCCmd, init: Option<Flags>, reply: Option<CmdResult>)
    | Deferred

  /** One step of SpawnBridge and bridgeStreamToSMC, with the tokens it returns. */
  function BridgeStep(b: Bridge, e: Event): (Bridge, nat)
    requires Possible(b, e)
  {
    match e
    case StreamOpened => (b.(pc := Looping), 0)
    case StreamFailed =>
      var (s1, tokens) := TearDown(b.session);
      (b.(pc := Done, session := s1), tokens)
    case RecvFailed => (b.(pc := Ending), 0)
    case DebugCmd(cmd) =>
      (b.(pc := if cmd.payload.morePhases then Looping
        else Ending, received := b.received + 1, sent := b.sent + [SKIPPED]), 0)
    case Cmd(cmd, init, reply) =>
      if b.cntCmds == 0 && init != Some(SUCCESS) then
        var (s1, tokens, ok) := Init(b.session, cmd.sessionID, init);
        (b.(pc := Ending, session := s1, received := b.received + 1, sent := b.sent + [INVALID_SESSION],
          inits := b.inits + 1), tokens)
      else
        var s0 := if b.cntCmds == 0 then Init(b.session, cmd.sessionID, init).0 else b.session;
        var (s1, tokens, out, more) := NextCmd(s0, cmd, reply);
        (Bridge(if more then Looping else Ending, s1, b.cntCmds + 1, b.received + 1, b.sent + [out],
                if b.cntCmds == 0 then b.inits + 1 else b.inits), tokens)
    case Deferred =>
      var (s1, tokens) := TearDown(b.session);
      (b.(pc := Done, session := s1), tokens)
  }

  predicate Possible(b: Bridge, e: Event) {
    match b.pc
    case Opening => e.StreamOpened? || e.StreamFailed?
    case Looping => e.RecvFailed? || (e.DebugCmd? && e.cmd.payload.Debug?) || e.Cmd?
    case Ending => e.Deferred?
    case Done => false
  }

  /** The bridge after these steps, each of them possible. */
  function BridgeRun(events: seq<Event>): (b: Bridge)
    requires BridgeCan(events)
    decreases |events|, 1
  {
    if events == [] then NEW_BRIDGE
    else BridgeStep(BridgeRun(events[..|events| - 1]), events[|events| - 1]).0
  }

  predicate BridgeCan(events: seq<Event>)
    decreases |events|, 0
  {
    events == [] ||
    var n := |events| - 1;
    BridgeCan(events[..n]) && Possible(BridgeRun(events[..n]), events[n])
  }

  /** What the bridge took from its stream in these steps. */
  predicate Takes(e: Event) {
    e.DebugCmd? || e.Cmd?
  }

  function Taken(events: seq<Event>): seq<SMCCmd> {
    if events == [] then []
    else
      var n := |events| - 1;
      Taken(events[..n]) + if Takes(events[n]) then [events[n].cmd] else []
  }

  /** The messages a bridge took, each with what the backend had for it. */
  function TakenEvents(events: seq<Event>): seq<Event> {
    if events == [] then []
    else
      var n := |events| - 1;
      TakenEvents(events[..n]) + if Takes(events[n]) then [events[n]] else []
  }

  /** How a message is taken: "init" and "reply" are what the backend has for it, if it gets that
      far; with "skip" the debug mode of the peer deals with it, if it is a debug command. */
  function MessageAt(cmd: SMCCmd, init: Option<Flags>, reply: Option<CmdResult>, skip: bool): Event {
    if cmd.payload.Debug? && skip then DebugCmd(cmd) else Cmd(cmd, init, reply)
  }

  lemma NoStep()
    ensures BridgeCan([]) && BridgeRun([]) == NEW_BRIDGE && Taken([]) == [] && TakenEvents([]) == []
  {
  }

  lemma OneStep(events: seq<Event>, e: Event)
    requires BridgeCan(events) && Possible(BridgeRun(events), e)
    ensures BridgeCan(events + [e]) && BridgeRun(events + [e]) == BridgeStep(BridgeRun(events), e).0
    ensures Taken(events + [e]) == Taken(events) + if Takes(e) then [e.cmd] else []
    ensures TakenEvents(events + [e]) == TakenEvents(events) + if Takes(e) then [e] else []
  {
    hide BridgeStep, Possible;
    assert (events + [e])[..|events|] == events;
  }

  /** The bridge's discipline: it uses running sessions only, initialises at most once, answers
      each command with one message before it takes the next, and leaves a stopped session. */
  predicate Disciplined(b: Bridge) {
    && !b.session.state.RequestTearDown?
    && (b.pc.Opening? || b.pc.Looping? ==> b.session.state.Running?)
    && (b.pc.Done? ==> b.session.state.Stopped?)
    && b.received == |b.sent|
    && b.inits <= 1
    && (b.pc.Opening? ==> b == NEW_BRIDGE)
    && (b.pc.Looping? ==> (b.inits == 0 <==> b.cntCmds == 0))
  }

  lemma BridgeStepKeeps(b: Bridge, e: Event)
    requires Disciplined(b) && Possible(b, e)
    ensures Disciplined(BridgeStep(b, e).0)
    ensures Accounted(b.session, BridgeStep(b, e).0.session, BridgeStep(b, e).1)
    ensures b.received <= BridgeStep(b, e).0.received <= b.received + 1
    ensures b.sent <= BridgeStep(b, e).0.sent
  {
    hide Init, NextCmd, TearDown, Mild;
    match e
    case StreamFailed => TearDownAccounts(b.session);
    case Deferred => TearDownAccounts(b.session);
    case Cmd(cmd, init, reply) =>
      if b.cntCmds == 0 {
        InitAccounts(b.session, cmd.sessionID, init);
        InitStores(b.session, cmd.sessionID, init);
        if init == Some(SUCCESS) {
          MoreIffRunning(Init(b.session, cmd.sessionID, init).0, cmd, reply);
        }
      } else {
        MoreIffRunning(b.session, cmd, reply);
      }
    case _ =>
  }

  /** Every run of a bridge: Init once at most, one message for each command taken. */
  lemma {:induction false} BridgeRunKeeps(events: seq<Event>)
    requires BridgeCan(events)
    ensures Disciplined(BridgeRun(events))
    ensures |Taken(events)| == BridgeRun(events).received == |BridgeRun(events).sent| && BridgeRun(events).inits <= 1
  {
    if events != [] {
      var n := |events| - 1;
      BridgeRunKeeps(events[..n]);
      BridgeStepKeeps(BridgeRun(events[..n]), events[n]);
    }
  }

  // What a bridge answers

  /** The first command for the backend: it initialises the session. */
  function Opener(taken: seq<Event>): Option<Event> {
    if taken == [] then None
    else
      var n := |taken| - 1;
      if Opener(taken[..n]).Some? then Opener(taken[..n])
      else if taken[n].Cmd? then Some(taken[n])
      else None
  }

  /** The backend serves the last of these messages: the session could be initialised, the command
      is of that session, and the call did not fail. */
  predicate BackendServes(taken: seq<Event>)
    requires taken != [] && taken[|taken| - 1].Cmd?
  {
    var e, first := taken[|taken| - 1], Opener(taken);
    first.Some? && first.value.Cmd? && first.value.init == Some(SUCCESS)
    && e.cmd.sessionID == first.value.cmd.sessionID && e.reply.Some?
  }

  /** The answer to the last of these messages. */
  function Answer(taken: seq<Event>): CmdResult
    requires taken != []
  {
    var e := taken[|taken| - 1];
    if !e.Cmd? then CmdResult(SUCCESS_DONE, None)
    else if BackendServes(taken) then e.reply.value
    else if Opener(taken).Some? && Opener(taken).value.Cmd? && Opener(taken).value.init == Some(SUCCESS) then
      CmdResult(DENIED, None)
    else CmdResult(ABORTED, None)
  }

  /** The bridge takes another message after the last of these: a debug command that announced
      more, or a command after which the backend is neither done nor severely failed. */
  predicate GoesOn(taken: seq<Event>)
    requires taken != []
  {
    var e := taken[|taken| - 1];
    match e
    case Cmd(_, _, _) =>
      BackendServes(taken) && e.reply.value.status != SUCCESS_DONE && e.reply.value.status & SEVERE_ERROR_CLASSES == 0
    case DebugCmd(cmd) => cmd.payload.Debug? && cmd.payload.morePhases
    case _ => false
  }

  /** All answers are those, and all messages but the last one let the bridge go on. */
  ghost predicate Answered(taken: seq<Event>, sent: seq<CmdResult>) {
    && |sent| == |taken|
    && (forall i | 0 <= i < |taken| :: sent[i] == AnswerAt(taken, i))
    && (forall i | 0 <= i < |taken| - 1 :: GoesOnAt(taken, i))
  }

  /** The answer to the i-th message, which knows the earlier ones only. */
  function AnswerAt(taken: seq<Event>, i: nat): CmdResult
    requires i < |taken|
  {
    Answer(taken[..i + 1])
  }

  predicate GoesOnAt(taken: seq<Event>, i: nat)
    requires i < |taken|
  {
    GoesOn(taken[..i + 1])
  }

  /** The session of a bridge that goes on is the one its first command opened. */
  predicate Opens(b: Bridge, taken: seq<Event>) {
    && (b.cntCmds == 0 <==> Opener(taken).None?)
    && (b.cntCmds > 0 ==>
          Opener(taken).value.Cmd? && Opener(taken).value.init == Some(SUCCESS)
          && b.session.id == Opener(taken).value.cmd.sessionID)
  }

  /** Why the bridge is where it is. */
  predicate Explains(b: Bridge, taken: seq<Event>, broken: bool) {
    && (b.pc.Opening? ==> taken == [] && b.cntCmds == 0 && !broken)
    && (b.pc.Looping? ==> Opens(b, taken) && (taken != [] ==> GoesOn(taken)) && !broken)
    && (b.pc.Ending? || b.pc.Done? ==> broken || (taken != [] && !GoesOn(taken)))
  }

  /** Its stream could not be opened, or broke. */
  predicate Broken(events: seq<Event>) {
    StreamFailed in events || RecvFailed in events
  }

  lemma TakeOneMore(taken: seq<Event>, sent: seq<CmdResult>, e: Event, out: CmdResult)
    requires Answered(taken, sent) && (taken != [] ==> GoesOn(taken))
    requires out == Answer(taken + [e])
    ensures Answered(taken + [e], sent + [out])
  {
    hide Answer, GoesOn;
    var all := taken + [e];
    assert all[..|all|] == all && taken[..|taken|] == taken;
    forall i | 0 <= i < |taken|
      ensures AnswerAt(all, i) == AnswerAt(taken, i) && GoesOnAt(all, i) == GoesOnAt(taken, i)
    {
      assert all[..i + 1] == taken[..i + 1];
    }
  }

  /** One message and its answer. */
  lemma AnswersMessage(b: Bridge, taken: seq<Event>, e: Event)
    requires b.pc.Looping? && Possible(b, e) && Takes(e) && Opens(b, taken)
    ensures var b1 := BridgeStep(b, e).0;
      && b1.sent == b.sent + [Answer(taken + [e])]
      && (b1.pc.Looping? || b1.pc.Ending?) && (b1.pc.Looping? <==> GoesOn(taken + [e]))
      && (b1.pc.Looping? ==> Opens(b1, taken + [e]))
  {
    assert (taken + [e])[..|taken|] == taken;
    if e.Cmd? {
      InitStores(b.session, e.cmd.sessionID, e.init);
      var s0 := if b.cntCmds == 0 then Init(b.session, e.cmd.sessionID, e.init).0 else b.session;
      AnswersOwnCommands(s0, e.cmd, e.reply);
      MoreIff(s0, e.cmd, e.reply);
    }
    hide Init, NextCmd, TearDown, Mild;
  }

  /** Whatever its state, a session promises more exactly for these replies. */
  lemma MoreIff(s: FrescoSession, cmd: SMCCmd, reply: Option<CmdResult>)
    ensures NextCmd(s, cmd, reply).3 <==>
      && s.id == cmd.sessionID && reply.Some?
      && reply.value.status & SEVERE_ERROR_CLASSES == 0 && reply.value.status != SUCCESS_DONE
  {
    assert 0 & 192 == 0 as bv32;
  }

  lemma StepAnswers(b: Bridge, taken: seq<Event>, e: Event, broken: bool)
    requires Answered(taken, b.sent) && Explains(b, taken, broken) && Possible(b, e)
    ensures var b1, now := BridgeStep(b, e).0, if Takes(e) then taken + [e] else taken;
      Answered(now, b1.sent) && Explains(b1, now, broken || e == StreamFailed || e == RecvFailed)
  {
    hide BridgeStep, Possible, Answer, GoesOn, Opener, Answered, Opens;
    if Takes(e) {
      TakesWhileLooping(b, e);
      AnswersMessage(b, taken, e);
      TakeOneMore(taken, b.sent, e, Answer(taken + [e]));
    } else {
      OtherSteps(b, e);
      if e == StreamOpened {
        StartsEmpty(b, e);
      }
    }
  }

  lemma StartsEmpty(b: Bridge, e: Event)
    requires e == StreamOpened && Possible(b, e)
    ensures b.pc.Opening? && (b.cntCmds == 0 ==> Opens(BridgeStep(b, e).0, []))
  {
  }

  /** Every run of a bridge: its answers are those of the backend to the commands of the session
      that its first command opened, DENIED where there is none, ABORTED if the session could not
      be opened; and it goes on just as long as these say so and its stream holds. */
  lemma {:induction false} BridgeAnswers(events: seq<Event>)
    requires BridgeCan(events)
    ensures Answered(TakenEvents(events), BridgeRun(events).sent)
    ensures Explains(BridgeRun(events), TakenEvents(events), Broken(events))
  {
    hide BridgeStep, Possible, Answered, Explains, Broken;
    if events == [] {
      NothingTaken();
    } else {
      var n := |events| - 1;
      BridgeAnswers(events[..n]);
      BrokenOneMore(events[..n], events[n]);
      assert events == events[..n] + [events[n]];
      assert TakenEvents(events[..n]) + [] == TakenEvents(events[..n]);
      StepAnswers(BridgeRun(events[..n]), TakenEvents(events[..n]), events[n], Broken(events[..n]));
    }
  }

  lemma BrokenOneMore(events: seq<Event>, e: Event)
    ensures Broken(events + [e]) <==> Broken(events) || e == StreamFailed || e == RecvFailed
  {
  }

  lemma NothingTaken()
    ensures TakenEvents([]) == [] && !Broken([])
    ensures Answered([], NEW_BRIDGE.sent) && Explains(NEW_BRIDGE, [], false)
  {
  }

  lemma TakesWhileLooping(b: Bridge, e: Event)
    requires Possible(b, e) && Takes(e)
    ensures b.pc.Looping? && e != RecvFailed && e != StreamFailed
  {
  }

  lemma OtherSteps(b: Bridge, e: Event)
    requires Possible(b, e) && !Takes(e)
    ensures var b1 := BridgeStep(b, e).0;
      && b1.sent == b.sent
      && (b1.pc.Looping? <==> e == StreamOpened) && !b1.pc.Opening?
      && (e == StreamOpened ==> b.pc.Opening? && b1.cntCmds == b.cntCmds && Opener([]).None?)
      && (e == Deferred ==> b.pc.Ending? && b1.pc.Done?)
      && (e == StreamFailed || e == RecvFailed || e == StreamOpened || e == Deferred)
  {
  }

  // Any number of bridges at a time

  /** The connector's token channel and the bridges that ever got a token from it. */
  datatype Node = Node(free: nat, bridges: map<nat, Bridge>)

  const IDLE_NODE := Node(PARALLEL_SESSIONS, map[])

  datatype Move = Spawn(id: nat) | Advance(id: nat, e: Event)

  /** A session is granted only for a token; a bridge that has returned one is not spawned again. */
  predicate Allowed(n: Node, m: Move) {
    match m
    case Spawn(id) => n.free > 0 && id !in n.bridges
    case Advance(id, e) => id in n.bridges && Possible(n.bridges[id], e)
  }

  function Moved(n: Node, m: Move): Node
    requires Allowed(n, m)
  {
    match m
    case Spawn(id) => Node(n.free - 1, n.bridges[id := NEW_BRIDGE])
    case Advance(id, e) =>
      var (b, tokens) := BridgeStep(n.bridges[id], e);
      Node(n.free + tokens, n.bridges[id := b])
  }

  function Unstopped(n: Node): set<nat> {
    set id | id in n.bridges && !n.bridges[id].session.state.Stopped?
  }

  ghost predicate Reaches(moves: seq<Move>, n: Node) {
    if moves == [] then n == IDLE_NODE
    else
      var k := |moves| - 1;
      exists n1 :: Reaches(moves[..k], n1) && Allowed(n1, moves[k]) && n == Moved(n1, moves[k])
  }

  ghost predicate Conserved(n: Node) {
    && n.free + |Unstopped(n)| == PARALLEL_SESSIONS
    && forall id | id in n.bridges :: Disciplined(n.bridges[id])
  }

  lemma SpawnConserves(n: Node, id: nat)
    requires Conserved(n) && Allowed(n, Spawn(id))
    ensures Conserved(Moved(n, Spawn(id)))
  {
    assert Unstopped(Moved(n, Spawn(id))) == Unstopped(n) + {id};
  }

  lemma AdvanceConserves(n: Node, id: nat, e: Event)
    requires Conserved(n) && Allowed(n, Advance(id, e))
    ensures Conserved(Moved(n, Advance(id, e)))
  {
    hide BridgeStep, Possible;
    var n' := Moved(n, Advance(id, e));
    BridgeStepKeeps(n.bridges[id], e);
    if n.bridges[id].session.state.Running? && n'.bridges[id].session.state.Stopped? {
      assert id in Unstopped(n);
      assert Unstopped(n') == Unstopped(n) - {id};
    } else {
      assert Unstopped(n') == Unstopped(n);
    }
  }

  lemma MoveConserves(n: Node, m: Move)
    requires Conserved(n) && Allowed(n, m)
    ensures Conserved(Moved(n, m))
  {
    hide *;
    match m
    case Spawn(id) => SpawnConserves(n, id);
    case Advance(id, e) => AdvanceConserves(n, id, e);
  }

  /** Token conservation, in every interleaving of any number of bridges, with every failure of
      backend and streams: the free tokens and the sessions not yet stopped make up the pool,
      so that returning one never blocks; every bridge keeps its discipline. */
  lemma {:induction false} TokensConserved(moves: seq<Move>, n: Node)
    requires Reaches(moves, n)
    ensures n.free + |Unstopped(n)| == PARALLEL_SESSIONS
    ensures forall id | id in n.bridges :: Disciplined(n.bridges[id])
  {
    if moves != [] {
      var k := |moves| - 1;
      var n1 :| Reaches(moves[..k], n1) && Allowed(n1, moves[k]) && n == Moved(n1, moves[k]);
      TokensConserved(moves[..k], n1);
      MoveConserves(n1, moves[k]);
    }
  }

  /** A step that returns a token finds room for it in the channel, and returns one only. */
  lemma ReturnNeverBlocks(moves: seq<Move>, n: Node, id: nat, e: Event)
    requires Reaches(moves, n) && Allowed(n, Advance(id, e))
    ensures BridgeStep(n.bridges[id], e).1 > 0 ==> BridgeStep(n.bridges[id], e).1 == 1 && n.free < PARALLEL_SESSIONS
    ensures n.bridges[id].session.state.Stopped? ==> BridgeStep(n.bridges[id], e).1 == 0
  {
    hide BridgeStep;
    TokensConserved(moves, n);
    BridgeStepKeeps(n.bridges[id], e);
    MoveConserves(n, Advance(id, e));
  }

  /** When all bridges have returned all tokens are back. */
  lemma AllTokensBack(moves: seq<Move>, n: Node)
    requires Reaches(moves, n) && forall id | id in n.bridges :: n.bridges[id].pc.Done?
    ensures n.free == PARALLEL_SESSIONS == 2
  {
    TokensConserved(moves, n);
    assert Unstopped(n) == {};
  }
}
