/** The mock backend's session (smc/smc_mock.go): a phase automaton that accepts PREPARE commands
    followed by one SESSION command. */
module MockSession {
  import opened Protocol

  // SMCCmd_Phase, and initPhase
  const INIT_PHASE := -1
  const PREPARE := 0
  const SESSION := 2
  const FINISH := 126
  const ABORT := 127

  class MockSession {
    var id: string
    var phase: int
    var tearedDown: bool

    /** Tokens sent back to the pool. */
    var returned: nat

    ghost predicate Valid()
      reads this
    {
      && returned == (if tearedDown then 1 else 0)
      && phase in {INIT_PHASE, PREPARE, SESSION, FINISH, ABORT}
      && (phase >= FINISH ==> tearedDown)
      && phase != SESSION
    }

    ghost function View(): MockState
      reads this
    {
      MockState(id, phase, tearedDown)
    }

    /** Init on a session fresh from the connector */
    constructor (id: string)
      ensures Valid() && View() == MockState(id, INIT_PHASE, false)
    {
      this.id, phase, tearedDown, returned := id, INIT_PHASE, false, 0;
    }

    method ReleaseResources()
      requires returned == if tearedDown then 1 else 0
      modifies this`tearedDown, this`returned
      ensures tearedDown && returned == 1
    {
      if !tearedDown {
        tearedDown := true;
        returned := returned + 1;
      }
    }

    method CondTearDown()
      requires returned == if tearedDown then 1 else 0
      modifies this`tearedDown, this`returned
      ensures tearedDown == (old(tearedDown) || phase >= FINISH) && returned == if tearedDown then 1 else 0
    {
      if phase >= FINISH {
        ReleaseResources();
      }
    }

    method TearDown()
      requires returned == if tearedDown then 1 else 0
      modifies this`phase, this`tearedDown, this`returned
      ensures Valid() && View() == MockState(id, FINISH, true)
    {
      phase := FINISH;
      CondTearDown();
    }

    method AllowPhaseTransition(newPhase: int) returns (allow: bool)
      modifies this`phase
      ensures allow == Allowed(old(phase), newPhase)
      ensures phase == if allow then newPhase else ABORT
    {
      allow := false;
      if newPhase == PREPARE {
        if phase == INIT_PHASE || phase == PREPARE {
          allow := true;
        }
      } else if newPhase == SESSION {
        if phase == PREPARE {
          allow := true;
        }
      }
      phase := if allow then newPhase else ABORT;
    }

    method NextCmd(cmd: SMCCmd) returns (out: CmdResult, more: bool)
      requires Valid()
      modifies this`phase, this`tearedDown, this`returned
      ensures Valid()
      ensures (View(), out, more) == Next(old(View()), cmd)
    {
      more := true;
      if id != cmd.sessionID {
        out, more := CmdResult(DENIED, None), false;
        phase := ABORT;
      } else {
        var result: Option<CmdResult> := None;
        match cmd.payload {
          case Prepare(_) =>
            var allow := AllowPhaseTransition(PREPARE);
            if allow {
              result := Some(PREPARED);
            }
          case Session(_) =>
            var allow := AllowPhaseTransition(SESSION);
            if allow {
              result := Some(COMPUTED);
              TearDown();
              more := false;
            }
          case _ =>
            phase := ABORT;
        }
        if phase == ABORT || result.None? {
          out, more := CmdResult(DENIED, None), false;
        } else {
          out := result.value;
        }
      }
      CondTearDown();
    }
  }

  const PREPARED := CmdResult(SUCCESS, None)
  const COMPUTED := CmdResult(SUCCESS, Some(1234.0))

  predicate Allowed(phase: int, newPhase: int) {
    if newPhase == PREPARE then phase == INIT_PHASE || phase == PREPARE
    else newPhase == SESSION && phase == PREPARE
  }

  /** The session as a value. */
  datatype MockState = MockState(id: string, phase: int, tearedDown: bool)

  function Next(s: MockState, cmd: SMCCmd): (MockState, CmdResult, bool) {
    var denied := (MockState(s.id, ABORT, true), CmdResult(DENIED, None), false);
    if s.id != cmd.sessionID then denied
    else if cmd.payload.Prepare? && Allowed(s.phase, PREPARE) then (s.(phase := PREPARE), PREPARED, true)
    else if cmd.payload.Session? && Allowed(s.phase, SESSION) then (MockState(s.id, FINISH, true), COMPUTED, false)
    else denied
  }

  /** The session after the commands, from right after Init. */
  function After(id: string, cmds: seq<SMCCmd>): MockState {
    if cmds == [] then MockState(id, INIT_PHASE, false)
    else Next(After(id, cmds[..|cmds| - 1]), cmds[|cmds| - 1]).0
  }

  predicate IsPrepare(id: string, cmd: SMCCmd) {
    cmd.sessionID == id && cmd.payload.Prepare?
  }

  predicate AllPrepare(id: string, cmds: seq<SMCCmd>) {
    forall i | 0 <= i < |cmds| :: IsPrepare(id, cmds[i])
  }

  /** The session is alive, its token out, exactly as long as all commands were PREPAREs of its
      own. */
  lemma {:induction false} AliveIff(id: string, cmds: seq<SMCCmd>)
    ensures !After(id, cmds).tearedDown <==> AllPrepare(id, cmds)
    ensures After(id, cmds).id == id
    ensures AllPrepare(id, cmds) ==> After(id, cmds).phase == if cmds == [] then INIT_PHASE else PREPARE
    ensures !AllPrepare(id, cmds) ==> After(id, cmds).phase >= FINISH
  {
    if cmds != [] {
      var n := |cmds| - 1;
      AliveIff(id, cmds[..n]);
      assert AllPrepare(id, cmds) <==> AllPrepare(id, cmds[..n]) && IsPrepare(id, cmds[n]);
    }
  }

  /** What the automaton accepts: the answer to the next command promises more iff that one and
      all before it are PREPAREs of the session; it is a computed result iff it answers a
      SESSION command that follows PREPAREs only, and at least one; any other command is
      denied. */
  lemma Accepts(id: string, cmds: seq<SMCCmd>, cmd: SMCCmd)
    ensures var (s, out, more) := Next(After(id, cmds), cmd);
      && (more <==> AllPrepare(id, cmds + [cmd]))
      && (out == CmdResult(SUCCESS, Some(1234.0)) <==>
            AllPrepare(id, cmds) && cmds != [] && cmd.sessionID == id && cmd.payload.Session?)
      && (more ==> out == CmdResult(SUCCESS, None))
      && (!more && out != CmdResult(SUCCESS, Some(1234.0)) ==> out == CmdResult(DENIED, None))
  {
    AliveIff(id, cmds);
    assert AllPrepare(id, cmds + [cmd]) <==> AllPrepare(id, cmds) && IsPrepare(id, cmd) by {
      assert forall i | 0 <= i < |cmds| :: (cmds + [cmd])[i] == cmds[i];
      assert (cmds + [cmd])[|cmds|] == cmd;
    }
  }
}
