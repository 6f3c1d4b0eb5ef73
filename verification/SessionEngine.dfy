/** Session and bridge as objects: smc/smc_fresco.go and node/modules/smcadvisor.go step by step,
    proved against the functions of module Session. */
module SessionEngine {
  import opened Protocol
  import S = Session

  /** The token channel of the connector. "holders" are the sessions that have a token out. */
  class TokenPool {
    var free: nat
    ghost var holders: set<object>

    ghost predicate Valid()
      reads this
    {
      free + |holders| == S.PARALLEL_SESSIONS
    }

    constructor ()
      ensures Valid() && holders == {}
    {
      free, holders := S.PARALLEL_SESSIONS, {};
    }

    method Take(ghost holder: object)
      requires Valid() && free > 0 && holder !in holders
      modifies this
      ensures Valid() && free == old(free) - 1 && holders == old(holders) + {holder}
    {
      free := free - 1;
      holders := holders + {holder};
    }

    /** A send on the channel. Nobody but a holder of a token can be sure that it has room. */
    method Put(ghost holder: object) returns (blocked: bool)
      requires free <= S.PARALLEL_SESSIONS
      modifies this
      ensures S.Pushed(old(free), 1, free, blocked) && holders == old(holders) - {holder}
      ensures old(Valid()) && holder in old(holders) ==> Valid() && !blocked
    {
      blocked := free == S.PARALLEL_SESSIONS;
      if !blocked {
        free := free + 1;
      }
      ghost var before := holders;
      holders := holders - {holder};
      assert holder in before ==> |before| == |holders| + 1 by {
        assert holder in before ==> before == holders + {holder};
      }
    }
  }

  class FrescoSession {
    const pool: TokenPool
    var state: S.ChatState
    var id: string

    ghost function View(): S.FrescoSession
      reads this
    {
      S.FrescoSession(state, id)
    }

    /** The session has a token out exactly until it is stopped. */
    ghost predicate Valid()
      reads this, pool
    {
      pool.Valid() && !state.RequestTearDown? && (this in pool.holders <==> state.Running?)
    }

    /** RequestSession with a token at hand */
    constructor (pool: TokenPool)
      requires pool.Valid() && pool.free > 0
      modifies pool
      ensures Valid() && View() == S.NEW_SESSION && this.pool == pool && pool.free == old(pool.free) - 1
    {
      this.pool, state, id := pool, S.Running, "";
      new;
      pool.Take(this);
    }

    // "blocked" says that an operation never returns, because it hangs on the token channel.

    method CondFreeResources() returns (blocked: bool)
      requires pool.free <= S.PARALLEL_SESSIONS
      modifies this`state, pool
      ensures var (s1, tokens) := S.CondFreeResources(old(View()));
        View() == s1 && S.Pushed(old(pool.free), tokens, pool.free, blocked)
      ensures pool.holders == if old(state).RequestTearDown? then old(pool.holders) - {this} else old(pool.holders)
      ensures old(pool.Valid()) && this in old(pool.holders) ==> pool.Valid() && !blocked
    {
      blocked := false;
      if state.RequestTearDown? {
        state := S.Stopped;
        blocked := pool.Put(this);
      }
    }

    method TearDown() returns (blocked: bool)
      requires pool.free <= S.PARALLEL_SESSIONS
      modifies this`state, pool
      ensures var (s1, tokens) := S.TearDown(old(View()));
        View() == s1 && S.Pushed(old(pool.free), tokens, pool.free, blocked)
      ensures old(Valid()) ==> Valid() && !blocked
    {
      blocked := false;
      if !state.Stopped? {
        state := S.RequestTearDown;
        blocked := CondFreeResources();
      }
    }

    /** "reply" is the status the backend gave to Init, None if the call failed. */
    method Init(newId: string, reply: Option<Flags>) returns (ok: bool, blocked: bool)
      requires pool.free <= S.PARALLEL_SESSIONS
      modifies this, pool
      ensures var (s1, tokens, good) := S.Init(old(View()), newId, reply);
        View() == s1 && ok == good && S.Pushed(old(pool.free), tokens, pool.free, blocked)
      ensures old(Valid()) && old(state).Running? ==> Valid() && !blocked
    {
      if reply.None? {
        blocked := TearDown();
        return false, blocked;
      }
      if reply.value != SUCCESS {
        blocked := TearDown();
        return false, blocked;
      }
      id := newId;
      state := S.Running;
      return true, false;
    }

    /** "reply" is what the backend answered to NextCmd, None if the call failed. */
    method NextCmd(cmd: SMCCmd, reply: Option<CmdResult>) returns (out: CmdResult, more: bool, blocked: bool)
      requires pool.free <= S.PARALLEL_SESSIONS
      modifies this`state, pool
      ensures var spec := S.NextCmd(old(View()), cmd, reply);
        View() == spec.0 && S.Pushed(old(pool.free), spec.1, pool.free, blocked) && out == spec.2 && more == spec.3
      ensures old(Valid()) && old(state).Running? ==> Valid() && !blocked
    {
      more := false;
      if id != cmd.sessionID || reply.None? {
        out := S.DENIAL;
        state := S.RequestTearDown;
      } else {
        out := reply.value;
        if out.status == SUCCESS_DONE {
          state := S.RequestTearDown;
        } else if out.status == SUCCESS || S.Mild(out.status) {
          more := true;
        } else {
          state := S.RequestTearDown;
        }
      }
      blocked := CondFreeResources();
    }

    /** The bridge's turn for a command to the backend; Init comes before the first one. */
    method Command(cmd: SMCCmd, cntCmds: nat, init: Option<Flags>, reply: Option<CmdResult>, ghost b: S.Bridge)
      returns (resp: CmdResult, more: bool, cnt: nat, ghost e: S.Event)
      requires Valid() && S.Disciplined(b) && b.pc.Looping? && b.session == View() && b.cntCmds == cntCmds
      modifies this, pool
      ensures Valid() && pool.free == old(pool.free) + if state.Stopped? then 1 else 0
      ensures e == S.Cmd(cmd, init, reply)
      ensures var b1 := S.BridgeStep(b, e).0;
        && S.Disciplined(b1) && b1.pc == (if more then S.Looping else S.Ending)
        && b1.session == View() && b1.sent == b.sent + [resp] && b1.cntCmds == cnt
    {
      hide S.Mild;
      e := S.Cmd(cmd, init, reply);
      S.BridgeStepKeeps(b, e);
      cnt := cntCmds;
      if cntCmds == 0 {
        var ok, _ := Init(cmd.sessionID, init);
        if !ok {
          return S.INVALID_SESSION, false, cnt, e;
        }
      }
      var blocked;
      resp, more, blocked := NextCmd(cmd, reply);
      cnt := cntCmds + 1;
    }

    /** bridgeStreamToSMC on a session fresh from RequestSession. "stream" is what the gateway
        sends until the stream ends, "sent" what the bridge sends back. "init" is the backend's
        status for the Init, "replies" are what it has for each message, should it get that far,
        "skips" says for which of them the peer's debug mode deals with a debug command. The steps
        taken are a run of the bridge of module Session on just these messages; it leaves some of
        them only after an answer that promised no more, and it ends with the session stopped and
        its token returned. */
    method Bridge(stream: seq<SMCCmd>, init: Option<Flags>, replies: seq<Option<CmdResult>>, skips: seq<bool>)
      returns (sent: seq<CmdResult>, ghost events: seq<S.Event>)
      requires Valid() && View() == S.NEW_SESSION && |replies| == |skips| == |stream|
      modifies this, pool
      ensures Valid() && state.Stopped? && pool.free == old(pool.free) + 1
      ensures S.BridgeCan(events)
      ensures var b, taken := S.BridgeRun(events), S.TakenEvents(events);
        && b.pc.Done? && S.Disciplined(b) && b.session == View() && b.sent == sent
        && |sent| == b.received == |taken| <= |stream|
        && (forall i | 0 <= i < |taken| :: taken[i] == S.MessageAt(stream[i], init, replies[i], skips[i]))
        && S.Taken(events) == stream[..b.received]
        && S.Answered(taken, sent) && (|sent| < |stream| ==> sent != [] && !S.GoesOn(taken))
    {
      hide S.Mild, S.BridgeRun, S.BridgeCan, S.Taken, S.TakenEvents, S.NextCmd, S.Init, S.Answered, S.GoesOn;
      var moreCmds, cntCmds, i := true, 0, 0;
      sent := [];
      S.NoStep();
      S.OneStep([], S.StreamOpened);
      events := [] + [S.StreamOpened];
      ghost var b := S.BridgeStep(S.NEW_BRIDGE, S.StreamOpened).0;
      while moreCmds && i < |stream|
        invariant Valid() && S.Disciplined(b) && b.session == View() && b.cntCmds == cntCmds
        invariant b.pc == if moreCmds then S.Looping else S.Ending
        invariant b.sent == sent && |sent| == i <= |stream|
        invariant S.BridgeCan(events) && S.BridgeRun(events) == b && S.Taken(events) == stream[..i]
        invariant |S.TakenEvents(events)| == i && !S.Broken(events)
        invariant forall k | 0 <= k < i ::
          S.TakenEvents(events)[k] == S.MessageAt(stream[k], init, replies[k], skips[k])
        invariant pool.free == old(pool.free) + if state.Stopped? then 1 else 0
      {
        var in_ := stream[i];
        assert stream[..i + 1] == stream[..i] + [in_];
        ghost var e := S.MessageAt(in_, init, replies[i], skips[i]);
        S.OneStep(events, e);
        if in_.payload.Debug? && skips[i] {
          S.BridgeStepKeeps(b, e);
          b, events := S.BridgeStep(b, e).0, events + [e];
          sent, moreCmds, i := sent + [S.SKIPPED], in_.payload.morePhases, i + 1;
          continue;
        }
        var resp, more, cnt, _ := Command(in_, cntCmds, init, replies[i], b);
        b, events := S.BridgeStep(b, e).0, events + [e];
        sent, moreCmds, cntCmds, i := sent + [resp], more, cnt, i + 1;
      }
      ghost var taken := S.TakenEvents(events);
      S.BridgeAnswers(events);
      if moreCmds {
        S.OneStep(events, S.RecvFailed);
        b, events := S.BridgeStep(b, S.RecvFailed).0, events + [S.RecvFailed];
      }
      S.BridgeStepKeeps(b, S.Deferred);
      S.OneStep(events, S.Deferred);
      b, events := S.BridgeStep(b, S.Deferred).0, events + [S.Deferred];
      assert S.TakenEvents(events) == taken;
      var _ := TearDown();
    }
  }
}
