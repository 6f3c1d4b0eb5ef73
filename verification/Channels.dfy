/** The chats of one job as mutable channels. Between any two operations of the job engine the
    handlers and peers at the other ends take any number of steps. The preconditions of
    Instruct and Close are Go's: a send on a closed channel and a second close panic. */
module Channels {
  import opened Protocol
  import opened Chat

  /** A context may become done at any time and stays done. */
  class Context {
    var done: bool

    constructor ()
      ensures !done
    {
      done := false;
    }

    method Err() returns (expired: bool)
      modifies this
      ensures old(done) ==> done
      ensures expired == done
    {
      if * {
        done := true;
      }
      return done;
    }
  }

  class Network {
    var wires: map<nat, Wire>
    var next: nat

    ghost predicate Valid()
      reads this
    {
      forall l <- wires :: Inv(wires[l]) && l < next
    }

    /** A live chat with no command outstanding. */
    ghost predicate Idle(l: nat)
      reads this
    {
      l in wires && !wires[l].closed && Quiet(wires[l])
    }

    constructor ()
      ensures Valid() && wires == map[]
    {
      wires, next := map[], 0;
    }

    /** Handlers and peers work on, in any interleaving. */
    method Interfere()
      requires Valid()
      modifies this
      ensures Valid() && next == old(next) && wires.Keys == old(wires.Keys)
      ensures forall l <- wires :: Undisturbed(old(wires)[l], wires[l])
    {
      hide Inv, Env, Undisturbed;
      forall l <- wires ensures Undisturbed(wires[l], wires[l]) {
        UndisturbedSelf(wires[l]);
      }
      var steps: nat := *;
      while steps > 0
        invariant Valid() && next == old(next) && wires.Keys == old(wires.Keys)
        invariant forall l <- wires :: Undisturbed(old(wires)[l], wires[l])
      {
        var l: nat := *;
        var e: EnvStep := *;
        if l in wires {
          EnvKeeps(wires[l], e);
          UndisturbedTwice(old(wires)[l], wires[l], Env(wires[l], e));
          wires := wires[l := Env(wires[l], e)];
        }
        steps := steps - 1;
      }
    }

    /** RequestChat: some handler of the peer takes the chat, unless the context ends first.
        "ready" says which comes first. */
    method RequestChat(ready: bool, ctx: Context) returns (line: Option<nat>)
      requires Valid()
      modifies this, ctx
      ensures Valid() && old(wires.Keys) <= wires.Keys
      ensures forall l <- old(wires) :: Undisturbed(old(wires)[l], wires[l])
      ensures line.Some? <==> ready
      ensures line.None? ==> wires.Keys == old(wires.Keys) && ctx.done
      ensures old(ctx.done) ==> ctx.done
      ensures line.Some? ==>
        line.value !in old(wires) && wires.Keys == old(wires.Keys) + {line.value} && wires[line.value] == FRESH_WIRE
    {
      hide Inv, Undisturbed;
      FreshInv();
      Interfere();
      if ready {
        wires := wires[next := FRESH_WIRE];
        line := Some(next);
        next := next + 1;
      } else {
        ctx.done := true;
        line := None;
      }
    }

    /** The select of Instruct. The buffer has room, so it fails only by the context. */
    method Instruct(l: nat, cmd: SMCCmd, ctx: Context) returns (ok: bool)
      requires Valid() && Idle(l)
      modifies this, ctx
      ensures Valid() && wires.Keys == old(wires.Keys)
      ensures forall m <- wires | m != l :: Undisturbed(old(wires)[m], wires[m])
      ensures Undisturbed(if ok then Instructed(old(wires)[l], cmd) else old(wires)[l], wires[l])
      ensures !ok ==> ctx.done
      ensures old(ctx.done) ==> ctx.done
    {
      hide Inv, Quiet;
      Interfere();
      QuietAlike(old(wires)[l], wires[l]);
      var expired := ctx.Err();
      InstructKeeps(wires[l], cmd);
      ok := *;
      if !expired {
        ok := true;
      }
      if ok {
        wires := wires[l := Instructed(wires[l], cmd)];
      }
    }

    /** pullRespUntilDone: wait for feedback until the context is done, then take it only if
        it is there already. */
    method PullRespUntilDone(l: nat, ctx: Context) returns (resp: Option<CmdResult>)
      requires Valid() && l in wires && !wires[l].closed
      modifies this, ctx
      ensures Valid() && wires.Keys == old(wires.Keys)
      ensures forall m <- wires | m != l :: Undisturbed(old(wires)[m], wires[m])
      ensures wires[l].orders == old(wires)[l].orders && !wires[l].closed
      ensures resp.Some? ==>
        && !Quiet(old(wires)[l]) && Quiet(wires[l])
        && wires[l].pulled == old(wires)[l].pulled + [Reply(|wires[l].orders| - 1, resp.value)]
      ensures resp.None? ==> wires[l].pulled == old(wires)[l].pulled && ctx.done
      ensures old(ctx.done) ==> ctx.done
      ensures old(ctx.done) && old(wires)[l].from != [] ==> resp == Some(old(wires)[l].from[0].res)
    {
      hide Inv, Quiet;
      var expired := ctx.Err();
      Interfere();
      assert Quiet(old(wires)[l]) == Quiet(wires[l]) by {
        QuietAlike(old(wires)[l], wires[l]);
      }
      var contextFirst: bool := *;
      if wires[l].from != [] && (expired || !contextFirst) {
        PullKeeps(wires[l]);
        resp := Some(wires[l].from[0].res);
        wires := wires[l := Pulled(wires[l])];
      } else {
        ctx.done := true;
        resp := None;
      }
    }

    method Close(l: nat)
      requires Valid() && l in wires && !wires[l].closed
      modifies this
      ensures Valid() && wires == old(wires)[l := Closed(old(wires)[l])]
    {
      hide Inv;
      CloseKeeps(wires[l]);
      wires := wires[l := Closed(wires[l])];
    }
  }
}
