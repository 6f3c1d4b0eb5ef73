/** One chat between the gateway's job engine and one peer, seen as a wire: the two
    capacity-1 channels of directory/talk.go, the gateway handler that drains them
    (node/gateway.go, chatLoop), the stream to the peer and the peer's bridge
    (node/modules/smcadvisor.go), which strictly alternates one receive with one send.
    Messages carry the number of the command they are or answer. The numbers exist in
    the model only; the theorems are about them. */
module Chat {
  import opened Protocol

  const CHAT_BUF_LEN := 1

  datatype Order = Order(no: nat, cmd: SMCCmd)
  datatype Reply = Reply(no: nat, res: CmdResult)

  /** Where chatLoop stands. */
  datatype Handler =
    | Waiting
    | Forwarding(order: Order)
    | Receiving(order: Order)
    | Posting(reply: Reply, last: bool)
    | Returned

  /** Where the peer's bridge stands. */
  datatype Bridge = Listening | Working(order: Order) | Gone

  /** The last five fields are histories: the commands instructed and the feedback pulled by the
      engine, the commands the peer took and its answers, and whether the handler has lost the
      stream while it waited for an answer. */
  datatype Wire = Wire(
    to: seq<Order>,
    closed: bool,
    from: seq<Reply>,
    handler: Handler,
    down: seq<Order>,
    up: seq<Reply>,
    bridge: Bridge,
    orders: seq<SMCCmd>,
    pulled: seq<Reply>,
    heard: seq<Order>,
    said: seq<CmdResult>,
    lost: bool)

  /** newTalker, handed to a handler whose stream was opened for this chat alone. */
  const FRESH_WIRE := Wire([], false, [], Waiting, [], [], Listening, [], [], [], [], false)

  /** What may happen without the job engine. Streams fail at any time; a peer replies
      with any status, or leaves. */
  datatype EnvStep =
    | Take
    | Forward(ok: bool)
    | Receive(ok: bool)
    | Post
    | PeerTake
    | PeerReply(res: CmdResult, stay: bool)
    | PeerLeave

  /** The handler's and the peer's steps; a step that is not possible changes nothing. */
  function Env(w: Wire, e: EnvStep): Wire {
    match e
    case Take =>
      if w.handler.Waiting? && w.to != [] then
        w.(to := w.to[1..], handler := Forwarding(w.to[0]))
      else if w.handler.Waiting? && w.closed then
        w.(handler := Returned)
      else w
    case Forward(ok) =>
      if !w.handler.Forwarding? then w
      else if ok then w.(down := w.down + [w.handler.order], handler := Receiving(w.handler.order))
      else w.(handler := Returned)
    case Receive(ok) =>
      if !w.handler.Receiving? then w
      else if !ok then
        w.(handler := Posting(Reply(w.handler.order.no, CmdResult(STREAM_ERR, None)), true), lost := true)
      else if w.up != [] then
        w.(up := w.up[1..], handler := Posting(w.up[0], false))
      else w
    case Post =>
      if w.handler.Posting? && |w.from| < CHAT_BUF_LEN then
        w.(from := w.from + [w.handler.reply], handler := if w.handler.last then Returned else Waiting)
      else w
    case PeerTake =>
      if w.bridge.Listening? && w.down != [] then
        w.(down := w.down[1..], bridge := Working(w.down[0]), heard := w.heard + [w.down[0]])
      else w
    case PeerReply(res, stay) =>
      if w.bridge.Working? then
        w.(up := w.up + [Reply(w.bridge.order.no, res)], bridge := if stay then Listening else Gone,
           said := w.said + [res])
      else w
    case PeerLeave =>
      w.(bridge := Gone)
  }

  // The job engine's three operations on a chat.

  function Instructed(w: Wire, cmd: SMCCmd): Wire {
    w.(to := w.to + [Order(|w.orders|, cmd)], orders := w.orders + [cmd])
  }

  function Pulled(w: Wire): Wire
    requires w.from != []
  {
    w.(from := w.from[1..], pulled := w.pulled + [w.from[0]])
  }

  function Closed(w: Wire): Wire {
    w.(closed := true)
  }

  /** Every command instructed so far has been answered and pulled. */
  predicate Quiet(w: Wire) {
    |w.orders| == |w.pulled|
  }

  function Busy(h: Handler): nat {
    if h.Forwarding? || h.Receiving? || h.Posting? then 1 else 0
  }

  /** Messages across "to", the handler's hand and "from". */
  function InFlight(w: Wire): nat {
    |w.to| + Busy(w.handler) + |w.from|
  }

  /** Messages on the stream and in the peer's hand. */
  function OnStream(w: Wire): nat {
    |w.down| + (if w.bridge.Working? then 1 else 0) + |w.up|
  }

  /** An order in flight is the command last instructed, and carries it unchanged. */
  predicate Current(w: Wire, o: Order) {
    |w.orders| > 0 && o.no == |w.orders| - 1 && o.cmd == w.orders[o.no]
  }

  predicate Flow(w: Wire) {
    && |w.pulled| <= |w.orders| <= |w.pulled| + 1
    && InFlight(w) <= |w.orders| - |w.pulled|
    && OnStream(w) <= 1
    && (forall o <- w.to :: Current(w, o))
    && (forall r <- w.from :: r.no == |w.orders| - 1)
    && (match w.handler
        case Waiting => OnStream(w) == 0
        case Forwarding(o) => Current(w, o) && OnStream(w) == 0
        case Receiving(o) =>
          && Current(w, o)
          && (forall d <- w.down :: d == o)
          && (w.bridge.Working? ==> w.bridge.order == o)
          && (forall u <- w.up :: u.no == o.no)
        case Posting(r, last) => r.no == |w.orders| - 1 && (!last ==> OnStream(w) == 0)
        case Returned => true)
    && (forall i | 0 <= i < |w.pulled| :: w.pulled[i].no == i)
  }

  /** The reply is what the peer said to the command it answers. */
  predicate Attested(w: Wire, r: Reply) {
    0 <= r.no < |w.said| && r.res == w.said[r.no]
  }

  /** The handler's word for a peer whose stream broke while it owed an answer. */
  predicate BreakDown(w: Wire, r: Reply) {
    w.lost && r.res == CmdResult(STREAM_ERR, None)
  }

  /** The peer took a prefix of the commands, in order; every feedback on its way, waiting, or
      pulled is what the peer said, but for one after which no other ever comes. */
  predicate Faithful(w: Wire) {
    && |w.said| <= |w.heard| <= |w.orders|
    && (forall i | 0 <= i < |w.heard| :: w.heard[i] == Order(i, w.orders[i]))
    && (forall d <- w.down :: |w.heard| < |w.orders| && d == Order(|w.heard|, w.orders[|w.heard|]))
    && (match w.bridge
        case Listening => |w.said| == |w.heard|
        case Working(o) => |w.heard| == |w.said| + 1 && o == w.heard[|w.said|]
        case Gone => true)
    && (forall u <- w.up :: Attested(w, u))
    && (match w.handler
        case Waiting => |w.said| == |w.heard| == |w.orders| - |w.to| && !w.lost
        case Forwarding(_) => |w.said| == |w.heard| == |w.orders| - 1 && !w.lost
        case Receiving(_) => |w.heard| + |w.down| == |w.orders| && !w.lost
        case Posting(r, last) => if last then BreakDown(w, r) else Attested(w, r) && !w.lost
        case Returned => true)
    && (forall r <- w.from :: Attested(w, r) || (BreakDown(w, r) && w.handler.Returned?))
    && (forall i | 0 <= i < |w.pulled| ::
          Attested(w, w.pulled[i]) ||
          (BreakDown(w, w.pulled[i]) && i == |w.pulled| - 1 && w.handler.Returned? && w.from == []))
  }

  predicate Inv(w: Wire) {
    Flow(w) && Faithful(w)
  }

  /** What steps of the handler and the peer leave as it is: feedback that waits to be pulled is
      never lost. */
  predicate Undisturbed(w: Wire, w': Wire) {
    && w'.orders == w.orders
    && w'.pulled == w.pulled
    && w'.closed == w.closed
    && w.from <= w'.from
  }

  lemma UndisturbedSelf(w: Wire)
    ensures Undisturbed(w, w)
  {
  }

  lemma UndisturbedTwice(w: Wire, w1: Wire, w2: Wire)
    requires Undisturbed(w, w1) && Undisturbed(w1, w2)
    ensures Undisturbed(w, w2)
  {
  }

  lemma QuietAlike(w: Wire, w': Wire)
    requires Undisturbed(w, w')
    ensures Quiet(w) == Quiet(w')
  {
  }

  lemma SendingFlows(w: Wire, e: EnvStep)
    requires Flow(w) && (e.Take? || e.Forward?)
    ensures Flow(Env(w, e)) && Undisturbed(w, Env(w, e))
  {
    assert w.to != [] ==> w.to[0] in w.to;
  }

  lemma AnsweringFlows(w: Wire, e: EnvStep)
    requires Flow(w) && (e.Receive? || e.Post?)
    ensures Flow(Env(w, e)) && Undisturbed(w, Env(w, e))
  {
    assert w.up != [] ==> w.up[0] in w.up;
  }

  lemma SendingIsFaithful(w: Wire, e: EnvStep)
    requires Inv(w) && (e.Take? || e.Forward?)
    ensures Faithful(Env(w, e))
  {
    assert w.to != [] ==> w.to[0] in w.to;
  }

  lemma AnsweringIsFaithful(w: Wire, e: EnvStep)
    requires Inv(w) && (e.Receive? || e.Post?)
    ensures Faithful(Env(w, e))
  {
    assert w.up != [] ==> w.up[0] in w.up;
  }

  lemma PeerFlows(w: Wire, e: EnvStep)
    requires Flow(w) && (e.PeerTake? || e.PeerReply? || e.PeerLeave?)
    ensures Flow(Env(w, e)) && Undisturbed(w, Env(w, e))
  {
    assert w.down != [] ==> w.down[0] in w.down;
  }

  lemma PeerIsFaithful(w: Wire, e: EnvStep)
    requires Inv(w) && (e.PeerTake? || e.PeerReply? || e.PeerLeave?)
    ensures Faithful(Env(w, e))
  {
    assert w.down != [] ==> w.down[0] in w.down;
  }

  lemma EnvKeeps(w: Wire, e: EnvStep)
    requires Inv(w)
    ensures Inv(Env(w, e)) && Undisturbed(w, Env(w, e))
  {
    hide Flow, Faithful, Env, Undisturbed;
    if e.Take? || e.Forward? {
      SendingFlows(w, e);
      SendingIsFaithful(w, e);
    } else if e.Receive? || e.Post? {
      AnsweringFlows(w, e);
      AnsweringIsFaithful(w, e);
    } else {
      PeerFlows(w, e);
      PeerIsFaithful(w, e);
    }
  }

  lemma InstructKeeps(w: Wire, cmd: SMCCmd)
    requires Inv(w) && Quiet(w)
    ensures |w.to| < CHAT_BUF_LEN
    ensures Inv(Instructed(w, cmd))
  {
  }

  lemma PullKeeps(w: Wire)
    requires Inv(w) && w.from != []
    ensures Inv(Pulled(w)) && Quiet(Pulled(w)) && !Quiet(w)
    ensures Pulled(w).pulled == w.pulled + [Reply(|w.orders| - 1, w.from[0].res)]
  {
    assert w.from[0] in w.from;
  }

  lemma CloseKeeps(w: Wire)
    requires Inv(w)
    ensures Inv(Closed(w))
  {
  }

  lemma FreshInv()
    ensures Inv(FRESH_WIRE)
  {
  }

  // Whole runs: any interleaving of the engine's operations with everybody else's steps.

  datatype Act = EnvAct(e: EnvStep) | InstructAct(cmd: SMCCmd) | PullAct | CloseAct

  /** The discipline of queryTargetsSync: one command at a time, nothing after closing. */
  predicate Disciplined(w: Wire, a: Act) {
    match a
    case EnvAct(_) => true
    case InstructAct(_) => !w.closed && Quiet(w)
    case PullAct => !w.closed && w.from != []
    case CloseAct => !w.closed
  }

  function Act1(w: Wire, a: Act): Wire
    requires Disciplined(w, a)
  {
    match a
    case EnvAct(e) => Env(w, e)
    case InstructAct(cmd) => Instructed(w, cmd)
    case PullAct => Pulled(w)
    case CloseAct => Closed(w)
  }

  /** w' is reached from a fresh wire by the acts, each of them disciplined. */
  ghost predicate Reaches(acts: seq<Act>, w': Wire) {
    if acts == [] then w' == FRESH_WIRE
    else
      var n := |acts| - 1;
      exists w :: Reaches(acts[..n], w) && Disciplined(w, acts[n]) && w' == Act1(w, acts[n])
  }

  lemma ActKeeps(w: Wire, a: Act)
    requires Inv(w) && Disciplined(w, a)
    ensures Inv(Act1(w, a))
  {
    hide Inv, Env, Undisturbed;
    match a
    case EnvAct(e) => EnvKeeps(w, e);
    case InstructAct(cmd) => InstructKeeps(w, cmd);
    case PullAct => PullKeeps(w);
    case CloseAct => CloseKeeps(w);
  }

  lemma {:induction false} ReachableInv(acts: seq<Act>, w: Wire)
    requires Reaches(acts, w)
    ensures Inv(w)
  {
    hide Inv, Disciplined, Act1;
    if acts == [] {
      FreshInv();
    } else {
      var n := |acts| - 1;
      var v :| Reaches(acts[..n], v) && Disciplined(v, acts[n]) && w == Act1(v, acts[n]);
      ReachableInv(acts[..n], v);
      ActKeeps(v, acts[n]);
    }
  }

  /** Stop and wait, in every interleaving: one message in flight at most; a feedback
      waiting to be pulled answers the command instructed last; the i-th feedback
      pulled answered the i-th command; neither an instruction nor the handler's
      feedback ever meets a full buffer, a chat closed with a command still buffered
      included. */
  lemma {:induction false} StopAndWait(acts: seq<Act>, w: Wire)
    requires Reaches(acts, w)
    ensures InFlight(w) <= 1
    ensures forall r <- w.from :: r.no == |w.orders| - 1
    ensures forall i | 0 <= i < |w.pulled| :: w.pulled[i].no == i
    ensures Quiet(w) ==> w.from == [] && w.to == [] && |w.to| < CHAT_BUF_LEN
    ensures w.handler.Posting? ==> |w.from| < CHAT_BUF_LEN
  {
    ReachableInv(acts, w);
  }

  lemma LostOnly(w: Wire, a: Act)
    requires Disciplined(w, a) && Act1(w, a).lost
    ensures w.lost || a == EnvAct(Receive(false))
  {
  }

  lemma {:induction false} LostByFailure(acts: seq<Act>, w: Wire)
    requires Reaches(acts, w) && w.lost
    ensures EnvAct(Receive(false)) in acts
  {
    hide Disciplined, Act1;
    if acts != [] {
      var n := |acts| - 1;
      var v :| Reaches(acts[..n], v) && Disciplined(v, acts[n]) && w == Act1(v, acts[n]);
      LostOnly(v, acts[n]);
      if v.lost {
        LostByFailure(acts[..n], v);
      }
    }
  }

  /** End to end, in every interleaving: the peer takes a prefix of the commands, unchanged and in
      order; the i-th feedback pulled is what the peer said to the i-th command, or a stream error,
      in which case the stream broke before the answer came and no other feedback ever follows. */
  lemma PeersWord(acts: seq<Act>, w: Wire)
    requires Reaches(acts, w)
    ensures |w.said| <= |w.heard| <= |w.orders|
    ensures forall i | 0 <= i < |w.heard| :: w.heard[i].cmd == w.orders[i]
    ensures forall i | 0 <= i < |w.pulled| ::
      (i < |w.said| && w.pulled[i].res == w.said[i]) ||
      (w.pulled[i].res == CmdResult(STREAM_ERR, None) && i == |w.pulled| - 1
        && w.handler.Returned? && w.from == [] && EnvAct(Receive(false)) in acts)
  {
    ReachableInv(acts, w);
    if w.lost {
      LostByFailure(acts, w);
    }
  }

  /** Some stream to the peer failed. */
  predicate StreamFailed(acts: seq<Act>) {
    EnvAct(Forward(false)) in acts || EnvAct(Receive(false)) in acts
  }

  lemma ReturnsOnce(w: Wire, a: Act)
    requires Disciplined(w, a) && Act1(w, a).handler.Returned?
    requires !w.handler.Returned? && (w.handler.Posting? && w.handler.last ==> w.lost)
    ensures (w.closed && w.to == []) || w.lost || a == EnvAct(Forward(false))
  {
  }

  lemma StaysReturned(w: Wire, a: Act)
    requires Disciplined(w, a) && w.closed && w.to == []
    ensures Act1(w, a).closed && Act1(w, a).to == []
  {
  }

  /** The handler of a chat stops only because the chat was closed and it has taken every command,
      also one still buffered at that moment, or because its stream failed. */
  lemma {:induction false} WhyReturned(acts: seq<Act>, w: Wire)
    requires Reaches(acts, w) && w.handler.Returned?
    ensures (w.closed && w.to == []) || StreamFailed(acts)
  {
    hide Disciplined, Act1, Inv;
    if acts != [] {
      var n := |acts| - 1;
      var v :| Reaches(acts[..n], v) && Disciplined(v, acts[n]) && w == Act1(v, acts[n]);
      ReachableInv(acts[..n], v);
      LastIsLost(v);
      if v.lost {
        LostByFailure(acts[..n], v);
      } else if v.handler.Returned? {
        WhyReturned(acts[..n], v);
        if v.closed && v.to == [] {
          StaysReturned(v, acts[n]);
        }
      } else {
        ReturnsOnce(v, acts[n]);
        if v.closed && v.to == [] {
          StaysReturned(v, acts[n]);
        }
      }
    }
  }

  lemma LastIsLost(w: Wire)
    requires Inv(w)
    ensures w.handler.Posting? && w.handler.last ==> w.lost
  {
  }

  /** A feedback without an error class is never the handler's. */
  lemma CleanIsSaid(w: Wire, i: nat)
    requires Inv(w) && i < |w.pulled| && ErrorClass(w.pulled[i].res.status) == 0
    ensures w.pulled[i].no == i < |w.said| && w.pulled[i].res == w.said[i]
    ensures |w.said| <= |w.heard| <= |w.orders| && w.heard[i].cmd == w.orders[i]
  {
    assert 129 & 224 != 0 as bv32;
  }

  /** A chat whose command went unanswered at a pull must be given up: instructing it once
      more would let the late reply answer the wrong command. */
  lemma LateReplyWithoutClosing(c1: SMCCmd, c2: SMCCmd, res: CmdResult) returns (w: Wire)
    ensures w.orders == [c1, c2]
    ensures w.from == [Reply(0, res)]
  {
    w := Instructed(FRESH_WIRE, c1);
    w := Env(Env(Env(w, Take), Forward(true)), PeerTake);
    w := Instructed(w, c2);
    w := Env(Env(Env(w, PeerReply(res, true)), Receive(true)), Post);
  }
}
