/** What the job engine promises, over every run: any number of halts, recycles and aborts, any
    answers of the peers, any order of visiting the chats. */
module JobRuns {
  import opened Protocol
  import opened JobModel

  // One query

  function Contribution(reply: Option<CmdResult>): Flags {
    if Failed(reply) then ErrFlag(reply) else 0
  }

  /** Every flag the two loops of queryTargetsSync accumulate. */
  function Raised(xs: seq<Answer>): Flags {
    if xs == [] then 0 else Or(Raised(xs[..|xs| - 1]), Contribution(xs[|xs| - 1].reply))
  }

  lemma HandledOneMore(flags: Flags, xs: seq<Answer>, a: Answer)
    ensures Handled(flags, xs + [a]) <==> Handled(flags, xs) && (Failed(a.reply) ==> Includes(flags, ErrFlag(a.reply)))
  {
    assert forall b <- xs + [a] :: b in xs || b == a;
    assert a in xs + [a] && forall b <- xs :: b in xs + [a];
  }

  lemma ContributionHandled(flags: Flags, reply: Option<CmdResult>)
    ensures Includes(flags, Contribution(reply)) <==> (Failed(reply) ==> Includes(flags, ErrFlag(reply)))
  {
  }

  /** Comparing the accumulated flags once decides whether each single failure is handled. */
  lemma {:induction false} HandledIffIncluded(flags: Flags, xs: seq<Answer>)
    ensures Handled(flags, xs) <==> Includes(flags, Raised(xs))
  {
    if xs != [] {
      var ys, a := xs[..|xs| - 1], xs[|xs| - 1];
      assert xs == ys + [a];
      calc <==> {
        Handled(flags, xs);
        { HandledOneMore(flags, ys, a); ContributionHandled(flags, a.reply); }
        Handled(flags, ys) && Includes(flags, Contribution(a.reply));
        { HandledIffIncluded(flags, ys); }
        Includes(flags, Raised(ys)) && Includes(flags, Contribution(a.reply));
        { IncludesUnion(flags, Raised(ys), Contribution(a.reply)); }
        Includes(flags, Raised(xs));
      }
    }
  }

  /** The outcome of a query: no error iff no chat failed; otherwise the job halts iff every
      accumulated bit is one the client handles, and aborts iff one is not. */
  lemma QueryDecision(j: Job, x: Exchange)
    ensures QueryError(j, x).None? <==> forall a <- x.answers :: !Failed(a.reply)
    ensures QueryError(j, x).Some? ==>
      QueryError(j, x).value.status == if Includes(j.handleErrFlags, Raised(x.answers)) then Halted else Aborted
    ensures j.handleErrFlags == 0 && QueryError(j, x).Some? ==> QueryError(j, x).value.status == Aborted
  {
    HandledIffIncluded(j.handleErrFlags, x.answers);
    assert QueryError(j, x).None? <==> FailedPeers(x.answers) == {};
    forall a <- x.answers | Failed(a.reply) ensures a.peer in FailedPeers(x.answers) {
    }
    if j.handleErrFlags == 0 && QueryError(j, x).Some? {
      var p :| p in FailedPeers(x.answers);
      var a :| a in x.answers && Failed(a.reply) && a.peer == p;
      IncludesNothing(ErrFlag(a.reply));
      ErrFlagClassifies(a.reply);
    }
  }

  /** With the flags the orchestration submits jobs with, a communication failure seen by the
      worker itself aborts, because it counts with all bits of STREAM_ERR, while one reported
      in a status halts; a fault of the peer aborts. */
  lemma OrchestrationFlags(j: Job, x: Exchange)
    requires j.handleErrFlags == ERR_CLASS_NORM | ERR_CLASS_COMM
    requires QueryError(j, x).Some?
    ensures QueryError(j, x).value.status == Halted <==>
      forall a <- x.answers :: a.reply.Some? && a.reply.value.status & ERR_CLASS_FAULT == 0
  {
    forall a <- x.answers
      ensures (Failed(a.reply) ==> Includes(j.handleErrFlags, ErrFlag(a.reply))) <==>
        a.reply.Some? && a.reply.value.status & ERR_CLASS_FAULT == 0
    {
      if a.reply.Some? {
        var s := a.reply.value.status;
        assert (s & 224 & 224 != 0 ==> (32 | 128) & (s & 224) == s & 224) <==> s & 64 == 0;
      } else {
        assert 129 & 224 != 0 as bv32 && (32 | 128) & 129 != 129 as bv32;
      }
    }
  }

  predicate EachOnce(xs: seq<Answer>) {
    forall i, k | 0 <= i < k < |xs| :: xs[i].peer != xs[k].peer
  }

  lemma FailedOneMore(xs: seq<Answer>, a: Answer)
    ensures FailedPeers(xs + [a]) == FailedPeers(xs) + if Failed(a.reply) then {a.peer} else {}
    ensures Visited(xs + [a]) == Visited(xs) + {a.peer}
    ensures FailedPeers(xs) <= Visited(xs)
  {
  }

  lemma NewVisit(xs: seq<Answer>, a: Answer)
    requires EachOnce(xs + [a])
    ensures EachOnce(xs) && a.peer !in Visited(xs)
  {
    var ys := xs + [a];
    assert forall i | 0 <= i < |xs| :: ys[i] == xs[i] && ys[i].peer != ys[|xs|].peer;
  }

  lemma {:induction false} RepliesCount(xs: seq<Answer>)
    requires EachOnce(xs)
    ensures |Visited(xs)| == |xs|
    ensures |Replies(xs)| + |FailedPeers(xs)| == |xs|
  {
    if xs != [] {
      var n := |xs| - 1;
      assert xs == xs[..n] + [xs[n]];
      NewVisit(xs[..n], xs[n]);
      RepliesCount(xs[..n]);
      FailedOneMore(xs[..n], xs[n]);
    }
  }

  lemma {:induction false} FailingMembers(xs: seq<Answer>, p: PeerID)
    ensures p in Failing(xs) <==> p in FailedPeers(xs)
  {
    if xs != [] {
      var n := |xs| - 1;
      assert xs == xs[..n] + [xs[n]];
      FailingMembers(xs[..n], p);
      FailedOneMore(xs[..n], xs[n]);
    }
  }

  /** Every response is what some chat answered, free of error classes. */
  lemma {:induction false} RepliesAreClean(xs: seq<Answer>, r: CmdResult)
    requires r in Replies(xs)
    ensures ErrorClass(r.status) == 0
    ensures exists a :: a in xs && a.reply == Some(r)
  {
    var n := |xs| - 1;
    assert xs[n] in xs;
    if r in Replies(xs[..n]) {
      RepliesAreClean(xs[..n], r);
      var a :| a in xs[..n] && a.reply == Some(r);
      assert a in xs;
    }
  }

  lemma NotAmong(xs: seq<Answer>, a: Answer)
    requires a.peer !in Visited(xs)
    ensures a !in xs
  {
  }

  /** The answers that are this response. */
  function Giving(xs: seq<Answer>, r: CmdResult): set<Answer> {
    set a | a in xs && a.reply == Some(r)
  }

  /** And each response of every chat, free of error classes, is there, once for each chat. */
  lemma {:induction false} RepliesExactly(xs: seq<Answer>, r: CmdResult)
    requires EachOnce(xs)
    ensures multiset(Replies(xs))[r] == if ErrorClass(r.status) == 0 then |Giving(xs, r)| else 0
  {
    hide ErrorClass, Giving, EachOnce, Visited;
    if xs == [] {
      GivingNone(r);
    } else {
      var n := |xs| - 1;
      var a := xs[n];
      assert xs == xs[..n] + [a];
      NewVisit(xs[..n], a);
      RepliesExactly(xs[..n], r);
      NotAmong(xs[..n], a);
      GivingOneMore(xs[..n], a, r);
    }
  }

  lemma GivingNone(r: CmdResult)
    ensures Giving([], r) == {}
  {
  }

  lemma GivingOneMore(xs: seq<Answer>, a: Answer, r: CmdResult)
    requires a !in xs
    ensures |Giving(xs + [a], r)| == |Giving(xs, r)| + if a.reply == Some(r) then 1 else 0
  {
    var more := if a.reply == Some(r) then {a} else {};
    assert Giving(xs + [a], r) == Giving(xs, r) + more;
  }

  lemma {:induction false} UnsentMembers(xs: seq<Send>)
    ensures forall p <- Unsent(xs) :: exists s <- xs :: s.peer == p && !s.ok
  {
    if xs != [] {
      UnsentMembers(xs[..|xs| - 1]);
    }
  }

  /** The failing peers a query names are exactly the peers whose chats failed. */
  lemma NamedPeers(j: Job, x: Exchange, p: PeerID)
    requires ExchangeOf(j.chats, x)
    ensures p in Unsent(x.sends) + Failing(x.answers) <==> p in FailedPeers(x.answers)
  {
    FailingMembers(x.answers, p);
    UnsentMembers(x.sends);
    if p in Unsent(x.sends) {
      var s :| s in x.sends && s.peer == p && !s.ok;
      assert p in (set t | t in x.sends :: t.peer);
      assert p in Visited(x.answers);
      var a :| a in x.answers && a.peer == p;
      assert a.reply.None?;
    }
  }

  lemma CommAmongFailed(xs: seq<Answer>)
    ensures CommPeers(xs) <= FailedPeers(xs)
  {
    forall p <- CommPeers(xs) ensures p in FailedPeers(xs) {
      var a :| a in xs && CommFailed(a.reply) && a.peer == p;
      ErrFlagClassifies(a.reply);
    }
  }

  /** Every chat a query starts with either delivers one response or is a failing peer, and
      the error names exactly the failing peers. */
  lemma QueryPartition(j: Job, x: Exchange)
    requires ExchangeOf(j.chats, x)
    ensures |Replies(x.answers)| + |FailedPeers(x.answers)| == |j.chats|
    ensures FailedPeers(x.answers) <= j.chats.Keys
    ensures QueryError(j, x).Some? <==> FailedPeers(x.answers) != {}
    ensures QueryError(j, x).Some? ==> forall p :: p in QueryError(j, x).value.peers <==> p in FailedPeers(x.answers)
  {
    RepliesCount(x.answers);
    FailedOneMore(x.answers, Answer("", None));
    assert |j.chats| == |j.chats.Keys|;
    if QueryError(j, x).Some? {
      forall p ensures p in QueryError(j, x).value.peers <==> p in FailedPeers(x.answers) {
        NamedPeers(j, x, p);
      }
    }
  }

  /** Chats that failed on the communication layer are gone after a query, other failing ones
      are kept exactly when the job halts, all others are untouched. */
  lemma QueryKeepsChats(j: Job, x: Exchange)
    requires ExchangeOf(j.chats, x)
    ensures QueryError(j, x).None? ==> Query(j, x).chats == j.chats
    ensures QueryError(j, x).Some? ==>
      Query(j, x).chats == j.chats -
        if QueryError(j, x).value.status == Halted then CommPeers(x.answers) else FailedPeers(x.answers)
    ensures CommPeers(x.answers) <= FailedPeers(x.answers)
  {
    CommAmongFailed(x.answers);
    if QueryError(j, x).None? {
      assert CommPeers(x.answers) == {};
      assert j.chats - {} == j.chats;
    }
  }
}
