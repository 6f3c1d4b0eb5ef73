/** What every operation on a job keeps: its chats are accounted for, and its control state,
    progress and feedback stay in step. */
module JobInvariant {
  import opened Protocol
  import opened JobModel

  predicate Distinct(chats: map<PeerID, PeerChat>) {
    forall p, q | p in chats && q in chats && p != q :: chats[p].line != chats[q].line
  }

  /** Every line ever opened is either live or closed, never both, and closed once only. */
  ghost predicate Conserved(j: Job) {
    && Distinct(j.chats)
    && (forall p | p in j.chats ::
          j.chats[p].peer == p && j.chats[p].line in j.everOpened && j.chats[p].line !in j.closes)
    && (forall l <- j.closes :: l in j.everOpened && j.closes[l] == 1)
    && (forall l <- j.everOpened :: l in j.closes || l in Lines(j.chats))
  }

  /** The job is over: finished, aborted by the worker or aborted by the client. */
  predicate Over(j: Job) {
    j.feedback.closed && !IsHalted(j)
  }

  ghost predicate Control(j: Job) {
    && (j.queued ==> j.feedback == Feedback(j.progress, [], false))
    && (j.lastErr.Some? ==> j.feedback.closed && j.lastErr.value.status in {Halted, Aborted})
    && (Over(j) ==> j.chats == map[])
  }

  ghost predicate Ledger(j: Job) {
    && j.progress <= |j.instr.tasks|
    && (forall e <- j.asked :: e.0 in j.everOpened && e.1 <= j.progress)
    && j.clean <= j.asked
  }

  /** Results arrive in blocks of non-decreasing phase, from the phase the channel was made
      at; an open channel holds completed phases only. */
  predicate InOrder(f: Feedback, progress: nat) {
    && f.start <= progress
    && (forall i | 0 <= i < |f.items| :: f.start <= f.items[i].progress <= progress)
    && (forall i, k | 0 <= i < k < |f.items| :: f.items[i].progress <= f.items[k].progress)
    && (!f.closed ==> forall i | 0 <= i < |f.items| :: f.items[i].progress < progress)
  }

  ghost predicate Inv(j: Job) {
    Conserved(j) && Control(j) && Ledger(j) && InOrder(j.feedback, j.progress)
  }

  lemma RevokeConserves(j: Job, ps: set<PeerID>)
    requires Conserved(j)
    ensures Conserved(Revoke(j, ps))
  {
    var dropped := Lines(Only(j.chats, ps));
    var j' := Revoke(j, ps);
    forall l <- j'.everOpened ensures l in j'.closes || l in Lines(j'.chats) {
      if l !in j.closes {
        var p :| p in j.chats && j.chats[p].line == l;
        if p in ps {
          assert p in Only(j.chats, ps) && l in dropped;
        } else {
          assert p in j'.chats;
        }
      }
    }
    forall p | p in j'.chats ensures j'.chats[p].line !in dropped {
    }
  }

  lemma LinesSplit(chats: map<PeerID, PeerChat>, ps: set<PeerID>, qs: set<PeerID>)
    requires Distinct(chats)
    ensures Lines(Only(chats, ps + qs)) == Lines(Only(chats, ps)) + Lines(Only(chats - ps, qs))
    ensures Lines(Only(chats, ps)) !! Lines(Only(chats - ps, qs))
  {
    var a, b, c := Only(chats, ps), Only(chats - ps, qs), Only(chats, ps + qs);
    assert c.Keys == a.Keys + b.Keys;
    forall l <- Lines(c) ensures l in Lines(a) + Lines(b) {
      var p :| p in c && c[p].line == l;
      assert p in a || p in b;
    }
    forall l <- Lines(a) + Lines(b) ensures l in Lines(c) {
      var p :| (p in a && a[p].line == l) || (p in b && b[p].line == l);
      assert p in c;
    }
  }

  /** Revoking in two steps or in one is the same. */
  lemma RevokeTwice(j: Job, ps: set<PeerID>, qs: set<PeerID>)
    requires Distinct(j.chats)
    ensures Revoke(Revoke(j, ps), qs) == Revoke(j, ps + qs)
  {
    hide Lines, Only, Distinct;
    LinesSplit(j.chats, ps, qs);
    DisjointUnion(Lines(Only(j.chats, ps)), Lines(Only(j.chats - ps, qs)));
    assert j.chats - ps - qs == j.chats - (ps + qs);
  }

  lemma DisjointUnion<T>(a: set<T>, b: set<T>)
    requires a !! b
    ensures multiset(a + b) == multiset(a) + multiset(b)
  {
  }

  /** Peers without a chat do not matter to Revoke. */
  lemma RevokeOnlyLive(j: Job, ps: set<PeerID>)
    ensures Revoke(j, ps) == Revoke(j, ps * j.chats.Keys)
  {
    assert Only(j.chats, ps) == Only(j.chats, ps * j.chats.Keys);
    assert j.chats - ps == j.chats - (ps * j.chats.Keys);
  }

  lemma HaltOrAbortKeeps(j: Job, e: PeerError)
    requires Conserved(j) && Ledger(j) && e.status in {Halted, Aborted} && !j.queued
    requires InOrder(j.feedback.(closed := true), j.progress)
    ensures Inv(HaltOrAbort(j, e))
  {
    var j1 := j.(lastErr := Some(e), feedback := j.feedback.(closed := true));
    assert Conserved(j1);
    RevokeConserves(j1, j1.chats.Keys);
  }

  lemma FinishKeeps(j: Job)
    requires Inv(j) && !j.queued
    ensures Inv(Finish(j))
  {
    var j1 := j.(feedback := j.feedback.(closed := true));
    assert Conserved(j1);
    RevokeConserves(j1, j1.chats.Keys);
  }

  /** What opening chats does, whatever the order and whoever answers. */
  lemma {:induction false} OpenPeersFacts(j: Job, attempts: seq<Attempt>)
    requires forall a <- attempts :: a.cid in j.instr.participants
    ensures var (j', missing) := OpenPeers(j, attempts);
      && j' == j.(chats := j'.chats, everOpened := j'.everOpened, log := j'.log)
      && (forall p | p in j.chats :: p in j'.chats && j'.chats[p] == j.chats[p])
      && (forall p | p in j'.chats && p !in j.chats ::
            exists a <- attempts :: j.instr.participants[a.cid] == p && j'.chats[p].cid == a.cid
              && a.line == Some(j'.chats[p].line))
      && (missing == [] ==> forall a <- attempts :: j.instr.participants[a.cid] in j'.chats)
  {
    if attempts != [] {
      var n := |attempts| - 1;
      OpenPeersFacts(j, attempts[..n]);
      var (j1, missing1) := OpenPeers(j, attempts[..n]);
      var (j', missing) := OpenPeers(j, attempts);
      assert attempts[n] in attempts;
      assert forall a <- attempts[..n] :: a in attempts;
      assert forall a <- attempts :: a in attempts[..n] || a == attempts[n];
    }
  }

  lemma AddChatConserves(j: Job, p: PeerID, chat: PeerChat)
    requires Conserved(j) && p !in j.chats && chat.peer == p && chat.line !in j.everOpened
    ensures Conserved(Opened(j, p, chat.line, chat.cid))
  {
    var chats := j.chats[p := chat];
    forall l <- j.everOpened ensures l in j.closes || l in Lines(chats) {
      if l !in j.closes {
        var q :| q in j.chats && j.chats[q].line == l;
        assert chats[q].line == l;
      }
    }
    assert chats[p].line in Lines(chats);
  }

  lemma {:induction false} OpenPeersConserves(j: Job, attempts: seq<Attempt>)
    requires Conserved(j) && Fresh(j, attempts)
    requires forall a <- attempts :: a.cid in j.instr.participants
    ensures Conserved(OpenPeers(j, attempts).0)
    ensures forall l <- OpenPeers(j, attempts).0.everOpened ::
      l in j.everOpened || exists i :: 0 <= i < |attempts| && attempts[i].line == Some(l)
  {
    if attempts != [] {
      var n := |attempts| - 1;
      OpenPeersConserves(j, attempts[..n]);
      OpenPeersFacts(j, attempts[..n]);
      var j1 := OpenPeers(j, attempts[..n]).0;
      var a := attempts[n];
      assert a in attempts;
      var p := j.instr.participants[a.cid];
      if p !in j1.chats && a.line.Some? {
        AddChatConserves(j1, p, PeerChat(p, a.line.value, a.cid));
      }
    }
  }

  predicate Connected(j: Job) {
    j.instr.participants.Values <= j.chats.Keys
  }

  /** openPeerChats with nothing to open leaves the job alone. */
  lemma {:induction false} OpensNothing(j: Job, attempts: seq<Attempt>)
    requires forall a <- attempts :: a.cid in j.instr.participants
    requires Connected(j)
    ensures OpenPeers(j, attempts) == (j, [])
  {
    if attempts != [] {
      OpensNothing(j, attempts[..|attempts| - 1]);
      assert attempts[|attempts| - 1] in attempts;
    }
  }

  /** Opening succeeds with every peer iff all participants are connected afterwards. */
  lemma OpensAll(j: Job, attempts: seq<Attempt>)
    requires AttemptsOf(j, attempts)
    ensures OpenPeers(j, attempts).1 == [] ==> Connected(OpenPeers(j, attempts).0)
    ensures OpenPeers(j, attempts) == (j, []) <==> Connected(j)
  {
    OpenPeersFacts(j, attempts);
    var (j1, missing) := OpenPeers(j, attempts);
    if missing == [] {
      forall p <- j.instr.participants.Values ensures p in j1.chats {
        var cid :| cid in j.instr.participants && j.instr.participants[cid] == p;
        assert cid in (set a | a in attempts :: a.cid);
      }
    }
    if Connected(j) {
      OpensNothing(j, attempts);
    }
  }
}
