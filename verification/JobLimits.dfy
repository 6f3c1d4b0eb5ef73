/** Where recycling falls short of what one would expect of it, because recycleJob drops
    unused chats by the participants of the previous instruction, not of the new one; and
    exactly when it does not. */
module JobLimits {
  import opened MapOrder
  import opened Protocol
  import opened JobModel
  import opened JobInvariant
  import opened JobLifetime

  /** A successful recycle leaves just the chats of the new participants iff every connected
      participant of the previous instruction is a participant of the new one, and no new
      one was none before. */
  lemma LiveAreNewIff(j: Job, instr: Instr, flags: Option<Flags>, order: seq<ChannelID>)
    requires IsOrder(order, instr.participants.Keys) && Recyclable(j, instr)
    ensures Recycle(j, instr, flags, order).0.chats.Keys == instr.participants.Values <==>
      && instr.participants.Values <= j.instr.participants.Values
      && j.chats.Keys * j.instr.participants.Values <= instr.participants.Values
  {
    RecycleBracket(j, instr, flags, order);
  }

  /** After a recycled job has tried to open what it misses, whoever answered, the barrier
      holds iff the job is still at phase 0 or got no new chat: a chat opened at a later phase
      has answered nothing. */
  lemma BarrierAfterResumeIff(j: Job, instr: Instr, flags: Option<Flags>, order: seq<ChannelID>, attempts: seq<Attempt>)
    requires Inv(j) && Barrier(j) && IsOrder(order, instr.participants.Keys)
    requires Recyclable(j, instr)
    requires AttemptsOf(Recycle(j, instr, flags, order).0, attempts)
    ensures var j1 := Recycle(j, instr, flags, order).0;
      Barrier(OpenPeers(j1, attempts).0) <==> j.progress == 0 || OpenPeers(j1, attempts).0.chats == j1.chats
  {
    hide Recycle, OpenPeers, Conserved, InOrder, Control, Fresh;
    var j1 := Recycle(j, instr, flags, order).0;
    RecycleKeeps(j, instr, flags, order);
    OpenPeersFacts(j1, attempts);
    var j2 := OpenPeers(j1, attempts).0;
    if p :| p in j2.chats && p !in j1.chats && j.progress > 0 {
      LateChatBreaksBarrier(j1, attempts, p);
    }
  }

  /** If everybody answers, that is to name participants of the previous instruction only. */
  lemma NoNewChatIff(j: Job, instr: Instr, flags: Option<Flags>, order: seq<ChannelID>, attempts: seq<Attempt>)
    requires Inv(j) && IsOrder(order, instr.participants.Keys) && Recyclable(j, instr)
    requires AttemptsOf(Recycle(j, instr, flags, order).0, attempts)
    requires OpenPeers(Recycle(j, instr, flags, order).0, attempts).1 == []
    ensures var j1 := Recycle(j, instr, flags, order).0;
      OpenPeers(j1, attempts).0.chats == j1.chats <==> instr.participants.Values <= j.instr.participants.Values
  {
    hide Recycle, OpenPeers, Conserved, InOrder, Control, Fresh;
    var j1 := Recycle(j, instr, flags, order).0;
    ResumesConnectedIff(j, instr, flags, order);
    OpenPeersFacts(j1, attempts);
    OpensAll(j1, attempts);
  }

  lemma LateChatBreaksBarrier(j: Job, attempts: seq<Attempt>, p: PeerID)
    requires Inv(j) && j.progress > 0 && AttemptsOf(j, attempts)
    requires p in OpenPeers(j, attempts).0.chats && p !in j.chats
    ensures !Barrier(OpenPeers(j, attempts).0)
  {
    hide OpenPeers, Conserved, InOrder, Control;
    var j1 := OpenPeers(j, attempts).0;
    OpenPeersFacts(j, attempts);
    var a :| a in attempts && a.line == Some(j1.chats[p].line);
    assert (j1.chats[p].line, 0) !in j.clean;
  }

  /** The chats of participants that a new instruction leaves out keep their channel IDs. All
      live chats carry different IDs iff none of them keeps one that is given anew to a
      participant of the previous instruction; for others are disconnected themselves. */
  lemma DistinctIDsIff(j: Job, instr: Instr, flags: Option<Flags>, order: seq<ChannelID>)
    requires IsOrder(order, instr.participants.Keys) && Recyclable(j, instr)
    requires Injective(instr.participants)
    requires forall p, q | p in j.chats && q in j.chats && p != q :: j.chats[p].cid != j.chats[q].cid
    ensures var live := Recycle(j, instr, flags, order).0.chats;
      (forall p, q | p in live && q in live && p != q :: live[p].cid != live[q].cid) <==>
      (forall p | p in j.chats && p in j.instr.participants.Values && p !in instr.participants.Values ::
         j.chats[p].cid in instr.participants ==> instr.participants[j.chats[p].cid] !in j.instr.participants.Values)
  {
    hide Recycle;
    RecycleBracket(j, instr, flags, order);
    var live := Recycle(j, instr, flags, order).0.chats;
    forall p | p in live && p !in instr.participants.Values && live[p].cid in instr.participants
        && instr.participants[live[p].cid] in j.instr.participants.Values
      ensures exists q :: q in live && q != p && live[q].cid == live[p].cid
    {
      var q := instr.participants[live[p].cid];
      assert q in instr.participants.Values;
      assert q in live && instr.participants[live[q].cid] == q;
    }
  }
}
