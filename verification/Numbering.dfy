/** Do the channel IDs that a job stamps on its commands (directory/talk.go) agree with the
    table that the PREPARE command has told the peers (orchestration/pipeline/phasebuilder.go)? */
module Numbering {
  import opened MapOrder
  import opened Protocol
  import opened Participants
  import opened Selection
  import opened JobModel
  import opened JobInvariant
  import opened JobLifetime

  /** The table has exactly one row for the peer, with this ID. */
  ghost predicate Tabled(table: seq<TableEntry>, p: PeerID, cid: ChannelID) {
    && (exists i :: 0 <= i < |table| && table[i].authID == p)
    && (forall i | 0 <= i < |table| && table[i].authID == p :: table[i].smcPeerID == cid)
  }

  ghost predicate Agrees(table: seq<TableEntry>, chats: map<PeerID, PeerChat>) {
    forall p <- chats :: Tabled(table, p, chats[p].cid)
  }

  lemma ListedIsTabled(table: seq<TableEntry>, m: Parties, cid: ChannelID)
    requires Lists(Rows(table), m) && Injective(m) && cid in m
    ensures Tabled(table, m[cid], cid)
  {
    RowsFacts(table);
    var rows := Rows(table);
    var i :| 0 <= i < |rows| && rows[i].chanID == cid;
    assert table[i].authID == m[cid];
    forall k | 0 <= k < |table| && table[k].authID == m[cid] ensures table[k].smcPeerID == cid {
      assert rows[k].chanID in m;
    }
  }

  /** On the first run of a produced instruction, whoever answered and in whatever order: every
      chat stamps the ID under which the table lists its peer. */
  lemma StampedAsTabled(d: Draft, task: SMCTask, debug: bool, pool: set<PeerID>, flags: Flags, attempts: seq<Attempt>)
    requires Produced(d, task, debug, pool)
    requires AttemptsOf(NewJob(Instr(d.tasks, d.parties), flags), attempts)
    ensures d.tasks != [] && d.tasks[0].payload.Prepare?
    ensures var (j, missing) := OpenPeers(NewJob(Instr(d.tasks, d.parties), flags), attempts);
      && Agrees(d.tasks[0].payload.participants, j.chats)
      && (missing == [] ==> j.chats.Keys == d.parties.Values)
  {
    hide First, IsPlan, Lists, Injective, OpenPeers, Tabled, Sorts, MaxParties, MinParties;
    var j0 := NewJob(Instr(d.tasks, d.parties), flags);
    OpenPeersFacts(j0, attempts);
    OpensAll(j0, attempts);
    var j := OpenPeers(j0, attempts).0;
    forall p <- j.chats ensures Tabled(d.tasks[0].payload.participants, p, j.chats[p].cid) && p in d.parties.Values {
      var a :| a in attempts && d.parties[a.cid] == p && j.chats[p].cid == a.cid;
      ListedIsTabled(d.tasks[0].payload.participants, d.parties, a.cid);
    }
  }

  predicate KeepsID(j: Job, instr: Instr, c: ChannelID)
    requires c in instr.participants
  {
    instr.participants[c] in j.chats && j.chats[instr.participants[c]].cid == c
  }

  /** A resumed job does not send a new table once PREPARE is done. The stamps still agree with
      the table sent before iff the new instruction leaves every participant its channel ID. */
  lemma ResumedAgreesIff(j: Job, instr: Instr, flags: Option<Flags>, order: seq<ChannelID>, table: seq<TableEntry>)
    requires IsOrder(order, instr.participants.Keys) && Injective(instr.participants)
    requires Recyclable(j, instr)
    requires Agrees(table, j.chats)
    ensures Agrees(table, Recycle(j, instr, flags, order).0.chats) <==>
      forall c | c in instr.participants && instr.participants[c] in j.instr.participants.Values :: KeepsID(j, instr, c)
  {
    hide Tabled, Recycle;
    RecycleBracket(j, instr, flags, order);
    var live := Recycle(j, instr, flags, order).0.chats;
    forall p <- live ensures Tabled(table, p, live[p].cid) <==> live[p].cid == j.chats[p].cid {
      TabledUnique(table, p, live[p].cid, j.chats[p].cid);
    }
    forall c | c in instr.participants && instr.participants[c] in j.instr.participants.Values
      ensures instr.participants[c] in live && live[instr.participants[c]].cid == c
    {
      assert instr.participants[c] in instr.participants.Values;
    }
  }

  lemma TabledUnique(table: seq<TableEntry>, p: PeerID, cid: ChannelID, known: ChannelID)
    requires Tabled(table, p, known)
    ensures Tabled(table, p, cid) <==> cid == known
  {
  }

  /** So when a peer drops out after PREPARE, the contiguous numbering of the new instruction
      always breaks the agreement, unless the peer had one of the highest IDs. */
  lemma DroppedPeerBreaksIDs(j: Job, instr: Instr, flags: Option<Flags>, order: seq<ChannelID>,
                             table: seq<TableEntry>, dropped: ChannelID)
    requires IsOrder(order, instr.participants.Keys) && Injective(instr.participants)
    requires Recyclable(j, instr)
    requires Agrees(table, j.chats)
    requires Injective(j.instr.participants) && instr.participants.Values <= j.instr.participants.Values
    requires forall c | c in j.instr.participants && j.instr.participants[c] in j.chats ::
      j.chats[j.instr.participants[c]].cid == c
    requires instr.participants.Keys == UpTo(|instr.participants|)
    requires 1 <= dropped <= |instr.participants| && dropped in j.instr.participants
    requires j.instr.participants[dropped] !in instr.participants.Values
    ensures !Agrees(table, Recycle(j, instr, flags, order).0.chats)
  {
    hide Recycle, Agrees;
    ResumedAgreesIff(j, instr, flags, order, table);
    var p := instr.participants[dropped];
    assert p in instr.participants.Values;
    var c := KeyOf(j.instr.participants, p);
    assert !KeepsID(j, instr, dropped);
  }
}
