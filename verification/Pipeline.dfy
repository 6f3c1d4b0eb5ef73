/** orchestration/pipeline as it is written: pipes that change a shared instruction in place,
    reading the registry and the watcher of the directory. */
module Pipeline {
  import opened MapOrder
  import opened Protocol
  import opened Watcher
  import opened Participants
  import opened Selection

  /** directory.Registry: one object for each known peer. */
  class Registry {
    var peers: map<PeerID, PeerInfo>
    const watcher: PeerWatcher

    ghost predicate Valid()
      reads this, watcher
    {
      && (forall p <- peers :: peers[p].id == p)
      && Proper(watcher.peersOn)
    }

    constructor ()
      ensures Valid() && fresh(watcher) && peers == map[] && watcher.peersOn == map[]
    {
      peers := map[];
      watcher := new PeerWatcher();
    }

    method GetOrCreate(id: PeerID) returns (p: PeerInfo)
      requires Valid()
      modifies this
      ensures Valid() && p.id == id && peers == old(peers)[id := p]
      ensures if id in old(peers) then p == old(peers)[id] else fresh(p)
    {
      if id in peers {
        p := peers[id];
      } else {
        p := new PeerInfo(id);
        peers := peers[id := p];
      }
    }

    method GetAll() returns (all: seq<PeerInfo>)
      requires Valid()
      ensures |all| == |peers|
      ensures forall i | 0 <= i < |all| :: all[i].id in peers && peers[all[i].id] == all[i]
      ensures forall i, k | 0 <= i < k < |all| :: all[i].id != all[k].id
      ensures forall p <- peers :: exists i :: 0 <= i < |all| && all[i].id == p
    {
      var order := AnyOrder(peers.Keys);
      OrderLength(order, peers.Keys);
      all := [];
      for i := 0 to |order|
        invariant |all| == i
        invariant forall k | 0 <= k < i :: all[k] == peers[order[k]]
      {
        all := all + [peers[order[i]]];
      }
      forall p <- peers ensures exists i :: 0 <= i < |all| && all[i].id == p {
        assert p in order;
        var i :| 0 <= i < |order| && order[i] == p;
        assert all[i].id == p;
      }
    }
  }

  function IDs(participants: map<ChannelID, PeerInfo>): Parties {
    map c | c in participants :: participants[c].id
  }

  lemma KeysOfIDs(participants: map<ChannelID, PeerInfo>)
    ensures IDs(participants).Keys == participants.Keys
    ensures forall c <- participants :: IDs(participants)[c] == participants[c].id
  {
  }

  /** worker.JobInstruction */
  class JobInstruction {
    var tasks: seq<SMCCmd>
    var participants: map<ChannelID, PeerInfo>

    constructor ()
      ensures View() == Draft([], map[]) && participants == map[]
    {
      tasks, participants := [], map[];
    }

    ghost function View(): Draft
      reads this
    {
      Draft(tasks, IDs(participants))
    }
  }

  /** The participants are objects of the registry. */
  ghost predicate From(participants: map<ChannelID, PeerInfo>, peers: map<PeerID, PeerInfo>) {
    forall c <- participants :: participants[c].id in peers && peers[participants[c].id] == participants[c]
  }

  /** ChannelID(idx+1) */
  function IndexID(idx: nat): int32 {
    Int32(idx + 1)
  }

  lemma IndexIDs(i: nat, k: nat)
    ensures i < k < CHANNEL_IDS ==> IndexID(i) != IndexID(k)
    ensures IndexID(k + CHANNEL_IDS) == IndexID(k)
  {
  }

  /** Where the group map stands after "n" peers: its keys are those of the peers seen, and each
      holds one of them. */
  ghost predicate Grouped(all: seq<PeerInfo>, n: nat, participants: map<ChannelID, PeerInfo>)
    requires n <= |all|
  {
    && (forall c <- participants :: exists i :: 0 <= i < n && c == IndexID(i) && participants[c] == all[i])
    && (forall i | 0 <= i < n :: IndexID(i) in participants)
    && |participants| == Min(n, CHANNEL_IDS)
  }

  /** The key of the next peer is new until the keys are used up. */
  lemma NextKey(all: seq<PeerInfo>, participants: map<ChannelID, PeerInfo>, n: nat)
    requires n < |all| && Grouped(all, n, participants)
    ensures IndexID(n) in participants <==> n >= CHANNEL_IDS
  {
    hide IndexID;
    if n >= CHANNEL_IDS {
      IndexIDs(0, n - CHANNEL_IDS);
    } else if IndexID(n) in participants {
      var i :| 0 <= i < n && IndexID(n) == IndexID(i);
      IndexIDs(i, n);
      assert false;
    }
  }

  lemma GroupOneMore(all: seq<PeerInfo>, participants: map<ChannelID, PeerInfo>, n: nat)
    requires n < |all| && Grouped(all, n, participants)
    ensures Grouped(all, n + 1, participants[IndexID(n) := all[n]])
  {
    hide IndexID;
    NextKey(all, participants, n);
    PutSize(participants, IndexID(n), all[n]);
  }

  /** Different keys hold different peers. */
  lemma GroupFacts(all: seq<PeerInfo>, peers: map<PeerID, PeerInfo>, participants: map<ChannelID, PeerInfo>)
    requires forall i, k | 0 <= i < k < |all| :: all[i].id != all[k].id
    requires Grouped(all, |all|, participants)
    requires forall i | 0 <= i < |all| :: all[i].id in peers && peers[all[i].id] == all[i]
    ensures From(participants, peers)
    ensures var m := IDs(participants);
      Injective(m) && m.Values <= peers.Keys && |m| == Min(|all|, CHANNEL_IDS)
  {
    hide IndexID;
    var m := IDs(participants);
    assert m.Keys == participants.Keys;
    forall c, d | c in m && d in m && c != d ensures m[c] != m[d] {
      var i :| 0 <= i < |all| && c == IndexID(i) && participants[c] == all[i];
      var k :| 0 <= k < |all| && d == IndexID(k) && participants[d] == all[k];
    }
    forall p <- m.Values ensures p in peers {
      var c := KeyOf(m, p);
      var i :| 0 <= i < |all| && c == IndexID(i) && participants[c] == all[i];
    }
  }

  /** groupmap.go; a later peer takes the key of an earlier one if the keys are used up. */
  method ProcessGroupMap(reg: Registry, inOut: JobInstruction)
    requires reg.Valid()
    modifies inOut
    ensures From(inOut.participants, reg.peers) && inOut.tasks == old(inOut.tasks)
    ensures var m := IDs(inOut.participants);
      Injective(m) && m.Values <= reg.peers.Keys && |m| == Min(|reg.peers|, CHANNEL_IDS)
    ensures |reg.peers| <= MAX_INT32 ==> IDs(inOut.participants).Keys == UpTo(|reg.peers|)
  {
    hide IndexID, Injective, IDs, Proper, Grouped, From, UpTo;
    var parties := reg.GetAll();
    inOut.participants := map[];
    GroupNobody(parties);
    for idx := 0 to |parties|
      invariant inOut.tasks == old(inOut.tasks) && Grouped(parties, idx, inOut.participants)
    {
      GroupOneMore(parties, inOut.participants, idx);
      inOut.participants := inOut.participants[IndexID(idx) := parties[idx]];
    }
    GroupFacts(parties, reg.peers, inOut.participants);
    GroupKeys(parties, inOut.participants);
    KeysOfIDs(inOut.participants);
  }

  lemma GroupKeys(all: seq<PeerInfo>, participants: map<ChannelID, PeerInfo>)
    requires Grouped(all, |all|, participants)
    ensures |all| <= MAX_INT32 ==> participants.Keys == UpTo(|all|)
  {
    if |all| <= MAX_INT32 {
      forall i | 0 <= i < |all| ensures IndexID(i) == i + 1 {
        Int32Exact(i + 1);
      }
      forall c <- UpTo(|all|) ensures c in participants {
        assert IndexID(c - 1) in participants;
      }
    }
  }

  lemma GroupNobody(all: seq<PeerInfo>)
    ensures Grouped(all, 0, map[])
  {
  }

  lemma PutSize<K, V>(m: map<K, V>, k: K, v: V)
    ensures |m[k := v]| == if k in m then |m| else |m| + 1
  {
    assert m[k := v].Keys == m.Keys + {k};
  }

  /** The loop of ContinousChanID; "order" is the order in which the map was visited. */
  method Renumber<V(==)>(previous: map<ChannelID, V>)
    returns (participants: map<ChannelID, V>, ghost order: seq<ChannelID>)
    ensures IsOrder(order, previous.Keys) && participants.Values <= previous.Values
    ensures |previous| <= MAX_INT32 ==>
      && (forall c :: c in participants <==> 1 <= c <= |order|)
      && (forall c | 1 <= c <= |order| :: order[c - 1] in previous && participants[c] == previous[order[c - 1]])
  {
    hide Int32, IsOrder;
    var visited := AnyOrder(previous.Keys);
    OrderLength(visited, previous.Keys);
    OrderMembers(visited, previous.Keys);
    participants := map[];
    var cid: int32 := 1;
    Int32Exact(1);
    for i := 0 to |visited|
      invariant cid == Int32(i + 1)
      invariant forall c <- participants :: participants[c] in previous.Values
      invariant |visited| <= MAX_INT32 ==>
        && (forall c :: c in participants <==> 1 <= c <= i)
        && (forall c | 1 <= c <= i :: participants[c] == previous[visited[c - 1]])
    {
      Int32Exact(i + 1);
      Int32Next(i + 1);
      participants := participants[cid := previous[visited[i]]];
      cid := Int32(cid + 1);
    }
    order := visited;
    forall v <- participants.Values ensures v in previous.Values {
      var c := KeyOf(participants, v);
    }
  }

  lemma Int32Exact(n: int)
    ensures -0x8000_0000 <= n <= MAX_INT32 ==> Int32(n) == n
  {
  }

  lemma Int32Next(n: int)
    ensures Int32(Int32(n) + 1) == Int32(n + 1)
  {
  }

  /** contchans.go */
  method ProcessContinousChanID(inOut: JobInstruction) returns (ghost order: seq<ChannelID>)
    modifies inOut
    ensures inOut.tasks == old(inOut.tasks)
    ensures inOut.participants.Values <= old(inOut.participants.Values)
    ensures IsOrder(order, IDs(old(inOut.participants)).Keys)
    ensures |old(inOut.participants)| <= MAX_INT32 ==>
      IDs(inOut.participants) == Renumbered(IDs(old(inOut.participants)), order)
  {
    hide Int32, UpTo, IsOrder, IDs, Renumbered;
    var participants;
    participants, order := Renumber(inOut.participants);
    KeysOfIDs(inOut.participants);
    OrderMembers(order, inOut.participants.Keys);
    if |inOut.participants| <= MAX_INT32 {
      RenumberedIDs(inOut.participants, participants, order);
    }
    inOut.participants := participants;
  }

  lemma RenumberedIDs(previous: map<ChannelID, PeerInfo>, participants: map<ChannelID, PeerInfo>, order: seq<ChannelID>)
    requires IsOrder(order, previous.Keys)
    requires forall c :: c in participants <==> 1 <= c <= |order|
    requires forall i | 0 <= i < |order| :: order[i] in previous
    requires forall c | 1 <= c <= |order| :: participants[c] == previous[order[c - 1]]
    ensures IsOrder(order, IDs(previous).Keys) && IDs(participants) == Renumbered(IDs(previous), order)
  {
    assert IDs(previous).Keys == previous.Keys;
  }

  lemma FromKept(participants: map<ChannelID, PeerInfo>, participants': map<ChannelID, PeerInfo>, peers: map<PeerID,
                 PeerInfo>)
    requires From(participants, peers) && participants'.Values <= participants.Values
    ensures From(participants', peers)
  {
    forall c <- participants' ensures participants'[c].id in peers && peers[participants'[c].id] == participants'[c] {
      assert participants'[c] in participants'.Values;
      var d := KeyOf(participants, participants'[c]);
    }
  }

  // onlinefilter.go

  /** Where the filter stands after "k" entries of the list. */
  ghost predicate Filtering(list: seq<Participant>, k: nat, m0: Parties, online: set<PeerID>, max: nat, sorts: bool,
                            chosen: set<ChannelID>, dropped: set<ChannelID>)
    requires k <= |list| && chosen <= m0.Keys && dropped <= m0.Keys
  {
    && chosen !! dropped && |chosen| <= max
    && (forall i | 0 <= i < k :: list[i].chanID in chosen + dropped)
    && (forall i | k <= i < |list| :: list[i].chanID !in chosen + dropped)
    && (forall c <- chosen :: m0[c] in online)
    && (forall c <- dropped | m0[c] in online ::
          |chosen| == max && (sorts ==> forall d <- chosen :: !Less(m0[c], m0[d])))
  }

  lemma FilterStart(list: seq<Participant>, m0: Parties, online: set<PeerID>, max: nat, sorts: bool)
    ensures Filtering(list, 0, m0, online, max, sorts, {}, {})
  {
  }

  lemma Choose(list: seq<Participant>, k: nat, m0: Parties, online: set<PeerID>, max: nat, sorts: bool,
               chosen: set<ChannelID>, dropped: set<ChannelID>)
    requires k < |list| && chosen <= m0.Keys && dropped <= m0.Keys && Lists(list, m0)
    requires Filtering(list, k, m0, online, max, sorts, chosen, dropped)
    requires list[k].peerID in online && |chosen| < max
    ensures Filtering(list, k + 1, m0, online, max, sorts, chosen + {list[k].chanID}, dropped)
    ensures |chosen + {list[k].chanID}| == |chosen| + 1
  {
    hide Less;
  }

  lemma Drop(list: seq<Participant>, k: nat, m0: Parties, online: set<PeerID>, max: nat, sorts: bool,
             chosen: set<ChannelID>, dropped: set<ChannelID>)
    requires k < |list| && chosen <= m0.Keys && dropped <= m0.Keys && Lists(list, m0)
    requires Filtering(list, k, m0, online, max, sorts, chosen, dropped)
    requires sorts ==> Sorted(list)
    requires list[k].peerID !in online || |chosen| >= max
    ensures Filtering(list, k + 1, m0, online, max, sorts, chosen, dropped + {list[k].chanID})
  {
    hide Less;
    forall d <- chosen ensures sorts ==> !Less(list[k].peerID, m0[d]) {
      var i :| 0 <= i < |list| && list[i].chanID == d;
      assert i < k;
    }
  }

  lemma FilterEnd(list: seq<Participant>, m0: Parties, online: set<PeerID>, max: nat, sorts: bool,
                  chosen: set<ChannelID>, dropped: set<ChannelID>, m: Parties)
    requires chosen <= m0.Keys && dropped <= m0.Keys && Lists(list, m0)
    requires Filtering(list, |list|, m0, online, max, sorts, chosen, dropped)
    requires m == m0 - dropped
    ensures m.Keys == chosen && Selected(m, m0, online, max) && (sorts ==> Foremost(m, m0, online))
  {
    hide Less;
    forall c <- m0 ensures c in chosen + dropped {
      var i :| 0 <= i < |list| && list[i].chanID == c;
    }
    assert m.Keys == chosen;
    ChosenAreOnline(m0, online, chosen, dropped, |chosen| == max);
  }

  lemma ChosenAreOnline(m0: Parties, online: set<PeerID>, chosen: set<ChannelID>, dropped: set<ChannelID>, full: bool)
    requires m0.Keys == chosen + dropped && forall c <- chosen :: m0[c] in online
    requires forall c <- dropped | m0[c] in online :: full
    ensures |chosen| <= |OnlineOf(m0, online)|
    ensures !full ==> |chosen| == |OnlineOf(m0, online)|
  {
    var all := OnlineOf(m0, online);
    forall c <- chosen ensures c in all {
    }
    SubsetSize(chosen, all);
    if !full {
      forall c <- all ensures c in chosen {
        assert c in m0;
      }
      SubsetSize(all, chosen);
    }
  }

  lemma ValuesLeft<K, V>(m: map<K, V>, ks: set<K>)
    ensures (m - ks).Values <= m.Values
  {
    forall v <- (m - ks).Values ensures v in m.Values {
      var k := KeyOf(m - ks, v);
    }
  }

  lemma SubsetSize<T>(a: set<T>, b: set<T>)
    requires a <= b
    ensures |a| <= |b|
  {
    assert b == a + (b - a);
  }

  /** The debugging options of the filter. */
  method Limits(debug: bool, task: SMCTask) returns (minParties: int32, maxParties: int32, sorts: bool)
    ensures minParties == MinParties(debug, task) && maxParties == MaxParties(debug, task)
      && sorts == Sorts(debug, task)
  {
    minParties, maxParties, sorts := 1, MAX_INT32, false;
    if debug {
      if "minNumPeers" in task.options && GetDec(task.options["minNumPeers"]) > 0 {
        minParties := GetDec(task.options["minNumPeers"]);
      }
      if "maxNumPeers" in task.options && GetDec(task.options["maxNumPeers"]) >= minParties {
        maxParties := GetDec(task.options["maxNumPeers"]);
      }
      if "sortPeerIDs" in task.options && GetDec(task.options["sortPeerIDs"]) > 0 {
        sorts := true;
      }
    }
  }

  method Candidates(m0: Parties, sorts: bool) returns (participants: array<Participant>)
    ensures fresh(participants) && Lists(participants[..], m0) && (sorts ==> Sorted(participants[..]))
  {
    hide Lists, Sorted;
    participants := ParticipantsToList(m0);
    if sorts {
      ghost var unsorted := participants[..];
      SortbyPeerID(participants);
      ListsReordered(unsorted, participants[..], m0);
    }
  }

  /** The loop that deletes participants, and how many it leaves. */
  method DeleteOthers(list: array<Participant>, ghost m0: Parties, peersOn: set<PeerID>, maxParties: int32,
                      ghost sorts: bool,
                      inOut: JobInstruction)
    requires m0 == IDs(inOut.participants) && Lists(list[..], m0) && (sorts ==> Sorted(list[..])) && maxParties >= 1
    modifies inOut
    ensures inOut.tasks == old(inOut.tasks)
    ensures inOut.participants.Values <= old(inOut.participants.Values)
    ensures Selected(IDs(inOut.participants), m0, peersOn, maxParties)
    ensures sorts ==> Foremost(IDs(inOut.participants), m0, peersOn)
  {
    hide Lists, Filtering, Sorted, Selected, Foremost, Int32, IDs;
    ghost var previous := inOut.participants;
    ghost var chosen, dropped: set<ChannelID> := {}, {};
    var cntSelPeers: int32 := 0;
    FilterStart(list[..], m0, peersOn, maxParties, sorts);
    for k := 0 to list.Length
      invariant inOut.tasks == old(inOut.tasks)
      invariant chosen <= m0.Keys && dropped <= m0.Keys
        && Filtering(list[..], k, m0, peersOn, maxParties, sorts, chosen, dropped)
      invariant cntSelPeers == |chosen|
      invariant inOut.participants == previous - dropped
    {
      var p := list[k];
      Entry(list[..], m0, k);
      if p.peerID !in peersOn || cntSelPeers >= maxParties {
        Drop(list[..], k, m0, peersOn, maxParties, sorts, chosen, dropped);
        inOut.participants := inOut.participants - {p.chanID};
        dropped := dropped + {p.chanID};
      } else {
        Choose(list[..], k, m0, peersOn, maxParties, sorts, chosen, dropped);
        Int32Exact(cntSelPeers + 1);
        cntSelPeers := Int32(cntSelPeers + 1);
        chosen := chosen + {p.chanID};
      }
    }
    ValuesLeft(previous, dropped);
    IDsLeft(previous, dropped);
    FilterEnd(list[..], m0, peersOn, maxParties, sorts, chosen, dropped, IDs(inOut.participants));
  }

  lemma IDsLeft(participants: map<ChannelID, PeerInfo>, dropped: set<ChannelID>)
    ensures IDs(participants - dropped) == IDs(participants) - dropped
  {
  }

  method ProcessOnlineFilter(reg: Registry, debug: bool, task: SMCTask, inOut: JobInstruction) returns (ok: bool)
    requires reg.Valid()
    modifies inOut
    ensures inOut.tasks == old(inOut.tasks)
    ensures inOut.participants.Values <= old(inOut.participants.Values)
    ensures var m0, m, online := IDs(old(inOut.participants)), IDs(inOut.participants), reg.watcher.peersOn.Keys;
      && Selected(m, m0, online, MaxParties(debug, task))
      && (Sorts(debug, task) ==> Foremost(m, m0, online))
      && (ok <==> |OnlineOf(m0, online)| >= MinParties(debug, task))
  {
    hide Lists, Sorted, Selected, Foremost, OnlineOf, Int32, MinParties, MaxParties, Sorts, IDs;
    ghost var m0 := IDs(inOut.participants);
    var minParties, maxParties, sorts := Limits(debug, task);
    Bounds(debug, task);
    var participants := Candidates(IDs(inOut.participants), sorts);
    var peersOn := reg.watcher.AvailablePeers();
    DeleteOthers(participants, m0, peersOn, maxParties, sorts, inOut);
    Enough(IDs(inOut.participants), m0, peersOn, minParties, maxParties);
    KeysOfIDs(inOut.participants);
    return !(minParties > Int32(|inOut.participants|));
  }

  lemma Entry(list: seq<Participant>, m0: Parties, k: nat)
    requires k < |list| && Lists(list, m0)
    ensures list[k].chanID in m0 && m0[list[k].chanID] == list[k].peerID
  {
  }

  lemma Enough(m: Parties, m0: Parties, online: set<PeerID>, min: int32, max: int32)
    requires Selected(m, m0, online, max) && 1 <= min <= max
    ensures Int32(|m|) == |m|
    ensures min <= |m| <==> |OnlineOf(m0, online)| >= min
  {
  }

  // phasebuilder.go, pingpong.go

  /** A port below 10000 is replaced by one made from the channel ID. */
  method GivePort(p: PeerInfo, cid: ChannelID) returns (port: int)
    modifies p
    ensures port == p.port == if old(p.port) < 10000 then 10000 + cid else old(p.port)
  {
    if p.port < 10000 {
      p.port := 10000 + cid;
    }
    port := p.port;
  }

  /** The loop over the participants. */
  method Table(participants: map<ChannelID, PeerInfo>) returns (table: seq<TableEntry>)
    modifies participants.Values
    ensures Lists(Rows(table), IDs(participants))
    ensures forall p <- participants.Values :: old(p.port) >= 10000 ==> p.port == old(p.port)
    ensures (forall c <- participants :: c >= 0) ==> forall e <- table ::
      e.smcPeerID in participants && e.port == participants[e.smcPeerID].port >= 10000
  {
    hide IsOrder, Lists, Rows, IDs;
    var order := AnyOrder(participants.Keys);
    OrderLength(order, participants.Keys);
    OrderMembers(order, participants.Keys);
    table := [];
    for i := 0 to |order|
      invariant |table| == i
      invariant forall k | 0 <= k < i :: table[k].smcPeerID == order[k] && table[k].authID == participants[order[k]].id
      invariant forall p <- participants.Values :: old(p.port) >= 10000 ==> p.port == old(p.port)
      invariant (forall c <- participants :: c >= 0) ==>
        forall k | 0 <= k < i :: table[k].port == participants[order[k]].port >= 10000
    {
      var cid := order[i];
      assert participants[cid] in participants.Values;
      var port := GivePort(participants[cid], cid);
      table := table + [TableEntry(participants[cid].id, cid, port)];
    }
    KeysOfIDs(participants);
    TableLists(table, order, IDs(participants));
  }

  lemma {:induction false} TableLists(table: seq<TableEntry>, order: seq<ChannelID>, m: Parties)
    requires IsOrder(order, m.Keys) && |table| == |order|
    requires forall i | 0 <= i < |table| ::
      order[i] in m && table[i].smcPeerID == order[i] && table[i].authID == m[order[i]]
    ensures Lists(Rows(table), m)
  {
    RowsFacts(table);
    OrderLength(order, m.Keys);
    var rows := Rows(table);
    forall c <- m ensures exists i :: 0 <= i < |rows| && rows[i].chanID == c {
      assert c in order;
      var i :| 0 <= i < |order| && order[i] == c;
      assert rows[i].chanID == c;
    }
  }

  method ProcessPhaseBuilder(task: SMCTask, inOut: JobInstruction) returns (ok: bool)
    modifies inOut, inOut.participants.Values
    ensures inOut.participants == old(inOut.participants)
    ensures ok <==> old(inOut.tasks) == []
    ensures if ok then Planned(inOut.tasks, task, IDs(inOut.participants)) else inOut.tasks == old(inOut.tasks)
    ensures forall p <- inOut.participants.Values :: old(p.port) >= 10000 ==> p.port == old(p.port)
    ensures ok && (forall c <- inOut.participants :: c >= 0) ==> forall e <- inOut.tasks[0].payload.participants ::
      e.smcPeerID in inOut.participants && e.port == inOut.participants[e.smcPeerID].port >= 10000
  {
    hide Lists, IDs;
    if |inOut.tasks| > 0 {
      return false;
    }
    var participants := Table(inOut.participants);
    inOut.tasks := inOut.tasks + [SMCCmd(SESSION_ID, 0, Prepare(participants))];
    if "useLinkingPhase" in task.options {
      inOut.tasks := inOut.tasks + [SMCCmd(SESSION_ID, 0, Link)];
    }
    var batchOpSize: int32 := 0;
    if "batchOpSize" in task.options && GetDec(task.options["batchOpSize"]) > 0 {
      batchOpSize := GetDec(task.options["batchOpSize"]);
    }
    inOut.tasks := inOut.tasks + [SMCCmd(SESSION_ID, 0, Session(batchOpSize))];
    return true;
  }

  method ProcessDbgPingPong(task: SMCTask, inOut: JobInstruction) returns (ok: bool)
    modifies inOut
    ensures inOut.participants == old(inOut.participants)
    ensures ok <==> old(inOut.tasks) == []
    ensures if ok then Pings(inOut.tasks, task) else inOut.tasks == old(inOut.tasks)
  {
    if |inOut.tasks| > 0 {
      return false;
    }
    var numPingPhases := 1;
    if task.aggregator == DBG_PINGPONG_10 {
      numPingPhases := 10;
    } else if task.aggregator == DBG_PINGPONG_100 {
      numPingPhases := 100;
    }
    for i := numPingPhases downto 0
      invariant inOut.participants == old(inOut.participants)
      invariant |inOut.tasks| == numPingPhases - i
      invariant forall k | 0 <= k < |inOut.tasks| ::
        inOut.tasks[k] == SMCCmd(DEBUG_SESSION_ID, 0, Debug(numPingPhases - k, k < numPingPhases - 1))
    {
      inOut.tasks := inOut.tasks + [SMCCmd(DEBUG_SESSION_ID, 0, Debug(i + 1, i + 1 > 1))];
    }
    return true;
  }

  // pipeline.go

  class Pipeline {
    const reg: Registry
    var pipes: seq<Pipe>
    var dgbPipes: seq<Pipe>

    /** The pipelines of NewFIFOOrchestration. */
    constructor (reg: Registry, debug: bool)
      ensures this.reg == reg && pipes == Production(debug) && dgbPipes == Debugging(debug)
    {
      this.reg := reg;
      pipes, dgbPipes := Production(debug), Debugging(debug);
    }

    function Selected(task: SMCTask): seq<Pipe>
      reads this
    {
      if task.aggregator >= DBG_PINGPONG && |dgbPipes| > 0 then dgbPipes else pipes
    }

    /** One pipe; it may change the instruction and ports of its participants. */
    method Apply(pipe: Pipe, task: SMCTask, changeset: JobInstruction) returns (ok: bool)
      requires reg.Valid() && From(changeset.participants, reg.peers)
      modifies changeset, reg.peers.Values
      ensures From(changeset.participants, reg.peers)
      ensures Outcome(pipe, task, reg.peers.Keys, reg.watcher.peersOn.Keys, old(changeset.View()), changeset.View(), ok)
    {
      hide Injective, Selection.Selected, Foremost, OnlineOf, MinParties, MaxParties, Sorts, Planned, Pings, IsOrder,
           Renumbered, IDs;
      PeersOfRegistry(changeset.participants, reg.peers);
      ok := true;
      match pipe
      case GroupMap =>
        ProcessGroupMap(reg, changeset);
      case OnlineFilter(debug) =>
        ghost var before := changeset.participants;
        ok := ProcessOnlineFilter(reg, debug, task, changeset);
        FromKept(before, changeset.participants, reg.peers);
      case ContinousChanID =>
        ghost var before := changeset.participants;
        KeysOfIDs(before);
        var _ := ProcessContinousChanID(changeset);
        FromKept(before, changeset.participants, reg.peers);
      case PhaseBuilder =>
        ok := ProcessPhaseBuilder(task, changeset);
      case DbgPingPong =>
        ok := ProcessDbgPingPong(task, changeset);
    }

    /** "drafts" are the states of the instruction after each pipe. */
    method Process(task: SMCTask) returns (changeset: JobInstruction?, ghost drafts: seq<Draft>)
      requires reg.Valid()
      modifies reg.peers.Values
      ensures RunOf(Selected(task), task, reg.peers.Keys, reg.watcher.peersOn.Keys, drafts, changeset != null)
      ensures forall debug | pipes == Production(debug) && dgbPipes == Debugging(debug) ::
        RunOf(if task.aggregator >= 1000 then Debugging(debug) else Production(debug), task, reg.peers.Keys,
              reg.watcher.peersOn.Keys, drafts, changeset != null)
      ensures changeset != null ==>
        fresh(changeset) && changeset.View() == drafts[|drafts| - 1] && From(changeset.participants, reg.peers)
    {
      hide Outcome, IDs;
      var cs := new JobInstruction();
      var selectedPipes := if task.aggregator >= DBG_PINGPONG && |dgbPipes| > 0 then dgbPipes else pipes;
      drafts := [cs.View()];
      for i := 0 to |selectedPipes|
        invariant |drafts| == i + 1 && drafts[0] == Draft([], map[]) && drafts[i] == cs.View()
        invariant From(cs.participants, reg.peers)
        invariant forall k | 0 <= k < i ::
          Outcome(selectedPipes[k], task, reg.peers.Keys, reg.watcher.peersOn.Keys, drafts[k], drafts[k + 1], true)
      {
        var ok := Apply(selectedPipes[i], task, cs);
        drafts := drafts + [cs.View()];
        if !ok {
          return null, drafts;
        }
      }
      return cs, drafts;
    }

    /** Up to three attempts; "waits" is what the watcher learns in the pauses after them,
        "onlines" the peers online at each attempt. */
    method ProcessWithRetry(task: SMCTask, waits: seq<seq<StateChange>>)
      returns (instr: JobInstruction?, ghost onlines: seq<set<PeerID>>, ghost runs: seq<seq<Draft>>)
      requires reg.Valid() && |waits| == PIPE_MAX_RETRIES
      modifies reg.peers.Values, reg.watcher
      ensures reg.Valid()
      ensures Retried(Selected(task), task, reg.peers.Keys, onlines, runs, instr != null)
      ensures forall debug | pipes == Production(debug) && dgbPipes == Debugging(debug) ::
        Retried(if task.aggregator >= 1000 then Debugging(debug) else Production(debug), task, reg.peers.Keys, onlines,
                runs, instr != null)
      ensures forall k | 0 <= k < |onlines| :: OnlineAfter(old(reg.watcher.peersOn), Joined(waits[..k]), onlines[k])
      ensures instr != null ==>
        var last := runs[|runs| - 1];
        fresh(instr) && instr.View() == last[|last| - 1] && From(instr.participants, reg.peers)
    {
      hide RunOf, Proper, From, IDs, OnlineAfter, Counted;
      onlines, runs := [], [];
      CountedFromStart(reg.watcher.peersOn);
      for i := 0 to PIPE_MAX_RETRIES
        invariant reg.Valid() && |onlines| == |runs| == i
        invariant forall k | 0 <= k < i :: RunOf(Selected(task), task, reg.peers.Keys, onlines[k], runs[k], false)
        invariant forall k | 0 <= k < i :: OnlineAfter(old(reg.watcher.peersOn), Joined(waits[..k]), onlines[k])
        invariant Counted(old(reg.watcher.peersOn), Joined(waits[..i]), reg.watcher.peersOn)
      {
        ghost var drafts;
        instr, drafts := Process(task);
        CountedOnline(old(reg.watcher.peersOn), Joined(waits[..i]), reg.watcher.peersOn);
        onlines, runs := onlines + [reg.watcher.peersOn.Keys], runs + [drafts];
        if instr != null {
          return;
        }
        ghost var before := reg.watcher.peersOn;
        var _ := reg.watcher.Watch(waits[i]);
        assert waits[..i + 1] == waits[..i] + [waits[i]];
        CountedOn(old(reg.watcher.peersOn), before, reg.watcher.peersOn, waits[..i], waits[i]);
      }
      instr := null;
    }
  }

  /** The watcher's count after the notifications. */
  ghost predicate Counted(start: map<PeerID, PeerStatus>, notifies: seq<StateChange>, peersOn: map<PeerID,
                          PeerStatus>) {
    forall q :: Alive(peersOn, q) == Counter(Alive(start, q), notifies, q)
  }

  ghost predicate OnlineAfter(start: map<PeerID, PeerStatus>, notifies: seq<StateChange>, online: set<PeerID>) {
    forall q :: q in online <==> Counter(Alive(start, q), notifies, q) > 0
  }

  lemma CountedFromStart(start: map<PeerID, PeerStatus>)
    ensures Counted(start, Joined([]), start)
  {
  }

  lemma CountedOnline(start: map<PeerID, PeerStatus>, notifies: seq<StateChange>, peersOn: map<PeerID, PeerStatus>)
    requires Counted(start, notifies, peersOn) && Proper(peersOn)
    ensures OnlineAfter(start, notifies, peersOn.Keys)
  {
  }

  lemma CountedOn(start: map<PeerID, PeerStatus>, before: map<PeerID, PeerStatus>, after: map<PeerID, PeerStatus>,
                  parts: seq<seq<StateChange>>, part: seq<StateChange>)
    requires Counted(start, Joined(parts), before)
    requires Counted(before, part, after)
    ensures Counted(start, Joined(parts + [part]), after)
  {
    assert (parts + [part])[..|parts|] == parts;
    forall q ensures Alive(after, q) == Counter(Alive(start, q), Joined(parts + [part]), q) {
      CounterAppend(Alive(start, q), Joined(parts), part, q);
    }
  }

  function Joined<T>(parts: seq<seq<T>>): seq<T> {
    if parts == [] then [] else Joined(parts[..|parts| - 1]) + parts[|parts| - 1]
  }

  lemma {:induction false} CounterAppend(before: nat, a: seq<StateChange>, b: seq<StateChange>, q: PeerID)
    ensures Counter(before, a + b, q) == Counter(Counter(before, a, q), b, q)
  {
    if b == [] {
      assert a + b == a;
    } else {
      var n := |b| - 1;
      CounterAppend(before, a, b[..n], q);
      assert (a + b)[..|a + b| - 1] == a + b[..n];
    }
  }

  lemma PeersOfRegistry(participants: map<ChannelID, PeerInfo>, peers: map<PeerID, PeerInfo>)
    requires From(participants, peers)
    ensures participants.Values <= peers.Values
  {
    forall p <- participants.Values ensures p in peers.Values {
      var c := KeyOf(participants, p);
      assert peers[p.id] == p;
    }
  }
}
