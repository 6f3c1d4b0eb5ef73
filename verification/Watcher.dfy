/** Which peers are online (directory/watcher.go, directory/peerinfo.go): connections report
    that they came and went, the watcher counts them for each peer. */
module Watcher {
  import opened Protocol

  class PeerInfo {
    const id: PeerID

    /** The port of Addr. */
    var port: int

    constructor (id: PeerID)
      ensures this.id == id && port == 0
    {
      this.id, port := id, 0;
    }
  }

  datatype PeerStatus = PeerStatus(peer: PeerInfo, aliveConns: nat)

  /** avail is 0 if a connection went away. */
  datatype StateChange = StateChange(p: PeerInfo, avail: int)

  function Alive(peersOn: map<PeerID, PeerStatus>, p: PeerID): nat {
    if p in peersOn then peersOn[p].aliveConns else 0
  }

  predicate Proper(peersOn: map<PeerID, PeerStatus>) {
    forall p <- peersOn :: peersOn[p].aliveConns >= 1 && peersOn[p].peer.id == p
  }

  class PeerWatcher {
    var peersOn: map<PeerID, PeerStatus>

    constructor ()
      ensures peersOn == map[]
    {
      peersOn := map[];
    }

    method AddOrInc(peer: PeerInfo) returns (globChange: int)
      requires Proper(peersOn)
      modifies this
      ensures Proper(peersOn)
      ensures forall q :: Alive(peersOn, q) == Alive(old(peersOn), q) + if q == peer.id then 1 else 0
      ensures forall q <- old(peersOn) :: q in peersOn && peersOn[q].peer == old(peersOn)[q].peer
      ensures globChange == |peersOn| - |old(peersOn)|
      ensures globChange == if peer.id in old(peersOn) then 0 else 1
    {
      globChange := 0;
      if peer.id in peersOn {
        var s := peersOn[peer.id];
        peersOn := peersOn[peer.id := s.(aliveConns := s.aliveConns + 1)];
        assert peersOn.Keys == old(peersOn).Keys;
      } else {
        peersOn := peersOn[peer.id := PeerStatus(peer, 1)];
        globChange := 1;
      }
    }

    method DelOrDec(peer: PeerInfo) returns (globChange: int)
      requires Proper(peersOn)
      modifies this
      ensures Proper(peersOn)
      ensures forall q :: Alive(peersOn, q) == Alive(old(peersOn), q) - if q == peer.id
        && Alive(old(peersOn), q) > 0 then 1 else 0
      ensures forall q <- peersOn :: q in old(peersOn) && peersOn[q].peer == old(peersOn)[q].peer
      ensures globChange == |peersOn| - |old(peersOn)|
      ensures globChange == if Alive(old(peersOn), peer.id) == 1 then -1 else 0
    {
      globChange := 0;
      if peer.id in peersOn {
        var s := peersOn[peer.id];
        if s.aliveConns == 1 {
          peersOn := peersOn - {peer.id};
          assert old(peersOn).Keys == peersOn.Keys + {peer.id};
          globChange := -1;
        } else {
          peersOn := peersOn[peer.id := s.(aliveConns := s.aliveConns - 1)];
          assert peersOn.Keys == old(peersOn).Keys;
        }
      }
    }

    /** The watcher's loop over its notifications. */
    method Watch(notifies: seq<StateChange>) returns (changes: seq<int>)
      requires Proper(peersOn)
      modifies this
      ensures Proper(peersOn)
      ensures forall q :: Alive(peersOn, q) == Counter(Alive(old(peersOn), q), notifies, q)
      ensures |changes| == |notifies| && Total(changes) == |peersOn| - |old(peersOn)|
    {
      hide Proper, Alive;
      changes := [];
      for k := 0 to |notifies|
        invariant Proper(peersOn)
        invariant forall q :: Alive(peersOn, q) == Counter(Alive(old(peersOn), q), notifies[..k], q)
        invariant |changes| == k && Total(changes) == |peersOn| - |old(peersOn)|
      {
        var n := notifies[k];
        var change;
        if n.avail == 0 {
          change := DelOrDec(n.p);
        } else {
          change := AddOrInc(n.p);
        }
        assert notifies[..k + 1][..k] == notifies[..k];
        assert (changes + [change])[..k] == changes;
        changes := changes + [change];
      }
      assert notifies[..|notifies|] == notifies;
    }

    method AvailablePeers() returns (nodes: set<PeerID>)
      requires Proper(peersOn)
      ensures forall q :: q in nodes <==> Alive(peersOn, q) > 0
      ensures nodes == peersOn.Keys
    {
      nodes := {};
      var rest := peersOn.Keys;
      while rest != {}
        invariant rest <= peersOn.Keys && nodes == peersOn.Keys - rest
      {
        var q :| q in rest;
        nodes := nodes + {peersOn[q].peer.id};
        rest := rest - {q};
      }
      assert nodes == peersOn.Keys;
    }
  }

  function Total(changes: seq<int>): int {
    if changes == [] then 0 else Total(changes[..|changes| - 1]) + changes[|changes| - 1]
  }

  // The count as a closed form of the notifications

  /** What one notification says about peer "q". */
  function Delta(n: StateChange, q: PeerID): int {
    if n.p.id != q then 0 else if n.avail == 0 then -1 else 1
  }

  /** The watcher's counter for "q": an offline notification at zero is ignored. */
  function Counter(before: nat, notifies: seq<StateChange>, q: PeerID): nat {
    if notifies == [] then before
    else
      var k := |notifies| - 1;
      var c := Counter(before, notifies[..k], q) + Delta(notifies[k], q);
      if c < 0 then 0 else c
  }

  function Balance(notifies: seq<StateChange>, q: PeerID): int {
    if notifies == [] then 0
    else Balance(notifies[..|notifies| - 1], q) + Delta(notifies[|notifies| - 1], q)
  }

  /** The notifications from "q" of this kind. */
  function Notes(notifies: seq<StateChange>, q: PeerID, online: bool): set<nat> {
    set k: nat | k < |notifies| && notifies[k].p.id == q && (notifies[k].avail != 0) == online
  }

  /** The balance is the number of online notifications less that of offline ones. */
  lemma {:induction false} BalanceCounts(notifies: seq<StateChange>, q: PeerID)
    ensures Balance(notifies, q) == |Notes(notifies, q, true)| - |Notes(notifies, q, false)|
  {
    if notifies == [] {
      assert Notes(notifies, q, true) == {} && Notes(notifies, q, false) == {};
    } else {
      var n := |notifies| - 1;
      BalanceCounts(notifies[..n], q);
      NoteOneMore(notifies, q, true);
      NoteOneMore(notifies, q, false);
    }
  }

  lemma NoteOneMore(notifies: seq<StateChange>, q: PeerID, online: bool)
    requires notifies != []
    ensures var n := |notifies| - 1;
      |Notes(notifies, q, online)| == |Notes(notifies[..n], q, online)| +
        if notifies[n].p.id == q && (notifies[n].avail != 0) == online then 1 else 0
  {
    var n: nat := |notifies| - 1;
    var front, back := Notes(notifies[..n], q, online), Notes(notifies, q, online);
    forall k: nat | k < n ensures k in back <==> k in front {
      assert notifies[..n][k] == notifies[k];
    }
    assert forall k <- front :: k < n;
    if n in back {
      assert back == front + {n};
    } else {
      assert back == front;
    }
  }

  ghost predicate LowestBalance(notifies: seq<StateChange>, q: PeerID, low: int) {
    && (forall k | 0 <= k <= |notifies| :: low <= Balance(notifies[..k], q))
    && (exists k :: 0 <= k <= |notifies| && low == Balance(notifies[..k], q))
  }

  /** The lowest point of the balance, at most 0. */
  function Lowest(notifies: seq<StateChange>, q: PeerID): (low: int)
    ensures LowestBalance(notifies, q, low)
  {
    if notifies == [] then
      assert notifies[..0] == [];
      0
    else
      var n := |notifies| - 1;
      var front := notifies[..n];
      assert forall k | 0 <= k <= n :: notifies[..k] == front[..k];
      assert notifies[..n + 1] == notifies;
      var low := Lowest(front, q);
      var balance := Balance(notifies, q);
      if balance < low then balance else low
  }

  /** The count is the reflected balance: whatever offline notifications came unmatched, it is
      the balance above its lowest point, if that point lies below zero. */
  lemma {:induction false} ReflectedCounter(before: nat, notifies: seq<StateChange>, q: PeerID)
    ensures var low := before + Lowest(notifies, q);
      Counter(before, notifies, q) == before + Balance(notifies, q) - (if low < 0 then low else 0)
  {
    hide LowestBalance;
    if notifies != [] {
      var front := notifies[..|notifies| - 1];
      ReflectedCounter(before, front, q);
      LowestAtMost(front, q);
    }
  }

  lemma LowestAtMost(notifies: seq<StateChange>, q: PeerID)
    ensures Lowest(notifies, q) <= Balance(notifies, q)
  {
    var _ := Lowest(notifies, q);
    assert notifies[..|notifies|] == notifies;
  }

  /** A peer unknown before is online iff since some moment it sent more online than offline
      notifications. */
  lemma OnlineIff(notifies: seq<StateChange>, q: PeerID)
    ensures Counter(0, notifies, q) > 0 <==>
      exists k :: 0 <= k <= |notifies| && Balance(notifies, q) > Balance(notifies[..k], q)
  {
    var low := Lowest(notifies, q);
    ReflectedCounter(0, notifies, q);
    assert notifies[..0] == [];
    assert low <= Balance(notifies[..0], q);
    var j :| 0 <= j <= |notifies| && low == Balance(notifies[..j], q);
    if k :| 0 <= k <= |notifies| && Balance(notifies, q) > Balance(notifies[..k], q) {
      assert low <= Balance(notifies[..k], q);
    }
  }
}
