/** Participants as a list and its order by peer ID (directory/participant.go). */
module Participants {
  import opened MapOrder
  import opened Protocol

  type Parties = map<ChannelID, PeerID>

  datatype Participant = Participant(peerID: PeerID, chanID: ChannelID)

  /** The list has one entry for each participant. */
  ghost predicate Lists(list: seq<Participant>, m: Parties) {
    && |list| == |m|
    && (forall i | 0 <= i < |list| :: list[i].chanID in m && m[list[i].chanID] == list[i].peerID)
    && (forall i, k | 0 <= i < k < |list| :: list[i].chanID != list[k].chanID)
    && (forall c <- m :: exists i :: 0 <= i < |list| && list[i].chanID == c)
  }

  /** Ranging over a map, in any order. */
  method ParticipantsToList(m: Parties) returns (list: array<Participant>)
    ensures fresh(list) && Lists(list[..], m)
  {
    var order := AnyOrder(m.Keys);
    OrderLength(order, m.Keys);
    list := new Participant[|m|];
    for n := 0 to |order|
      invariant forall i | 0 <= i < n :: list[i] == Participant(m[order[i]], order[i])
    {
      list[n] := Participant(m[order[n]], order[n]);
    }
    forall c <- m ensures exists i :: 0 <= i < list.Length && list[i].chanID == c {
      var i :| 0 <= i < |order| && order[i] == c;
      assert list[i].chanID == c;
    }
  }

  // The order of strings, by their first difference

  predicate Less(a: string, b: string) {
    b != [] && (a == [] || a[0] < b[0] || (a[0] == b[0] && Less(a[1..], b[1..])))
  }

  lemma {:induction false} LessTransitive(a: string, b: string, c: string)
    requires Less(a, b) && Less(b, c)
    ensures Less(a, c)
  {
    if a != [] && a[0] == b[0] == c[0] {
      LessTransitive(a[1..], b[1..], c[1..]);
    }
  }

  lemma {:induction false} LessTotal(a: string, b: string)
    ensures a == b || Less(a, b) || Less(b, a)
    ensures !(Less(a, b) && Less(b, a)) && !Less(a, a)
  {
    if a != [] {
      LessTotal(a[1..], a[1..]);
      if b != [] && a[0] == b[0] {
        LessTotal(a[1..], b[1..]);
        assert a == [a[0]] + a[1..] && b == [b[0]] + b[1..];
      }
    }
  }

  /** The order of dictionaries: a beginning comes first, and else the first difference decides. */
  lemma {:induction false} LessDecides(common: string, a: string, b: string)
    requires a == [] || b == [] || a[0] != b[0]
    ensures Less(common + a, common + b) <==> b != [] && (a == [] || a[0] < b[0])
  {
    if common == [] {
      assert common + a == a && common + b == b;
    } else {
      LessDecides(common[1..], a, b);
      assert (common + a)[1..] == common[1..] + a && (common + b)[1..] == common[1..] + b;
    }
  }

  lemma LessOrEqualTransitive(a: string, b: string, c: string)
    requires !Less(b, a) && !Less(c, b)
    ensures !Less(c, a)
  {
    LessTotal(a, b);
    LessTotal(b, c);
    LessTotal(c, a);
    if Less(a, b) && Less(b, c) {
      LessTransitive(a, b, c);
    }
  }

  // sort.Sort

  ghost predicate Sorted(list: seq<Participant>) {
    forall i, k | 0 <= i < k < |list| :: !Less(list[k].peerID, list[i].peerID)
  }

  /** Sorted up to and including "end", except for the entry at "hole". */
  ghost predicate SortedBut(list: seq<Participant>, end: int, hole: int) {
    forall i, k | 0 <= i < k <= end && k < |list| && k != hole :: !Less(list[k].peerID, list[i].peerID)
  }

  lemma HoleMoves(list: seq<Participant>, end: nat, hole: nat)
    requires 0 < hole <= end < |list| && SortedBut(list, end, hole)
    requires Less(list[hole].peerID, list[hole - 1].peerID)
    ensures SortedBut(list[hole := list[hole - 1]][hole - 1 := list[hole]], end, hole - 1)
  {
    hide Less;
    LessTotal(list[hole].peerID, list[hole - 1].peerID);
  }

  lemma HoleFills(list: seq<Participant>, end: nat, hole: nat)
    requires 0 <= hole <= end < |list| && SortedBut(list, end, hole)
    requires hole > 0 ==> !Less(list[hole].peerID, list[hole - 1].peerID)
    ensures SortedBut(list, end, -1)
  {
    hide Less;
    forall i | 0 <= i < hole ensures !Less(list[hole].peerID, list[i].peerID) {
      if i < hole - 1 {
        LessOrEqualTransitive(list[i].peerID, list[hole - 1].peerID, list[hole].peerID);
      }
    }
  }

  method Swap(list: array<Participant>, i: nat, j: nat)
    requires i < list.Length && j < list.Length
    modifies list
    ensures list[..] == old(list[..])[i := old(list[j])][j := old(list[i])]
    ensures multiset(list[..]) == multiset(old(list[..]))
  {
    list[i], list[j] := list[j], list[i];
  }

  /** Any sort made of Less and Swap would do; this is the one used on short lists. */
  method SortbyPeerID(list: array<Participant>)
    modifies list
    ensures Sorted(list[..])
    ensures multiset(list[..]) == multiset(old(list[..]))
  {
    hide Less, SortedBut;
    if list.Length == 0 {
      return;
    }
    assert SortedBut(list[..], 0, -1) by {
      NothingBefore(list[..]);
    }
    for i := 1 to list.Length
      invariant SortedBut(list[..], i - 1, -1)
      invariant multiset(list[..]) == multiset(old(list[..]))
    {
      var j := i;
      OneMore(list[..], i);
      while j > 0 && Less(list[j].peerID, list[j - 1].peerID)
        invariant 0 <= j <= i
        invariant SortedBut(list[..], i, j)
        invariant multiset(list[..]) == multiset(old(list[..]))
      {
        HoleMoves(list[..], i, j);
        Swap(list, j, j - 1);
        j := j - 1;
      }
      HoleFills(list[..], i, j);
    }
    AllSorted(list[..]);
  }

  lemma NothingBefore(list: seq<Participant>)
    ensures SortedBut(list, 0, -1)
  {
  }

  lemma OneMore(list: seq<Participant>, i: nat)
    requires 0 < i < |list| && SortedBut(list, i - 1, -1)
    ensures SortedBut(list, i, i)
  {
  }

  lemma AllSorted(list: seq<Participant>)
    requires SortedBut(list, |list| - 1, -1)
    ensures Sorted(list)
  {
  }

  lemma Twice(list: seq<Participant>, i: nat, k: nat)
    requires i < k < |list| && list[i] == list[k]
    ensures multiset(list)[list[i]] >= 2
  {
    assert list == list[..k] + list[k..];
    assert list[i] in list[..k] && list[i] in list[k..];
  }

  lemma Once(list: seq<Participant>, i: nat)
    requires i < |list| && forall k | 0 <= k < |list| && k != i :: list[k] != list[i]
    ensures multiset(list)[list[i]] == 1
  {
    assert list == list[..i] + [list[i]] + list[i + 1..];
    assert list[i] !in list[..i] && list[i] !in list[i + 1..];
  }

  lemma SameElements(list: seq<Participant>, list': seq<Participant>)
    requires multiset(list) == multiset(list')
    ensures |list| == |list'|
    ensures forall i | 0 <= i < |list'| :: list'[i] in list
    ensures forall i | 0 <= i < |list| :: list[i] in list'
  {
    assert |list| == |multiset(list)| == |multiset(list')| == |list'|;
    forall i | 0 <= i < |list'| ensures list'[i] in list {
      assert list'[i] in multiset(list);
    }
    forall i | 0 <= i < |list| ensures list[i] in list' {
      assert list[i] in multiset(list');
    }
  }

  /** Reordering keeps a list of the participants one. */
  lemma ListsReordered(list: seq<Participant>, list': seq<Participant>, m: Parties)
    requires Lists(list, m) && multiset(list) == multiset(list')
    ensures Lists(list', m)
  {
    SameElements(list, list');
    forall i, k | 0 <= i < k < |list'| ensures list'[i].chanID != list'[k].chanID {
      if list'[i].chanID == list'[k].chanID {
        var a :| 0 <= a < |list| && list[a] == list'[i];
        Once(list, a);
        Twice(list', i, k);
        assert false;
      }
    }
    forall c <- m ensures exists i :: 0 <= i < |list'| && list'[i].chanID == c {
      var i :| 0 <= i < |list| && list[i].chanID == c;
      var k :| 0 <= k < |list'| && list'[k] == list[i];
    }
  }
}
