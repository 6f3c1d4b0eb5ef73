/** What the pipes of orchestration/pipeline make of an instruction, as relations on values:
    the methods in Pipeline are proved to realise them for some order of every map, and the
    theorems here hold for all of them. */
module Selection {
  import opened MapOrder
  import opened Protocol
  import opened Participants

  type int32 = n: int | -0x8000_0000 <= n <= 0x7fff_ffff

  const MAX_INT32: int32 := 0x7fff_ffff

  /** The number of peers an int32 can tell apart. */
  const CHANNEL_IDS := 0x1_0000_0000

  /** The conversion int32(n). */
  function Int32(n: int): int32 {
    (n + 0x8000_0000) % 0x1_0000_0000 - 0x8000_0000
  }

  datatype TaskOption = Str(str: string) | Dec(dec: int32)

  function GetDec(o: TaskOption): int32 {
    if o.Dec? then o.dec else 0
  }

  datatype SMCTask = SMCTask(aggregator: int, options: map<string, TaskOption>)

  const DBG_PINGPONG := 1000
  const DBG_PINGPONG_10 := 1001
  const DBG_PINGPONG_100 := 1002

  /** An option counts if it is there and positive. */
  predicate Positive(task: SMCTask, name: string) {
    name in task.options && GetDec(task.options[name]) > 0
  }

  function MinParties(debug: bool, task: SMCTask): int32 {
    if debug && Positive(task, "minNumPeers") then GetDec(task.options["minNumPeers"]) else 1
  }

  function MaxParties(debug: bool, task: SMCTask): int32 {
    if debug && "maxNumPeers" in task.options && GetDec(task.options["maxNumPeers"]) >= MinParties(debug, task)
    then GetDec(task.options["maxNumPeers"]) else MAX_INT32
  }

  predicate Sorts(debug: bool, task: SMCTask) {
    debug && Positive(task, "sortPeerIDs")
  }

  /** An instruction under construction. */
  datatype Draft = Draft(tasks: seq<SMCCmd>, parties: Parties)

  datatype Pipe = GroupMap | OnlineFilter(debug: bool) | ContinousChanID | PhaseBuilder | DbgPingPong

  // What each pipe promises

  function OnlineOf(m: Parties, online: set<PeerID>): set<ChannelID> {
    set c | c in m && m[c] in online
  }

  function Min(a: int, b: int): int {
    if a <= b then a else b
  }

  /** As many online participants as allowed. */
  ghost predicate Selected(m: Parties, m0: Parties, online: set<PeerID>, max: int) {
    && (forall c <- m :: c in m0 && m[c] == m0[c] && m[c] in online)
    && |m| == Min(max, |OnlineOf(m0, online)|)
  }

  /** No online participant that was left out comes before one that was not. */
  ghost predicate Foremost(m: Parties, m0: Parties, online: set<PeerID>) {
    forall c, d | c in m && d in m0 && d !in m && m0[d] in online :: !Less(m0[d], m[c])
  }

  function Renumbered(m: Parties, order: seq<ChannelID>): Parties
    requires IsOrder(order, m.Keys)
  {
    map c | c in UpTo(|order|) :: m[order[c - 1]]
  }

  /** The table of a PREPARE command as a list. */
  function Rows(table: seq<TableEntry>): seq<Participant> {
    if table == [] then []
    else
      var n := |table| - 1;
      Rows(table[..n]) + [Participant(table[n].authID, table[n].smcPeerID)]
  }

  lemma {:induction false} RowsFacts(table: seq<TableEntry>)
    ensures |Rows(table)| == |table|
    ensures forall i | 0 <= i < |table| :: Rows(table)[i] == Participant(table[i].authID, table[i].smcPeerID)
  {
    if table != [] {
      RowsFacts(table[..|table| - 1]);
    }
  }

  const SESSION_ID := "f13x00000"
  const DEBUG_SESSION_ID := "f13xdbg"

  function BatchOps(task: SMCTask): int {
    if Positive(task, "batchOpSize") then GetDec(task.options["batchOpSize"]) else 0
  }

  predicate IsPlan(tasks: seq<SMCCmd>, task: SMCTask, table: seq<TableEntry>) {
    var prepare := SMCCmd(SESSION_ID, 0, Prepare(table));
    var session := SMCCmd(SESSION_ID, 0, Session(BatchOps(task)));
    tasks == if "useLinkingPhase" in task.options then [prepare, SMCCmd(SESSION_ID, 0, Link), session]
      else [prepare, session]
  }

  /** The plan starts with a PREPARE command whose table lists the participants. */
  ghost predicate Planned(tasks: seq<SMCCmd>, task: SMCTask, m: Parties) {
    && tasks != [] && tasks[0].payload.Prepare?
    && IsPlan(tasks, task, tasks[0].payload.participants)
    && Lists(Rows(tasks[0].payload.participants), m)
  }

  function PingPhases(task: SMCTask): nat {
    if task.aggregator == DBG_PINGPONG_10 then 10
    else if task.aggregator == DBG_PINGPONG_100 then 100
    else 1
  }

  /** A countdown in which exactly the last ping announces no more phases. */
  predicate Pings(tasks: seq<SMCCmd>, task: SMCTask) {
    && |tasks| == PingPhases(task)
    && forall i | 0 <= i < |tasks| :: tasks[i] == SMCCmd(DEBUG_SESSION_ID, 0, Debug(|tasks| - i, i < |tasks| - 1))
  }

  /** "ok" is false if the pipe returns an error. */
  ghost predicate Outcome(pipe: Pipe, task: SMCTask, registered: set<PeerID>, online: set<PeerID>, d: Draft,
                          d': Draft, ok: bool) {
    match pipe
    case GroupMap =>
      && ok && d'.tasks == d.tasks
      && Injective(d'.parties) && d'.parties.Values <= registered && |d'.parties| == Min(|registered|, CHANNEL_IDS)
      && (|registered| <= MAX_INT32 ==> d'.parties.Keys == UpTo(|registered|))
    case OnlineFilter(debug) =>
      && d'.tasks == d.tasks
      && Selected(d'.parties, d.parties, online, MaxParties(debug, task))
      && (Sorts(debug, task) ==> Foremost(d'.parties, d.parties, online))
      && (ok <==> |OnlineOf(d.parties, online)| >= MinParties(debug, task))
    case ContinousChanID =>
      && ok && d'.tasks == d.tasks
      && (|d.parties| <= MAX_INT32 ==>
        exists order :: IsOrder(order, d.parties.Keys) && d'.parties == Renumbered(d.parties, order))
    case PhaseBuilder =>
      && d'.parties == d.parties
      && (ok <==> d.tasks == [])
      && (if ok then Planned(d'.tasks, task, d.parties) else d'.tasks == d.tasks)
    case DbgPingPong =>
      && d'.parties == d.parties
      && (ok <==> d.tasks == [])
      && (if ok then Pings(d'.tasks, task) else d'.tasks == d.tasks)
  }

  const PIPE_MAX_RETRIES := 3

  /** One pass through the pipes; the last draft is the one after the last pipe that was run. */
  ghost predicate RunOf(pipes: seq<Pipe>, task: SMCTask, registered: set<PeerID>, online: set<PeerID>,
                        drafts: seq<Draft>, ok: bool) {
    && 1 <= |drafts| <= |pipes| + 1
    && drafts[0] == Draft([], map[])
    && (forall i | 0 <= i < |drafts| - 1 ::
          Outcome(pipes[i], task, registered, online, drafts[i], drafts[i + 1], ok || i < |drafts| - 2))
    && (if ok then |drafts| == |pipes| + 1 else |drafts| >= 2)
  }

  /** Attempts at different moments: all but the last failed. */
  ghost predicate Retried(pipes: seq<Pipe>, task: SMCTask, registered: set<PeerID>, onlines: seq<set<PeerID>>,
                          runs: seq<seq<Draft>>, ok: bool) {
    && 1 <= |onlines| <= PIPE_MAX_RETRIES && |runs| == |onlines|
    && (!ok ==> |onlines| == PIPE_MAX_RETRIES)
    && forall k | 0 <= k < |onlines| :: RunOf(pipes, task, registered, onlines[k], runs[k], ok && k == |onlines| - 1)
  }

  function Production(debug: bool): seq<Pipe> {
    [GroupMap, OnlineFilter(debug), ContinousChanID, PhaseBuilder]
  }

  function Debugging(debug: bool): seq<Pipe> {
    [GroupMap, OnlineFilter(debug), DbgPingPong]
  }

  // Theorems

  /** Neither bound of the filter excludes the other. */
  lemma Bounds(debug: bool, task: SMCTask)
    ensures 1 <= MinParties(debug, task) <= MaxParties(debug, task) <= MAX_INT32
  {
  }

  /** On distinct participants the filter counts peers. */
  lemma OnlinePeers(m: Parties, online: set<PeerID>)
    requires Injective(m)
    ensures |OnlineOf(m, online)| == |m.Values * online|
  {
    InjectiveImage(m, online);
  }

  /** The peers are the first ones of the pool. */
  ghost predicate First(peers: set<PeerID>, pool: set<PeerID>) {
    forall x, y | x in peers && y in pool - peers :: Less(x, y)
  }

  /** What a selection of distinct participants says about the peers. */
  lemma SelectedPeers(m: Parties, m0: Parties, online: set<PeerID>, max: int)
    requires Injective(m0) && Selected(m, m0, online, max)
    ensures Injective(m) && m.Values <= m0.Values * online
    ensures |m| == Min(max, |m0.Values * online|)
    ensures Foremost(m, m0, online) ==> First(m.Values, m0.Values * online)
  {
    OnlinePeers(m0, online);
    forall p <- m.Values ensures p in m0.Values * online {
      var c := KeyOf(m, p);
      assert m0[c] == p;
    }
    forall x, y | x in m.Values && y in m0.Values * online - m.Values ensures Foremost(m, m0, online) ==> Less(x, y) {
      var c := KeyOf(m, x);
      var d := KeyOf(m0, y);
      LessTotal(x, y);
      assert d !in m;
    }
  }

  /** The first so many of a pool are unique. */
  lemma FirstUnique(a: set<PeerID>, b: set<PeerID>, pool: set<PeerID>)
    requires a <= pool && b <= pool && |a| == |b|
    requires First(a, pool) && First(b, pool)
    ensures a == b
  {
    if a != b {
      var x, y := EachHasMore(a, b);
      LessTotal(x, y);
      assert false;
    }
  }

  lemma RenumberedKeys(m: Parties, order: seq<ChannelID>)
    requires IsOrder(order, m.Keys)
    ensures var r := Renumbered(m, order);
      |r| == |m| && r.Keys == UpTo(|m|) && (Injective(m) ==> Injective(r))
  {
    OrderLength(order, m.Keys);
    var r := Renumbered(m, order);
    assert r.Keys == UpTo(|m|);
  }

  lemma RenumberedHas(m: Parties, order: seq<ChannelID>, d: ChannelID)
    requires IsOrder(order, m.Keys) && d in m
    ensures m[d] in Renumbered(m, order).Values
  {
    assert d in order;
    var i :| 0 <= i < |order| && order[i] == d;
    assert i + 1 in Renumbered(m, order) && Renumbered(m, order)[i + 1] == m[d];
  }

  lemma RenumberedFrom(m: Parties, order: seq<ChannelID>, c: ChannelID)
    requires IsOrder(order, m.Keys) && c in Renumbered(m, order)
    ensures Renumbered(m, order)[c] in m.Values
  {
    assert order[c - 1] in order;
    assert order[c - 1] in m;
  }

  /** Renumbering keeps the peers and numbers them from 1. */
  lemma RenumberedFacts(m: Parties, order: seq<ChannelID>)
    requires IsOrder(order, m.Keys)
    ensures var r := Renumbered(m, order);
      && |r| == |m|
      && r.Keys == UpTo(|m|)
      && r.Values == m.Values
      && (Injective(m) ==> Injective(r))
  {
    hide Renumbered, UpTo, IsOrder, Injective;
    var r := Renumbered(m, order);
    RenumberedKeys(m, order);
    forall p <- m.Values ensures p in r.Values {
      var d := KeyOf(m, p);
      RenumberedHas(m, order, d);
    }
    forall p <- r.Values ensures p in m.Values {
      var c := KeyOf(r, p);
      RenumberedFrom(m, order, c);
    }
  }

  /** What a production run hands over: distinct, registered, online peers, as many as allowed,
      keyed 1 to n; with sorting the first ones by ID; and a plan whose PREPARE table lists
      exactly these peers under exactly these keys. */
  ghost predicate Produced(d: Draft, task: SMCTask, debug: bool, pool: set<PeerID>) {
    && d.parties.Keys == UpTo(|d.parties|)
    && Injective(d.parties)
    && d.parties.Values <= pool
    && |d.parties| == Min(MaxParties(debug, task), |pool|) >= MinParties(debug, task)
    && (Sorts(debug, task) ==> First(d.parties.Values, pool))
    && Planned(d.tasks, task, d.parties)
  }

  /** The peers that the group map could give a key of their own: all of them, unless there are
      more than an int32 can tell apart. */
  function Kept(drafts: seq<Draft>): set<PeerID>
    requires |drafts| >= 2
  {
    drafts[1].parties.Values
  }

  lemma KeptFacts(task: SMCTask, registered: set<PeerID>, online: set<PeerID>, d: Draft, d1: Draft, ok: bool)
    requires Outcome(GroupMap, task, registered, online, d, d1, ok)
    ensures |d1.parties.Values| == Min(|registered|, CHANNEL_IDS)
    ensures |registered| <= CHANNEL_IDS ==> d1.parties.Values == registered
  {
    hide Injective;
    InjectiveSize(d1.parties);
    if |registered| <= CHANNEL_IDS {
      SubsetOfSameSize(d1.parties.Values, registered);
    }
  }

  lemma FilterOutcome(task: SMCTask, registered: set<PeerID>, online: set<PeerID>, debug: bool, d1: Draft, d2: Draft,
                      ok: bool)
    requires Injective(d1.parties)
    requires Outcome(OnlineFilter(debug), task, registered, online, d1, d2, ok)
    ensures ok <==> |d1.parties.Values * online| >= MinParties(debug, task)
    ensures Injective(d2.parties) && d2.parties.Values <= d1.parties.Values * online
    ensures |d2.parties| == Min(MaxParties(debug, task), |d1.parties.Values * online|)
    ensures Sorts(debug, task) ==> First(d2.parties.Values, d1.parties.Values * online)
  {
    hide First, Foremost, Less, MinParties, MaxParties, Sorts;
    SelectedPeers(d2.parties, d1.parties, online, MaxParties(debug, task));
    OnlinePeers(d1.parties, online);
  }

  /** The pipes after the filter cannot fail. */
  lemma AfterFilter(task: SMCTask, registered: set<PeerID>, online: set<PeerID>, d2: Draft, d3: Draft, d4: Draft,
                    ok3: bool, ok4: bool)
    requires Injective(d2.parties) && |d2.parties| <= MAX_INT32 && d2.tasks == []
    requires Outcome(ContinousChanID, task, registered, online, d2, d3, ok3)
    requires Outcome(PhaseBuilder, task, registered, online, d3, d4, ok4)
    ensures ok3 && ok4 && Injective(d4.parties) && |d4.parties| == |d2.parties|
      && d4.parties.Values == d2.parties.Values
    ensures d4.parties.Keys == UpTo(|d4.parties|) && Planned(d4.tasks, task, d4.parties)
  {
    hide Injective, Planned, IsOrder;
    var order :| IsOrder(order, d2.parties.Keys) && d3.parties == Renumbered(d2.parties, order);
    RenumberedFacts(d2.parties, order);
  }

  /** A production run succeeds iff enough registered peers are online; whatever the order of
      the maps, its result is as promised. */
  lemma ProductionRun(task: SMCTask, debug: bool, registered: set<PeerID>, online: set<PeerID>, drafts: seq<Draft>,
                      ok: bool)
    requires RunOf(Production(debug), task, registered, online, drafts, ok)
    ensures |drafts| >= 2 && Kept(drafts) <= registered && |Kept(drafts)| == Min(|registered|, CHANNEL_IDS)
    ensures |registered| <= CHANNEL_IDS ==> Kept(drafts) == registered
    ensures ok <==> |Kept(drafts) * online| >= MinParties(debug, task)
    ensures ok ==> |drafts| == 5 && Produced(drafts[4], task, debug, Kept(drafts) * online)
  {
    hide Injective, Selected, Foremost, First, Less, OnlineOf, Planned, MinParties, MaxParties, Sorts, IsOrder, UpTo,
         Renumbered;
    Bounds(debug, task);
    assert Outcome(GroupMap, task, registered, online, drafts[0], drafts[1], ok || |drafts| > 2);
    assert |drafts| >= 3;
    KeptFacts(task, registered, online, drafts[0], drafts[1], ok || |drafts| > 2);
    FilterOutcome(task, registered, online, debug, drafts[1], drafts[2], ok || |drafts| > 3);
    if |drafts| > 3 {
      assert Outcome(ContinousChanID, task, registered, online, drafts[2], drafts[3], ok || |drafts| > 4);
      assert |drafts| == 5;
      AfterFilter(task, registered, online, drafts[2], drafts[3], drafts[4], true, ok);
    }
  }

  /** Retrying fails iff too few peers were online at each of three attempts; otherwise the
      result is that of the first attempt that found enough. */
  lemma RetriedProduction(task: SMCTask, debug: bool, registered: set<PeerID>, onlines: seq<set<PeerID>>,
                          runs: seq<seq<Draft>>, ok: bool)
    requires Retried(Production(debug), task, registered, onlines, runs, ok)
    ensures forall k | 0 <= k < |onlines| ::
      |runs[k]| >= 2 && Kept(runs[k]) <= registered && (|registered| <= CHANNEL_IDS ==> Kept(runs[k]) == registered)
    ensures 1 <= |onlines| <= 3 && (!ok ==> |onlines| == 3)
    ensures ok <==> exists k :: 0 <= k < |onlines| && |Kept(runs[k]) * onlines[k]| >= MinParties(debug, task)
    ensures forall k | 0 <= k < |onlines| - 1 :: |Kept(runs[k]) * onlines[k]| < MinParties(debug, task)
    ensures ok ==>
      var k := |onlines| - 1;
      |runs[k]| == 5 && Produced(runs[k][4], task, debug, Kept(runs[k]) * onlines[k])
  {
    hide RunOf, Produced, MinParties, Kept;
    forall k | 0 <= k < |onlines|
      ensures |runs[k]| >= 2 && Kept(runs[k]) <= registered
        && (|registered| <= CHANNEL_IDS ==> Kept(runs[k]) == registered)
      ensures ok && k == |onlines| - 1 <==> |Kept(runs[k]) * onlines[k]| >= MinParties(debug, task)
      ensures ok && k == |onlines| - 1 ==>
        |runs[k]| == 5 && Produced(runs[k][4], task, debug, Kept(runs[k]) * onlines[k])
    {
      ProductionRun(task, debug, registered, onlines[k], runs[k], ok && k == |onlines| - 1);
    }
    var last := |onlines| - 1;
    assert ok ==> |Kept(runs[last]) * onlines[last]| >= MinParties(debug, task);
  }

  /** With sorting the selected peers depend alone on who is online and has a key, that is, is
      registered. */
  lemma SameSelection(task: SMCTask, debug: bool, registered: set<PeerID>, online: set<PeerID>, a: seq<Draft>,
                      b: seq<Draft>)
    requires Sorts(debug, task)
    requires RunOf(Production(debug), task, registered, online, a, true)
      && RunOf(Production(debug), task, registered, online, b, true)
    ensures |a| == |b| == 5
    ensures Kept(a) == Kept(b) ==> a[4].parties.Values == b[4].parties.Values
    ensures |registered| <= CHANNEL_IDS ==> Kept(a) == Kept(b) == registered
  {
    hide RunOf, Planned, First, Sorts;
    ProductionRun(task, debug, registered, online, a, true);
    ProductionRun(task, debug, registered, online, b, true);
    if Kept(a) == Kept(b) {
      InjectiveSize(a[4].parties);
      InjectiveSize(b[4].parties);
      FirstUnique(a[4].parties.Values, b[4].parties.Values, Kept(a) * online);
    }
  }

  /** The debugging pipes select alike but keep the keys of the group map. */
  lemma DebuggingRun(task: SMCTask, debug: bool, registered: set<PeerID>, online: set<PeerID>, drafts: seq<Draft>,
                     ok: bool)
    requires RunOf(Debugging(debug), task, registered, online, drafts, ok)
    ensures |drafts| >= 2 && Kept(drafts) <= registered && (|registered| <= CHANNEL_IDS ==> Kept(drafts) == registered)
    ensures ok <==> |Kept(drafts) * online| >= MinParties(debug, task)
    ensures ok ==>
      && |drafts| == 4 && Pings(drafts[3].tasks, task)
      && Injective(drafts[3].parties) && drafts[3].parties.Values <= Kept(drafts) * online
      && |drafts[3].parties| == Min(MaxParties(debug, task), |Kept(drafts) * online|)
  {
    hide Injective, Selected, Foremost, First, Less, OnlineOf, MinParties, MaxParties, Sorts, Pings, UpTo;
    assert Outcome(GroupMap, task, registered, online, drafts[0], drafts[1], ok || |drafts| > 2);
    assert |drafts| >= 3;
    KeptFacts(task, registered, online, drafts[0], drafts[1], ok || |drafts| > 2);
    FilterOutcome(task, registered, online, debug, drafts[1], drafts[2], ok || |drafts| > 3);
    if |drafts| > 3 {
      assert Outcome(DbgPingPong, task, registered, online, drafts[2], drafts[3], ok);
    }
  }

  /** These are numbered from 1. */
  lemma DebuggingKeys(task: SMCTask, debug: bool, registered: set<PeerID>, online: set<PeerID>, drafts: seq<Draft>)
    requires RunOf(Debugging(debug), task, registered, online, drafts, true) && |registered| <= MAX_INT32
    ensures |drafts| == 4 && forall c <- drafts[3].parties :: 1 <= c <= |registered|
  {
    hide Injective, Foremost, Less, OnlineOf, MinParties, MaxParties, Sorts, Pings;
    assert Outcome(GroupMap, task, registered, online, drafts[0], drafts[1], true);
    assert Outcome(OnlineFilter(debug), task, registered, online, drafts[1], drafts[2], true);
    assert Outcome(DbgPingPong, task, registered, online, drafts[2], drafts[3], true);
  }

  // What the options of a task ask for

  /** The option is there with this number. */
  predicate Given(task: SMCTask, name: string, n: int32) {
    name in task.options && task.options[name] == Dec(n)
  }

  /** The option is not there, or is text, or a number below this one. */
  predicate NotGiven(task: SMCTask, name: string, least: int32) {
    name !in task.options || task.options[name].Str? || task.options[name].dec < least
  }

  /** Outside debug mode the options about peers are ignored: one peer is enough, all are taken. */
  lemma PlainProduction(task: SMCTask, registered: set<PeerID>, online: set<PeerID>, drafts: seq<Draft>, ok: bool)
    requires RunOf(Production(false), task, registered, online, drafts, ok)
    ensures |drafts| >= 2 && (ok <==> |Kept(drafts) * online| >= 1)
    ensures ok ==> |drafts| == 5 && |drafts[4].parties| == Min(0x7fff_ffff, |Kept(drafts) * online|)
  {
    hide RunOf, Planned, First;
    ProductionRun(task, false, registered, online, drafts, ok);
  }

  /** In debug mode "minNumPeers" is how many peers must be online, "maxNumPeers" how many are
      taken at most, unless it is below that, and "sortPeerIDs" that the first ones are taken. */
  lemma DebugProduction(task: SMCTask, registered: set<PeerID>, online: set<PeerID>, drafts: seq<Draft>, ok: bool,
                        least: int32, most: int32, sort: int32)
    requires RunOf(Production(true), task, registered, online, drafts, ok)
    requires least > 0 && (Given(task, "minNumPeers", least) || (least == 1 && NotGiven(task, "minNumPeers", 1)))
    ensures |drafts| >= 2 && (ok <==> |Kept(drafts) * online| >= least)
    ensures ok ==> |drafts| == 5
    ensures ok && Given(task, "maxNumPeers", most) && most >= least ==>
      |drafts[4].parties| == Min(most, |Kept(drafts) * online|)
    ensures ok && NotGiven(task, "maxNumPeers", least) ==>
      |drafts[4].parties| == Min(0x7fff_ffff, |Kept(drafts) * online|)
    ensures ok && Given(task, "sortPeerIDs", sort) && sort > 0 ==>
      First(drafts[4].parties.Values, Kept(drafts) * online)
  {
    hide RunOf, Planned, First;
    ProductionRun(task, true, registered, online, drafts, ok);
  }

  /** The plan: PREPARE, then LINK iff the task has the option "useLinkingPhase", then SESSION with
      the number "batchOpSize" if it is given and positive; all of one session. */
  lemma PlanOptions(tasks: seq<SMCCmd>, task: SMCTask, m: Parties, size: int32)
    requires Planned(tasks, task, m)
    ensures |tasks| == if "useLinkingPhase" in task.options then 3 else 2
    ensures tasks[0].payload.Prepare? && (|tasks| == 3 ==> tasks[1].payload.Link?)
    ensures var last := tasks[|tasks| - 1].payload;
      && last.Session?
      && (Given(task, "batchOpSize", size) && size > 0 ==> last.parallelBatchOps == size)
      && (NotGiven(task, "batchOpSize", 1) ==> last.parallelBatchOps == 0)
    ensures forall t <- tasks :: t.sessionID == "f13x00000"
  {
    hide Lists, Rows;
  }

  /** The debugging aggregators: 10 pings, 100, or one, each announcing whether more follow. */
  lemma PingOptions(tasks: seq<SMCCmd>, task: SMCTask)
    requires Pings(tasks, task)
    ensures task.aggregator == 1001 ==> |tasks| == 10
    ensures task.aggregator == 1002 ==> |tasks| == 100
    ensures task.aggregator !in {1001, 1002} ==> |tasks| == 1
    ensures forall i | 0 <= i < |tasks| :: tasks[i].payload == Debug(|tasks| - i, i + 1 < |tasks|)
  {
  }
}
