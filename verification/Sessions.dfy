/**
 * Many connections at once. Each connection has one subscription loop; a move between the indexes
 * is two separately locked halves, and anything may happen in between.
 */
module Sessions {
  import opened Backend
  import opened Decimal
  import opened Cells
  import opened SubscriberSpec
  import opened SubscriberProps
  import opened SubscriberRuns
  import opened Topologies
  import opened Subscriptions

  /** Where a connection's loop stands; Closing and Closed belong to the intended loop exit. */
  datatype Phase = Waiting | MovingToCell(cell: CellValue) | MovingToGroup(group: string) | Closing | Closed

  /** A connection's loop, the events offered to its input and those it received. */
  datatype Driver = Driver(memory: Memory, sent: seq<Event>, got: seq<Event>, phase: Phase)

  datatype Sys = Sys(cells: Hub, groups: Hub, drivers: map<Connection, Driver>)

  const START := Sys(EMPTY_HUB, EMPTY_HUB, map[])

  /**
   * Close is the call after the loop in Start, which the code never reaches; it is here as the
   * intended exit. An offer nobody is ready to receive is dropped.
   */
  datatype Act = Connect(conn: Connection) | Offer(conn: Connection, ev: Event, taken: bool)
               | Finish(conn: Connection) | Close(conn: Connection)

  function Entering(action: Action): Phase {
    match action
    case Stay => Waiting
    case ToCell(cell) => MovingToCell(cell)
    case ToGroup(group) => MovingToGroup(group)
  }

  /** The first locked half of a move; backend errors may occur. */
  ghost predicate FirstHalf(s: Sys, conn: Connection, action: Action, s': Sys) {
    match action
    case Stay => s'.cells == s.cells && s'.groups == s.groups
    case ToCell(_) => s'.cells == s.cells && Does(s.groups, Leave(conn), s'.groups)
    case ToGroup(_) => Does(s.cells, Leave(conn), s'.cells) && s'.groups == s.groups
  }

  /** The second locked half. */
  ghost predicate SecondHalf(s: Sys, conn: Connection, phase: Phase, s': Sys) {
    match phase
    case MovingToCell(cell) => Does(s.cells, Visit(conn, Names(cell.group)), s'.cells) && s'.groups == s.groups
    case MovingToGroup(group) => s'.cells == s.cells && Does(s.groups, Join(conn, group, true), s'.groups)
    case Closing => s'.cells == s.cells && Does(s.groups, Leave(conn), s'.groups)
    case _ => false
  }

  ghost predicate Next(s: Sys, act: Act, s': Sys) {
    var conn := act.conn;
    match act
    case Connect(_) =>
      && conn !in s.drivers
      && s' == s.(drivers := s.drivers[conn := Driver(INITIAL_MEMORY, [], [], Waiting)])
    case Offer(_, ev, taken) =>
      && conn in s.drivers
      && var d := s.drivers[conn];
      if !taken then
        s' == s.(drivers := s.drivers[conn := d.(sent := d.sent + [ev])])
      else
        && d.phase == Waiting
        && var (m, action) := React(d.memory, ev);
        && FirstHalf(s, conn, action, s')
        && s'.drivers == s.drivers[conn := Driver(m, d.sent + [ev], d.got + [ev], Entering(action))]
    case Finish(_) =>
      && conn in s.drivers
      && var d := s.drivers[conn];
      && SecondHalf(s, conn, d.phase, s')
      && s'.drivers == s.drivers[conn := d.(phase := if d.phase == Closing then Closed else Waiting)]
    case Close(_) =>
      && conn in s.drivers && s.drivers[conn].phase == Waiting
      && Does(s.cells, Leave(conn), s'.cells) && s'.groups == s.groups
      && s'.drivers == s.drivers[conn := s.drivers[conn].(phase := Closing)]
  }

  /** An interleaving of any number of connections, with any backend errors. */
  ghost predicate Run(states: seq<Sys>, acts: seq<Act>) {
    && |states| == |acts| + 1 && states[0] == START
    && forall i :: 0 <= i < |acts| ==> Next(states[i], acts[i], states[i + 1])
  }

  predicate Clean(s: Sys) {
    NoErrors(s.cells.calls) && NoErrors(s.groups.calls)
  }

  /** One sequence can be obtained from the other by leaving elements out. */
  predicate Subsequence<T(==)>(a: seq<T>, b: seq<T>)
    decreases |b|
  {
    if a == [] then true
    else if b == [] then false
    else if a[|a| - 1] == b[|b| - 1] then Subsequence(a[..|a| - 1], b[..|b| - 1])
    else Subsequence(a, b[..|b| - 1])
  }

  lemma SubsequenceBoth<T>(a: seq<T>, b: seq<T>, x: T)
    requires Subsequence(a, b)
    ensures Subsequence(a + [x], b + [x])
  {
    assert (a + [x])[..|a|] == a && (b + [x])[..|b|] == b;
  }

  lemma {:induction false} SubsequenceShorter<T>(a: seq<T>, b: seq<T>)
    requires a != [] && Subsequence(a, b)
    ensures Subsequence(a[..|a| - 1], b)
    decreases |b|, 0
  {
    var init := a[..|a| - 1];
    if a[|a| - 1] == b[|b| - 1] {
      if init != [] {
        SubsequenceLonger(init, b[..|b| - 1], b[|b| - 1]);
        assert b[..|b| - 1] + [b[|b| - 1]] == b;
      }
    } else {
      SubsequenceShorter(a, b[..|b| - 1]);
      SubsequenceLonger(init, b[..|b| - 1], b[|b| - 1]);
      assert b[..|b| - 1] + [b[|b| - 1]] == b;
    }
  }

  lemma {:induction false} SubsequenceLonger<T>(a: seq<T>, b: seq<T>, x: T)
    requires Subsequence(a, b)
    ensures Subsequence(a, b + [x])
    decreases |b|, 1
  {
    assert (b + [x])[..|b|] == b;
    if a != [] && a[|a| - 1] == x {
      SubsequenceShorter(a, b);
    }
  }

  // ---------- the invariant ----------

  /** A connection is where its events say, or on its way there with the other index already left. */
  ghost predicate Right(cells: Hub, groups: Hub, conn: Connection, d: Driver) {
    && Remembers(d.memory, d.got) && Subsequence(d.got, d.sent)
    && match d.phase
       case Waiting => Placed(cells, groups, conn, Wanted(d.got))
       case MovingToCell(cell) => groups.Held(conn) == {} && Wanted(d.got) == InCells(Channels(cell.group))
       case MovingToGroup(group) => cells.Held(conn) == {} && Wanted(d.got) == InGroup(group)
       case Closing => cells.Held(conn) == {}
       case Closed => Placed(cells, groups, conn, Nowhere)
  }

  /** A connection that has no loop has no channels. */
  ghost predicate RightAt(s: Sys, conn: Connection) {
    if conn in s.drivers then Right(s.cells, s.groups, conn, s.drivers[conn])
    else Placed(s.cells, s.groups, conn, Nowhere)
  }

  ghost predicate Good(s: Sys) {
    && Strong(s.cells) && Strong(s.groups)
    && forall conn :: RightAt(s, conn)
  }

  lemma OthersHeld(h: Hub, req: Request, h': Hub, other: Connection)
    requires h' == h || Does(h, req, h')
    requires other != req.conn
    ensures h'.Held(other) == h.Held(other)
  {
    if h' != h {
      var ok :| Performs(h, req, ok, h');
      OthersReceive(h, req, ok, h', other, "");
    }
  }

  /** The requests an act makes of the two Subscribers, if it makes one. */
  function CellRequest(s: Sys, act: Act): Request {
    match act
    case Finish(conn) =>
      if conn in s.drivers && s.drivers[conn].phase.MovingToCell? then
        Visit(conn, Names(s.drivers[conn].phase.cell.group))
      else Leave(conn)
    case _ => Leave(act.conn)
  }

  function GroupRequest(s: Sys, act: Act): Request {
    match act
    case Finish(conn) =>
      if conn in s.drivers && s.drivers[conn].phase.MovingToGroup? then Join(conn, s.drivers[conn].phase.group, true)
      else Leave(conn)
    case _ => Leave(act.conn)
  }

  /** Every act is at most one request to each Subscriber. */
  lemma ActRequests(s: Sys, act: Act, s': Sys)
    requires Next(s, act, s')
    ensures s'.cells == s.cells || Does(s.cells, CellRequest(s, act), s'.cells)
    ensures s'.groups == s.groups || Does(s.groups, GroupRequest(s, act), s'.groups)
    ensures CellRequest(s, act).conn == act.conn && GroupRequest(s, act).conn == act.conn
    ensures forall c :: c != act.conn ==> (c in s'.drivers <==> c in s.drivers)
                                          && (c in s.drivers ==> s'.drivers[c] == s.drivers[c])
  {
  }

  lemma CleanBefore(s: Sys, act: Act, s': Sys)
    requires Next(s, act, s') && Clean(s')
    ensures Clean(s)
  {
    ActRequests(s, act, s');
    if s'.cells != s.cells { DoesGrow(s.cells, CellRequest(s, act), s'.cells); }
    if s'.groups != s.groups { DoesGrow(s.groups, GroupRequest(s, act), s'.groups); }
  }

  lemma StepStrong(h: Hub, req: Request, h': Hub)
    requires h' == h || Does(h, req, h')
    requires Strong(h) && NoErrors(h'.calls) && (req.Join? ==> req.replace)
    ensures Strong(h')
    ensures h' != h ==> h'.Held(req.conn) == Outcome(req)
    ensures Does(h, req, h') ==> h'.Held(req.conn) == Outcome(req)
  {
    if Does(h, req, h') {
      DoesStrong(h, req, h');
    }
  }

  /** The acting connection ends up right. */
  lemma ActorRight(s: Sys, act: Act, s': Sys)
    requires Next(s, act, s') && Good(s) && Clean(s')
    ensures RightAt(s', act.conn)
  {
    var conn := act.conn;
    assert RightAt(s, conn);
    ActRequests(s, act, s');
    StepStrong(s.cells, CellRequest(s, act), s'.cells);
    StepStrong(s.groups, GroupRequest(s, act), s'.groups);
    if act.Offer? {
      var d := s.drivers[conn];
      if act.taken {
        ReactRefinesWanted(d.memory, d.got, act.ev);
        SubsequenceBoth(d.got, d.sent, act.ev);
      } else {
        SubsequenceLonger(d.got, d.sent, act.ev);
      }
    }
  }

  lemma NextGood(s: Sys, act: Act, s': Sys)
    requires Next(s, act, s') && Good(s) && Clean(s')
    ensures Good(s')
  {
    ActRequests(s, act, s');
    StepStrong(s.cells, CellRequest(s, act), s'.cells);
    StepStrong(s.groups, GroupRequest(s, act), s'.groups);
    forall conn ensures RightAt(s', conn) {
      if conn == act.conn {
        ActorRight(s, act, s');
      } else {
        assert RightAt(s, conn);
        OthersHeld(s.cells, CellRequest(s, act), s'.cells, conn);
        OthersHeld(s.groups, GroupRequest(s, act), s'.groups, conn);
      }
    }
  }

  // ---------- main results ----------

  /**
   * Refinement over every interleaving: in each state of an error-free run every connection is
   * right, whatever the others do between the two halves of its moves.
   */
  lemma {:induction false} RunGood(states: seq<Sys>, acts: seq<Act>, i: nat)
    requires Run(states, acts) && i < |states| && Clean(states[i])
    ensures Good(states[i])
    decreases i
  {
    if i > 0 {
      CleanBefore(states[i - 1], acts[i - 1], states[i]);
      RunGood(states, acts, i - 1);
      NextGood(states[i - 1], acts[i - 1], states[i]);
    } else {
      forall conn ensures RightAt(START, conn) {
      }
    }
  }

  /** Whatever fails: in every state of every run nobody is handed messages that it has no record of. */
  lemma {:induction false} RunRecorded(states: seq<Sys>, acts: seq<Act>, i: nat)
    requires Run(states, acts) && i < |states|
    ensures Recorded(states[i].cells) && Recorded(states[i].groups)
    decreases i
  {
    if i > 0 {
      var s, s', act := states[i - 1], states[i], acts[i - 1];
      RunRecorded(states, acts, i - 1);
      ActRequests(s, act, s');
      if s'.cells != s.cells {
        var ok :| Performs(s.cells, CellRequest(s, act), ok, s'.cells);
        PerformsRecorded(s.cells, CellRequest(s, act), ok, s'.cells);
      }
      if s'.groups != s.groups {
        var ok :| Performs(s.groups, GroupRequest(s, act), ok, s'.groups);
        PerformsRecorded(s.groups, GroupRequest(s, act), ok, s'.groups);
      }
    }
  }

  /** No interleaving puts a connection in both indexes. */
  lemma MutualExclusion(states: seq<Sys>, acts: seq<Act>, i: nat, conn: Connection)
    requires Run(states, acts) && i < |states| && Clean(states[i])
    ensures Apart(states[i].cells, states[i].groups, conn)
  {
    RunGood(states, acts, i);
    var s := states[i];
    assert RightAt(s, conn);
    assert conn in s.cells.connections ==> s.cells.Held(conn) != {};
    assert conn in s.groups.connections ==> s.groups.Held(conn) != {};
  }

  /**
   * The promised teardown fails: a "stop" that is received leaves the connection in no channel
   * exactly when it was in none before.
   */
  lemma StopClearsIff(s: Sys, conn: Connection, s': Sys)
    requires Good(s) && Next(s, Offer(conn, TextEvent("stop"), true), s')
    ensures s'.cells == s.cells && s'.groups == s.groups && s'.drivers[conn].phase == Waiting
    ensures Placed(s'.cells, s'.groups, conn, Nowhere) <==>
      var at := Wanted(s.drivers[conn].got);
      at == Nowhere || at == InCells({})
  {
    assert RightAt(s, conn);
  }

  /** A state in which one connection is at work on the group index. */
  function Single(conn: Connection, groups: Hub, memory: Memory, events: seq<Event>, phase: Phase): Sys {
    Sys(EMPTY_HUB, groups, map[conn := Driver(memory, events, events, phase)])
  }

  /** From the start, a connection can take a filter, move to its group and then receive a "stop". */
  lemma JoinThenStop(conn: Connection, group: string)
    ensures
      var filter, stop := FilterEvent(UserFilter("group", group)), TextEvent("stop");
      var memory, joined := Memory(None, filter.filter), Added(EMPTY_HUB, conn, group, true);
      var waiting := Single(conn, EMPTY_HUB, INITIAL_MEMORY, [], Waiting);
      var moving := Single(conn, EMPTY_HUB, memory, [filter], MovingToGroup(group));
      var settled := Single(conn, joined, memory, [filter], Waiting);
      && Next(START, Connect(conn), waiting)
      && Next(waiting, Offer(conn, filter, true), moving)
      && Next(moving, Finish(conn), settled)
      && Next(settled, Offer(conn, stop, true), Single(conn, joined, memory, [filter, stop], Waiting))
  {
    var filter, stop := FilterEvent(UserFilter("group", group)), TextEvent("stop");
    var joined := Added(EMPTY_HUB, conn, group, true);
    assert [] + [filter] == [filter] && [filter] + [stop] == [filter, stop];
    EmptyLeaves(conn);
    assert Joins(EMPTY_HUB, conn, group, true, true, joined);
    assert Performs(EMPTY_HUB, Join(conn, group, true), true, joined);
  }

  /** A concrete run: a connection joins a group, receives "stop" and is still in the group. */
  lemma {:induction false} StopLeavesGroup(conn: Connection) returns (states: seq<Sys>, acts: seq<Act>)
    ensures Run(states, acts) && Clean(states[|acts|])
    ensures acts != [] && acts[|acts| - 1] == Offer(conn, TextEvent("stop"), true)
    ensures states[|acts|].groups.Held(conn) == {"gorilla-racing"}
  {
    var group := "gorilla-racing";
    var filter, stop := FilterEvent(UserFilter("group", group)), TextEvent("stop");
    var memory, joined := Memory(None, filter.filter), Added(EMPTY_HUB, conn, group, true);
    acts := [Connect(conn), Offer(conn, filter, true), Finish(conn), Offer(conn, stop, true)];
    states := [
      START,
      Single(conn, EMPTY_HUB, INITIAL_MEMORY, [], Waiting),
      Single(conn, EMPTY_HUB, memory, [filter], MovingToGroup(group)),
      Single(conn, joined, memory, [filter], Waiting),
      Single(conn, joined, memory, [filter, stop], Waiting)
    ];
    JoinThenStop(conn, group);
  }

  lemma EmptyLeaves(conn: Connection)
    ensures Unsubscribes(EMPTY_HUB, conn, true, EMPTY_HUB) && Does(EMPTY_HUB, Leave(conn), EMPTY_HUB)
  {
    NoProgress(EMPTY_HUB, conn);
    assert UnsubscribesFrom(EMPTY_HUB, conn, {}, true, EMPTY_HUB);
    assert Performs(EMPTY_HUB, Leave(conn), true, EMPTY_HUB);
  }

  // ---------- delivery ----------

  /** How often a message published once on a channel is written to a connection. */
  function Deliveries(s: Sys, channel: string, conn: Connection): nat {
    Hubs(s.cells, s.groups).Handed(channel, conn)
  }

  /** A waiting connection gets one copy of what is published on its channels and nothing else. */
  lemma DeliveredOnce(s: Sys, conn: Connection, channel: string)
    requires Good(s) && conn in s.drivers && s.drivers[conn].phase == Waiting
    ensures Deliveries(s, channel, conn) == if channel in ChannelsOf(Wanted(s.drivers[conn].got)) then 1 else 0
  {
    assert RightAt(s, conn);
    PlacedDelivery(Hubs(s.cells, s.groups), conn, Wanted(s.drivers[conn].got), channel);
  }

  /** A local subscriber gets the publications of a cell exactly when the cell is in its cell's group. */
  lemma LocalDelivery(s: Sys, conn: Connection, cell: CellValue, id: CellId)
    requires Good(s) && conn in s.drivers
    requires
      var d := s.drivers[conn];
      d.phase == Waiting && d.memory.cell == Some(cell) && d.memory.filter.kind == "local"
    ensures Deliveries(s, Render(id), conn) == if id in cell.group then 1 else 0
    ensures |s.cells.Held(conn)| == |Distinct(cell.group)|
  {
    var d := s.drivers[conn];
    assert RightAt(s, conn);
    FilterDecides(d.memory, d.got);
    DeliveredOnce(s, conn, Render(id));
    NamedIffMember(id, cell.group);
    ChannelCount(cell.group);
  }

  // ---------- after the intended exit ----------

  /** The loop has been left and no message on the channel is handed over by the cell Subscriber. */
  predicate LeftCells(s: Sys, conn: Connection, channel: string) {
    conn in s.drivers && s.drivers[conn].phase in {Closing, Closed} && conn !in s.cells.Watchers(channel)
  }

  predicate LeftBoth(s: Sys, conn: Connection, channel: string) {
    && conn in s.drivers && s.drivers[conn].phase == Closed
    && conn !in s.cells.Watchers(channel) && conn !in s.groups.Watchers(channel)
  }

  lemma OthersWatch(h: Hub, req: Request, h': Hub, other: Connection, channel: string)
    requires h' == h || Does(h, req, h')
    requires other != req.conn
    ensures other in h'.Watchers(channel) <==> other in h.Watchers(channel)
  {
    if h' != h {
      var ok :| Performs(h, req, ok, h');
      OthersSame(h, req, ok, h', other, channel);
    }
  }

  lemma StaysLeft(s: Sys, act: Act, s': Sys, conn: Connection, channel: string)
    requires Next(s, act, s')
    ensures LeftCells(s, conn, channel) ==> LeftCells(s', conn, channel)
    ensures LeftBoth(s, conn, channel) ==> LeftBoth(s', conn, channel)
  {
    ActRequests(s, act, s');
    if act.conn != conn {
      OthersWatch(s.cells, CellRequest(s, act), s'.cells, conn, channel);
      OthersWatch(s.groups, GroupRequest(s, act), s'.groups, conn, channel);
    }
  }

  lemma {:induction false} StaysLeftFor(states: seq<Sys>, acts: seq<Act>, i: nat, k: nat, conn: Connection,
                                        channel: string)
    requires Run(states, acts) && i <= k < |states|
    ensures LeftCells(states[i], conn, channel) ==> LeftCells(states[k], conn, channel)
    ensures LeftBoth(states[i], conn, channel) ==> LeftBoth(states[k], conn, channel)
    decreases k
  {
    if i < k {
      StaysLeftFor(states, acts, i, k - 1, conn, channel);
      StaysLeft(states[k - 1], acts[k - 1], states[k], conn, channel);
    }
  }

  lemma CloseLeaves(states: seq<Sys>, acts: seq<Act>, i: nat, conn: Connection, channel: string)
    requires Run(states, acts) && i < |acts|
    requires acts[i] == Close(conn) && Unsubscribes(states[i].cells, conn, true, states[i + 1].cells)
    ensures LeftCells(states[i + 1], conn, channel)
  {
    RunRecorded(states, acts, i);
    assert Next(states[i], acts[i], states[i + 1]);
    LeaveClears(states[i].cells, conn, states[i + 1].cells);
  }

  lemma FinishLeaves(states: seq<Sys>, acts: seq<Act>, j: nat, conn: Connection, channel: string)
    requires Run(states, acts) && j < |acts| && LeftCells(states[j], conn, channel)
    requires acts[j] == Finish(conn) && Unsubscribes(states[j].groups, conn, true, states[j + 1].groups)
    ensures LeftBoth(states[j + 1], conn, channel)
  {
    RunRecorded(states, acts, j);
    assert Next(states[j], acts[j], states[j + 1]);
    LeaveClears(states[j].groups, conn, states[j + 1].groups);
  }

  /**
   * Whatever failed before and whatever others do: once both halves of the closing unsubscribe have
   * succeeded, nothing is delivered to the connection again.
   */
  lemma {:induction false} ClosedIsQuiet(states: seq<Sys>, acts: seq<Act>, i: nat, j: nat, k: nat, conn: Connection,
                                         channel: string)
    requires Run(states, acts) && i < j < k < |states|
    requires acts[i] == Close(conn) && Unsubscribes(states[i].cells, conn, true, states[i + 1].cells)
    requires acts[j] == Finish(conn) && Unsubscribes(states[j].groups, conn, true, states[j + 1].groups)
    ensures Deliveries(states[k], channel, conn) == 0
  {
    CloseLeaves(states, acts, i, conn, channel);
    StaysLeftFor(states, acts, i + 1, j, conn, channel);
    FinishLeaves(states, acts, j, conn, channel);
    StaysLeftFor(states, acts, j + 1, k, conn, channel);
  }
}
