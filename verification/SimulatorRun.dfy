/** A connection's loop over the simulator's context, while its entity moves about and broadcasts. */
module SimulatorRuns {
  import opened Backend
  import opened Bytes
  import opened Decimal
  import opened Locations
  import opened Cells
  import opened Entities
  import opened SubscriberSpec
  import opened SubscriberProps
  import opened Topologies
  import opened Subscriptions
  import opened Simulators
  import opened SimulatorDelivery

  // ---------- the cell of the latest move ----------

  const NO_CELL := CellValue(0, [])

  /** What the loop remembers of a history. */
  function Recalled(history: seq<Event>): Memory {
    Memory(LatestCell(history), LatestFilter(history))
  }

  /** The cell the loop last moved its connection to. */
  function Visited(history: seq<Event>): CellValue {
    if history == [] then NO_CELL
    else
      var n := |history| - 1;
      var action := React(Recalled(history[..n]), history[n]).1;
      if action.ToCell? then action.cell else Visited(history[..n])
  }

  /** A connection that filters by its cell has last moved to the cell it knows. */
  lemma {:induction false} LocalVisited(history: seq<Event>)
    requires LatestFilter(history).kind == "local" && LatestCell(history).Some?
    ensures Visited(history) == LatestCell(history).value
    decreases |history|
  {
    if history != [] {
      var n := |history| - 1;
      if !React(Recalled(history[..n]), history[n]).1.ToCell? {
        LocalVisited(history[..n]);
      }
    }
  }

  lemma VisitedNext(history: seq<Event>, ev: Event)
    ensures Recalled(history + [ev]) == React(Recalled(history), ev).0
    ensures
      var action := React(Recalled(history), ev).1;
      Visited(history + [ev]) == if action.ToCell? then action.cell else Visited(history)
  {
    assert (history + [ev])[..|history|] == history;
  }

  // ---------- the state of a run ----------

  function NoNotices(n: nat): (r: seq<nat>)
    ensures |r| == n
  {
    seq(n, i => 0)
  }

  /** The peers of an entity lie around a cell, or where so many rounds have taken them from there. */
  ghost predicate Around(ctx: SimulatorContext, entity: Entity, cell: CellValue, rounds: nat)
    reads ctx, entity, ctx.PeersOf(entity.tokenId), set e | e in ctx.PeersOf(entity.tokenId) :: e.cell
  {
    var peers, ids := ctx.PeersOf(entity.tokenId), Others(cell.group, cell.id);
    && Rounded(peers, entity.cell.geo, ids, NoNotices(|ids|), rounds)
    && forall e :: e in peers ==> e != entity && e.cell != entity.cell
  }

  /** The connection is at a membership, unless the backend has refused something. */
  ghost predicate Settles(s: Hubs, conn: Connection, at: Membership) {
    NoRefusals(s) ==> Strong(s.cells) && Strong(s.groups) && Placed(s.cells, s.groups, conn, at)
  }

  predicate NoRefusals(s: Hubs) {
    NoErrors(s.cells.calls) && NoErrors(s.groups.calls)
  }

  /** What the loop, the connection and the peers have come to. */
  ghost predicate Going(sub: Subscription, ctx: SimulatorContext, conn: Connection, entity: Entity,
                        history: seq<Event>, rounds: nat)
    reads sub, ctx, ctx.t.cellSubscriber, ctx.t.groupSubscriber, entity, entity.cell,
          ctx.PeersOf(entity.tokenId), set e | e in ctx.PeersOf(entity.tokenId) :: e.cell
  {
    && ctx.t.Valid() && entity.Valid() && conn.entity == entity.tokenId
    && Remembers(sub.View(), history)
    && Settles(ctx.t.View(), conn, Wanted(history))
    && Around(ctx, entity, Visited(history), rounds)
  }

  // ---------- its steps ----------

  /** All peers are new, and so are their cells and arrays. */
  twostate predicate AllNew(new peers: seq<Entity>)
    reads peers, set e | e in peers :: e.cell
  {
    forall e :: e in peers ==> fresh(e) && fresh(e.cell) && fresh(e.cell.backing)
  }

  /** The peers are the former ones or new, and so are their arrays. */
  twostate predicate Renewed(ctx: SimulatorContext, entity: Entity)
    reads ctx, ctx.PeersOf(entity.tokenId), set e | e in ctx.PeersOf(entity.tokenId) :: e.cell
  {
    forall e :: e in ctx.PeersOf(entity.tokenId) ==>
      || (e in old(ctx.PeersOf(entity.tokenId))
          && (e.cell.backing == old(e.cell.backing) || fresh(e.cell.backing)))
      || (fresh(e) && fresh(e.cell) && fresh(e.cell.backing))
  }

  /** Peers around a cell that nobody has been notified of yet. */
  ghost predicate JustMade(peers: seq<Entity>, geo: Geometry, cell: CellValue)
    reads peers, set e | e in peers :: e.cell
  {
    PeersIn(peers, geo, Others(cell.group, cell.id)) && forall e :: e in peers ==> e.offered == []
  }

  lemma JustMadeAround(ctx: SimulatorContext, entity: Entity, cell: CellValue)
    requires JustMade(ctx.PeersOf(entity.tokenId), entity.cell.geo, cell)
    requires forall e :: e in ctx.PeersOf(entity.tokenId) ==> e != entity && e.cell != entity.cell
    ensures Around(ctx, entity, cell, 0)
  {
    var peers := ctx.PeersOf(entity.tokenId);
    assert forall k :: 0 <= k < |peers| ==> peers[k] in peers;
  }

  /** The context call that an action stands for. */
  method Act(ctx: SimulatorContext, conn: Connection, geo: Geometry, action: Action, ghost at: Membership)
    requires ctx.t.Valid() && Settles(ctx.t.View(), conn, at)
    modifies ctx, ctx.t.cellSubscriber, ctx.t.groupSubscriber
    ensures Settles(ctx.t.View(), conn, Target(at, action))
    ensures
      if action.ToCell? then
        && JustMade(ctx.PeersOf(conn.entity), geo, action.cell)
        && AllNew(ctx.PeersOf(conn.entity))
      else
        ctx.peers == old(ctx.peers)
  {
    ghost var cells, groups := ctx.t.cellSubscriber.View(), ctx.t.groupSubscriber.View();
    if action.ToCell? {
      var cell := new Cell.Isolated(geo, action.cell);
      var ok := ctx.SubscribeToCell(conn, cell);
    } else if action.ToGroup? {
      var ok := ctx.SubscribeToGroup(conn, action.group);
    }
    MovesCorrectly(cells, groups, conn, at, action, ctx.t.cellSubscriber.View(), ctx.t.groupSubscriber.View());
  }

  /** An action surrounds the entity anew, or leaves its peers alone. */
  method Follow(ctx: SimulatorContext, conn: Connection, entity: Entity, action: Action,
                ghost at: Membership, ghost cell: CellValue, ghost rounds: nat)
    returns (ghost rounds': nat)
    requires ctx.t.Valid() && conn.entity == entity.tokenId
    requires Settles(ctx.t.View(), conn, at) && Around(ctx, entity, cell, rounds)
    modifies ctx, ctx.t.cellSubscriber, ctx.t.groupSubscriber
    ensures Settles(ctx.t.View(), conn, Target(at, action))
    ensures Around(ctx, entity, if action.ToCell? then action.cell else cell, rounds')
    ensures Renewed(ctx, entity)
  {
    Act(ctx, conn, entity.cell.geo, action, at);
    rounds' := rounds;
    if action.ToCell? {
      JustMadeAround(ctx, entity, action.cell);
      rounds' := 0;
    }
  }

  /** The loop receives an event. */
  method Hear(sub: Subscription, ctx: SimulatorContext, conn: Connection, entity: Entity, ev: Event,
              ghost history: seq<Event>, ghost rounds: nat)
    returns (ghost rounds': nat)
    requires Going(sub, ctx, conn, entity, history, rounds)
    modifies sub, ctx, ctx.t.cellSubscriber, ctx.t.groupSubscriber
    ensures Going(sub, ctx, conn, entity, history + [ev], rounds')
    ensures Renewed(ctx, entity)
  {
    VisitedNext(history, ev);
    ReactRefinesWanted(sub.View(), history, ev);
    var action := sub.Decide(ev);
    rounds' := Follow(ctx, conn, entity, action, Wanted(history), Visited(history), rounds);
  }

  /** The entity moves. */
  method Walk(sub: Subscription, ctx: SimulatorContext, conn: Connection, entity: Entity, loc: Location,
              ghost history: seq<Event>, ghost rounds: nat)
    requires Going(sub, ctx, conn, entity, history, rounds)
    modifies entity, entity.cell, entity.cell.backing
    ensures Going(sub, ctx, conn, entity, history, rounds)
    ensures entity.cell.backing == old(entity.cell.backing) || fresh(entity.cell.backing)
    ensures entity.cell.s2cellID == entity.cell.geo.CellOf(loc) && Renewed(ctx, entity)
  {
    var cellCpy := entity.Update(loc);
  }

  /** A broadcast takes the peers one round further, unless the entity's own report is refused. */
  method TellAround(ctx: SimulatorContext, entity: Entity, message: seq<byte>, now: Int64, marshal: Marshal,
                    ghost cell: CellValue, ghost rounds: nat)
    returns (ok: bool)
    requires Around(ctx, entity, cell, rounds)
    modifies ctx.t.publisher, ctx.PeersOf(entity.tokenId),
             set e | e in ctx.PeersOf(entity.tokenId) :: e.cell,
             set e | e in ctx.PeersOf(entity.tokenId) :: e.cell.backing
    ensures Around(ctx, entity, cell, if ok then rounds + 1 else rounds)
    ensures Renewed(ctx, entity)
  {
    ghost var geo, ids := entity.cell.geo, Others(cell.group, cell.id);
    ok := ctx.Broadcast(entity, message, now, marshal, geo, After(geo, ids, rounds));
    RoundedNext(ctx.PeersOf(entity.tokenId), geo, ids, NoNotices(|ids|), rounds, ok);
  }

  lemma {:induction false} RoundedNext(peers: seq<Entity>, geo: Geometry, ids: seq<CellId>, notices: seq<nat>, n: nat,
                                       ok: bool)
    requires |notices| == |ids|
    requires
      var at := After(geo, ids, n);
      && PeersIn(peers, geo, if ok then Settled(geo, at) else at)
      && Notices(peers) == Noticed(geo, at, NoticedAfter(geo, ids, notices, n), if ok then |at| else 0)
    ensures Rounded(peers, geo, ids, notices, if ok then n + 1 else n)
  {
    assert Noticed(geo, After(geo, ids, n), NoticedAfter(geo, ids, notices, n), 0)
        == NoticedAfter(geo, ids, notices, n);
  }

  /** The entity broadcasts, and unless its own report is refused, its peers do. */
  method Tell(sub: Subscription, ctx: SimulatorContext, conn: Connection, entity: Entity, message: seq<byte>,
              now: Int64, marshal: Marshal, ghost history: seq<Event>, ghost rounds: nat)
    returns (ok: bool)
    requires Going(sub, ctx, conn, entity, history, rounds)
    modifies ctx.t.publisher, ctx.PeersOf(entity.tokenId),
             set e | e in ctx.PeersOf(entity.tokenId) :: e.cell,
             set e | e in ctx.PeersOf(entity.tokenId) :: e.cell.backing
    ensures Going(sub, ctx, conn, entity, history, if ok then rounds + 1 else rounds)
    ensures Renewed(ctx, entity)
  {
    ok := TellAround(ctx, entity, message, now, marshal, Visited(history), rounds);
  }

  // ---------- whole runs ----------

  /** What may happen next: the loop receives an event, the entity moves, or the entity broadcasts. */
  datatype Input = Heard(ev: Event) | Walked(loc: Location) | Told(message: seq<byte>, now: Int64)

  /** The history of events after one more input. */
  function Extended(history: seq<Event>, input: Input): seq<Event> {
    if input.Heard? then history + [input.ev] else history
  }

  function EventsOf(inputs: seq<Input>): seq<Event> {
    if inputs == [] then []
    else Extended(EventsOf(inputs[..|inputs| - 1]), inputs[|inputs| - 1])
  }

  method Advance(sub: Subscription, ctx: SimulatorContext, conn: Connection, entity: Entity, input: Input,
                 marshal: Marshal, ghost history: seq<Event>, ghost rounds: nat)
    returns (ghost rounds': nat)
    requires Going(sub, ctx, conn, entity, history, rounds)
    modifies sub, ctx, ctx.t.cellSubscriber, ctx.t.groupSubscriber, ctx.t.publisher,
             entity, entity.cell, entity.cell.backing, ctx.PeersOf(entity.tokenId),
             set e | e in ctx.PeersOf(entity.tokenId) :: e.cell,
             set e | e in ctx.PeersOf(entity.tokenId) :: e.cell.backing
    ensures Going(sub, ctx, conn, entity, Extended(history, input), rounds')
    ensures entity.cell.backing == old(entity.cell.backing) || fresh(entity.cell.backing)
    ensures Renewed(ctx, entity)
  {
    rounds' := rounds;
    match input
    case Heard(ev) =>
      rounds' := Hear(sub, ctx, conn, entity, ev, history, rounds);
    case Walked(loc) =>
      Walk(sub, ctx, conn, entity, loc, history, rounds);
    case Told(message, now) =>
      var ok := Tell(sub, ctx, conn, entity, message, now, marshal, history, rounds);
      rounds' := if ok then rounds + 1 else rounds;
  }

  lemma Begins(sub: Subscription, ctx: SimulatorContext, conn: Connection, entity: Entity)
    requires ctx.t.Valid() && entity.Valid() && conn.entity == entity.tokenId
    requires sub.View() == INITIAL_MEMORY && ctx.PeersOf(entity.tokenId) == []
    requires Settles(ctx.t.View(), conn, Nowhere)
    ensures Going(sub, ctx, conn, entity, [], 0)
  {
  }

  /**
   * The loop of a connection over the simulator's context, its events interleaved in any way with
   * moves and broadcasts of its entity. In the end the peers lie around the cell of the latest move
   * to a cell, or where the rounds since have taken them; and without backend errors the connection
   * is where its events want it.
   */
  method Run(sub: Subscription, ctx: SimulatorContext, conn: Connection, entity: Entity, inputs: seq<Input>,
             marshal: Marshal)
    returns (ghost rounds: nat)
    requires ctx.t.Valid() && entity.Valid() && conn.entity == entity.tokenId
    requires sub.View() == INITIAL_MEMORY && ctx.PeersOf(entity.tokenId) == []
    requires Settles(ctx.t.View(), conn, Nowhere)
    modifies sub, ctx, ctx.t.cellSubscriber, ctx.t.groupSubscriber, ctx.t.publisher,
             entity, entity.cell, entity.cell.backing
    ensures Going(sub, ctx, conn, entity, EventsOf(inputs), rounds)
    ensures AllNew(ctx.PeersOf(entity.tokenId))
    ensures entity.cell.backing == old(entity.cell.backing) || fresh(entity.cell.backing)
  {
    rounds := 0;
    ghost var history: seq<Event> := [];
    Begins(sub, ctx, conn, entity);
    for i := 0 to |inputs|
      invariant history == EventsOf(inputs[..i])
      invariant Going(sub, ctx, conn, entity, history, rounds)
      invariant AllNew(ctx.PeersOf(entity.tokenId))
      invariant entity.cell.backing == old(entity.cell.backing) || fresh(entity.cell.backing)
    {
      rounds := Advance(sub, ctx, conn, entity, inputs[i], marshal, history, rounds);
      history := Extended(history, inputs[i]);
      assert inputs[..i + 1][..i] == inputs[..i];
    }
    assert inputs[..|inputs|] == inputs;
  }

  // ---------- exact delivery after a run ----------

  /** The entity is in the cell, which lies in its own duplicate-free covering, and no group is named like a cell. */
  ghost predicate InItsCell(entity: Entity, cell: CellValue)
    reads entity, entity.cell
  {
    && entity.cell.s2cellID == cell.id
    && cell.id in cell.group && NoDuplicates(cell.group)
    && forall i :: 0 <= i < |entity.groups| ==> entity.groups[i] !in Channels(cell.group)
  }

  /** Where all centres map back, any number of rounds leaves the peers as they were. */
  lemma {:induction false} RoundsAtRest(geo: Geometry, ids: seq<CellId>, notices: seq<nat>, n: nat)
    requires |notices| == |ids| && forall i :: 0 <= i < |ids| ==> Settle(geo, ids[i]) == ids[i]
    ensures After(geo, ids, n) == ids && NoticedAfter(geo, ids, notices, n) == notices
  {
    if n > 0 {
      RoundsAtRest(geo, ids, notices, n - 1);
      RoundAtRest(geo, ids, notices, |ids|);
    }
  }

  /** Where the centres map back, peers that lie around a cell surround an entity in it. */
  lemma AroundSurrounds(ctx: SimulatorContext, entity: Entity, cell: CellValue, rounds: nat)
    requires Around(ctx, entity, cell, rounds) && InItsCell(entity, cell)
    requires forall x :: x in Others(cell.group, cell.id) ==> Settle(entity.cell.geo, x) == x
    ensures Surrounded(ctx, entity, entity.cell.geo, cell)
    ensures Notices(ctx.PeersOf(entity.tokenId)) == NoNotices(|ctx.PeersOf(entity.tokenId)|)
  {
    var ids := Others(cell.group, cell.id);
    RoundsAtRest(entity.cell.geo, ids, NoNotices(|ids|), rounds);
  }

  lemma StillAround(ctx: SimulatorContext, entity: Entity, cell: CellValue, rounds: nat)
    requires Surrounded(ctx, entity, entity.cell.geo, cell)
    requires Notices(ctx.PeersOf(entity.tokenId)) == NoNotices(|ctx.PeersOf(entity.tokenId)|)
    requires forall x :: x in Others(cell.group, cell.id) ==> Settle(entity.cell.geo, x) == x
    ensures Around(ctx, entity, cell, rounds)
  {
    var ids := Others(cell.group, cell.id);
    RoundsAtRest(entity.cell.geo, ids, NoNotices(|ids|), rounds);
  }

  method ReportAround(ctx: SimulatorContext, entity: Entity, message: seq<byte>, now: Int64, marshal: Marshal,
                      ghost cell: CellValue, ghost rounds: nat)
    returns (ok: bool)
    requires Around(ctx, entity, cell, rounds) && InItsCell(entity, cell)
    requires Speaking(ctx, entity, entity.cell.geo, cell, now, marshal)
    modifies ctx.t.publisher, ctx.PeersOf(entity.tokenId),
             set e | e in ctx.PeersOf(entity.tokenId) :: e.cell,
             set e | e in ctx.PeersOf(entity.tokenId) :: e.cell.backing
    ensures Around(ctx, entity, cell, rounds)
    ensures ArraysKept(ctx.PeersOf(entity.tokenId))
    ensures old(ctx.t.publisher.log) <= ctx.t.publisher.log
    ensures OneEach(ctx.t.View(), cell, Since(old(ctx.t.publisher.log), ctx.t.publisher.log), ok)
  {
    SpeakingAtRest(ctx, entity, entity.cell.geo, cell, now, marshal);
    AroundSurrounds(ctx, entity, cell, rounds);
    ok := BroadcastExactly(ctx, entity, message, now, marshal, entity.cell.geo, cell);
    StillAround(ctx, entity, cell, rounds);
  }

  /**
   * In a run, the peers of a local connection's entity lie around its cell, which nothing but the run
   * is assumed for; and unless the backend has refused something, the connection is local to it.
   */
  lemma RunSurrounds(sub: Subscription, ctx: SimulatorContext, conn: Connection, entity: Entity,
                     history: seq<Event>, rounds: nat, cell: CellValue)
    requires Going(sub, ctx, conn, entity, history, rounds)
    requires sub.filter.kind == "local" && sub.cell == Some(cell)
    ensures Visited(history) == cell && Around(ctx, entity, cell, rounds)
    ensures NoRefusals(ctx.t.View()) ==> Local(ctx.t.View(), conn, cell)
  {
    LocalVisited(history);
    FilterDecides(sub.View(), history);
  }

  /**
   * A broadcast at any point of a run by an entity in the cell that its connection knows and filters
   * by. If the backend has refused nothing, the connection gets one message per cell of the covering
   * exactly when no publication on these cells is refused. The run may go on.
   */
  method Report(sub: Subscription, ctx: SimulatorContext, conn: Connection, entity: Entity, message: seq<byte>,
                now: Int64, marshal: Marshal, ghost history: seq<Event>, ghost rounds: nat, ghost cell: CellValue)
    returns (ok: bool)
    requires Going(sub, ctx, conn, entity, history, rounds)
    requires sub.filter.kind == "local" && sub.cell == Some(cell) && InItsCell(entity, cell)
    requires Speaking(ctx, entity, entity.cell.geo, cell, now, marshal)
    modifies ctx.t.publisher, ctx.PeersOf(entity.tokenId),
             set e | e in ctx.PeersOf(entity.tokenId) :: e.cell,
             set e | e in ctx.PeersOf(entity.tokenId) :: e.cell.backing
    ensures Going(sub, ctx, conn, entity, history, rounds)
    ensures ArraysKept(ctx.PeersOf(entity.tokenId))
    ensures old(ctx.t.publisher.log) <= ctx.t.publisher.log
    ensures
      var sent := Since(old(ctx.t.publisher.log), ctx.t.publisher.log);
      && EachOnce(cell, sent, ok)
      && (NoRefusals(ctx.t.View()) ==> GivesOneEach(ctx.t.View(), conn, cell, sent, ok))
  {
    RunSurrounds(sub, ctx, conn, entity, history, rounds, cell);
    ok := ReportAround(ctx, entity, message, now, marshal, cell, rounds);
  }

  lemma SpeakingAtRest(ctx: SimulatorContext, entity: Entity, geo: Geometry, cell: CellValue, now: Int64,
                       marshal: Marshal)
    requires Speaking(ctx, entity, geo, cell, now, marshal)
    ensures forall x :: x in Others(cell.group, cell.id) ==> Settle(geo, x) == x
  {
  }

  // ---------- exact delivery after a subscription ----------

  /** The cells' centres map back, and whoever reports from there has a JSON form. */
  ghost predicate AnyoneSpeaks(geo: Geometry, cell: CellValue, now: Int64, marshal: Marshal) {
    && (forall x :: x in Others(cell.group, cell.id) ==> Settle(geo, x) == x)
    && forall x, client :: x in Others(cell.group, cell.id) ==> marshal(client, CentreAt(geo, x, now)).Some?
  }

  /** A visit without backend errors makes the connection local to the cell, whatever it held before. */
  lemma VisitMakesLocal(before: Hubs, conn: Connection, cell: CellValue, after: Hubs)
    requires Strong(before.cells) && Strong(before.groups)
    requires Does(before.groups, Leave(conn), after.groups)
    requires Does(before.cells, Visit(conn, Names(cell.group)), after.cells)
    requires NoErrors(after.cells.calls) && NoErrors(after.groups.calls)
    ensures Local(after, conn, cell)
  {
    DoesStrong(before.groups, Leave(conn), after.groups);
    DoesStrong(before.cells, Visit(conn, Names(cell.group)), after.cells);
  }

  /** A subscription by the connection of an entity in the cell surrounds the entity with peers. */
  method SubscribeAround(ctx: SimulatorContext, conn: Connection, cell: Cell, entity: Entity) returns (ok: bool)
    requires ctx.t.Valid() && cell.Valid() && conn.entity == entity.tokenId && InItsCell(entity, cell.Value())
    requires Strong(ctx.t.cellSubscriber.View()) && Strong(ctx.t.groupSubscriber.View())
    modifies ctx, ctx.t.cellSubscriber, ctx.t.groupSubscriber
    ensures Surrounded(ctx, entity, cell.geo, cell.Value())
    ensures AllNew(ctx.PeersOf(entity.tokenId))
    ensures NoRefusals(ctx.t.View()) ==> Covered(ctx.t.View(), conn, cell.Value())
  {
    ghost var before := ctx.t.View();
    ok := ctx.SubscribeToCell(conn, cell);
    if NoRefusals(ctx.t.View()) {
      VisitMakesLocal(before, conn, cell.Value(), ctx.t.View());
    }
  }

  /**
   * A connection subscribes to the cell of its entity, which then broadcasts. From strong Subscribers
   * and without backend errors the connection gets one message per cell of the covering, exactly when
   * no publication on these cells is refused.
   */
  method SubscribeThenBroadcast(ctx: SimulatorContext, conn: Connection, cell: Cell, entity: Entity,
                                message: seq<byte>, now: Int64, marshal: Marshal)
    returns (ok: bool)
    requires ctx.t.Valid() && cell.Valid() && conn.entity == entity.tokenId && InItsCell(entity, cell.Value())
    requires Strong(ctx.t.cellSubscriber.View()) && Strong(ctx.t.groupSubscriber.View())
    requires AnyoneSpeaks(cell.geo, cell.Value(), now, marshal)
    modifies ctx, ctx.t.cellSubscriber, ctx.t.groupSubscriber, ctx.t.publisher
    ensures old(ctx.t.publisher.log) <= ctx.t.publisher.log
    ensures NoRefusals(ctx.t.View()) ==>
      GivesOneEach(ctx.t.View(), conn, old(cell.Value()),
                   Since(old(ctx.t.publisher.log), ctx.t.publisher.log), ok)
  {
    ghost var value := cell.Value();
    var subscribed := SubscribeAround(ctx, conn, cell, entity);
    ok := BroadcastFrom(ctx, entity, message, now, marshal, cell.geo, value);
  }

  /** A broadcast of an entity that peers surround, whoever they are. */
  method BroadcastFrom(ctx: SimulatorContext, entity: Entity, message: seq<byte>, now: Int64, marshal: Marshal,
                       ghost geo: Geometry, ghost cell: CellValue)
    returns (ok: bool)
    requires Surrounded(ctx, entity, geo, cell) && AnyoneSpeaks(geo, cell, now, marshal)
    modifies ctx.t.publisher, ctx.PeersOf(entity.tokenId),
             set e | e in ctx.PeersOf(entity.tokenId) :: e.cell,
             set e | e in ctx.PeersOf(entity.tokenId) :: e.cell.backing
    ensures old(ctx.t.publisher.log) <= ctx.t.publisher.log
    ensures OneEach(ctx.t.View(), cell, Since(old(ctx.t.publisher.log), ctx.t.publisher.log), ok)
  {
    EverybodySpeaks(ctx, entity, geo, cell, now, marshal);
    ok := BroadcastExactly(ctx, entity, message, now, marshal, geo, cell);
  }

  lemma EverybodySpeaks(ctx: SimulatorContext, entity: Entity, geo: Geometry, cell: CellValue, now: Int64,
                        marshal: Marshal)
    requires AnyoneSpeaks(geo, cell, now, marshal)
    requires |ctx.PeersOf(entity.tokenId)| == |Others(cell.group, cell.id)|
    ensures Speaking(ctx, entity, geo, cell, now, marshal)
  {
    var ids, clients := Others(cell.group, cell.id), Clients(ctx.PeersOf(entity.tokenId));
    forall i | 0 <= i < |ids|
      ensures Settle(geo, ids[i]) == ids[i] && marshal(clients[i], CentreAt(geo, ids[i], now)).Some?
    {
      assert ids[i] in ids;
    }
  }
}
