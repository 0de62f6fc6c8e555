/** A connection's subscription: what its loop does on each event, and where the connection should be. */
module Subscriptions {
  import opened Backend
  import opened Decimal
  import opened Cells
  import opened SubscriberSpec
  import opened SubscriberProps
  import opened SubscriberRuns
  import opened Topologies

  datatype Option<T> = None | Some(value: T)

  datatype UserFilter = UserFilter(kind: string, value: string)

  /** What may arrive on a subscription's input; cells are isolated copies. */
  datatype Event = CellEvent(cell: CellValue) | FilterEvent(filter: UserFilter) | TextEvent(text: string)

  /** The fields of a Subscription. */
  datatype Memory = Memory(cell: Option<CellValue>, filter: UserFilter)

  datatype Action = Stay | ToCell(cell: CellValue) | ToGroup(group: string)

  const INITIAL_FILTER := UserFilter("local", "")
  const INITIAL_MEMORY := Memory(None, INITIAL_FILTER)

  /**
   * One round of the loop in Start: the new fields and the context call made. A text, "stop"
   * included, does nothing: the break at core/subscriber.go:72 only leaves the type switch.
   */
  function React(m: Memory, ev: Event): (Memory, Action) {
    match ev
    case CellEvent(cell) =>
      (m.(cell := Some(cell)), if m.filter.kind == "local" then ToCell(cell) else Stay)
    case FilterEvent(uf) =>
      (m.(filter := uf),
       if uf.kind != m.filter.kind || uf.value != m.filter.value then
         if uf.kind == "group" then ToGroup(uf.value)
         else if uf.kind == "local" && m.cell.Some? then ToCell(m.cell.value)
         else Stay
       else Stay)
    case TextEvent(_) => (m, Stay)
  }

  // ---------- where a connection should be ----------

  /** A connection's channels: none, those of a cell group, or one group. */
  datatype Membership = Nowhere | InCells(channels: set<string>) | InGroup(group: string)

  function LatestCell(history: seq<Event>): Option<CellValue> {
    if history == [] then None
    else
      var last := history[|history| - 1];
      if last.CellEvent? then Some(last.cell) else LatestCell(history[..|history| - 1])
  }

  function LatestFilter(history: seq<Event>): UserFilter {
    if history == [] then INITIAL_FILTER
    else
      var last := history[|history| - 1];
      if last.FilterEvent? then last.filter else LatestFilter(history[..|history| - 1])
  }

  /**
   * Where a connection belongs after a history of events: in the group the latest filter names; in
   * the latest cell's group if the filter is local and there is a cell; otherwise where it was.
   */
  function Wanted(history: seq<Event>): Membership {
    if history == [] then Nowhere
    else
      var filter, cell := LatestFilter(history), LatestCell(history);
      if filter.kind == "group" then InGroup(filter.value)
      else if filter.kind == "local" && cell.Some? then InCells(Channels(cell.value.group))
      else Wanted(history[..|history| - 1])
  }

  /** The membership an action of the loop leads to. */
  function Target(before: Membership, action: Action): Membership {
    match action
    case Stay => before
    case ToCell(cell) => InCells(Channels(cell.group))
    case ToGroup(group) => InGroup(group)
  }

  predicate Remembers(m: Memory, history: seq<Event>) {
    m == Memory(LatestCell(history), LatestFilter(history))
  }

  lemma FilterDecides(m: Memory, history: seq<Event>)
    requires Remembers(m, history)
    ensures m.filter.kind == "group" ==> Wanted(history) == InGroup(m.filter.value)
    ensures m.filter.kind == "local" && m.cell.Some? ==> Wanted(history) == InCells(Channels(m.cell.value.group))
  {
  }

  // ---------- the wanted membership, event by event ----------

  /** Event k is the last cell of the history. */
  predicate LastCellAt(history: seq<Event>, k: int) {
    0 <= k < |history| && history[k].CellEvent? && forall i :: k < i < |history| ==> !history[i].CellEvent?
  }

  predicate LastFilterAt(history: seq<Event>, f: int) {
    0 <= f < |history| && history[f].FilterEvent? && forall i :: f < i < |history| ==> !history[i].FilterEvent?
  }

  predicate NoCell(history: seq<Event>) {
    forall i :: 0 <= i < |history| ==> !history[i].CellEvent?
  }

  predicate NoFilter(history: seq<Event>) {
    forall i :: 0 <= i < |history| ==> !history[i].FilterEvent?
  }

  lemma {:induction false} LatestCellIs(history: seq<Event>, k: int)
    requires LastCellAt(history, k)
    ensures LatestCell(history) == Some(history[k].cell)
    decreases |history|
  {
    if k < |history| - 1 {
      LatestCellIs(history[..|history| - 1], k);
    }
  }

  lemma {:induction false} LatestFilterIs(history: seq<Event>, f: int)
    requires LastFilterAt(history, f)
    ensures LatestFilter(history) == history[f].filter
    decreases |history|
  {
    if f < |history| - 1 {
      LatestFilterIs(history[..|history| - 1], f);
    }
  }

  lemma {:induction false} NothingYet(history: seq<Event>)
    ensures NoCell(history) ==> LatestCell(history) == None
    ensures NoFilter(history) ==> LatestFilter(history).kind == "local" && LatestFilter(history).value == ""
    decreases |history|
  {
    if history != [] {
      NothingYet(history[..|history| - 1]);
    }
  }

  lemma LatestByPosition(history: seq<Event>)
    ensures forall k :: LastCellAt(history, k) ==> LatestCell(history) == Some(history[k].cell)
    ensures NoCell(history) ==> LatestCell(history) == None
    ensures forall f :: LastFilterAt(history, f) ==> LatestFilter(history) == history[f].filter
    ensures NoFilter(history) ==> LatestFilter(history).kind == "local" && LatestFilter(history).value == ""
  {
    NothingYet(history);
    forall k | LastCellAt(history, k) ensures LatestCell(history) == Some(history[k].cell) {
      LatestCellIs(history, k);
    }
    forall f | LastFilterAt(history, f) ensures LatestFilter(history) == history[f].filter {
      LatestFilterIs(history, f);
    }
  }

  /** Before any filter arrives, the last cell decides, and without a cell the connection belongs nowhere. */
  lemma {:induction false} CellDecidesFirst(history: seq<Event>)
    requires NoFilter(history)
    ensures forall k :: LastCellAt(history, k) ==> Wanted(history) == InCells(Channels(history[k].cell.group))
    ensures NoCell(history) ==> Wanted(history) == Nowhere
    decreases |history|
  {
    LatestByPosition(history);
    if NoCell(history) && history != [] {
      CellDecidesFirst(history[..|history| - 1]);
    }
  }

  /** Afterwards the last filter decides: a group, the last cell, or what was wanted before it. */
  lemma {:induction false} FilterDecidesLater(history: seq<Event>, f: int)
    requires LastFilterAt(history, f)
    ensures history[f].filter.kind == "group" ==> Wanted(history) == InGroup(history[f].filter.value)
    ensures history[f].filter.kind == "local" ==>
      forall k :: LastCellAt(history, k) ==> Wanted(history) == InCells(Channels(history[k].cell.group))
    ensures history[f].filter.kind == "local" && NoCell(history) ==> Wanted(history) == Wanted(history[..f])
    ensures history[f].filter.kind != "group" && history[f].filter.kind != "local" ==>
      Wanted(history) == Wanted(history[..f])
    decreases |history|
  {
    LatestByPosition(history);
    var init := history[..|history| - 1];
    if f < |init| {
      FilterDecidesLater(init, f);
      assert init[..f] == history[..f];
    }
  }

  /** A cell makes the loop move to it exactly while the filter is local, as it is from the start. */
  lemma CellMoves(m: Memory, history: seq<Event>, cell: CellValue)
    requires Remembers(m, history)
    ensures NoFilter(history) ==> React(m, CellEvent(cell)).1 == ToCell(cell)
    ensures forall f :: LastFilterAt(history, f) ==>
      React(m, CellEvent(cell)).1 == if history[f].filter.kind == "local" then ToCell(cell) else Stay
  {
    LatestByPosition(history);
  }

  /** A filter moves the connection only if it differs from the one before, at first a local one. */
  lemma FilterMoves(m: Memory, history: seq<Event>, last: UserFilter, filter: UserFilter)
    requires Remembers(m, history)
    requires
      || (NoFilter(history) && last == UserFilter("local", ""))
      || exists f :: LastFilterAt(history, f) && history[f].filter == last
    ensures filter == last ==> React(m, FilterEvent(filter)).1 == Stay
    ensures filter != last && filter.kind == "group" ==> React(m, FilterEvent(filter)).1 == ToGroup(filter.value)
    ensures filter != last && filter.kind == "local" ==> forall k :: LastCellAt(history, k) ==>
      React(m, FilterEvent(filter)).1 == ToCell(history[k].cell)
    ensures (filter.kind == "local" && NoCell(history)) || (filter.kind != "group" && filter.kind != "local") ==>
      React(m, FilterEvent(filter)).1 == Stay
  {
    LatestByPosition(history);
  }

  /** The loop's change detection is right: acting only then still leads to the wanted membership. */
  lemma ReactRefinesWanted(m: Memory, history: seq<Event>, ev: Event)
    requires Remembers(m, history)
    ensures
      var (m', action) := React(m, ev);
      Remembers(m', history + [ev]) && Wanted(history + [ev]) == Target(Wanted(history), action)
  {
    var next := history + [ev];
    assert next[..|next| - 1] == history;
    FilterDecides(m, history);
  }

  /** The connection is in exactly the channels of a membership. */
  ghost predicate Placed(cells: Hub, groups: Hub, conn: Connection, at: Membership) {
    match at
    case Nowhere => cells.Held(conn) == {} && groups.Held(conn) == {}
    case InCells(channels) => cells.Held(conn) == channels && groups.Held(conn) == {}
    case InGroup(group) => cells.Held(conn) == {} && groups.Held(conn) == {group}
  }

  lemma ReceivesIffHeld(h: Hub, conn: Connection, channel: string)
    requires Strong(h)
    ensures h.Receives(conn, channel) <==> channel in h.Held(conn)
  {
    BackendFollowsIndex(h);
    assert conn in h.Watchers(channel) <==> channel in h.Held(conn);
  }

  /** The channels of a membership. */
  function ChannelsOf(at: Membership): set<string> {
    match at
    case Nowhere => {}
    case InCells(channels) => channels
    case InGroup(group) => {group}
  }

  /** A connection gets one copy of what is published on its channels and nothing else. */
  lemma PlacedDelivery(hubs: Hubs, conn: Connection, at: Membership, channel: string)
    requires Strong(hubs.cells) && Strong(hubs.groups) && Placed(hubs.cells, hubs.groups, conn, at)
    ensures hubs.Handed(channel, conn) == if channel in ChannelsOf(at) then 1 else 0
  {
    ReceivesIffHeld(hubs.cells, conn, channel);
    ReceivesIffHeld(hubs.groups, conn, channel);
  }

  // ---------- the loop itself ----------

  class Subscription {
    const ctx: Topology
    var cell: Option<CellValue>
    var filter: UserFilter

    ghost function View(): Memory
      reads this
    {
      Memory(cell, filter)
    }

    constructor (ctx: Topology)
      ensures this.ctx == ctx && View() == INITIAL_MEMORY
    {
      this.ctx := ctx;
      cell, filter := None, INITIAL_FILTER;
    }

    /** What one round of the loop remembers, and the context call it makes. */
    method Decide(obj: Event) returns (action: Action)
      modifies this
      ensures (View(), action) == React(old(View()), obj)
    {
      action := Stay;
      match obj
      case CellEvent(c) =>
        cell := Some(c);
        if filter.kind == "local" {
          action := ToCell(c);
        }
      case FilterEvent(uf) =>
        if uf.kind != filter.kind || uf.value != filter.value {
          if uf.kind == "group" {
            action := ToGroup(uf.value);
          } else if uf.kind == "local" && cell.Some? {
            action := ToCell(cell.value);
          }
        }
        filter := uf;
      case TextEvent(_) =>
    }

    /** One round of the loop: handle an object received on the input. */
    method Receive(conn: Connection, obj: Event)
      requires ctx.Valid()
      modifies this, ctx.cellSubscriber, ctx.groupSubscriber
      ensures View() == React(old(View()), obj).0
      ensures Moves(old(ctx.cellSubscriber.View()), old(ctx.groupSubscriber.View()), conn,
                    React(old(View()), obj).1, ctx.cellSubscriber.View(), ctx.groupSubscriber.View())
    {
      var action := Decide(obj);
      match action
      case Stay =>
      case ToCell(c) =>
        var ok := ctx.SubscribeToCell(conn, c.group);
      case ToGroup(group) =>
        var ok := ctx.SubscribeToGroup(conn, group, true);
    }

    /**
     * The loop over the events received so far. It never leaves the loop, so the connection is
     * never unsubscribed; without backend errors it is where the events say it belongs.
     */
    method Start(conn: Connection, inputs: seq<Event>)
      requires ctx.Valid() && View() == INITIAL_MEMORY
      requires Strong(ctx.cellSubscriber.View()) && Strong(ctx.groupSubscriber.View())
      requires Placed(ctx.cellSubscriber.View(), ctx.groupSubscriber.View(), conn, Nowhere)
      modifies this, ctx.cellSubscriber, ctx.groupSubscriber
      ensures Remembers(View(), inputs)
      ensures NoErrors(ctx.cellSubscriber.calls) && NoErrors(ctx.groupSubscriber.calls) ==>
        && Strong(ctx.cellSubscriber.View()) && Strong(ctx.groupSubscriber.View())
        && Placed(ctx.cellSubscriber.View(), ctx.groupSubscriber.View(), conn, Wanted(inputs))
      ensures NoErrors(ctx.cellSubscriber.calls) && NoErrors(ctx.groupSubscriber.calls) && NoFilter(inputs) ==>
        forall k :: LastCellAt(inputs, k) ==>
          Placed(ctx.cellSubscriber.View(), ctx.groupSubscriber.View(), conn,
                 InCells(Channels(inputs[k].cell.group)))
    {
      for i := 0 to |inputs|
        invariant Remembers(View(), inputs[..i])
        invariant NoErrors(ctx.cellSubscriber.calls) && NoErrors(ctx.groupSubscriber.calls) ==>
          && Strong(ctx.cellSubscriber.View()) && Strong(ctx.groupSubscriber.View())
          && Placed(ctx.cellSubscriber.View(), ctx.groupSubscriber.View(), conn, Wanted(inputs[..i]))
      {
        ghost var m, cells, groups := View(), ctx.cellSubscriber.View(), ctx.groupSubscriber.View();
        Receive(conn, inputs[i]);
        ReactRefinesWanted(m, inputs[..i], inputs[i]);
        assert inputs[..i + 1] == inputs[..i] + [inputs[i]];
        MovesCorrectly(cells, groups, conn, Wanted(inputs[..i]), React(m, inputs[i]).1,
                       ctx.cellSubscriber.View(), ctx.groupSubscriber.View());
      }
      assert inputs[..|inputs|] == inputs;
      if NoFilter(inputs) {
        CellDecidesFirst(inputs);
      }
    }
  }

  /** The Topology call an action stands for, errors included. */
  ghost predicate Moves(cells: Hub, groups: Hub, conn: Connection, action: Action, cells': Hub, groups': Hub) {
    match action
    case Stay => cells' == cells && groups' == groups
    case ToCell(cell) =>
      Does(groups, Leave(conn), groups') && Does(cells, Visit(conn, Names(cell.group)), cells')
    case ToGroup(group) =>
      Does(cells, Leave(conn), cells') && Does(groups, Join(conn, group, true), groups')
  }

  lemma DoesGrow(h: Hub, req: Request, h': Hub)
    requires Does(h, req, h')
    ensures h.calls <= h'.calls
    ensures NoErrors(h'.calls) ==> NoErrors(h.calls)
  {
    var ok :| Performs(h, req, ok, h');
    CallsGrow(h, req, ok, h');
    if NoErrors(h'.calls) {
      NoErrorsBefore(h.calls, h'.calls);
    }
  }

  /** The channels a request leaves its connection with, when nothing fails. */
  function Outcome(req: Request): set<string> {
    match req
    case Leave(_) => {}
    case Join(_, channel, _) => {channel}
    case Visit(_, names) => set n | n in names
  }

  lemma JoinReplaces(h: Hub, conn: Connection, channel: string, ok: bool, h': Hub)
    requires Strong(h) && Joins(h, conn, channel, true, ok, h') && NoErrors(h'.calls)
    ensures h'.Held(conn) == {channel}
  {
    var freed, mid :| Unsubscribes(h, conn, freed, mid) && Subscribes(mid, conn, channel, ok, h');
    NoErrorsBefore(mid.calls, h'.calls);
    LeaveStrong(h, conn, freed, mid);
    MirroredRecorded(h);
    LeaveClears(h, conn, mid);
  }

  lemma DoesStrong(h: Hub, req: Request, h': Hub)
    requires Does(h, req, h') && Strong(h) && NoErrors(h'.calls)
    requires req.Join? ==> req.replace
    ensures Strong(h') && h'.Held(req.conn) == Outcome(req)
  {
    var ok :| Performs(h, req, ok, h');
    PerformsStrong(h, req, ok, h');
    match req
    case Leave(conn) =>
      MirroredRecorded(h);
      LeaveClears(h, conn, h');
    case Join(conn, channel, _) =>
      JoinReplaces(h, conn, channel, ok, h');
    case Visit(conn, names) =>
      VisitReplaces(h, conn, names, h');
  }

  lemma MovesCorrectly(cells: Hub, groups: Hub, conn: Connection, at: Membership, action: Action,
                       cells': Hub, groups': Hub)
    requires Moves(cells, groups, conn, action, cells', groups')
    ensures NoErrors(cells'.calls) && NoErrors(groups'.calls) ==> NoErrors(cells.calls) && NoErrors(groups.calls)
    ensures
      && NoErrors(cells'.calls) && NoErrors(groups'.calls)
      && Strong(cells) && Strong(groups) && Placed(cells, groups, conn, at)
      ==> Strong(cells') && Strong(groups') && Placed(cells', groups', conn, Target(at, action))
  {
    match action
    case Stay =>
    case ToCell(cell) =>
      DoesGrow(groups, Leave(conn), groups');
      DoesGrow(cells, Visit(conn, Names(cell.group)), cells');
      if NoErrors(cells'.calls) && NoErrors(groups'.calls) && Strong(cells) && Strong(groups) {
        DoesStrong(groups, Leave(conn), groups');
        DoesStrong(cells, Visit(conn, Names(cell.group)), cells');
      }
    case ToGroup(group) =>
      DoesGrow(cells, Leave(conn), cells');
      DoesGrow(groups, Join(conn, group, true), groups');
      if NoErrors(cells'.calls) && NoErrors(groups'.calls) && Strong(cells) && Strong(groups) {
        DoesStrong(cells, Leave(conn), cells');
        DoesStrong(groups, Join(conn, group, true), groups');
      }
  }
}
