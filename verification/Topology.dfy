/** The topology: a cell and a group Subscriber, and the publisher that feeds both. */
module Topologies {
  import opened Bytes
  import opened Decimal
  import opened Entities
  import opened SubscriberSpec
  import opened SubscriberProps
  import opened SubscriberRuns
  import opened SubscriberOutcomes
  import opened Subscribers

  /** A message published, or lost because the publisher failed. */
  datatype Publication = Publication(channel: string, message: seq<byte>, ok: bool)

  class Publisher {
    var log: seq<Publication>

    constructor ()
      ensures log == []
    {
      log := [];
    }

    method Publish(channel: string, message: seq<byte>) returns (ok: bool)
      modifies this
      ensures log == old(log) + [Publication(channel, message, ok)]
    {
      ok := *;
      log := log + [Publication(channel, message, ok)];
    }
  }

  /** Channels and messages of a stretch of the publisher's log. */
  function Contents(sent: seq<Publication>): (r: seq<(string, seq<byte>)>)
    ensures |r| == |sent|
  {
    seq(|sent|, i requires 0 <= i < |sent| => (sent[i].channel, sent[i].message))
  }

  /** What the log gained from one state to a later one. */
  function Gained(before: seq<Publication>, log: seq<Publication>): seq<(string, seq<byte>)>
    requires before <= log
  {
    Contents(log[|before|..])
  }

  lemma GainedTwice(before: seq<Publication>, mid: seq<Publication>, log: seq<Publication>)
    requires before <= mid <= log
    ensures Gained(before, log) == Gained(before, mid) + Gained(mid, log)
  {
    assert log[|before|..] == mid[|before|..] + log[|mid|..];
  }

  /** What an entity publishes when its first publication succeeds: on its cell, then to its groups. */
  function OwnContents(id: CellId, groups: seq<string>, message: seq<byte>): (r: seq<(string, seq<byte>)>)
    ensures |r| == 1 + |groups|
  {
    [(Render(id), message)] + seq(|groups|, i requires 0 <= i < |groups| => (groups[i], message))
  }

  /** A Broadcast takes the log from before to log; an error on the cell's channel ends it. */
  ghost predicate Broadcasts(before: seq<Publication>, log: seq<Publication>, id: CellId, groups: seq<string>,
                             message: seq<byte>, ok: bool) {
    && before + [Publication(Render(id), message, ok)] <= log
    && if ok then Gained(before, log) == OwnContents(id, groups, message) else |log| == |before| + 1
  }

  /** The states of the cell and the group Subscriber. */
  datatype Hubs = Hubs(cells: Hub, groups: Hub)
  {
    /** How often a message published once on a channel is written to a connection. */
    function Handed(channel: string, conn: Connection): nat {
      (if cells.Receives(conn, channel) then 1 else 0) + (if groups.Receives(conn, channel) then 1 else 0)
    }
  }

  /** After the first one, publication i is the message on the channel of group i. */
  predicate GroupsServed(before: seq<Publication>, log: seq<Publication>, groups: seq<string>, message: seq<byte>) {
    && |before| + 1 + |groups| <= |log|
    && forall i :: 0 <= i < |groups| ==>
         log[|before| + 1 + i].channel == groups[i] && log[|before| + 1 + i].message == message
  }

  /** The publications of a Broadcast, one by one. */
  lemma BroadcastAt(before: seq<Publication>, log: seq<Publication>, id: CellId, groups: seq<string>,
                    message: seq<byte>)
    requires Broadcasts(before, log, id, groups, message, true)
    ensures |log| == |before| + 1 + |groups| && GroupsServed(before, log, groups, message)
  {
    var sent := log[|before|..];
    assert Contents(sent) == OwnContents(id, groups, message);
    forall i | 0 <= i < |groups|
      ensures log[|before| + 1 + i].channel == groups[i] && log[|before| + 1 + i].message == message
    {
      assert Contents(sent)[1 + i] == (groups[i], message);
      assert sent[1 + i] == log[|before| + 1 + i];
    }
  }

  class Topology {
    const publisher: Publisher
    const cellSubscriber: Subscriber
    const groupSubscriber: Subscriber

    ghost predicate Valid() {
      cellSubscriber != groupSubscriber
    }

    ghost function View(): Hubs
      reads cellSubscriber, groupSubscriber
    {
      Hubs(cellSubscriber.View(), groupSubscriber.View())
    }

    constructor ()
      ensures Valid() && fresh(publisher) && fresh(cellSubscriber) && fresh(groupSubscriber)
      ensures cellSubscriber.View() == EMPTY_HUB && groupSubscriber.View() == EMPTY_HUB && publisher.log == []
    {
      publisher := new Publisher();
      cellSubscriber := new Subscriber();
      groupSubscriber := new Subscriber();
    }

    method SubscribeToCell(conn: Connection, cellGroup: seq<CellId>) returns (ok: bool)
      requires Valid()
      modifies cellSubscriber, groupSubscriber
      ensures Does(old(groupSubscriber.View()), Leave(conn), groupSubscriber.View())
      ensures Performs(old(cellSubscriber.View()), Visit(conn, Names(cellGroup)), ok, cellSubscriber.View())
    {
      var freed := groupSubscriber.Unsubscribe(conn);
      ok := cellSubscriber.SubscribeToCell(conn, cellGroup);
    }

    method SubscribeToGroup(conn: Connection, groupId: string, unsubscribe: bool) returns (ok: bool)
      requires Valid()
      modifies cellSubscriber, groupSubscriber
      ensures Does(old(cellSubscriber.View()), Leave(conn), cellSubscriber.View())
      ensures Performs(old(groupSubscriber.View()), Join(conn, groupId, unsubscribe), ok, groupSubscriber.View())
    {
      var freed := cellSubscriber.Unsubscribe(conn);
      ok := groupSubscriber.Subscribe(conn, groupId, unsubscribe);
    }

    method UnsubscribeFromGroups(conn: Connection) returns (ok: bool)
      requires Valid()
      modifies groupSubscriber
      ensures Performs(old(groupSubscriber.View()), Leave(conn), ok, groupSubscriber.View())
    {
      ok := groupSubscriber.Unsubscribe(conn);
    }

    /** Both errors are ignored. */
    method Unsubscribe(conn: Connection)
      requires Valid()
      modifies cellSubscriber, groupSubscriber
      ensures Does(old(cellSubscriber.View()), Leave(conn), cellSubscriber.View())
      ensures Does(old(groupSubscriber.View()), Leave(conn), groupSubscriber.View())
    {
      var left := cellSubscriber.Unsubscribe(conn);
      var freed := groupSubscriber.Unsubscribe(conn);
    }

    method Broadcast(entity: Entity, message: seq<byte>) returns (ok: bool)
      modifies publisher
      ensures Broadcasts(old(publisher.log), publisher.log, entity.cell.s2cellID, entity.groups, message, ok)
      ensures old(publisher.log) + [Publication(Render(entity.cell.s2cellID), message, ok)] <= publisher.log
      ensures |publisher.log| == |old(publisher.log)| + 1 + if ok then |entity.groups| else 0
      ensures ok ==> GroupsServed(old(publisher.log), publisher.log, entity.groups, message)
    {
      ghost var before, id := publisher.log, entity.cell.s2cellID;
      ok := publisher.Publish(Render(entity.cell.s2cellID), message);
      if !ok {
        return;
      }
      for i := 0 to |entity.groups|
        invariant Broadcasts(before, publisher.log, id, entity.groups[..i], message, true)
      {
        ghost var log := publisher.log;
        var sent := publisher.Publish(entity.groups[i], message);
        GainedTwice(before, log, publisher.log);
      }
      assert entity.groups[..|entity.groups|] == entity.groups;
      BroadcastAt(before, publisher.log, id, entity.groups, message);
    }
  }

  /** A request was carried out, with or without an error. */
  ghost predicate Does(h: Hub, req: Request, h': Hub) {
    exists ok :: Performs(h, req, ok, h')
  }

  /** No connection takes part in both indexes. */
  predicate Apart(cells: Hub, groups: Hub, conn: Connection) {
    conn !in cells.connections || conn !in groups.connections
  }

  /**
   * Topology.SubscribeToCell ignores an error of its first half. However the second half ends, the
   * two memberships stay apart exactly when the first succeeded or the cell group is empty.
   */
  lemma CellMoveApart(cells: Hub, groups: Hub, conn: Connection, names: seq<string>,
                      freed: bool, ok: bool, cells': Hub, groups': Hub)
    requires Mirrored(cells) && Mirrored(groups) && Apart(cells, groups, conn)
    requires Unsubscribes(groups, conn, freed, groups') && Visits(cells, conn, names, ok, cells')
    ensures Apart(cells', groups', conn) <==> freed || names == []
  {
    if !freed {
      HeldOnFailure(groups, conn, groups');
      VisitFromNowhere(cells, conn, names, ok, cells');
    }
  }

  /** The same for SubscribeToGroup, whose second half always leaves a record. */
  lemma GroupMoveApart(cells: Hub, groups: Hub, conn: Connection, group: string,
                       freed: bool, ok: bool, cells': Hub, groups': Hub)
    requires Unsubscribes(cells, conn, freed, cells') && Joins(groups, conn, group, true, ok, groups')
    ensures Apart(cells', groups', conn) <==> freed
  {
    if !freed {
      HeldOnFailure(cells, conn, cells');
    }
  }

  /** An unsubscribe can only fail for a connection with channels, and then keeps its whole record. */
  lemma HeldOnFailure(h: Hub, conn: Connection, h': Hub)
    requires Unsubscribes(h, conn, false, h')
    ensures h.Held(conn) != {} && h'.connections == h.connections
  {
    var done: set<string> :| UnsubscribesFrom(h, conn, done, false, h');
    FailedCallIsOwed(h'.calls[|h.calls|..], Emptied(h, conn, done));
  }

  /** A visit by a connection without a record leaves one exactly when it names a cell. */
  lemma VisitFromNowhere(h: Hub, conn: Connection, names: seq<string>, ok: bool, h': Hub)
    requires conn !in h.connections && Visits(h, conn, names, ok, h')
    ensures conn in h'.connections <==> names != []
  {
    if !ok && Unsubscribes(h, conn, false, h') {
      HeldOnFailure(h, conn, h');
      assert false;
    }
    var mid :| Unsubscribes(h, conn, true, mid) && SubscribesAll(mid, conn, names, ok, h');
    if ok && names != [] {
      AddedAllHolds(mid, conn, names);
      assert names[0] in h'.Held(conn);
    }
  }

  // ---------- staying apart, whatever the backend answers ----------

  /** Leaving takes no backend call: somebody else watches every channel the connection holds. */
  predicate Shares(h: Hub, conn: Connection) {
    forall ch :: ch in h.Held(conn) ==> h.Watchers(ch) != {conn}
  }

  lemma SharesIff(h: Hub, conn: Connection)
    requires Mirrored(h)
    ensures Shares(h, conn) <==> !exists h' :: Unsubscribes(h, conn, false, h')
  {
    LeaveMayFailIff(h, conn);
    assert forall ch :: ch in h.Held(conn) ==> conn in h.Watchers(ch);
  }

  /**
   * A move to a cell keeps the memberships apart for every answer of the backend exactly when the
   * cell group is empty or the connection is alone in none of its groups.
   */
  lemma CellMoveApartIff(cells: Hub, groups: Hub, conn: Connection, names: seq<string>)
    requires Mirrored(cells) && Mirrored(groups) && Apart(cells, groups, conn)
    ensures
      (forall freed, ok, cells', groups' ::
        Unsubscribes(groups, conn, freed, groups') && Visits(cells, conn, names, ok, cells')
        ==> Apart(cells', groups', conn))
      <==> names == [] || Shares(groups, conn)
  {
    SharesIff(groups, conn);
    if names == [] || Shares(groups, conn) {
      forall freed, ok, cells', groups' |
        Unsubscribes(groups, conn, freed, groups') && Visits(cells, conn, names, ok, cells')
        ensures Apart(cells', groups', conn)
      {
        CellMoveApart(cells, groups, conn, names, freed, ok, cells', groups');
      }
    } else {
      var groups' :| Unsubscribes(groups, conn, false, groups');
      var mid := LeaveMaySucceed(cells, conn);
      var cells' := AddedAll(mid, conn, names);
      assert SubscribesAll(mid, conn, names, true, cells');
      assert Visits(cells, conn, names, true, cells');
      CellMoveApart(cells, groups, conn, names, false, true, cells', groups');
    }
  }

  /** A move to a group does so exactly when the connection is alone in none of its cells. */
  lemma GroupMoveApartIff(cells: Hub, groups: Hub, conn: Connection, group: string)
    requires Mirrored(cells)
    ensures
      (forall freed, ok, cells', groups' ::
        Unsubscribes(cells, conn, freed, cells') && Joins(groups, conn, group, true, ok, groups')
        ==> Apart(cells', groups', conn))
      <==> Shares(cells, conn)
  {
    SharesIff(cells, conn);
    if Shares(cells, conn) {
      forall freed, ok, cells', groups' |
        Unsubscribes(cells, conn, freed, cells') && Joins(groups, conn, group, true, ok, groups')
        ensures Apart(cells', groups', conn)
      {
        GroupMoveApart(cells, groups, conn, group, freed, ok, cells', groups');
      }
    } else {
      var cells' :| Unsubscribes(cells, conn, false, cells');
      var mid := LeaveMaySucceed(groups, conn);
      var groups' := Added(mid, conn, group, true);
      assert Unsubscribes(groups, conn, true, mid) && Subscribes(mid, conn, group, true, groups');
      assert Joins(groups, conn, group, true, true, groups');
      GroupMoveApart(cells, groups, conn, group, false, true, cells', groups');
    }
  }
}
