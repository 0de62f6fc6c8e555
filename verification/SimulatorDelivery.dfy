/** How many messages the simulator's broadcasts give a connection. */
module SimulatorDelivery {
  import opened Bytes
  import opened Decimal
  import opened Locations
  import opened Cells
  import opened Entities
  import opened SubscriberSpec
  import opened SubscriberProps
  import opened Topologies
  import opened Subscriptions
  import opened Sessions
  import opened Simulators

  // ---------- what is due when nothing is refused ----------

  /** How many copies are written to a connection if the publisher accepts all of a series of publications. */
  function Due(s: Hubs, sent: seq<(string, seq<byte>)>, conn: Connection): nat {
    if sent == [] then 0
    else Due(s, sent[..|sent| - 1], conn) + s.Handed(sent[|sent| - 1].0, conn)
  }

  lemma {:induction false} SplitDue(s: Hubs, a: seq<(string, seq<byte>)>, b: seq<(string, seq<byte>)>,
                                    conn: Connection)
    ensures Due(s, a + b, conn) == Due(s, a, conn) + Due(s, b, conn)
    decreases |b|
  {
    if b == [] {
      assert a + b == a;
    } else {
      SplitDue(s, a, b[..|b| - 1], conn);
      assert (a + b)[..|a + b| - 1] == a + b[..|b| - 1];
    }
  }

  /** The connection is subscribed to exactly the cells of a cell's group. */
  ghost predicate Local(s: Hubs, conn: Connection, cell: CellValue) {
    && Strong(s.cells) && Strong(s.groups)
    && Placed(s.cells, s.groups, conn, InCells(Channels(cell.group)))
  }

  /** So is, in every good state, a waiting connection that filters by its cell. */
  lemma WaitingIsLocal(s: Sys, conn: Connection, cell: CellValue)
    requires Good(s) && conn in s.drivers && s.drivers[conn].phase == Waiting
    requires s.drivers[conn].memory.cell == Some(cell) && s.drivers[conn].memory.filter.kind == "local"
    ensures Local(Hubs(s.cells, s.groups), conn, cell)
  {
    assert RightAt(s, conn);
    FilterDecides(s.drivers[conn].memory, s.drivers[conn].got);
  }

  lemma LocalHanded(s: Hubs, conn: Connection, cell: CellValue, channel: string)
    requires Local(s, conn, cell)
    ensures s.Handed(channel, conn) == if channel in Channels(cell.group) then 1 else 0
  {
    PlacedDelivery(s, conn, InCells(Channels(cell.group)), channel);
  }

  predicate NoDuplicates(ids: seq<CellId>) {
    forall i, j :: 0 <= i < j < |ids| ==> ids[i] != ids[j]
  }

  /** A local connection of a cell that lies in its own duplicate-free covering. */
  ghost predicate Covered(s: Hubs, conn: Connection, cell: CellValue) {
    Local(s, conn, cell) && cell.id in cell.group && NoDuplicates(cell.group)
  }

  lemma {:induction false} OnceEach(ids: seq<CellId>, x: CellId)
    requires NoDuplicates(ids)
    ensures Occurrences(ids, x) == if x in ids then 1 else 0
    decreases |ids|
  {
    if ids != [] {
      OnceEach(ids[..|ids| - 1], x);
    }
  }

  lemma {:induction false} OthersCount(group: seq<CellId>, id: CellId, x: CellId)
    ensures Occurrences(Others(group, id), x) == if x == id then 0 else Occurrences(group, x)
    ensures |Others(group, id)| == |group| - Occurrences(group, id)
    ensures forall y :: y in Others(group, id) ==> y in group
    decreases |group|
  {
    if group != [] {
      var init, last := group[..|group| - 1], group[|group| - 1];
      OthersCount(init, id, x);
      if last != id {
        assert Others(group, id)[..|Others(init, id)|] == Others(init, id);
      } else {
        assert Others(group, id) == Others(init, id);
      }
    }
  }

  lemma {:induction false} AnnouncedDue(s: Hubs, conn: Connection, cell: CellValue, geo: Geometry, ids: seq<CellId>,
                                          clients: seq<nat>, now: Int64, marshal: Marshal)
    requires Local(s, conn, cell) && AllSpeak(geo, ids, clients, now, marshal)
    requires forall i :: 0 <= i < |ids| ==> ids[i] in cell.group
    ensures Due(s, Announced(geo, ids, clients, now, marshal), conn) == |ids|
    decreases |ids|
  {
    if ids != [] {
      var n := |ids| - 1;
      AnnouncedLast(geo, ids, clients, now, marshal);
      AnnouncedDue(s, conn, cell, geo, ids[..n], clients[..n], now, marshal);
      LocalHanded(s, conn, cell, Render(ids[n]));
      NamedIffMember(ids[n], cell.group);
    }
  }

  /** Group publications do not reach a local connection as long as they are not named like its cells. */
  lemma {:induction false} OwnDue(s: Hubs, conn: Connection, cell: CellValue, groups: seq<string>,
                                  message: seq<byte>)
    requires Local(s, conn, cell) && cell.id in cell.group
    requires forall i :: 0 <= i < |groups| ==> groups[i] !in Channels(cell.group)
    ensures Due(s, OwnContents(cell.id, groups, message), conn) == 1
    decreases |groups|
  {
    var sent := OwnContents(cell.id, groups, message);
    if groups == [] {
      assert sent[..0] == [];
      LocalHanded(s, conn, cell, Render(cell.id));
      NamedIffMember(cell.id, cell.group);
    } else {
      var n := |groups| - 1;
      OwnDue(s, conn, cell, groups[..n], message);
      assert sent[..|sent| - 1] == OwnContents(cell.id, groups[..n], message);
      LocalHanded(s, conn, cell, groups[n]);
    }
  }

  lemma {:induction false} OwnCopies(cell: CellValue, groups: seq<string>, message: seq<byte>, x: CellId)
    requires x in cell.group
    requires forall i :: 0 <= i < |groups| ==> groups[i] !in Channels(cell.group)
    ensures Copies(OwnContents(cell.id, groups, message), Render(x)) == if x == cell.id then 1 else 0
    decreases |groups|
  {
    var sent := OwnContents(cell.id, groups, message);
    if groups == [] {
      assert sent[..0] == [];
      RenderInjective(cell.id, x);
    } else {
      var n := |groups| - 1;
      OwnCopies(cell, groups[..n], message, x);
      assert sent[..|sent| - 1] == OwnContents(cell.id, groups[..n], message);
      NamedIffMember(x, cell.group);
    }
  }

  /** One broadcast is due once for each cell of a duplicate-free covering. */
  lemma {:induction false} DueExactly(s: Hubs, conn: Connection, cell: CellValue, groups: seq<string>,
                                      message: seq<byte>, geo: Geometry, clients: seq<nat>, now: Int64,
                                      marshal: Marshal)
    requires Covered(s, conn, cell) && AllSpeak(geo, Others(cell.group, cell.id), clients, now, marshal)
    requires forall i :: 0 <= i < |groups| ==> groups[i] !in Channels(cell.group)
    ensures
      var sent := OwnContents(cell.id, groups, message)
                  + Announced(geo, Others(cell.group, cell.id), clients, now, marshal);
      Due(s, sent, conn) == |cell.group|
  {
    var ids := Others(cell.group, cell.id);
    OthersCount(cell.group, cell.id, cell.id);
    OnceEach(cell.group, cell.id);
    OwnDue(s, conn, cell, groups, message);
    AnnouncedDue(s, conn, cell, geo, ids, clients, now, marshal);
    SplitDue(s, OwnContents(cell.id, groups, message), Announced(geo, ids, clients, now, marshal), conn);
  }

  // ---------- what arrives when publications may fail ----------

  /** How many copies of the publications are written to a connection: a refused one never is. */
  function Delivered(s: Hubs, sent: seq<Publication>, conn: Connection): nat {
    if sent == [] then 0
    else
      var last := sent[|sent| - 1];
      Delivered(s, sent[..|sent| - 1], conn) + (if last.ok then s.Handed(last.channel, conn) else 0)
  }

  /** How many publications on the given channels were refused. */
  function Refused(sent: seq<Publication>, channels: set<string>): nat {
    if sent == [] then 0
    else
      var last := sent[|sent| - 1];
      Refused(sent[..|sent| - 1], channels) + (if last.channel in channels && !last.ok then 1 else 0)
  }

  /** Every publication due to a local connection is delivered or refused. */
  lemma {:induction false} DueDelivered(s: Hubs, conn: Connection, cell: CellValue, sent: seq<Publication>)
    requires Local(s, conn, cell)
    ensures Delivered(s, sent, conn) + Refused(sent, Channels(cell.group)) == Due(s, Contents(sent), conn)
    decreases |sent|
  {
    if sent != [] {
      var init, last := sent[..|sent| - 1], sent[|sent| - 1];
      DueDelivered(s, conn, cell, init);
      assert Contents(sent)[..|sent| - 1] == Contents(init);
      LocalHanded(s, conn, cell, last.channel);
    }
  }

  // ---------- what arrives in a group ----------

  /** The connection is subscribed to exactly one group. */
  ghost predicate Member(s: Hubs, conn: Connection, group: string) {
    Strong(s.cells) && Strong(s.groups) && Placed(s.cells, s.groups, conn, InGroup(group))
  }

  /** So is, in every good state, a waiting connection that filters by a group. */
  lemma WaitingIsMember(s: Sys, conn: Connection, group: string)
    requires Good(s) && conn in s.drivers && s.drivers[conn].phase == Waiting
    requires s.drivers[conn].memory.filter == UserFilter("group", group)
    ensures Member(Hubs(s.cells, s.groups), conn, group)
  {
    assert RightAt(s, conn);
    FilterDecides(s.drivers[conn].memory, s.drivers[conn].got);
  }

  /** How many of the first n groups are the group, their publications being accepted. */
  function Accepted(groups: seq<string>, sent: seq<Publication>, group: string, n: nat): nat
    requires n <= |groups| && |sent| == 1 + |groups|
  {
    if n == 0 then 0
    else Accepted(groups, sent, group, n - 1) + (if groups[n - 1] == group && sent[n].ok then 1 else 0)
  }

  lemma {:induction false} MemberDelivery(s: Hubs, conn: Connection, group: string, groups: seq<string>,
                                          sent: seq<Publication>, n: nat)
    requires Member(s, conn, group) && n <= |groups| && |sent| == 1 + |groups|
    requires forall i :: 0 <= i < |groups| ==> sent[1 + i].channel == groups[i]
    ensures Delivered(s, sent[..1 + n], conn)
         == Accepted(groups, sent, group, n) + if sent[0].channel == group && sent[0].ok then 1 else 0
    decreases n
  {
    var part := sent[..1 + n];
    PlacedDelivery(s, conn, InGroup(group), part[n].channel);
    if n == 0 {
      assert part[..0] == [];
    } else {
      MemberDelivery(s, conn, group, groups, sent, n - 1);
      assert part[..n] == sent[..n];
    }
  }

  /**
   * A Broadcast gives every member of a group one message for each time the entity is in the group and
   * the publication is accepted, and none through the entity's cell unless that is named like the group.
   */
  method BroadcastToGroups(t: Topology, entity: Entity, message: seq<byte>) returns (ok: bool)
    modifies t.publisher
    ensures old(t.publisher.log) <= t.publisher.log
    ensures ok ==>
      var sent := Since(old(t.publisher.log), t.publisher.log);
      && |sent| == 1 + |entity.groups|
      && forall conn, group :: Member(t.View(), conn, group) && group != Render(entity.cell.s2cellID) ==>
           Delivered(t.View(), sent, conn) == Accepted(entity.groups, sent, group, |entity.groups|)
  {
    ghost var before := t.publisher.log;
    ok := t.Broadcast(entity, message);
    ghost var sent := Since(before, t.publisher.log);
    if ok {
      forall conn, group | Member(t.View(), conn, group) && group != Render(entity.cell.s2cellID)
        ensures Delivered(t.View(), sent, conn) == Accepted(entity.groups, sent, group, |entity.groups|)
      {
        MemberDelivery(t.View(), conn, group, entity.groups, sent, |entity.groups|);
        assert sent[..1 + |entity.groups|] == sent;
      }
    }
  }

  // ---------- nothing refused ----------

  lemma {:induction false} NoneRefused(sent: seq<Publication>, channels: set<string>)
    ensures Refused(sent, channels) == 0 <==> forall i :: 0 <= i < |sent| && sent[i].channel in channels ==> sent[i].ok
    decreases |sent|
  {
    if sent != [] {
      NoneRefused(sent[..|sent| - 1], channels);
    }
  }

  lemma {:induction false} DeliveredTwice(s: Hubs, a: seq<Publication>, b: seq<Publication>, conn: Connection,
                                          channels: set<string>)
    ensures Delivered(s, a + b, conn) == Delivered(s, a, conn) + Delivered(s, b, conn)
    ensures Refused(a + b, channels) == Refused(a, channels) + Refused(b, channels)
    decreases |b|
  {
    if b == [] {
      assert a + b == a;
    } else {
      DeliveredTwice(s, a, b[..|b| - 1], conn, channels);
      var all := a + b;
      assert all[..|all| - 1] == a + b[..|b| - 1] && all[|all| - 1] == b[|b| - 1];
    }
  }

  /**
   * An entity occupies the cell, and its peers, distinct from it, the other cells of the covering. Its
   * groups are not named like those cells.
   */
  ghost predicate Surrounded(ctx: SimulatorContext, entity: Entity, geo: Geometry, cell: CellValue)
    reads ctx, entity, entity.cell, ctx.PeersOf(entity.tokenId), set e | e in ctx.PeersOf(entity.tokenId) :: e.cell
  {
    && entity.cell.s2cellID == cell.id
    && PeersIn(ctx.PeersOf(entity.tokenId), geo, Others(cell.group, cell.id))
    && (forall e :: e in ctx.PeersOf(entity.tokenId) ==> e != entity && e.cell != entity.cell)
    && forall i :: 0 <= i < |entity.groups| ==> entity.groups[i] !in Channels(cell.group)
  }

  /** The centres of the cells around map back, and every peer's report at a time has a JSON form. */
  ghost predicate Speaking(ctx: SimulatorContext, entity: Entity, geo: Geometry, cell: CellValue, now: Int64,
                           marshal: Marshal)
    reads ctx
  {
    AllSpeak(geo, Others(cell.group, cell.id), Clients(ctx.PeersOf(entity.tokenId)), now, marshal)
  }

  /** Nothing moves in a round whose centres all map back. */
  lemma RoundAtRest(geo: Geometry, ids: seq<CellId>, notices: seq<nat>, n: nat)
    requires forall i :: 0 <= i < |ids| ==> Settle(geo, ids[i]) == ids[i]
    requires |notices| == |ids|
    ensures Settled(geo, ids) == ids && Noticed(geo, ids, notices, n) == notices
  {
  }

  /** What one broadcast gives a connection. */
  ghost predicate GivesOneEach(s: Hubs, conn: Connection, cell: CellValue, sent: seq<Publication>, ok: bool) {
    && Delivered(s, sent, conn) + Refused(sent, Channels(cell.group)) == (if ok then |cell.group| else 1)
    && (!ok ==> Delivered(s, sent, conn) == 0)
    && (Delivered(s, sent, conn) == |cell.group|
        <==> forall i :: 0 <= i < |sent| && sent[i].channel in Channels(cell.group) ==> sent[i].ok)
  }

  /** Each cell of the group is published on once, or only the own cell if the own report was refused. */
  ghost predicate EachOnce(cell: CellValue, sent: seq<Publication>, ok: bool) {
    forall x :: x in cell.group ==> Copies(Contents(sent), Render(x)) == if ok || x == cell.id then 1 else 0
  }

  lemma {:induction false} SpreadOnce(cell: CellValue, groups: seq<string>, message: seq<byte>, geo: Geometry,
                                      clients: seq<nat>, now: Int64, marshal: Marshal, sent: seq<Publication>,
                                      ok: bool)
    requires NoDuplicates(cell.group) && AllSpeak(geo, Others(cell.group, cell.id), clients, now, marshal)
    requires forall i :: 0 <= i < |groups| ==> groups[i] !in Channels(cell.group)
    requires Spreads(sent, cell.id, groups, message, geo, Others(cell.group, cell.id), clients, now, marshal, ok)
    ensures EachOnce(cell, sent, ok)
  {
    forall x | x in cell.group
      ensures Copies(Contents(sent), Render(x)) == if ok || x == cell.id then 1 else 0
    {
      if ok {
        SpreadCopies(cell, groups, message, geo, clients, now, marshal, x);
      } else {
        assert Contents(sent) == OwnContents(cell.id, [], message);
        OwnCopies(cell, [], message, x);
      }
    }
  }

  lemma {:induction false} SpreadCopies(cell: CellValue, groups: seq<string>, message: seq<byte>, geo: Geometry,
                                        clients: seq<nat>, now: Int64, marshal: Marshal, x: CellId)
    requires NoDuplicates(cell.group) && AllSpeak(geo, Others(cell.group, cell.id), clients, now, marshal)
    requires forall i :: 0 <= i < |groups| ==> groups[i] !in Channels(cell.group)
    requires x in cell.group
    ensures
      var sent := OwnContents(cell.id, groups, message)
                  + Announced(geo, Others(cell.group, cell.id), clients, now, marshal);
      Copies(sent, Render(x)) == 1
  {
    var ids := Others(cell.group, cell.id);
    OthersCount(cell.group, cell.id, x);
    OnceEach(cell.group, x);
    OwnCopies(cell, groups, message, x);
    AnnouncedCopies(geo, ids, clients, now, marshal, x);
    SplitCopies(OwnContents(cell.id, groups, message), Announced(geo, ids, clients, now, marshal), Render(x));
  }

  lemma {:induction false} SpreadGives(s: Hubs, conn: Connection, cell: CellValue, groups: seq<string>,
                                       message: seq<byte>, geo: Geometry, clients: seq<nat>, now: Int64,
                                       marshal: Marshal, sent: seq<Publication>, ok: bool)
    requires Covered(s, conn, cell) && AllSpeak(geo, Others(cell.group, cell.id), clients, now, marshal)
    requires forall i :: 0 <= i < |groups| ==> groups[i] !in Channels(cell.group)
    requires Spreads(sent, cell.id, groups, message, geo, Others(cell.group, cell.id), clients, now, marshal, ok)
    ensures GivesOneEach(s, conn, cell, sent, ok)
  {
    NoneRefused(sent, Channels(cell.group));
    if ok {
      DueExactly(s, conn, cell, groups, message, geo, clients, now, marshal);
      DueDelivered(s, conn, cell, sent);
    } else {
      assert sent[..0] == [];
      NamedIffMember(cell.id, cell.group);
    }
  }

  /** A broadcast of an entity whose surroundings are at rest: nobody moves or is notified. */
  method BroadcastAtRest(ctx: SimulatorContext, entity: Entity, message: seq<byte>, now: Int64, marshal: Marshal,
                         ghost geo: Geometry, ghost cell: CellValue)
    returns (ok: bool)
    requires Surrounded(ctx, entity, geo, cell) && Speaking(ctx, entity, geo, cell, now, marshal)
    modifies ctx.t.publisher, ctx.PeersOf(entity.tokenId),
             set e | e in ctx.PeersOf(entity.tokenId) :: e.cell,
             set e | e in ctx.PeersOf(entity.tokenId) :: e.cell.backing
    ensures Surrounded(ctx, entity, geo, cell)
    ensures Notices(ctx.PeersOf(entity.tokenId)) == old(Notices(ctx.PeersOf(entity.tokenId)))
    ensures ArraysKept(ctx.PeersOf(entity.tokenId))
    ensures old(ctx.t.publisher.log) <= ctx.t.publisher.log
    ensures Spreads(Since(old(ctx.t.publisher.log), ctx.t.publisher.log), cell.id, entity.groups, message,
                    geo, Others(cell.group, cell.id), Clients(ctx.PeersOf(entity.tokenId)), now, marshal, ok)
  {
    ghost var ids, notices := Others(cell.group, cell.id), Notices(ctx.PeersOf(entity.tokenId));
    RoundAtRest(geo, ids, notices, |ids|);
    RoundAtRest(geo, ids, notices, 0);
    ok := ctx.Broadcast(entity, message, now, marshal, geo, ids);
  }

  /** One broadcast gives every local connection one message per cell, and each cell is published on once. */
  ghost predicate OneEach(s: Hubs, cell: CellValue, sent: seq<Publication>, ok: bool) {
    && (forall conn :: Covered(s, conn, cell) ==> GivesOneEach(s, conn, cell, sent, ok))
    && (NoDuplicates(cell.group) ==> EachOnce(cell, sent, ok))
  }

  lemma {:induction false} LocalsGetOneEach(s: Hubs, cell: CellValue, groups: seq<string>, message: seq<byte>,
                                            geo: Geometry, clients: seq<nat>, now: Int64, marshal: Marshal,
                                            sent: seq<Publication>, ok: bool)
    requires AllSpeak(geo, Others(cell.group, cell.id), clients, now, marshal)
    requires forall i :: 0 <= i < |groups| ==> groups[i] !in Channels(cell.group)
    requires Spreads(sent, cell.id, groups, message, geo, Others(cell.group, cell.id), clients, now, marshal, ok)
    ensures OneEach(s, cell, sent, ok)
  {
    forall conn | Covered(s, conn, cell)
      ensures GivesOneEach(s, conn, cell, sent, ok)
    {
      SpreadGives(s, conn, cell, groups, message, geo, clients, now, marshal, sent, ok);
    }
    if NoDuplicates(cell.group) {
      SpreadOnce(cell, groups, message, geo, clients, now, marshal, sent, ok);
    }
  }

  /**
   * Exact delivery: one Broadcast gives every connection that is locally subscribed to the entity's
   * cell one message per cell of the covering, each cell being published on once, exactly when no
   * publication on such a cell is refused. The groups of the entity are not named like cells.
   */
  method BroadcastExactly(ctx: SimulatorContext, entity: Entity, message: seq<byte>, now: Int64, marshal: Marshal,
                          ghost geo: Geometry, ghost cell: CellValue)
    returns (ok: bool)
    requires Surrounded(ctx, entity, geo, cell) && Speaking(ctx, entity, geo, cell, now, marshal)
    modifies ctx.t.publisher, ctx.PeersOf(entity.tokenId),
             set e | e in ctx.PeersOf(entity.tokenId) :: e.cell,
             set e | e in ctx.PeersOf(entity.tokenId) :: e.cell.backing
    ensures Surrounded(ctx, entity, geo, cell)
    ensures Notices(ctx.PeersOf(entity.tokenId)) == old(Notices(ctx.PeersOf(entity.tokenId)))
    ensures ArraysKept(ctx.PeersOf(entity.tokenId))
    ensures old(ctx.t.publisher.log) <= ctx.t.publisher.log
    ensures OneEach(ctx.t.View(), cell, Since(old(ctx.t.publisher.log), ctx.t.publisher.log), ok)
  {
    ghost var before, clients := ctx.t.publisher.log, Clients(ctx.PeersOf(entity.tokenId));
    ok := BroadcastAtRest(ctx, entity, message, now, marshal, geo, cell);
    LocalsGetOneEach(ctx.t.View(), cell, entity.groups, message, geo, clients, now, marshal,
                     Since(before, ctx.t.publisher.log), ok);
  }

  // ---------- exact delivery over any number of broadcasts ----------

  /** After some rounds, wins of which got past the entity's own report. */
  ghost predicate GivesOver(s: Hubs, conn: Connection, cell: CellValue, sent: seq<Publication>,
                            rounds: nat, wins: nat) {
    && wins <= rounds
    && Delivered(s, sent, conn) + Refused(sent, Channels(cell.group)) == |cell.group| * wins + (rounds - wins)
    && rounds - wins <= Refused(sent, Channels(cell.group))
  }

  lemma {:induction false} GivesOverNext(s: Hubs, conn: Connection, cell: CellValue, a: seq<Publication>,
                                         b: seq<Publication>, rounds: nat, wins: nat, ok: bool)
    requires GivesOver(s, conn, cell, a, rounds, wins) && GivesOneEach(s, conn, cell, b, ok)
    ensures GivesOver(s, conn, cell, a + b, rounds + 1, if ok then wins + 1 else wins)
  {
    DeliveredTwice(s, a, b, conn, Channels(cell.group));
    assert |cell.group| * (wins + 1) == |cell.group| * wins + |cell.group|;
  }

  lemma Tally(size: nat, rounds: nat, wins: nat, delivered: nat, refused: nat)
    requires size > 0 && wins <= rounds && delivered + refused == size * wins + (rounds - wins)
    requires rounds - wins <= refused
    ensures delivered == size * rounds <==> refused == 0
  {
    assert size * rounds == size * wins + size * (rounds - wins);
  }

  /** A neighbouring cell is published on in every round won, the own cell in every round. */
  ghost predicate EachOver(cell: CellValue, sent: seq<Publication>, rounds: nat, wins: nat) {
    forall x :: x in cell.group ==> Copies(Contents(sent), Render(x)) == if x == cell.id then rounds else wins
  }

  lemma {:induction false} EachOverNext(cell: CellValue, a: seq<Publication>, b: seq<Publication>,
                                        rounds: nat, wins: nat, ok: bool)
    requires EachOver(cell, a, rounds, wins) && EachOnce(cell, b, ok)
    ensures EachOver(cell, a + b, rounds + 1, if ok then wins + 1 else wins)
  {
    assert Contents(a + b) == Contents(a) + Contents(b);
    forall x | x in cell.group
      ensures Copies(Contents(a + b), Render(x))
           == Copies(Contents(a), Render(x)) + Copies(Contents(b), Render(x))
    {
      SplitCopies(Contents(a), Contents(b), Render(x));
    }
  }

  /** What every local connection has got after some rounds, and how often each cell was published on. */
  ghost predicate LocalsGet(s: Hubs, cell: CellValue, sent: seq<Publication>, rounds: nat, wins: nat) {
    && wins <= rounds
    && (forall conn :: Covered(s, conn, cell) ==> GivesOver(s, conn, cell, sent, rounds, wins))
    && (NoDuplicates(cell.group) ==> EachOver(cell, sent, rounds, wins))
  }

  lemma {:induction false} LocalsGetNext(s: Hubs, cell: CellValue, before: seq<Publication>, mid: seq<Publication>,
                                         log: seq<Publication>, rounds: nat, wins: nat, ok: bool)
    requires before <= mid <= log && LocalsGet(s, cell, Since(before, mid), rounds, wins)
    requires OneEach(s, cell, Since(mid, log), ok)
    ensures LocalsGet(s, cell, Since(before, log), rounds + 1, if ok then wins + 1 else wins)
  {
    assert Since(before, mid) + Since(mid, log) == Since(before, log);
    forall conn | Covered(s, conn, cell)
      ensures GivesOver(s, conn, cell, Since(before, log), rounds + 1, if ok then wins + 1 else wins)
    {
      GivesOverNext(s, conn, cell, Since(before, mid), Since(mid, log), rounds, wins, ok);
    }
    if NoDuplicates(cell.group) {
      EachOverNext(cell, Since(before, mid), Since(mid, log), rounds, wins, ok);
    }
  }

  lemma {:induction false} LocalsGetAll(s: Hubs, cell: CellValue, sent: seq<Publication>, rounds: nat, wins: nat)
    requires LocalsGet(s, cell, sent, rounds, wins)
    ensures forall conn :: Covered(s, conn, cell) ==>
      (Delivered(s, sent, conn) == |cell.group| * rounds <==> Refused(sent, Channels(cell.group)) == 0)
  {
    forall conn | Covered(s, conn, cell)
      ensures Delivered(s, sent, conn) == |cell.group| * rounds <==> Refused(sent, Channels(cell.group)) == 0
    {
      Tally(|cell.group|, rounds, wins, Delivered(s, sent, conn), Refused(sent, Channels(cell.group)));
    }
  }

  /** The surroundings are as at the start, and local connections have got what the rounds gave. */
  ghost predicate Steady(ctx: SimulatorContext, entity: Entity, geo: Geometry, cell: CellValue, notices: seq<nat>,
                         before: seq<Publication>, rounds: nat, wins: nat)
    reads ctx, ctx.t.publisher, ctx.t.cellSubscriber, ctx.t.groupSubscriber, entity, entity.cell,
          ctx.PeersOf(entity.tokenId), set e | e in ctx.PeersOf(entity.tokenId) :: e.cell
  {
    && Surrounded(ctx, entity, geo, cell) && Notices(ctx.PeersOf(entity.tokenId)) == notices
    && before <= ctx.t.publisher.log
    && LocalsGet(ctx.t.View(), cell, Since(before, ctx.t.publisher.log), rounds, wins)
  }

  method BroadcastNext(ctx: SimulatorContext, entity: Entity, message: seq<byte>, now: Int64, marshal: Marshal,
                       ghost geo: Geometry, ghost cell: CellValue, ghost notices: seq<nat>,
                       ghost before: seq<Publication>, ghost rounds: nat, ghost wins: nat)
    returns (ok: bool)
    requires Steady(ctx, entity, geo, cell, notices, before, rounds, wins)
    requires Speaking(ctx, entity, geo, cell, now, marshal)
    modifies ctx.t.publisher, ctx.PeersOf(entity.tokenId),
             set e | e in ctx.PeersOf(entity.tokenId) :: e.cell,
             set e | e in ctx.PeersOf(entity.tokenId) :: e.cell.backing
    ensures Steady(ctx, entity, geo, cell, notices, before, rounds + 1, if ok then wins + 1 else wins)
    ensures ArraysKept(ctx.PeersOf(entity.tokenId))
  {
    ghost var mid := ctx.t.publisher.log;
    ok := BroadcastExactly(ctx, entity, message, now, marshal, geo, cell);
    LocalsGetNext(ctx.t.View(), cell, before, mid, ctx.t.publisher.log, rounds, wins, ok);
  }

  /**
   * Any number of broadcasts by an entity that stays where it is, wins of them getting past its own
   * report: its peers stay in their cells, notify nobody and publish once in each of the wins, and
   * every local connection gets one message per cell and broadcast exactly when no publication on
   * these cells is refused.
   */
  method BroadcastOver(ctx: SimulatorContext, entity: Entity, messages: seq<seq<byte>>, times: seq<Int64>,
                       marshal: Marshal, ghost geo: Geometry, ghost cell: CellValue)
    returns (wins: nat)
    requires |messages| == |times|
    requires Surrounded(ctx, entity, geo, cell)
    requires forall now :: now in times ==> Speaking(ctx, entity, geo, cell, now, marshal)
    modifies ctx.t.publisher, ctx.PeersOf(entity.tokenId),
             set e | e in ctx.PeersOf(entity.tokenId) :: e.cell,
             set e | e in ctx.PeersOf(entity.tokenId) :: e.cell.backing
    ensures Surrounded(ctx, entity, geo, cell)
    ensures Notices(ctx.PeersOf(entity.tokenId)) == old(Notices(ctx.PeersOf(entity.tokenId)))
    ensures ArraysKept(ctx.PeersOf(entity.tokenId))
    ensures old(ctx.t.publisher.log) <= ctx.t.publisher.log
    ensures
      var sent := Since(old(ctx.t.publisher.log), ctx.t.publisher.log);
      && LocalsGet(ctx.t.View(), cell, sent, |times|, wins)
      && forall conn :: Covered(ctx.t.View(), conn, cell) ==>
           (Delivered(ctx.t.View(), sent, conn) == |cell.group| * |times|
            <==> Refused(sent, Channels(cell.group)) == 0)
  {
    ghost var before, notices := ctx.t.publisher.log, Notices(ctx.PeersOf(entity.tokenId));
    wins := 0;
    assert Since(before, before) == [];
    for n := 0 to |times|
      invariant Steady(ctx, entity, geo, cell, notices, before, n, wins)
      invariant ArraysKept(ctx.PeersOf(entity.tokenId))
    {
      var ok := BroadcastNext(ctx, entity, messages[n], times[n], marshal, geo, cell, notices, before, n, wins);
      wins := if ok then wins + 1 else wins;
    }
    LocalsGetAll(ctx.t.View(), cell, Since(before, ctx.t.publisher.log), |times|, wins);
  }
}
