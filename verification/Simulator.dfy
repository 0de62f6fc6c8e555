/** The simulator: every cell around a subscribed entity gets a synthetic peer that broadcasts from it. */
module Simulators {
  import opened Bytes
  import opened Decimal
  import opened Locations
  import opened Cells
  import opened Entities
  import opened SubscriberSpec
  import opened Topologies
  import opened Subscriptions

  /** The JSON form of a client and its location, if it has one. */
  type Marshal = (nat, Location) -> Option<seq<byte>>

  /** The cells of a group other than id, in order. */
  function Others(group: seq<CellId>, id: CellId): seq<CellId> {
    if group == [] then []
    else
      var last := group[|group| - 1];
      Others(group[..|group| - 1], id) + (if last != id then [last] else [])
  }

  /** The cell a peer is in after one broadcast from the centre of its cell. */
  function Settle(geo: Geometry, id: CellId): CellId {
    geo.CellOf(geo.Centre(id))
  }

  function CentreAt(geo: Geometry, id: CellId, timestamp: Int64): Location {
    geo.Centre(id).(timestamp := timestamp)
  }

  /** What the peers publish in one round: each on its cell, if its message can be marshalled. */
  function Announced(geo: Geometry, ids: seq<CellId>, clients: seq<nat>, timestamp: Int64, marshal: Marshal)
    : seq<(string, seq<byte>)>
    requires |ids| == |clients|
  {
    if ids == [] then []
    else
      var n := |ids| - 1;
      var message := marshal(clients[n], CentreAt(geo, ids[n], timestamp));
      Announced(geo, ids[..n], clients[..n], timestamp, marshal)
      + (if message.Some? then [(Render(Settle(geo, ids[n])), message.value)] else [])
  }

  /** No two peers are the same object or have the same cell. */
  ghost predicate Separate(peers: seq<Entity>) {
    forall i, j :: 0 <= i < |peers| && 0 <= j < |peers| && i != j ==>
      peers[i] != peers[j] && peers[i].cell != peers[j].cell
  }

  ghost predicate PeerIn(peer: Entity, geo: Geometry, id: CellId)
    reads peer, peer.cell
  {
    peer.Valid() && peer.cell.geo == geo && peer.groups == [] && peer.cell.s2cellID == id
  }

  /** Distinct peers, without groups, that lie in the cells ids. */
  ghost predicate PeersIn(peers: seq<Entity>, geo: Geometry, ids: seq<CellId>)
    reads peers, set e | e in peers :: e.cell
  {
    && |ids| == |peers|
    && (forall i :: 0 <= i < |peers| ==> PeerIn(peers[i], geo, ids[i]))
    && Separate(peers)
  }

  /** The peers' arrays are the former ones or new. */
  twostate predicate ArraysKept(peers: seq<Entity>)
    reads peers, set e | e in peers :: e.cell
  {
    forall e :: e in peers ==> e.cell.backing == old(e.cell.backing) || fresh(e.cell.backing)
  }

  function Clients(peers: seq<Entity>): (r: seq<nat>)
    ensures |r| == |peers|
  {
    seq(|peers|, i requires 0 <= i < |peers| => peers[i].clientId)
  }

  method MakePeer(geo: Geometry, cid: CellId) returns (entity: Entity)
    ensures PeerIn(entity, geo, cid) && entity.offered == []
    ensures fresh(entity) && fresh(entity.cell) && fresh(entity.cell.backing)
  {
    var clientId: nat, tokenId: nat := *, *;
    var peerCell := new Cell(geo);
    peerCell.Update(cid);
    entity := new Entity(clientId, tokenId, peerCell);
  }

  method MakePeers(cell: Cell) returns (peers: seq<Entity>)
    requires cell.Valid()
    ensures PeersIn(peers, cell.geo, Others(cell.Group(), cell.s2cellID))
    ensures forall e :: e in peers ==>
      e.offered == [] && fresh(e) && fresh(e.cell) && fresh(e.cell.backing)
  {
    peers := [];
    var group := cell.backing[..cell.len];
    for k := 0 to |group|
      invariant PeersIn(peers, cell.geo, Others(group[..k], cell.s2cellID))
      invariant forall e :: e in peers ==>
        e.offered == [] && fresh(e) && fresh(e.cell) && fresh(e.cell.backing)
    {
      assert group[..k + 1][..k] == group[..k];
      if group[k] != cell.s2cellID {
        var entity := MakePeer(cell.geo, group[k]);
        peers := peers + [entity];
      }
    }
    assert group[..|group|] == group;
  }

  /** A peer's turn: move to the centre of its own cell and broadcast from there. */
  method TakeTurn(t: Topology, entity: Entity, timestamp: Int64, marshal: Marshal)
    requires entity.Valid() && entity.groups == []
    modifies t.publisher, entity, entity.cell, entity.cell.backing
    ensures PeerIn(entity, entity.cell.geo, Settle(entity.cell.geo, old(entity.cell.s2cellID)))
    ensures entity.cell.backing == old(entity.cell.backing) || fresh(entity.cell.backing)
    ensures |entity.offered| == |old(entity.offered)|
      + if Settle(entity.cell.geo, old(entity.cell.s2cellID)) == old(entity.cell.s2cellID) then 0 else 1
    ensures old(t.publisher.log) <= t.publisher.log
    ensures Gained(old(t.publisher.log), t.publisher.log)
         == Announced(entity.cell.geo, [old(entity.cell.s2cellID)], [entity.clientId], timestamp, marshal)
  {
    ghost var before, id := t.publisher.log, entity.cell.s2cellID;
    var loc := CentreAt(entity.cell.geo, entity.cell.s2cellID, timestamp);
    var cellCpy := entity.Update(loc);
    var message := marshal(entity.clientId, loc);
    AnnouncedOne(entity.cell.geo, id, entity.clientId, timestamp, marshal);
    if message.Some? {
      var ok := t.Broadcast(entity, message.value);
      assert t.publisher.log[|before|..] == [Publication(Render(entity.cell.s2cellID), message.value, ok)];
    } else {
      assert t.publisher.log[|before|..] == [];
    }
  }

  lemma AnnouncedOne(geo: Geometry, id: CellId, client: nat, timestamp: Int64, marshal: Marshal)
    ensures Announced(geo, [id], [client], timestamp, marshal)
         == match marshal(client, CentreAt(geo, id, timestamp))
            case None => []
            case Some(message) => [(Render(Settle(geo, id)), message)]
  {
    assert Announced(geo, [id][..0], [client][..0], timestamp, marshal) == [];
  }

  lemma AnnouncedNext(geo: Geometry, ids: seq<CellId>, clients: seq<nat>, i: nat, timestamp: Int64, marshal: Marshal)
    requires |ids| == |clients| && i < |ids|
    ensures Announced(geo, ids[..i + 1], clients[..i + 1], timestamp, marshal)
         == Announced(geo, ids[..i], clients[..i], timestamp, marshal)
            + Announced(geo, [ids[i]], [clients[i]], timestamp, marshal)
  {
    AnnouncedOne(geo, ids[i], clients[i], timestamp, marshal);
    assert ids[..i + 1][..i] == ids[..i] && clients[..i + 1][..i] == clients[..i];
  }

  /** The cells after the first i peers have taken their turn. */
  function SettledTo(geo: Geometry, ids: seq<CellId>, i: nat): (r: seq<CellId>)
    ensures |r| == |ids|
  {
    seq(|ids|, k requires 0 <= k < |ids| => if k < i then Settle(geo, ids[k]) else ids[k])
  }

  function Settled(geo: Geometry, ids: seq<CellId>): (r: seq<CellId>)
    ensures |r| == |ids|
  {
    SettledTo(geo, ids, |ids|)
  }

  /** How often each peer's subscription has been notified. */
  ghost function Notices(peers: seq<Entity>): (r: seq<nat>)
    reads peers
    ensures |r| == |peers|
  {
    seq(|peers|, k requires 0 <= k < |peers| reads peers => |peers[k].offered|)
  }

  /** The notices after one round over the first i peers: one for every peer that changes its cell. */
  function Noticed(geo: Geometry, ids: seq<CellId>, notices: seq<nat>, i: nat): (r: seq<nat>)
    requires |notices| == |ids|
    ensures |r| == |ids|
  {
    seq(|ids|, k requires 0 <= k < |ids| =>
      notices[k] + if k < i && Settle(geo, ids[k]) != ids[k] then 1 else 0)
  }

  ghost function Arrays(peers: seq<Entity>): (r: seq<array<CellId>>)
    reads peers, set e | e in peers :: e.cell
    ensures |r| == |peers|
  {
    seq(|peers|, k requires 0 <= k < |peers| reads peers, set e | e in peers :: e.cell => peers[k].cell.backing)
  }

  /** The first i peers have taken their turn; the others still are as they were. */
  ghost predicate Turned(peers: seq<Entity>, geo: Geometry, ids: seq<CellId>, notices: seq<nat>,
                         arrays: seq<array<CellId>>, i: nat)
    reads peers, set e | e in peers :: e.cell
  {
    && |ids| == |notices| == |arrays| == |peers|
    && PeersIn(peers, geo, SettledTo(geo, ids, i))
    && Notices(peers) == Noticed(geo, ids, notices, i)
    && forall k :: i <= k < |peers| ==> peers[k].cell.backing == arrays[k]
  }

  /** Peer i takes its turn from the cells ids, the others are left alone. */
  method TurnAlone(t: Topology, peers: seq<Entity>, i: nat, timestamp: Int64, marshal: Marshal,
                   ghost geo: Geometry, ghost ids: seq<CellId>)
    requires PeersIn(peers, geo, ids) && i < |peers|
    modifies t.publisher, peers[i], peers[i].cell, peers[i].cell.backing
    ensures PeersIn(peers, geo, ids[i := Settle(geo, ids[i])])
    ensures peers[i].cell.backing == old(peers[i].cell.backing) || fresh(peers[i].cell.backing)
    ensures var was := old(Notices(peers));
            Notices(peers) == was[i := was[i] + if Settle(geo, ids[i]) == ids[i] then 0 else 1]
    ensures old(t.publisher.log) <= t.publisher.log
    ensures Gained(old(t.publisher.log), t.publisher.log)
         == Announced(geo, [ids[i]], [peers[i].clientId], timestamp, marshal)
  {
    ghost var was := Notices(peers);
    assert was[i] == |peers[i].offered|;
    assert PeerIn(peers[i], geo, ids[i]);
    assert forall k :: 0 <= k < |peers| ==> PeerIn(peers[k], geo, ids[k]);
    assert forall k :: 0 <= k < |peers| && k != i ==> peers[k] != peers[i] && peers[k].cell != peers[i].cell;
    TakeTurn(t, peers[i], timestamp, marshal);
    assert forall k :: 0 <= k < |peers| && k != i ==> PeerIn(peers[k], geo, ids[k]);
    assert Notices(peers) == was[i := |peers[i].offered|];
  }

  lemma NextTurn(geo: Geometry, ids: seq<CellId>, notices: seq<nat>, i: nat)
    requires i < |ids| == |notices|
    ensures SettledTo(geo, ids, i + 1) == SettledTo(geo, ids, i)[i := Settle(geo, ids[i])]
    ensures
      var was := Noticed(geo, ids, notices, i);
      Noticed(geo, ids, notices, i + 1) == was[i := was[i] + if Settle(geo, ids[i]) == ids[i] then 0 else 1]
  {
  }

  /** One round of the loop in Peers.broadcast. */
  method TurnOf(t: Topology, peers: seq<Entity>, i: nat, timestamp: Int64, marshal: Marshal, ghost geo: Geometry,
                ghost ids: seq<CellId>, ghost notices: seq<nat>, ghost arrays: seq<array<CellId>>)
    requires Turned(peers, geo, ids, notices, arrays, i) && i < |peers|
    modifies t.publisher, peers[i], peers[i].cell, peers[i].cell.backing
    ensures Turned(peers, geo, ids, notices, arrays, i + 1)
    ensures peers[i].cell.backing == arrays[i] || fresh(peers[i].cell.backing)
    ensures old(t.publisher.log) <= t.publisher.log
    ensures Gained(old(t.publisher.log), t.publisher.log)
         == Announced(geo, [ids[i]], [peers[i].clientId], timestamp, marshal)
  {
    NextTurn(geo, ids, notices, i);
    assert forall k :: i < k < |peers| ==> peers[k] != peers[i] && peers[k].cell != peers[i].cell;
    TurnAlone(t, peers, i, timestamp, marshal, geo, SettledTo(geo, ids, i));
  }

  /** Peers.broadcast: every peer takes its turn. */
  method BroadcastPeers(t: Topology, peers: seq<Entity>, timestamp: Int64, marshal: Marshal,
                        ghost geo: Geometry, ghost ids: seq<CellId>)
    requires PeersIn(peers, geo, ids)
    modifies t.publisher, peers, set e | e in peers :: e.cell, set e | e in peers :: e.cell.backing
    ensures PeersIn(peers, geo, Settled(geo, ids))
    ensures Notices(peers) == Noticed(geo, ids, old(Notices(peers)), |ids|)
    ensures ArraysKept(peers)
    ensures old(t.publisher.log) <= t.publisher.log
    ensures Gained(old(t.publisher.log), t.publisher.log) == Announced(geo, ids, Clients(peers), timestamp, marshal)
  {
    ghost var clients, before := Clients(peers), t.publisher.log;
    ghost var notices, arrays := Notices(peers), Arrays(peers);
    for i := 0 to |peers|
      invariant Turned(peers, geo, ids, notices, arrays, i)
      invariant forall k :: 0 <= k < i ==> peers[k].cell.backing == arrays[k] || fresh(peers[k].cell.backing)
      invariant Published(before, t.publisher.log, geo, ids, clients, i, timestamp, marshal)
    {
      ghost var log := t.publisher.log;
      TurnOf(t, peers, i, timestamp, marshal, geo, ids, notices, arrays);
      PublishedNext(before, log, t.publisher.log, geo, ids, clients, i, timestamp, marshal);
    }
    PublishedAll(before, t.publisher.log, geo, ids, clients, timestamp, marshal);
  }

  /** The log has grown by what the first i peers announce. */
  ghost predicate Published(before: seq<Publication>, log: seq<Publication>, geo: Geometry, ids: seq<CellId>,
                            clients: seq<nat>, i: nat, timestamp: Int64, marshal: Marshal)
    requires |ids| == |clients| && i <= |ids|
  {
    before <= log && Gained(before, log) == Announced(geo, ids[..i], clients[..i], timestamp, marshal)
  }

  lemma PublishedNext(before: seq<Publication>, log: seq<Publication>, log': seq<Publication>, geo: Geometry,
                      ids: seq<CellId>, clients: seq<nat>, i: nat, timestamp: Int64, marshal: Marshal)
    requires |ids| == |clients| && i < |ids| && log <= log'
    requires Published(before, log, geo, ids, clients, i, timestamp, marshal)
    requires Gained(log, log') == Announced(geo, [ids[i]], [clients[i]], timestamp, marshal)
    ensures Published(before, log', geo, ids, clients, i + 1, timestamp, marshal)
  {
    AnnouncedNext(geo, ids, clients, i, timestamp, marshal);
    GainedTwice(before, log, log');
  }

  lemma PublishedAll(before: seq<Publication>, log: seq<Publication>, geo: Geometry, ids: seq<CellId>,
                     clients: seq<nat>, timestamp: Int64, marshal: Marshal)
    requires |ids| == |clients| && Published(before, log, geo, ids, clients, |ids|, timestamp, marshal)
    ensures before <= log && Gained(before, log) == Announced(geo, ids, clients, timestamp, marshal)
  {
    assert ids[..|ids|] == ids && clients[..|ids|] == clients;
  }

  /** The publications made since the log was before. */
  function Since(before: seq<Publication>, log: seq<Publication>): seq<Publication>
    requires before <= log
  {
    log[|before|..]
  }

  /** A context's Broadcast publishes for the entity and then for its peers, or only its refused report. */
  ghost predicate Spreads(sent: seq<Publication>, id: CellId, groups: seq<string>, message: seq<byte>, geo: Geometry,
                          ids: seq<CellId>, clients: seq<nat>, now: Int64, marshal: Marshal, ok: bool)
    requires |ids| == |clients|
  {
    if ok then Contents(sent) == OwnContents(id, groups, message) + Announced(geo, ids, clients, now, marshal)
    else sent == [Publication(Render(id), message, false)]
  }

  class SimulatorContext {
    const t: Topology
    // The peers around each entity, by the entity's token
    var peers: map<nat, seq<Entity>>

    constructor (t: Topology)
      ensures this.t == t && peers == map[]
    {
      this.t, peers := t, map[];
    }

    ghost function PeersOf(entity: nat): seq<Entity>
      reads this
    {
      if entity in peers then peers[entity] else []
    }

    method SubscribeToCell(conn: Connection, cell: Cell) returns (ok: bool)
      requires t.Valid() && cell.Valid()
      modifies this, t.cellSubscriber, t.groupSubscriber
      ensures peers == old(peers)[conn.entity := PeersOf(conn.entity)]
      ensures PeersIn(PeersOf(conn.entity), cell.geo, Others(cell.Group(), cell.s2cellID))
      ensures forall e :: e in PeersOf(conn.entity) ==>
        e.offered == [] && fresh(e) && fresh(e.cell) && fresh(e.cell.backing)
      ensures Does(old(t.groupSubscriber.View()), Leave(conn), t.groupSubscriber.View())
      ensures Performs(old(t.cellSubscriber.View()), Visit(conn, Names(cell.Group())), ok, t.cellSubscriber.View())
    {
      var around := MakePeers(cell);
      peers := peers[conn.entity := around];
      ok := t.SubscribeToCell(conn, cell.backing[..cell.len]);
    }

    method SubscribeToGroup(conn: Connection, groupId: string) returns (ok: bool)
      requires t.Valid()
      modifies t.cellSubscriber, t.groupSubscriber
      ensures Does(old(t.cellSubscriber.View()), Leave(conn), t.cellSubscriber.View())
      ensures Performs(old(t.groupSubscriber.View()), Join(conn, groupId, true), ok, t.groupSubscriber.View())
    {
      ok := t.SubscribeToGroup(conn, groupId, true);
    }

    method Unsubscribe(conn: Connection)
      requires t.Valid()
      modifies this, t.cellSubscriber, t.groupSubscriber
      ensures peers == old(peers) - {conn.entity}
      ensures Does(old(t.cellSubscriber.View()), Leave(conn), t.cellSubscriber.View())
      ensures Does(old(t.groupSubscriber.View()), Leave(conn), t.groupSubscriber.View())
    {
      if conn.entity in peers {
        peers := peers - {conn.entity};
      }
      t.Unsubscribe(conn);
    }

    /** The entity broadcasts, and unless that failed its peers do; ids says where the peers are. */
    method Broadcast(entity: Entity, message: seq<byte>, now: Int64, marshal: Marshal,
                     ghost geo: Geometry, ghost ids: seq<CellId>)
      returns (ok: bool)
      requires PeersIn(PeersOf(entity.tokenId), geo, ids)
      modifies t.publisher, PeersOf(entity.tokenId),
               set e | e in PeersOf(entity.tokenId) :: e.cell,
               set e | e in PeersOf(entity.tokenId) :: e.cell.backing
      ensures PeersIn(PeersOf(entity.tokenId), geo, if ok then Settled(geo, ids) else ids)
      ensures Notices(PeersOf(entity.tokenId))
           == Noticed(geo, ids, old(Notices(PeersOf(entity.tokenId))), if ok then |ids| else 0)
      ensures ArraysKept(PeersOf(entity.tokenId))
      ensures old(t.publisher.log) <= t.publisher.log
      ensures Spreads(Since(old(t.publisher.log), t.publisher.log), old(entity.cell.s2cellID), old(entity.groups),
                      message, geo, ids, Clients(PeersOf(entity.tokenId)), now, marshal, ok)
    {
      ghost var before := t.publisher.log;
      ok := t.Broadcast(entity, message);
      if !ok {
        return;
      }
      ghost var own := t.publisher.log;
      if entity.tokenId in peers {
        BroadcastPeers(t, peers[entity.tokenId], now, marshal, geo, ids);
      }
      GainedTwice(before, own, t.publisher.log);
    }
  }

  // ---------- how often a cell is published on ----------

  /** How many of the publications are on a channel. */
  function Copies(sent: seq<(string, seq<byte>)>, channel: string): nat {
    if sent == [] then 0
    else Copies(sent[..|sent| - 1], channel) + (if sent[|sent| - 1].0 == channel then 1 else 0)
  }

  function Occurrences(ids: seq<CellId>, x: CellId): nat {
    if ids == [] then 0
    else Occurrences(ids[..|ids| - 1], x) + (if ids[|ids| - 1] == x then 1 else 0)
  }

  lemma {:induction false} SplitCopies(a: seq<(string, seq<byte>)>, b: seq<(string, seq<byte>)>, channel: string)
    ensures Copies(a + b, channel) == Copies(a, channel) + Copies(b, channel)
    decreases |b|
  {
    if b == [] {
      assert a + b == a;
    } else {
      SplitCopies(a, b[..|b| - 1], channel);
      var all := a + b;
      assert all[..|all| - 1] == a + b[..|b| - 1] && all[|all| - 1] == b[|b| - 1];
    }
  }

  /** Every peer's cell has a centre that maps back, and every message has a JSON form. */
  ghost predicate AllSpeak(geo: Geometry, ids: seq<CellId>, clients: seq<nat>, now: Int64, marshal: Marshal) {
    && |ids| == |clients|
    && forall i :: 0 <= i < |ids| ==>
         Settle(geo, ids[i]) == ids[i] && marshal(clients[i], CentreAt(geo, ids[i], now)).Some?
  }

  lemma AnnouncedLast(geo: Geometry, ids: seq<CellId>, clients: seq<nat>, now: Int64, marshal: Marshal)
    requires AllSpeak(geo, ids, clients, now, marshal) && ids != []
    ensures
      var n, sent := |ids| - 1, Announced(geo, ids, clients, now, marshal);
      && sent != [] && sent[|sent| - 1].0 == Render(ids[n])
      && AllSpeak(geo, ids[..n], clients[..n], now, marshal)
      && sent[..|sent| - 1] == Announced(geo, ids[..n], clients[..n], now, marshal)
  {
  }

  lemma {:induction false} AnnouncedCopies(geo: Geometry, ids: seq<CellId>, clients: seq<nat>, now: Int64,
                                           marshal: Marshal, x: CellId)
    requires AllSpeak(geo, ids, clients, now, marshal)
    ensures Copies(Announced(geo, ids, clients, now, marshal), Render(x)) == Occurrences(ids, x)
    decreases |ids|
  {
    if ids != [] {
      var n := |ids| - 1;
      AnnouncedLast(geo, ids, clients, now, marshal);
      AnnouncedCopies(geo, ids[..n], clients[..n], now, marshal, x);
      RenderInjective(ids[n], x);
    }
  }

  // ---------- any number of broadcasts ----------

  /** Where the peers are after n rounds. */
  function After(geo: Geometry, ids: seq<CellId>, n: nat): (r: seq<CellId>)
    ensures |r| == |ids|
  {
    if n == 0 then ids else Settled(geo, After(geo, ids, n - 1))
  }

  /** How often they have been notified by then. */
  function NoticedAfter(geo: Geometry, ids: seq<CellId>, notices: seq<nat>, n: nat): (r: seq<nat>)
    requires |notices| == |ids|
    ensures |r| == |ids|
  {
    if n == 0 then notices
    else Noticed(geo, After(geo, ids, n - 1), NoticedAfter(geo, ids, notices, n - 1), |ids|)
  }

  /** What they publish in rounds at the given times. */
  function AnnouncedOver(geo: Geometry, ids: seq<CellId>, clients: seq<nat>, times: seq<Int64>, marshal: Marshal)
    : seq<(string, seq<byte>)>
    requires |ids| == |clients|
  {
    if times == [] then []
    else
      var n := |times| - 1;
      AnnouncedOver(geo, ids, clients, times[..n], marshal)
      + Announced(geo, After(geo, ids, n), clients, times[n], marshal)
  }

  /** A peer is never notified exactly when the centre of its cell maps back, and then keeps that cell. */
  lemma {:induction false} PeerStableIff(geo: Geometry, ids: seq<CellId>, notices: seq<nat>, n: nat, i: nat)
    requires i < |ids| == |notices|
    ensures NoticedAfter(geo, ids, notices, n)[i] >= notices[i]
    ensures NoticedAfter(geo, ids, notices, n)[i] == notices[i] <==> n == 0 || Settle(geo, ids[i]) == ids[i]
    ensures Settle(geo, ids[i]) == ids[i] ==> After(geo, ids, n)[i] == ids[i]
  {
    if n > 0 {
      PeerStableIff(geo, ids, notices, n - 1, i);
    }
  }

  lemma {:induction false} AfterAtRest(geo: Geometry, ids: seq<CellId>, n: nat)
    requires forall i :: 0 <= i < |ids| ==> Settle(geo, ids[i]) == ids[i]
    ensures After(geo, ids, n) == ids
  {
    if n > 0 {
      AfterAtRest(geo, ids, n - 1);
    }
  }

  /** Each of the cells is published on n times for every peer in it, and nothing else is. */
  ghost predicate TimesEach(sent: seq<(string, seq<byte>)>, ids: seq<CellId>, n: nat) {
    && |sent| == n * |ids|
    && forall x: CellId :: Copies(sent, Render(x)) == n * Occurrences(ids, x)
  }

  lemma {:induction false} OnceEachMore(a: seq<(string, seq<byte>)>, b: seq<(string, seq<byte>)>, ids: seq<CellId>,
                                        n: nat)
    requires TimesEach(a, ids, n) && TimesEach(b, ids, 1)
    ensures TimesEach(a + b, ids, n + 1)
  {
    forall x: CellId ensures Copies(a + b, Render(x)) == (n + 1) * Occurrences(ids, x) {
      CopiesMore(a, b, Render(x), n, Occurrences(ids, x));
    }
  }

  lemma {:induction false} CopiesMore(a: seq<(string, seq<byte>)>, b: seq<(string, seq<byte>)>, channel: string,
                                      n: nat, k: nat)
    requires Copies(a, channel) == n * k && Copies(b, channel) == 1 * k
    ensures Copies(a + b, channel) == (n + 1) * k
  {
    SplitCopies(a, b, channel);
  }

  /** How many peers move to a cell and have a message with a JSON form. */
  function Speakers(geo: Geometry, ids: seq<CellId>, clients: seq<nat>, now: Int64, marshal: Marshal, x: CellId,
                    n: nat): nat
    requires n <= |ids| == |clients|
  {
    if n == 0 then 0
    else
      var centre := Location(geo.centreLat(ids[n - 1]), geo.centreLng(ids[n - 1]), 0, 0, now);
      Speakers(geo, ids, clients, now, marshal, x, n - 1)
      + if geo.CellOf(centre) == x && marshal(clients[n - 1], centre).Some? then 1 else 0
  }

  /** How often the first n peers publish on a channel. */
  function Spoken(geo: Geometry, ids: seq<CellId>, clients: seq<nat>, now: Int64, marshal: Marshal, channel: string,
                  n: nat): nat
    requires n <= |ids| == |clients|
  {
    Copies(Announced(geo, ids[..n], clients[..n], now, marshal), channel)
  }

  /** Whatever has no JSON form is not published, and wherever the centres map, nothing else is missing. */
  lemma {:induction false} SpeakersPublish(geo: Geometry, ids: seq<CellId>, clients: seq<nat>, now: Int64,
                                           marshal: Marshal, x: CellId, n: nat)
    requires n <= |ids| == |clients|
    ensures Spoken(geo, ids, clients, now, marshal, Render(x), n) == Speakers(geo, ids, clients, now, marshal, x, n)
    decreases n
  {
    if n > 0 {
      SpeakersPublish(geo, ids, clients, now, marshal, x, n - 1);
      SpokenNext(geo, ids, clients, now, marshal, Render(x), n - 1);
      OneSpeaks(geo, ids[n - 1], clients[n - 1], now, marshal, x);
    }
  }

  lemma {:induction false} SpokenNext(geo: Geometry, ids: seq<CellId>, clients: seq<nat>, now: Int64,
                                      marshal: Marshal, channel: string, n: nat)
    requires n < |ids| == |clients|
    ensures Spoken(geo, ids, clients, now, marshal, channel, n + 1)
         == Spoken(geo, ids, clients, now, marshal, channel, n)
            + Copies(Announced(geo, [ids[n]], [clients[n]], now, marshal), channel)
  {
    AnnouncedNext(geo, ids, clients, n, now, marshal);
    SplitCopies(Announced(geo, ids[..n], clients[..n], now, marshal),
                Announced(geo, [ids[n]], [clients[n]], now, marshal), channel);
  }

  lemma {:induction false} OneSpeaks(geo: Geometry, id: CellId, client: nat, now: Int64, marshal: Marshal, x: CellId)
    ensures
      var centre := Location(geo.centreLat(id), geo.centreLng(id), 0, 0, now);
      Copies(Announced(geo, [id], [client], now, marshal), Render(x))
      == if geo.CellOf(centre) == x && marshal(client, centre).Some? then 1 else 0
  {
    AnnouncedOne(geo, id, client, now, marshal);
    RenderInjective(Settle(geo, id), x);
    var sent := Announced(geo, [id], [client], now, marshal);
    assert sent != [] ==> sent[..0] == [];
  }

  /** Each peer's message is about itself, at the centre of its cell and at the time of the round. */
  lemma {:induction false} AnnouncedAt(geo: Geometry, ids: seq<CellId>, clients: seq<nat>, now: Int64,
                                       marshal: Marshal, i: nat)
    requires AllSpeak(geo, ids, clients, now, marshal) && i < |ids|
    ensures |Announced(geo, ids, clients, now, marshal)| == |ids|
    ensures
      var centre := Location(geo.centreLat(ids[i]), geo.centreLng(ids[i]), 0, 0, now);
      && marshal(clients[i], centre).Some?
      && Announced(geo, ids, clients, now, marshal)[i] == (Render(ids[i]), marshal(clients[i], centre).value)
    decreases |ids|
  {
    AnnouncedSize(geo, ids, clients, now, marshal);
    AnnouncedLast(geo, ids, clients, now, marshal);
    var n := |ids| - 1;
    if i < n {
      AnnouncedAt(geo, ids[..n], clients[..n], now, marshal, i);
      assert Announced(geo, ids, clients, now, marshal)[..n] == Announced(geo, ids[..n], clients[..n], now, marshal);
    }
  }

  lemma {:induction false} AnnouncedOnce(geo: Geometry, ids: seq<CellId>, clients: seq<nat>, now: Int64,
                                         marshal: Marshal)
    requires AllSpeak(geo, ids, clients, now, marshal)
    ensures TimesEach(Announced(geo, ids, clients, now, marshal), ids, 1)
  {
    AnnouncedSize(geo, ids, clients, now, marshal);
    forall x: CellId ensures Copies(Announced(geo, ids, clients, now, marshal), Render(x)) == Occurrences(ids, x) {
      AnnouncedCopies(geo, ids, clients, now, marshal, x);
    }
  }

  lemma {:induction false} AnnouncedSize(geo: Geometry, ids: seq<CellId>, clients: seq<nat>, now: Int64,
                                         marshal: Marshal)
    requires AllSpeak(geo, ids, clients, now, marshal)
    ensures |Announced(geo, ids, clients, now, marshal)| == |ids|
    decreases |ids|
  {
    if ids != [] {
      AnnouncedLast(geo, ids, clients, now, marshal);
      AnnouncedSize(geo, ids[..|ids| - 1], clients[..|ids| - 1], now, marshal);
    }
  }

  /** Peers whose centres map back publish once per round, each on its own cell. */
  lemma {:induction false} OncePerRound(geo: Geometry, ids: seq<CellId>, clients: seq<nat>, times: seq<Int64>,
                                        marshal: Marshal, n: nat)
    requires |ids| == |clients| && n <= |times|
    requires forall now :: now in times ==> AllSpeak(geo, ids, clients, now, marshal)
    ensures TimesEach(AnnouncedOver(geo, ids, clients, times[..n], marshal), ids, n)
    decreases n
  {
    if n > 0 {
      OncePerRound(geo, ids, clients, times, marshal, n - 1);
      OneRoundMore(geo, ids, clients, times, marshal, n - 1);
    }
  }

  lemma {:induction false} OneRoundMore(geo: Geometry, ids: seq<CellId>, clients: seq<nat>, times: seq<Int64>,
                                        marshal: Marshal, n: nat)
    requires n < |times| && AllSpeak(geo, ids, clients, times[n], marshal)
    requires TimesEach(AnnouncedOver(geo, ids, clients, times[..n], marshal), ids, n)
    ensures TimesEach(AnnouncedOver(geo, ids, clients, times[..n + 1], marshal), ids, n + 1)
  {
    var before := AnnouncedOver(geo, ids, clients, times[..n], marshal);
    AnnouncedOverNext(geo, ids, clients, times, n, marshal);
    AfterAtRest(geo, ids, n);
    AnnouncedOnce(geo, ids, clients, times[n], marshal);
    OnceEachMore(before, Announced(geo, ids, clients, times[n], marshal), ids, n);
  }

  /**
   * Any number of rounds of Peers.broadcast: a peer is never notified, keeping its cell, exactly when
   * the centre of its cell maps back to the cell. If all do, each peer publishes once per round on
   * its own cell, and nowhere else.
   */
  method BroadcastRounds(t: Topology, peers: seq<Entity>, times: seq<Int64>, marshal: Marshal,
                         ghost geo: Geometry, ghost ids: seq<CellId>)
    requires PeersIn(peers, geo, ids)
    modifies t.publisher, peers, set e | e in peers :: e.cell, set e | e in peers :: e.cell.backing
    ensures PeersIn(peers, geo, After(geo, ids, |times|))
    ensures Notices(peers) == NoticedAfter(geo, ids, old(Notices(peers)), |times|)
    ensures forall k :: 0 <= k < |peers| ==>
      (Notices(peers)[k] == old(Notices(peers))[k] <==> times == [] || Settle(geo, ids[k]) == ids[k])
    ensures forall k :: 0 <= k < |peers| && Settle(geo, ids[k]) == ids[k] ==> peers[k].cell.s2cellID == ids[k]
    ensures ArraysKept(peers)
    ensures old(t.publisher.log) <= t.publisher.log
    ensures Gained(old(t.publisher.log), t.publisher.log) == AnnouncedOver(geo, ids, Clients(peers), times, marshal)
    ensures (forall now :: now in times ==> AllSpeak(geo, ids, Clients(peers), now, marshal)) ==>
      TimesEach(Gained(old(t.publisher.log), t.publisher.log), ids, |times|)
  {
    ghost var before, notices := t.publisher.log, Notices(peers);
    for n := 0 to |times|
      invariant Rounded(peers, geo, ids, notices, n)
      invariant Heard(before, t.publisher.log, geo, ids, Clients(peers), times[..n], marshal)
      invariant ArraysKept(peers)
    {
      NextRound(t, peers, times, n, marshal, geo, ids, before, notices);
    }
    assert times[..|times|] == times;
    RoundsStable(peers, geo, ids, notices, |times|);
    if forall now :: now in times ==> AllSpeak(geo, ids, Clients(peers), now, marshal) {
      OncePerRound(geo, ids, Clients(peers), times, marshal, |times|);
    }
  }

  ghost predicate Rounded(peers: seq<Entity>, geo: Geometry, ids: seq<CellId>, notices: seq<nat>, n: nat)
    reads peers, set e | e in peers :: e.cell
  {
    && |notices| == |ids| && PeersIn(peers, geo, After(geo, ids, n))
    && Notices(peers) == NoticedAfter(geo, ids, notices, n)
  }

  ghost predicate Heard(before: seq<Publication>, log: seq<Publication>, geo: Geometry, ids: seq<CellId>,
                        clients: seq<nat>, times: seq<Int64>, marshal: Marshal) {
    && |ids| == |clients| && before <= log
    && Gained(before, log) == AnnouncedOver(geo, ids, clients, times, marshal)
  }

  method NextRound(t: Topology, peers: seq<Entity>, times: seq<Int64>, n: nat, marshal: Marshal, ghost geo: Geometry,
                   ghost ids: seq<CellId>, ghost before: seq<Publication>, ghost notices: seq<nat>)
    requires n < |times| && Rounded(peers, geo, ids, notices, n)
    requires Heard(before, t.publisher.log, geo, ids, Clients(peers), times[..n], marshal)
    modifies t.publisher, peers, set e | e in peers :: e.cell, set e | e in peers :: e.cell.backing
    ensures Rounded(peers, geo, ids, notices, n + 1)
    ensures Heard(before, t.publisher.log, geo, ids, Clients(peers), times[..n + 1], marshal)
    ensures ArraysKept(peers)
  {
    ghost var log := t.publisher.log;
    BroadcastPeers(t, peers, times[n], marshal, geo, After(geo, ids, n));
    HeardNext(before, log, t.publisher.log, geo, ids, Clients(peers), times, n, marshal);
  }

  lemma {:induction false} HeardNext(before: seq<Publication>, log: seq<Publication>, log': seq<Publication>,
                                     geo: Geometry, ids: seq<CellId>, clients: seq<nat>, times: seq<Int64>, n: nat,
                                     marshal: Marshal)
    requires n < |times| && log <= log' && Heard(before, log, geo, ids, clients, times[..n], marshal)
    requires Gained(log, log') == Announced(geo, After(geo, ids, n), clients, times[n], marshal)
    ensures Heard(before, log', geo, ids, clients, times[..n + 1], marshal)
  {
    GainedTwice(before, log, log');
    AnnouncedOverNext(geo, ids, clients, times, n, marshal);
  }

  lemma {:induction false} AnnouncedOverNext(geo: Geometry, ids: seq<CellId>, clients: seq<nat>, times: seq<Int64>,
                                             n: nat, marshal: Marshal)
    requires n < |times| && |ids| == |clients|
    ensures AnnouncedOver(geo, ids, clients, times[..n + 1], marshal)
         == AnnouncedOver(geo, ids, clients, times[..n], marshal)
            + Announced(geo, After(geo, ids, n), clients, times[n], marshal)
  {
    assert times[..n + 1][..n] == times[..n];
  }

  lemma RoundsStable(peers: seq<Entity>, geo: Geometry, ids: seq<CellId>, notices: seq<nat>, n: nat)
    requires Rounded(peers, geo, ids, notices, n)
    ensures forall k :: 0 <= k < |peers| ==>
      (Notices(peers)[k] == notices[k] <==> n == 0 || Settle(geo, ids[k]) == ids[k])
    ensures forall k :: 0 <= k < |peers| && Settle(geo, ids[k]) == ids[k] ==> peers[k].cell.s2cellID == ids[k]
  {
    forall k | 0 <= k < |peers|
      ensures Notices(peers)[k] == notices[k] <==> n == 0 || Settle(geo, ids[k]) == ids[k]
      ensures Settle(geo, ids[k]) == ids[k] ==> peers[k].cell.s2cellID == ids[k]
    {
      PeerStableIff(geo, ids, notices, n, k);
      assert PeerIn(peers[k], geo, After(geo, ids, n)[k]);
    }
  }
}
