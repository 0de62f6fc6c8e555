/** What each Subscriber operation does to the two indexes and to the backend, errors included. */
module SubscriberSpec {
  import opened Backend

  /** A client connection; entity identifies the entity it serves. */
  datatype Connection = Connection(id: nat, entity: nat)

  /** The two nested maps of a Subscriber and the backend calls it has made. */
  datatype Hub = Hub(connections: map<Connection, set<string>>,
                     channels: map<string, set<Connection>>,
                     calls: seq<Call>)
  {
    /** The channels recorded for a connection. */
    function Held(conn: Connection): set<string> {
      if conn in connections then connections[conn] else {}
    }

    /** The connections a message on a channel is handed to. */
    function Watchers(channel: string): set<Connection> {
      if channel in channels then channels[channel] else {}
    }

    /** A message published on the channel reaches the connection. */
    predicate Receives(conn: Connection, channel: string) {
      conn in Watchers(channel) && channel in Live(calls)
    }
  }

  const EMPTY_HUB := Hub(map[], map[], [])

  // ---------- unsubscribeNoLock ----------

  /** The channel index once conn has been taken out of the channels in done. */
  function Detach(channels: map<string, set<Connection>>, conn: Connection, done: set<string>)
    : map<string, set<Connection>>
  {
    map ch | ch in channels && !(ch in done && channels[ch] <= {conn}) ::
      if ch in done then channels[ch] - {conn} else channels[ch]
  }

  /** The channels among done that conn was the last to watch. */
  function Emptied(h: Hub, conn: Connection, done: set<string>): set<string> {
    set ch | ch in done && h.Watchers(ch) <= {conn}
  }

  /** The channel of a trailing failed call. */
  function FailedAt(calls: seq<Call>): set<string> {
    if calls == [] || calls[|calls| - 1].ok then {} else {calls[|calls| - 1].channel}
  }

  /** The single call owed to a channel that nobody watches any more. */
  function Owed(channel: string, gone: set<string>, failed: set<string>): seq<Call> {
    if channel in gone then [Call(UnsubscribeCall, channel, channel !in failed)] else []
  }

  /** One unsubscribe call per channel of gone, in some order, all successful but perhaps the last. */
  ghost predicate TearDownCalls(batch: seq<Call>, gone: set<string>, ok: bool) {
    && (ok <==> FailedAt(batch) == {})
    && forall ch :: CallsFor(batch, ch) == Owed(ch, gone, FailedAt(batch))
  }

  /** unsubscribeNoLock got through the channels in done, in some order. */
  ghost predicate UnsubscribesFrom(h: Hub, conn: Connection, done: set<string>, ok: bool, h': Hub) {
    && done <= h.Held(conn)
    && (ok ==> done == h.Held(conn))
    && h'.connections == (if ok then h.connections - {conn} else h.connections)
    && h'.channels == Detach(h.channels, conn, done)
    && h.calls <= h'.calls
    && TearDownCalls(h'.calls[|h.calls|..], Emptied(h, conn, done), ok)
  }

  ghost predicate Unsubscribes(h: Hub, conn: Connection, ok: bool, h': Hub) {
    exists done: set<string> :: UnsubscribesFrom(h, conn, done, ok, h')
  }

  // ---------- subscribeNoLock ----------

  /** The state after subscribeNoLock; ok is false when the backend refused a new channel. */
  function Added(h: Hub, conn: Connection, channel: string, ok: bool): Hub {
    Hub(h.connections[conn := h.Held(conn) + {channel}],
        h.channels[channel := if ok then h.Watchers(channel) + {conn} else {}],
        if channel in h.channels then h.calls else h.calls + [Call(SubscribeCall, channel, ok)])
  }

  /** The backend is asked, and so can refuse, only for a channel nobody has opened. */
  predicate Subscribes(h: Hub, conn: Connection, channel: string, ok: bool, h': Hub) {
    (channel in h.channels ==> ok) && h' == Added(h, conn, channel, ok)
  }

  /** The state after subscribing to each of the names in turn without an error. */
  function AddedAll(h: Hub, conn: Connection, names: seq<string>): Hub {
    if names == [] then h
    else Added(AddedAll(h, conn, names[..|names| - 1]), conn, names[|names| - 1], true)
  }

  ghost predicate StopsAt(h: Hub, conn: Connection, names: seq<string>, k: nat, h': Hub) {
    k < |names| && Subscribes(AddedAll(h, conn, names[..k]), conn, names[k], false, h')
  }

  // ---------- the public operations ----------

  datatype Request =
    | Leave(conn: Connection)
    | Join(conn: Connection, channel: string, replace: bool)
    | Visit(conn: Connection, names: seq<string>)

  /** Subscribe(conn, channel, replace): an error of the unsubscribe half is ignored. */
  ghost predicate Joins(h: Hub, conn: Connection, channel: string, replace: bool, ok: bool, h': Hub) {
    if replace then
      exists freed, mid :: Unsubscribes(h, conn, freed, mid) && Subscribes(mid, conn, channel, ok, h')
    else
      Subscribes(h, conn, channel, ok, h')
  }

  ghost predicate SubscribesAll(h: Hub, conn: Connection, names: seq<string>, ok: bool, h': Hub) {
    if ok then h' == AddedAll(h, conn, names) else exists k :: StopsAt(h, conn, names, k, h')
  }

  /** SubscribeToCell: an error of the unsubscribe half ends the operation. */
  ghost predicate Visits(h: Hub, conn: Connection, names: seq<string>, ok: bool, h': Hub) {
    || (!ok && Unsubscribes(h, conn, false, h'))
    || exists mid :: Unsubscribes(h, conn, true, mid) && SubscribesAll(mid, conn, names, ok, h')
  }

  ghost predicate Performs(h: Hub, req: Request, ok: bool, h': Hub) {
    match req
    case Leave(conn) => Unsubscribes(h, conn, ok, h')
    case Join(conn, channel, replace) => Joins(h, conn, channel, replace, ok, h')
    case Visit(conn, names) => Visits(h, conn, names, ok, h')
  }
}
