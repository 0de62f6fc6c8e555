/** The Subscriber: connection and channel indexes kept in step with the backend, updated in place. */
module Subscribers {
  import opened Backend
  import opened SubscriberSpec
  import opened SubscriberProps
  import opened Decimal

  class Subscriber {
    // The channels recorded for each connection
    var connections: map<Connection, set<string>>
    // The connections each open channel is handed to
    var channels: map<string, set<Connection>>
    // The calls made to the backend so far
    ghost var calls: seq<Call>

    ghost function View(): Hub
      reads this
    {
      Hub(connections, channels, calls)
    }

    constructor ()
      ensures View() == EMPTY_HUB
    {
      connections, channels, calls := map[], map[], [];
    }

    /** A call to the backend, which may fail at any time. */
    method CallBackend(kind: Kind, channel: string) returns (ok: bool)
      modifies this`calls
      ensures calls == old(calls) + [Call(kind, channel, ok)]
    {
      ok := *;
      calls := calls + [Call(kind, channel, ok)];
    }

    method SubscribeNoLock(conn: Connection, channel: string) returns (ok: bool)
      modifies this
      ensures Subscribes(old(View()), conn, channel, ok, View())
    {
      if conn !in connections {
        connections := connections[conn := {}];
      }
      connections := connections[conn := connections[conn] + {channel}];
      assert connections == old(connections)[conn := old(View()).Held(conn) + {channel}];
      if channel !in channels {
        channels := channels[channel := {}];
        ok := CallBackend(SubscribeCall, channel);
        if !ok {
          return;
        }
      }
      channels := channels[channel := channels[channel] + {conn}];
      ok := true;
    }

    /** The body of unsubscribeNoLock's loop: conn leaves c, and c is closed if nobody is left. */
    method LeaveChannel(conn: Connection, c: string) returns (ok: bool)
      modifies this`channels, this`calls
      ensures LeavesChannel(old(View()), conn, c, ok, View())
    {
      if c in channels {
        channels := channels[c := channels[c] - {conn}];
      }
      if c !in channels || channels[c] == {} {
        channels := channels - {c};
        ok := CallBackend(UnsubscribeCall, c);
      } else {
        ok := true;
      }
    }

    /** One round of that loop, which began in h and has visited done. */
    method VisitChannel(conn: Connection, c: string, ghost h: Hub, ghost done: set<string>) returns (ok: bool)
      requires Progress(h, conn, done, true, View()) && c !in done
      modifies this`channels, this`calls
      ensures Progress(h, conn, done + {c}, ok, View())
    {
      ghost var before := View();
      ok := LeaveChannel(conn, c);
      NextProgress(h, conn, done, before, c, ok, View());
    }

    /** The channels of conn are visited in an arbitrary order, as Go ranges over a map. */
    method UnsubscribeNoLock(conn: Connection) returns (ok: bool)
      modifies this
      ensures Unsubscribes(old(View()), conn, ok, View())
    {
      ghost var h := View();
      var rest := if conn in connections then connections[conn] else {};
      ghost var done: set<string> := {};
      NoProgress(h, conn);
      while rest != {}
        invariant done !! rest && done + rest == h.Held(conn)
        invariant Progress(h, conn, done, true, View())
        decreases |rest|
      {
        var c :| c in rest;
        rest := rest - {c};
        ok := VisitChannel(conn, c, h, done);
        done := done + {c};
        if !ok {
          Conclude(h, conn, done, false, View(), View());
          return;
        }
      }
      ghost var last := View();
      connections := connections - {conn};
      ok := true;
      Conclude(h, conn, done, true, last, View());
    }

    method Unsubscribe(conn: Connection) returns (ok: bool)
      modifies this
      ensures Performs(old(View()), Leave(conn), ok, View())
    {
      ok := UnsubscribeNoLock(conn);
    }

    method Subscribe(conn: Connection, channel: string, unsubscribe: bool) returns (ok: bool)
      modifies this
      ensures Performs(old(View()), Join(conn, channel, unsubscribe), ok, View())
    {
      if unsubscribe {
        var freed := UnsubscribeNoLock(conn);
        ghost var mid := View();
        ok := SubscribeNoLock(conn, channel);
        assert Unsubscribes(old(View()), conn, freed, mid) && Subscribes(mid, conn, channel, ok, View());
      } else {
        ok := SubscribeNoLock(conn, channel);
      }
    }

    method SubscribeToCell(conn: Connection, cellGroup: seq<CellId>) returns (ok: bool)
      modifies this
      ensures Performs(old(View()), Visit(conn, Names(cellGroup)), ok, View())
    {
      ghost var names := Names(cellGroup);
      ok := UnsubscribeNoLock(conn);
      if !ok {
        return;
      }
      ghost var mid := View();
      for i := 0 to |cellGroup|
        invariant View() == AddedAll(mid, conn, names[..i])
      {
        ok := SubscribeNoLock(conn, Render(cellGroup[i]));
        if !ok {
          assert StopsAt(mid, conn, names, i, View());
          assert SubscribesAll(mid, conn, names, false, View());
          return;
        }
        assert names[..i + 1][..i] == names[..i];
      }
      assert names[..|cellGroup|] == names;
      ok := true;
      assert SubscribesAll(mid, conn, names, true, View());
    }

    /**
     * Hand one message received on a channel to the connections subscribed to it, in an arbitrary
     * order; written lists the connections whose Write was called.
     */
    method Dispatch(channel: string) returns (written: seq<Connection>)
      ensures multiset(written) == multiset(View().Watchers(channel))
    {
      written := [];
      var rest := if channel in channels then channels[channel] else {};
      while rest != {}
        invariant multiset(written) + multiset(rest) == multiset(View().Watchers(channel))
        decreases |rest|
      {
        var conn :| conn in rest;
        written, rest := written + [conn], rest - {conn};
      }
    }
  }
}
