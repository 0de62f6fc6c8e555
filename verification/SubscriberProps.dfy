/** What the Subscriber's operations keep, with and without backend errors. */
module SubscriberProps {
  import opened Backend
  import opened SubscriberSpec

  // ---------- invariants ----------

  /** The two indexes are inverse to each other and have no empty inner map. */
  ghost predicate Mirrored(h: Hub) {
    && (forall c, ch :: c in h.Watchers(ch) <==> ch in h.Held(c))
    && (forall c :: c in h.connections ==> h.connections[c] != {})
    && (forall ch :: ch in h.channels ==> h.channels[ch] != {})
  }

  /** Per channel the backend calls take turns, and the last one is a subscribe while the channel is open. */
  predicate DisciplinedAt(h: Hub, channel: string) {
    && TakesTurns(CallsFor(h.calls, channel), channel)
    && (|CallsFor(h.calls, channel)| % 2 == 1 <==> channel in h.channels)
  }

  ghost predicate Disciplined(h: Hub) {
    forall ch :: DisciplinedAt(h, ch)
  }

  ghost predicate Strong(h: Hub) {
    Mirrored(h) && Disciplined(h)
  }

  /** What survives any pattern of backend errors. */
  ghost predicate Recorded(h: Hub) {
    && (forall c, ch :: c in h.Watchers(ch) ==> ch in h.Held(c))
    && (forall ch :: ch in h.channels ==> exists c :: ch in h.Held(c))
  }

  /** The last call made for a channel, refused or not, was a subscribe. */
  predicate Asked(calls: seq<Call>, channel: string) {
    var mine := CallsFor(calls, channel);
    mine != [] && mine[|mine| - 1].kind == SubscribeCall
  }

  /** Whatever fails, the open channels are the ones last asked for. */
  ghost predicate Traced(h: Hub) {
    forall ch :: ch in h.channels <==> Asked(h.calls, ch)
  }

  lemma MirroredRecorded(h: Hub)
    requires Mirrored(h)
    ensures Recorded(h)
  {
    forall ch | ch in h.channels ensures exists c :: ch in h.Held(c) {
      var c :| c in h.channels[ch];
      assert c in h.Watchers(ch);
      assert ch in h.Held(c);
    }
  }

  lemma BackendFollowsIndex(h: Hub)
    requires Disciplined(h)
    ensures Live(h.calls) == h.channels.Keys
  {
    forall ch ensures ch in Live(h.calls) <==> ch in h.channels {
      assert DisciplinedAt(h, ch);
      LiveByChannel(h.calls, ch);
      TurnsBalance(CallsFor(h.calls, ch), ch);
    }
  }

  /** Calls made minus calls undone is 0 or 1 for every channel, and 1 exactly while somebody holds it. */
  lemma CallBalance(h: Hub, channel: string)
    requires Strong(h)
    ensures
      var mine := CallsFor(h.calls, channel);
      Count(mine, SubscribeCall) - Count(mine, UnsubscribeCall)
      == if exists c :: channel in h.Held(c) then 1 else 0
  {
    assert DisciplinedAt(h, channel);
    TurnsBalance(CallsFor(h.calls, channel), channel);
    if channel in h.channels {
      var c :| c in h.channels[channel];
      assert c in h.Watchers(channel);
      assert channel in h.Held(c);
    } else {
      forall c ensures channel !in h.Held(c) {
        assert c !in h.Watchers(channel);
      }
    }
  }

  // ---------- the loop of unsubscribeNoLock, one channel at a time ----------

  /** What visiting one channel of conn does to a state. */
  predicate LeavesChannel(h: Hub, conn: Connection, c: string, ok: bool, h': Hub) {
    if h.Watchers(c) <= {conn} then
      h' == Hub(h.connections, h.channels - {c}, h.calls + [Call(UnsubscribeCall, c, ok)])
    else
      ok && h' == Hub(h.connections, h.channels[c := h.Watchers(c) - {conn}], h.calls)
  }

  /** The loop of unsubscribeNoLock, begun in h, has visited done and stands at now. */
  ghost predicate Progress(h: Hub, conn: Connection, done: set<string>, ok: bool, now: Hub) {
    && now.connections == h.connections
    && now.channels == Detach(h.channels, conn, done)
    && h.calls <= now.calls
    && TearDownCalls(now.calls[|h.calls|..], Emptied(h, conn, done), ok)
  }

  lemma NoProgress(h: Hub, conn: Connection)
    ensures Progress(h, conn, {}, true, h)
  {
    assert Detach(h.channels, conn, {}) == h.channels;
    assert h.calls[|h.calls|..] == [];
  }

  lemma Conclude(h: Hub, conn: Connection, done: set<string>, ok: bool, last: Hub, h': Hub)
    requires Progress(h, conn, done, ok, last) && done <= h.Held(conn) && (ok ==> done == h.Held(conn))
    requires h' == if ok then last.(connections := last.connections - {conn}) else last
    ensures Unsubscribes(h, conn, ok, h')
  {
    assert UnsubscribesFrom(h, conn, done, ok, h');
  }

  lemma NextProgress(h: Hub, conn: Connection, done: set<string>, now: Hub, c: string, ok: bool, next: Hub)
    requires Progress(h, conn, done, true, now) && c !in done
    requires LeavesChannel(now, conn, c, ok, next)
    ensures Progress(h, conn, done + {c}, ok, next)
  {
    DetachNext(h, conn, done, c);
    if h.Watchers(c) <= {conn} {
      var batch := now.calls[|h.calls|..];
      assert next.calls[|h.calls|..] == batch + [Call(UnsubscribeCall, c, ok)];
      NextTearDown(h, conn, done, c, batch, ok);
    }
  }

  /** Visiting one more channel either takes conn out of it or closes it. */
  lemma DetachNext(h: Hub, conn: Connection, before: set<string>, c: string)
    requires c !in before
    ensures
      var now, next := Detach(h.channels, conn, before), Detach(h.channels, conn, before + {c});
      && (c in now <==> c in h.channels)
      && (c in now ==> now[c] == h.channels[c])
      && (h.Watchers(c) <= {conn} ==> next == now - {c})
      && (!(h.Watchers(c) <= {conn}) ==>
            next == now[c := h.channels[c] - {conn}] && Emptied(h, conn, before + {c}) == Emptied(h, conn, before))
  {
  }

  /** One more unsubscribe call, for a channel not yet visited, extends the log as it should. */
  lemma NextTearDown(h: Hub, conn: Connection, before: set<string>, c: string, batch: seq<Call>, ok: bool)
    requires TearDownCalls(batch, Emptied(h, conn, before), true)
    requires c !in before && h.Watchers(c) <= {conn}
    ensures TearDownCalls(batch + [Call(UnsubscribeCall, c, ok)], Emptied(h, conn, before + {c}), ok)
  {
    var last := Call(UnsubscribeCall, c, ok);
    var batch' := batch + [last];
    var gone := Emptied(h, conn, before);
    assert Emptied(h, conn, before + {c}) == gone + {c} && c !in gone;
    assert FailedAt(batch') == if ok then {} else {c};
    forall ch
      ensures CallsFor(batch', ch) == Owed(ch, gone + {c}, FailedAt(batch'))
    {
      assert CallsFor(batch, ch) == Owed(ch, gone, {});
      CallsForNext(batch, last, ch);
    }
  }

  // ---------- what unsubscribeNoLock keeps ----------

  lemma CallsAfter(h: Hub, h': Hub, channel: string)
    requires h.calls <= h'.calls
    ensures CallsFor(h'.calls, channel)
         == CallsFor(h.calls, channel) + CallsFor(h'.calls[|h.calls|..], channel)
  {
    CallsForSplit(h.calls, h'.calls[|h.calls|..], channel);
    assert h.calls + h'.calls[|h.calls|..] == h'.calls;
  }

  lemma DetachWatchers(h: Hub, conn: Connection, done: set<string>, ok: bool, h': Hub, channel: string)
    requires UnsubscribesFrom(h, conn, done, ok, h')
    ensures h'.Watchers(channel) == if channel in done then h.Watchers(channel) - {conn} else h.Watchers(channel)
    ensures ok && (forall ch :: conn in h.Watchers(ch) ==> ch in h.Held(conn)) ==> conn !in h'.Watchers(channel)
  {
  }

  lemma UnsubscribeMirrored(h: Hub, conn: Connection, done: set<string>, ok: bool, h': Hub)
    requires Mirrored(h) && UnsubscribesFrom(h, conn, done, ok, h')
    ensures Mirrored(h') <==> ok
  {
    if ok {
      forall c, ch ensures c in h'.Watchers(ch) <==> ch in h'.Held(c) {
        DetachWatchers(h, conn, done, ok, h', ch);
        assert c in h.Watchers(ch) <==> ch in h.Held(c);
      }
    } else {
      var batch := h'.calls[|h.calls|..];
      var c := batch[|batch| - 1].channel;
      assert c in FailedAt(batch);
      FailedCallIsOwed(batch, Emptied(h, conn, done));
      assert c in h'.Held(conn) && conn !in h'.Watchers(c);
    }
  }

  lemma FailedCallIsOwed(batch: seq<Call>, gone: set<string>)
    requires TearDownCalls(batch, gone, false)
    ensures batch != [] && batch[|batch| - 1].channel in gone
  {
    var c := batch[|batch| - 1].channel;
    assert CallsFor(batch, c) == Owed(c, gone, FailedAt(batch));
    assert batch[|batch| - 1] in CallsFor(batch, c);
  }

  lemma UnsubscribeDisciplined(h: Hub, conn: Connection, done: set<string>, h': Hub)
    requires Strong(h) && UnsubscribesFrom(h, conn, done, true, h')
    ensures Disciplined(h')
  {
    var batch := h'.calls[|h.calls|..];
    forall ch ensures DisciplinedAt(h', ch) {
      assert DisciplinedAt(h, ch);
      CallsAfter(h, h', ch);
      assert CallsFor(batch, ch) == Owed(ch, Emptied(h, conn, done), {});
      if ch in Emptied(h, conn, done) {
        assert conn in h.Watchers(ch);
      }
    }
  }

  lemma UnsubscribeRecorded(h: Hub, conn: Connection, done: set<string>, ok: bool, h': Hub)
    requires Recorded(h) && UnsubscribesFrom(h, conn, done, ok, h')
    ensures Recorded(h')
  {
    forall c, ch | c in h'.Watchers(ch)
      ensures ch in h'.Held(c)
    {
      DetachWatchers(h, conn, done, ok, h', ch);
      assert c in h.Watchers(ch) ==> ch in h.Held(c);
      assert conn in h.Watchers(ch) ==> ch in h.Held(conn);
    }
    forall ch | ch in h'.channels
      ensures exists c :: ch in h'.Held(c)
    {
      var c :| ch in h.Held(c);
      if c == conn && ok {
        assert ch in done && !(h.channels[ch] <= {conn});
        var d :| d in h.channels[ch] && d != conn;
        assert d in h.Watchers(ch) ==> ch in h.Held(d);
        assert ch in h'.Held(d);
      } else {
        assert ch in h'.Held(c);
      }
    }
  }

  lemma UnsubscribeTraced(h: Hub, conn: Connection, done: set<string>, ok: bool, h': Hub)
    requires Traced(h) && UnsubscribesFrom(h, conn, done, ok, h')
    ensures Traced(h')
  {
    forall ch ensures ch in h'.channels <==> Asked(h'.calls, ch) {
      assert ch in h.channels <==> Asked(h.calls, ch);
      TracedAfter(h, conn, done, ok, h', ch);
    }
  }

  /** Either the last call for a channel is its unsubscribe, or neither its calls nor its entry changed. */
  lemma TracedAfter(h: Hub, conn: Connection, done: set<string>, ok: bool, h': Hub, channel: string)
    requires UnsubscribesFrom(h, conn, done, ok, h')
    ensures channel in Emptied(h, conn, done) ==> channel !in h'.channels && !Asked(h'.calls, channel)
    ensures channel !in Emptied(h, conn, done) ==>
      (channel in h'.channels <==> channel in h.channels) && CallsFor(h'.calls, channel) == CallsFor(h.calls, channel)
  {
    var batch := h'.calls[|h.calls|..];
    CallsAfter(h, h', channel);
    assert CallsFor(batch, channel) == Owed(channel, Emptied(h, conn, done), FailedAt(batch));
  }

  // ---------- what subscribeNoLock keeps ----------

  lemma AddedMirrored(h: Hub, conn: Connection, channel: string, ok: bool)
    requires Mirrored(h) && (channel in h.channels ==> ok)
    ensures Mirrored(Added(h, conn, channel, ok)) <==> ok
  {
    var h' := Added(h, conn, channel, ok);
    if ok {
      forall c, ch ensures c in h'.Watchers(ch) <==> ch in h'.Held(c) {
        assert c in h.Watchers(ch) <==> ch in h.Held(c);
      }
    } else {
      assert channel in h'.channels && h'.channels[channel] == {};
    }
  }

  lemma AddedDisciplined(h: Hub, conn: Connection, channel: string)
    requires Disciplined(h)
    ensures Disciplined(Added(h, conn, channel, true))
  {
    var h' := Added(h, conn, channel, true);
    forall ch ensures DisciplinedAt(h', ch) {
      assert DisciplinedAt(h, ch);
      if channel !in h.channels {
        CallsAfter(h, h', ch);
        assert h'.calls[|h.calls|..] == [Call(SubscribeCall, channel, true)];
      }
    }
  }

  lemma AddedRecorded(h: Hub, conn: Connection, channel: string, ok: bool)
    requires Recorded(h) && (channel in h.channels ==> ok)
    ensures Recorded(Added(h, conn, channel, ok))
  {
    var h' := Added(h, conn, channel, ok);
    forall c, ch | c in h'.Watchers(ch)
      ensures ch in h'.Held(c)
    {
      assert c in h.Watchers(ch) ==> ch in h.Held(c);
    }
    forall ch | ch in h'.channels
      ensures exists c :: ch in h'.Held(c)
    {
      if ch == channel {
        assert ch in h'.Held(conn);
      } else {
        var c :| ch in h.Held(c);
        assert ch in h'.Held(c);
      }
    }
  }

  lemma AddedTraced(h: Hub, conn: Connection, channel: string, ok: bool)
    requires Traced(h) && (channel in h.channels ==> ok)
    ensures Traced(Added(h, conn, channel, ok))
  {
    var h' := Added(h, conn, channel, ok);
    forall ch ensures ch in h'.channels <==> Asked(h'.calls, ch) {
      assert ch in h.channels <==> Asked(h.calls, ch);
      if channel !in h.channels {
        CallsForNext(h.calls, Call(SubscribeCall, channel, ok), ch);
      }
    }
  }

  lemma {:induction false} AddedAllTraced(h: Hub, conn: Connection, names: seq<string>)
    requires Traced(h)
    ensures Traced(AddedAll(h, conn, names))
    decreases |names|
  {
    if names != [] {
      AddedAllTraced(h, conn, names[..|names| - 1]);
      AddedTraced(AddedAll(h, conn, names[..|names| - 1]), conn, names[|names| - 1], true);
    }
  }

  lemma {:induction false} AddedAllKeeps(h: Hub, conn: Connection, names: seq<string>)
    ensures Mirrored(h) ==> Mirrored(AddedAll(h, conn, names))
    ensures Disciplined(h) ==> Disciplined(AddedAll(h, conn, names))
    ensures Recorded(h) ==> Recorded(AddedAll(h, conn, names))
    decreases |names|
  {
    if names != [] {
      var init, last := names[..|names| - 1], names[|names| - 1];
      AddedAllKeeps(h, conn, init);
      var mid := AddedAll(h, conn, init);
      if Mirrored(mid) { AddedMirrored(mid, conn, last, true); }
      if Disciplined(mid) { AddedDisciplined(mid, conn, last); }
      if Recorded(mid) { AddedRecorded(mid, conn, last, true); }
    }
  }
}
