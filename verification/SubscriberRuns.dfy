/** Whole runs of a Subscriber: any requests, any order of the connections, any backend errors. */
module SubscriberRuns {
  import opened Backend
  import opened SubscriberSpec
  import opened SubscriberProps

  // ---------- what an operation leaves alone ----------

  /** Neither c's record of ch, nor whether c is handed ch's messages, nor ch's calls while it is, differ. */
  predicate Same(h: Hub, h': Hub, c: Connection, ch: string) {
    && (ch in h'.Held(c) <==> ch in h.Held(c))
    && (c in h'.Watchers(ch) <==> c in h.Watchers(ch))
    && (c in h.Watchers(ch) ==> CallsFor(h'.calls, ch) == CallsFor(h.calls, ch))
  }

  lemma LeaveSame(h: Hub, conn: Connection, ok: bool, h': Hub, c: Connection, ch: string)
    requires Unsubscribes(h, conn, ok, h') && c != conn
    ensures Same(h, h', c, ch) && h.calls <= h'.calls
  {
    var done: set<string> :| UnsubscribesFrom(h, conn, done, ok, h');
    DetachWatchers(h, conn, done, ok, h', ch);
    if c in h.Watchers(ch) {
      CallsAfter(h, h', ch);
      assert ch !in Emptied(h, conn, done);
      assert CallsFor(h'.calls[|h.calls|..], ch) == [];
    }
  }

  lemma AddedSame(h: Hub, conn: Connection, channel: string, ok: bool, c: Connection, ch: string)
    requires (channel in h.channels ==> ok) && c != conn
    ensures Same(h, Added(h, conn, channel, ok), c, ch)
  {
    var h' := Added(h, conn, channel, ok);
    if c in h.Watchers(ch) && channel !in h.channels {
      CallsAfter(h, h', ch);
      assert h'.calls[|h.calls|..] == [Call(SubscribeCall, channel, ok)];
      assert CallsFor(h'.calls[|h.calls|..], ch) == [];
    }
  }

  lemma {:induction false} AddedAllSame(h: Hub, conn: Connection, names: seq<string>, c: Connection, ch: string)
    requires c != conn
    ensures Same(h, AddedAll(h, conn, names), c, ch)
    decreases |names|
  {
    if names != [] {
      var init, last := names[..|names| - 1], names[|names| - 1];
      AddedAllSame(h, conn, init, c, ch);
      AddedSame(AddedAll(h, conn, init), conn, last, true, c, ch);
    }
  }

  lemma {:induction false} AddedAllHolds(h: Hub, conn: Connection, names: seq<string>)
    ensures h.calls <= AddedAll(h, conn, names).calls
    ensures AddedAll(h, conn, names).Held(conn) == h.Held(conn) + (set n | n in names)
    decreases |names|
  {
    if names != [] {
      var init, last := names[..|names| - 1], names[|names| - 1];
      AddedAllHolds(h, conn, init);
      assert names == init + [last];
      assert (set n | n in names) == (set n | n in init) + {last};
    }
  }

  lemma SubscribesAllSame(h: Hub, conn: Connection, names: seq<string>, ok: bool, h': Hub, c: Connection, ch: string)
    requires SubscribesAll(h, conn, names, ok, h') && c != conn
    ensures Same(h, h', c, ch)
  {
    if ok {
      AddedAllSame(h, conn, names, c, ch);
    } else {
      var k: nat :| StopsAt(h, conn, names, k, h');
      AddedAllSame(h, conn, names[..k], c, ch);
      AddedSame(AddedAll(h, conn, names[..k]), conn, names[k], false, c, ch);
    }
  }

  /** Frame: whatever fails, a request changes nothing for any other connection. */
  lemma OthersSame(h: Hub, req: Request, ok: bool, h': Hub, c: Connection, ch: string)
    requires Performs(h, req, ok, h') && c != req.conn
    ensures Same(h, h', c, ch)
  {
    var conn := req.conn;
    match req
    case Leave(_) =>
      LeaveSame(h, conn, ok, h', c, ch);
    case Join(_, channel, replace) =>
      if replace {
        var freed, mid :| Unsubscribes(h, conn, freed, mid) && Subscribes(mid, conn, channel, ok, h');
        LeaveSame(h, conn, freed, mid, c, ch);
        AddedSame(mid, conn, channel, ok, c, ch);
      } else {
        AddedSame(h, conn, channel, ok, c, ch);
      }
    case Visit(_, names) =>
      if !ok && Unsubscribes(h, conn, false, h') {
        LeaveSame(h, conn, false, h', c, ch);
      } else {
        var mid :| Unsubscribes(h, conn, true, mid) && SubscribesAll(mid, conn, names, ok, h');
        LeaveSame(h, conn, true, mid, c, ch);
        SubscribesAllSame(mid, conn, names, ok, h', c, ch);
      }
  }

  /** Dispatch to other connections is the same before and after a request, shared channels included. */
  lemma OthersReceive(h: Hub, req: Request, ok: bool, h': Hub, other: Connection, channel: string)
    requires Performs(h, req, ok, h') && other != req.conn
    ensures h'.Receives(other, channel) <==> h.Receives(other, channel)
    ensures h'.Held(other) == h.Held(other)
  {
    OthersSame(h, req, ok, h', other, channel);
    LiveByChannel(h.calls, channel);
    LiveByChannel(h'.calls, channel);
    forall ch ensures ch in h'.Held(other) <==> ch in h.Held(other) {
      OthersSame(h, req, ok, h', other, ch);
    }
  }

  lemma SubscribesAllCalls(h: Hub, conn: Connection, names: seq<string>, ok: bool, h': Hub)
    requires SubscribesAll(h, conn, names, ok, h')
    ensures h.calls <= h'.calls
  {
    if ok {
      AddedAllHolds(h, conn, names);
    } else {
      var k: nat :| StopsAt(h, conn, names, k, h');
      AddedAllHolds(h, conn, names[..k]);
    }
  }

  lemma CallsGrow(h: Hub, req: Request, ok: bool, h': Hub)
    requires Performs(h, req, ok, h')
    ensures h.calls <= h'.calls
  {
    if req.Visit? && !(!ok && Unsubscribes(h, req.conn, false, h')) {
      var mid :| Unsubscribes(h, req.conn, true, mid) && SubscribesAll(mid, req.conn, req.names, ok, h');
      SubscribesAllCalls(mid, req.conn, req.names, ok, h');
    }
  }

  // ---------- results ----------

  /** Replacement: a successful SubscribeToCell leaves exactly the new channels. */
  lemma VisitReplaces(h: Hub, conn: Connection, names: seq<string>, h': Hub)
    requires Visits(h, conn, names, true, h')
    ensures h'.Held(conn) == (set n | n in names)
    ensures Mirrored(h) ==> Mirrored(h') && (conn in h'.connections <==> names != [])
  {
    var mid :| Unsubscribes(h, conn, true, mid) && SubscribesAll(mid, conn, names, true, h');
    AddedAllHolds(mid, conn, names);
    if Mirrored(h) {
      VisitMirrored(h, conn, names, true, h');
      if names != [] {
        assert names[0] in h'.Held(conn);
      }
    }
  }

  lemma {:induction false} AddedAllWatches(h: Hub, conn: Connection, names: seq<string>)
    ensures forall n :: n in names ==> conn in AddedAll(h, conn, names).Watchers(n)
    decreases |names|
  {
    if names != [] {
      var init, last := names[..|names| - 1], names[|names| - 1];
      AddedAllWatches(h, conn, init);
      assert names == init + [last];
    }
  }

  /** Whatever failed before, a SubscribeToCell that reports success hands the connection all the channels. */
  lemma VisitHands(h: Hub, conn: Connection, names: seq<string>, h': Hub)
    requires Visits(h, conn, names, true, h')
    ensures forall n :: n in names ==> conn in h'.Watchers(n)
  {
    var mid :| Unsubscribes(h, conn, true, mid) && SubscribesAll(mid, conn, names, true, h');
    AddedAllWatches(mid, conn, names);
  }

  /**
   * Subscribe reports success exactly when the connection is then handed the channel, and records the
   * channel either way. Without unsubscribing first, it keeps all other channels.
   */
  lemma JoinReports(h: Hub, conn: Connection, channel: string, replace: bool, ok: bool, h': Hub)
    requires Joins(h, conn, channel, replace, ok, h')
    ensures ok <==> conn in h'.Watchers(channel)
    ensures channel in h'.Held(conn)
    ensures !replace ==> h'.Held(conn) == h.Held(conn) + {channel}
    ensures !replace ==> forall ch :: ch != channel ==> h'.Watchers(ch) == h.Watchers(ch)
  {
  }

  /** A successful Unsubscribe clears the connection out of both indexes, whatever failed before. */
  lemma LeaveClears(h: Hub, conn: Connection, h': Hub)
    requires Recorded(h) && Unsubscribes(h, conn, true, h')
    ensures conn !in h'.connections
    ensures forall ch :: conn !in h'.Watchers(ch)
  {
    var done: set<string> :| UnsubscribesFrom(h, conn, done, true, h');
    forall ch ensures conn !in h'.Watchers(ch) {
      DetachWatchers(h, conn, done, true, h', ch);
      assert conn in h.Watchers(ch) ==> ch in h.Held(conn);
    }
  }

  /**
   * A Subscribe that reports success makes the channel's messages arrive exactly when the channel
   * was not open yet or was live: nobody asks the backend again for a channel that is open.
   */
  lemma SubscribeDeliversIff(h: Hub, conn: Connection, channel: string, h': Hub)
    requires Subscribes(h, conn, channel, true, h')
    ensures h'.Receives(conn, channel) <==> channel !in h.channels || channel in Live(h.calls)
  {
    if channel !in h.channels {
      assert h'.calls[..|h'.calls| - 1] == h.calls;
    }
  }

  /** So one refused subscribe leaves the channel silent for whoever joins it next. */
  lemma RefusalSilencesChannel(a: Connection, b: Connection, channel: string, h: Hub, h': Hub)
    requires Subscribes(EMPTY_HUB, a, channel, false, h) && Subscribes(h, b, channel, true, h')
    ensures b in h'.Watchers(channel) && !h'.Receives(b, channel)
  {
    var refused := Call(SubscribeCall, channel, false);
    assert [refused][..0] == [] && Live([refused]) == Live([refused][..0]) == {};
    assert h.calls == [refused];
    SubscribeDeliversIff(h, b, channel, h');
  }

  // ---------- exactly when the mirror survives ----------

  lemma LeaveMirrored(h: Hub, conn: Connection, ok: bool, h': Hub)
    requires Mirrored(h) && Unsubscribes(h, conn, ok, h')
    ensures Mirrored(h') <==> ok
  {
    var done: set<string> :| UnsubscribesFrom(h, conn, done, ok, h');
    UnsubscribeMirrored(h, conn, done, ok, h');
  }

  lemma VisitMirrored(h: Hub, conn: Connection, names: seq<string>, ok: bool, h': Hub)
    requires Mirrored(h) && Visits(h, conn, names, ok, h')
    ensures Mirrored(h') <==> ok
  {
    if !ok && Unsubscribes(h, conn, false, h') {
      LeaveMirrored(h, conn, false, h');
    } else {
      var mid :| Unsubscribes(h, conn, true, mid) && SubscribesAll(mid, conn, names, ok, h');
      LeaveMirrored(h, conn, true, mid);
      if ok {
        AddedAllKeeps(mid, conn, names);
      } else {
        var k: nat :| StopsAt(mid, conn, names, k, h');
        AddedAllKeeps(mid, conn, names[..k]);
        AddedMirrored(AddedAll(mid, conn, names[..k]), conn, names[k], false);
      }
    }
  }

  /**
   * Subscribe ignores a failed unsubscribe half. The mirror then survives only in one case: the
   * half had reached no channel but the very one that is subscribed to again.
   */
  lemma JoinMirrored(h: Hub, conn: Connection, channel: string,
                     done: set<string>, freed: bool, mid: Hub, ok: bool, h': Hub)
    requires Mirrored(h) && UnsubscribesFrom(h, conn, done, freed, mid) && Subscribes(mid, conn, channel, ok, h')
    ensures Mirrored(h') <==> ok && (freed || done == {channel})
  {
    UnsubscribeMirrored(h, conn, done, freed, mid);
    if !ok {
      assert channel in h'.channels && h'.channels[channel] == {};
    } else if freed {
      AddedMirrored(mid, conn, channel, ok);
    } else if done == {channel} {
      forall c, ch ensures c in h'.Watchers(ch) <==> ch in h'.Held(c) {
        DetachWatchers(h, conn, done, freed, mid, ch);
        assert c in h.Watchers(ch) <==> ch in h.Held(c);
      }
    } else {
      FailedCallIsOwed(mid.calls[|h.calls|..], Emptied(h, conn, done));
      var x :| x in done && x != channel;
      DetachWatchers(h, conn, done, freed, mid, x);
      assert x in h'.Held(conn) && conn !in h'.Watchers(x);
    }
  }

  // ---------- runs ----------

  datatype Step = Step(req: Request, ok: bool)

  /** A run: every state comes from the one before by one request. */
  ghost predicate Run(states: seq<Hub>, steps: seq<Step>) {
    && |states| == |steps| + 1
    && forall i :: 0 <= i < |steps| ==> Performs(states[i], steps[i].req, steps[i].ok, states[i + 1])
  }

  lemma LeaveRecorded(h: Hub, conn: Connection, ok: bool, h': Hub)
    requires Recorded(h) && Unsubscribes(h, conn, ok, h')
    ensures Recorded(h')
  {
    var done: set<string> :| UnsubscribesFrom(h, conn, done, ok, h');
    UnsubscribeRecorded(h, conn, done, ok, h');
  }

  lemma PerformsRecorded(h: Hub, req: Request, ok: bool, h': Hub)
    requires Recorded(h) && Performs(h, req, ok, h')
    ensures Recorded(h')
  {
    var conn := req.conn;
    match req
    case Leave(_) =>
      LeaveRecorded(h, conn, ok, h');
    case Join(_, channel, replace) =>
      if replace {
        var freed, mid :| Unsubscribes(h, conn, freed, mid) && Subscribes(mid, conn, channel, ok, h');
        LeaveRecorded(h, conn, freed, mid);
        AddedRecorded(mid, conn, channel, ok);
      } else {
        AddedRecorded(h, conn, channel, ok);
      }
    case Visit(_, names) =>
      if !ok && Unsubscribes(h, conn, false, h') {
        LeaveRecorded(h, conn, false, h');
      } else {
        var mid :| Unsubscribes(h, conn, true, mid) && SubscribesAll(mid, conn, names, ok, h');
        LeaveRecorded(h, conn, true, mid);
        if ok {
          AddedAllKeeps(mid, conn, names);
        } else {
          var k: nat :| StopsAt(mid, conn, names, k, h');
          AddedAllKeeps(mid, conn, names[..k]);
          AddedRecorded(AddedAll(mid, conn, names[..k]), conn, names[k], false);
        }
      }
  }

  lemma LeaveTraced(h: Hub, conn: Connection, ok: bool, h': Hub)
    requires Traced(h) && Unsubscribes(h, conn, ok, h')
    ensures Traced(h')
  {
    var done: set<string> :| UnsubscribesFrom(h, conn, done, ok, h');
    UnsubscribeTraced(h, conn, done, ok, h');
  }

  lemma PerformsTraced(h: Hub, req: Request, ok: bool, h': Hub)
    requires Traced(h) && Performs(h, req, ok, h')
    ensures Traced(h')
  {
    var conn := req.conn;
    match req
    case Leave(_) =>
      LeaveTraced(h, conn, ok, h');
    case Join(_, channel, replace) =>
      if replace {
        var freed, mid :| Unsubscribes(h, conn, freed, mid) && Subscribes(mid, conn, channel, ok, h');
        LeaveTraced(h, conn, freed, mid);
        AddedTraced(mid, conn, channel, ok);
      } else {
        AddedTraced(h, conn, channel, ok);
      }
    case Visit(_, names) =>
      if !ok && Unsubscribes(h, conn, false, h') {
        LeaveTraced(h, conn, false, h');
      } else {
        var mid :| Unsubscribes(h, conn, true, mid) && SubscribesAll(mid, conn, names, ok, h');
        LeaveTraced(h, conn, true, mid);
        if ok {
          AddedAllTraced(mid, conn, names);
        } else {
          var k: nat :| StopsAt(mid, conn, names, k, h');
          AddedAllTraced(mid, conn, names[..k]);
          AddedTraced(AddedAll(mid, conn, names[..k]), conn, names[k], false);
        }
      }
  }

  lemma NoErrorsBefore(a: seq<Call>, b: seq<Call>)
    requires a <= b && NoErrors(b)
    ensures NoErrors(a)
  {
    forall i | 0 <= i < |a| ensures a[i].ok {
      assert a[i] == b[i];
    }
  }

  lemma LeaveStrong(h: Hub, conn: Connection, ok: bool, h': Hub)
    requires Strong(h) && Unsubscribes(h, conn, ok, h') && NoErrors(h'.calls)
    ensures ok && Strong(h')
  {
    var done: set<string> :| UnsubscribesFrom(h, conn, done, ok, h');
    var batch := h'.calls[|h.calls|..];
    assert FailedAt(batch) == {} by {
      if batch != [] {
        assert batch[|batch| - 1] == h'.calls[|h'.calls| - 1];
      }
    }
    UnsubscribeMirrored(h, conn, done, ok, h');
    UnsubscribeDisciplined(h, conn, done, h');
  }

  lemma SubscribeStrong(h: Hub, conn: Connection, channel: string, ok: bool, h': Hub)
    requires Strong(h) && Subscribes(h, conn, channel, ok, h') && NoErrors(h'.calls)
    ensures ok && Strong(h')
  {
    assert channel !in h.channels ==> h'.calls[|h.calls|].ok == ok;
    AddedMirrored(h, conn, channel, ok);
    AddedDisciplined(h, conn, channel);
  }

  lemma PerformsStrong(h: Hub, req: Request, ok: bool, h': Hub)
    requires Strong(h) && Performs(h, req, ok, h') && NoErrors(h'.calls)
    ensures ok && Strong(h')
  {
    var conn := req.conn;
    match req
    case Leave(_) =>
      LeaveStrong(h, conn, ok, h');
    case Join(_, channel, replace) =>
      if replace {
        var freed, mid :| Unsubscribes(h, conn, freed, mid) && Subscribes(mid, conn, channel, ok, h');
        NoErrorsBefore(mid.calls, h'.calls);
        LeaveStrong(h, conn, freed, mid);
        SubscribeStrong(mid, conn, channel, ok, h');
      } else {
        SubscribeStrong(h, conn, channel, ok, h');
      }
    case Visit(_, names) =>
      if !ok && Unsubscribes(h, conn, false, h') {
        LeaveStrong(h, conn, false, h');
      } else {
        var mid :| Unsubscribes(h, conn, true, mid) && SubscribesAll(mid, conn, names, ok, h');
        SubscribesAllCalls(mid, conn, names, ok, h');
        NoErrorsBefore(mid.calls, h'.calls);
        LeaveStrong(h, conn, true, mid);
        if ok {
          AddedAllKeeps(mid, conn, names);
        } else {
          var k: nat :| StopsAt(mid, conn, names, k, h');
          AddedAllKeeps(mid, conn, names[..k]);
          SubscribeStrong(AddedAll(mid, conn, names[..k]), conn, names[k], false, h');
        }
      }
  }

  /** Any run, any errors: dispatch targets are recorded, every open channel is recorded by somebody. */
  lemma {:induction false} RunKeepsRecorded(states: seq<Hub>, steps: seq<Step>, i: nat)
    requires Run(states, steps) && states[0] == EMPTY_HUB && i < |states|
    ensures Recorded(states[i])
    decreases i
  {
    if i > 0 {
      RunKeepsRecorded(states, steps, i - 1);
      PerformsRecorded(states[i - 1], steps[i - 1].req, steps[i - 1].ok, states[i]);
    }
  }

  /** Any run, any errors: a channel is open exactly when the last call made for it was a subscribe. */
  lemma {:induction false} RunKeepsTraced(states: seq<Hub>, steps: seq<Step>, i: nat)
    requires Run(states, steps) && states[0] == EMPTY_HUB && i < |states|
    ensures Traced(states[i])
    decreases i
  {
    if i > 0 {
      RunKeepsTraced(states, steps, i - 1);
      PerformsTraced(states[i - 1], steps[i - 1].req, steps[i - 1].ok, states[i]);
    }
  }

  /**
   * So in any run a watched channel delivers unless its last call, a subscribe, was refused at a time
   * when the backend did not deliver it anyway.
   */
  lemma RunReceivesIff(states: seq<Hub>, steps: seq<Step>, i: nat, conn: Connection, channel: string)
    requires Run(states, steps) && states[0] == EMPTY_HUB && i < |states|
    requires conn in states[i].Watchers(channel)
    ensures
      var mine := CallsFor(states[i].calls, channel);
      && mine != [] && mine[|mine| - 1].kind == SubscribeCall
      && (states[i].Receives(conn, channel) <==> mine[|mine| - 1].ok || Up(mine[..|mine| - 1]))
  {
    RunKeepsTraced(states, steps, i);
    assert Asked(states[i].calls, channel);
    LiveByChannel(states[i].calls, channel);
  }

  lemma {:induction false} RunCallsGrow(states: seq<Hub>, steps: seq<Step>, i: nat)
    requires Run(states, steps) && i < |states|
    ensures states[i].calls <= states[|steps|].calls
    decreases |steps| - i
  {
    if i < |steps| {
      RunCallsGrow(states, steps, i + 1);
      CallsGrow(states[i], steps[i].req, steps[i].ok, states[i + 1]);
    }
  }

  /** Error-free run: the indexes mirror each other and the backend is subscribed to exactly the open channels. */
  lemma {:induction false} RunKeepsStrong(states: seq<Hub>, steps: seq<Step>, i: nat)
    requires Run(states, steps) && states[0] == EMPTY_HUB && i < |states|
    requires NoErrors(states[|steps|].calls)
    ensures Strong(states[i]) && Live(states[i].calls) == states[i].channels.Keys
    decreases i
  {
    if i > 0 {
      RunKeepsStrong(states, steps, i - 1);
      RunCallsGrow(states, steps, i);
      NoErrorsBefore(states[i].calls, states[|steps|].calls);
      PerformsStrong(states[i - 1], steps[i - 1].req, steps[i - 1].ok, states[i]);
    }
    BackendFollowsIndex(states[i]);
  }

  /** After a successful Unsubscribe nothing reaches the connection until it makes a request again. */
  lemma {:induction false} QuietAfterLeave(states: seq<Hub>, steps: seq<Step>, conn: Connection, channel: string,
                                           i: nat)
    requires Run(states, steps) && steps != [] && steps[0] == Step(Leave(conn), true)
    requires Recorded(states[0])
    requires 0 < i < |states| && forall j :: 0 < j < i ==> steps[j].req.conn != conn
    ensures !states[i].Receives(conn, channel) && states[i].Held(conn) == {}
    decreases i
  {
    if i == 1 {
      assert Performs(states[0], steps[0].req, steps[0].ok, states[1]);
      LeaveClears(states[0], conn, states[1]);
    } else {
      QuietAfterLeave(states, steps, conn, channel, i - 1);
      OthersReceive(states[i - 1], steps[i - 1].req, steps[i - 1].ok, states[i], conn, channel);
    }
  }
}
