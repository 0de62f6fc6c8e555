/** What a request may come to, whatever the backend answers, told from the state before the call. */
module SubscriberOutcomes {
  import opened Backend
  import opened SubscriberSpec
  import opened SubscriberProps
  import opened SubscriberRuns

  /** The channels of a connection that it has to close when it leaves: nobody else watches them. */
  function Alone(h: Hub, conn: Connection): set<string> {
    set ch | ch in h.Held(conn) && h.Watchers(ch) <= {conn}
  }

  /** The request closes no channel and opens none. */
  predicate NeedsNoCall(h: Hub, req: Request) {
    match req
    case Leave(conn) => Alone(h, conn) == {}
    case Join(conn, channel, replace) => (replace ==> Alone(h, conn) == {}) && channel in h.channels
    case Visit(conn, names) => Alone(h, conn) == {} && forall n :: n in names ==> n in h.channels
  }

  // ---------- leaving ----------

  /** The backend may refuse to close any of those channels, be it the first one visited. */
  lemma LeaveMayFailAt(h: Hub, conn: Connection, ch: string) returns (h': Hub)
    requires ch in Alone(h, conn)
    ensures UnsubscribesFrom(h, conn, {ch}, false, h') && Unsubscribes(h, conn, false, h')
    ensures ch !in h'.channels
  {
    h' := Hub(h.connections, h.channels - {ch}, h.calls + [Call(UnsubscribeCall, ch, false)]);
    NoProgress(h, conn);
    NextProgress(h, conn, {}, h, ch, false, h');
    assert {} + {ch} == {ch};
    assert UnsubscribesFrom(h, conn, {ch}, false, h');
  }

  lemma LeaveMaySucceed(h: Hub, conn: Connection) returns (h': Hub)
    ensures Unsubscribes(h, conn, true, h')
  {
    var now, done, rest := h, {}, h.Held(conn);
    NoProgress(h, conn);
    while rest != {}
      invariant done !! rest && done + rest == h.Held(conn)
      invariant Progress(h, conn, done, true, now)
      decreases |rest|
    {
      var c :| c in rest;
      var next :=
        if now.Watchers(c) <= {conn} then
          Hub(now.connections, now.channels - {c}, now.calls + [Call(UnsubscribeCall, c, true)])
        else
          now.(channels := now.channels[c := now.Watchers(c) - {conn}]);
      NextProgress(h, conn, done, now, c, true, next);
      now, done, rest := next, done + {c}, rest - {c};
    }
    h' := now.(connections := now.connections - {conn});
    Conclude(h, conn, done, true, now, h');
  }

  /** An unsubscribe may fail exactly when the connection holds a channel nobody else watches. */
  lemma LeaveMayFailIff(h: Hub, conn: Connection)
    ensures (exists h' :: Unsubscribes(h, conn, false, h'))
       <==> exists ch :: ch in h.Held(conn) && h.Watchers(ch) <= {conn}
  {
    if h' :| Unsubscribes(h, conn, false, h') {
      var done: set<string> :| UnsubscribesFrom(h, conn, done, false, h');
      FailedCallIsOwed(h'.calls[|h.calls|..], Emptied(h, conn, done));
    }
    if ch :| ch in h.Held(conn) && h.Watchers(ch) <= {conn} {
      var h' := LeaveMayFailAt(h, conn, ch);
    }
  }

  lemma QuietLeave(h: Hub, conn: Connection, ok: bool, h': Hub)
    requires Mirrored(h) && Alone(h, conn) == {} && Unsubscribes(h, conn, ok, h')
    ensures ok && Mirrored(h') && h'.channels.Keys == h.channels.Keys && h'.calls == h.calls
  {
    LeaveMayFailIff(h, conn);
    assert forall ch :: ch in h.Held(conn) && h.Watchers(ch) <= {conn} ==> ch in Alone(h, conn);
    LeaveMirrored(h, conn, ok, h');
    var done: set<string> :| UnsubscribesFrom(h, conn, done, ok, h');
    NoCalls(h'.calls[|h.calls|..]);
  }

  lemma NoCalls(calls: seq<Call>)
    ensures calls == [] <==> forall ch :: CallsFor(calls, ch) == []
  {
    assert calls != [] ==> calls[|calls| - 1] in CallsFor(calls, calls[|calls| - 1].channel);
  }

  // ---------- subscribing ----------

  lemma {:induction false} QuietAdds(h: Hub, conn: Connection, names: seq<string>)
    requires forall n :: n in names ==> n in h.channels
    ensures AddedAll(h, conn, names).channels.Keys == h.channels.Keys && AddedAll(h, conn, names).calls == h.calls
    decreases |names|
  {
    if names != [] {
      QuietAdds(h, conn, names[..|names| - 1]);
    }
  }

  /** The first name whose channel is not open. */
  lemma FirstClosed(h: Hub, names: seq<string>) returns (k: nat)
    requires exists n :: n in names && n !in h.channels
    ensures k < |names| && names[k] !in h.channels && forall n :: n in names[..k] ==> n in h.channels
  {
    k := 0;
    while names[k] in h.channels
      invariant k < |names|
      invariant forall n :: n in names[..k] ==> n in h.channels
      invariant exists n :: n in names[k..] && n !in h.channels
      decreases |names| - k
    {
      assert names[k..] == [names[k]] + names[k + 1..];
      assert names[..k + 1] == names[..k] + [names[k]];
      k := k + 1;
    }
  }

  // ---------- the mirror over all outcomes ----------

  /** Such a request makes no backend call, succeeds and keeps the mirror. */
  lemma QuietKeepsMirror(h: Hub, req: Request, ok: bool, h': Hub)
    requires Mirrored(h) && NeedsNoCall(h, req) && Performs(h, req, ok, h')
    ensures ok && Mirrored(h') && h'.calls == h.calls
  {
    match req
    case Leave(conn) =>
      QuietLeave(h, conn, ok, h');
    case Join(conn, channel, replace) =>
      if replace {
        var freed, mid :| Unsubscribes(h, conn, freed, mid) && Subscribes(mid, conn, channel, ok, h');
        QuietLeave(h, conn, freed, mid);
        AddedMirrored(mid, conn, channel, ok);
      } else {
        AddedMirrored(h, conn, channel, ok);
      }
    case Visit(conn, names) =>
      if !ok && Unsubscribes(h, conn, false, h') {
        QuietLeave(h, conn, false, h');
      } else {
        var mid :| Unsubscribes(h, conn, true, mid) && SubscribesAll(mid, conn, names, ok, h');
        QuietLeave(h, conn, true, mid);
        if !ok {
          var k: nat :| StopsAt(mid, conn, names, k, h');
          QuietAdds(mid, conn, names[..k]);
          assert false;
        }
        AddedAllKeeps(mid, conn, names);
        QuietAdds(mid, conn, names);
      }
  }

  /** Any other request breaks it for some answer of the backend. */
  lemma JoinMayBreakMirror(h: Hub, conn: Connection, channel: string, replace: bool) returns (ok: bool, h': Hub)
    requires Mirrored(h) && !NeedsNoCall(h, Join(conn, channel, replace))
    ensures Joins(h, conn, channel, replace, ok, h') && !Mirrored(h')
  {
    if !replace {
      ok, h' := false, Added(h, conn, channel, false);
      AddedMirrored(h, conn, channel, false);
    } else if Alone(h, conn) == {} {
      var mid := LeaveMaySucceed(h, conn);
      QuietLeave(h, conn, true, mid);
      ok, h' := false, Added(mid, conn, channel, false);
      AddedMirrored(mid, conn, channel, false);
      assert Unsubscribes(h, conn, true, mid) && Subscribes(mid, conn, channel, false, h');
    } else {
      var ch :| ch in Alone(h, conn);
      var mid := LeaveMayFailAt(h, conn, ch);
      ok := ch != channel;
      h' := Added(mid, conn, channel, ok);
      JoinMirrored(h, conn, channel, {ch}, false, mid, ok, h');
      assert Unsubscribes(h, conn, false, mid) && Subscribes(mid, conn, channel, ok, h');
    }
  }

  lemma VisitMayBreakMirror(h: Hub, conn: Connection, names: seq<string>) returns (h': Hub)
    requires Mirrored(h) && !NeedsNoCall(h, Visit(conn, names))
    ensures Visits(h, conn, names, false, h') && !Mirrored(h')
  {
    if Alone(h, conn) == {} {
      var k := FirstClosed(h, names);
      var mid := LeaveMaySucceed(h, conn);
      QuietLeave(h, conn, true, mid);
      QuietAdds(mid, conn, names[..k]);
      h' := Added(AddedAll(mid, conn, names[..k]), conn, names[k], false);
      assert StopsAt(mid, conn, names, k, h');
      assert SubscribesAll(mid, conn, names, false, h');
    } else {
      var ch :| ch in Alone(h, conn);
      h' := LeaveMayFailAt(h, conn, ch);
    }
    VisitMirrored(h, conn, names, false, h');
  }

  /** The indexes mirror each other after whatever the backend answers exactly when it is not asked. */
  lemma MirrorKeptIff(h: Hub, req: Request)
    requires Mirrored(h)
    ensures (forall ok, h' :: Performs(h, req, ok, h') ==> Mirrored(h')) <==> NeedsNoCall(h, req)
  {
    if NeedsNoCall(h, req) {
      forall ok, h' | Performs(h, req, ok, h') ensures Mirrored(h') {
        QuietKeepsMirror(h, req, ok, h');
      }
    } else {
      match req
      case Leave(conn) =>
        var ch :| ch in Alone(h, conn);
        var h' := LeaveMayFailAt(h, conn, ch);
        LeaveMirrored(h, conn, false, h');
        assert Performs(h, req, false, h');
      case Join(conn, channel, replace) =>
        var ok, h' := JoinMayBreakMirror(h, conn, channel, replace);
        assert Performs(h, req, ok, h');
      case Visit(conn, names) =>
        var h' := VisitMayBreakMirror(h, conn, names);
        assert Performs(h, req, false, h');
    }
  }
}
