/** The outbound side of a websocket connection: a bounded queue and the pump that frames its messages. */
module WebSockets {
  import opened Framing
  import opened Json

  const CAPACITY := 100

  /** Where the pump stands; Exited has lost the messages it held. */
  datatype Pump =
    | Ready
    | Taken(first: Message)
    | Opened(first: Message)
    | Draining(batch: seq<Message>, left: nat)
    | Exited(lost: seq<Message>)

  /**
   * The queue, the pump, the text written to the open frame, the frames sent, and the history:
   * messages accepted and dropped by Write, and the batch behind each frame.
   */
  datatype Outbound = Outbound(queue: seq<Message>, pump: Pump, text: Message, wire: seq<Message>,
                               accepted: seq<Message>, dropped: seq<Message>, batches: seq<seq<Message>>)

  const FRESH := Outbound([], Ready, [], [], [], [], [])

  datatype Act = Write(m: Message) | Take | OpenWriter(ok: bool) | Snapshot | Drain | CloseWriter(ok: bool)
               | Ping(ok: bool)

  /** Write from any goroutine: enqueue if there is room, otherwise drop. */
  function Offer(s: Outbound, m: Message): Outbound {
    if |s.queue| < CAPACITY then s.(queue := s.queue + [m], accepted := s.accepted + [m])
    else s.(dropped := s.dropped + [m])
  }

  /** One atomic step; a blocked receive is a step that is not possible. */
  predicate Next(s: Outbound, act: Act, s': Outbound) {
    match act
    case Write(m) =>
      s' == Offer(s, m)
    case Take =>
      && s.pump == Ready && s.queue != []
      && s' == s.(pump := Taken(s.queue[0]), queue := s.queue[1..])
    case OpenWriter(ok) =>
      && s.pump.Taken?
      && s' == if ok then s.(pump := Opened(s.pump.first), text := [OPEN] + s.pump.first)
               else s.(pump := Exited([s.pump.first]))
    case Snapshot =>
      && s.pump.Opened?
      && s' == s.(pump := Draining([s.pump.first], |s.queue|))
    case Drain =>
      && s.pump.Draining? && s.pump.left > 0 && s.queue != []
      && s' == s.(pump := Draining(s.pump.batch + [s.queue[0]], s.pump.left - 1),
                  queue := s.queue[1..],
                  text := s.text + [COMMA] + s.queue[0])
    case CloseWriter(ok) =>
      && s.pump.Draining? && s.pump.left == 0
      && s' == if ok then s.(pump := Ready, wire := s.wire + [s.text + [CLOSE]], batches := s.batches + [s.pump.batch])
               else s.(pump := Exited(s.pump.batch))
    case Ping(ok) =>
      && s.pump == Ready
      && s' == if ok then s else s.(pump := Exited([]))
  }

  ghost predicate Run(states: seq<Outbound>, acts: seq<Act>) {
    && |states| == |acts| + 1 && states[0] == FRESH
    && forall i :: 0 <= i < |acts| ==> Next(states[i], acts[i], states[i + 1])
  }

  // ---------- the invariant ----------

  function Flatten(batches: seq<seq<Message>>): seq<Message> {
    if batches == [] then [] else Flatten(batches[..|batches| - 1]) + batches[|batches| - 1]
  }

  /** The messages taken from the queue and not yet sent. */
  function Holding(pump: Pump): seq<Message> {
    match pump
    case Ready => []
    case Taken(first) => [first]
    case Opened(first) => [first]
    case Draining(batch, _) => batch
    case Exited(lost) => lost
  }

  predicate FramesMatch(wire: seq<Message>, batches: seq<seq<Message>>) {
    && |wire| == |batches|
    && forall i :: 0 <= i < |wire| ==> 1 <= |batches[i]| <= CAPACITY + 1 && wire[i] == Frame(batches[i])
  }

  predicate PumpInBounds(s: Outbound) {
    match s.pump
    case Opened(first) => s.text == [OPEN] + first
    case Draining(batch, left) =>
      && 1 <= |batch| && |batch| + left <= CAPACITY + 1
      && left <= |s.queue| && s.text == [OPEN] + Join(batch)
    case _ => true
  }

  /** Nothing accepted is lost, repeated or reordered; the snapshot never exceeds the queue. */
  predicate Conserved(s: Outbound) {
    && |s.queue| <= CAPACITY
    && s.accepted == Flatten(s.batches) + Holding(s.pump) + s.queue
    && FramesMatch(s.wire, s.batches)
    && PumpInBounds(s)
  }

  lemma FlattenAppend(batches: seq<seq<Message>>, batch: seq<Message>)
    ensures Flatten(batches + [batch]) == Flatten(batches) + batch
  {
    assert (batches + [batch])[..|batches|] == batches;
  }

  lemma Moved(a: seq<Message>, b: seq<Message>, c: seq<Message>, x: Message)
    ensures a + (b + [x]) + c == a + b + ([x] + c)
    ensures a + b + c + [x] == a + b + (c + [x])
    ensures a + [] + ([x] + c) == a + [x] + c
  {
  }

  lemma WriteConserves(s: Outbound, m: Message)
    requires Conserved(s)
    ensures Conserved(Offer(s, m))
  {
    Moved(Flatten(s.batches), Holding(s.pump), s.queue, m);
  }

  lemma TakeConserves(s: Outbound, s': Outbound)
    requires Conserved(s) && Next(s, Take, s')
    ensures Conserved(s')
  {
    assert s.queue == [s.queue[0]] + s.queue[1..];
    Moved(Flatten(s.batches), [], s.queue[1..], s.queue[0]);
  }

  lemma DrainConserves(s: Outbound, s': Outbound)
    requires Conserved(s) && Next(s, Drain, s')
    ensures Conserved(s')
  {
    var batch, m := s.pump.batch, s.queue[0];
    assert s.queue == [m] + s.queue[1..];
    Moved(Flatten(s.batches), batch, s.queue[1..], m);
    JoinAppend(batch, m);
    assert s'.text == [OPEN] + Join(batch + [m]);
  }

  lemma CloseConserves(s: Outbound, s': Outbound)
    requires Conserved(s) && Next(s, CloseWriter(true), s')
    ensures Conserved(s')
  {
    FlattenAppend(s.batches, s.pump.batch);
    assert s.text + [CLOSE] == Frame(s.pump.batch);
    assert Flatten(s.batches) + s.pump.batch + s.queue == Flatten(s'.batches) + [] + s'.queue;
  }

  lemma NextConserves(s: Outbound, act: Act, s': Outbound)
    requires Conserved(s) && Next(s, act, s')
    ensures Conserved(s')
  {
    match act
    case Write(m) => WriteConserves(s, m);
    case Take => TakeConserves(s, s');
    case OpenWriter(_) =>
    case Snapshot =>
    case Drain => DrainConserves(s, s');
    case CloseWriter(ok) => if ok { CloseConserves(s, s'); }
    case Ping(_) =>
  }

  /** Conservation and order for every interleaving of Write calls with the pump. */
  lemma {:induction false} RunConserves(states: seq<Outbound>, acts: seq<Act>, i: nat)
    requires Run(states, acts) && i < |states|
    ensures Conserved(states[i]) && |states[i].queue| <= 100
    ensures forall k :: 0 <= k < |states[i].batches| ==> 1 <= |states[i].batches[k]| <= 101
    decreases i
  {
    if i > 0 {
      RunConserves(states, acts, i - 1);
      NextConserves(states[i - 1], acts[i - 1], states[i]);
    }
  }

  // ---------- what is accepted ----------

  /** A Write enqueues while fewer than 100 messages are queued, and drops otherwise; no other step does either. */
  lemma AcceptsWithRoom(s: Outbound, act: Act, s': Outbound)
    requires Next(s, act, s')
    ensures act.Write? && |s.queue| < 100 ==>
      s'.queue == s.queue + [act.m] && s'.accepted == s.accepted + [act.m] && s'.dropped == s.dropped
    ensures act.Write? && |s.queue| >= 100 ==>
      s'.queue == s.queue && s'.accepted == s.accepted && s'.dropped == s.dropped + [act.m]
    ensures act.Write? ==> s'.pump == s.pump && s'.text == s.text && s'.wire == s.wire && s'.batches == s.batches
    ensures !act.Write? ==> s'.accepted == s.accepted && s'.dropped == s.dropped && |s'.queue| <= |s.queue|
  {
  }

  /** The messages of the writes among the first n acts that found fewer than 100 queued, or else that did not. */
  function Written(states: seq<Outbound>, acts: seq<Act>, n: nat, room: bool): seq<Message>
    requires n <= |acts| <= |states|
  {
    if n == 0 then []
    else
      Written(states, acts, n - 1, room)
      + if acts[n - 1].Write? && (|states[n - 1].queue| < 100 <==> room) then [acts[n - 1].m] else []
  }

  function Writes(acts: seq<Act>): nat {
    if acts == [] then 0 else Writes(acts[..|acts| - 1]) + (if acts[|acts| - 1].Write? then 1 else 0)
  }

  /** In any run exactly the writes that found room are accepted, in order, and exactly the others dropped. */
  lemma {:induction false} RunAccepts(states: seq<Outbound>, acts: seq<Act>, n: nat)
    requires Run(states, acts) && n <= |acts|
    ensures states[n].accepted == Written(states, acts, n, true)
    ensures states[n].dropped == Written(states, acts, n, false)
    ensures |states[n].accepted| + |states[n].dropped| == Writes(acts[..n])
    decreases n
  {
    if n > 0 {
      RunAccepts(states, acts, n - 1);
      AcceptsWithRoom(states[n - 1], acts[n - 1], states[n]);
    }
    EveryWriteOnce(states, acts, n);
  }

  lemma {:induction false} EveryWriteOnce(states: seq<Outbound>, acts: seq<Act>, n: nat)
    requires n <= |acts| <= |states|
    ensures |Written(states, acts, n, true)| + |Written(states, acts, n, false)| == Writes(acts[..n])
  {
    if n > 0 {
      EveryWriteOnce(states, acts, n - 1);
      assert acts[..n][..n - 1] == acts[..n - 1];
    }
  }

  /** Between a snapshot and the close, what is in the frame and what is left to take is what was queued then. */
  lemma {:induction false} DrainsSnapshot(states: seq<Outbound>, acts: seq<Act>, i: nat, j: nat)
    requires Run(states, acts) && i < j <= |acts| && acts[i] == Snapshot
    requires forall k :: i < k < j ==> acts[k].Write? || acts[k].Drain?
    ensures states[i].pump.Opened?
    ensures states[j].pump.Draining? && states[j].batches == states[i].batches && states[j].wire == states[i].wire
    ensures
      var all := [states[i].pump.first] + states[i].queue;
      && |states[j].pump.batch| + states[j].pump.left == |all|
      && states[j].pump.batch == all[..|states[j].pump.batch|]
      && all[|states[j].pump.batch|..] <= states[j].queue
    decreases j
  {
    assert Next(states[i], acts[i], states[i + 1]);
    assert Next(states[j - 1], acts[j - 1], states[j]);
    if i < j - 1 {
      DrainsSnapshot(states, acts, i, j - 1);
      SnapshotNext([states[i].pump.first] + states[i].queue, states[j - 1], acts[j - 1], states[j]);
    }
  }

  /** So the frame sent holds the message taken first and exactly what was queued at the snapshot, in order. */
  lemma {:induction false} FrameIsSnapshot(states: seq<Outbound>, acts: seq<Act>, i: nat, j: nat)
    requires Run(states, acts) && i < j < |acts| && acts[i] == Snapshot && acts[j] == CloseWriter(true)
    requires forall k :: i < k < j ==> acts[k].Write? || acts[k].Drain?
    ensures states[i].pump.Opened?
    ensures states[j + 1].wire == states[i].wire + [Frame([states[i].pump.first] + states[i].queue)]
  {
    DrainsSnapshot(states, acts, i, j);
    assert Next(states[j], acts[j], states[j + 1]);
    RunConserves(states, acts, j);
    var all := [states[i].pump.first] + states[i].queue;
    assert all[..|all|] == all;
  }

  lemma SnapshotNext(all: seq<Message>, s: Outbound, act: Act, s': Outbound)
    requires Next(s, act, s') && (act.Write? || act.Drain?) && s.pump.Draining?
    requires |s.pump.batch| + s.pump.left == |all| && s.pump.batch == all[..|s.pump.batch|]
    requires all[|s.pump.batch|..] <= s.queue
    ensures s'.pump.Draining? && s'.batches == s.batches && s'.wire == s.wire
    ensures |s'.pump.batch| + s'.pump.left == |all| && s'.pump.batch == all[..|s'.pump.batch|]
    ensures all[|s'.pump.batch|..] <= s'.queue
  {
    if act.Drain? {
      var n := |s.pump.batch|;
      assert s.queue[0] == all[n..][0] == all[n];
      assert all[n + 1..] == all[n..][1..] <= s.queue[1..];
    }
  }

  /** A step drops a message exactly when it is a Write that finds the queue full. */
  lemma DropsWhenFull(states: seq<Outbound>, acts: seq<Act>, i: nat)
    requires Run(states, acts) && i < |acts|
    ensures states[i + 1].dropped != states[i].dropped <==> acts[i].Write? && |states[i].queue| == CAPACITY
  {
    RunConserves(states, acts, i);
    assert Next(states[i], acts[i], states[i + 1]);
  }

  /** The inner drain never blocks: while messages are left to take, one is queued. */
  lemma DrainNeverBlocks(states: seq<Outbound>, acts: seq<Act>, i: nat)
    requires Run(states, acts) && i < |states|
    requires states[i].pump.Draining? && states[i].pump.left > 0
    ensures exists s' :: Next(states[i], Drain, s')
  {
    RunConserves(states, acts, i);
    var s := states[i];
    assert Next(s, Drain, s.(pump := Draining(s.pump.batch + [s.queue[0]], s.pump.left - 1),
                             queue := s.queue[1..], text := s.text + [COMMA] + s.queue[0]));
  }

  /** The pump is never stuck: unless it has exited, or waits with an empty queue, its next step is possible. */
  lemma PumpGoesOn(states: seq<Outbound>, acts: seq<Act>, i: nat)
    requires Run(states, acts) && i < |states|
    requires !states[i].pump.Exited? && !(states[i].pump == Ready && states[i].queue == [])
    ensures exists act: Act, s' :: !act.Write? && Next(states[i], act, s') && s'.pump != states[i].pump
  {
    RunConserves(states, acts, i);
    var s := states[i];
    match s.pump
    case Ready =>
      assert Next(s, Take, s.(pump := Taken(s.queue[0]), queue := s.queue[1..]));
    case Taken(first) =>
      assert Next(s, OpenWriter(true), s.(pump := Opened(first), text := [OPEN] + first));
    case Opened(first) =>
      assert Next(s, Snapshot, s.(pump := Draining([first], |s.queue|)));
    case Draining(batch, left) =>
      if left > 0 {
        DrainNeverBlocks(states, acts, i);
      } else {
        assert Next(s, CloseWriter(true),
                    s.(pump := Ready, wire := s.wire + [s.text + [CLOSE]], batches := s.batches + [batch]));
      }
  }

  // ---------- what the client sees ----------

  /** The messages a client gets by splitting every frame. */
  function Seen(wire: seq<Message>): seq<Message>
    requires forall i :: 0 <= i < |wire| ==> |wire[i]| >= 2
  {
    if wire == [] then [] else Seen(wire[..|wire| - 1]) + Unframe(wire[|wire| - 1])
  }

  lemma {:induction false} SeenFlat(wire: seq<Message>, batches: seq<seq<Message>>)
    requires FramesMatch(wire, batches)
    requires forall i, j :: 0 <= i < |batches| && 0 <= j < |batches[i]| ==> IsJson(batches[i][j])
    ensures forall i :: 0 <= i < |wire| ==> |wire[i]| >= 2
    ensures Seen(wire) == Flatten(batches)
    decreases |wire|
  {
    if wire != [] {
      var n := |wire| - 1;
      SeenFlat(wire[..n], batches[..n]);
      JsonFrame(batches[n]);
      forall i | 0 <= i < |wire| ensures |wire[i]| >= 2 {
        assert wire[i] == Frame(batches[i]);
      }
    }
  }

  lemma {:induction false} FlattenHas(batches: seq<seq<Message>>, i: nat, j: nat)
    requires i < |batches| && j < |batches[i]|
    ensures batches[i][j] in Flatten(batches)
    decreases |batches|
  {
    if i < |batches| - 1 {
      FlattenHas(batches[..|batches| - 1], i, j);
    }
  }

  /**
   * End to end: if every accepted message is a JSON text, then what a client splits out of the
   * frames is, at any moment of any run, a prefix of the accepted messages in their order.
   */
  lemma ClientSeesPrefix(states: seq<Outbound>, acts: seq<Act>, i: nat)
    requires Run(states, acts) && i < |states|
    requires forall m :: m in states[i].accepted ==> IsJson(m)
    ensures forall k :: 0 <= k < |states[i].wire| ==> |states[i].wire[k]| >= 2
    ensures Seen(states[i].wire) <= states[i].accepted
    ensures states[i].accepted == Seen(states[i].wire) + Holding(states[i].pump) + states[i].queue
  {
    RunConserves(states, acts, i);
    var s := states[i];
    forall k, j | 0 <= k < |s.batches| && 0 <= j < |s.batches[k]|
      ensures IsJson(s.batches[k][j])
    {
      FlattenHas(s.batches, k, j);
    }
    SeenFlat(s.wire, s.batches);
  }

  /** Taking the next message of what was queued, while later messages join the queue. */
  lemma QueuedNext(first: Message, queued: seq<Message>, i: nat, send: seq<Message>, send': seq<Message>)
    requires i < |queued| && queued[i..] <= send && send[1..] <= send'
    ensures [first] + queued[..i] + [send[0]] == [first] + queued[..i + 1]
    ensures queued[i + 1..] <= send'
  {
    assert send[0] == queued[i..][0];
    assert queued[i + 1..] == queued[i..][1..] <= send[1..];
  }

  // ---------- the connection ----------

  class WebSocketConnection {
    // The messages accepted and not yet taken by the pump
    var send: seq<Message>
    // The frames written to the websocket
    var wire: seq<Message>
    // The text of the frame being written
    var text: Message
    ghost var pump: Pump
    ghost var accepted: seq<Message>
    ghost var dropped: seq<Message>
    ghost var batches: seq<seq<Message>>

    ghost function View(): Outbound
      reads this
    {
      Outbound(send, pump, text, wire, accepted, dropped, batches)
    }

    constructor ()
      ensures View() == FRESH && Conserved(View())
    {
      send, wire, text := [], [], [];
      pump, accepted, dropped, batches := Ready, [], [], [];
    }

    method Write(message: Message)
      modifies this`send, this`accepted, this`dropped
      ensures View() == Offer(old(View()), message)
      ensures old(|send|) < 100 ==>
        send == old(send) + [message] && accepted == old(accepted) + [message] && dropped == old(dropped)
      ensures old(|send|) >= 100 ==>
        send == old(send) && accepted == old(accepted) && dropped == old(dropped) + [message]
    {
      if |send| < CAPACITY {
        send, accepted := send + [message], accepted + [message];
      } else {
        dropped := dropped + [message];
      }
    }

    /** Other goroutines write any number of messages. */
    method Interfere()
      requires Conserved(View())
      modifies this`send, this`accepted, this`dropped
      ensures Conserved(View())
      ensures old(send) <= send && old(accepted) <= accepted
    {
      var n: nat :| true;
      for i := 0 to n
        invariant Conserved(View())
        invariant old(send) <= send && old(accepted) <= accepted
      {
        var m: Message := *;
        ghost var s := View();
        Write(m);
        NextConserves(s, Act.Write(m), View());
      }
    }

    /** Move the oldest message into the frame, after other goroutines have written. */
    method DrainNext()
      requires Conserved(View()) && pump.Draining? && pump.left > 0
      modifies this`send, this`pump, this`text, this`accepted, this`dropped
      ensures Conserved(View()) && old(accepted) <= accepted
      ensures old(send) != [] && old(send)[1..] <= send
      ensures pump == Draining(old(pump.batch) + [old(send)[0]], old(pump.left) - 1)
    {
      Interfere();
      ghost var s := View();
      var next := send[0];
      text := text + [COMMA];
      text := text + next;
      send, pump := send[1..], Draining(pump.batch + [next], pump.left - 1);
      DrainConserves(s, View());
    }

    /** Add to the open frame exactly the messages the queue holds at the start; later ones wait. */
    method DrainQueue()
      requires Conserved(View()) && pump.Opened?
      modifies this`send, this`pump, this`text, this`accepted, this`dropped
      ensures Conserved(View()) && old(accepted) <= accepted
      ensures pump == Draining([old(pump.first)] + old(send), 0)
    {
      ghost var first, queued := pump.first, send;
      var n := |send|;
      pump := Draining([first], n);
      for i := 0 to n
        invariant Conserved(View()) && old(accepted) <= accepted
        invariant pump == Draining([first] + queued[..i], n - i) && queued[i..] <= send
      {
        ghost var before := send;
        DrainNext();
        QueuedNext(first, queued, i, before, send);
      }
    }

    /** Take the oldest message and open a frame with it. */
    method OpenFrame() returns (ok: bool)
      requires Conserved(View()) && pump == Ready && send != []
      modifies this`send, this`pump, this`text, this`accepted, this`dropped
      ensures Conserved(View()) && old(accepted) <= accepted
      ensures if ok then pump == Opened(old(send)[0]) && old(send)[1..] <= send else pump.Exited?
    {
      ghost var s := View();
      var message := send[0];
      send, pump := send[1..], Taken(message);
      TakeConserves(s, View());
      Interfere();
      ok := *;
      if !ok {
        pump := Exited([message]);
        return;
      }
      text, pump := [OPEN] + message, Opened(message);
    }

    /** Close the frame and send it. */
    method CloseFrame() returns (ok: bool)
      requires Conserved(View()) && pump.Draining? && pump.left == 0
      modifies this`pump, this`wire, this`batches
      ensures Conserved(View())
      ensures if ok then
          pump == Ready && batches == old(batches) + [old(pump.batch)]
          && old(pump.batch) != [] && wire == old(wire) + [Frame(old(pump.batch))]
        else
          pump.Exited? && wire == old(wire) && batches == old(batches)
    {
      ok := *;
      if !ok {
        pump := Exited(pump.batch);
        return;
      }
      ghost var s := View();
      wire, batches, pump := wire + [text + [CLOSE]], batches + [pump.batch], Ready;
      CloseConserves(s, View());
    }

    /**
     * One round of the pump for a message in the queue, with other goroutines writing in between.
     * A round that succeeds sends one frame, which begins with all that was queued at its start.
     */
    method PumpOnce() returns (ok: bool, ghost batch: seq<Message>)
      requires Conserved(View()) && pump == Ready && send != []
      modifies this
      ensures Conserved(View()) && old(accepted) <= accepted
      ensures if ok then
          && pump == Ready && batches == old(batches) + [batch]
          && old(send) <= batch && wire == old(wire) + [Frame(batch)]
        else
          pump.Exited? && wire == old(wire) && batches == old(batches)
    {
      batch := [];
      ok := FillFrame();
      if ok {
        Interfere();
        batch := pump.batch;
        ok := CloseFrame();
      }
    }

    /** Open a frame and move what is queued into it. */
    method FillFrame() returns (ok: bool)
      requires Conserved(View()) && pump == Ready && send != []
      modifies this`send, this`pump, this`text, this`accepted, this`dropped
      ensures Conserved(View()) && old(accepted) <= accepted
      ensures if ok then
          pump.Draining? && pump.left == 0 && old(send) <= pump.batch
        else
          pump.Exited?
    {
      ok := OpenFrame();
      if ok {
        Interfere();
        DrainQueue();
      }
    }
  }
}
