/** The pub/sub backend as the Subscriber sees it: the log of calls made to it. */
module Backend {

  datatype Kind = SubscribeCall | UnsubscribeCall

  /** One call on the backend connection and whether it succeeded. */
  datatype Call = Call(kind: Kind, channel: string, ok: bool)

  /** The channels the backend delivers after a log of calls; a failed call changes nothing. */
  function Live(calls: seq<Call>): set<string> {
    if calls == [] then {}
    else
      var before, last := Live(calls[..|calls| - 1]), calls[|calls| - 1];
      if !last.ok then before
      else if last.kind == SubscribeCall then before + {last.channel}
      else before - {last.channel}
  }

  /** A channel is delivered from an accepted subscribe until the next accepted unsubscribe. */
  lemma {:induction false} LiveAt(calls: seq<Call>, channel: string)
    ensures channel in Live(calls) <==>
      exists i :: 0 <= i < |calls| && LiveFrom(calls, channel, i)
    decreases |calls|
  {
    if calls != [] {
      var n := |calls| - 1;
      var init, last := calls[..n], calls[n];
      LiveAt(init, channel);
      if last != Call(UnsubscribeCall, channel, true) {
        assert forall i :: 0 <= i < n && LiveFrom(init, channel, i) ==> LiveFrom(calls, channel, i);
      }
      assert forall i :: 0 <= i < n && LiveFrom(calls, channel, i) ==> LiveFrom(init, channel, i);
      assert last == Call(SubscribeCall, channel, true) <==> LiveFrom(calls, channel, n);
    }
  }

  /** Call i is an accepted subscribe that no accepted unsubscribe has ended. */
  predicate LiveFrom(calls: seq<Call>, channel: string, i: int) {
    && 0 <= i < |calls| && calls[i] == Call(SubscribeCall, channel, true)
    && forall j :: i < j < |calls| ==> calls[j] != Call(UnsubscribeCall, channel, true)
  }

  predicate NoErrors(calls: seq<Call>) {
    forall i :: 0 <= i < |calls| ==> calls[i].ok
  }

  /** The calls that concern one channel, in order. */
  function CallsFor(calls: seq<Call>, channel: string): (r: seq<Call>)
    ensures forall i :: 0 <= i < |r| ==> r[i].channel == channel && r[i] in calls
  {
    if calls == [] then []
    else
      var last := calls[|calls| - 1];
      CallsFor(calls[..|calls| - 1], channel) + (if last.channel == channel then [last] else [])
  }

  lemma CallsForNext(calls: seq<Call>, last: Call, channel: string)
    ensures CallsFor(calls + [last], channel)
         == CallsFor(calls, channel) + (if last.channel == channel then [last] else [])
  {
    assert (calls + [last])[..|calls|] == calls;
  }

  lemma {:induction false} CallsForSplit(a: seq<Call>, b: seq<Call>, channel: string)
    ensures CallsFor(a + b, channel) == CallsFor(a, channel) + CallsFor(b, channel)
    decreases |b|
  {
    if b == [] {
      assert a + b == a;
    } else {
      CallsForSplit(a, b[..|b| - 1], channel);
      assert (a + b)[..|a + b| - 1] == a + b[..|b| - 1];
    }
  }

  /** Whether a channel is live, judged from the calls for that channel alone. */
  predicate Up(calls: seq<Call>) {
    calls != [] &&
    var last := calls[|calls| - 1];
    if last.ok then last.kind == SubscribeCall else Up(calls[..|calls| - 1])
  }

  /** Calls for other channels do not matter to a channel. */
  lemma {:induction false} LiveByChannel(calls: seq<Call>, channel: string)
    ensures channel in Live(calls) <==> Up(CallsFor(calls, channel))
    decreases |calls|
  {
    if calls != [] {
      var init, last := calls[..|calls| - 1], calls[|calls| - 1];
      LiveByChannel(init, channel);
      if last.channel == channel {
        var p := CallsFor(calls, channel);
        assert p[..|p| - 1] == CallsFor(init, channel);
      } else {
        assert CallsFor(calls, channel) == CallsFor(init, channel);
      }
    }
  }

  /** Successful calls that start with a subscribe and then take turns. */
  predicate TakesTurns(calls: seq<Call>, channel: string) {
    forall i :: 0 <= i < |calls| ==>
      calls[i] == Call(if i % 2 == 0 then SubscribeCall else UnsubscribeCall, channel, true)
  }

  function Count(calls: seq<Call>, kind: Kind): nat {
    if calls == [] then 0
    else Count(calls[..|calls| - 1], kind) + (if calls[|calls| - 1].kind == kind then 1 else 0)
  }

  /** Calls made minus calls undone is 0 or 1, and 1 exactly while the channel is up. */
  lemma {:induction false} TurnsBalance(calls: seq<Call>, channel: string)
    requires TakesTurns(calls, channel)
    ensures Count(calls, SubscribeCall) - Count(calls, UnsubscribeCall) == |calls| % 2
    ensures Up(calls) <==> |calls| % 2 == 1
    decreases |calls|
  {
    if calls != [] {
      TurnsBalance(calls[..|calls| - 1], channel);
    }
  }
}
