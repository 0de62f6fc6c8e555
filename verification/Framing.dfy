/** A frame of the outbound pump: messages between brackets, separated by commas, and how to split it. */
module Framing {
  import opened Bytes

  const COMMA: byte := 44
  const QUOTE: byte := 34
  const BACKSLASH: byte := 92
  const OPEN: byte := 91
  const CLOSE: byte := 93
  const OPEN_BRACE: byte := 123
  const CLOSE_BRACE: byte := 125

  type Message = seq<byte>

  /** The messages of a batch with commas between them. */
  function Join(batch: seq<Message>): Message
    requires batch != []
  {
    if |batch| == 1 then batch[0] else batch[0] + [COMMA] + Join(batch[1..])
  }

  function Frame(batch: seq<Message>): Message
    requires batch != []
  {
    [OPEN] + Join(batch) + [CLOSE]
  }

  lemma {:induction false} JoinAppend(batch: seq<Message>, m: Message)
    requires batch != []
    ensures Join(batch + [m]) == Join(batch) + [COMMA] + m
    decreases |batch|
  {
    if |batch| == 1 {
      assert (batch + [m])[1..] == [m];
    } else {
      JoinAppend(batch[1..], m);
      assert (batch + [m])[1..] == batch[1..] + [m];
      assert Join(batch + [m]) == batch[0] + [COMMA] + (Join(batch[1..]) + [COMMA] + m);
    }
  }

  /** Where message i begins in a frame. */
  function Offset(batch: seq<Message>, i: nat): (at: nat)
    requires i <= |batch|
    ensures at > 0 && (i > 0 ==> at > 1)
  {
    if i == 0 then 1 else Offset(batch, i - 1) + |batch[i - 1]| + 1
  }

  lemma {:induction false} JoinPrefix(batch: seq<Message>, i: nat)
    requires 0 < i <= |batch|
    ensures Join(batch[..i]) <= Join(batch) && |Join(batch[..i])| + 2 == Offset(batch, i)
    decreases |batch|
  {
    if i == |batch| {
      assert batch[..i] == batch;
      JoinSize(batch);
    } else {
      var init := batch[..|batch| - 1];
      JoinPrefix(init, i);
      assert init[..i] == batch[..i] && init + [batch[|batch| - 1]] == batch;
      JoinAppend(init, batch[|batch| - 1]);
      OffsetPrefix(init, batch, i);
    }
  }

  lemma {:induction false} OffsetPrefix(init: seq<Message>, batch: seq<Message>, i: nat)
    requires init <= batch && i <= |init|
    ensures Offset(init, i) == Offset(batch, i)
  {
    if i > 0 {
      OffsetPrefix(init, batch, i - 1);
    }
  }

  lemma {:induction false} JoinSize(batch: seq<Message>)
    requires batch != []
    ensures |Join(batch)| + 2 == Offset(batch, |batch|)
    decreases |batch|
  {
    if |batch| > 1 {
      var init := batch[..|batch| - 1];
      JoinSize(init);
      assert init + [batch[|batch| - 1]] == batch;
      JoinAppend(init, batch[|batch| - 1]);
      OffsetPrefix(init, batch, |init|);
    }
  }

  lemma {:induction false} JoinAt(batch: seq<Message>, i: nat)
    requires i < |batch|
    ensures Offset(batch, i) - 1 + |batch[i]| <= |Join(batch)|
    ensures Join(batch)[Offset(batch, i) - 1..][..|batch[i]|] == batch[i]
    ensures i > 0 ==> Join(batch)[Offset(batch, i) - 2] == 44
  {
    JoinPrefix(batch, i + 1);
    var upto, join, at := Join(batch[..i + 1]), Join(batch), Offset(batch, i) - 1;
    if i > 0 {
      JoinPrefix(batch, i);
      assert batch[..i + 1] == batch[..i] + [batch[i]];
      JoinAppend(batch[..i], batch[i]);
    } else {
      assert batch[..1] == [batch[0]];
    }
    assert upto[at..] == batch[i];
    assert join[at..][..|batch[i]|] == upto[at..];
  }

  /**
   * The bytes of a frame: an opening bracket, message i in its place and after a comma unless it is
   * the first, and a closing bracket after the last.
   */
  lemma {:induction false} FrameAt(batch: seq<Message>, i: nat)
    requires i < |batch|
    ensures |Frame(batch)| == Offset(batch, |batch|) && Offset(batch, i) + |batch[i]| < |Frame(batch)|
    ensures Frame(batch)[0] == 91 && Frame(batch)[|Frame(batch)| - 1] == 93
    ensures Frame(batch)[Offset(batch, i)..][..|batch[i]|] == batch[i]
    ensures i > 0 ==> Frame(batch)[Offset(batch, i) - 1] == 44
  {
    JoinSize(batch);
    JoinAt(batch, i);
    var at, join := Offset(batch, i) - 1, Join(batch);
    assert Frame(batch)[at + 1..][..|batch[i]|] == join[at..][..|batch[i]|];
  }

  // ---------- the scanner ----------

  /** Outside or inside a string, or inside just after a backslash, at a nesting depth. */
  datatype Scan = Out(depth: nat) | In(depth: nat) | Escaped(depth: nat)

  const NEUTRAL := Out(0)

  function Step(s: Scan, b: byte): Scan {
    match s
    case Out(d) =>
      if b == QUOTE then In(d)
      else if b == OPEN || b == OPEN_BRACE then Out(d + 1)
      else if b == CLOSE || b == CLOSE_BRACE then Out(if d == 0 then 0 else d - 1)
      else s
    case In(d) => if b == QUOTE then Out(d) else if b == BACKSLASH then Escaped(d) else s
    case Escaped(d) => In(d)
  }

  function Run(s: Scan, t: Message): Scan
    decreases |t|
  {
    if t == [] then s else Run(Step(s, t[0]), t[1..])
  }

  /** A comma that separates at depth d or above. */
  predicate Separates(s: Scan, b: byte, d: nat) {
    b == COMMA && s.Out? && s.depth <= d
  }

  /** No comma of t, scanned from s, separates at depth d or above. */
  predicate Quiet(s: Scan, t: Message, d: nat)
    decreases |t|
  {
    t != [] ==> !Separates(s, t[0], d) && Quiet(Step(s, t[0]), t[1..], d)
  }

  /** Cut a text at its top level commas. */
  function Split(s: Scan, t: Message): (r: seq<Message>)
    ensures r != []
    decreases |t|
  {
    if t == [] then [[]]
    else if Separates(s, t[0], 0) then [[]] + Split(s, t[1..])
    else
      var r := Split(Step(s, t[0]), t[1..]);
      [[t[0]] + r[0]] + r[1..]
  }

  /** The batch inside a frame. */
  function Unframe(frame: Message): seq<Message>
    requires |frame| >= 2
  {
    Split(NEUTRAL, frame[1..|frame| - 1])
  }

  lemma {:induction false} RunConcat(s: Scan, a: Message, b: Message, d: nat)
    ensures Run(s, a + b) == Run(Run(s, a), b)
    ensures Quiet(s, a + b, d) <==> Quiet(s, a, d) && Quiet(Run(s, a), b, d)
    decreases |a|
  {
    if a == [] {
      assert a + b == b;
    } else {
      RunConcat(Step(s, a[0]), a[1..], b, d);
      assert (a + b)[1..] == a[1..] + b;
    }
  }

  lemma {:induction false} QuietBelow(s: Scan, t: Message, d: nat)
    requires Quiet(s, t, d + 1)
    ensures Quiet(s, t, d)
    decreases |t|
  {
    if t != [] {
      QuietBelow(Step(s, t[0]), t[1..], d);
    }
  }

  // ---------- exactly when a batch can be recovered ----------

  /** No message has a top level comma, and every message but the last closes what it opens. */
  predicate Splittable(batch: seq<Message>) {
    forall i :: 0 <= i < |batch| ==>
      Quiet(NEUTRAL, batch[i], 0) && (i < |batch| - 1 ==> Run(NEUTRAL, batch[i]) == NEUTRAL)
  }

  lemma {:induction false} SplitQuiet(s: Scan, t: Message)
    requires Quiet(s, t, 0)
    ensures Split(s, t) == [t]
    decreases |t|
  {
    if t != [] {
      SplitQuiet(Step(s, t[0]), t[1..]);
      assert [t[0]] + t[1..] == t;
    }
  }

  lemma {:induction false} SplitFirst(s: Scan, t: Message, rest: Message)
    requires Quiet(s, t, 0) && Run(s, t) == NEUTRAL
    ensures Split(s, t + [COMMA] + rest) == [t] + Split(NEUTRAL, rest)
    decreases |t|
  {
    var whole := t + [COMMA] + rest;
    if t == [] {
      assert whole == [COMMA] + rest && whole[1..] == rest;
    } else {
      SplitFirst(Step(s, t[0]), t[1..], rest);
      assert whole[1..] == t[1..] + [COMMA] + rest;
      assert [t[0]] + t[1..] == t;
    }
  }

  lemma {:induction false} SplitJoin(batch: seq<Message>)
    requires batch != [] && Splittable(batch)
    ensures Split(NEUTRAL, Join(batch)) == batch
    decreases |batch|
  {
    if |batch| == 1 {
      SplitQuiet(NEUTRAL, batch[0]);
    } else {
      SplitJoin(batch[1..]);
      SplitFirst(NEUTRAL, batch[0], Join(batch[1..]));
    }
  }

  /** Whatever is split falls into splittable parts, and joining them gives it back. */
  lemma {:induction false} SplitParts(s: Scan, t: Message)
    ensures
      var r := Split(s, t);
      && Join(r) == t
      && Quiet(s, r[0], 0) && (|r| > 1 ==> Run(s, r[0]) == NEUTRAL)
      && Splittable(r[1..])
    decreases |t|
  {
    var r := Split(s, t);
    if t == [] {
    } else if Separates(s, t[0], 0) {
      SplitParts(NEUTRAL, t[1..]);
      assert r[1..] == Split(NEUTRAL, t[1..]);
      assert t == [] + [COMMA] + t[1..];
    } else {
      var q := Split(Step(s, t[0]), t[1..]);
      SplitParts(Step(s, t[0]), t[1..]);
      assert r[1..] == q[1..] && r[0][1..] == q[0];
      assert t == [t[0]] + t[1..];
      assert Join(r) == [t[0]] + Join(q);
    }
  }

  /** A frame gives back its batch exactly when the batch is splittable, for messages of any bytes. */
  lemma UnframeIff(batch: seq<Message>)
    requires batch != []
    ensures Unframe(Frame(batch)) == batch <==> Splittable(batch)
  {
    var frame := Frame(batch);
    assert frame[1..|frame| - 1] == Join(batch);
    if Splittable(batch) {
      SplitJoin(batch);
    }
    if Split(NEUTRAL, Join(batch)) == batch {
      SplitParts(NEUTRAL, Join(batch));
      forall i | 0 <= i < |batch|
        ensures Quiet(NEUTRAL, batch[i], 0) && (i < |batch| - 1 ==> Run(NEUTRAL, batch[i]) == NEUTRAL)
      {
        if i > 0 {
          assert batch[i] == batch[1..][i - 1];
        }
      }
    }
  }

  /** Two splittable batches with the same frame are the same batch. */
  lemma FrameInjective(a: seq<Message>, b: seq<Message>)
    requires a != [] && b != [] && Splittable(a) && Splittable(b) && Frame(a) == Frame(b)
    ensures a == b
  {
    UnframeIff(a);
    UnframeIff(b);
  }
}
