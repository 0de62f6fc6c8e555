/** The binary protocol: a 24 byte header, then a payload whose length the header gives. */
module Messages {
  import opened Bytes
  import opened Locations
  import opened Buffers

  type Uuid = s: seq<byte> | |s| == 16 witness Zeros(16)

  datatype Header = Header(magic: byte, version: byte, msgType: byte, userAgent: byte, uuid: Uuid, length: Bits32)

  const HEADER_SIZE := 24
  const MAGIC: byte := 101
  const VERSION: byte := 1

  /** The four message types, with the fields of their structs. */
  datatype Msg =
    | SyncRequest(hdr: Header, service: Uuid, location: Location)
    | SyncResponse(hdr: Header, service: Uuid, token: Uuid)
    | DataRequest(hdr: Header, location: Location)
    | DataResponse(hdr: Header, data: seq<byte>)

  function TypeOf(m: Msg): byte {
    match m
    case SyncRequest(_, _, _) => 1
    case SyncResponse(_, _, _) => 2
    case DataRequest(_, _) => 3
    case DataResponse(_, _) => 4
  }

  // ---------- writing ----------

  function HeaderBytes(h: Header): (s: seq<byte>)
    ensures |s| == HEADER_SIZE
  {
    [h.magic, h.version, h.msgType, h.userAgent] + h.uuid + Put(h.length, 4)
  }

  function Payload(m: Msg): seq<byte> {
    match m
    case SyncRequest(_, service, location) => service + Serialize(location)
    case SyncResponse(_, service, token) => service + token
    case DataRequest(_, location) => Serialize(location)
    case DataResponse(_, data) => data
  }

  /** Write sets the length field, a uint32, before it serializes the header. */
  function Sealed(m: Msg): Msg {
    m.(hdr := m.hdr.(length := |Payload(m)| % 0x1_0000_0000))
  }

  /** What Write puts on the connection. */
  function Wire(m: Msg): seq<byte> {
    HeaderBytes(Sealed(m).hdr) + Payload(m)
  }

  // ---------- reading ----------

  function ParseHeader(s: seq<byte>): Header
    requires |s| == HEADER_SIZE
  {
    Header(s[0], s[1], s[2], s[3], s[4..20], GetU32(s[20..]))
  }

  /** The fields after reading them from a payload buffer; what the buffer lacks stays as it was. */
  function Filled(m: Msg, payload: seq<byte>): Msg {
    match m
    case SyncRequest(hdr, service, location) =>
      var (bytes, rest) := Taken(payload, 16);
      SyncRequest(hdr, if |payload| >= 16 then bytes else service, Refreshed(location, rest))
    case SyncResponse(hdr, service, token) =>
      var (bytes, rest) := Taken(payload, 16);
      SyncResponse(hdr, if |payload| >= 16 then bytes else service, if |rest| >= 16 then rest[..16] else token)
    case DataRequest(hdr, location) =>
      DataRequest(hdr, Refreshed(location, payload))
    case DataResponse(hdr, _) =>
      DataResponse(hdr, payload)
  }

  /** The message, what is left of the stream and whether Read returned an error. */
  datatype Outcome = Outcome(msg: Msg, rest: seq<byte>, err: bool)

  /** A connection read of n bytes that delivers k of them. */
  predicate Delivers(input: seq<byte>, n: nat, k: nat) {
    k <= n && k <= |input| && (n > 0 && input != [] ==> k > 0)
  }

  /** The header after ReadHeader got k bytes: below 8 bytes it is left as it was, without an error. */
  function HeaderAfter(h: Header, input: seq<byte>, k: nat): Header
    requires Delivers(input, HEADER_SIZE, k)
  {
    if k < 8 then h else ParseHeader(input[..k] + Zeros(HEADER_SIZE - k))
  }

  predicate HeaderFails(h: Header, input: seq<byte>, k: nat)
    requires Delivers(input, HEADER_SIZE, k)
  {
    input == [] || (k >= 8 && var h' := HeaderAfter(h, input, k); h'.magic != MAGIC || h'.version != VERSION)
  }

  /** Whether Read goes on to the payload once it has the header. */
  predicate Proceeds(m: Msg, input: seq<byte>, k: nat)
    requires Delivers(input, HEADER_SIZE, k)
  {
    !HeaderFails(m.hdr, input, k) && HeaderAfter(m.hdr, input, k).msgType == TypeOf(m)
  }

  /**
   * Read into m when the connection delivers k bytes of the header and p of the payload. A message
   * of another type ends the Read after its header, without an error.
   */
  function Received(m: Msg, input: seq<byte>, k: nat, p: nat): Outcome
    requires Delivers(input, HEADER_SIZE, k)
    requires Proceeds(m, input, k) ==> Delivers(input[k..], HeaderAfter(m.hdr, input, k).length, p)
  {
    var m', rest := m.(hdr := HeaderAfter(m.hdr, input, k)), input[k..];
    if !Proceeds(m, input, k) then Outcome(m', rest, HeaderFails(m.hdr, input, k))
    else if m'.hdr.length > 0 && rest == [] then Outcome(m', rest, true)
    else Outcome(Filled(m', rest[..p] + Zeros(m'.hdr.length - p)), rest[p..], false)
  }

  function Min(a: nat, b: nat): nat {
    if a <= b then a else b
  }

  /** Read when the connection fills every buffer as far as the stream goes. */
  function FullRead(m: Msg, input: seq<byte>): Outcome {
    var k := Min(HEADER_SIZE, |input|);
    var p := if Proceeds(m, input, k) then Min(HeaderAfter(m.hdr, input, k).length, |input| - k) else 0;
    Received(m, input, k, p)
  }

  // ---------- which headers are rejected ----------

  /** Nothing arrives, or 8 bytes or more whose first two are not 'e' and 1. */
  predicate Rejected(input: seq<byte>, k: nat)
    requires k <= |input|
  {
    input == [] || (k >= 8 && (input[0] != 101 || input[1] != 1))
  }

  lemma HeaderVerdict(h: Header, input: seq<byte>, k: nat)
    requires Delivers(input, HEADER_SIZE, k)
    ensures HeaderFails(h, input, k) <==> Rejected(input, k)
    ensures k < 8 ==> HeaderAfter(h, input, k) == h
  {
  }

  /** A rejected header ends the Read with an error; only the header field changes, no payload is read. */
  lemma RejectedRead(m: Msg, input: seq<byte>, k: nat, p: nat)
    requires Delivers(input, 24, k) && Rejected(input, k)
    ensures
      var r := Received(m, input, k, p);
      r.err && r.rest == input[k..] && r.msg == m.(hdr := r.msg.hdr)
  {
    HeaderVerdict(m.hdr, input, k);
  }

  // ---------- round trips ----------

  lemma HeaderRoundTrip(h: Header)
    ensures ParseHeader(HeaderBytes(h)) == h
  {
    var s := HeaderBytes(h);
    assert s[4..20] == h.uuid && s[20..] == Put(h.length, 4);
    PutU32(h.length);
  }

  lemma HeaderUnique(s: seq<byte>)
    requires |s| == HEADER_SIZE
    ensures HeaderBytes(ParseHeader(s)) == s
  {
    GetPut(s[20..]);
    assert s == [s[0], s[1], s[2], s[3]] + s[4..20] + s[20..];
  }

  /** A message as the Make functions build it: right magic, version and type. */
  predicate WellFormed(m: Msg) {
    m.hdr.magic == MAGIC && m.hdr.version == VERSION && m.hdr.msgType == TypeOf(m)
  }

  /** The fields of a message are read back from its own payload, whatever they were before. */
  lemma PayloadRoundTrip(m: Msg, into: Msg)
    requires TypeOf(into) == TypeOf(m)
    ensures Filled(into.(hdr := m.hdr), Payload(m)) == m
  {
    match m
    case SyncRequest(_, service, location) =>
      assert Payload(m)[..16] == service && Payload(m)[16..] == Serialize(location);
      assert Serialize(location)[..LOCATION_SIZE] == Serialize(location);
      ParseSerialize(location);
    case SyncResponse(_, service, token) =>
      assert Payload(m)[..16] == service && Payload(m)[16..] == token;
      assert token[..16] == token;
    case DataRequest(_, location) =>
      assert Serialize(location)[..LOCATION_SIZE] == Serialize(location);
      ParseSerialize(location);
    case DataResponse(_, _) =>
  }

  lemma HeaderFirst(h: Header, rest: seq<byte>)
    ensures
      var input := HeaderBytes(h) + rest;
      input[..HEADER_SIZE] + Zeros(0) == HeaderBytes(h) && input[HEADER_SIZE..] == rest
  {
  }

  /** A header of the protocol, for messages of one type. */
  predicate GoodHeader(h: Header, msgType: byte) {
    h.magic == MAGIC && h.version == VERSION && h.msgType == msgType
  }

  /** A header at the start of the stream is read back, and the payload follows it. */
  lemma HeaderRead(h: Header, payload: seq<byte>, into: Msg, tail: seq<byte>)
    requires GoodHeader(h, TypeOf(into))
    ensures
      var input := HeaderBytes(h) + payload + tail;
      && HeaderAfter(into.hdr, input, HEADER_SIZE) == h
      && Proceeds(into, input, HEADER_SIZE)
      && input[HEADER_SIZE..] == payload + tail
  {
    assert HeaderBytes(h) + payload + tail == HeaderBytes(h) + (payload + tail);
    HeaderFirst(h, payload + tail);
    HeaderRoundTrip(h);
  }

  lemma PayloadFirst(payload: seq<byte>, tail: seq<byte>)
    ensures (payload + tail)[..|payload|] + Zeros(0) == payload && (payload + tail)[|payload|..] == tail
  {
  }

  lemma FullReadIs(into: Msg, input: seq<byte>, payload: seq<byte>, tail: seq<byte>)
    requires |input| >= HEADER_SIZE && Proceeds(into, input, HEADER_SIZE)
    requires HeaderAfter(into.hdr, input, HEADER_SIZE).length == |payload|
    requires input[HEADER_SIZE..] == payload + tail
    ensures FullRead(into, input)
         == Outcome(Filled(into.(hdr := HeaderAfter(into.hdr, input, HEADER_SIZE)), payload), tail, false)
  {
    PayloadFirst(payload, tail);
  }

  lemma SealedPayload(m: Msg)
    ensures Payload(Sealed(m)) == Payload(m)
  {
  }

  /** One message: every field comes back, and exactly 24 + Length bytes are used up. */
  lemma MessageRoundTrip(m: Msg, into: Msg, tail: seq<byte>)
    requires WellFormed(m) && TypeOf(into) == TypeOf(m) && |Payload(m)| < 0x1_0000_0000
    ensures FullRead(into, Wire(m) + tail) == Outcome(Sealed(m), tail, false)
    ensures |Wire(m)| == HEADER_SIZE + Sealed(m).hdr.length
  {
    HeaderRead(Sealed(m).hdr, Payload(m), into, tail);
    FullReadIs(into, Wire(m) + tail, Payload(m), tail);
    SealedPayload(m);
    PayloadRoundTrip(Sealed(m), into);
  }

  /** A data response is read back exactly when its payload is shorter than 2^32 bytes. */
  lemma DataResponseIff(m: Msg, into: Msg)
    requires WellFormed(m) && m.DataResponse? && into.DataResponse?
    ensures FullRead(into, Wire(m)) == Outcome(Sealed(m), [], false) <==> |m.data| < 0x1_0000_0000
  {
    assert Wire(m) + [] == Wire(m);
    if |m.data| < 0x1_0000_0000 {
      MessageRoundTrip(m, into, []);
    } else {
      HeaderRead(Sealed(m).hdr, m.data, into, []);
      assert |FullRead(into, Wire(m)).msg.data| == Sealed(m).hdr.length < |m.data|;
    }
  }

  // ---------- streams ----------

  function WireAll(msgs: seq<Msg>): seq<byte> {
    if msgs == [] then [] else Wire(msgs[0]) + WireAll(msgs[1..])
  }

  /** Read one message into each of the targets, as long as there is no error. */
  function ReadAll(targets: seq<Msg>, input: seq<byte>): (seq<Msg>, seq<byte>) {
    if targets == [] then ([], input)
    else
      var first := FullRead(targets[0], input);
      if first.err then ([], first.rest)
      else
        var (msgs, rest) := ReadAll(targets[1..], first.rest);
        ([first.msg] + msgs, rest)
  }

  function SealedAll(msgs: seq<Msg>): seq<Msg> {
    if msgs == [] then [] else [Sealed(msgs[0])] + SealedAll(msgs[1..])
  }

  /** Any mix of messages written back to back is read back in order, and the stream is used up. */
  lemma {:induction false} StreamRoundTrip(msgs: seq<Msg>, targets: seq<Msg>)
    requires |msgs| == |targets|
    requires forall i :: 0 <= i < |msgs| ==>
      WellFormed(msgs[i]) && TypeOf(targets[i]) == TypeOf(msgs[i]) && |Payload(msgs[i])| < 0x1_0000_0000
    ensures ReadAll(targets, WireAll(msgs)) == (SealedAll(msgs), [])
    decreases |msgs|
  {
    if msgs != [] {
      MessageRoundTrip(msgs[0], targets[0], WireAll(msgs[1..]));
      StreamRoundTrip(msgs[1..], targets[1..]);
    }
  }

  // ---------- short reads ----------

  lemma {:induction false} PaddedSmaller(s: seq<byte>, k: nat)
    requires k <= |s|
    ensures Get(s[..k] + Zeros(|s| - k)) <= Get(s)
    decreases |s| - k
  {
    var padded := s[..k] + Zeros(|s| - k);
    if k == |s| {
      assert padded == s;
    } else {
      var init := s[..|s| - 1];
      PaddedSmaller(init, k);
      assert padded[..|s| - 1] == init[..k] + Zeros(|init| - k);
      assert padded[|s| - 1] == 0;
    }
  }

  /** A header read that stops short still gives the type, and a length no larger than the real one. */
  lemma ShortHeader(h: Header, payload: seq<byte>, into: Msg, tail: seq<byte>, k: nat)
    requires GoodHeader(h, TypeOf(into)) && 8 <= k <= HEADER_SIZE
    ensures
      var input := HeaderBytes(h) + payload + tail;
      Proceeds(into, input, k) && HeaderAfter(into.hdr, input, k).length <= h.length
  {
    var input, length := HeaderBytes(h) + payload + tail, Put(h.length, 4);
    var got := input[..k] + Zeros(HEADER_SIZE - k);
    assert got[0] == h.magic && got[1] == h.version && got[2] == h.msgType;
    var j := if k < 20 then 0 else k - 20;
    assert input[20..24] == length;
    assert got[20..] == length[..j] + Zeros(4 - j);
    PaddedSmaller(length, j);
    PutU32(h.length);
  }

  /** Any stream whose first message, of a given length, is followed by tail. */
  lemma InStep(m: Msg, input: seq<byte>, k: nat, p: nat, length: nat, tail: seq<byte>)
    requires |input| == HEADER_SIZE + length + |tail| && input[HEADER_SIZE..][length..] == tail
    requires k <= HEADER_SIZE && Delivers(input, HEADER_SIZE, k) && Proceeds(m, input, k)
    requires Delivers(input[k..], HeaderAfter(m.hdr, input, k).length, p)
    requires HeaderAfter(m.hdr, input, k).length <= length
    requires k == HEADER_SIZE ==> HeaderAfter(m.hdr, input, k).length == length
    ensures
      var r := Received(m, input, k, p);
      !r.err && r.rest == tail <==> k == HEADER_SIZE && p == length
  {
    ReceivedRest(m, input, k, p);
  }

  lemma ReceivedRest(m: Msg, input: seq<byte>, k: nat, p: nat)
    requires Delivers(input, HEADER_SIZE, k) && Proceeds(m, input, k)
    requires Delivers(input[k..], HeaderAfter(m.hdr, input, k).length, p)
    ensures
      var r := Received(m, input, k, p);
      && (r.err <==> HeaderAfter(m.hdr, input, k).length > 0 && |input| == k)
      && (!r.err ==> r.rest == input[k..][p..] && |r.rest| == |input| - k - p)
  {
  }

  /**
   * Reading into a fresh struct leaves the stream at the next message exactly when neither of the
   * two reads was short: the code takes a short read for a full one. A struct read into before may
   * be in step by accident when its header read gets under 8 bytes, since its old header then stands.
   */
  lemma InStepIffFullReads(h: Header, payload: seq<byte>, into: Msg, tail: seq<byte>, k: nat, p: nat)
    requires GoodHeader(h, TypeOf(into)) && h.length == |payload| && 0 < k <= HEADER_SIZE
    requires k >= 8 || into.hdr.msgType != TypeOf(into)
    requires
      var input := HeaderBytes(h) + payload + tail;
      Proceeds(into, input, k) ==> Delivers(input[k..], HeaderAfter(into.hdr, input, k).length, p)
    ensures
      var r := Received(into, HeaderBytes(h) + payload + tail, k, p);
      !r.err && r.rest == tail <==> k == HEADER_SIZE && p == h.length
  {
    var input := HeaderBytes(h) + payload + tail;
    if k >= 8 {
      ShortHeader(h, payload, into, tail, k);
      HeaderRead(h, payload, into, tail);
      PayloadFirst(payload, tail);
      InStep(into, input, k, p, |payload|, tail);
    } else {
      assert Received(into, input, k, p).rest == input[k..];
    }
  }

  // ---------- the message structs ----------

  /** serialize: append the header fields one by one. */
  method SerializeHeader(hdr: Header, buf: Buffer)
    modifies buf
    ensures buf.data == old(buf.data) + HeaderBytes(hdr)
  {
    buf.Append([hdr.magic]);
    buf.Append([hdr.version]);
    buf.Append([hdr.msgType]);
    buf.Append([hdr.userAgent]);
    buf.Append(hdr.uuid);
    buf.Append(Put(hdr.length, 4));
  }

  method ReadHeader(hdr: Header, c: NetConn) returns (r: Header, err: bool, ghost k: nat)
    modifies c`incoming
    ensures Delivers(old(c.incoming), HEADER_SIZE, k) && c.incoming == old(c.incoming)[k..]
    ensures r == HeaderAfter(hdr, old(c.incoming), k) && err == HeaderFails(hdr, old(c.incoming), k)
    ensures old(c.incoming) == [] ==> err && r == hdr
    ensures old(c.incoming) != [] && k < 8 ==> !err && r == hdr
    ensures k >= 8 ==> (err <==> old(c.incoming)[0] != 101 || old(c.incoming)[1] != 1)
  {
    var count, bytes, failed := c.Read(HEADER_SIZE);
    k := count;
    if count < 8 || failed {
      return hdr, failed, k;
    }
    r := ParseHeader(bytes);
    err := r.magic != MAGIC || r.version != VERSION;
  }

  class SyncRequestMsg {
    var hdr: Header
    var serviceUUID: Uuid
    var location: Location

    ghost function View(): Msg
      reads this
    {
      SyncRequest(hdr, serviceUUID, location)
    }

    constructor (hdr: Header, serviceUUID: Uuid, location: Location)
      ensures View() == SyncRequest(hdr, serviceUUID, location)
    {
      this.hdr, this.serviceUUID, this.location := hdr, serviceUUID, location;
    }

    method Write(c: NetConn)
      modifies this`hdr, c`outgoing
      ensures View() == Sealed(old(View())) && c.outgoing == old(c.outgoing) + Wire(View())
    {
      var buf := new Buffer([]);
      hdr := hdr.(length := 48);
      SerializeHeader(hdr, buf);
      buf.Append(serviceUUID);
      SerializeTo(location, buf);
      assert buf.data == Wire(View());
      c.Write(buf.data);
    }

    method Read(c: NetConn) returns (err: bool, ghost k: nat, ghost p: nat)
      modifies this, c`incoming
      ensures Delivers(old(c.incoming), HEADER_SIZE, k)
      ensures Proceeds(old(View()), old(c.incoming), k)
        ==> Delivers(old(c.incoming)[k..], HeaderAfter(old(hdr), old(c.incoming), k).length, p)
      ensures Outcome(View(), c.incoming, err) == Received(old(View()), old(c.incoming), k, p)
      ensures Rejected(old(c.incoming), k) ==>
        err && serviceUUID == old(serviceUUID) && location == old(location) && c.incoming == old(c.incoming)[k..]
    {
      p := 0;
      hdr, err, k := ReadHeader(hdr, c);
      if err || hdr.msgType != 1 {
        return;
      }
      var count, msgBytes, failed := c.Read(hdr.length);
      p := count;
      if failed {
        return true, k, p;
      }
      Unpack(msgBytes);
    }

    /** The fields are taken from the payload in order. */
    method Unpack(msgBytes: seq<byte>)
      modifies this`serviceUUID, this`location
      ensures View() == Filled(old(View()), msgBytes)
    {
      var buf := new Buffer(msgBytes);
      var got, bytes := buf.Take(16);
      if got {
        serviceUUID := bytes;
      }
      location := Deserialize(location, buf);
    }
  }

  class SyncResponseMsg {
    var hdr: Header
    var serviceUUID: Uuid
    var tokenId: Uuid

    ghost function View(): Msg
      reads this
    {
      SyncResponse(hdr, serviceUUID, tokenId)
    }

    constructor (hdr: Header, serviceUUID: Uuid, tokenId: Uuid)
      ensures View() == SyncResponse(hdr, serviceUUID, tokenId)
    {
      this.hdr, this.serviceUUID, this.tokenId := hdr, serviceUUID, tokenId;
    }

    method Write(c: NetConn)
      modifies this`hdr, c`outgoing
      ensures View() == Sealed(old(View())) && c.outgoing == old(c.outgoing) + Wire(View())
    {
      var buf := new Buffer([]);
      hdr := hdr.(length := 32);
      SerializeHeader(hdr, buf);
      buf.Append(serviceUUID);
      buf.Append(tokenId);
      assert buf.data == Wire(View());
      c.Write(buf.data);
    }

    method Read(c: NetConn) returns (err: bool, ghost k: nat, ghost p: nat)
      modifies this, c`incoming
      ensures Delivers(old(c.incoming), HEADER_SIZE, k)
      ensures Proceeds(old(View()), old(c.incoming), k)
        ==> Delivers(old(c.incoming)[k..], HeaderAfter(old(hdr), old(c.incoming), k).length, p)
      ensures Outcome(View(), c.incoming, err) == Received(old(View()), old(c.incoming), k, p)
      ensures Rejected(old(c.incoming), k) ==>
        err && serviceUUID == old(serviceUUID) && tokenId == old(tokenId) && c.incoming == old(c.incoming)[k..]
    {
      p := 0;
      hdr, err, k := ReadHeader(hdr, c);
      if err || hdr.msgType != 2 {
        return;
      }
      var count, msgBytes, failed := c.Read(hdr.length);
      p := count;
      if failed {
        return true, k, p;
      }
      Unpack(msgBytes);
    }

    /** The fields are taken from the payload in order. */
    method Unpack(msgBytes: seq<byte>)
      modifies this`serviceUUID, this`tokenId
      ensures View() == Filled(old(View()), msgBytes)
    {
      var buf := new Buffer(msgBytes);
      var got, bytes := buf.Take(16);
      if got {
        serviceUUID := bytes;
      }
      got, bytes := buf.Take(16);
      if got {
        tokenId := bytes;
      }
    }
  }

  class DataRequestMsg {
    var hdr: Header
    var location: Location

    ghost function View(): Msg
      reads this
    {
      DataRequest(hdr, location)
    }

    constructor (hdr: Header, location: Location)
      ensures View() == DataRequest(hdr, location)
    {
      this.hdr, this.location := hdr, location;
    }

    method Write(c: NetConn)
      modifies this`hdr, c`outgoing
      ensures View() == Sealed(old(View())) && c.outgoing == old(c.outgoing) + Wire(View())
    {
      var buf := new Buffer([]);
      hdr := hdr.(length := 32);
      SerializeHeader(hdr, buf);
      SerializeTo(location, buf);
      assert buf.data == Wire(View());
      c.Write(buf.data);
    }

    method Read(c: NetConn) returns (err: bool, ghost k: nat, ghost p: nat)
      modifies this, c`incoming
      ensures Delivers(old(c.incoming), HEADER_SIZE, k)
      ensures Proceeds(old(View()), old(c.incoming), k)
        ==> Delivers(old(c.incoming)[k..], HeaderAfter(old(hdr), old(c.incoming), k).length, p)
      ensures Outcome(View(), c.incoming, err) == Received(old(View()), old(c.incoming), k, p)
      ensures Rejected(old(c.incoming), k) ==>
        err && location == old(location) && c.incoming == old(c.incoming)[k..]
    {
      p := 0;
      hdr, err, k := ReadHeader(hdr, c);
      if err || hdr.msgType != 3 {
        return;
      }
      var count, msgBytes, failed := c.Read(hdr.length);
      p := count;
      if failed {
        return true, k, p;
      }
      var buf := new Buffer(msgBytes);
      location := Deserialize(location, buf);
    }
  }

  class DataResponseMsg {
    var hdr: Header
    var data: seq<byte>

    ghost function View(): Msg
      reads this
    {
      DataResponse(hdr, data)
    }

    constructor (hdr: Header, data: seq<byte>)
      ensures View() == DataResponse(hdr, data)
    {
      this.hdr, this.data := hdr, data;
    }

    method Write(c: NetConn)
      modifies this`hdr, c`outgoing
      ensures View() == Sealed(old(View())) && c.outgoing == old(c.outgoing) + Wire(View())
    {
      var buf := new Buffer([]);
      hdr := hdr.(length := |data| % 0x1_0000_0000);
      SerializeHeader(hdr, buf);
      buf.Append(data);
      assert buf.data == Wire(View());
      c.Write(buf.data);
    }

    method Read(c: NetConn) returns (err: bool, ghost k: nat, ghost p: nat)
      modifies this, c`incoming
      ensures Delivers(old(c.incoming), HEADER_SIZE, k)
      ensures Proceeds(old(View()), old(c.incoming), k)
        ==> Delivers(old(c.incoming)[k..], HeaderAfter(old(hdr), old(c.incoming), k).length, p)
      ensures Outcome(View(), c.incoming, err) == Received(old(View()), old(c.incoming), k, p)
      ensures Rejected(old(c.incoming), k) ==>
        err && data == old(data) && c.incoming == old(c.incoming)[k..]
    {
      p := 0;
      hdr, err, k := ReadHeader(hdr, c);
      if err || hdr.msgType != 4 {
        return;
      }
      var count, msgBytes, failed := c.Read(hdr.length);
      p := count;
      if failed {
        return true, k, p;
      }
      data := msgBytes;
    }
  }
}
