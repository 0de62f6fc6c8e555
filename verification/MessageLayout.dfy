/** The protocol byte by byte: where each field lies on the wire, and what a Read makes of the bytes it gets. */
module MessageLayout {
  import opened Bytes
  import opened Locations
  import opened Buffers
  import opened Messages

  // ---------- what is sent ----------

  /** A header: magic, version, type, user agent, 16 bytes of UUID and the length, most significant byte first. */
  lemma HeaderLayout(h: Header)
    ensures
      var s := HeaderBytes(h);
      && |s| == 24 && s[0] == h.magic && s[1] == h.version && s[2] == h.msgType && s[3] == h.userAgent
      && s[4..20] == h.uuid && s[20..24] == Word(h.length)
  {
    PutWords(h.length);
  }

  /** A location: latitude, longitude, altitude, heading and the time in two's complement. */
  lemma LocationLayout(loc: Location)
    ensures
      var s := Serialize(loc);
      var time := if loc.timestamp < 0 then loc.timestamp + 0x1_0000_0000_0000_0000 else loc.timestamp;
      && |s| == 32
      && s[..8] == Word(loc.lat / 0x1_0000_0000) + Word(loc.lat)
      && s[8..16] == Word(loc.lng / 0x1_0000_0000) + Word(loc.lng)
      && s[16..20] == Word(loc.alt) && s[20..24] == Word(loc.heading)
      && s[24..] == Word(time / 0x1_0000_0000) + Word(time)
  {
    PartsOf(Put(loc.lat, 8), Put(loc.lng, 8), Put(loc.alt, 4), Put(loc.heading, 4), Put(ToBits(loc.timestamp), 8));
    PutWords(loc.lat);
    PutWords(loc.lng);
    PutWords(loc.alt);
    PutWords(loc.heading);
    PutWords(ToBits(loc.timestamp));
  }

  /** The length that Write sets. */
  function LengthSet(m: Msg): Bits32 {
    match m
    case SyncRequest(_, _, _) => 48
    case SyncResponse(_, _, _) => 32
    case DataRequest(_, _) => 32
    case DataResponse(_, data) => |data| % 0x1_0000_0000
  }

  lemma SealedHeader(m: Msg)
    ensures Sealed(m).hdr == m.hdr.(length := LengthSet(m))
  {
  }

  /** The header on the wire. */
  lemma WireHeader(m: Msg)
    ensures
      var w := Wire(m);
      && |w| == 24 + |Payload(m)| && w[24..] == Payload(m)
      && w[0] == m.hdr.magic && w[1] == m.hdr.version && w[2] == m.hdr.msgType && w[3] == m.hdr.userAgent
      && w[4..20] == m.hdr.uuid
      && w[20..24] == Word(LengthSet(m))
  {
    SealedHeader(m);
    HeaderLayout(Sealed(m).hdr);
    var head, w := HeaderBytes(Sealed(m).hdr), Wire(m);
    assert w[..24] == head && w[24..] == Payload(m);
    assert w[4..20] == head[4..20] && w[20..24] == head[20..24];
  }

  /** The payload that follows. */
  lemma WirePayload(m: Msg)
    ensures |Wire(m)| >= 24
    ensures
      var payload := Wire(m)[24..];
      match m
      case SyncRequest(_, service, location) =>
        |payload| == 48 && payload[..16] == service && payload[16..] == Serialize(location)
      case SyncResponse(_, service, token) => |payload| == 32 && payload[..16] == service && payload[16..] == token
      case DataRequest(_, location) => payload == Serialize(location)
      case DataResponse(_, data) => payload == data
  {
    assert Wire(m)[24..] == Payload(m);
  }

  // ---------- what is read ----------

  /** The payload buffer: the bytes delivered, and zeros where the delivery stopped short. */
  function Padded(rest: seq<byte>, length: nat, p: nat): (r: seq<byte>)
    requires p <= |rest| && p <= length
    ensures |r| == length
    ensures forall i :: 0 <= i < length ==> r[i] == if i < p then rest[i] else 0
  {
    seq(length, i requires 0 <= i < length => if i < p then rest[i] else 0)
  }

  lemma PaddedIs(rest: seq<byte>, length: nat, p: nat)
    requires p <= |rest| && p <= length
    ensures Padded(rest, length, p) == rest[..p] + Zeros(length - p)
  {
  }

  /** A header that got 8 bytes or more, taken apart. */
  lemma HeaderFields(h: Header, input: seq<byte>, k: nat)
    requires Delivers(input, 24, k) && k >= 8
    ensures
      var h', s := HeaderAfter(h, input, k), Padded(input, 24, k);
      && h'.magic == input[0] && h'.version == input[1] && h'.msgType == input[2] && h'.userAgent == input[3]
      && h'.uuid == s[4..20] && Word(h'.length) == s[20..24]
  {
    PaddedIs(input, 24, k);
    ParsedLength(Padded(input, 24, k));
  }

  lemma ParsedLength(s: seq<byte>)
    requires |s| == 24
    ensures Word(ParseHeader(s).length) == s[20..24]
  {
    var tail := s[20..];
    assert tail == s[20..24];
    GetPut(tail);
    PutWords(Get(tail));
  }

  /** The type that a Read waits for. */
  function Wanted(m: Msg): byte {
    match m
    case SyncRequest(_, _, _) => 1
    case SyncResponse(_, _, _) => 2
    case DataRequest(_, _) => 3
    case DataResponse(_, _) => 4
  }

  /** A good header of another type ends the Read without an error and before the payload. */
  lemma OtherTypeRead(m: Msg, input: seq<byte>, k: nat, p: nat)
    requires Delivers(input, 24, k) && k >= 8 && input[0] == 101 && input[1] == 1 && input[2] != Wanted(m)
    ensures !Proceeds(m, input, k)
    ensures Received(m, input, k, p) == Outcome(m.(hdr := HeaderAfter(m.hdr, input, k)), input[k..], false)
  {
    HeaderFields(m.hdr, input, k);
  }

  /** Every field that a payload has the bytes for is taken from its place; the others stay as they were. */
  lemma FieldsTaken(m: Msg, s: seq<byte>)
    ensures
      var r := Filled(m, s);
      && r.hdr == m.hdr && Wanted(r) == Wanted(m)
      && match m
         case SyncRequest(_, service, location) =>
           && r.service == (if |s| >= 16 then s[..16] else service)
           && r.location == if |s| >= 48 then Parse(s[16..48]) else location
         case SyncResponse(_, service, token) =>
           && r.service == (if |s| >= 16 then s[..16] else service)
           && r.token == if |s| >= 32 then s[16..32] else token
         case DataRequest(_, location) => r.location == if |s| >= 32 then Parse(s[..32]) else location
         case DataResponse(_, _) => r.data == s
  {
    if |s| >= 48 {
      assert s[16..][..32] == s[16..48];
    }
    if |s| >= 32 {
      assert s[16..][..16] == s[16..32];
    }
  }

  /**
   * A good header of the right type: the payload is read, padded with zeros where its delivery stopped
   * short, and the fields are taken from it. An end of the stream before a payload is an error.
   */
  lemma PayloadRead(m: Msg, input: seq<byte>, k: nat, p: nat)
    requires Delivers(input, 24, k) && k >= 8 && input[0] == 101 && input[1] == 1 && input[2] == Wanted(m)
    requires Delivers(input[k..], HeaderAfter(m.hdr, input, k).length, p)
    ensures Proceeds(m, input, k)
    ensures
      var h := HeaderAfter(m.hdr, input, k);
      Received(m, input, k, p)
      == if h.length > 0 && |input| == k then Outcome(m.(hdr := h), [], true)
         else Outcome(Filled(m.(hdr := h), Padded(input[k..], h.length, p)), input[k + p..], false)
  {
    HeaderFields(m.hdr, input, k);
    PaddedIs(input[k..], HeaderAfter(m.hdr, input, k).length, p);
    assert input[k..][p..] == input[k + p..];
  }
}
