/** Byte buffers and stream connections, and fields read from them as encoding/binary does. */
module Buffers {
  import opened Bytes
  import opened Locations

  /** The first n bytes, if there are that many; a short read uses up what is left. */
  function Taken(data: seq<byte>, n: nat): (seq<byte>, seq<byte>) {
    if n <= |data| then (data[..n], data[n..]) else ([], [])
  }

  class Buffer {
    var data: seq<byte>

    constructor (data: seq<byte>)
      ensures this.data == data
    {
      this.data := data;
    }

    method Append(bytes: seq<byte>)
      modifies this
      ensures data == old(data) + bytes
    {
      data := data + bytes;
    }

    /** binary.Read of a value of n bytes: on a short buffer nothing is got and the rest is gone. */
    method Take(n: nat) returns (got: bool, bytes: seq<byte>)
      modifies this
      ensures got <==> n <= |old(data)|
      ensures (bytes, data) == Taken(old(data), n)
    {
      if n <= |data| {
        got, bytes, data := true, data[..n], data[n..];
      } else {
        got, bytes, data := false, [], [];
      }
    }
  }

  /** Serialize: append the fields of a location one by one. */
  method SerializeTo(location: Location, buf: Buffer)
    modifies buf
    ensures buf.data == old(buf.data) + Serialize(location)
  {
    ghost var start := buf.data;
    buf.Append(Put(location.lat, 8));
    buf.Append(Put(location.lng, 8));
    buf.Append(Put(location.alt, 4));
    buf.Append(Put(location.heading, 4));
    buf.Append(Put(ToBits(location.timestamp), 8));
    FiveAppends(start, Put(location.lat, 8), Put(location.lng, 8), Put(location.alt, 4), Put(location.heading, 4),
                Put(ToBits(location.timestamp), 8));
  }

  lemma FiveAppends(s: seq<byte>, a: seq<byte>, b: seq<byte>, c: seq<byte>, d: seq<byte>, e: seq<byte>)
    ensures s + a + b + c + d + e == s + (a + b + c + d + e)
  {
    assert s + (a + b + c + d + e) == s + (a + b + c + d) + e;
    assert s + (a + b + c + d) == s + (a + b + c) + d;
    assert s + (a + b + c) == s + (a + b) + c;
    assert s + (a + b) == s + a + b;
  }

  /** The location after Deserialize: read whole, or left as it was. */
  function Refreshed(location: Location, data: seq<byte>): Location {
    if LOCATION_SIZE <= |data| then Parse(data[..LOCATION_SIZE]) else location
  }

  method Deserialize(location: Location, buf: Buffer) returns (r: Location)
    modifies buf
    ensures r == Refreshed(location, old(buf.data))
    ensures buf.data == Taken(old(buf.data), LOCATION_SIZE).1
  {
    var got, bytes := buf.Take(LOCATION_SIZE);
    r := if got then Parse(bytes) else location;
  }

  function Zeros(n: nat): (r: seq<byte>)
    ensures |r| == n
  {
    seq(n, _ => 0)
  }

  /** A stream connection: bytes still to arrive and bytes sent. */
  class NetConn {
    var incoming: seq<byte>
    var outgoing: seq<byte>

    constructor (incoming: seq<byte>)
      ensures this.incoming == incoming && outgoing == []
    {
      this.incoming, outgoing := incoming, [];
    }

    method Write(bytes: seq<byte>)
      modifies this`outgoing
      ensures outgoing == old(outgoing) + bytes
    {
      outgoing := outgoing + bytes;
    }

    /**
     * Read into a zeroed buffer of n bytes: any positive number of the bytes that are left may be
     * delivered, and reading at the end of the stream is an error.
     */
    method Read(n: nat) returns (count: nat, bytes: seq<byte>, err: bool)
      modifies this`incoming
      ensures err <==> n > 0 && old(incoming) == []
      ensures count <= n && count <= |old(incoming)|
      ensures n > 0 && !err ==> count > 0
      ensures bytes == old(incoming)[..count] + Zeros(n - count) && incoming == old(incoming)[count..]
    {
      var most := if n <= |incoming| then n else |incoming|;
      if most == 0 {
        count := 0;
      } else {
        count :| 0 < count <= most;
      }
      err := n > 0 && |incoming| == 0;
      bytes, incoming := incoming[..count] + Zeros(n - count), incoming[count..];
    }
  }
}
