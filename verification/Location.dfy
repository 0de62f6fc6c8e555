/** A point in space and time, and its 32 byte form on the wire. */
module Locations {
  import opened Bytes

  type Bits32 = n: int | 0 <= n < 0x1_0000_0000
  type Bits64 = n: int | 0 <= n < 0x1_0000_0000_0000_0000
  type Int64 = n: int | -0x8000_0000_0000_0000 <= n < 0x8000_0000_0000_0000

  /** Coordinates are kept as the bit patterns of their floats. */
  datatype Location = Location(lat: Bits64, lng: Bits64, alt: Bits32, heading: Bits32, timestamp: Int64)

  const ZERO := Location(0, 0, 0, 0, 0)
  const LOCATION_SIZE := 32

  /** Two's complement. */
  function ToBits(t: Int64): Bits64 {
    if t < 0 then t + 0x1_0000_0000_0000_0000 else t
  }

  function FromBits(n: Bits64): Int64 {
    if n < 0x8000_0000_0000_0000 then n else n - 0x1_0000_0000_0000_0000
  }

  /** Serialize: the fields one by one, big-endian. */
  function Serialize(loc: Location): (s: seq<byte>)
    ensures |s| == LOCATION_SIZE
  {
    Put(loc.lat, 8) + Put(loc.lng, 8) + Put(loc.alt, 4) + Put(loc.heading, 4) + Put(ToBits(loc.timestamp), 8)
  }

  lemma WordSizes(s: seq<byte>)
    ensures |s| == 4 ==> Get(s) < 0x1_0000_0000
    ensures |s| == 8 ==> Get(s) < 0x1_0000_0000_0000_0000
  {
    GetPut(s);
    Limits();
  }

  function GetU32(s: seq<byte>): Bits32
    requires |s| == 4
  {
    WordSizes(s);
    Get(s)
  }

  function GetU64(s: seq<byte>): Bits64
    requires |s| == 8
  {
    WordSizes(s);
    Get(s)
  }

  /** What reading the whole struct from 32 bytes gives. */
  function Parse(s: seq<byte>): Location
    requires |s| == LOCATION_SIZE
  {
    Location(GetU64(s[..8]), GetU64(s[8..16]), GetU32(s[16..20]), GetU32(s[20..24]), FromBits(GetU64(s[24..])))
  }

  lemma PartsOf(a: seq<byte>, b: seq<byte>, c: seq<byte>, d: seq<byte>, e: seq<byte>)
    requires |a| == |b| == |e| == 8 && |c| == |d| == 4
    ensures
      var s := a + b + c + d + e;
      s[..8] == a && s[8..16] == b && s[16..20] == c && s[20..24] == d && s[24..] == e
  {
  }

  lemma ParseSerialize(loc: Location)
    ensures Parse(Serialize(loc)) == loc
  {
    PartsOf(Put(loc.lat, 8), Put(loc.lng, 8), Put(loc.alt, 4), Put(loc.heading, 4), Put(ToBits(loc.timestamp), 8));
    PutU64(loc.lat);
    PutU64(loc.lng);
    PutU32(loc.alt);
    PutU32(loc.heading);
    PutU64(ToBits(loc.timestamp));
  }

  lemma FiveParts(s: seq<byte>)
    requires |s| == LOCATION_SIZE
    ensures s[..8] + s[8..16] + s[16..20] + s[20..24] + s[24..] == s
  {
    assert s[..8] + s[8..16] == s[..16];
    assert s[..16] + s[16..20] == s[..20];
    assert s[..20] + s[20..24] == s[..24];
    assert s[..24] + s[24..] == s;
  }

  /** Every 32 bytes are the form of exactly one location. */
  lemma SerializeParse(s: seq<byte>)
    requires |s| == LOCATION_SIZE
    ensures Serialize(Parse(s)) == s
  {
    GetPut(s[..8]);
    GetPut(s[8..16]);
    GetPut(s[16..20]);
    GetPut(s[20..24]);
    GetPut(s[24..]);
    FiveParts(s);
  }
}
