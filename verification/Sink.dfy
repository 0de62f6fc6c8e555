/** The sink: decode a count-prefixed list of locations and print one line per location. */
module Sinks {
  import opened Bytes
  import opened Locations
  import opened Buffers

  /** The count at the front of a buffer; 0 when there are fewer than four bytes. */
  function Count(data: seq<byte>): nat {
    if |data| < 4 then 0 else GetU32(data[..4])
  }

  /** The i-th location of a buffer: read from its place, or zero when its bytes are not all there. */
  function At(data: seq<byte>, i: nat): Location {
    if 4 + LOCATION_SIZE * (i + 1) <= |data| then Parse(data[4 + LOCATION_SIZE * i..][..LOCATION_SIZE]) else ZERO
  }

  /** What the loop decodes, for any buffer: as many locations as the count says. */
  function Decoded(data: seq<byte>): (r: seq<Location>)
    ensures |r| == Count(data)
    ensures forall i :: 0 <= i < |r| ==> r[i] == At(data, i)
  {
    seq(Count(data), i requires 0 <= i => At(data, i))
  }

  function Lines(locations: seq<Location>, toJson: Location -> string): string {
    if locations == [] then ""
    else Lines(locations[..|locations| - 1], toJson) + toJson(locations[|locations| - 1]) + "\n"
  }

  /** The pieces of a text between its newlines. */
  function Cut(s: string): (r: seq<string>)
    ensures r != []
  {
    if s == "" then [""]
    else if s[0] == '\n' then [""] + Cut(s[1..])
    else
      var r := Cut(s[1..]);
      [[s[0]] + r[0]] + r[1..]
  }

  lemma {:induction false} CutLine(line: string, rest: string)
    requires '\n' !in line
    ensures Cut(line + "\n" + rest) == [line] + Cut(rest)
    decreases |line|
  {
    var s := line + "\n" + rest;
    if line == "" {
      assert s[1..] == rest;
    } else {
      CutLine(line[1..], rest);
      assert s[1..] == line[1..] + "\n" + rest;
      assert [line[0]] + line[1..] == line;
    }
  }

  lemma {:induction false} FirstLine(locations: seq<Location>, toJson: Location -> string)
    requires locations != []
    ensures Lines(locations, toJson) == toJson(locations[0]) + "\n" + Lines(locations[1..], toJson)
    decreases |locations|
  {
    var n := |locations| - 1;
    var rest := locations[1..];
    if n == 0 {
      assert locations[..0] == [] && rest == [];
    } else {
      FirstLine(locations[..n], toJson);
      assert locations[..n][1..] == rest[..n - 1] && rest[n - 1] == locations[n];
      LineAdded(toJson(locations[0]), Lines(rest[..n - 1], toJson), toJson(locations[n]));
    }
  }

  lemma LineAdded(first: string, lines: string, last: string)
    ensures first + "\n" + lines + last + "\n" == first + "\n" + (lines + last + "\n")
  {
  }

  /** The printed text has one line per location, in order, each ended by a newline. */
  lemma {:induction false} LinesInOrder(locations: seq<Location>, toJson: Location -> string)
    requires forall i :: 0 <= i < |locations| ==> '\n' !in toJson(locations[i])
    ensures |Cut(Lines(locations, toJson))| == |locations| + 1
    ensures forall i :: 0 <= i < |locations| ==> Cut(Lines(locations, toJson))[i] == toJson(locations[i])
    ensures Cut(Lines(locations, toJson))[|locations|] == ""
    decreases |locations|
  {
    if locations != [] {
      FirstLine(locations, toJson);
      LinesInOrder(locations[1..], toJson);
      CutLine(toJson(locations[0]), Lines(locations[1..], toJson));
    }
  }

  /** What is left of a buffer after the count and i locations. */
  function Rest(data: seq<byte>, i: nat): seq<byte> {
    if 4 + LOCATION_SIZE * i <= |data| then data[4 + LOCATION_SIZE * i..] else []
  }

  /** One round of the decode loop. */
  method NextLocation(data: Buffer, ghost input: seq<byte>, ghost i: nat) returns (loc: Location)
    requires data.data == Rest(input, i)
    modifies data
    ensures loc == At(input, i) && data.data == Rest(input, i + 1)
  {
    loc := Deserialize(ZERO, data);
  }

  /** toJson is the JSON rendering; the source ignores its errors and prints an empty line. */
  method MarshalData(data: Buffer, toJson: Location -> string) returns (s: string)
    modifies data
    ensures s == Lines(Decoded(old(data.data)), toJson)
  {
    ghost var input := data.data;
    var got, bytes := data.Take(4);
    var number := if got then GetU32(bytes) else 0;
    s := "";
    ghost var locations := Decoded(input);
    for i := 0 to number
      invariant s == Lines(locations[..i], toJson)
      invariant data.data == Rest(input, i)
    {
      var loc := NextLocation(data, input, i);
      s := s + toJson(loc) + "\n";
      assert locations[..i + 1][..i] == locations[..i];
    }
    assert locations[..number] == locations;
  }

  /** The encoding a list of locations has in a data message: its length, then each location. */
  function Concat(locations: seq<Location>): seq<byte> {
    if locations == [] then []
    else Concat(locations[..|locations| - 1]) + Serialize(locations[|locations| - 1])
  }

  function EncodeList(locations: seq<Location>): seq<byte> {
    Put(|locations|, 4) + Concat(locations)
  }

  lemma RecordOf(a: seq<byte>, b: seq<byte>, k: nat)
    requires |b| == LOCATION_SIZE
    ensures k + LOCATION_SIZE <= |a| ==> (a + b)[k..][..LOCATION_SIZE] == a[k..][..LOCATION_SIZE]
    ensures (a + b)[|a|..][..LOCATION_SIZE] == b
  {
  }

  lemma {:induction false} ConcatSize(locations: seq<Location>)
    ensures |Concat(locations)| == LOCATION_SIZE * |locations|
    decreases |locations|
  {
    if locations != [] {
      ConcatSize(locations[..|locations| - 1]);
    }
  }

  lemma {:induction false} ConcatAt(locations: seq<Location>, i: nat)
    requires i < |locations|
    ensures |Concat(locations)| == LOCATION_SIZE * |locations|
    ensures Concat(locations)[LOCATION_SIZE * i..][..LOCATION_SIZE] == Serialize(locations[i])
    decreases |locations|
  {
    var n := |locations| - 1;
    ConcatSize(locations);
    ConcatSize(locations[..n]);
    RecordOf(Concat(locations[..n]), Serialize(locations[n]), LOCATION_SIZE * i);
    if i < n {
      ConcatAt(locations[..n], i);
    }
  }

  /** Decoding inverts encoding exactly when the count fits in 32 bits, whatever follows the list. */
  lemma DecodeEncodeIff(locations: seq<Location>, tail: seq<byte>)
    ensures Decoded(EncodeList(locations) + tail) == locations <==> |locations| < 0x1_0000_0000
  {
    var data, body := EncodeList(locations) + tail, Concat(locations);
    assert data[..4] == Put(|locations|, 4);
    if |locations| < 0x1_0000_0000 {
      PutU32(|locations|);
      forall i | 0 <= i < |locations| ensures At(data, i) == locations[i] {
        ConcatAt(locations, i);
        assert data[4 + LOCATION_SIZE * i..][..LOCATION_SIZE] == body[LOCATION_SIZE * i..][..LOCATION_SIZE];
        ParseSerialize(locations[i]);
      }
    }
  }

  /** The count is read from the first four bytes, and is 0 when there are fewer. */
  lemma CountAt(data: seq<byte>)
    ensures |data| < 4 ==> Decoded(data) == []
    ensures |data| >= 4 ==> Word(|Decoded(data)|) == data[..4]
  {
    if |data| >= 4 {
      GetPut(data[..4]);
      PutWords(Get(data[..4]));
    }
  }

  /** A buffer that ends early yields its whole records and then zero locations up to the count. */
  lemma DecodeTruncated(data: seq<byte>, i: nat)
    requires i < Count(data)
    ensures i < (|data| - 4) / LOCATION_SIZE ==>
      Serialize(Decoded(data)[i]) == data[4 + LOCATION_SIZE * i..][..LOCATION_SIZE]
    ensures i >= (|data| - 4) / LOCATION_SIZE ==> Decoded(data)[i] == ZERO
  {
    if i < (|data| - 4) / LOCATION_SIZE {
      assert 4 + LOCATION_SIZE * (i + 1) <= |data|;
      SerializeParse(data[4 + LOCATION_SIZE * i..][..LOCATION_SIZE]);
    }
  }
}
