/** The cooperative awareness message (CAM) record that vehicles send to
    roadside units, and its raw-memory wire image.

    A record holds three doubles and a 32-bit id. The doubles are carried
    as their IEEE-754 bit patterns and never interpreted here. `SendCAM`
    copies the struct byte for byte into a buffer of `sizeof(CAMData)`
    bytes, and `HandleRead` copies a received packet back into a struct. */
module Cam {
  import opened Wire

  /** A double, kept as its 64-bit IEEE-754 bit pattern. */
  type Float64 = u64

  datatype CamData = CamData(posX: Float64, posY: Float64, speed: Float64, id: u32)

  /** sizeof(CAMData): three 8-byte doubles, a 4-byte id and 4 bytes of
      tail padding that bring the size to a multiple of 8. */
  const CAM_SIZE: nat := 32
  const ID_OFFSET: nat := 24
  const PADDING: seq<byte> := [0, 0, 0, 0]

  /** Four and eight bytes hold exactly the ranges of `u32` and `u64`. */
  lemma Pow256Widths()
    ensures Pow256(4) == 0x1_0000_0000 && Pow256(8) == 0x1_0000_0000_0000_0000
  {
    assert Pow256(4) == 0x1_0000_0000;
  }

  /** The `memcpy` image of a record (padding written as zero bytes). */
  function Encode(d: CamData): (r: seq<byte>)
    ensures |r| == CAM_SIZE
  {
    LittleEndian(d.posX, 8) + LittleEndian(d.posY, 8) + LittleEndian(d.speed, 8)
      + LittleEndian(d.id, 4) + PADDING
  }

  /** Reads a record out of a full-size memory image; padding is ignored. */
  function DecodeImage(b: seq<byte>): CamData
    requires |b| == CAM_SIZE
  {
    Pow256Widths();
    CamData(FromLittleEndian(b[0..8]), FromLittleEndian(b[8..16]),
            FromLittleEndian(b[16..24]), FromLittleEndian(b[24..28]))
  }

  /** `Packet::CopyData(buffer, sizeof(CAMData))`: copies as many bytes as
      the packet has, at most the record size; the bytes it does not reach
      keep whatever the uninitialised local record held (`stale`). */
  function CopyData(packet: seq<byte>, stale: seq<byte>): (r: seq<byte>)
    requires |stale| == CAM_SIZE
    ensures |r| == CAM_SIZE
    ensures |packet| >= CAM_SIZE ==> r == packet[..CAM_SIZE]
    ensures |packet| < CAM_SIZE ==> r[..|packet|] == packet && r[|packet|..] == stale[|packet|..]
  {
    if |packet| >= CAM_SIZE then packet[..CAM_SIZE] else packet + stale[|packet|..]
  }

  /** What `HandleRead` makes of one received datagram. There is no size
      check: a datagram of any length yields a record. */
  function Decode(packet: seq<byte>, stale: seq<byte>): CamData
    requires |stale| == CAM_SIZE
  {
    DecodeImage(CopyData(packet, stale))
  }

  /** The wire contract: decoding the buffer that `SendCAM` builds gives
      back the record that was sent, whatever the receiver's stack held. */
  lemma EncodeDecodeRoundTrip(d: CamData, stale: seq<byte>)
    requires |stale| == CAM_SIZE
    ensures Decode(Encode(d), stale) == d
  {
    var b := Encode(d);
    assert CopyData(b, stale) == b;
    assert b[0..8] == LittleEndian(d.posX, 8);
    assert b[8..16] == LittleEndian(d.posY, 8);
    assert b[16..24] == LittleEndian(d.speed, 8);
    assert b[24..28] == LittleEndian(d.id, 4);
    Pow256Widths();
    LittleEndianRoundTrip(d.posX, 8);
    LittleEndianRoundTrip(d.posY, 8);
    LittleEndianRoundTrip(d.speed, 8);
    LittleEndianRoundTrip(d.id, 4);
  }

  /** The other direction: a full-size image with zero padding is the
      encoding of the record decoded from it. */
  lemma DecodeEncodeRoundTrip(b: seq<byte>)
    requires |b| == CAM_SIZE && b[28..] == PADDING
    ensures Encode(DecodeImage(b)) == b
  {
    FromLittleEndianRoundTrip(b[0..8]);
    FromLittleEndianRoundTrip(b[8..16]);
    FromLittleEndianRoundTrip(b[16..24]);
    FromLittleEndianRoundTrip(b[24..28]);
    assert b == b[0..8] + b[8..16] + b[16..24] + b[24..28] + b[28..];
  }

  /** A datagram of at least the record size is decoded from its own first
      `CAM_SIZE` bytes only: trailing bytes and the stale stack contents
      play no part. */
  lemma LongDatagramDecodesPrefix(packet: seq<byte>, stale1: seq<byte>, stale2: seq<byte>)
    requires |packet| >= CAM_SIZE && |stale1| == CAM_SIZE && |stale2| == CAM_SIZE
    ensures Decode(packet, stale1) == Decode(packet, stale2) == DecodeImage(packet[..CAM_SIZE])
  {
  }

  /** A datagram shorter than the id's end takes part of the id from the
      stale stack contents: the id read back is not determined by the
      datagram. Shown with an empty datagram and two stale images that
      differ in the id bytes. */
  lemma ShortDatagramIdFromStaleMemory()
    ensures Decode([], seq(CAM_SIZE, _ => 0)).id == 0
    ensures Decode([], seq(CAM_SIZE, i => if i == ID_OFFSET then 1 else 0)).id == 1
  {
    var z: seq<byte> := seq(CAM_SIZE, _ => 0);
    var o: seq<byte> := seq(CAM_SIZE, i => if i == ID_OFFSET then 1 else 0);
    assert CopyData([], z) == z;
    assert CopyData([], o) == o;
    assert z[24..28] == [0, 0, 0, 0];
    assert o[24..28] == [1, 0, 0, 0];
    assert FromLittleEndian([0, 0, 0, 0]) == 0;
    assert FromLittleEndian([1, 0, 0, 0]) == 1;
  }
}
