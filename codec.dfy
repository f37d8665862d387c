/** Payload encoders for the three attributes the watch writes, the decoder
    for the uptime counter it reads, and the accessory-side readers that
    invert them. */
module Codec {
  import opened Attributes
  import opened Wrappers

  /** The C conversion `(uint8_t) x`: the value modulo 2^8. */
  function Truncate(x: int): (b: Byte)
    ensures 0 <= x < 256 ==> b == x
    ensures (x - b) % 256 == 0
  {
    x % 256
  }

  /** The sound trigger payload: the single "fire" byte. */
  function SoundPayload(): (p: seq<Byte>)
    ensures |p| == Table(Sound).length
  {
    [1]
  }

  /** The say-time payload: hour then minute, each truncated to a byte. */
  function SayTimePayload(hour: int, minute: int): (p: seq<Byte>)
    ensures |p| == Table(SayTime).length
  {
    [Truncate(hour), Truncate(minute)]
  }

  /** The renotify payload: a C bool stored into a byte. */
  function RenotifyPayload(startNotify: bool): (p: seq<Byte>)
    ensures |p| == Table(Renotify).length
  {
    [if startNotify then 1 else 0]
  }

  /** How the accessory reads a one-byte flag payload. */
  function FlagOf(p: seq<Byte>): Option<bool>
  {
    if |p| == 1 then Some(p[0] != 0) else None
  }

  /** How the accessory reads a say-time payload. */
  function TimeOf(p: seq<Byte>): Option<(nat, nat)>
  {
    if |p| == 2 then Some((p[0], p[1])) else None
  }

  lemma SoundIsFire()
    ensures SoundPayload() == [1]
    ensures FlagOf(SoundPayload()) == Some(true)
  {
  }

  /** The renotify flag reaches the accessory unchanged. */
  lemma RenotifyRoundTrip(startNotify: bool)
    ensures RenotifyPayload(startNotify) == (if startNotify then [1] else [0])
    ensures FlagOf(RenotifyPayload(startNotify)) == Some(startNotify)
  {
  }

  /** The accessory reads back the hour and minute modulo 256, and exactly
      the hour and minute for every time of day. */
  lemma SayTimeRoundTrip(hour: int, minute: int)
    ensures TimeOf(SayTimePayload(hour, minute)) == Some((hour % 256, minute % 256))
    ensures 0 <= hour < 24 && 0 <= minute < 60 ==>
              TimeOf(SayTimePayload(hour, minute)) == Some((hour, minute))
  {
  }

  // Little-endian unsigned integers: the ARM host order in which the uptime
  // payload's four bytes are read as one uint32_t.

  function Pow256(k: nat): (p: nat)
    ensures p >= 1
  {
    if k == 0 then 1 else 256 * Pow256(k - 1)
  }

  const U32Limit: nat := 0x1_0000_0000

  lemma Pow256Four()
    ensures Pow256(4) == U32Limit
  {
  }

  /** The unsigned value of a little-endian byte string. */
  function DecodeLE(b: seq<Byte>): (n: nat)
    ensures n < Pow256(|b|)
  {
    if b == [] then 0 else b[0] + 256 * DecodeLE(b[1..])
  }

  /** The k-byte little-endian representation of n modulo 256^k, as the
      accessory produces it. */
  function EncodeLE(n: nat, k: nat): (b: seq<Byte>)
    ensures |b| == k
  {
    if k == 0 then [] else [n % 256] + EncodeLE(n / 256, k - 1)
  }

  lemma {:induction false} DecodeEncode(n: nat, k: nat)
    requires n < Pow256(k)
    ensures DecodeLE(EncodeLE(n, k)) == n
  {
    if k > 0 {
      var rest := EncodeLE(n / 256, k - 1);
      assert n / 256 < Pow256(k - 1);
      DecodeEncode(n / 256, k - 1);
      assert EncodeLE(n, k)[1..] == rest;
    }
  }

  lemma {:induction false} EncodeDecode(b: seq<Byte>)
    ensures EncodeLE(DecodeLE(b), |b|) == b
  {
    if b != [] {
      var n := DecodeLE(b);
      var tail := DecodeLE(b[1..]);
      assert n == b[0] + 256 * tail;
      assert n % 256 == b[0] && n / 256 == tail;
      EncodeDecode(b[1..]);
      assert EncodeLE(n, |b|) == [b[0]] + b[1..];
    }
  }

  /** The uptime payload read as a host-order (little-endian) uint32_t. */
  function DecodeU32(data: seq<Byte>): (n: nat)
    requires |data| == 4
    ensures n < U32Limit
    ensures EncodeLE(n, 4) == data
  {
    Pow256Four();
    EncodeDecode(data);
    DecodeLE(data)
  }

  /** Every uint32_t is the decoding of exactly one 4-byte payload. */
  lemma DecodeU32Bijective(n: nat)
    requires n < U32Limit
    ensures DecodeU32(EncodeLE(n, 4)) == n
  {
    Pow256Four();
    DecodeEncode(n, 4);
  }

  lemma DecodeU32Example()
    ensures DecodeU32([0x64, 0, 0, 0]) == 100
    ensures DecodeU32([0, 1, 0, 0]) == 256
    ensures DecodeU32([0xff, 0xff, 0xff, 0xff]) == U32Limit - 1
  {
  }
}
