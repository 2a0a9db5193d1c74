/** Machine-level representation shared by the telemetry record and the
    cluster-centre datagram: bytes, fixed-width unsigned integers, and the
    little-endian layout that `memcpy` produces on the simulation host. */
module Wire {

  type byte = x: int | 0 <= x < 0x100
  type u32 = x: int | 0 <= x < 0x1_0000_0000
  type u64 = x: int | 0 <= x < 0x1_0000_0000_0000_0000

  /** 256^k: the number of distinct values that k bytes can hold. */
  function Pow256(k: nat): (r: nat)
    ensures r >= 1
  {
    if k == 0 then 1 else 256 * Pow256(k - 1)
  }

  /** The k bytes that `memcpy` copies out of an unsigned integer n on a
      little-endian host: least significant byte first. */
  function LittleEndian(n: nat, k: nat): (r: seq<byte>)
    ensures |r| == k
  {
    if k == 0 then [] else [n % 256] + LittleEndian(n / 256, k - 1)
  }

  /** The unsigned integer whose little-endian bytes are s. */
  function FromLittleEndian(s: seq<byte>): (r: nat)
    ensures r < Pow256(|s|)
  {
    if s == [] then 0
    else
      var rest := FromLittleEndian(s[1..]);
      assert rest + 1 <= Pow256(|s| - 1);
      assert s[0] + 256 * rest < 256 * (rest + 1);
      s[0] + 256 * rest
  }

  /** Reading back the bytes of a value that fits in k bytes yields the value. */
  lemma {:induction false} LittleEndianRoundTrip(n: nat, k: nat)
    requires n < Pow256(k)
    ensures FromLittleEndian(LittleEndian(n, k)) == n
  {
    if k > 0 {
      assert n / 256 < Pow256(k - 1);
      LittleEndianRoundTrip(n / 256, k - 1);
      var s := LittleEndian(n, k);
      assert s[1..] == LittleEndian(n / 256, k - 1);
    }
  }

  /** The other direction: every byte string is the little-endian image of
      the integer it denotes, so the layout loses nothing. */
  lemma {:induction false} FromLittleEndianRoundTrip(s: seq<byte>)
    ensures LittleEndian(FromLittleEndian(s), |s|) == s
  {
    if s != [] {
      FromLittleEndianRoundTrip(s[1..]);
      var n := FromLittleEndian(s);
      assert n % 256 == s[0];
      assert n / 256 == FromLittleEndian(s[1..]);
    }
  }
}
