/**
 * Gain encoding: a 32-bit gain code is sent to the DSP as a 4-byte burst,
 * most significant byte first (`set_dsp_scale`).
 */
module GainCodec {
  import opened Basics

  /** x shifted right by 8 * i bits, as the unsigned `x >>= 8` repeated i times. */
  function Shifted(x: nat, i: nat): nat
  {
    if i == 0 then x else Shifted(x, i - 1) / 0x100
  }

  /** The four bytes of x, most significant first. */
  function BigEndian(x: uint32): (v: seq<byte>)
  {
    seq(4, k requires 0 <= k < 4 => Shifted(x, 3 - k) % 0x100)
  }

  /** Reassembles four bytes read most significant first. */
  function FromBigEndian(v: seq<byte>): (x: int)
    requires |v| == 4
    ensures 0 <= x < 0x1_0000_0000
  {
    ((v[0] as int * 0x100 + v[1]) * 0x100 + v[2]) * 0x100 + v[3]
  }

  /** Decoding the burst gives back the gain code: no bits are lost or reordered. */
  lemma BigEndianRoundTrip(x: uint32)
    ensures |BigEndian(x)| == 4
    ensures FromBigEndian(BigEndian(x)) == x
  {
    assert Shifted(x, 0) == x;
    var q1 := Shifted(x, 1);
    assert q1 == x / 0x100;
    var q2 := Shifted(x, 2);
    assert q2 == q1 / 0x100;
    var q3 := Shifted(x, 3);
    assert q3 == q2 / 0x100;
    assert x == q1 * 0x100 + x % 0x100;
    assert q1 == q2 * 0x100 + q1 % 0x100;
    assert q2 == q3 * 0x100 + q2 % 0x100;
    assert q3 < 0x100;
  }

  /** Encoding is injective: distinct gain codes give distinct bursts. */
  lemma BigEndianInjective(x: uint32, y: uint32)
    requires BigEndian(x) == BigEndian(y)
    ensures x == y
  {
    BigEndianRoundTrip(x);
    BigEndianRoundTrip(y);
  }

  /**
   * The byte-filling loop of `set_dsp_scale`: `v[3 - i] = x; x >>= 8;` for i = 0..3,
   * where storing a `uint32_t` into a `uint8_t` keeps its low eight bits and the
   * unsigned right shift by eight divides by 256.
   */
  method GainBytes(gain: uint32) returns (v: seq<byte>)
    ensures v == BigEndian(gain)
    ensures FromBigEndian(v) == gain
  {
    var buf := new byte[4];
    var x: nat := gain;
    for i := 0 to 4
      invariant x == Shifted(gain, i)
      invariant forall k :: 0 <= k < i ==> buf[3 - k] == Shifted(gain, k) % 0x100
    {
      buf[3 - i] := x % 0x100;
      x := x / 0x100;
    }
    v := buf[..];
    assert forall k :: 0 <= k < 4 ==> v[k] == BigEndian(gain)[k] by {
      forall k | 0 <= k < 4 ensures v[k] == BigEndian(gain)[k] {
        assert buf[3 - (3 - k)] == Shifted(gain, 3 - k) % 0x100;
      }
    }
    BigEndianRoundTrip(gain);
  }
}
