/**
 * `vol_put` receives the requested volumes as `long` values but checks them
 * with `volume_is_valid(int v)` and stores them into `int vol[2]`. On a
 * kernel where `long` is 64 bits wide, a value outside the 32-bit range is
 * truncated before the range check, so an out-of-range request can pass
 * the check and be stored as a different, valid volume. The corrected
 * behaviour, which checks the full value, is `Amplifier.VolPutOutcome`.
 */
module Findings {
  import opened Basics
  import opened Chips
  import opened Amplifier

  /** The conversion of a `long` to a 32-bit `int`: the value modulo 2^32, read as two's complement. */
  function Int32(x: int): (r: int)
    ensures -0x8000_0000 <= r < 0x8000_0000
    ensures (x - r) % 0x1_0000_0000 == 0
    ensures -0x8000_0000 <= x < 0x8000_0000 ==> r == x
  {
    var m := x % 0x1_0000_0000;
    if m < 0x8000_0000 then m else m - 0x1_0000_0000
  }

  /**
   * `vol_put` as written: the range check sees the requested values
   * truncated to `int`, the change test compares the full `long` values,
   * and the store truncates them again.
   */
  function VolPutAsWritten(chip: Chip, v0: int, v1: int, a: int, b: int): (o: PutOutcome)
    ensures o.rc == -EINVAL <==> !(VolumeIsValid(chip, Int32(a)) && VolumeIsValid(chip, Int32(b)))
    ensures VolumeIsValid(chip, v0) && VolumeIsValid(chip, v1) ==> VolumeIsValid(chip, o.vol0) && VolumeIsValid(chip, o.vol1)
  {
    if !(VolumeIsValid(chip, Int32(a)) && VolumeIsValid(chip, Int32(b))) then PutOutcome(-EINVAL, v0, v1)
    else if v0 != a || v1 != b then PutOutcome(1, Int32(a), Int32(b))
    else PutOutcome(0, v0, v1)
  }

  /**
   * Asking for 0x1_0000_0005 on both channels of an ACM8635 at 0 dB: the
   * code as written accepts it and drops the volume to control value 5
   * (-105 dB), where the range check evidently meant to answer -EINVAL;
   * from volume 5 the same request is reported as a change although
   * nothing changes.
   */
  lemma VolPutTruncationCounterexample()
    ensures VolPutAsWritten(ACM8635, VOLUME_0DB, VOLUME_0DB, 0x1_0000_0005, 0x1_0000_0005) == PutOutcome(1, 5, 5)
    ensures VolPutOutcome(ACM8635, VOLUME_0DB, VOLUME_0DB, 0x1_0000_0005, 0x1_0000_0005) == PutOutcome(-EINVAL, VOLUME_0DB, VOLUME_0DB)
    ensures VolPutAsWritten(ACM8635, 5, 5, 0x1_0000_0005, 0x1_0000_0005).rc == 1
    ensures VolPutOutcome(ACM8635, 5, 5, 0x1_0000_0005, 0x1_0000_0005).rc == -EINVAL
  {
    assert Int32(0x1_0000_0005) == 5;
  }

  /** For requests that fit in an `int` the code as written and the corrected behaviour agree. */
  lemma VolPutAgreesOnIntRange(chip: Chip, v0: int, v1: int, a: int, b: int)
    requires -0x8000_0000 <= a < 0x8000_0000 && -0x8000_0000 <= b < 0x8000_0000
    ensures VolPutAsWritten(chip, v0, v1, a, b) == VolPutOutcome(chip, v0, v1, a, b)
  {
  }
}
