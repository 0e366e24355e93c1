/**
 * Sequences of callbacks on one device, as the ALSA core and the work
 * queue would issue them, and what they leave behind.
 */
module Scenarios {
  import opened Basics
  import opened Chips
  import opened Registers
  import opened Scripts
  import opened Amplifier

  /** A volume that was put is the volume read back. */
  method PutThenGet(amp: Amplifier, a: int, b: int) returns (rc: int, v0: int, v1: int)
    requires amp.Valid() && VolumeIsValid(amp.chip, a) && VolumeIsValid(amp.chip, b)
    modifies amp, amp.vol
    ensures amp.Valid()
    ensures rc == (if a == old(amp.vol[0]) && b == old(amp.vol[1]) then 0 else 1)
    ensures v0 == a && v1 == b
  {
    rc := amp.VolPut(a, b);
    var _, x, y := amp.VolGet();
    v0, v1 := x, y;
  }

  /**
   * Putting the same volumes twice: the second put reports no change and
   * sends nothing, so the two puts send at most the one refresh of the first.
   */
  method PutTwice(amp: Amplifier, a: int, b: int) returns (rc: int)
    requires amp.Valid() && VolumeIsValid(amp.chip, a) && VolumeIsValid(amp.chip, b)
    modifies amp, amp.vol
    ensures amp.Valid()
    ensures rc == 0
    ensures amp.vol[0] == a && amp.vol[1] == b
    ensures amp.isPowered == old(amp.isPowered) && amp.isMuted == old(amp.isMuted)
    ensures amp.trace == old(amp.trace) +
              (if (a != old(amp.vol[0]) || b != old(amp.vol[1])) && amp.isPowered
               then RefreshEvents(amp.chip, a, b, amp.isMuted) else [])
  {
    var _ := amp.VolPut(a, b);
    ghost var t := amp.trace;
    rc := amp.VolPut(a, b);
    assert amp.trace == t;
  }

  /** A rejected put changes neither the volumes nor the chip. */
  method PutOutOfRange(amp: Amplifier) returns (rc: int)
    requires amp.Valid()
    modifies amp, amp.vol
    ensures amp.Valid()
    ensures rc == -EINVAL
    ensures amp.vol[0] == old(amp.vol[0]) && amp.vol[1] == old(amp.vol[1]) && amp.trace == old(amp.trace)
  {
    rc := amp.VolPut(VolumeMax(amp.chip) + 1, VOLUME_0DB);
  }

  /**
   * Muting while the chip is off sends nothing, and the mute takes effect
   * when the clock starts and the start-up work runs.
   */
  method MuteThenStart(amp: Amplifier)
    requires amp.Valid() && !amp.isPowered
    modifies amp
    ensures amp.Valid() && amp.isPowered && amp.isMuted && !amp.workPending
    ensures forall d :: Playing(amp.chip, Run(d, amp.trace), amp.vol[0], amp.vol[1], true)
  {
    var _ := amp.Mute(1);
    assert amp.trace == old(amp.trace);
    var rc := amp.Trigger(TRIGGER_START);
    amp.RunPendingWork();
  }

  /** Muting twice with the same value leaves the same state as muting once. */
  method MuteTwice(amp: Amplifier, m: int)
    requires amp.Valid()
    modifies amp
    ensures amp.Valid()
    ensures amp.isMuted == (m != 0) && amp.isPowered == old(amp.isPowered)
    ensures amp.trace == old(amp.trace) + (if amp.isPowered then RefreshEvents(amp.chip, amp.vol[0], amp.vol[1], amp.isMuted) + RefreshEvents(amp.chip, amp.vol[0], amp.vol[1], amp.isMuted) else [])
  {
    var _ := amp.Mute(m);
    ghost var once := amp.isMuted;
    var _ := amp.Mute(m);
    assert amp.isMuted == once;
  }

  /** After a shutdown a second shutdown sends nothing, and the chip stays in Hi-Z. */
  method ShutdownTwice(amp: Amplifier)
    requires amp.Valid() && amp.isPowered
    modifies amp
    ensures amp.Valid() && !amp.isPowered
    ensures amp.trace == old(amp.trace) + SHUTDOWN_EVENTS
    ensures forall d :: Silenced(Run(d, amp.trace))
  {
    var _ := amp.DacEvent(DAPM_PRE_PMD);
    var _ := amp.DacEvent(DAPM_PRE_PMD);
  }

  /** A start trigger followed by the shutdown hook before the work ran: the chip is never booted. */
  method StartThenStopBeforeWork(amp: Amplifier)
    requires amp.Valid() && !amp.isPowered
    modifies amp
    ensures amp.Valid() && !amp.isPowered && !amp.workPending
    ensures amp.trace == old(amp.trace)
  {
    var _ := amp.Trigger(TRIGGER_START);
    var _ := amp.DacEvent(DAPM_PRE_PMD);
    amp.RunPendingWork();
  }
}
