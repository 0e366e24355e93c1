/**
 * The driver's per-device state and its callbacks: the volume control
 * (`vol_get`, `vol_put`), the DAI callbacks (`trigger`, `mute`), the
 * deferred DSP start-up (`do_work`), the DAPM shutdown hook (`dac_event`)
 * and the probe that loads the configuration blob.
 *
 * Every register transaction the driver issues is appended to `trace`;
 * the invariant `Valid` ties the trace, interpreted by `Registers.Run`
 * from any starting chip state, to the driver's own fields.
 */
module Amplifier {
  import opened Basics
  import opened GainCodec
  import opened GainTables
  import opened Chips
  import opened Registers
  import opened Scripts

  // ----- probe: the configuration blob -----

  /** What `request_firmware` gave: the blob's bytes, or a negative error code. */
  datatype Firmware = Found(data: seq<byte>) | Missing(err: Errno)

  /** The size check of probe: at least one pair and a whole number of pairs. */
  predicate ConfigAccepted(data: seq<byte>): (ok: bool)
    ensures ok <==> |data| >= 2 && |data| % 2 == 0
  {
    !(|data| < 2 || |data| % 2 == 1)
  }

  /**
   * The configuration probe keeps: a blob that fails the size check is
   * -EINVAL; a missing blob is no configuration (None) on a chip with a
   * built-in default and the request's own error on a chip without one.
   */
  function LoadConfig(chip: Chip, fw: Firmware): (r: Result<Option<seq<byte>>>)
    ensures r.Success? <==> (fw.Found? && ConfigAccepted(fw.data)) || (fw.Missing? && FallbackConfig(chip).Some?)
    ensures fw.Found? && !ConfigAccepted(fw.data) ==> r == Failure(-EINVAL)
    ensures fw.Missing? && FallbackConfig(chip).None? ==> r == Failure(fw.err)
    ensures r.Success? ==> r.value == (if fw.Found? then Some(fw.data) else None)
  {
    match fw
    case Found(data) =>
      if |data| < 2 || |data| % 2 == 1 then Failure(-EINVAL) else Success(Some(data))
    case Missing(err) =>
      if FallbackConfig(chip).Some? then Success(None) else Failure(err)
  }

  /**
   * A loaded configuration is sent whole: one register write per pair,
   * no byte left over, and at least one write.
   */
  lemma LoadedConfigSentWhole(chip: Chip, fw: Firmware)
    requires LoadConfig(chip, fw).Success? && LoadConfig(chip, fw).value.Some?
    ensures var c := LoadConfig(chip, fw).value.value;
            |CfgEvents(c)| >= 1 && 2 * |CfgEvents(c)| == |c| &&
            forall k :: 0 <= k < |c| / 2 ==> CfgEvents(c)[k] == Write(c[2 * k], c[2 * k + 1])
  {
    CfgEventsAt(LoadConfig(chip, fw).value.value);
  }

  // ----- vol_put -----

  /** What `vol_put` returns and the two volumes it leaves. */
  datatype PutOutcome = PutOutcome(rc: int, vol0: int, vol1: int)

  /**
   * `vol_put` on volumes v0, v1 asked to take a, b: -EINVAL and nothing
   * changes unless both are valid; otherwise the volumes become a, b and the
   * result says whether that was a change (1) or not (0).
   */
  function VolPutOutcome(chip: Chip, v0: int, v1: int, a: int, b: int): (o: PutOutcome)
    ensures o.rc == -EINVAL <==> !(VolumeIsValid(chip, a) && VolumeIsValid(chip, b))
    ensures o.rc == -EINVAL ==> o.vol0 == v0 && o.vol1 == v1
    ensures o.rc != -EINVAL ==> o.vol0 == a && o.vol1 == b
    ensures o.rc == 1 <==> VolumeIsValid(chip, a) && VolumeIsValid(chip, b) && (a != v0 || b != v1)
    ensures o.rc == 0 <==> VolumeIsValid(chip, a) && VolumeIsValid(chip, b) && a == v0 && b == v1
    ensures VolumeIsValid(chip, v0) && VolumeIsValid(chip, v1) ==> VolumeIsValid(chip, o.vol0) && VolumeIsValid(chip, o.vol1)
  {
    if !(VolumeIsValid(chip, a) && VolumeIsValid(chip, b)) then PutOutcome(-EINVAL, v0, v1)
    else if v0 != a || v1 != b then PutOutcome(1, a, b)
    else PutOutcome(0, v0, v1)
  }

  /** Putting the volumes a second time reports no change and changes nothing. */
  lemma VolPutIdempotent(chip: Chip, v0: int, v1: int, a: int, b: int)
    requires VolPutOutcome(chip, v0, v1, a, b).rc != -EINVAL
    ensures var o := VolPutOutcome(chip, v0, v1, a, b);
            VolPutOutcome(chip, o.vol0, o.vol1, a, b) == PutOutcome(0, a, b)
  {
  }

  // ----- trigger -----

  /** `SNDRV_PCM_TRIGGER_*` command codes. */
  const TRIGGER_STOP: int := 0
  const TRIGGER_START: int := 1
  const TRIGGER_PAUSE_PUSH: int := 3
  const TRIGGER_PAUSE_RELEASE: int := 4
  const TRIGGER_SUSPEND: int := 5
  const TRIGGER_RESUME: int := 6

  /** The commands on which the I2S clock (re)starts and the DSP start-up is scheduled. */
  predicate StartsClock(cmd: int)
  {
    cmd == TRIGGER_START || cmd == TRIGGER_RESUME || cmd == TRIGGER_PAUSE_RELEASE
  }

  /** The commands that are accepted and need nothing done. */
  predicate StopsClock(cmd: int)
  {
    cmd == TRIGGER_STOP || cmd == TRIGGER_SUSPEND || cmd == TRIGGER_PAUSE_PUSH
  }

  // ----- dac_event -----

  /** `SND_SOC_DAPM_PRE_PMD`, the "about to power down" event bit. */
  const DAPM_PRE_PMD: bv32 := 0x4

  /** `event & SND_SOC_DAPM_PRE_PMD` is non-zero, on the event's 32 bits. */
  predicate HasPrePmd(event: bv32)
  {
    event & DAPM_PRE_PMD != 0
  }

  /** Appending three scripts one after the other appends their concatenation. */
  lemma JoinTrace(t: seq<Event>, a: seq<Event>, b: seq<Event>, c: seq<Event>)
    ensures t + a + b + c == t + (a + b + c)
  {
  }

  // ----- the driver state -----

  /**
   * `struct acm86xx_priv`: the configuration blob (None when the built-in
   * default is used), the two channel volumes, the power and mute flags,
   * whether the start-up work is queued, and every transaction sent so far.
   */
  class Amplifier {
    const chip: Chip
    const dspCfg: Option<seq<byte>>
    const vol: array<int>
    var isPowered: bool
    var isMuted: bool
    var workPending: bool
    var trace: seq<Event>

    /**
     * The volumes are valid and the configuration passed the size check (or
     * the chip has a default). Whatever state the chip started in, after
     * the transactions sent so far it is playing the current volumes and
     * mute state while powered, and in Hi-Z after a shutdown.
     */
    ghost predicate Valid()
      reads this, vol
    {
      && vol.Length == 2
      && VolumeIsValid(chip, vol[0]) && VolumeIsValid(chip, vol[1])
      && (dspCfg.Some? ==> ConfigAccepted(dspCfg.value))
      && (dspCfg.None? ==> FallbackConfig(chip).Some?)
      && (isPowered ==> forall d :: Playing(chip, Run(d, trace), vol[0], vol[1], isMuted))
      && (!isPowered && trace != [] ==> forall d :: Silenced(Run(d, trace)))
    }

    /** The configuration `do_work` sends: the loaded blob, or else the built-in default. */
    function ActiveConfig(): (c: seq<byte>)
      requires dspCfg.Some? || FallbackConfig(chip).Some?
      reads this
      ensures dspCfg.Some? ==> c == dspCfg.value
      ensures dspCfg.None? ==> c == FallbackConfig(chip).value
    {
      match dspCfg
      case Some(data) => data
      case None => FallbackConfig(chip).value
    }

    /** The state probe leaves: both channels at 0 dB, unpowered, unmuted, nothing sent. */
    constructor (chip: Chip, dspCfg: Option<seq<byte>>)
      requires dspCfg.Some? ==> ConfigAccepted(dspCfg.value)
      requires dspCfg.None? ==> FallbackConfig(chip).Some?
      ensures this.chip == chip && this.dspCfg == dspCfg
      ensures vol.Length == 2 && vol[0] == VOLUME_0DB && vol[1] == VOLUME_0DB
      ensures !isPowered && !isMuted && !workPending && trace == []
      ensures fresh(vol)
      ensures Valid()
    {
      this.chip := chip;
      this.dspCfg := dspCfg;
      vol := new int[2](_ => VOLUME_0DB);
      isPowered := false;
      isMuted := false;
      workPending := false;
      trace := [];
    }

    // ----- bus transactions -----

    /** `regmap_write`. */
    method RegWrite(reg: byte, val: byte)
      modifies this
      ensures trace == old(trace) + [Write(reg, val)]
      ensures isPowered == old(isPowered) && isMuted == old(isMuted) && workPending == old(workPending)
    {
      trace := trace + [Write(reg, val)];
    }

    /** `regmap_bulk_write`. */
    method BulkWrite(reg: byte, data: seq<byte>)
      modifies this
      ensures trace == old(trace) + [Bulk(reg, data)]
      ensures isPowered == old(isPowered) && isMuted == old(isMuted) && workPending == old(workPending)
    {
      trace := trace + [Bulk(reg, data)];
    }

    /** `regmap_read`; the value read is not used by the driver beyond logging. */
    method RegRead(reg: byte)
      modifies this
      ensures trace == old(trace) + [Read(reg)]
      ensures isPowered == old(isPowered) && isMuted == old(isMuted) && workPending == old(workPending)
    {
      trace := trace + [Read(reg)];
    }

    // ----- register scripts -----

    /** `set_dsp_scale`: burst the table entry of control value v, big-endian, at offset. */
    method SetDspScale(offset: byte, v: int)
      requires VolumeIsValid(chip, v)
      modifies this
      ensures trace == old(trace) + [ScaleEvent(chip, offset, v)]
      ensures isPowered == old(isPowered) && isMuted == old(isMuted) && workPending == old(workPending)
    {
      var bytes := GainBytes(Gain(chip, v));
      BulkWrite(offset, bytes);
    }

    /** `refresh`: program both channel gains and the play state with the mute bits. */
    method Refresh()
      requires vol.Length == 2 && VolumeIsValid(chip, vol[0]) && VolumeIsValid(chip, vol[1])
      modifies this
      ensures trace == old(trace) + RefreshEvents(chip, vol[0], vol[1], isMuted)
      ensures isPowered == old(isPowered) && isMuted == old(isMuted) && workPending == old(workPending)
    {
      RegWrite(REG_PAGE, GainPage(chip));
      SetDspScale(LeftGainOffset(chip), vol[0]);
      SetDspScale(RightGainOffset(chip), vol[1]);
      RegWrite(REG_PAGE, 0x00);
      RegWrite(REG_DEVICE_STATE, PlayState(isMuted));
    }

    /** `send_cfg`: one write per register/value pair; a trailing odd byte is not sent. */
    method SendCfg(s: seq<byte>)
      modifies this
      ensures trace == old(trace) + CfgEvents(s)
      ensures isPowered == old(isPowered) && isMuted == old(isMuted) && workPending == old(workPending)
    {
      var i := 0;
      while i + 1 < |s|
        invariant 0 <= i <= |s| && i % 2 == 0
        invariant trace == old(trace) + CfgEvents(s[..i])
        invariant isPowered == old(isPowered) && isMuted == old(isMuted) && workPending == old(workPending)
        decreases |s| - i
      {
        RegWrite(s[i], s[i + 1]);
        CfgEventsAppend(s[..i], s[i..i + 2]);
        assert s[..i] + s[i..i + 2] == s[..i + 2];
        assert CfgEvents(s[i..i + 2]) == [Write(s[i], s[i + 1])] by {
          assert s[i..i + 2][2..] == [];
        }
        i := i + 2;
      }
      if i < |s| {
        assert s == s[..i] + [s[i]];
        CfgIgnoresOddByte(s[..i], s[i]);
      } else {
        assert s[..i] == s;
      }
    }

    /**
     * The transactions appended after `before` leave the chip playing the
     * current settings from any starting state, given that `tail` does so
     * for every chip state.
     */
    lemma AppendKeepsPlaying(before: seq<Event>, tail: seq<Event>)
      requires vol.Length == 2 && VolumeIsValid(chip, vol[0]) && VolumeIsValid(chip, vol[1])
      requires forall d :: Playing(chip, Run(d, tail), vol[0], vol[1], isMuted)
      ensures forall d :: Playing(chip, Run(d, before + tail), vol[0], vol[1], isMuted)
    {
      forall d ensures Playing(chip, Run(d, before + tail), vol[0], vol[1], isMuted) {
        RunAppend(d, before, tail);
        assert Playing(chip, Run(Run(d, before), tail), vol[0], vol[1], isMuted);
      }
    }

    /** A refresh leaves the chip playing the current settings from any starting state. */
    lemma RefreshPlays()
      requires vol.Length == 2 && VolumeIsValid(chip, vol[0]) && VolumeIsValid(chip, vol[1])
      ensures forall d :: Playing(chip, Run(d, RefreshEvents(chip, vol[0], vol[1], isMuted)), vol[0], vol[1], isMuted)
    {
      forall d ensures Playing(chip, Run(d, RefreshEvents(chip, vol[0], vol[1], isMuted)), vol[0], vol[1], isMuted) {
        RefreshProgramsDevice(chip, d, vol[0], vol[1], isMuted);
      }
    }

    /** Refresh when powered, keeping the invariant. */
    method RefreshIfPowered()
      requires vol.Length == 2 && VolumeIsValid(chip, vol[0]) && VolumeIsValid(chip, vol[1])
      requires dspCfg.Some? ==> ConfigAccepted(dspCfg.value)
      requires dspCfg.None? ==> FallbackConfig(chip).Some?
      requires !isPowered && trace != [] ==> forall d :: Silenced(Run(d, trace))
      modifies this
      ensures Valid()
      ensures trace == old(trace) + (if isPowered then RefreshEvents(chip, vol[0], vol[1], isMuted) else [])
      ensures isPowered == old(isPowered) && isMuted == old(isMuted) && workPending == old(workPending)
    {
      if isPowered {
        ghost var before := trace;
        Refresh();
        RefreshPlays();
        AppendKeepsPlaying(before, RefreshEvents(chip, vol[0], vol[1], isMuted));
      } else {
        assert trace == old(trace) + [];
      }
    }

    // ----- the control and DAI callbacks -----

    /** `vol_get`: report both volumes. */
    method VolGet() returns (rc: int, v0: int, v1: int)
      requires Valid()
      ensures rc == 0 && v0 == vol[0] && v1 == vol[1]
      ensures VolumeIsValid(chip, v0) && VolumeIsValid(chip, v1)
    {
      rc, v0, v1 := 0, vol[0], vol[1];
    }

    /**
     * `vol_put` with the requested values a, b checked in full: on a change
     * store them and, when powered, refresh the chip.
     */
    method VolPut(a: int, b: int) returns (rc: int)
      requires Valid()
      modifies this, vol
      ensures Valid()
      ensures var o := VolPutOutcome(chip, old(vol[0]), old(vol[1]), a, b);
              rc == o.rc && vol[0] == o.vol0 && vol[1] == o.vol1
      ensures trace == old(trace) + (if rc == 1 && isPowered then RefreshEvents(chip, vol[0], vol[1], isMuted) else [])
      ensures isPowered == old(isPowered) && isMuted == old(isMuted) && workPending == old(workPending)
    {
      if !(VolumeIsValid(chip, a) && VolumeIsValid(chip, b)) {
        assert trace == old(trace) + [];
        return -EINVAL;
      }
      rc := 0;
      if vol[0] != a || vol[1] != b {
        vol[0] := a;
        vol[1] := b;
        RefreshIfPowered();
        rc := 1;
      } else {
        assert trace == old(trace) + [];
      }
    }

    /** `mute`: record the mute state (any non-zero value mutes) and, when powered, refresh the chip. */
    method Mute(mute: int) returns (rc: int)
      requires Valid()
      modifies this
      ensures Valid()
      ensures rc == 0
      ensures isMuted == (mute != 0)
      ensures trace == old(trace) + (if isPowered then RefreshEvents(chip, vol[0], vol[1], isMuted) else [])
      ensures isPowered == old(isPowered) && workPending == old(workPending)
    {
      isMuted := mute != 0;
      RefreshIfPowered();
      rc := 0;
    }

    /**
     * `trigger`: the start commands queue the DSP start-up work, the stop
     * commands do nothing, any other command is -EINVAL. No transaction is sent.
     */
    method Trigger(cmd: int) returns (rc: int)
      requires Valid()
      modifies this
      ensures Valid()
      ensures rc == 0 <==> StartsClock(cmd) || StopsClock(cmd)
      ensures rc != 0 ==> rc == -EINVAL
      ensures workPending == (old(workPending) || StartsClock(cmd))
      ensures trace == old(trace) && isPowered == old(isPowered) && isMuted == old(isMuted)
    {
      if cmd == TRIGGER_START || cmd == TRIGGER_RESUME || cmd == TRIGGER_PAUSE_RELEASE {
        workPending := true;
      } else if cmd == TRIGGER_STOP || cmd == TRIGGER_SUSPEND || cmd == TRIGGER_PAUSE_PUSH {
      } else {
        return -EINVAL;
      }
      rc := 0;
    }

    /**
     * `do_work`: the preboot script, the configuration (the loaded blob or
     * the built-in default), then power on and refresh.
     */
    method DoWork()
      requires Valid()
      modifies this
      ensures Valid()
      ensures isPowered
      ensures trace == old(trace) + BootEvents(chip, ActiveConfig(), vol[0], vol[1], isMuted)
      ensures isMuted == old(isMuted) && workPending == old(workPending)
    {
      ghost var before := trace;
      SendCfg(Preboot(chip));
      match dspCfg {
        case Some(data) => SendCfg(data);
        case None => SendCfg(FallbackConfig(chip).value);
      }
      ghost var setup := trace;
      isPowered := true;
      Refresh();
      RefreshPlays();
      AppendKeepsPlaying(setup, RefreshEvents(chip, vol[0], vol[1], isMuted));
      JoinTrace(before, CfgEvents(Preboot(chip)), CfgEvents(ActiveConfig()), RefreshEvents(chip, vol[0], vol[1], isMuted));
    }

    /** The work queue runs the start-up work if it is queued. */
    method RunPendingWork()
      requires Valid()
      modifies this
      ensures Valid()
      ensures !workPending
      ensures old(workPending) ==> isPowered && trace == old(trace) + BootEvents(chip, ActiveConfig(), vol[0], vol[1], isMuted)
      ensures !old(workPending) ==> trace == old(trace) && isPowered == old(isPowered)
      ensures isMuted == old(isMuted)
    {
      if workPending {
        workPending := false;
        DoWork();
      }
    }

    /**
     * `dac_event`: on PRE_PMD, drop the queued start-up work and, when
     * powered, power off: page 0, read the four status registers, Hi-Z.
     */
    method DacEvent(event: bv32) returns (rc: int)
      requires Valid()
      modifies this
      ensures Valid()
      ensures rc == 0
      ensures HasPrePmd(event) ==> !workPending && !isPowered
      ensures HasPrePmd(event) && old(isPowered) ==> trace == old(trace) + SHUTDOWN_EVENTS
      ensures !(HasPrePmd(event) && old(isPowered)) ==> trace == old(trace)
      ensures !HasPrePmd(event) ==> workPending == old(workPending) && isPowered == old(isPowered)
      ensures isMuted == old(isMuted)
    {
      if event & DAPM_PRE_PMD != 0 {
        workPending := false;
        if isPowered {
          ghost var before := trace;
          isPowered := false;
          RegWrite(REG_PAGE, 0x00);
          RegRead(REG_STATE_REPORT);
          RegRead(REG_GLOBAL_FAULT1);
          RegRead(REG_GLOBAL_FAULT2);
          RegRead(REG_GLOBAL_FAULT3);
          RegWrite(REG_DEVICE_STATE, DEVICE_STATE_HIZ);
          assert trace == before + SHUTDOWN_EVENTS;
          forall d ensures Silenced(Run(d, trace)) {
            RunAppend(d, before, SHUTDOWN_EVENTS);
            ShutdownSilencesDevice(Run(d, before));
          }
        }
      }
      rc := 0;
    }
  }

  /**
   * `i2c_probe`: load the configuration and create the device state, or
   * fail with the error of `LoadConfig`.
   */
  method Probe(chip: Chip, fw: Firmware) returns (rc: int, amp: Amplifier?)
    ensures LoadConfig(chip, fw).Failure? ==> rc == LoadConfig(chip, fw).error && amp == null
    ensures LoadConfig(chip, fw).Success? ==> rc == 0 && amp != null && fresh(amp) && fresh(amp.vol)
    ensures amp != null ==> amp.Valid() && amp.chip == chip && amp.dspCfg == LoadConfig(chip, fw).value
    ensures amp != null ==> amp.vol[0] == VOLUME_0DB && amp.vol[1] == VOLUME_0DB
    ensures amp != null ==> !amp.isPowered && !amp.isMuted && !amp.workPending && amp.trace == []
  {
    var r := LoadConfig(chip, fw);
    if r.Failure? {
      return r.error, null;
    }
    amp := new Amplifier(chip, r.value);
    rc := 0;
  }
}
