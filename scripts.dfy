/**
 * The register scripts the controller sends, as transaction sequences, and
 * what each leaves in the chip's registers.
 */
module Scripts {
  import opened Basics
  import opened GainCodec
  import opened GainTables
  import opened Chips
  import opened Registers

  /**
   * `send_cfg`: a configuration is a flat list of register/value byte pairs,
   * sent as one write per pair; a trailing odd byte is not sent.
   */
  function CfgEvents(s: seq<byte>): seq<Event>
    decreases |s|
  {
    if |s| < 2 then [] else [Write(s[0], s[1])] + CfgEvents(s[2..])
  }

  /** Pair k of the configuration becomes write k, and there are |s| / 2 writes. */
  lemma {:induction false} CfgEventsAt(s: seq<byte>)
    ensures |CfgEvents(s)| == |s| / 2
    ensures forall k :: 0 <= k < |s| / 2 ==> CfgEvents(s)[k] == Write(s[2 * k], s[2 * k + 1])
    decreases |s|
  {
    if |s| >= 2 {
      CfgEventsAt(s[2..]);
      forall k | 0 <= k < |s| / 2 ensures CfgEvents(s)[k] == Write(s[2 * k], s[2 * k + 1]) {
        if k > 0 {
          assert CfgEvents(s)[k] == CfgEvents(s[2..])[k - 1];
          assert s[2..][2 * (k - 1)] == s[2 * k] && s[2..][2 * (k - 1) + 1] == s[2 * k + 1];
        }
      }
    }
  }

  /** A configuration split after a whole number of pairs is sent as its two halves. */
  lemma {:induction false} CfgEventsAppend(a: seq<byte>, b: seq<byte>)
    requires |a| % 2 == 0
    ensures CfgEvents(a + b) == CfgEvents(a) + CfgEvents(b)
    decreases |a|
  {
    if a == [] {
      assert a + b == b;
    } else {
      assert (a + b)[2..] == a[2..] + b;
      CfgEventsAppend(a[2..], b);
    }
  }

  /** A trailing odd byte is ignored. */
  lemma CfgIgnoresOddByte(s: seq<byte>, x: byte)
    requires |s| % 2 == 0
    ensures CfgEvents(s + [x]) == CfgEvents(s)
  {
    CfgEventsAppend(s, [x]);
    assert CfgEvents(s) + [] == CfgEvents(s);
  }

  /** The value written to DEVICE_STATE by a refresh: PLAY, with the soft-mute bits set when muted. */
  function PlayState(muted: bool): (st: byte)
    ensures st == if muted then 0x0F else 0x03
  {
    ((if muted then DEVICE_STATE_MUTE else 0) as bv8 | DEVICE_STATE_PLAY as bv8) as int
  }

  /** `set_dsp_scale`: one 4-byte burst of the gain code for control value v. */
  function ScaleEvent(chip: Chip, offset: byte, v: int): Event
    requires VolumeIsValid(chip, v)
  {
    Bulk(offset, BigEndian(Gain(chip, v)))
  }

  /**
   * The shape of a refresh: select page gp, burst b0 at off0 and b1 at off1,
   * return to page 0 and write st to DEVICE_STATE.
   */
  function RefreshScript(gp: byte, off0: byte, off1: byte, b0: seq<byte>, b1: seq<byte>, st: byte): seq<Event>
  {
    [Write(REG_PAGE, gp), Bulk(off0, b0), Bulk(off1, b1), Write(REG_PAGE, 0x00), Write(REG_DEVICE_STATE, st)]
  }

  /**
   * `refresh`: select the gain page, burst both channel gains, return to
   * page 0 and write the play state with the mute bits.
   */
  function RefreshEvents(chip: Chip, v0: int, v1: int, muted: bool): seq<Event>
    requires VolumeIsValid(chip, v0) && VolumeIsValid(chip, v1)
  {
    var e0, e1 := ScaleEvent(chip, LeftGainOffset(chip), v0), ScaleEvent(chip, RightGainOffset(chip), v1);
    RefreshScript(GainPage(chip), e0.reg, e1.reg, e0.data, e1.data, PlayState(muted))
  }

  /**
   * The refresh of each chip, written out: ACM8635 selects page 0x04 and
   * bursts vol[0] at 0x7c then vol[1] at 0x80; ACM8623 selects page 0x05
   * and bursts vol[0] at 0xc4 then vol[1] at the lower offset 0xc0. Each
   * burst reads back big-endian as the table entry.
   */
  lemma RefreshEventsByChip(chip: Chip, v0: int, v1: int, muted: bool)
    requires VolumeIsValid(chip, v0) && VolumeIsValid(chip, v1)
    ensures var gp, off0, off1 := (if chip == ACM8635 then 0x04 else 0x05), (if chip == ACM8635 then 0x7c else 0xc4), (if chip == ACM8635 then 0x80 else 0xc0);
            RefreshEvents(chip, v0, v1, muted) ==
              [ Write(0x00, gp), Bulk(off0, BigEndian(Gain(chip, v0))), Bulk(off1, BigEndian(Gain(chip, v1))),
                Write(0x00, 0x00), Write(0x04, if muted then 0x0F else 0x03) ]
    ensures |RefreshEvents(chip, v0, v1, muted)[1].data| == 4 && |RefreshEvents(chip, v0, v1, muted)[2].data| == 4
    ensures FromBigEndian(RefreshEvents(chip, v0, v1, muted)[1].data) == Gain(chip, v0)
    ensures FromBigEndian(RefreshEvents(chip, v0, v1, muted)[2].data) == Gain(chip, v1)
  {
    BigEndianRoundTrip(Gain(chip, v0));
    BigEndianRoundTrip(Gain(chip, v1));
  }

  /** The PRE_PMD part of `dac_event` when powered: back to page 0, read the four fault registers, go Hi-Z. */
  const SHUTDOWN_EVENTS: seq<Event> :=
    [ Write(REG_PAGE, 0x00),
      Read(REG_STATE_REPORT),
      Read(REG_GLOBAL_FAULT1),
      Read(REG_GLOBAL_FAULT2),
      Read(REG_GLOBAL_FAULT3),
      Write(REG_DEVICE_STATE, DEVICE_STATE_HIZ) ]

  /** `do_work`: the preboot pairs, then the configuration pairs, then a refresh. */
  function BootEvents(chip: Chip, cfg: seq<byte>, v0: int, v1: int, muted: bool): seq<Event>
    requires VolumeIsValid(chip, v0) && VolumeIsValid(chip, v1)
  {
    CfgEvents(Preboot(chip)) + CfgEvents(cfg) + RefreshEvents(chip, v0, v1, muted)
  }

  /** The registers a refresh writes: both gain bursts and DEVICE_STATE. */
  predicate RefreshTouches(chip: Chip, a: Addr)
  {
    ScriptTouches(GainPage(chip), LeftGainOffset(chip), RightGainOffset(chip), a)
  }

  /**
   * The chip is playing with these settings: page 0 is selected, the
   * device state is PLAY (with the mute bits if muted), and the two gain
   * registers, read back big-endian, hold the table entries of v0 and v1.
   */
  predicate Playing(chip: Chip, d: Device, v0: int, v1: int, muted: bool)
    requires VolumeIsValid(chip, v0) && VolumeIsValid(chip, v1)
  {
    && d.page == 0
    && ReadGain(d, GainPage(chip), LeftGainOffset(chip)) == Some(Gain(chip, v0) as int)
    && ReadGain(d, GainPage(chip), RightGainOffset(chip)) == Some(Gain(chip, v1) as int)
    && Peek(d, Addr(0, REG_DEVICE_STATE)) == Some(PlayState(muted))
  }

  /** The chip's outputs are in high impedance, with page 0 selected. */
  predicate Silenced(d: Device)
  {
    d.page == 0 && Peek(d, Addr(0, REG_DEVICE_STATE)) == Some(DEVICE_STATE_HIZ)
  }

  /** The registers a refresh script writes: both bursts and DEVICE_STATE. */
  predicate ScriptTouches(gp: byte, off0: byte, off1: byte, a: Addr)
  {
    InBurst(a, gp, off0) || InBurst(a, gp, off1) || a == Addr(0, REG_DEVICE_STATE)
  }

  /** A refresh script with disjoint bursts on a non-zero page, run from any device state. */
  lemma {:induction false} RefreshScriptEffect(d: Device, gp: byte, off0: byte, off1: byte, b0: seq<byte>, b1: seq<byte>, st: byte)
    requires gp != 0 && off0 > 0 && off1 > 0 && (off0 + 4 <= off1 || off1 + 4 <= off0)
    requires |b0| == 4 && |b1| == 4
    ensures Run(d, RefreshScript(gp, off0, off1, b0, b1, st)).page == 0
    ensures ReadGain(Run(d, RefreshScript(gp, off0, off1, b0, b1, st)), gp, off0) == Some(FromBigEndian(b0))
    ensures ReadGain(Run(d, RefreshScript(gp, off0, off1, b0, b1, st)), gp, off1) == Some(FromBigEndian(b1))
    ensures Peek(Run(d, RefreshScript(gp, off0, off1, b0, b1, st)), Addr(0, REG_DEVICE_STATE)) == Some(st)
    ensures forall a :: !ScriptTouches(gp, off0, off1, a) ==> Peek(Run(d, RefreshScript(gp, off0, off1, b0, b1, st)), a) == Peek(d, a)
  {
    var e0, e1, e2, e3, e4 := Write(REG_PAGE, gp), Bulk(off0, b0), Bulk(off1, b1), Write(REG_PAGE, 0x00), Write(REG_DEVICE_STATE, st);
    var d1 := Store(d, REG_PAGE, gp);
    var d2 := StoreBurst(d1, off0, b0);
    var d3 := StoreBurst(d2, off1, b1);
    var d4 := Store(d3, REG_PAGE, 0);
    var d5 := Store(d4, REG_DEVICE_STATE, st);
    calc {
      Run(d, RefreshScript(gp, off0, off1, b0, b1, st));
      { assert RefreshScript(gp, off0, off1, b0, b1, st) == [e0] + ([e1] + ([e2] + ([e3] + [e4]))); RunCons(d, e0, [e1] + ([e2] + ([e3] + [e4]))); }
      Run(d1, [e1] + ([e2] + ([e3] + [e4])));
      { RunCons(d1, e1, [e2] + ([e3] + [e4])); }
      Run(d2, [e2] + ([e3] + [e4]));
      { RunCons(d2, e2, [e3] + [e4]); }
      Run(d3, [e3] + [e4]);
      { RunCons(d3, e3, [e4]); RunCons(d4, e4, []); }
      d5;
    }
    BurstEffect(d1, off0, b0);
    BurstEffect(d2, off1, b1);
    assert ReadGain(d3, gp, off0) == ReadGain(d2, gp, off0) by {
      assert !InBurst(Addr(gp, off0), gp, off1) && !InBurst(Addr(gp, off0 + 1), gp, off1);
      assert !InBurst(Addr(gp, off0 + 2), gp, off1) && !InBurst(Addr(gp, off0 + 3), gp, off1);
    }
  }

  /**
   * Whatever state the chip was in, a refresh leaves it playing the given
   * gains and mute state, and changes no register outside the two gain
   * bursts and DEVICE_STATE.
   */
  lemma RefreshProgramsDevice(chip: Chip, d: Device, v0: int, v1: int, muted: bool)
    requires VolumeIsValid(chip, v0) && VolumeIsValid(chip, v1)
    ensures Playing(chip, Run(d, RefreshEvents(chip, v0, v1, muted)), v0, v1, muted)
    ensures forall a :: !RefreshTouches(chip, a) ==> Peek(Run(d, RefreshEvents(chip, v0, v1, muted)), a) == Peek(d, a)
  {
    var g0, g1 := Gain(chip, v0), Gain(chip, v1);
    GainOffsetsDisjoint(chip);
    BigEndianRoundTrip(g0);
    BigEndianRoundTrip(g1);
    RefreshScriptEffect(d, GainPage(chip), LeftGainOffset(chip), RightGainOffset(chip), BigEndian(g0), BigEndian(g1), PlayState(muted));
  }

  /**
   * Whatever state the chip was in, the shutdown sequence selects page 0,
   * sets DEVICE_STATE to Hi-Z and changes no other register: the fault
   * reads have no effect.
   */
  lemma ShutdownSilencesDevice(d: Device)
    ensures Silenced(Run(d, SHUTDOWN_EVENTS))
    ensures Run(d, SHUTDOWN_EVENTS).regs == d.regs[Addr(0, REG_DEVICE_STATE) := DEVICE_STATE_HIZ]
  {
    var d1 := Store(d, REG_PAGE, 0);
    var r0, r1, r2, r3 := Read(REG_STATE_REPORT), Read(REG_GLOBAL_FAULT1), Read(REG_GLOBAL_FAULT2), Read(REG_GLOBAL_FAULT3);
    var hiz := Write(REG_DEVICE_STATE, DEVICE_STATE_HIZ);
    assert SHUTDOWN_EVENTS == [Write(REG_PAGE, 0x00)] + ([r0] + ([r1] + ([r2] + ([r3] + [hiz]))));
    RunCons(d, Write(REG_PAGE, 0x00), [r0] + ([r1] + ([r2] + ([r3] + [hiz]))));
    RunCons(d1, r0, [r1] + ([r2] + ([r3] + [hiz])));
    RunCons(d1, r1, [r2] + ([r3] + [hiz]));
    RunCons(d1, r2, [r3] + [hiz]);
    RunCons(d1, r3, [hiz]);
    RunCons(d1, hiz, []);
  }

  /** Whatever state the chip was in and whatever the configuration writes, a boot ends with the chip playing. */
  lemma BootProgramsDevice(chip: Chip, d: Device, cfg: seq<byte>, v0: int, v1: int, muted: bool)
    requires VolumeIsValid(chip, v0) && VolumeIsValid(chip, v1)
    ensures Playing(chip, Run(d, BootEvents(chip, cfg, v0, v1, muted)), v0, v1, muted)
  {
    var setup := CfgEvents(Preboot(chip)) + CfgEvents(cfg);
    RunAppend(d, setup, RefreshEvents(chip, v0, v1, muted));
    RefreshProgramsDevice(chip, Run(d, setup), v0, v1, muted);
  }

  /**
   * The boot trace is 12 preboot writes, one write per pair of the
   * configuration and the 5 refresh transactions, starting with the
   * preboot pairs in order.
   */
  lemma BootTraceShape(chip: Chip, cfg: seq<byte>, v0: int, v1: int, muted: bool)
    requires VolumeIsValid(chip, v0) && VolumeIsValid(chip, v1)
    ensures |BootEvents(chip, cfg, v0, v1, muted)| == 12 + |cfg| / 2 + 5
    ensures forall k :: 0 <= k < 12 ==>
              BootEvents(chip, cfg, v0, v1, muted)[k] == Write(Preboot(chip)[2 * k], Preboot(chip)[2 * k + 1])
  {
    var pre, body, tail := CfgEvents(Preboot(chip)), CfgEvents(cfg), RefreshEvents(chip, v0, v1, muted);
    BuiltInScriptSizes(chip);
    CfgEventsAt(Preboot(chip));
    CfgEventsAt(cfg);
    assert |pre| == 12 && |body| == |cfg| / 2 && |tail| == 5;
    forall k | 0 <= k < 12 ensures (pre + body + tail)[k] == pre[k] {
    }
  }
}
