/**
 * The per-chip constants of the two drivers. The control logic is
 * the same for both chips; only these values, and the policy for a missing
 * configuration blob, differ.
 */
module Chips {
  import opened Basics
  import opened GainTables

  datatype Chip = ACM8635 | ACM8623

  /** Smallest volume control value (`ACM86xx_VOLUME_MIN`). */
  const VOLUME_MIN: int := 0

  /** Control value of the 0 dB entry (`ACM86xx_VOLUME_0DB`), also the power-on volume. */
  const VOLUME_0DB: int := 110

  function GainTable(chip: Chip): seq<uint32>
  {
    match chip
    case ACM8635 => ACM8635_VOLUME
    case ACM8623 => ACM8623_VOLUME
  }

  /** Largest volume control value (`ARRAY_SIZE(table) - 1`). */
  function VolumeMax(chip: Chip): (m: int)
    ensures m == (if chip == ACM8635 then 158 else 134)
  {
    Acm8635VolumeTable();
    Acm8623VolumeTable();
    |GainTable(chip)| - 1
  }

  /** `volume_is_valid`: the value is an index of the chip's gain table. */
  predicate VolumeIsValid(chip: Chip, v: int): (ok: bool)
    ensures ok <==> 0 <= v < |GainTable(chip)|
  {
    VOLUME_MIN <= v <= VolumeMax(chip)
  }

  /** The gain code programmed for control value v. */
  function Gain(chip: Chip, v: int): uint32
    requires VolumeIsValid(chip, v)
  {
    GainTable(chip)[v]
  }

  /** The DSP page that holds the two channel gains. */
  function GainPage(chip: Chip): byte
  {
    match chip
    case ACM8635 => 0x04
    case ACM8623 => 0x05
  }

  /** Page-relative offset of the first channel's (vol[0]) 4-byte gain. */
  function LeftGainOffset(chip: Chip): byte
  {
    match chip
    case ACM8635 => 0x7c
    case ACM8623 => 0xc4
  }

  /** Page-relative offset of the second channel's (vol[1]) 4-byte gain. */
  function RightGainOffset(chip: Chip): byte
  {
    match chip
    case ACM8635 => 0x80
    case ACM8623 => 0xc0
  }

  /**
   * The two gain bursts land on disjoint registers, neither of which is the
   * page-select register.
   */
  lemma GainOffsetsDisjoint(chip: Chip)
    ensures LeftGainOffset(chip) + 4 <= RightGainOffset(chip) || RightGainOffset(chip) + 4 <= LeftGainOffset(chip)
    ensures LeftGainOffset(chip) > 0 && RightGainOffset(chip) > 0
    ensures LeftGainOffset(chip) + 4 <= 0x100 && RightGainOffset(chip) + 4 <= 0x100
  {
  }

  /** `dsp_cfg_preboot` of the ACM8635 driver. */
  const ACM8635_PREBOOT: seq<byte> :=
    [0x00, 0x00, 0x04, 0x00, 0xfc, 0x86, 0xfd, 0x25,
     0xfe, 0x53, 0x00, 0x01, 0x02, 0x20, 0x00, 0x00,
     0x00, 0x00, 0x00, 0x00, 0x00, 0x00, 0x00, 0x00]

  /** `dsp_cfg_preboot` of the ACM8623 driver. */
  const ACM8623_PREBOOT: seq<byte> :=
    [0x00, 0x00, 0x04, 0x00, 0xfc, 0x86, 0xfd, 0x22,
     0xfe, 0x25, 0x00, 0x00, 0x00, 0x00, 0x00, 0x00,
     0x00, 0x00, 0x00, 0x00, 0x00, 0x00, 0x00, 0x00]

  /** `dsp_cfg_default` of the ACM8635 driver, used when no firmware blob was found. */
  const ACM8635_DEFAULT_CFG: seq<byte> :=
    [0x00, 0x00, 0x04, 0x00, 0x00, 0x00, 0x00, 0x00,
     0x00, 0x00, 0x00, 0x00, 0x00, 0x00, 0x00, 0x09,
     0xe4, 0x80, 0xe5, 0x9e, 0xe6, 0x02, 0xe7, 0x9e,
     0xe8, 0x80, 0xe9, 0x9e, 0xea, 0x03, 0xeb, 0x9e,
     0x00, 0x04, 0x94, 0x00, 0x95, 0xe2, 0x96, 0xc4,
     0x97, 0x6b, 0x28, 0x00, 0x29, 0x40, 0x2a, 0x26,
     0x2b, 0xe7, 0x2c, 0x00, 0x2d, 0x40, 0x2e, 0x26,
     0x2f, 0xe7, 0x00, 0x0c, 0x60, 0x00, 0x61, 0x1b,
     0x62, 0x4b, 0x63, 0x98, 0x64, 0x00, 0x65, 0x22,
     0x66, 0x1d, 0x67, 0x95, 0x68, 0x00, 0x69, 0x06,
     0x6a, 0xd3, 0x6b, 0x72, 0x6c, 0x00, 0x6d, 0x00,
     0x6e, 0x00, 0x6f, 0x00, 0x70, 0x00, 0x71, 0x00,
     0x72, 0x00, 0x73, 0x00, 0x74, 0xff, 0x75, 0x81,
     0x76, 0x47, 0x77, 0xae, 0x78, 0xf5, 0x79, 0xb3,
     0x7a, 0xb7, 0x7b, 0xc8, 0x7c, 0xfe, 0x7d, 0x01,
     0x7e, 0xc0, 0x7f, 0x79, 0x80, 0x00, 0x81, 0x00,
     0x82, 0x00, 0x83, 0x00, 0x84, 0x00, 0x85, 0x00,
     0x86, 0x00, 0x87, 0x00, 0x00, 0x01, 0x01, 0x00,
     0x00, 0x00, 0x11, 0x03, 0x02, 0x00, 0x06, 0xb0,
     0x05, 0xf0, 0x28, 0x03, 0x03, 0x05, 0x01, 0x84,
     0x00, 0x01, 0x09, 0x04, 0x00, 0x00, 0x04, 0x02,
     0x00, 0x00, 0x00, 0x00, 0x00, 0x00, 0x00, 0x00,
     0x00, 0x00, 0x00, 0x00, 0x00, 0x00, 0x00, 0x00,
     0x00, 0x00, 0x04, 0x03]

  /** The register pairs sent before every configuration. */
  function Preboot(chip: Chip): seq<byte>
  {
    match chip
    case ACM8635 => ACM8635_PREBOOT
    case ACM8623 => ACM8623_PREBOOT
  }

  /**
   * The missing-firmware policy: the ACM8635 driver falls back to a built-in
   * configuration, the ACM8623 driver has none and fails its probe.
   */
  function FallbackConfig(chip: Chip): Option<seq<byte>>
  {
    match chip
    case ACM8635 => Some(ACM8635_DEFAULT_CFG)
    case ACM8623 => None
  }

  /** Both built-in scripts are whole register/value pairs: 12 pairs of preboot, 94 of default. */
  lemma BuiltInScriptSizes(chip: Chip)
    ensures |Preboot(chip)| == 24
    ensures FallbackConfig(chip).Some? <==> chip == ACM8635
    ensures FallbackConfig(chip).Some? ==> |FallbackConfig(chip).value| == 188
  {
  }
}
