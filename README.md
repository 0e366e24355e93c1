# ACM8635 / ACM8623 amplifier controller, modelled in Dafny

The two Linux ASoC codec drivers for the ACM8635 and ACM8623 class-D
amplifiers share their control logic and differ only in constants and in
the missing-firmware policy: without a configuration file the ACM8635 driver
falls back to a built-in configuration, while the ACM8623 driver fails its
probe. Each driver keeps two channel volumes (indices into a table of 32-bit
gain codes), a power flag, a mute flag and a DSP configuration blob (optional
on ACM8635 only). It drives the chip over I2C:

- on a clock-start trigger it boots the DSP: preboot pairs, then the configuration pairs, then a refresh;
- a refresh writes both gains and the play/mute state;
- on the DAPM "about to power down" event it shuts the DSP down: fault reads, then Hi-Z.

The model has one controller, parameterised by `Chips.Chip`, with:

- `Chips`: the per-chip constants. These are the gain tables, the gain page and offsets, the preboot script and the ACM8635 default configuration. The missing-configuration policy also lives here: ACM8635 has a default, ACM8623 has none.
- `GainCodec`: the big-endian encoding of a gain code into the four bytes of a burst, with its inverse.
- `GainTables`: both gain tables, written as ten-entry decades. They come with their size and their 0 dB entry, and a proof that they strictly increase.
- `Registers`: the transactions the driver issues (`Write`, `Bulk`, `Read`) and an interpretation of them on a paged register file. The `Read` values are not modelled. This interpretation is the independent partner of the scripts.
- `Scripts`: the register scripts of `send_cfg`, `refresh`, `do_work` and the shutdown, as pure transaction sequences. For `send_cfg` the model states the writes it issues (one per pair, in order). The refresh, boot and shutdown scripts are proved to leave the register file in the state the driver intends, from any starting state.
- `Amplifier`: the driver's state as a class, `Amplifier.Amplifier`, whose methods are the callbacks. Every transaction is appended to `trace`. The invariant `Valid` says: while powered, running the trace from any chip state leaves the chip playing the stored volumes and mute state; after a shutdown it leaves the chip in Hi-Z. The module also holds the probe's configuration check and its missing-firmware policy.
- `Findings`: `vol_put` as written, with the `long`-to-`int` truncation described under Findings.
- `Scenarios`: short sequences of callbacks, and what they leave behind.

## Model

| member | source | states |
|---|---|---|
| GainCodec.GainBytes | acm8635/acm8635.c:182-194 | the byte-filling loop of `set_dsp_scale` yields exactly the big-endian encoding of the gain, and the four bytes read back big-endian give the gain (same loop at acm8623/acm8623.c:143-155) |
| GainCodec.BigEndianRoundTrip | acm8635/acm8635.c:184-191 | any 32-bit gain encodes to 4 bytes that reassemble big-endian to exactly that gain |
| GainCodec.BigEndianInjective | acm8635/acm8635.c:184-191 | different gains give different burst bytes |
| GainTables.Acm8635VolumeTable | acm8635/acm8635.c:78-164 | the ACM8635 table has 159 entries; entry 110 (0 dB) is 0x00800000; entries 130 and 150 (+20 dB, +40 dB) are exactly 10 and 100 times it |
| GainTables.Acm8635VolumeIncreasing | acm8635/acm8635.c:78-159 | the ACM8635 gain codes strictly increase with the index |
| GainTables.Acm8623VolumeTable | acm8623/acm8623.c:51-125 | the ACM8623 table has 135 entries; entry 110 (0 dB) is 0x08000000, and entry 130 (+20 dB) is exactly 10 times it |
| GainTables.Acm8623VolumeIncreasing | acm8623/acm8623.c:51-120 | the ACM8623 gain codes strictly increase with the index |
| Chips.VolumeMax | acm8635/acm8635.c:161 | `ARRAY_SIZE(table) - 1` is 158 on ACM8635 and 134 on ACM8623 (acm8623/acm8623.c:122) |
| Chips.VolumeIsValid | acm8635/acm8635.c:243-246 | a control value is valid exactly when it is an index of the chip's gain table, [0, `ARRAY_SIZE - 1`] (acm8623/acm8623.c:204-207) |
| Chips.GainOffsetsDisjoint | acm8635/acm8635.c:205-206 | the two channel bursts of each chip cover disjoint register ranges within the page, above the page-select register (ACM8623 at acm8623/acm8623.c:166-167) |
| Chips.BuiltInScriptSizes | acm8635/acm8635.c:45-76 | the preboot script is 24 bytes (12 pairs) on both chips; only ACM8635 has a default configuration, of 188 bytes |
| Scripts.CfgEventsAt | acm8635/acm8635.c:290-298 | `send_cfg` issues |s|/2 writes, and write k is register s[2k] with value s[2k+1] (acm8623/acm8623.c:251-259) |
| Scripts.CfgEventsAppend | acm8635/acm8635.c:290-298 | sending a configuration split after a whole number of pairs is sending its two parts in order |
| Scripts.CfgIgnoresOddByte | acm8635/acm8635.c:295 | a trailing odd byte is never sent |
| Scripts.PlayState | acm8635/acm8635.c:211-213 | the DEVICE_STATE value of a refresh is 0x0F when muted and 0x03 otherwise |
| Scripts.RefreshEventsByChip | acm8635/acm8635.c:196-214 | a refresh is exactly Write(0x00, page), the vol[0] burst, the vol[1] burst, Write(0x00, 0x00), Write(0x04, play state): page 0x04 with offsets 0x7c, 0x80 on ACM8635 and page 0x05 with offsets 0xc4, 0xc0 on ACM8623 (acm8623/acm8623.c:157-175); each burst reassembles to the table entry |
| Scripts.RefreshProgramsDevice | acm8635/acm8635.c:196-214 | from any chip state a refresh leaves page 0 selected, both gain registers holding the table entries of the two volumes, and DEVICE_STATE at the play state; no other register changes |
| Scripts.ShutdownSilencesDevice | acm8635/acm8635.c:372-383 | from any chip state the shutdown sequence leaves page 0 selected and DEVICE_STATE at Hi-Z (0x02), and changes no other register; the fault reads have no effect (acm8623/acm8623.c:330-341) |
| Scripts.BootProgramsDevice | acm8635/acm8635.c:327-352 | from any chip state and whatever the configuration writes, the boot sequence leaves the chip playing the stored volumes and mute state (acm8623/acm8623.c:288-310) |
| Scripts.BootTraceShape | acm8635/acm8635.c:341-349 | a boot is 12 preboot writes, one write per configuration pair and 5 refresh transactions, and starts with the preboot pairs in order |
| Amplifier.ConfigAccepted | acm8635/acm8635.c:498 | probe accepts a blob exactly when it holds at least one pair and a whole number of pairs (acm8623/acm8623.c:458) |
| Amplifier.LoadConfig | acm8635/acm8635.c:496-516 | a blob under 2 bytes or of odd size is -EINVAL. An accepted blob is kept verbatim. A missing blob means no configuration on ACM8635; on ACM8623 the request's error is returned (acm8623/acm8623.c:454-472) |
| Amplifier.LoadedConfigSentWhole | acm8635/acm8635.c:290-298 | a blob that passed probe's size check (acm8635/acm8635.c:498-503), when `do_work` hands it to `send_cfg` (acm8635/acm8635.c:344-345), goes out whole: one write per pair, register c[2k] with value c[2k+1], at least one pair and no byte left over |
| Amplifier.VolPutOutcome | acm8635/acm8635.c:243-276 | -EINVAL (volumes unchanged) iff either value is outside [0, max]; otherwise the volumes become the values; the result is 1 iff that changes them and 0 iff not (acm8623/acm8623.c:204-237) |
| Amplifier.VolPutIdempotent | acm8635/acm8635.c:258-273 | putting the same accepted volumes again reports 0 and changes nothing |
| Amplifier.Amplifier.constructor | acm8635/acm8635.c:518-519 | probe leaves both volumes at 110, unpowered, unmuted, with nothing sent |
| Amplifier.Amplifier.ActiveConfig | acm8635/acm8635.c:344-347 | boot sends the loaded blob if there is one and the built-in default otherwise (ACM8623 always has a blob: acm8623/acm8623.c:305) |
| Amplifier.Amplifier.SetDspScale | acm8635/acm8635.c:182-194 | appends one burst at the offset, holding the big-endian encoding of the volume's table entry |
| Amplifier.Amplifier.Refresh | acm8635/acm8635.c:196-214 | appends exactly the refresh script for the stored volumes and mute state; power, mute, pending work and volumes are unchanged |
| Amplifier.Amplifier.SendCfg | acm8635/acm8635.c:290-298 | the pair loop appends exactly the configuration's pair writes, in order |
| Amplifier.Amplifier.RefreshIfPowered | acm8635/acm8635.c:269-270 | refreshes exactly when powered, and the invariant is restored |
| Amplifier.Amplifier.VolGet | acm8635/acm8635.c:227-241 | returns 0 and the stored pair, which are valid volumes; nothing changes |
| Amplifier.Amplifier.VolPut | acm8635/acm8635.c:248-276 | result and new volumes are those of `VolPutOutcome`; one refresh is appended iff the volumes changed and the chip is powered; the invariant is kept (acm8623/acm8623.c:209-237) |
| Amplifier.Amplifier.Mute | acm8635/acm8635.c:414-430 | the mute flag becomes `mute != 0`; one refresh is appended iff powered; returns 0 (acm8623/acm8623.c:372-388) |
| Amplifier.Amplifier.Trigger | acm8635/acm8635.c:300-325 | START, RESUME and PAUSE_RELEASE queue the start-up work; STOP, SUSPEND and PAUSE_PUSH are accepted and do nothing; any other command is -EINVAL; nothing is sent (acm8623/acm8623.c:261-286) |
| Amplifier.Amplifier.DoWork | acm8635/acm8635.c:327-352 | appends the preboot pairs, the active configuration's pairs and one refresh, and ends powered with the invariant kept (acm8623/acm8623.c:288-310) |
| Amplifier.Amplifier.RunPendingWork | acm8635/acm8635.c:312 | queued start-up work runs once and is then no longer queued; with nothing queued nothing happens |
| Amplifier.Amplifier.DacEvent | acm8635/acm8635.c:354-389 | on PRE_PMD the queued work is dropped. If the chip is powered it is powered off and exactly the six shutdown transactions are appended. Otherwise nothing is sent. Returns 0 (acm8623/acm8623.c:312-347) |
| Amplifier.Probe | acm8635/acm8635.c:461-537 | fails with the error of `LoadConfig` and creates nothing, or returns 0 and a fresh controller in its initial state |
| Findings.Int32 | acm8635/acm8635.c:243 | the conversion of a `long` argument to `int` is the value modulo 2^32 in the signed range, and the identity on that range |
| Findings.VolPutAsWritten | acm8635/acm8635.c:257-265 | as written, the range check is on the truncated values; from valid volumes an accepted put always stores valid volumes |
| Findings.VolPutTruncationCounterexample | acm8635/acm8635.c:257-265 | 0x1_0000_0005 on both channels is accepted as written and stored as 5, where the corrected check answers -EINVAL |
| Findings.VolPutAgreesOnIntRange | acm8635/acm8635.c:257-265 | for values that fit in an `int`, the code as written and the corrected behaviour agree |
| Scenarios.PutThenGet | acm8635/acm8635.c:227-276 | a `vol_get` after an accepted `vol_put` returns the values put |
| Scenarios.PutTwice | acm8635/acm8635.c:258-273 | a second identical put returns 0 and sends nothing: the volumes end at the values put, and the trace grows only by the first put's refresh, if it changed the volumes while powered |
| Scenarios.PutOutOfRange | acm8635/acm8635.c:257-259 | a put above the maximum returns -EINVAL and changes neither the volumes nor the trace |
| Scenarios.MuteTwice | acm8635/acm8635.c:414-430 | muting twice with the same value leaves the same flags as muting once |
| Scenarios.MuteThenStart | acm8635/acm8635.c:327-352 | a mute while off sends nothing, and the following boot leaves the chip playing muted |
| Scenarios.ShutdownTwice | acm8635/acm8635.c:369-384 | the second PRE_PMD sends nothing, and the chip stays in Hi-Z |
| Scenarios.StartThenStopBeforeWork | acm8635/acm8635.c:362-366 | a start followed by PRE_PMD before the work ran never boots the chip |

## Left out

- I2C and regmap: the bus is the appended transaction trace. The values returned by the four status reads are only logged, so they are not modelled.
- `usleep_range` delays: only the ordering they separate is kept.
- Concurrency: the mutex, `schedule_work` and `cancel_work_sync` are reduced to three things. Each callback runs atomically. `workPending` records queued start-up work. `RunPendingWork` is the work queue running it, and PRE_PMD clears it.
- Firmware retrieval and naming (`request_firmware`, `device_property_read_string`, the file name): probe takes a `Firmware` value, either the blob or an error.
- Allocation and registration failures in probe (`devm_regmap_init_i2c`, `devm_kzalloc`, `devm_kmalloc`, `snd_soc_register_component`): the environment gives them, and the model does not fail there.
- `vol_info`, the DAPM, DAI and component descriptor tables, `regmap_config`, `i2c_remove` and module registration: these are framework glue.
- Logging (`dev_dbg`, `dev_info`, `dev_err`).
- The `direction` parameter of `mute`: the driver ignores it.
- `dac_event` takes the event as its 32-bit pattern (`bv32`), so `event & SND_SOC_DAPM_PRE_PMD` is a bitwise AND.
- The ASoC constants that the drivers use but do not define are taken from the kernel headers: the trigger commands `SNDRV_PCM_TRIGGER_*` and `SND_SOC_DAPM_PRE_PMD`, and `EINVAL` is 22.
- Amplifier.Amplifier.DoWork selects the configuration generically: the blob, or else the chip's default. The ACM8623 source sends its blob unconditionally. The model is equivalent there because `Valid` guarantees the ACM8623 always has a blob.
- Amplifier.Amplifier.VolPut takes the requested values as unbounded integers and checks them in full. That is the corrected behaviour; the code as written is `Findings.VolPutAsWritten`.

## Findings

| source | as written | input that shows it | evidently intended | confidence | as-written member | corrected member |
|---|---|---|---|---|---|---|
| acm8635/acm8635.c:243-267 (same in acm8623/acm8623.c:204-228) | `vol_put` passes the `long` control values to `volume_is_valid(int v)` and stores them in `int vol[2]`, so they are truncated to 32 bits before the range check | on a 64-bit kernel, ACM8635 at 0 dB, both values 0x1_0000_0005: accepted, returns 1, and both volumes become 5 (-105 dB); from volume 5 the same request reports a change although nothing changes | reject any value outside [0, max] with -EINVAL | not executed | Findings.VolPutAsWritten | Amplifier.VolPutOutcome |
