# SDS011 frame decoder

A model of the decoder of the `sds011-client` library: the part that turns the
10-byte frames an SDS011 particulate sensor sends into fields of a caller-owned
`SensorState` record.

A frame is `0xAA, command id, bytes 2..7, checksum, 0xAB`.

- `handleReading(frame, state)` reads bytes 2-3 and 4-5 as little-endian unsigned
  16-bit values in tenths and stores them divided by ten in `pm2p5` and `pm10`.
- `handleConfig(frame, state)` branches on the sub-command in byte 2:
  - `0x02` sets `mode` from byte 4 (zero is `active`, anything else `query`);
  - `0x06` sets `isSleeping` from byte 4 (zero is sleeping: the opposite sense);
  - `0x07` sets `firmware` to `year-month-day` from bytes 3, 4 and 5 in decimal;
  - `0x08` sets `workingPeriod` to byte 4.
  Any other sub-command is an error.
- `handle(frame, state)` dispatches on byte 1: `0xC0` to the reading handler, `0xC5`
  to the config handler, anything else is an error.

The implementation files `src/core/MessageHandlerUtils.js` and
`src/util/SensorState.js` are not part of this model; the behaviour is the one that
`tests/MessageHandlerUtilsTest.js` pins down, frame by frame.

Layout:

- `wrappers.dfy`: `Option`, `Result`, `Outcome`.
- `bytes.dfy`: `byte`, `u16` and the little-endian read `U16le` with its inverse.
- `decimal.dfy`: unpadded decimal rendering `Render` and its inverse `Parse`.
- `firmware.dfy`: the firmware text `FirmwareString` and a parser `ParseFirmware`
  that recovers the three numbers from it.
- `sensor_state.dfy`: the `SensorState` class (six `Option` fields, updated in place)
  and `Snapshot`, the value of all six fields at one moment.
- `message_handler_utils.dfy`: the pure decoders (`DecodeReading`, `DecodeConfig`,
  `Decode`), the effect of a decoded report on a snapshot (`Apply`, `Update`), the
  three handler methods, an encoder `Encode` used as the decoder's inverse, the
  properties, and the frames of the test suite.

Each handler is a method with `modifies state`. Its postcondition states the whole
new state of the record: which fields change to what, and that all others keep
their values. On an error it returns `Fail(...)` and the record is unchanged. The
methods are also tied to the pure functions (`Observed(r, state.View()) ==
Update(old(state.View()), Decode(frame))`), and the lemmas are stated over those
functions.

The firmware date is read from bytes 3, 4 and 5: the test frame at
tests/MessageHandlerUtilsTest.js:72 carries `0x10, 0x0B, 0x15` there and expects
`"16-11-21"`. Each number is rendered in plain decimal without padding; the tests
only use two-digit values, so padding of one-digit values is an assumption of the
model (see "## Left out"). The test titled "Handles using generic handler" for
`0xC5` (lines 39-45) calls `handleConfig`, not `handle`; `ModeTests` replays it as
written, and `HandleAgreesWithHandleConfig` covers the dispatch it was evidently
meant to test.

## Model

| member | source | states |
|---|---|---|
| `Bytes.U16le` | tests/MessageHandlerUtilsTest.js:13-18 | the 16-bit little-endian value has `lo` as its low byte and `hi` as its high byte |
| `Bytes.U16leOfBytes` | tests/MessageHandlerUtilsTest.js:13-18 | splitting a 16-bit value into its low and high byte and reading them back gives the value |
| `Decimal.Render` | tests/MessageHandlerUtilsTest.js:71-77 | a decimal rendering is non-empty, all digits, has one digit exactly when the number is below 10, and starts with '0' exactly when the number is zero (no padding) |
| `Decimal.ParseRender` | tests/MessageHandlerUtilsTest.js:71-77 | the decimal digits of a number read back as that number |
| `Decimal.RenderInjective` | tests/MessageHandlerUtilsTest.js:71-77 | distinct numbers have distinct decimal renderings |
| `Firmware.FirmwareString` | tests/MessageHandlerUtilsTest.js:71-77 | the firmware text has at least five characters; what it means is stated by `ParseFirmwareString` (it parses back into year, month and day), `FirmwareStringInjective` and `FirmwareStringSeparators` |
| `Firmware.FirmwareStringSeparators` | tests/MessageHandlerUtilsTest.js:76 | the firmware text holds exactly two '-', right after the year and right after the month |
| `Firmware.JoinedSeparatorCount` | tests/MessageHandlerUtilsTest.js:76 | three separator-free texts joined by two '-' hold exactly two '-' |
| `Firmware.IndexOf` | tests/MessageHandlerUtilsTest.js:76 | the position returned holds the character and none occurs before it; no position means it does not occur |
| `Firmware.SplitOnce` | tests/MessageHandlerUtilsTest.js:76 | a split at the first '-' gives a separator-free head and a tail that rejoin to the text |
| `Firmware.ParseJoinedFields` | tests/MessageHandlerUtilsTest.js:76 | three digit runs joined by '-' parse back into their three values |
| `Firmware.ParseFirmwareString` | tests/MessageHandlerUtilsTest.js:71-77 | the `year-month-day` firmware text parses back into exactly the year, month and day it was built from |
| `Firmware.FirmwareStringInjective` | tests/MessageHandlerUtilsTest.js:71-77 | different release dates never produce the same firmware text |
| `SensorState.SensorState.constructor` | tests/MessageHandlerUtilsTest.js:8-10 | a fresh state has none of its six fields set |
| `MessageHandlerUtils.Concentration` | tests/MessageHandlerUtilsTest.js:17-18 | a raw reading in tenths gives a concentration between 0 and 6553.5 |
| `MessageHandlerUtils.ModeOf` | tests/MessageHandlerUtilsTest.js:31-53 | byte 4 of a mode ack: zero is active, anything else query. This rule is stated by the function body, which `HandleConfig`'s ensures use; `ModeOfModeByte` pins bytes 0 and 1 as the inverse of `ModeByte` |
| `MessageHandlerUtils.SleepOf` | tests/MessageHandlerUtilsTest.js:55-69 | byte 4 of a sleep ack: zero is sleeping, anything else awake. This rule is stated by the function body, which `HandleConfig`'s ensures use; `SleepOfSleepByte` pins bytes 0 and 1 as the inverse of `SleepByte` |
| `MessageHandlerUtils.ModeOfModeByte` | tests/MessageHandlerUtilsTest.js:31-53 | byte 0 reads back as active and byte 1 as query |
| `MessageHandlerUtils.SleepOfSleepByte` | tests/MessageHandlerUtilsTest.js:55-69 | byte 0 reads back as sleeping and byte 1 as awake |
| `MessageHandlerUtils.SleepIsInverseOfModeConvention` | tests/MessageHandlerUtilsTest.js:47-69 | for the same byte 4, "sleeping" holds exactly when the mode is active, and "awake" exactly when it is query (it relates the two rules; it does not fix either on its own) |
| `MessageHandlerUtils.DecodeReading` | tests/MessageHandlerUtilsTest.js:12-19 | any 10-byte frame decodes as a reading, whatever its command id (the command id is not re-checked) |
| `MessageHandlerUtils.DecodeConfig` | tests/MessageHandlerUtilsTest.js:31-103 | decoding fails exactly when byte 2 is not 0x02, 0x06, 0x07 or 0x08, with `UnknownSubCommand(byte 2)`; a success is never a reading |
| `MessageHandlerUtils.Decode` | tests/MessageHandlerUtilsTest.js:105-113 | 0xC0 decodes as a reading, 0xC5 as a config ack, and any other command id fails with `UnknownCommand(byte 1)` |
| `MessageHandlerUtils.Apply` | tests/MessageHandlerUtilsTest.js:15-18 | writing a report sets every field of its group and leaves every field outside the group as it was |
| `MessageHandlerUtils.Update` | tests/MessageHandlerUtilsTest.js:95-103 | a failed decode yields the same error and no new state; a successful one sets the report's field group and keeps all other fields |
| `MessageHandlerUtils.HandleReading` | tests/MessageHandlerUtilsTest.js:12-19 | `pm2p5` becomes `U16le(byte 2, byte 3) / 10`, `pm10` becomes `U16le(byte 4, byte 5) / 10`, and every other field keeps its value |
| `MessageHandlerUtils.HandleConfig` | tests/MessageHandlerUtilsTest.js:31-103 | per sub-command: mode from byte 4, isSleeping from byte 4, firmware from bytes 3-5, workingPeriod equal to byte 4, only that field written; any other sub-command fails; every failure leaves the state unchanged |
| `MessageHandlerUtils.Handle` | tests/MessageHandlerUtilsTest.js:21-28 | a 0xC0 frame writes what `HandleReading` writes; a 0xC5 frame does and fails as `HandleConfig` does; any other command id fails with `UnknownCommand`; every failure leaves the state unchanged |
| `MessageHandlerUtils.Encode` | tests/MessageHandlerUtilsTest.js:13 | a canonical frame for a report (bytes 6-7 and the checksum zero) has ten bytes, starting 0xAA and ending 0xAB; `DecodeEncode` states that it decodes back to the report |
| `MessageHandlerUtils.DecodeEncode` | tests/MessageHandlerUtilsTest.js:12-93 | every report, encoded as a frame, decodes back to itself |
| `MessageHandlerUtils.EncodeDecodeReading` | tests/MessageHandlerUtilsTest.js:13-18 | re-encoding a decoded reading restores the command id and payload bytes 2-5 |
| `MessageHandlerUtils.EncodeDecode` | tests/MessageHandlerUtilsTest.js:31-93 | re-encoding a decoded frame keeps its command id and sub-command; its third ensures (the same decode) is `DecodeEncode` instantiated, kept for convenience |
| `MessageHandlerUtils.DecodeReadsOnlyBytesOneToFive` | tests/MessageHandlerUtilsTest.js:32 | two frames that agree on bytes 1-5 decode alike: the checksum (0x00 in this frame, where the byte sum would be 0x03) is not checked, and the model checks neither bytes 6-7 nor the markers |
| `MessageHandlerUtils.ConfigIgnoresByteThree` | tests/MessageHandlerUtilsTest.js:79-93 | except for a firmware ack, byte 3 of a config frame does not affect the decode |
| `MessageHandlerUtils.ReadingConcentrations` | tests/MessageHandlerUtilsTest.js:12-19 | after a reading, `pm2p5 = (byte2 + 256*byte3)/10` and `pm10 = (byte4 + 256*byte5)/10` |
| `MessageHandlerUtils.HandleAgreesWithHandleReading` | tests/MessageHandlerUtilsTest.js:21-28 | on a 0xC0 frame the dispatcher's effect equals the reading handler's (a convenience restatement of `Decode`'s first ensures, lifted to states) |
| `MessageHandlerUtils.HandleAgreesWithHandleConfig` | tests/MessageHandlerUtilsTest.js:39-45 | on a 0xC5 frame the dispatcher's effect and error equal the config handler's (a convenience restatement of `Decode`'s second ensures, lifted to states) |
| `MessageHandlerUtils.ApplyCommutes` | tests/MessageHandlerUtilsTest.js:12-37 | reports that write different field groups give the same state in either order |
| `MessageHandlerUtils.ApplyOverwrites` | tests/MessageHandlerUtilsTest.js:31-53 | a later report of the same field group replaces the earlier one completely |
| `MessageHandlerUtils.UpdateIdempotent` | tests/MessageHandlerUtilsTest.js:12-19 | decoding the same frame twice leaves the same state as decoding it once |
| `MessageHandlerUtils.ReadingFrameDecodes` | tests/MessageHandlerUtilsTest.js:12-19 | the frame `AA C0 4B 00 51 00 E9 77 FC AB` gives pm2p5 7.5 and pm10 8.1 |
| `MessageHandlerUtils.ModeFramesDecode` | tests/MessageHandlerUtilsTest.js:31-53 | sub-command 0x02 with byte 4 = 1 gives query, with byte 4 = 0 gives active, on a fresh state |
| `MessageHandlerUtils.SleepFramesDecode` | tests/MessageHandlerUtilsTest.js:55-69 | sub-command 0x06 with byte 4 = 0 gives sleeping, with byte 4 = 1 gives awake |
| `MessageHandlerUtils.FirmwareFrameDecodes` | tests/MessageHandlerUtilsTest.js:71-77 | bytes 3-5 = 0x10, 0x0B, 0x15 give firmware "16-11-21" |
| `MessageHandlerUtils.WorkingPeriodFramesDecode` | tests/MessageHandlerUtilsTest.js:79-93 | sub-command 0x08 with byte 4 = 0x00 gives 0 and with 0x1E gives 30, byte 3 = 0x10 notwithstanding |
| `MessageHandlerUtils.UnknownCodesFail` | tests/MessageHandlerUtilsTest.js:95-113 | sub-command 0x30 fails with `UnknownSubCommand(0x30)` and command id 0xF0 with `UnknownCommand(0xF0)` |
| `MessageHandlerUtils.ReadingTests` | tests/MessageHandlerUtilsTest.js:12-28 | on fresh `SensorState` objects, `HandleReading` and `Handle` on the line-13 frame leave pm2p5 = 7.5 and pm10 = 8.1, and `Handle` passes |
| `MessageHandlerUtils.ModeTests` | tests/MessageHandlerUtilsTest.js:31-53 | on fresh states, `HandleConfig` leaves mode query, query and active for the frames of lines 32, 40 and 48 |
| `MessageHandlerUtils.SleepTests` | tests/MessageHandlerUtilsTest.js:55-69 | on fresh states, `HandleConfig` leaves isSleeping true and false for the frames of lines 56 and 64 |
| `MessageHandlerUtils.FirmwareAndPeriodTests` | tests/MessageHandlerUtilsTest.js:71-93 | on fresh states, `HandleConfig` leaves firmware "16-11-21", then workingPeriod 0, then 30 |
| `MessageHandlerUtils.UnknownCodeTests` | tests/MessageHandlerUtilsTest.js:95-113 | on fresh states, `HandleConfig` with sub-command 0x30 and `Handle` with command id 0xF0 both fail and leave every field unset |

## Left out

- MessageHandlerUtils.Concentration: stores the exact rational `raw / 10`, not the IEEE double the source computes; the test values 7.5 and 8.1 are the doubles nearest to these rationals.
- MessageHandlerUtils.HandleReading: requires a frame of exactly ten bytes. What the source does with a shorter buffer is not shown.
- MessageHandlerUtils.HandleConfig: requires a frame of exactly ten bytes, for the same reason.
- MessageHandlerUtils.Handle: requires a frame of exactly ten bytes, for the same reason.
- Error paths: the tests only check that an error is thrown. The model also states that a failed call leaves the state unchanged, which is what an exception thrown before any write gives.
- Checksum: the config test frames carry checksum 0x00 and still decode, so the checksum is not checked, and the model does not check it.
- Start/end markers: every test frame carries correct 0xAA/0xAB markers, so the tests say nothing about a check of them; the model does not check markers and has no malformed-frame error.
- Zero padding of one-digit firmware fields: the tests only use two-digit values; the model's plain-decimal rendering of one-digit values is an assumption.
- `Buffer`, `require`, the mocha/assert harness, serial-port I/O, command construction and logging: test plumbing or external collaborators, not decoding logic.
