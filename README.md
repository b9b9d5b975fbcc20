# RT-890 receive-path squelch and signal-meter task, in Dafny

This project models `task/rssi.c` of the RT-890 custom firmware. The
scheduler runs this task once per tick. Each time it:

1. classifies the sub-audible tone condition from the BK4819 status
   register (register 0x0C). The result is *no tone*, *got tone* or *tail
   tone*. The inputs are the current VFO's squelch code type (off, CTCSS,
   DCS normal, DCS inverted), the mute flag, monitor mode and the NOAA
   weather-band mode;
2. keeps the two hysteresis counters that decide when a reception is torn
   down, while the radio is not in the Incoming state;
3. converts the chip's raw RSSI word into a 0..100 power value and caches it
   for the current VFO. This happens only when the meter's countdown timer
   has run out, nothing is blocking the display and reception mode is off;
4. picks at most one call into the radio chain: EndRX, EndAudio,
   StartAudio or StartRX. In a build with NOAA support it can instead start
   reception of the next weather channel directly.

Layout:

- `tone.dfy`, module `ToneDetect`: the classifier `GetToneStatus`, a pure
  function of a `ToneContext` (the globals it reads) and two register words.
  The second word is the register as read again after `DATA_ReceiverCheck`.
  It is used only when the first read had its interrupt bit set and the
  radio is in RX (`ReceiverCheckCalled`). `ExpectedStatus` is a second
  definition of the same rules, grouped by code type; in it the tail tone
  and then CTC1 still take precedence over the DCS bits. Lemmas connect the two and state each priority rule.
- `meter.dfy`, module `SignalMeter`: `RssiToPower`, the clamped and
  truncating linear map from 72..330 to 0..100.
- `task.dfy`, module `RssiTask`: the task's globals as a `State` value. The
  read-only firmware state is an `Env` and the chip's answers for one tick
  are `Readings`. `Step` is one tick as a function. It is built from
  `SearchStep` (radio not Incoming), `IncomingStep` and `MeterUpdate`. The
  class `RssiTask` holds the same globals as fields, with the per-VFO RSSI
  cache as a two-slot array. Its methods `Tick`, `Search`,
  `HandleIncoming` and `CheckRssi` change those fields in place. Each is
  proved to leave exactly the state the matching function describes.
  `ScheduledRun` chains ticks, with the scheduler marking the task due
  before each one, so that properties of several ticks can be stated.

The build options `ENABLE_NOAA` and `ENABLE_SLOWER_RSSI_TIMER` are the
fields of a `Config` value, so every property holds for all four builds.
The radio-chain routines and the NOAA start are recorded as `Action`
tokens. `Tick` also reports whether the receiver check was made.

Three behaviours of the code are easy to misread, and the model keeps each
as written:

- The NOAA start (task/rssi.c:161-169) does not test reception mode. It
  fires on a CTC1 tone whenever the radio is Incoming and NOAA mode is on.
- A long run of no-tone ticks never tears a reception down. Line 142
  clears the no-tone counter on every tick that does not tear down, so the
  counter never gets past 1 (`NoToneCounterStaysSmall`). A run with no tail
  tone therefore never calls EndRX or EndAudio (`NoToneNeverTearsDown`).
  Only the tail-tone counter can trigger teardown. The 1000-tick no-tone
  threshold at line 141 never takes effect, so 1001 no-tone ticks in a row
  do not end a reception.
- Status bit 0x4000 ("DCS N") produces *got tone* for the DCS-inverted code
  type or with mute on. Bit 0x8000 ("DCS I") produces it for DCS-normal.
  The model keeps this pairing exactly as the code has it.

## Model

| member | source | states |
|---|---|---|
| ToneDetect.GetToneStatus | task/rssi.c:38-91 | a tail tone is only reported outside NOAA and monitor mode; with code type off and mute off the result is never "no tone" outside NOAA mode |
| ToneDetect.NoaaUsesCtc1Only | task/rssi.c:44-48 | in NOAA mode the result is "got tone" exactly when bit 0x0400 of the first read is set, else "no tone"; monitor mode, the other bits, code type and mute are ignored |
| ToneDetect.SecondReadOnlyAfterCheck | task/rssi.c:51-55 | two register reads with the same receiver-check decision and the same decision word (the re-read word after a check in RX, the first word otherwise) classify the same |
| ToneDetect.MonitorForcesGotTone | task/rssi.c:57-59 | outside NOAA mode, monitor mode always gives "got tone" |
| ToneDetect.TailToneDominates | task/rssi.c:61-64 | outside NOAA and monitor mode, bit 0x0800 gives "tail tone" whatever the other bits, code type or mute |
| ToneDetect.Ctc1ByCodeType | task/rssi.c:66-74 | with bit 0x0400 set and 0x0800 clear: CTCSS gives "got tone"; DCS-N, DCS-I, or mute on with code type off, gives "tail tone"; code type off with mute off gives "got tone" |
| ToneDetect.ToneStatusMatchesTable | task/rssi.c:57-90 | the priority chain equals the per-code-type table `ExpectedStatus` on the decision word |
| ToneDetect.GotToneIff | task/rssi.c:57-90 | outside NOAA and monitor mode, "got tone" holds exactly when 0x0800 is clear and squelch is open, or CTCSS sees 0x0400, or with 0x0400 clear a DCS bit matches its code type (0x4000 with DCS-I or mute, 0x8000 with DCS-N) |
| ToneDetect.TailToneIff | task/rssi.c:44-74 | "tail tone" holds exactly when not in NOAA or monitor mode and either 0x0800 is set, or 0x0400 is set with a code type other than CTCSS and not (off with mute off) |
| SignalMeter.RssiToPower | task/rssi.c:107-114 | the power is within 0..100; raw values up to 72 give 0 and raw values from 330 give 100 |
| SignalMeter.PowerTruncates | task/rssi.c:112-114 | inside 72..330 the power is the greatest p with p * 258 <= (raw - 72) * 100, the truncated interpolation |
| SignalMeter.PowerAtMidSpan | task/rssi.c:113 | raw 201 reads as 50 |
| SignalMeter.PowerMonotone | task/rssi.c:107-114 | the map is monotone non-decreasing over all 16-bit values |
| RssiTask.MeterUpdate | task/rssi.c:93-123 | the meter never changes the other VFO's slot; the slot it writes holds a value within 0..100; nothing other than the timer and the cache changes |
| RssiTask.MeterUpdateEffect | task/rssi.c:95-121 | closed gate (timer not 0, a blocking flag set, reception mode on, or a screen other than MAIN): nothing changes; open gate: the timer becomes 100 (500 in the slower-timer build) and only the current VFO's slot is written, with the mapped power |
| RssiTask.SearchStep | task/rssi.c:132-149 | the searching half at most calls EndRX or EndAudio, and keeps the due flag, reception mode and NOAA mode |
| RssiTask.IncomingStep | task/rssi.c:150-171 | the Incoming half at most calls StartAudio, StartRX or the NOAA start, and writes nothing but reception mode, NOAA mode, the current NOAA channel and the receiving-audio flag |
| RssiTask.Step | task/rssi.c:125-173 | the next NOAA channel is never written; outside Incoming only EndRX or EndAudio can be called, in Incoming only the start actions; a receiver check happens exactly in a running RX tick outside NOAA mode whose first status read has the interrupt bit |
| RssiTask.GateClosedIsNoOp | task/rssi.c:127 | in TX or QUIET, in save mode, or when the task is not due, the tick changes nothing, calls nothing and makes no receiver check |
| RssiTask.RunningTickClearsDueFlag | task/rssi.c:127-130 | a tick that passes the gate always leaves the due flag cleared |
| RssiTask.SearchHysteresis | task/rssi.c:132-149 | outside Incoming: the tail counter becomes counter+1 (16-bit) on tail tone and 0 otherwise; the no-tone counter is incremented on no tone and cleared when tail <= 10 and no-tone <= 1000; the tick calls nothing exactly then, and otherwise calls EndRX (reception off) or EndAudio (reception on), changing only the counters and the due flag |
| RssiTask.HealthyTickRunsMeter | task/rssi.c:141-144 | a searching tick that calls nothing is the meter update applied to the state with the due flag cleared, the new tail counter and the no-tone counter at 0 |
| RssiTask.IncomingChoosesStart | task/rssi.c:150-159 | Incoming outside NOAA mode: reception on calls StartAudio; otherwise StartRX is called exactly when (code type off and mute off) or the modulation type is above 0 or the status is "got tone", and nothing is called otherwise; only the due flag changes |
| RssiTask.NoaaIncomingStart | task/rssi.c:161-169 | Incoming in NOAA mode: with bit 0x0400 the tick turns reception mode on, NOAA mode off, the current channel to the next one and receiving audio on, and starts the NOAA audio; without it only the due flag changes; no receiver check is made |
| RssiTask.NoToneCounterStaysSmall | task/rssi.c:138-142 | a no-tone counter of at most 1 stays at most 1 after any tick |
| RssiTask.ScheduledRun | task/rssi.c:125-173 | a run of ticks returns one action per tick |
| RssiTask.TailTonesAccumulate | task/rssi.c:133-144 | in RX, consecutive tail-tone ticks that keep the tail counter at or below 10 add one each, call nothing, and keep reception and NOAA mode |
| RssiTask.TailToneTeardownOnEleventh | task/rssi.c:133-149 | from a tail counter of 0, eleven tail-tone ticks call nothing on ticks 1 to 10 and tear down on tick 11: EndRX with reception mode off, EndAudio with it on |
| RssiTask.NoToneNeverTearsDown | task/rssi.c:138-149 | from a no-tone counter of at most 1, a run of ticks outside Incoming with no tail tone never calls EndRX or EndAudio |
| RssiTask.RssiTask.CheckRssi | task/rssi.c:93-123 | the fields after the call are `MeterUpdate` of the fields before |
| RssiTask.RssiTask.Tick | task/rssi.c:125-173 | the fields after the tick, the action and the receiver-check report are those of `Step` on the fields before |
| RssiTask.RssiTask.Search | task/rssi.c:132-149 | the fields after the call and the action are those of `SearchStep` |
| RssiTask.RssiTask.HandleIncoming | task/rssi.c:150-171 | the fields after the call and the action are those of `IncomingStep` |

## Left out

- Hardware I/O: `BK4819_ReadRegister`, `BK4819_GetRSSI` and `BK4819_StartAudio` are driver calls. The register words and the RSSI value are inputs (`Readings`), and the audio start is part of the `StartNoaaAudio` token.
- `DATA_ReceiverCheck`: its body is not part of this model. It appears only as the choice to use a second, arbitrary register word, and possible effects on other globals are not modelled.
- Display and conversion calls: `UI_DrawBar`, `UI_DrawRxDBM`, `UI_DrawRxSmeter`, `UI_DrawVoltage`, `UI_DrawSky`, `UI_DrawNOAA`, `SCREEN_TurnOn`, `ConvertRssiToDbm` and `ConvertRssiToSmeter` only produce display output or are defined elsewhere.
- The radio-chain routines `RADIO_StartRX`, `RADIO_EndRX`, `RADIO_StartAudio` and `RADIO_EndAudio` are recorded as actions. Their effect on the radio mode and on reception mode is defined elsewhere and is not modelled, so `ScheduledRun` keeps the radio mode fixed across ticks.
- The scheduler: only the due flag and its clearing are modelled. Raising the flag between ticks is done by `ScheduledRun`. The countdown of the meter timer is done elsewhere in the firmware and is not modelled.
- Counter widths: the widths of `gTailToneCounter` and `gNoToneCounter` are declared in headers that are not part of this model. Both are modelled as wrapping 16-bit counters (`Inc16`). A narrower width would move only the wrap-around point.
- Header enums: the numeric values of `CODE_TYPE_*`, `RADIO_MODE_*` and `SCREEN_*` are not part of this model. Code type and radio mode are enumerations with the four values used here, and the screen mode is only "main" or "other". `gCurrentVfo` is taken to be 0 or 1, and the modulation type is a natural number.
- Concurrency: none. The scheduler is cooperative and single-threaded.
