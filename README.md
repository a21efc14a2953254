# Sensor-trap node: a verified model of its wake cycle

The firmware runs on a battery-powered LoRaWAN node that watches one trap switch.
It spends most of its time in deep sleep. The timer wakes it ten seconds after each sleep
begins, and a button wakes it too. Each time it wakes it does the following:
- runs the power-rail bootstrap if the wake was a reset, or starts the display if the
  button woke it;
- samples the trap switch and derives an event from the change in status;
- turns a quiet cycle into a heartbeat when the last uplink is getting old;
- sends a two-byte uplink if there is an event;
- powers the GPS rail down, arms the timer and button wakes, and sleeps.

Two values survive deep sleep in RTC memory: the last status and the time of the last
uplink.

The model has six modules:

- `TrapState` (`state.dfy`): the status and event enumerations and their name tables,
  the status-transition rule, and the RTC memory.
- `Message` (`message.dfy`): `fill_message`, with a receiver-side `Decode` proved to
  invert it.
- `Axp192` (`axp192.dfy`): the power-management chip's register layer. It covers
  read-modify-write rail switching over a shared control register, the voltage
  read-back with its scaling, and the 12-bit battery reading. The chip is an abstract
  register file in which any read or write may fail.
- `SensorTrap` (`cycle.dfy`): `get_status`, the heartbeat rule, `configure_axp192` and
  `app_main`.
  - `AppMain` updates the RTC memory and the chip in place.
  - It returns the ordered list of outside actions it performed (rail switches, radio
    steps, wake arming, deep sleep).
  - It is proved equal to the pure function `RunCycle`.
- `CycleProperties` (`cycle_properties.dfy`): what one cycle guarantees, stated on
  `RunCycle`, and the bound on silence over a run of cycles.
- `Display` (`display.dfy`): the two graphics callbacks `rounder` and `set_px`.

Inputs the code reads from hardware are fields of `Wake`:
- the wake cause;
- the GPIO 13 level;
- the clock;
- whether the radio peripherals initialise;
- whether the LoRaWAN session resumes.

Points where the code's behaviour is easy to misread:

- The comment "Power off GPS and LoRa" (`main/sensor-trap-demo.c:159`) is followed by
  `ttn_shutdown` and a switch-off of LDO3 (GPS) alone (`main/sensor-trap-demo.c:160-162`).
  No rail is switched on for the radio when a message is sent. LDO2 (LoRa) stays as the
  bootstrap left it.
- Errors in the reset-time rail bootstrap are ignored (`main/sensor-trap-demo.c:59-81`).
  They are not fatal.
- A failure to set up the radio peripherals (`main/sensor-trap-demo.c:114-124`) aborts
  the cycle before sleep is armed. A failed join is only logged.
- Enabling bit 4 on 0b00100101 gives 0b00110101, and on 0b00010101, where that bit is
  already set, changes nothing (`Axp192.SwitchExamples`).

## Model

| member | source | states |
|---|---|---|
| TrapState.StatusOrdinal | main/state.h:6-10 | a status's enumerator value is below 3 |
| TrapState.EventOrdinal | main/state.h:14-19 | an event's enumerator value is below 4 |
| TrapState.StatusOfOrdinal | main/state.h:6-10 | every value 0..2 names the status with that enumerator value |
| TrapState.EventOfOrdinal | main/state.h:14-19 | every value 0..3 names the event with that enumerator value |
| TrapState.OrdinalsRoundTrip | main/state.h:6-19 | enumerator values and the enumerations convert both ways without loss |
| TrapState.NameTablesInEnumOrder | main/state.c:6-17 | status_name and event_name are indexed in enumeration order, and no two values share a name |
| TrapState.EventFromStatusTransition | main/state.c:19-31 | the event is never Heartbeat; it is None iff the status is unchanged or the new one is Unknown; it is Sprung (Set) iff the status changed to Sprung (Set) |
| TrapState.TransitionEventNamesNewStatus | main/state.c:19-31 | a reported event has the new status's enumerator value and name; equal statuses, and a new Unknown, report nothing |
| TrapState.RtcMemory.constructor | main/state.c:33-34 | RTC memory starts with status Unknown and previous message time 0 |
| Message.Encode | main/sensor-trap-demo.c:41-44 | the payload is exactly two bytes |
| Message.Decode | main/sensor-trap-demo.c:41-44 | the receiver reads an event and a status below 4 and a battery value below 4096 |
| Message.DecodeEncode | main/sensor-trap-demo.c:41-44 | decoding a payload gives the low 2 bits of event and status and the low 12 bits of the battery value; higher bits are dropped |
| Message.RoundTrip | main/sensor-trap-demo.c:41-44 | decode inverts encode for every event < 4, status < 4 and battery < 4096 |
| Message.EncodeDecode | main/sensor-trap-demo.c:41-44 | every two-byte payload is the encoding of what it decodes to |
| Message.EncodeExamples | main/sensor-trap-demo.c:41-44 | (0, 1, 0xABC) gives [0x1A, 0xBC]; (2, 2, 4095) gives [0xAF, 0xFF]; bit 12 of the battery value is lost |
| Message.EventCode | main/sensor-trap-demo.c:42 | the event's wire code is its enumerator value, below 4 |
| Message.StatusCode | main/sensor-trap-demo.c:42 | the status's wire code is its enumerator value, below 3 |
| Message.PayloadRecoversFields | main/sensor-trap-demo.c:41-44 | a receiver recovers the event, the status and the low 12 bits of the battery value from fill_message's bytes |
| Message.FillMessage | main/sensor-trap-demo.c:41-44 | writes the encoding to message[0] and message[1] and leaves every other cell alone |
| Axp192.RailOrdinal | main/axp192_custom.h:3-9 | a rail's enumerator value is below 5 |
| Axp192.RailOfOrdinal | main/axp192_custom.h:3-9 | every value 0..4 names the rail with that enumerator value |
| Axp192.RailTableIsPartition | main/axp192_custom.c:3-17 | all rails share the DCDC1/3, LDO2/3 control register; masks are bits 0, 4, 1, 2, 3; each is a single bit, and distinct rails' masks are disjoint |
| Axp192.Switched | main/axp192_custom.c:74-88 | the rail's bit takes the new setting and every bit outside its mask is unchanged |
| Axp192.SwitchRail | main/axp192_custom.c:65-91 | a switch succeeds iff the control register can be read and written; a failed switch changes nothing; a successful one gives the rail's bit the new setting and keeps every other bit of the register |
| Axp192.EnabledReport | main/axp192_custom.c:51-63 | get_voltage_enabled succeeds iff the control register reads; it reports 1 iff the rail's bit is set and 0 iff it is clear; a failure names the register |
| Axp192.SwitchIsMaskScoped | main/axp192_custom.c:65-91 | a failed read returns ReadFailed and writes nothing; a failed write returns WriteFailed and changes nothing; a success changes only the control register and there only the rail's bit |
| Axp192.SwitchedKeepsOtherRails | main/axp192_custom.c:74-88 | switching one rail keeps every other rail's enable bit |
| Axp192.SwitchThenReport | main/axp192_custom.c:51-91 | after a successful enable (disable), get_voltage_enabled reports 1 (0) for that rail and the same as before for every other rail |
| Axp192.SwitchExamples | main/axp192_custom.c:65-91 | enabling bit 4 on 0x25 gives 0x35 and on 0x15 keeps 0x15; disabling bit 0 on 0x35 gives 0x34 |
| Axp192.VoltageRegister | main/axp192_custom.c:97-116 | a rail's voltage register is neither the control register nor a battery register, and it is the shared LDO2/3 register iff the rail is an LDO |
| Axp192.VoltageRegisterSharing | main/axp192_custom.c:99-112 | two rails share a voltage register iff they are the same rail or both LDOs |
| Axp192.Unscaled | main/axp192_custom.c:123-135 | a DC-DC rail's setting is the whole byte; an LDO's is at most 15 |
| Axp192.LdoNibblesPartitionRegister | main/axp192_custom.c:129-134 | LDO2 holds the high nibble and LDO3 the low nibble, and together they rebuild the register |
| Axp192.UnscaledReport | main/axp192_custom.c:93-138 | succeeds iff the rail's voltage register reads, else fails naming it; a DC-DC rail gets the whole byte, LDO2 the high nibble and LDO3 the low nibble |
| Axp192.Millivolts | main/axp192_custom.c:148-157 | DC-DC values are 700 mV plus a multiple of 25, up to 7075 for a byte; LDO values are 1800 mV plus a multiple of 100, up to 3300 for a nibble |
| Axp192.MillivoltsStrictlyIncreasing | main/axp192_custom.c:148-157 | both scalings are strictly increasing, so a reading determines its raw setting |
| Axp192.MillivoltsEndPoints | main/axp192_custom.c:148-157 | DC-DC 0 gives 700 and 255 gives 7075; LDO 0 gives 1800 and 15 gives 3300 |
| Axp192.BatteryRaw | main/axp192_custom.c:35 | the assembled value is below 4096, with the high byte in bits 11-4 and the low nibble of the second byte in bits 3-0 |
| Axp192.BatteryReport | main/axp192_custom.c:23-37 | succeeds iff both registers read; a failed first read returns its error before the second register is read; a success is below 4096, with the first register in bits 11-4 and the second's low nibble in bits 3-0 |
| Axp192.BatteryExample | main/axp192_custom.c:23-37 | hi 0x12 and lo 0x3F give 303 |
| Axp192.Pmic.ReadByte | main/axp192_custom.c:19-21 | a read succeeds iff the register is readable, returns its value, and otherwise fails naming it |
| Axp192.Pmic.WriteByte | main/axp192_custom.c:76 | a write to a faulty register fails and changes nothing; otherwise it stores the byte |
| Axp192.Pmic.GetVoltageEnabled | main/axp192_custom.c:51-63 | reports 1 iff the rail's bit is set and 0 otherwise, or the read error |
| Axp192.Pmic.VoltageEnable | main/axp192_custom.c:65-77 | the result and the new register file are those of setting the rail's bit by read-modify-write |
| Axp192.Pmic.VoltageDisable | main/axp192_custom.c:79-91 | the result and the new register file are those of clearing the rail's bit by read-modify-write |
| Axp192.Pmic.GetVoltageUnscaled | main/axp192_custom.c:93-138 | an unknown source gets NotTty without a bus access; otherwise the rail's setting or the read error; LDO values are at most 15 |
| Axp192.Pmic.GetVoltage | main/axp192_custom.c:140-164 | the scaled setting or the propagated error; DC-DC results are in 700..7075 and LDO results in 1800..3300 |
| Axp192.Pmic.GetBatteryVoltageUnscaled | main/axp192_custom.c:23-37 | returns the battery report of the current registers, below 4096 on success |
| SensorTrap.GetStatus | main/sensor-trap-demo.c:46-56 | the sample is never Unknown, and it is Sprung iff the level is 1 |
| SensorTrap.WithHeartbeat | main/sensor-trap-demo.c:106-108 | an event other than None is kept; None becomes Heartbeat iff now - previous + 10 > 600 |
| SensorTrap.CycleEvent | main/sensor-trap-demo.c:98-108 | the cycle reports Sprung iff the stored status is not Sprung and the level is 1, Set iff it is not Set and the level is not 1, Heartbeat iff the status is unchanged and a heartbeat is due, and nothing otherwise |
| SensorTrap.NextRetained | main/sensor-trap-demo.c:110-151 | the stored status becomes the sample; the uplink time becomes now iff the radio came up and the status changed or a heartbeat was due, and is kept otherwise |
| SensorTrap.HeartbeatBoundary | main/sensor-trap-demo.c:27-28 | 590 s after an uplink nothing is due; at 591 s a heartbeat is; a real event is never overridden |
| SensorTrap.WakeActions | main/sensor-trap-demo.c:88-96 | rails are switched iff the wake was a reset; the display starts iff the button woke the node; a timer or other wake does nothing |
| SensorTrap.UplinkActions | main/sensor-trap-demo.c:114-156 | radio init first and radio sleep last; a join iff the session did not resume; exactly one transmission, of the payload on port 1 unconfirmed, just before the radio sleeps |
| SensorTrap.SleepActions | main/sensor-trap-demo.c:159-176 | radio shutdown, then LDO3 off, the only rail switch; a display wait iff the display was started; the last three steps arm the 10 000 000 µs timer and the all-low wake on 1 << 38 and sleep, and nothing sleeps earlier |
| SensorTrap.PayloadBattery | main/sensor-trap-demo.c:141-146 | when both battery registers read, the value is below 4096 with the first register in bits 11-4 and the second's low nibble in bits 3-0; otherwise it is whatever the unset variable held |
| SensorTrap.RunCycle | main/sensor-trap-demo.c:83-177 | a cycle sleeps iff it has nothing to send or the radio came up; it starts with the wake-cause actions and ends with deep sleep or the abort; the stored status is the sample; an aborted cycle's registers are those after the bootstrap alone |
| SensorTrap.SleepActionsSwitchOnlyLdo3 | main/sensor-trap-demo.c:159-176 | the end of a cycle changes the registers only by switching LDO3 off |
| SensorTrap.ConfigureAxp192 | main/sensor-trap-demo.c:59-81 | the registers afterwards are those of switching DCDC1 on, DCDC2 off, DCDC3, LDO2 and LDO3 on, in that order, whatever each call returns |
| SensorTrap.WakeUp | main/sensor-trap-demo.c:86-96 | bootstrap on a reset, display on a button wake, nothing else |
| SensorTrap.SendUplink | main/sensor-trap-demo.c:112-157 | init, join unless the session resumed, transmit the encoding of the event, the stored status and the battery reading on port 1 unconfirmed, then radio to sleep; the uplink time becomes now |
| SensorTrap.GoToSleep | main/sensor-trap-demo.c:159-176 | radio shutdown, LDO3 off, LED off, wait for the display if it was started, arm the 10 s timer and the all-low EXT1 wake on GPIO 38, sleep |
| SensorTrap.AppMain | main/sensor-trap-demo.c:83-177 | the actions, whether it sleeps, the new RTC memory and the new registers are those of RunCycle |
| CycleProperties.WakesArmedUnlessAborted | main/sensor-trap-demo.c:112-176 | a cycle fails to sleep iff it has an event and the radio peripherals fail; every other cycle switches LDO3 off and ends by arming the 10 000 000 µs timer and the all-low wake on 1 << 38, then sleeping; an aborted cycle arms nothing |
| CycleProperties.WakeCauseDispatch | main/sensor-trap-demo.c:88-96 | the bootstrap runs iff the wake was a reset; the display starts iff the button woke the node, and is then awaited before sleep |
| CycleProperties.UplinkCarriesNewStatus | main/sensor-trap-demo.c:110-149 | a message is sent iff there is an event and the radio came up; it goes on port 1 unconfirmed and carries the event, the newly sampled status and the whole battery reading |
| CycleProperties.RetainedStateUpdate | main/sensor-trap-demo.c:110-151 | the stored status is always the new sample; the uplink time changes only to this cycle's time and only in a cycle that sends; the resume/join outcome makes no difference |
| CycleProperties.RegistersFollowRailActions | main/sensor-trap-demo.c:88-162 | the registers afterwards follow the cycle's rail switches in order; LDO2 and DCDC1 are never switched off; a sleeping cycle's last switch is LDO3 off |
| CycleProperties.BootstrapEffect | main/sensor-trap-demo.c:59-81 | after a reset the control register keeps bits 7-5, has bits 3-0 set and bit 4 cleared, and nothing else changes; with the register file's fixed faults, a control register that cannot be read or written leaves everything unchanged |
| CycleProperties.FirstCycleAfterColdBootReports | main/sensor-trap-demo.c:98-112 | the first cycle after power-on always reports the sampled status |
| CycleProperties.UplinkGapBounded | main/sensor-trap-demo.c:104-151 | if every wake comes at most d seconds after the previous one and the radio works in every one, then after each wake the last uplink is at most 590 s old, and no wake finds it more than 590 + d s old (600 s when d is the 10 s sleep interval) |
| CycleProperties.ColdBootUplinkGapBounded | main/sensor-trap-demo.c:98-151 | from power-on the first cycle sends; if every later wake comes at most d seconds after the previous one and the radio works in every one, no wake finds the last uplink more than 590 + d s old |
| CycleProperties.LateWakeExceedsHeartbeat | main/sensor-trap-demo.c:104-108 | the heartbeat looks ahead exactly one sleep interval: after an uplink at 0 and a quiet wake at 590, a wake at 601 finds the uplink 601 s old |
| Display.PageStart | main/display.c:44 | y1 becomes a multiple of 8 with new y1 <= old y1 < new y1 + 8 |
| Display.PageEnd | main/display.c:45 | y2 becomes a row with y2 % 8 == 7 and old y2 <= new y2 < old y2 + 8 |
| Display.PageRoundingIdempotent | main/display.c:43-46 | rounding is idempotent, and a row and its page's last row share the same first row |
| Display.Rounder | main/display.c:43-46 | y1 and y2 become their page bounds; x1 and x2 are untouched |
| Display.ShiftIsBitMask | main/display.c:37-39 | the mask 1 << (y & 7) is the single bit y & 7 of the byte |
| Display.WithBit | main/display.c:37-39 | bit k takes the new value and the other seven bits keep theirs |
| Display.SetPx | main/display.c:33-41 | only byte x + (y >> 3) * buf_w changes, and within it only bit y & 7, which ends up set iff color.full == 0 and opa is not transparent |

## Left out

- ESP-IDF platform calls (`i2c_init`, GPIO pull and direction setup, `nvs_flash_init`, the SPI bus) are left out. They appear only as actions or as the `radioReady` input.
- The sleep-arming `ESP_ERROR_CHECK`s are assumed to succeed. Their arguments are constants.
- The LoRaWAN stack (`ttn_*`) is a foreign library. Its provisioning, join and transmit are actions. The outcome of resume is an input. The outcome of join is ignored, as in the code.
- What happens to RTC memory when an aborted cycle restarts the chip is not modelled. The model reports the memory as the cycle left it: the new status is stored and the uplink time is unchanged.
- `axp192_get_battery_voltage` is left out because it is a floating-point multiply by 1.1.
- The I2C read and write primitives are abstracted as a register file. A read fails iff the register is missing. A write fails iff the register is in a fault set, and then it changes nothing. These faults are fixed per register for the whole cycle, so a transfer that fails once and then succeeds on a retry is not modelled.
- The error codes are abstract values. The model does not narrow them to `uint8_t` in `axp192_get_voltage` (`main/axp192_custom.c:141`).
- Register addresses are the AXP192 datasheet's. `axp192.h` is not part of this model.
- A rail index outside the enumeration is undefined behaviour in the C table lookups of enable, disable and get_voltage_enabled. The `Rail` type rules it out. `GetVoltageUnscaled` and `GetVoltage` take the raw index and model the NotTty branch.
- The `axp192_ioctl` voltage-setting calls in `configure_axp192` go to a library that is not part of this model.
- Logging is left out, including the pointer arithmetic in the message log line.
- The display task, LVGL, the panel driver, `flush`, the tick task and the semaphore are UI and concurrency. Starting and awaiting the display are actions.
- `time(NULL)` and the GPIO 13 level are inputs to the cycle.
- Whether the display was started is derived from the wake cause. In the code it is tested by whether the semaphore exists.
- If the battery read fails, `battery_voltage_unscaled` is left unset. The model carries an arbitrary input value (`strayBattery`) in its place.
- Display.SetPx: the buffer index `x + (y >> 3) * buf_w` is required to be in bounds. The C code does not check it.
- CycleProperties.UplinkGapBounded: the spacing `d` between wakes is a hypothesis, not derived. The timer is armed for 10 s only at the end of a cycle (`main/sensor-trap-demo.c:170-176`), so real wakes are 10 s plus the cycle's running time apart, and the firmware's 600 s heartbeat target is guaranteed only when that running time reads as 0 s on the clock. `CycleProperties.LateWakeExceedsHeartbeat` shows a gap of 11 s giving 601 s. The model does not bound the running time of a cycle, and it assumes the radio peripherals initialise in every cycle.
- CycleProperties.BootstrapEffect: bus faults are fixed per register for the whole cycle, so the five bootstrap switches on the shared control register either all fail or all succeed. A bus that fails on one transfer and works on the next leaves a partial bootstrap in the C code, because `configure_axp192` ignores every error (`main/sensor-trap-demo.c:59-81`). The model does not capture that partial bootstrap.
- ColdBootUplinkGapBounded: the same spacing hypothesis `d` and the same dependence on the running time of a cycle apply.
