/** One wake cycle of the sensor node, from wake-up to deep sleep: dispatch on the wake
    cause, sample the trap, decide what to report, send it, power the GPS rail down and
    arm the next wakes. Hardware the core does not own (the radio stack, GPIO, the
    sleep controller) appears only as inputs to the cycle and as the ordered list of
    actions the cycle performs on it. */
module SensorTrap {
  import opened TrapState
  import opened Axp192
  import opened Message

  /** Seconds between timer wakes. */
  const SLEEP_INTERVAL: int := 10
  /** Longest time, in seconds, the node should stay silent. */
  const HEARTBEAT_INTERVAL: int := 600
  /** The timer wake, in microseconds. */
  const TIMER_WAKE_US: int := SLEEP_INTERVAL * 1000 * 1000
  /** The EXT1 wake mask: GPIO 38, the button. */
  const BUTTON_WAKE_MASK: bv64 := 1 << 38
  /** The LoRaWAN port uplinks are sent on. */
  const UPLINK_PORT: nat := 1

  /** The reason the chip left deep sleep; Undefined is a reset. */
  datatype WakeCause = Undefined | Timer | Ext1 | OtherCause

  datatype Ext1Mode = AllLow | AnyHigh

  /** The side effects of a cycle on hardware outside the core, in the order performed. */
  datatype Action =
    | SetRail(rail: Rail, on: bool)            // axp192_voltage_enable / _disable (result ignored)
    | StartDisplay                              // gui_start
    | RadioInit                                 // ISR service, NVS, SPI bus, ttn_init and provisioning
    | Join                                      // ttn_join, tried when resuming the session fails
    | Transmit(payload: seq<bv8>, port: nat, confirmed: bool)
    | RadioToSleep                              // ttn_wait_for_idle, ttn_prepare_for_deep_sleep
    | RadioShutdown                             // ttn_shutdown
    | LedOff                                    // float GPIO 4
    | AwaitDisplay                              // gui_wait, when a display session was started
    | ArmTimer(micros: int)
    | ArmExt1(mask: bv64, mode: Ext1Mode)
    | DeepSleep
    | Abort                                     // a failed ESP_ERROR_CHECK

  /** What the outside world supplies to one cycle: the wake cause, the level read on
      the trap's GPIO, the wall-clock time, whether the radio peripherals initialise,
      whether the radio session resumes from deep sleep, and the value the battery
      variable holds if the battery read fails and leaves it unset. */
  datatype Wake = Wake(cause: WakeCause, level: int, now: int, radioReady: bool,
                       resumed: bool, strayBattery: bv16)

  /** get_status: a high level on the trap's GPIO means sprung, anything else set. */
  function GetStatus(level: int): (s: Status)
    ensures !s.Unknown?
    ensures s.Sprung? <==> level == 1
  {
    if level == 1 then Status.Sprung else Status.Set
  }

  /** The next timer wake would come after the heartbeat interval has run out. */
  predicate HeartbeatDue(now: int, previous: int)
  {
    now - previous + SLEEP_INTERVAL > HEARTBEAT_INTERVAL
  }

  /** A cycle that has nothing to report sends a heartbeat when one is due; a cycle
      that has something to report keeps it. */
  function WithHeartbeat(e: Event, now: int, previous: int): (r: Event)
    ensures !e.None? ==> r == e
    ensures e.None? ==> (r.Heartbeat? <==> HeartbeatDue(now, previous))
    ensures e.None? ==> r.None? || r.Heartbeat?
  {
    if e.None? && HeartbeatDue(now, previous) then Event.Heartbeat else e
  }

  /** 590 seconds after an uplink nothing is due yet; at 591 a heartbeat is. */
  lemma HeartbeatBoundary(t: int)
    ensures WithHeartbeat(Event.None, t + 590, t).None?
    ensures WithHeartbeat(Event.None, t + 591, t).Heartbeat?
    ensures WithHeartbeat(Event.Set, t + 591, t) == Event.Set
  {
  }

  /** The event a cycle reports, from the retained status and the new sample: the new
      status when it differs from the stored one, else a heartbeat when one is due, else
      nothing. */
  function CycleEvent(w: Wake, st: RetainedState): (e: Event)
    ensures e.Sprung? <==> st.status != Status.Sprung && w.level == 1
    ensures e.Set? <==> st.status != Status.Set && w.level != 1
    ensures e.Heartbeat? <==> st.status == GetStatus(w.level) && HeartbeatDue(w.now, st.previousMessageTime)
    ensures e.None? <==> st.status == GetStatus(w.level) && !HeartbeatDue(w.now, st.previousMessageTime)
  {
    WithHeartbeat(EventFromStatusTransition(st.status, GetStatus(w.level)), w.now, st.previousMessageTime)
  }

  /** RTC memory after a cycle: the status is always the new sample; the uplink time
      moves to now once an uplink has been attempted. */
  function NextRetained(w: Wake, st: RetainedState): (next: RetainedState)
    ensures next.status == GetStatus(w.level)
    ensures next.previousMessageTime ==
      if w.radioReady && (st.status != next.status || HeartbeatDue(w.now, st.previousMessageTime))
      then w.now else st.previousMessageTime
  {
    var sent := !CycleEvent(w, st).None? && w.radioReady;
    RetainedState(GetStatus(w.level), if sent then w.now else st.previousMessageTime)
  }

  /** configure_axp192: on a reset every rail is switched once, DCDC2 off and the others on. */
  const BootstrapActions: seq<Action> :=
    [SetRail(DCDC1, true), SetRail(DCDC2, false), SetRail(DCDC3, true), SetRail(LDO2, true), SetRail(LDO3, true)]

  /** What the wake cause alone decides: the rail bootstrap after a reset, the display
      after a button press, nothing after a timer or any other wake. */
  function WakeActions(cause: WakeCause): (acts: seq<Action>)
    ensures (exists i | 0 <= i < |acts| :: acts[i].SetRail?) <==> cause.Undefined?
    ensures StartDisplay in acts <==> cause.Ext1?
    ensures forall i | 0 <= i < |acts| :: acts[i].SetRail? || acts[i].StartDisplay?
    ensures cause.Timer? || cause.OtherCause? ==> acts == []
  {
    match cause
    case Undefined => assert BootstrapActions[0].SetRail?; BootstrapActions
    case Ext1 => [StartDisplay]
    case Timer => []
    case OtherCause => []
  }

  /** The radio part of a cycle that has something to report. */
  function UplinkActions(w: Wake, payload: seq<bv8>): (acts: seq<Action>)
    ensures |acts| == if w.resumed then 3 else 4
    ensures acts[0] == RadioInit && acts[|acts| - 1] == RadioToSleep
    ensures Join in acts <==> !w.resumed
    ensures acts[|acts| - 2] == Transmit(payload, UPLINK_PORT, false)
    ensures forall i | 0 <= i < |acts| && acts[i].Transmit? :: i == |acts| - 2
  {
    [RadioInit] + (if w.resumed then [] else [Join]) + [Transmit(payload, UPLINK_PORT, false), RadioToSleep]
  }

  /** The end of every cycle that does not abort. */
  function SleepActions(displayStarted: bool): (acts: seq<Action>)
    ensures |acts| >= 6 && acts[0] == RadioShutdown && acts[1] == SetRail(LDO3, false)
    ensures AwaitDisplay in acts <==> displayStarted
    ensures acts[|acts| - 3..] == [ArmTimer(TIMER_WAKE_US), ArmExt1(BUTTON_WAKE_MASK, AllLow), DeepSleep]
    ensures forall i | 0 <= i < |acts| && acts[i].SetRail? :: i == 1
    ensures forall i | 0 <= i < |acts| - 1 :: !acts[i].DeepSleep?
  {
    [RadioShutdown, SetRail(LDO3, false), LedOff] + (if displayStarted then [AwaitDisplay] else [])
    + [ArmTimer(TIMER_WAKE_US), ArmExt1(BUTTON_WAKE_MASK, AllLow), DeepSleep]
  }

  /** The effect of one action on the register file. */
  function ApplyRailAction(file: RegisterFile, a: Action): RegisterFile
  {
    if a.SetRail? then SwitchRail(file, a.rail, a.on).1 else file
  }

  /** The register file after the rail switches among `actions`, in order. */
  function ApplyRailActions(file: RegisterFile, actions: seq<Action>): RegisterFile
    decreases |actions|
  {
    if actions == [] then file else ApplyRailActions(ApplyRailAction(file, actions[0]), actions[1..])
  }

  /** Applying a list of actions in two parts is applying it whole. */
  lemma {:induction false} ApplyRailActionsAppend(file: RegisterFile, xs: seq<Action>, ys: seq<Action>)
    ensures ApplyRailActions(file, xs + ys) == ApplyRailActions(ApplyRailActions(file, xs), ys)
    decreases |xs|
  {
    if xs == [] {
      assert xs + ys == ys;
    } else {
      assert (xs + ys)[1..] == xs[1..] + ys;
      ApplyRailActionsAppend(ApplyRailAction(file, xs[0]), xs[1..], ys);
    }
  }

  /** Actions that switch no rail leave the register file alone. */
  lemma {:induction false} NoRailActions(file: RegisterFile, xs: seq<Action>)
    requires forall a | a in xs :: !a.SetRail?
    ensures ApplyRailActions(file, xs) == file
    decreases |xs|
  {
    if xs != [] {
      assert xs[0] in xs;
      assert forall a | a in xs[1..] :: a in xs;
      NoRailActions(file, xs[1..]);
    }
  }

  /** The only rail a cycle's ending touches is LDO3, which it switches off. */
  lemma SleepActionsSwitchOnlyLdo3(file: RegisterFile, displayStarted: bool)
    ensures ApplyRailActions(file, SleepActions(displayStarted)) == SwitchRail(file, LDO3, false).1
  {
    var tail := [LedOff] + (if displayStarted then [AwaitDisplay] else [])
                + [ArmTimer(TIMER_WAKE_US), ArmExt1(BUTTON_WAKE_MASK, AllLow), DeepSleep];
    assert SleepActions(displayStarted) == [RadioShutdown, SetRail(LDO3, false)] + tail;
    ApplyRailActionsAppend(file, [RadioShutdown, SetRail(LDO3, false)], tail);
    NoRailActions(SwitchRail(file, LDO3, false).1, tail);
  }

  /** The battery value the payload carries: the reading, or the unset variable when the read fails. */
  function PayloadBattery(file: RegisterFile, w: Wake): (b: bv16)
    ensures BATTERY_VOLTAGE in file.regs && BATTERY_VOLTAGE + 1 in file.regs ==>
      && b < 4096
      && b >> 4 == file.regs[BATTERY_VOLTAGE] as bv16
      && b & 0x0F == (file.regs[BATTERY_VOLTAGE + 1] & 0x0F) as bv16
    ensures BATTERY_VOLTAGE !in file.regs || BATTERY_VOLTAGE + 1 !in file.regs ==> b == w.strayBattery
  {
    match BatteryReport(file)
    case Ok(v) => v
    case Err(_) => w.strayBattery
  }

  datatype CycleResult = CycleResult(actions: seq<Action>, slept: bool, retained: RetainedState,
                                     registers: RegisterFile)

  /** One whole cycle: its actions, whether it reaches deep sleep, and the RTC memory and
      register file it leaves. */
  function RunCycle(w: Wake, st: RetainedState, file: RegisterFile): (c: CycleResult)
    ensures c.slept <==> CycleEvent(w, st).None? || w.radioReady
    ensures c.retained.status == GetStatus(w.level)
    ensures |c.actions| > |WakeActions(w.cause)| && c.actions[..|WakeActions(w.cause)|] == WakeActions(w.cause)
    ensures c.actions[|c.actions| - 1] == if c.slept then DeepSleep else Abort
    ensures !c.slept ==> c.registers == ApplyRailActions(file, WakeActions(w.cause))
  {
    var booted := ApplyRailActions(file, WakeActions(w.cause));
    var event := CycleEvent(w, st);
    var next := NextRetained(w, st);
    if !event.None? && !w.radioReady then
      CycleResult(WakeActions(w.cause) + [Abort], false, next, booted)
    else
      var uplink :=
        if event.None? then []
        else UplinkActions(w, Encode(EventCode(event), StatusCode(next.status), PayloadBattery(booted, w)));
      CycleResult(WakeActions(w.cause) + uplink + SleepActions(w.cause.Ext1?), true, next,
                  ApplyRailActions(booted, SleepActions(w.cause.Ext1?)))
  }

  /** configure_axp192: the five switches, each one's error ignored. */
  method ConfigureAxp192(pmic: Pmic)
    modifies pmic
    ensures pmic.State() == ApplyRailActions(old(pmic.State()), BootstrapActions)
  {
    ghost var s0 := pmic.State();
    var _ := pmic.VoltageEnable(DCDC1);
    ghost var s1 := pmic.State();
    var _ := pmic.VoltageDisable(DCDC2);
    ghost var s2 := pmic.State();
    var _ := pmic.VoltageEnable(DCDC3);
    ghost var s3 := pmic.State();
    var _ := pmic.VoltageEnable(LDO2);
    ghost var s4 := pmic.State();
    var _ := pmic.VoltageEnable(LDO3);
    calc {
      ApplyRailActions(s0, BootstrapActions);
      ApplyRailActions(s1, BootstrapActions[1..]);
      ApplyRailActions(s2, BootstrapActions[2..]);
      ApplyRailActions(s3, BootstrapActions[3..]);
      ApplyRailActions(s4, BootstrapActions[4..]);
      ApplyRailActions(pmic.State(), BootstrapActions[5..]);
    }
  }

  /** The start of app_main: the rail bootstrap after a reset, the display after a
      button press. */
  method WakeUp(pmic: Pmic, cause: WakeCause) returns (actions: seq<Action>)
    modifies pmic
    ensures actions == WakeActions(cause)
    ensures pmic.State() == ApplyRailActions(old(pmic.State()), actions)
  {
    actions := [];
    if cause.Undefined? {
      ConfigureAxp192(pmic);
      actions := actions + BootstrapActions;
    }
    if cause.Ext1? {
      actions := actions + [StartDisplay];
    }
    if !cause.Undefined? {
      NoRailActions(old(pmic.State()), actions);
    }
  }

  /** The uplink block of app_main: bring the radio up, read the battery, build the
      payload from the event and the status already stored, send it, and record the
      time of the attempt. */
  method SendUplink(rtc: RtcMemory, pmic: Pmic, w: Wake, event: Event) returns (actions: seq<Action>)
    modifies rtc`previousMessageTime
    ensures actions ==
      UplinkActions(w, Encode(EventCode(event), StatusCode(rtc.status), PayloadBattery(pmic.State(), w)))
    ensures rtc.previousMessageTime == w.now
  {
    actions := [RadioInit];
    if !w.resumed {
      actions := actions + [Join];
    }
    var reading := pmic.GetBatteryVoltageUnscaled();
    var battery := if reading.Ok? then reading.value else w.strayBattery;
    var message := new bv8[2];
    FillMessage(event, rtc.status, battery, message);
    assert message[..] == message[..2];
    actions := actions + [Transmit(message[..], UPLINK_PORT, false)];
    rtc.previousMessageTime := w.now;
    actions := actions + [RadioToSleep];
  }

  /** The end of app_main: radio off, GPS rail off, LED off, wait for the display if it
      was started, then arm the timer and the button wakes and sleep. */
  method GoToSleep(pmic: Pmic, displayStarted: bool) returns (actions: seq<Action>)
    modifies pmic
    ensures actions == SleepActions(displayStarted)
    ensures pmic.State() == ApplyRailActions(old(pmic.State()), actions)
  {
    actions := [RadioShutdown];
    var _ := pmic.VoltageDisable(LDO3);
    actions := actions + [SetRail(LDO3, false), LedOff];
    if displayStarted {
      actions := actions + [AwaitDisplay];
    }
    actions := actions + [ArmTimer(TIMER_WAKE_US), ArmExt1(BUTTON_WAKE_MASK, AllLow), DeepSleep];
    SleepActionsSwitchOnlyLdo3(old(pmic.State()), displayStarted);
  }

  /** app_main: one cycle, from wake-up to the request for deep sleep. */
  method AppMain(rtc: RtcMemory, pmic: Pmic, w: Wake) returns (actions: seq<Action>, slept: bool)
    modifies rtc, pmic
    ensures var c := RunCycle(w, old(rtc.State()), old(pmic.State()));
      && actions == c.actions && slept == c.slept
      && rtc.State() == c.retained && pmic.State() == c.registers
  {
    actions := WakeUp(pmic, w.cause);
    var displayStarted := w.cause.Ext1?;

    var newStatus := GetStatus(w.level);
    var event := EventFromStatusTransition(rtc.status, newStatus);
    var currentTime := w.now;
    if event.None? && currentTime - rtc.previousMessageTime + SLEEP_INTERVAL > HEARTBEAT_INTERVAL {
      event := Event.Heartbeat;
    }
    rtc.status := newStatus;

    if !event.None? {
      if !w.radioReady {
        actions := actions + [Abort];
        slept := false;
        return;
      }
      var uplink := SendUplink(rtc, pmic, w, event);
      actions := actions + uplink;
    }

    var sleep := GoToSleep(pmic, displayStarted);
    assert sleep == SleepActions(w.cause.Ext1?);
    actions := actions + sleep;
    slept := true;
  }
}
