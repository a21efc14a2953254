/** What one wake cycle, and a run of them, guarantees: both wakes armed before every
    sleep, dispatch by wake cause, the payload's contents, the updates to RTC memory and
    to the power rails, and the bound on the silence between uplinks. */
module CycleProperties {
  import opened TrapState
  import opened Axp192
  import opened Message
  import opened SensorTrap

  /** The radio part of a cycle, as RunCycle builds it: empty unless there is something
      to send and the radio came up. */
  function CycleUplink(w: Wake, st: RetainedState, file: RegisterFile): seq<Action>
  {
    var event := CycleEvent(w, st);
    if event.None? || !w.radioReady then []
    else UplinkActions(w, Encode(EventCode(event), StatusCode(GetStatus(w.level)),
                                 PayloadBattery(ApplyRailActions(file, WakeActions(w.cause)), w)))
  }

  predicate IsRadioAction(a: Action)
  {
    a.RadioInit? || a.Join? || a.Transmit? || a.RadioToSleep?
  }

  /** Every cycle is its wake-cause actions, then its radio actions, then either the
      sleep sequence or an abort. */
  lemma CycleShape(w: Wake, st: RetainedState, file: RegisterFile)
    ensures var c := RunCycle(w, st, file);
      c.actions == WakeActions(w.cause) + CycleUplink(w, st, file)
                   + (if c.slept then SleepActions(w.cause.Ext1?) else [Abort])
    ensures forall a | a in CycleUplink(w, st, file) :: IsRadioAction(a)
  {
    var c := RunCycle(w, st, file);
    if !c.slept {
      assert CycleUplink(w, st, file) == [];
      assert WakeActions(w.cause) + [] == WakeActions(w.cause);
    } else if CycleEvent(w, st).None? {
      assert WakeActions(w.cause) + [] == WakeActions(w.cause);
    }
  }

  /** For any action list of a cycle's shape: a sleeping one switches LDO3 off and ends
      by arming both wakes and sleeping; an aborting one ends in the abort and arms nothing. */
  lemma ArmingOfShape(cause: WakeCause, uplink: seq<Action>, slept: bool, actions: seq<Action>)
    requires forall a | a in uplink :: IsRadioAction(a)
    requires actions == WakeActions(cause) + uplink + (if slept then SleepActions(cause.Ext1?) else [Abort])
    ensures slept ==>
      && |actions| >= 5
      && actions[|actions| - 3..] == [ArmTimer(10_000_000), ArmExt1(0x40_0000_0000, AllLow), DeepSleep]
      && SetRail(LDO3, false) in actions[..|actions| - 3]
    ensures !slept ==>
      && actions[|actions| - 1] == Abort
      && forall a | a in actions :: !a.ArmTimer? && !a.ArmExt1? && !a.DeepSleep?
  {
    var prefix := WakeActions(cause) + uplink;
    if slept {
      var mid: seq<Action> := if cause.Ext1? then [AwaitDisplay] else [];
      var head := [RadioShutdown, SetRail(LDO3, false), LedOff] + mid;
      var arm := [ArmTimer(TIMER_WAKE_US), ArmExt1(BUTTON_WAKE_MASK, AllLow), DeepSleep];
      assert SleepActions(cause.Ext1?) == head + arm;
      assert actions == (prefix + head) + arm;
      assert actions[|actions| - 3..] == arm;
      assert actions[..|actions| - 3] == prefix + head;
      assert SetRail(LDO3, false) in head;
    } else {
      assert actions == prefix + [Abort];
      assert forall a | a in WakeActions(cause) :: a.SetRail? || a.StartDisplay?;
    }
  }

  /** Every cycle either aborts, which happens only when it has something to send and
      the radio peripherals fail to initialise, or ends by switching LDO3 off and then
      arming a 10-second timer wake and an all-low EXT1 wake on GPIO 38 before sleeping. */
  lemma WakesArmedUnlessAborted(w: Wake, st: RetainedState, file: RegisterFile)
    ensures var c := RunCycle(w, st, file);
      && (!c.slept <==> !CycleEvent(w, st).None? && !w.radioReady)
      && (c.slept ==>
            && |c.actions| >= 5
            && c.actions[|c.actions| - 3..]
               == [ArmTimer(10_000_000), ArmExt1(0x40_0000_0000, AllLow), DeepSleep]
            && SetRail(LDO3, false) in c.actions[..|c.actions| - 3])
      && (!c.slept ==>
            && c.actions[|c.actions| - 1] == Abort
            && forall a | a in c.actions :: !a.ArmTimer? && !a.ArmExt1? && !a.DeepSleep?)
  {
    var c := RunCycle(w, st, file);
    CycleShape(w, st, file);
    ArmingOfShape(w.cause, CycleUplink(w, st, file), c.slept, c.actions);
  }

  /** Which actions the ending of a cycle that sleeps holds. */
  lemma SleepActionsContents(cause: WakeCause)
    ensures SetRail(DCDC1, true) !in SleepActions(cause.Ext1?) && StartDisplay !in SleepActions(cause.Ext1?)
    ensures AwaitDisplay in SleepActions(cause.Ext1?) <==> cause.Ext1?
  {
    var head := [RadioShutdown, SetRail(LDO3, false), LedOff];
    var mid: seq<Action> := if cause.Ext1? then [AwaitDisplay] else [];
    var arm := [ArmTimer(TIMER_WAKE_US), ArmExt1(BUTTON_WAKE_MASK, AllLow), DeepSleep];
    assert SleepActions(cause.Ext1?) == head + mid + arm;
    assert AwaitDisplay !in head && AwaitDisplay !in arm;
  }

  /** Dispatch on the wake cause, for any action list of a cycle's shape. */
  lemma DispatchOfShape(cause: WakeCause, uplink: seq<Action>, slept: bool, actions: seq<Action>)
    requires forall a | a in uplink :: IsRadioAction(a)
    requires actions == WakeActions(cause) + uplink + (if slept then SleepActions(cause.Ext1?) else [Abort])
    ensures cause.Undefined? <==> |actions| >= 5 && actions[..5] == BootstrapActions
    ensures cause.Undefined? <==> SetRail(DCDC1, true) in actions
    ensures cause.Ext1? <==> StartDisplay in actions
    ensures slept ==> (cause.Ext1? <==> AwaitDisplay in actions)
  {
    var tail := if slept then SleepActions(cause.Ext1?) else [Abort];
    SleepActionsContents(cause);
    assert SetRail(DCDC1, true) !in tail && StartDisplay !in tail;
    var rest := uplink + tail;
    assert actions == WakeActions(cause) + rest;
    assert SetRail(DCDC1, true) !in rest && StartDisplay !in rest && AwaitDisplay !in uplink;
    if cause.Undefined? {
      assert actions[..5] == BootstrapActions;
      assert actions[0] == SetRail(DCDC1, true);
    } else {
      assert SetRail(DCDC1, true) !in WakeActions(cause);
      if |actions| >= 5 {
        assert actions[0] != SetRail(DCDC1, true);
      }
    }
  }

  /** The rail bootstrap runs exactly on a reset and the display starts exactly on a
      button wake; a display that was started is awaited before sleep. */
  lemma WakeCauseDispatch(w: Wake, st: RetainedState, file: RegisterFile)
    ensures var c := RunCycle(w, st, file);
      && (w.cause.Undefined? <==> |c.actions| >= 5 && c.actions[..5] == BootstrapActions)
      && (w.cause.Undefined? <==> SetRail(DCDC1, true) in c.actions)
      && (w.cause.Ext1? <==> StartDisplay in c.actions)
      && (c.slept ==> (w.cause.Ext1? <==> AwaitDisplay in c.actions))
  {
    var c := RunCycle(w, st, file);
    CycleShape(w, st, file);
    DispatchOfShape(w.cause, CycleUplink(w, st, file), c.slept, c.actions);
  }

  /** The radio part of a cycle sends its payload unconfirmed on the uplink port, and
      sends nothing else. */
  lemma UplinkTransmitsPayload(w: Wake, p: seq<bv8>)
    ensures Transmit(p, UPLINK_PORT, false) in UplinkActions(w, p)
    ensures forall a | a in UplinkActions(w, p) && a.Transmit? :: a == Transmit(p, UPLINK_PORT, false)
  {
    var join: seq<Action> := if w.resumed then [] else [Join];
    assert UplinkActions(w, p) == [RadioInit] + join + [Transmit(p, UPLINK_PORT, false), RadioToSleep];
  }

  /** A cycle's wake-cause actions and its ending send nothing. */
  lemma NoTransmitOutsideUplink(cause: WakeCause, slept: bool)
    ensures forall a | a in WakeActions(cause) :: !a.Transmit?
    ensures forall a | a in (if slept then SleepActions(cause.Ext1?) else [Abort]) :: !a.Transmit?
  {
    var mid: seq<Action> := if cause.Ext1? then [AwaitDisplay] else [];
    assert SleepActions(cause.Ext1?) == [RadioShutdown, SetRail(LDO3, false), LedOff] + mid
                                  + [ArmTimer(TIMER_WAKE_US), ArmExt1(BUTTON_WAKE_MASK, AllLow), DeepSleep];
  }

  /** For any action list of a cycle's shape: it transmits exactly when its radio part
      is an uplink, and then only that uplink's payload. */
  lemma TransmitOfShape(w: Wake, uplink: seq<Action>, slept: bool, actions: seq<Action>, p: seq<bv8>, sends: bool)
    requires uplink == if sends then UplinkActions(w, p) else []
    requires actions == WakeActions(w.cause) + uplink + (if slept then SleepActions(w.cause.Ext1?) else [Abort])
    ensures (exists a | a in actions :: a.Transmit?) <==> sends
    ensures forall a | a in actions && a.Transmit? :: a == Transmit(p, UPLINK_PORT, false)
  {
    NoTransmitOutsideUplink(w.cause, slept);
    assert forall a | a in actions && a.Transmit? :: a in uplink;
    if sends {
      UplinkTransmitsPayload(w, p);
      assert Transmit(p, UPLINK_PORT, false) in actions;
    }
  }

  /** Every message in a list whose transmissions all carry fill_message's payload
      decodes to that payload's event, status and 12-bit battery reading. */
  lemma TransmissionsDecode(actions: seq<Action>, event: Event, status: Status, battery: bv16)
    requires forall a | a in actions && a.Transmit? ::
      a == Transmit(Encode(EventCode(event), StatusCode(status), battery), UPLINK_PORT, false)
    ensures forall a | a in actions && a.Transmit? ::
      && a.port == UPLINK_PORT && !a.confirmed && |a.payload| == 2
      && Decode(a.payload).event == EventCode(event)
      && Decode(a.payload).status == StatusCode(status)
      && Decode(a.payload).battery == battery & 0x0FFF
  {
    DecodeEncode(EventCode(event), StatusCode(status), battery);
  }

  /** A cycle sends exactly when it has an event and the radio came up; the payload then
      carries that event, the status just sampled (never Unknown) and the battery reading,
      which fits in twelve bits and so reaches the receiver whole. */
  lemma UplinkCarriesNewStatus(w: Wake, st: RetainedState, file: RegisterFile)
    ensures var c := RunCycle(w, st, file);
      var booted := ApplyRailActions(file, WakeActions(w.cause));
      && ((exists a | a in c.actions :: a.Transmit?) <==> !CycleEvent(w, st).None? && w.radioReady)
      && forall a | a in c.actions && a.Transmit? ::
           && a.port == UPLINK_PORT && !a.confirmed && |a.payload| == 2
           && Decode(a.payload).event == EventCode(CycleEvent(w, st))
           && Decode(a.payload).status == StatusCode(GetStatus(w.level))
           && (BatteryReport(booted).Ok? ==> Decode(a.payload).battery == BatteryReport(booted).value)
  {
    var c := RunCycle(w, st, file);
    var booted := ApplyRailActions(file, WakeActions(w.cause));
    var event := CycleEvent(w, st);
    var battery := PayloadBattery(booted, w);
    var payload := Encode(EventCode(event), StatusCode(GetStatus(w.level)), battery);
    CycleShape(w, st, file);
    TransmitOfShape(w, CycleUplink(w, st, file), c.slept, c.actions, payload, !event.None? && w.radioReady);
    TransmissionsDecode(c.actions, event, GetStatus(w.level), battery);
    assert BatteryReport(booted).Ok? ==> battery & 0x0FFF == BatteryReport(booted).value;
  }

  /** RTC memory after a cycle: the status is the new sample whatever happens; the
      uplink time moves only in a cycle that sends, and then to that cycle's time, and
      whether the radio session resumed or had to join makes no difference. */
  lemma RetainedStateUpdate(w: Wake, st: RetainedState, file: RegisterFile, resumed: bool)
    ensures var c := RunCycle(w, st, file);
      && c.retained.status == GetStatus(w.level)
      && (c.retained.previousMessageTime != st.previousMessageTime ==> c.retained.previousMessageTime == w.now)
      && (c.retained.previousMessageTime == w.now <==>
            (!CycleEvent(w, st).None? && w.radioReady) || st.previousMessageTime == w.now)
      && RunCycle(w.(resumed := resumed), st, file).retained == c.retained
  {
  }

  /** For any action list of a cycle's shape: its rail switches are the wake-cause ones
      and, when it sleeps, LDO3 off; none switches LDO2 or DCDC1 off. */
  lemma RailsOfShape(file: RegisterFile, cause: WakeCause, uplink: seq<Action>, slept: bool, actions: seq<Action>)
    requires forall a | a in uplink :: IsRadioAction(a)
    requires actions == WakeActions(cause) + uplink + (if slept then SleepActions(cause.Ext1?) else [Abort])
    ensures var booted := ApplyRailActions(file, WakeActions(cause));
      ApplyRailActions(file, actions) == if slept then SwitchRail(booted, LDO3, false).1 else booted
    ensures SetRail(LDO2, false) !in actions && SetRail(DCDC1, false) !in actions
  {
    var wake := WakeActions(cause);
    var booted := ApplyRailActions(file, wake);
    var tail := if slept then SleepActions(cause.Ext1?) else [Abort];
    ApplyRailActionsAppend(file, wake + uplink, tail);
    ApplyRailActionsAppend(file, wake, uplink);
    NoRailActions(booted, uplink);
    var mid: seq<Action> := if cause.Ext1? then [AwaitDisplay] else [];
    assert SleepActions(cause.Ext1?) == [RadioShutdown, SetRail(LDO3, false), LedOff] + mid
                                  + [ArmTimer(TIMER_WAKE_US), ArmExt1(BUTTON_WAKE_MASK, AllLow), DeepSleep];
    assert SetRail(LDO2, false) !in tail && SetRail(DCDC1, false) !in tail;
    assert SetRail(LDO2, false) !in wake && SetRail(DCDC1, false) !in wake;
    if slept {
      SleepActionsSwitchOnlyLdo3(booted, cause.Ext1?);
    } else {
      NoRailActions(booted, [Abort]);
    }
  }

  /** The register file a cycle leaves is what its rail switches, applied in order, make
      of the one it found; LDO2 and DCDC1 are never switched off, and a cycle that sleeps
      has switched LDO3 off last. */
  lemma RegistersFollowRailActions(w: Wake, st: RetainedState, file: RegisterFile)
    ensures var c := RunCycle(w, st, file);
      && c.registers == ApplyRailActions(file, c.actions)
      && SetRail(LDO2, false) !in c.actions && SetRail(DCDC1, false) !in c.actions
      && (c.slept ==> c.registers == SwitchRail(ApplyRailActions(file, WakeActions(w.cause)), LDO3, false).1)
  {
    var c := RunCycle(w, st, file);
    CycleShape(w, st, file);
    RailsOfShape(file, w.cause, CycleUplink(w, st, file), c.slept, c.actions);
    if c.slept {
      SleepActionsSwitchOnlyLdo3(ApplyRailActions(file, WakeActions(w.cause)), w.cause.Ext1?);
    }
  }

  /** After a reset, the bootstrap turns DCDC1, DCDC3, LDO2 and LDO3 on and DCDC2 off and
      leaves bits 7-5 and every other register as they were; if the control register
      cannot be read or written, nothing changes. */
  lemma BootstrapEffect(file: RegisterFile)
    ensures var after := ApplyRailActions(file, BootstrapActions);
      && after.writeFaults == file.writeFaults
      && if DCDC13_LDO23_CONTROL in file.regs && DCDC13_LDO23_CONTROL !in file.writeFaults
         then after.regs == file.regs[DCDC13_LDO23_CONTROL := (file.regs[DCDC13_LDO23_CONTROL] & 0xE0) | 0x0F]
         else after == file
  {
    var control := DCDC13_LDO23_CONTROL;
    var f1 := SwitchRail(file, DCDC1, true).1;
    var f2 := SwitchRail(f1, DCDC2, false).1;
    var f3 := SwitchRail(f2, DCDC3, true).1;
    var f4 := SwitchRail(f3, LDO2, true).1;
    var f5 := SwitchRail(f4, LDO3, true).1;
    calc {
      ApplyRailActions(file, BootstrapActions);
      ApplyRailActions(f1, BootstrapActions[1..]);
      ApplyRailActions(f2, BootstrapActions[2..]);
      ApplyRailActions(f3, BootstrapActions[3..]);
      ApplyRailActions(f4, BootstrapActions[4..]);
      ApplyRailActions(f5, BootstrapActions[5..]);
      f5;
    }
    if control in file.regs && control !in file.writeFaults {
      var v := file.regs[control];
      assert f5.regs == file.regs[control := Switched(Switched(Switched(Switched(Switched(
        v, DCDC1, true), DCDC2, false), DCDC3, true), LDO2, true), LDO3, true)];
    }
  }

  /** The first cycle after a power-on reset always has something to report, since no
      sample is ever Unknown. */
  lemma FirstCycleAfterColdBootReports(w: Wake)
    ensures CycleEvent(w, ColdBoot) == if w.level == 1 then Event.Sprung else Event.Set
  {
  }

  /** RTC memory after a run of cycles, each starting from what the last one left. */
  function RunFrom(st: RetainedState, ws: seq<Wake>): RetainedState
    decreases |ws|
  {
    if ws == [] then st else RunFrom(NextRetained(ws[0], st), ws[1..])
  }

  /** Each wake comes at most `d` seconds after the one before (the first after time
      `last`), and in every one the radio peripherals come up. The timer is armed for
      SLEEP_INTERVAL seconds only at the end of a cycle, so `d` is SLEEP_INTERVAL plus
      the longest cycle, as the clock counts it. */
  predicate Paced(d: int, last: int, ws: seq<Wake>)
    decreases |ws|
  {
    ws == [] || (ws[0].radioReady && ws[0].now - last <= d && Paced(d, ws[0].now, ws[1..]))
  }

  /** After every wake the last uplink is at most HEARTBEAT_INTERVAL - SLEEP_INTERVAL
      seconds old, since an older one triggers a heartbeat. So when wakes come at most
      `d` seconds apart, no wake finds the last uplink more than
      HEARTBEAT_INTERVAL - SLEEP_INTERVAL + d seconds old, provided the run starts with an
      uplink at most HEARTBEAT_INTERVAL - SLEEP_INTERVAL seconds before time `last`. With
      d == SLEEP_INTERVAL that is HEARTBEAT_INTERVAL. */
  lemma {:induction false} UplinkGapBounded(d: int, st: RetainedState, last: int, ws: seq<Wake>)
    requires last - st.previousMessageTime <= HEARTBEAT_INTERVAL - SLEEP_INTERVAL
    requires Paced(d, last, ws)
    ensures forall i | 0 <= i < |ws| ::
      ws[i].now - RunFrom(st, ws[..i]).previousMessageTime <= HEARTBEAT_INTERVAL - SLEEP_INTERVAL + d
    ensures |ws| > 0 ==>
      ws[|ws| - 1].now - RunFrom(st, ws).previousMessageTime <= HEARTBEAT_INTERVAL - SLEEP_INTERVAL
    decreases |ws|
  {
    if ws != [] {
      var next := NextRetained(ws[0], st);
      assert ws[0].now - next.previousMessageTime <= HEARTBEAT_INTERVAL - SLEEP_INTERVAL;
      UplinkGapBounded(d, next, ws[0].now, ws[1..]);
      assert RunFrom(st, ws) == RunFrom(next, ws[1..]);
      forall i | 0 <= i < |ws|
        ensures ws[i].now - RunFrom(st, ws[..i]).previousMessageTime <= HEARTBEAT_INTERVAL - SLEEP_INTERVAL + d
      {
        if i == 0 {
          assert ws[..0] == [];
        } else {
          assert ws[..i][1..] == ws[1..][..i - 1];
          assert RunFrom(st, ws[..i]) == RunFrom(next, ws[1..][..i - 1]);
          assert ws[i] == ws[1..][i - 1];
        }
      }
    }
  }

  /** From a power-on reset, the first cycle sends, and from then on, with wakes at most
      `d` seconds apart and the radio working, no wake finds the last uplink more than
      HEARTBEAT_INTERVAL - SLEEP_INTERVAL + d seconds old. */
  lemma ColdBootUplinkGapBounded(d: int, ws: seq<Wake>)
    requires |ws| > 0 && ws[0].radioReady && Paced(d, ws[0].now, ws[1..])
    ensures RunFrom(ColdBoot, ws[..1]).previousMessageTime == ws[0].now
    ensures forall i | 1 <= i < |ws| ::
      ws[i].now - RunFrom(ColdBoot, ws[..i]).previousMessageTime <= HEARTBEAT_INTERVAL - SLEEP_INTERVAL + d
  {
    var first := NextRetained(ws[0], ColdBoot);
    assert first.previousMessageTime == ws[0].now by {
      FirstCycleAfterColdBootReports(ws[0]);
    }
    assert ws[..1][1..] == [];
    UplinkGapBounded(d, first, ws[0].now, ws[1..]);
    forall i | 1 <= i < |ws|
      ensures ws[i].now - RunFrom(ColdBoot, ws[..i]).previousMessageTime <= HEARTBEAT_INTERVAL - SLEEP_INTERVAL + d
    {
      assert ws[..i][1..] == ws[1..][..i - 1];
      assert RunFrom(ColdBoot, ws[..i]) == RunFrom(first, ws[1..][..i - 1]);
      assert ws[i] == ws[1..][i - 1];
    }
  }

  /** The bound is exceeded as soon as one gap is longer than SLEEP_INTERVAL: after an
      uplink at time 0 and a quiet wake at 590, a wake at 601 finds the uplink 601
      seconds old, and only that wake sends the heartbeat. */
  lemma LateWakeExceedsHeartbeat(w1: Wake, w2: Wake)
    requires w1.level == 0 && w1.now == 590 && w1.radioReady
    requires w2.level == 0 && w2.now == 601 && w2.radioReady
    ensures var st := RetainedState(Status.Set, 0);
      && RunFrom(st, [w1]).previousMessageTime == 0
      && w2.now - RunFrom(st, [w1]).previousMessageTime == 601 > HEARTBEAT_INTERVAL
      && CycleEvent(w2, RunFrom(st, [w1])).Heartbeat?
  {
    var st := RetainedState(Status.Set, 0);
    assert RunFrom(st, [w1]) == RunFrom(NextRetained(w1, st), []);
  }
}
