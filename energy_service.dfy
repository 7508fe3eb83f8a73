/** The camp energy simulator: photovoltaic production, device and A/C load, an
    800 Wh battery, and automatic saving actions that switch off the A/C and the
    charger and dim the lamp through the lighting service. */
module Energy {
  import opened Common
  import opened EnergyModels
  import opened LightingModels
  import opened Lighting

  /** The battery capacity in watt-hours. */
  const CapacityWh: real := 800.0

  /** What a step reads from outside: the time of day in hours, the two sine
      values (Math.Sin of the daylight angle and of hours * 0.2) and the random
      draw of Random.NextDouble. */
  datatype Ambient = Ambient(hours: real, sunSine: real, weatherSine: real, noise: real)

  // ------------------------------------------------------------ readings

  /** Photovoltaic power: 220 W scaled by the clamped daylight and weather factors, rounded. */
  function Pv(amb: Ambient): (pv: int)
    ensures 0 <= pv <= 220
  {
    var dayFactor := ClampReal(amb.sunSine, 0.0, 1.0);
    var weather := 0.75 + 0.25 * amb.weatherSine + (amb.noise - 0.5) * 0.05;
    var x := Scaled(Scaled(220.0, dayFactor), ClampReal(weather, 0.6, 1.0));
    RoundHalfEvenWithin(x, 0, 220);
    RoundHalfEven(x)
  }

  /** The rated power of the devices that are on. */
  function DevicesLoad(ds: seq<Device>): int
  {
    if ds == [] then 0 else (if ds[0].isOn then ds[0].powerW else 0) + DevicesLoad(ds[1..])
  }

  /** The A/C's nominal power per mode. */
  function AcRated(mode: AcMode): int
  {
    match mode
    case Cool => 320
    case Heat => 350
    case Fan => 60
    case Off => 0
  }

  /** The A/C's share of the load: nominal power times duty (1 for Fan, 0.4 otherwise),
      truncated; nothing when the A/C is off. */
  function AcLoad(acOn: bool, mode: AcMode): (w: int)
    ensures !acOn ==> w == 0
    ensures acOn ==> w == (match mode case Cool => 128 case Heat => 140 case Fan => 60 case Off => 0)
  {
    if !acOn then 0
    else Trunc(AcRated(mode) as real * (if mode == Fan then 1.0 else 0.4))
  }

  /** The total load of a state. */
  function Load(v: EnergyView): int
  {
    DevicesLoad(v.devices) + AcLoad(v.acOn, v.acMode)
  }

  /** The stored energy after `seconds` at net power `net`, clamped to the capacity. */
  function NextWh(wh: real, net: int, seconds: real): (r: real)
    ensures 0.0 <= r <= CapacityWh
    ensures seconds == 0.0 && 0.0 <= wh <= CapacityWh ==> r == wh
  {
    ClampReal(wh + net as real * (seconds / 3600.0), 0.0, CapacityWh)
  }

  /** (int)Math.Round(wh / 800 * 100) */
  function Percent(wh: real): (p: int)
    requires 0.0 <= wh <= CapacityWh
    ensures 0 <= p <= 100
  {
    RoundHalfEvenWithin(wh / CapacityWh * 100.0, 0, 100);
    RoundHalfEven(wh / CapacityWh * 100.0)
  }

  /** Hours of autonomy: stored energy over the deficit, to one decimal, or infinity
      when there is no deficit. */
  function EstHours(wh: real, net: int): (r: Hours)
    requires 0.0 <= wh
    ensures net < 0 ==> r.Finite? && r.hours >= 0.0
    ensures net >= 0 ==> r == Infinity
  {
    if net < 0 then Finite(Round1(wh / (-net) as real)) else Infinity
  }

  /** The state of the simulator: the published view and the stored energy. */
  datatype Meter = Meter(view: EnergyView, wh: real)

  /** The measuring half of a step: production, load, net power, battery and estimate. */
  function Measure(m: Meter, seconds: real, amb: Ambient): Meter
    requires 0.0 <= m.wh <= CapacityWh
  {
    var pv := Pv(amb);
    var load := Load(m.view);
    var net := pv - load;
    var wh := NextWh(m.wh, net, seconds);
    Meter(m.view.(batteryPercent := Percent(wh), estHours := EstHours(wh, net),
                  pvPowerW := pv, loadPowerW := load, netPowerW := net), wh)
  }

  // ------------------------------------------------------ saving actions

  /** The first device whose name contains "Φορτιστής". */
  function FindCharger(ds: seq<Device>): (r: Option<nat>)
    ensures r.None? <==> forall i :: 0 <= i < |ds| ==> !Contains(ds[i].name, ChargerName)
    ensures r.Some? ==> r.value < |ds| && Contains(ds[r.value].name, ChargerName)
    ensures r.Some? ==> forall i :: 0 <= i < r.value ==> !Contains(ds[i].name, ChargerName)
  {
    if ds == [] then None
    else if Contains(ds[0].name, ChargerName) then Some(0)
    else match FindCharger(ds[1..])
      case None => None
      case Some(k) => Some(k + 1)
  }

  /** The first device with exactly this name. */
  function FindDevice(ds: seq<Device>, name: string): (r: Option<nat>)
    ensures r.None? <==> forall i :: 0 <= i < |ds| ==> ds[i].name != name
    ensures r.Some? ==> r.value < |ds| && ds[r.value].name == name
    ensures r.Some? ==> forall i :: 0 <= i < r.value ==> ds[i].name != name
  {
    if ds == [] then None
    else if ds[0].name == name then Some(0)
    else match FindDevice(ds[1..], name)
      case None => None
      case Some(k) => Some(k + 1)
  }

  /** The A/C is off when it was switched off with SetAc or by the saving actions. */
  predicate AcConsistent(v: EnergyView)
  {
    !v.acOn ==> v.acMode == Off
  }

  /** Step 1 of the saving actions: an A/C that is on is switched off with mode Off. */
  function AcSaving(v: EnergyView): EnergyView
  {
    if v.acOn then v.(acOn := false, acMode := Off) else v
  }

  /** Whether step 3 finds a charger that is on. */
  predicate ChargerActs(v: EnergyView)
  {
    FindCharger(v.devices).Some? && v.devices[FindCharger(v.devices).value].isOn
  }

  /** Step 3 of the saving actions: the first charger, if on, is switched off. */
  function ChargerSaving(v: EnergyView): EnergyView
  {
    if ChargerActs(v) then
      var k := FindCharger(v.devices).value;
      v.(devices := v.devices[k := v.devices[k].(isOn := false)])
    else v
  }

  /** The actions taken, in order; `dimLights` says whether the lamp was dimmed. */
  function ActionsTaken(v: EnergyView, dimLights: bool): seq<SavingAction>
  {
    (if v.acOn then [AcOff] else []) + (if dimLights then [LightingDimmed] else [])
    + (if ChargerActs(AcSaving(v)) then [ChargerOff] else [])
  }

  /** ApplyAutoSavingActions on the energy state: LastAction is set only when some
      action was taken. */
  function SavingActions(v: EnergyView, dimLights: bool): EnergyView
  {
    var r := ChargerSaving(AcSaving(v));
    var actions := ActionsTaken(v, dimLights);
    if actions == [] then r else r.(lastAction := Some(actions))
  }

  /** After the saving actions the A/C is off with mode Off, the first charger is
      off, only that device may change, readings and settings are kept, and
      LastAction is overwritten exactly when some action was taken. */
  lemma SavingActionsEffect(v: EnergyView, dimLights: bool)
    requires AcConsistent(v)
    ensures var r := SavingActions(v, dimLights);
      && !r.acOn && r.acMode == Off
      && |r.devices| == |v.devices|
      && (FindCharger(v.devices).Some? ==> !r.devices[FindCharger(v.devices).value].isOn)
      && (forall i :: 0 <= i < |v.devices| && Some(i) != FindCharger(v.devices) ==> r.devices[i] == v.devices[i])
      && r.batteryPercent == v.batteryPercent && r.pvPowerW == v.pvPowerW && r.loadPowerW == v.loadPowerW
      && r.netPowerW == v.netPowerW && r.estHours == v.estHours && r.autoSave == v.autoSave
      && r.acSetpointC == v.acSetpointC
    ensures var tookAction := v.acOn || dimLights
                           || (FindCharger(v.devices).Some? && v.devices[FindCharger(v.devices).value].isOn);
      && (tookAction ==> SavingActions(v, dimLights).lastAction.Some?)
      && (!tookAction ==> SavingActions(v, dimLights) == v)
  {
  }

  /** The lamp state the saving actions hand to LightingService.Apply. */
  function Dimmed(l: LightingView): (r: LightingView)
    ensures r.isOn && r.brightness <= 35 && r.effect == NightLight && r.color == NightColor
    ensures r.autoNight == l.autoNight
  {
    l.(isOn := true, brightness := MinInt(l.brightness, 35), effect := NightLight, color := NightColor)
  }

  /** The night override of Apply never alters a dimmed state, whatever the time. */
  lemma DimmedIsApplied(l: LightingView, timeOfDay: real)
    ensures AfterApply(Dimmed(l), timeOfDay) == Dimmed(l)
  {
  }

  /** Whether the saving actions run after measuring. */
  predicate RunsSaving(v: EnergyView)
  {
    v.autoSave && v.batteryPercent <= 20
  }

  /** One step as a value. `lamp` is None without a lighting service, otherwise
      whether the lamp is on. */
  function StepSpec(m: Meter, seconds: real, amb: Ambient, lamp: Option<bool>): Meter
    requires 0.0 <= m.wh <= CapacityWh
  {
    var r := Measure(m, seconds, amb);
    if RunsSaving(r.view) then r.(view := SavingActions(r.view, lamp == Some(true))) else r
  }

  /** Whether a step dims the lamp. */
  predicate StepDims(m: Meter, seconds: real, amb: Ambient, lamp: Option<bool>)
    requires 0.0 <= m.wh <= CapacityWh
  {
    RunsSaving(Measure(m, seconds, amb).view) && lamp == Some(true)
  }

  /** After every step the net power is production minus load, the load is the
      devices that are on plus the A/C share, the battery stays within [0, 800] Wh
      and its percentage is the rounded share of the capacity. */
  lemma StepReadings(m: Meter, seconds: real, amb: Ambient, lamp: Option<bool>)
    requires 0.0 <= m.wh <= CapacityWh
    ensures var r := StepSpec(m, seconds, amb, lamp);
      && r.view.netPowerW == r.view.pvPowerW - r.view.loadPowerW
      && r.view.loadPowerW == DevicesLoad(m.view.devices) + AcLoad(m.view.acOn, m.view.acMode)
      && 0 <= r.view.pvPowerW <= 220
      && 0.0 <= r.wh <= CapacityWh
      && r.view.batteryPercent == Percent(r.wh) && 0 <= r.view.batteryPercent <= 100
      && (r.view.netPowerW < 0 ==> r.view.estHours.Finite? && r.view.estHours.hours >= 0.0)
      && (r.view.netPowerW >= 0 ==> r.view.estHours == Infinity)
  {
  }

  /** A zero-second step, as every command makes, leaves the stored energy as it was. */
  lemma CommandKeepsEnergy(m: Meter, amb: Ambient, lamp: Option<bool>)
    requires 0.0 <= m.wh <= CapacityWh
    ensures StepSpec(m, 0.0, amb, lamp).wh == m.wh
    ensures StepSpec(m, 0.0, amb, lamp).view.batteryPercent == Percent(m.wh)
  {
  }

  /** The saving actions run exactly when AutoSave is on and the battery is at 20 % or
      less; otherwise A/C, devices and LastAction are left as they were. */
  lemma StepSavesIff(m: Meter, seconds: real, amb: Ambient, lamp: Option<bool>)
    requires 0.0 <= m.wh <= CapacityWh && AcConsistent(m.view)
    ensures var r := StepSpec(m, seconds, amb, lamp);
      RunsSaving(Measure(m, seconds, amb).view) ==>
        && !r.view.acOn && r.view.acMode == Off
        && (FindCharger(m.view.devices).Some? ==> !r.view.devices[FindCharger(m.view.devices).value].isOn)
    ensures var r := StepSpec(m, seconds, amb, lamp);
      !RunsSaving(Measure(m, seconds, amb).view) ==>
        && r.view.acOn == m.view.acOn && r.view.acMode == m.view.acMode
        && r.view.devices == m.view.devices && r.view.lastAction == m.view.lastAction
  {
    SavingActionsEffect(Measure(m, seconds, amb).view, lamp == Some(true));
  }

  /** Switching device k changes the device load by exactly its rated power. */
  lemma {:induction false} DevicesLoadSwitch(ds: seq<Device>, k: nat, on: bool)
    requires k < |ds|
    ensures DevicesLoad(ds[k := ds[k].(isOn := on)])
         == DevicesLoad(ds) - (if ds[k].isOn then ds[k].powerW else 0) + (if on then ds[k].powerW else 0)
  {
    if k > 0 {
      assert ds[k := ds[k].(isOn := on)][1..] == ds[1..][k - 1 := ds[k].(isOn := on)];
      DevicesLoadSwitch(ds[1..], k - 1, on);
    }
  }

  /** The starting devices draw 60 W: only the fridge is on. */
  lemma DefaultLoad()
    ensures DevicesLoad(DefaultDevices()) == 60
  {
    var ds := DefaultDevices();
    assert DevicesLoad(ds[2..]) == 0;
  }

  /** The charger is the third starting device. */
  lemma DefaultCharger()
    ensures FindCharger(DefaultDevices()) == Some(2)
  {
    var ds := DefaultDevices();
    assert !Contains(ds[0].name, ChargerName) by { NotContainsFirstChar(FridgeName, ChargerName); }
    assert !Contains(ds[1].name, ChargerName) by { NotContainsFirstChar(PumpName, ChargerName); }
    assert Contains(ds[2].name, ChargerName) by { assert ChargerName <= ChargerName; }
  }

  /** The battery starts at 624 Wh, which is 78 %. */
  lemma DefaultPercent()
    ensures Percent(CapacityWh * 78.0 / 100.0) == 78
  {
    assert CapacityWh * 78.0 / 100.0 / CapacityWh * 100.0 == 78.0;
    assert (78.0).Floor == 78;
  }

  // ------------------------------------------------------------- service

  class EnergyService {
    var state: EnergyState
    var batteryWh: real
    const lighting: LightingService?
    /** Every snapshot StateChanged has been raised with, oldest first. */
    ghost var published: seq<EnergyView>

    ghost predicate Valid()
      reads this, state, lighting
    {
      && 0.0 <= batteryWh <= CapacityWh
      && state.batteryPercent == Percent(batteryWh)
      && AcConsistent(state.View())
      && (lighting != null ==> lighting.Valid())
    }

    ghost function Current(): Meter
      reads this, state
    {
      Meter(state.View(), batteryWh)
    }

    /** None without a lighting service, otherwise whether the lamp is on. */
    ghost function Lamp(): Option<bool>
      reads this, lighting, if lighting == null then {} else {lighting.state}
    {
      if lighting == null then None else Some(lighting.state.isOn)
    }

    /** The default state with 800 * 78 / 100 = 624 Wh stored. */
    constructor (lighting: LightingService?)
      requires lighting != null ==> lighting.Valid()
      ensures Valid() && fresh(state) && this.lighting == lighting
      ensures state.View() == DefaultView() && batteryWh == 624.0 && published == []
    {
      this.lighting := lighting;
      state := new EnergyState();
      batteryWh := CapacityWh * 78.0 / 100.0;
      published := [];
      new;
      assert Percent(batteryWh) == 78;
    }

    /** One simulation step of `seconds`; Recompute is Step(0). */
    method Step(seconds: real, amb: Ambient)
      requires Valid()
      modifies this, state, lighting
      ensures Valid() && state == old(state)
      ensures Current() == StepSpec(old(Current()), seconds, amb, old(Lamp()))
      ensures published == old(published) + [state.View()]
      ensures lighting != null && StepDims(old(Current()), seconds, amb, old(Lamp())) ==>
        lighting.View() == Dimmed(old(lighting.View())) && lighting.published == old(lighting.published) + [lighting.View()]
      ensures lighting != null && !StepDims(old(Current()), seconds, amb, old(Lamp())) ==>
        lighting.View() == old(lighting.View()) && lighting.published == old(lighting.published)
    {
      ghost var m0 := Current();
      ghost var lamp := Lamp();
      MeasureStep(seconds, amb);
      ghost var r := Current();
      assert r == Measure(m0, seconds, amb);
      assert lamp == Some(true) <==> lighting != null && lighting.state.isOn;
      if state.autoSave && state.batteryPercent <= 20 {
        ApplyAutoSavingActions(false, amb.hours);
        assert Current() == r.(view := SavingActions(r.view, lamp == Some(true)));
      }
      assert Current() == StepSpec(m0, seconds, amb, lamp);
      published := published + [state.View()];
    }

    /** The measuring half of Step. */
    method MeasureStep(seconds: real, amb: Ambient)
      requires Valid()
      modifies this, state
      ensures Valid() && state == old(state) && published == old(published)
      ensures Current() == Measure(old(Current()), seconds, amb)
    {
      var pv := Pv(amb);
      var load := DevicesLoad(state.devices);
      if state.acOn {
        load := load + AcLoad(true, state.acMode);
      }
      var net := pv - load;
      batteryWh := NextWh(batteryWh, net, seconds);
      state.SetReadings(Percent(batteryWh), EstHours(batteryWh, net), pv, load, net);
    }

    /** Switches the A/C off, dims the lamp (if there is a lighting service and the
        lamp is on, or `force`), switches the first charger off, and records what
        was done. */
    method ApplyAutoSavingActions(force: bool, hours: real)
      requires lighting != null ==> lighting.Valid()
      modifies state, lighting
      ensures state.View() == SavingActions(old(state.View()), lighting != null && (old(lighting.state.isOn) || force))
      ensures lighting != null && (old(lighting.state.isOn) || force) ==>
        lighting.Valid() && lighting.View() == Dimmed(old(lighting.View()))
        && lighting.published == old(lighting.published) + [lighting.View()]
      ensures lighting != null && !(old(lighting.state.isOn) || force) ==>
        lighting.Valid() && lighting.View() == old(lighting.View()) && lighting.published == old(lighting.published)
    {
      ghost var v0 := state.View();
      var acted := SwitchOffAc();
      var actions: seq<SavingAction> := if acted then [AcOff] else [];
      var dimmed := DimIfNeeded(force, hours);
      if dimmed {
        actions := actions + [LightingDimmed];
      }
      ghost var lv := if lighting == null then None else Some((lighting.View(), lighting.published));
      var chargerOff := SwitchOffCharger();
      assert lv == if lighting == null then None else Some((lighting.View(), lighting.published));
      if chargerOff {
        actions := actions + [ChargerOff];
      }
      assert actions == ActionsTaken(v0, dimmed);
      if actions != [] {
        state.lastAction := Some(actions);
      }
    }

    /** Step 1 of the saving actions. */
    method SwitchOffAc() returns (acted: bool)
      modifies state
      ensures state.View() == AcSaving(old(state.View()))
      ensures acted == old(state.acOn)
    {
      acted := state.acOn;
      if acted {
        state.acOn := false;
        state.acMode := Off;
      }
    }

    /** Step 2 of the saving actions: with a lighting service, the lamp is dimmed
        when it is on or when `force` is set. */
    method DimIfNeeded(force: bool, hours: real) returns (dimmed: bool)
      requires lighting != null ==> lighting.Valid()
      modifies lighting
      ensures dimmed == (lighting != null && (old(lighting.state.isOn) || force))
      ensures dimmed ==>
        && lighting.Valid() && lighting.View() == Dimmed(old(lighting.View()))
        && lighting.published == old(lighting.published) + [lighting.View()]
      ensures lighting != null && !dimmed ==>
        lighting.Valid() && lighting.View() == old(lighting.View()) && lighting.published == old(lighting.published)
    {
      dimmed := lighting != null && (lighting.state.isOn || force);
      if dimmed {
        DimLamp(hours);
      }
    }

    /** Step 3 of the saving actions. */
    method SwitchOffCharger() returns (acted: bool)
      modifies state
      ensures state.View() == ChargerSaving(old(state.View()))
      ensures acted == ChargerActs(old(state.View()))
    {
      var k := 0;
      while k < |state.devices| && !Contains(state.devices[k].name, ChargerName)
        invariant 0 <= k <= |state.devices|
        invariant forall i :: 0 <= i < k ==> !Contains(state.devices[i].name, ChargerName)
      {
        k := k + 1;
      }
      acted := k < |state.devices| && state.devices[k].isOn;
      if acted {
        assert FindCharger(state.devices) == Some(k);
        state.devices := state.devices[k := state.devices[k].(isOn := false)];
      }
    }

    /** The lighting branch: a dimmed copy of the lamp state is applied. */
    method DimLamp(hours: real)
      requires lighting != null && lighting.Valid()
      modifies lighting
      ensures lighting.Valid() && lighting.View() == Dimmed(old(lighting.View()))
      ensures lighting.published == old(lighting.published) + [lighting.View()]
    {
      var st := lighting.state.Clone();
      st.isOn := true;
      st.brightness := MinInt(st.brightness, 35);
      st.effect := NightLight;
      st.color := NightColor;
      var res := lighting.Apply(st, hours);
      DimmedIsApplied(old(lighting.View()), hours);
    }

    /** Switches the first device with that name; an unknown name changes nothing
        and publishes nothing. */
    method ToggleDevice(name: string, on: bool, amb: Ambient)
      requires Valid()
      modifies this, state, lighting
      ensures Valid() && state == old(state)
      ensures FindDevice(old(state.devices), name).None? ==>
        Current() == old(Current()) && published == old(published)
        && (lighting != null ==> unchanged(lighting))
      ensures FindDevice(old(state.devices), name).Some? ==>
        var k := FindDevice(old(state.devices), name).value;
        Current() == StepSpec(old(Current()).(view := old(state.View()).(devices := old(state.devices)[k := old(state.devices)[k].(isOn := on)])),
                            0.0, amb, old(Lamp()))
        && published == old(published) + [state.View()]
    {
      var k := IndexOfDevice(name);
      if k == |state.devices| {
        return;
      }
      SwitchDevice(k, on);
      ghost var m := Current();
      ghost var lamp := Lamp();
      assert m == old(Current()).(view := old(state.View()).(devices := old(state.devices)[k := old(state.devices)[k].(isOn := on)]));
      assert lamp == old(Lamp());
      Step(0.0, amb);
      assert Current() == StepSpec(m, 0.0, amb, lamp);
    }

    /** Devices.FirstOrDefault(x => x.Name == name), as an index; the length when absent. */
    method IndexOfDevice(name: string) returns (k: nat)
      ensures FindDevice(state.devices, name).None? ==> k == |state.devices|
      ensures FindDevice(state.devices, name).Some? ==> k == FindDevice(state.devices, name).value
    {
      k := 0;
      while k < |state.devices| && state.devices[k].name != name
        invariant 0 <= k <= |state.devices|
        invariant forall i :: 0 <= i < k ==> state.devices[i].name != name
      {
        k := k + 1;
      }
      if k < |state.devices| {
        assert FindDevice(state.devices, name) == Some(k);
      }
    }

    /** d.IsOn = on for the device at index k. */
    method SwitchDevice(k: nat, on: bool)
      requires Valid() && k < |state.devices|
      modifies state
      ensures Valid()
      ensures state.View() == old(state.View()).(devices := old(state.devices)[k := old(state.devices)[k].(isOn := on)])
    {
      state.devices := state.devices[k := state.devices[k].(isOn := on)];
    }

    method SetAutoSave(enabled: bool, amb: Ambient)
      requires Valid()
      modifies this, state, lighting
      ensures Valid() && state == old(state)
      ensures Current() == StepSpec(old(Current()).(view := old(state.View()).(autoSave := enabled)), 0.0, amb, old(Lamp()))
      ensures published == old(published) + [state.View()]
    {
      state.autoSave := enabled;
      ghost var m := Current();
      ghost var lamp := Lamp();
      assert m == old(Current()).(view := old(state.View()).(autoSave := enabled));
      assert lamp == old(Lamp());
      Step(0.0, amb);
      assert Current() == StepSpec(m, 0.0, amb, lamp);
    }

    /** Sets the A/C; switching it off stores mode Off whatever mode is passed. */
    method SetAc(on: bool, mode: AcMode, setpointC: int, amb: Ambient)
      requires Valid()
      modifies this, state, lighting
      ensures Valid() && state == old(state)
      ensures Current() == StepSpec(old(Current()).(view := old(state.View()).(acOn := on, acMode := if on then mode else Off,
                                                                          acSetpointC := setpointC)), 0.0, amb, old(Lamp()))
      ensures published == old(published) + [state.View()]
    {
      state.acOn := on;
      state.acMode := if on then mode else Off;
      state.acSetpointC := setpointC;
      ghost var m := Current();
      ghost var lamp := Lamp();
      assert m == old(Current()).(view := old(state.View()).(acOn := on, acMode := if on then mode else Off,
                                                           acSetpointC := setpointC));
      assert lamp == old(Lamp());
      Step(0.0, amb);
      assert Current() == StepSpec(m, 0.0, amb, lamp);
    }

    /** The saving actions forced now (the lamp is dimmed even when off), then a
        zero-second step. */
    method ApplySavingNow(amb: Ambient)
      requires Valid()
      modifies this, state, lighting
      ensures Valid() && state == old(state)
      ensures Current() == StepSpec(old(Current()).(view := SavingActions(old(state.View()), lighting != null)),
                                  0.0, amb, if lighting == null then None else Some(true))
      ensures published == old(published) + [state.View()]
    {
      ApplyAutoSavingActions(true, amb.hours);
      ghost var m := Current();
      ghost var lamp := Lamp();
      assert m == old(Current()).(view := SavingActions(old(state.View()), lighting != null));
      assert lamp == if lighting == null then None else Some(true);
      Step(0.0, amb);
      assert Current() == StepSpec(m, 0.0, amb, lamp);
    }
  }
}
