/** The energy data model: devices, the A/C mode and the published energy state. */
module EnergyModels {
  import opened Common

  datatype AcMode = Off | Cool | Heat | Fan

  /** A consumer with its rated power in watts. */
  datatype Device = Device(name: string, powerW: int, isOn: bool)

  /** EstHoursRemaining: a finite number of hours or double.PositiveInfinity. */
  datatype Hours = Finite(hours: real) | Infinity

  /** The saving actions LastAction reports, in the order they are taken. */
  datatype SavingAction = AcOff | LightingDimmed | ChargerOff

  const FridgeName: string := "Ψυγείο"
  const PumpName: string := "Αντλία Νερού"
  const ChargerName: string := "Φορτιστής"

  /** The devices a new state starts with: fridge 60 W on, pump 40 W off, charger 20 W off. */
  function DefaultDevices(): (r: seq<Device>)
    ensures |r| == 3
    ensures r[0] == Device(FridgeName, 60, true)
    ensures r[1] == Device(PumpName, 40, false)
    ensures r[2] == Device(ChargerName, 20, false)
  {
    [Device(FridgeName, 60, true), Device(PumpName, 40, false), Device(ChargerName, 20, false)]
  }

  /** The value form of an energy state. */
  datatype EnergyView = EnergyView(
    batteryPercent: int,
    pvPowerW: int,
    loadPowerW: int,
    netPowerW: int,
    estHours: Hours,
    autoSave: bool,
    acOn: bool,
    acMode: AcMode,
    acSetpointC: int,
    lastAction: Option<seq<SavingAction>>,
    devices: seq<Device>)

  /** A new state: 78 %, no power readings yet, automatic saving on, A/C off with
      mode Off at 24 degrees, no last action, the three default devices. */
  function DefaultView(): EnergyView
  {
    EnergyView(78, 0, 0, 0, Finite(0.0), true, false, Off, 24, None, DefaultDevices())
  }

  /** The energy state the service updates in place. Devices are held as values. */
  class EnergyState {
    var batteryPercent: int
    var pvPowerW: int
    var loadPowerW: int
    var netPowerW: int
    var estHours: Hours
    var autoSave: bool
    var acOn: bool
    var acMode: AcMode
    var acSetpointC: int
    var lastAction: Option<seq<SavingAction>>
    var devices: seq<Device>

    ghost function View(): EnergyView
      reads this
    {
      EnergyView(batteryPercent, pvPowerW, loadPowerW, netPowerW, estHours, autoSave,
                 acOn, acMode, acSetpointC, lastAction, devices)
    }

    constructor ()
      ensures View() == DefaultView()
    {
      batteryPercent := 78;
      pvPowerW := 0;
      loadPowerW := 0;
      netPowerW := 0;
      estHours := Finite(0.0);
      autoSave := true;
      acOn := false;
      acMode := Off;
      acSetpointC := 24;
      lastAction := None;
      devices := DefaultDevices();
    }

    /** A state object holding the given values. */
    constructor FromView(v: EnergyView)
      ensures View() == v
    {
      batteryPercent := v.batteryPercent;
      pvPowerW := v.pvPowerW;
      loadPowerW := v.loadPowerW;
      netPowerW := v.netPowerW;
      estHours := v.estHours;
      autoSave := v.autoSave;
      acOn := v.acOn;
      acMode := v.acMode;
      acSetpointC := v.acSetpointC;
      lastAction := v.lastAction;
      devices := v.devices;
    }

    /** The readings a simulation step writes. */
    method SetReadings(percent: int, est: Hours, pv: int, load: int, net: int)
      modifies this
      ensures View() == old(View()).(batteryPercent := percent, estHours := est,
                                     pvPowerW := pv, loadPowerW := load, netPowerW := net)
    {
      batteryPercent := percent;
      estHours := est;
      pvPowerW := pv;
      loadPowerW := load;
      netPowerW := net;
    }

    /** A new state object with every field copied; the device list is a copy of
        the devices, in order. */
    method Clone() returns (c: EnergyState)
      ensures fresh(c)
      ensures c.View() == View()
    {
      var copied := CopyDevices(devices);
      assert copied == devices;
      c := new EnergyState.FromView(EnergyView(batteryPercent, pvPowerW, loadPowerW, netPowerW, estHours,
                                               autoSave, acOn, acMode, acSetpointC, lastAction, copied));
    }
  }

  /** Devices.ConvertAll(d => new EnergyDevice { Name, PowerW, IsOn }): element by
      element, the same devices in the same order. */
  function CopyDevices(ds: seq<Device>): (r: seq<Device>)
    ensures |r| == |ds|
    ensures forall i :: 0 <= i < |ds| ==>
      r[i].name == ds[i].name && r[i].powerW == ds[i].powerW && r[i].isOn == ds[i].isOn
  {
    if ds == [] then [] else [Device(ds[0].name, ds[0].powerW, ds[0].isOn)] + CopyDevices(ds[1..])
  }
}
