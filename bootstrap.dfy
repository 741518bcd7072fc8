/** The program's start-up sequence, as a client of the automation system:
    three devices of the three kinds are discovered and simulated for three
    iterations. The start-up code itself does not read the report; reading it
    once afterwards is added here to state what the simulation leaves behind.
    What it proves follows from the contracts of the system alone.
 */
module Bootstrap {
  import opened Devices
  import opened Automation

  const LIGHT_ID: string := "Living Room Light"
  const THERMOSTAT_ID: string := "Living Room Thermostat"
  const CAMERA_ID: string := "Front Door Camera"

  /** Builds the system, runs `simulate(3)` with the given draws, then reads
      the report, which has one settled entry per device. */
  method StartUp(rounds: seq<seq<Draw>>) returns (data: map<string, Snapshot>)
    requires |rounds| == 3 && RoundsFit(rounds, 3)
    ensures data.Keys == {LIGHT_ID, THERMOSTAT_ID, CAMERA_ID} && |data| == 3
    ensures data[LIGHT_ID].extra.Brightness? && 0.0 <= data[LIGHT_ID].extra.brightness <= 100.0
    ensures data[THERMOSTAT_ID].extra.Temperature? && 10.0 <= data[THERMOSTAT_ID].extra.temperature <= 30.0
    ensures data[CAMERA_ID].extra.Security?
    ensures data[CAMERA_ID].extra.securityStatus == "secure" || data[CAMERA_ID].extra.securityStatus == "insecure"
    ensures forall id :: id in data ==> IsOnOff(data[id].status)
  {
    var system, light, thermostat, camera := DiscoverThree();
    RunSimulation(system, rounds);
    data := system.LogDeviceData();

    assert system.devices == [light, thermostat, camera];
    ghost var states := StatesOf(system.devices);
    assert states[0] == light.State() && states[1] == thermostat.State() && states[2] == camera.State();
    ReportOfStartUp(states);
  }

  /** The three constructions and discoveries of the start-up sequence. */
  method DiscoverThree() returns (system: AutomationSystem, light: IoTDevice, thermostat: IoTDevice, camera: IoTDevice)
    ensures fresh(system) && fresh(light) && fresh(thermostat) && fresh(camera)
    ensures system.devices == [light, thermostat, camera]
    ensures light.State() == DeviceState(LIGHT_ID, OFF, Brightness(0.0))
    ensures thermostat.State() == DeviceState(THERMOSTAT_ID, OFF, Temperature(22.0))
    ensures camera.State() == DeviceState(CAMERA_ID, OFF, Security("Secure"))
  {
    system := new AutomationSystem();
    light := new IoTDevice.SmartLight(LIGHT_ID, OFF, 0.0);
    thermostat := new IoTDevice.Thermostat(THERMOSTAT_ID, OFF, 22.0);
    camera := new IoTDevice.SecurityCamera(CAMERA_ID, OFF, "Secure");
    system.DiscoverDevice(light);
    system.DiscoverDevice(thermostat);
    system.DiscoverDevice(camera);
  }

  /** The report of the start-up sequence's three devices once they are
      settled, stated over their ids. */
  lemma ReportOfStartUp(states: seq<DeviceState>)
    requires |states| == 3
    requires states[0].id == LIGHT_ID && states[1].id == THERMOSTAT_ID && states[2].id == CAMERA_ID
    requires states[0].extra.Brightness? && states[1].extra.Temperature? && states[2].extra.Security?
    requires Settled(states[0]) && Settled(states[1]) && Settled(states[2])
    ensures Log(states).Keys == {LIGHT_ID, THERMOSTAT_ID, CAMERA_ID} && |Log(states)| == 3
    ensures Log(states)[LIGHT_ID].extra.Brightness? && 0.0 <= Log(states)[LIGHT_ID].extra.brightness <= 100.0
    ensures Log(states)[THERMOSTAT_ID].extra.Temperature? && 10.0 <= Log(states)[THERMOSTAT_ID].extra.temperature <= 30.0
    ensures Log(states)[CAMERA_ID].extra.Security?
    ensures Log(states)[CAMERA_ID].extra.securityStatus == "secure" || Log(states)[CAMERA_ID].extra.securityStatus == "insecure"
    ensures forall id :: id in Log(states) ==> IsOnOff(Log(states)[id].status)
  {
    StartUpIdsDistinct();
    ReportOfThree(states);
  }

  /** `simulate(3)` as the start-up sequence sees it: every device keeps its
      id and kind and ends settled. */
  method RunSimulation(system: AutomationSystem, rounds: seq<seq<Draw>>)
    requires |rounds| == 3 && RoundsFit(rounds, |system.devices|)
    modifies system.devices
    ensures forall i :: 0 <= i < |system.devices| ==>
              && system.devices[i].deviceId == old(system.devices[i].deviceId)
              && SameKind(system.devices[i].extra, old(system.devices[i].extra))
              && Settled(system.devices[i].State())
  {
    system.Simulate(3, rounds);
  }

  /** The three ids of the start-up sequence are distinct. */
  lemma StartUpIdsDistinct()
    ensures LIGHT_ID != THERMOSTAT_ID && LIGHT_ID != CAMERA_ID && THERMOSTAT_ID != CAMERA_ID
  {
    // Index 12 tells the light's id from the thermostat's ('L' against 'T'),
    // index 0 tells both from the camera's.
    assert LIGHT_ID[12] != THERMOSTAT_ID[12] && LIGHT_ID[0] != CAMERA_ID[0] && THERMOSTAT_ID[0] != CAMERA_ID[0];
  }

  /** The report of three settled devices with three distinct ids: one entry
      per id, each the snapshot of its own device. */
  lemma ReportOfThree(states: seq<DeviceState>)
    requires |states| == 3
    requires states[0].id != states[1].id && states[0].id != states[2].id && states[1].id != states[2].id
    requires states[2].extra.Security?
    requires Settled(states[0]) && Settled(states[1]) && Settled(states[2])
    ensures Log(states).Keys == {states[0].id, states[1].id, states[2].id} && |Log(states)| == 3
    ensures Log(states)[states[0].id] == SnapshotOf(states[0])
    ensures Log(states)[states[1].id] == SnapshotOf(states[1])
    ensures Log(states)[states[2].id] == SnapshotOf(states[2])
    ensures forall id :: id in Log(states) ==> IsOnOff(Log(states)[id].status)
    ensures Log(states)[states[2].id].extra.securityStatus in SECURITY_CHOICES
  {
    // Log unfolded three times, from the empty prefix up.
    assert states[..2][..1] == states[..1] && states[..1][..0] == [];
    var m := map[states[0].id := SnapshotOf(states[0])];
    assert Log(states[..1]) == m;
    m := m[states[1].id := SnapshotOf(states[1])];
    assert Log(states[..2]) == m;
    m := m[states[2].id := SnapshotOf(states[2])];
    assert Log(states) == m;
  }
}
