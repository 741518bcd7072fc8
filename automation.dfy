/** The automation system: an ordered, append-only list of discovered devices,
    a randomisation step that lets each device drift (clamped) from its
    current state, whole passes over the list, repeated passes, and a report
    of each device's current state keyed by device id.

    Every random draw is a parameter. A `Draw` holds all the values that one
    step on one device may consume; each kind uses only its own fields.
 */
module Automation {
  import opened Devices

  /** The values returned by the random calls of one step on one device:
      `coin` for `random()`, `lightChange` for `uniform(-10, 10)`,
      `heatChange` for `uniform(-2, 2)` and `pick` for the index that
      `choice` takes from its two-element list. */
  datatype Draw = Draw(coin: real, lightChange: real, heatChange: real, pick: int)

  predicate ValidDraw(d: Draw) {
    && 0.0 <= d.coin < 1.0
    && -10.0 <= d.lightChange <= 10.0
    && -2.0 <= d.heatChange <= 2.0
    && 0 <= d.pick < 2
  }

  predicate AllValid(draws: seq<Draw>) {
    forall i :: 0 <= i < |draws| ==> ValidDraw(draws[i])
  }

  const SECURITY_CHOICES: seq<string> := ["secure", "insecure"]

  function Max(a: real, b: real): real { if a >= b then a else b }

  function Min(a: real, b: real): real { if a <= b then a else b }

  /** `max(lo, min(hi, x))`: x itself when it lies in [lo, hi], otherwise the
      bound it overshoots. */
  function Clamp(x: real, lo: real, hi: real): (r: real)
    ensures lo <= hi ==> lo <= r <= hi
    ensures lo <= x <= hi ==> r == x
    ensures lo <= hi && x < lo ==> r == lo
    ensures lo <= hi && hi < x ==> r == hi
  {
    Max(lo, Min(hi, x))
  }

  /** The state every device reaches after one step of the system's
      randomisation, whatever state it started from. */
  predicate Settled(s: DeviceState) {
    && IsOnOff(s.status)
    && match s.extra
       case Plain => true
       case Brightness(b) => 0.0 <= b <= 100.0
       case Temperature(t) => 10.0 <= t <= 30.0
       case Security(x) => x == "secure" || x == "insecure"
  }

  /** One step of the system's randomisation on a device's state: a coin
      switches it on or off, then a light's brightness drifts by
      `lightChange` and is clamped to [0, 100], a thermostat's temperature
      drifts by `heatChange` and is clamped to [10, 30], a camera's security
      status is picked from "secure" and "insecure", and a plain device keeps
      everything but its status. */
  function Drift(s: DeviceState, d: Draw): (r: DeviceState)
    requires ValidDraw(d)
    ensures r.id == s.id && SameKind(r.extra, s.extra)
    ensures r.status == ON <==> d.coin < 0.5
    ensures Settled(r)
    ensures s.extra.Plain? ==> r.extra == Plain
    ensures (s.extra.Brightness? && 0.0 <= s.extra.brightness + d.lightChange <= 100.0)
              ==> r.extra.brightness == s.extra.brightness + d.lightChange
    ensures (s.extra.Temperature? && 10.0 <= s.extra.temperature + d.heatChange <= 30.0)
              ==> r.extra.temperature == s.extra.temperature + d.heatChange
    ensures s.extra.Brightness? && s.extra.brightness + d.lightChange < 0.0 ==> r.extra.brightness == 0.0
    ensures s.extra.Brightness? && s.extra.brightness + d.lightChange > 100.0 ==> r.extra.brightness == 100.0
    ensures s.extra.Temperature? && s.extra.temperature + d.heatChange < 10.0 ==> r.extra.temperature == 10.0
    ensures s.extra.Temperature? && s.extra.temperature + d.heatChange > 30.0 ==> r.extra.temperature == 30.0
    ensures s.extra.Security? ==> r.extra.securityStatus == SECURITY_CHOICES[d.pick]
  {
    var extra :=
      match s.extra
      case Plain => Plain
      case Brightness(b) => Brightness(Clamp(b + d.lightChange, 0.0, 100.0))
      case Temperature(t) => Temperature(Clamp(t + d.heatChange, 10.0, 30.0))
      case Security(_) => Security(SECURITY_CHOICES[d.pick]);
    DeviceState(s.id, CoinStatus(d.coin), extra)
  }

  /** Steps applied in order to one state. */
  function DriftAll(s: DeviceState, draws: seq<Draw>): DeviceState
    requires AllValid(draws)
    decreases |draws|
  {
    if draws == [] then s
    else
      var n := |draws| - 1;
      Drift(DriftAll(s, draws[..n]), draws[n])
  }

  /** The states of all device objects in the system, keyed by object. The
      same object may be discovered more than once. */
  type States = map<IoTDevice, DeviceState>

  predicate Covers(w: States, devs: seq<IoTDevice>) {
    forall i :: 0 <= i < |devs| ==> devs[i] in w
  }

  /** One pass of the randomisation over `devs`, in list order, with
      `draws[i]` used for the i-th entry. */
  function Pass(devs: seq<IoTDevice>, w: States, draws: seq<Draw>): (r: States)
    requires |draws| == |devs| && AllValid(draws) && Covers(w, devs)
    ensures r.Keys == w.Keys
    decreases |devs|
  {
    if devs == [] then w
    else
      var n := |devs| - 1;
      var before := Pass(devs[..n], w, draws[..n]);
      before[devs[n] := Drift(before[devs[n]], draws[n])]
  }

  /** A pass over one more entry is the shorter pass followed by one step. */
  lemma PassExtend(devs: seq<IoTDevice>, w: States, draws: seq<Draw>, i: nat)
    requires |draws| == |devs| && AllValid(draws) && Covers(w, devs) && i < |devs|
    ensures var before := Pass(devs[..i], w, draws[..i]);
            Pass(devs[..i + 1], w, draws[..i + 1]) == before[devs[i] := Drift(before[devs[i]], draws[i])]
  {
    assert devs[..i + 1][..i] == devs[..i];
    assert draws[..i + 1][..i] == draws[..i];
  }

  predicate RoundsFit(rounds: seq<seq<Draw>>, count: nat) {
    forall k :: 0 <= k < |rounds| ==> |rounds[k]| == count && AllValid(rounds[k])
  }

  /** Passes repeated in order, one per element of `rounds`. */
  function Rounds(devs: seq<IoTDevice>, w: States, rounds: seq<seq<Draw>>): (r: States)
    requires Covers(w, devs) && RoundsFit(rounds, |devs|)
    ensures r.Keys == w.Keys
    decreases |rounds|
  {
    if rounds == [] then w
    else
      var n := |rounds| - 1;
      Pass(devs, Rounds(devs, w, rounds[..n]), rounds[n])
  }

  /** The draws of one pass that land on object `o`, in order. */
  function DrawsFor(o: IoTDevice, devs: seq<IoTDevice>, draws: seq<Draw>): (r: seq<Draw>)
    requires |draws| == |devs| && AllValid(draws)
    ensures AllValid(r)
    decreases |devs|
  {
    if devs == [] then []
    else
      var n := |devs| - 1;
      DrawsFor(o, devs[..n], draws[..n]) + (if devs[n] == o then [draws[n]] else [])
  }

  predicate Distinct(devs: seq<IoTDevice>) {
    forall i, j :: 0 <= i < j < |devs| ==> devs[i] != devs[j]
  }

  /** Each object in a pass receives the steps drawn for its own entries,
      in list order; an object not in the list is left as it was. */
  lemma {:induction false} PassPerObject(devs: seq<IoTDevice>, w: States, draws: seq<Draw>, o: IoTDevice)
    requires |draws| == |devs| && AllValid(draws) && Covers(w, devs)
    requires o in w
    ensures Pass(devs, w, draws)[o] == DriftAll(w[o], DrawsFor(o, devs, draws))
  {
    if devs != [] {
      var n := |devs| - 1;
      PassPerObject(devs[..n], w, draws[..n], o);
      var prior := DrawsFor(o, devs[..n], draws[..n]);
      if devs[n] == o {
        var all := prior + [draws[n]];
        assert all[..|all| - 1] == prior;
      } else {
        assert prior + [] == prior;
      }
    }
  }

  /** With no object listed twice, a pass steps every listed device exactly
      once with its own draw and leaves every other object alone. */
  lemma {:induction false} PassDistinct(devs: seq<IoTDevice>, w: States, draws: seq<Draw>)
    requires |draws| == |devs| && AllValid(draws) && Covers(w, devs)
    requires Distinct(devs)
    ensures forall i :: 0 <= i < |devs| ==> Pass(devs, w, draws)[devs[i]] == Drift(w[devs[i]], draws[i])
    ensures forall o :: o in w && o !in devs ==> Pass(devs, w, draws)[o] == w[o]
  {
    if devs != [] {
      var n := |devs| - 1;
      PassDistinct(devs[..n], w, draws[..n]);
      forall o | o in w && o !in devs
        ensures Pass(devs, w, draws)[o] == w[o]
      {
        assert o !in devs[..n];
      }
      forall i | 0 <= i < n
        ensures Pass(devs, w, draws)[devs[i]] == Drift(w[devs[i]], draws[i])
      {
        assert devs[..n][i] == devs[i];
      }
      assert devs[n] !in devs[..n];
    }
  }

  /** After a pass every listed device is settled, whatever its state was. */
  lemma {:induction false} PassSettles(devs: seq<IoTDevice>, w: States, draws: seq<Draw>)
    requires |draws| == |devs| && AllValid(draws) && Covers(w, devs)
    ensures forall i :: 0 <= i < |devs| ==> Settled(Pass(devs, w, draws)[devs[i]])
  {
    if devs != [] {
      var n := |devs| - 1;
      PassSettles(devs[..n], w, draws[..n]);
      forall i | 0 <= i < n
        ensures Settled(Pass(devs, w, draws)[devs[i]])
      {
        assert devs[..n][i] == devs[i];
      }
    }
  }

  /** Ids and kinds survive a state change. */
  predicate SameShape(w: States, w': States) {
    && w'.Keys == w.Keys
    && forall o :: o in w ==> w'[o].id == w[o].id && SameKind(w'[o].extra, w[o].extra)
  }

  lemma {:induction false} PassKeepsShape(devs: seq<IoTDevice>, w: States, draws: seq<Draw>)
    requires |draws| == |devs| && AllValid(draws) && Covers(w, devs)
    ensures SameShape(w, Pass(devs, w, draws))
  {
    if devs != [] {
      var n := |devs| - 1;
      PassKeepsShape(devs[..n], w, draws[..n]);
    }
  }

  /** Repeated passes keep every id and kind; at least one pass leaves every
      listed device settled; zero passes leave everything as it was. */
  lemma {:induction false} RoundsProperties(devs: seq<IoTDevice>, w: States, rounds: seq<seq<Draw>>)
    requires Covers(w, devs) && RoundsFit(rounds, |devs|)
    ensures SameShape(w, Rounds(devs, w, rounds))
    ensures |rounds| > 0 ==> forall i :: 0 <= i < |devs| ==> Settled(Rounds(devs, w, rounds)[devs[i]])
    ensures |rounds| == 0 ==> Rounds(devs, w, rounds) == w
  {
    if rounds != [] {
      var n := |rounds| - 1;
      RoundsProperties(devs, w, rounds[..n]);
      var before := Rounds(devs, w, rounds[..n]);
      PassKeepsShape(devs, before, rounds[n]);
      PassSettles(devs, before, rounds[n]);
    }
  }

  /** What the report holds for one device: its status and its kind-specific
      field (none for a plain device). */
  datatype Snapshot = Snapshot(status: string, extra: Extra)

  function SnapshotOf(s: DeviceState): Snapshot {
    Snapshot(s.status, s.extra)
  }

  /** The report built in list order: a later device with the same id
      overwrites an earlier one's entry. */
  function Log(states: seq<DeviceState>): (r: map<string, Snapshot>)
    ensures |r| <= |states|
    ensures states != [] ==> states[|states| - 1].id in r && r[states[|states| - 1].id] == SnapshotOf(states[|states| - 1])
    decreases |states|
  {
    if states == [] then map[]
    else
      var n := |states| - 1;
      Log(states[..n])[states[n].id := SnapshotOf(states[n])]
  }

  function Ids(states: seq<DeviceState>): set<string> {
    set i | 0 <= i < |states| :: states[i].id
  }

  /** `j` is the last position in `states` that holds its id. */
  predicate LastWithId(states: seq<DeviceState>, j: int) {
    && 0 <= j < |states|
    && forall k :: j < k < |states| ==> states[k].id != states[j].id
  }

  lemma {:induction false} LogKeys(states: seq<DeviceState>)
    ensures Log(states).Keys == Ids(states)
  {
    if states != [] {
      var n := |states| - 1;
      LogKeys(states[..n]);
      IdsSnoc(states);
    }
  }

  /** The ids of a non-empty list are those of all but its last element,
      plus the last element's id. */
  lemma IdsSnoc(states: seq<DeviceState>)
    requires states != []
    ensures Ids(states) == Ids(states[..|states| - 1]) + {states[|states| - 1].id}
  {
    var n := |states| - 1;
    forall x | x in Ids(states) ensures x in Ids(states[..n]) + {states[n].id} {
      var i :| 0 <= i < |states| && states[i].id == x;
      if i < n {
        assert states[..n][i] == states[i];
      }
    }
    forall x | x in Ids(states[..n]) ensures x in Ids(states) {
      var i :| 0 <= i < n && states[..n][i].id == x;
      assert states[i] == states[..n][i];
    }
  }

  /** The entry for the last device holding an id is that device's snapshot. */
  lemma {:induction false} LogLastWins(states: seq<DeviceState>, j: int)
    requires LastWithId(states, j)
    ensures states[j].id in Log(states) && Log(states)[states[j].id] == SnapshotOf(states[j])
  {
    var n := |states| - 1;
    if j < n {
      assert LastWithId(states[..n], j);
      LogLastWins(states[..n], j);
    }
  }

  /** Every entry of the report is the snapshot of the last device holding
      its id. */
  lemma {:induction false} LogEntryIsLast(states: seq<DeviceState>, id: string)
    requires id in Log(states)
    ensures exists j :: LastWithId(states, j) && states[j].id == id && Log(states)[id] == SnapshotOf(states[j])
  {
    var n := |states| - 1;
    if states[n].id == id {
      assert LastWithId(states, n);
    } else {
      LogEntryIsLast(states[..n], id);
      var j :| LastWithId(states[..n], j) && states[..n][j].id == id && Log(states[..n])[id] == SnapshotOf(states[..n][j]);
      assert LastWithId(states, j);
    }
  }

  /** With distinct ids the report has exactly one entry per device. */
  lemma {:induction false} LogSizeDistinct(states: seq<DeviceState>)
    requires forall i, j :: 0 <= i < j < |states| ==> states[i].id != states[j].id
    ensures |Log(states)| == |states|
  {
    if states != [] {
      var n := |states| - 1;
      LogSizeDistinct(states[..n]);
      LogKeys(states[..n]);
      assert states[n].id !in Ids(states[..n]);
    }
  }

  /** The abstraction function for the report: the states of the listed
      devices in list order, which `LogDeviceData` is specified against. */
  function StatesOf(devs: seq<IoTDevice>): (r: seq<DeviceState>)
    reads devs
    ensures |r| == |devs| && forall i :: 0 <= i < |devs| ==> r[i] == devs[i].State()
  {
    seq(|devs|, i reads devs requires 0 <= i < |devs| => devs[i].State())
  }

  class AutomationSystem {
    var devices: seq<IoTDevice>

    /** The abstraction function for the passes: the states of the
        discovered device objects, keyed by object, which `ExecuteAutomation`
        and `Simulate` are specified against. */
    function World(): (w: States)
      reads this, devices
      ensures forall i :: 0 <= i < |devices| ==> devices[i] in w && w[devices[i]] == devices[i].State()
    {
      map o | o in devices :: o.State()
    }

    constructor ()
      ensures devices == []
    {
      devices := [];
    }

    /** Appends the device at the end of the list; an id or an object that is
        already there is appended again. */
    method DiscoverDevice(device: IoTDevice)
      modifies this`devices
      ensures devices == old(devices) + [device]
    {
      devices := devices + [device];
    }

    /** The system's randomisation step on one device. */
    method RandomizeDeviceState(device: IoTDevice, draw: Draw)
      requires ValidDraw(draw)
      modifies device
      ensures device.State() == Drift(old(device.State()), draw)
    {
      if draw.coin < 0.5 {
        device.TurnOn();
      } else {
        device.TurnOff();
      }
      match device.extra
      case Brightness(b) =>
        device.SetBrightness(Clamp(b + draw.lightChange, 0.0, 100.0));
      case Temperature(t) =>
        device.SetTemperature(Clamp(t + draw.heatChange, 10.0, 30.0));
      case Security(_) =>
        device.SetSecurityStatus(SECURITY_CHOICES[draw.pick]);
      case Plain =>
    }

    /** The step on the i-th list entry, seen on the whole map of states:
        only that entry's object changes. */
    method RandomizeEntry(i: nat, draw: Draw)
      requires i < |devices| && ValidDraw(draw)
      modifies devices[i]
      ensures World() == old(World())[devices[i] := Drift(old(World())[devices[i]], draw)]
    {
      ghost var before := World();
      RandomizeDeviceState(devices[i], draw);
      ghost var stepped := devices[i].State();
      assert World() == before[devices[i] := stepped];
    }

    /** One pass: every device in list order takes one step, `draws[i]`
        feeding the i-th. */
    method ExecuteAutomation(draws: seq<Draw>)
      requires |draws| == |devices| && AllValid(draws)
      modifies devices
      ensures World() == Pass(devices, old(World()), draws)
      ensures forall i :: 0 <= i < |devices| ==> Settled(devices[i].State())
      ensures forall i :: 0 <= i < |devices| ==>
                devices[i].deviceId == old(devices[i].deviceId) && SameKind(devices[i].extra, old(devices[i].extra))
    {
      ghost var w0 := World();
      var i := 0;
      while i < |devices|
        invariant 0 <= i <= |devices|
        invariant World() == Pass(devices[..i], w0, draws[..i])
      {
        RandomizeEntry(i, draws[i]);
        PassExtend(devices, w0, draws, i);
        i := i + 1;
      }
      assert devices[..i] == devices && draws[..i] == draws;
      PassSettles(devices, w0, draws);
      PassKeepsShape(devices, w0, draws);
    }

    /** `numIterations` passes in a row, `rounds[k]` feeding the k-th; a
        count of zero or less runs none. */
    method Simulate(numIterations: int, rounds: seq<seq<Draw>>)
      requires |rounds| == if numIterations < 0 then 0 else numIterations
      requires RoundsFit(rounds, |devices|)
      modifies devices
      ensures World() == Rounds(devices, old(World()), rounds)
      ensures numIterations <= 0 ==> World() == old(World())
      ensures numIterations > 0 ==> forall i :: 0 <= i < |devices| ==> Settled(devices[i].State())
      ensures forall i :: 0 <= i < |devices| ==>
                devices[i].deviceId == old(devices[i].deviceId) && SameKind(devices[i].extra, old(devices[i].extra))
    {
      ghost var w0 := World();
      var k := 0;
      while k < numIterations
        invariant 0 <= k <= |rounds|
        invariant numIterations > 0 ==> k <= numIterations
        invariant World() == Rounds(devices, w0, rounds[..k])
      {
        ExecuteAutomation(rounds[k]);
        assert rounds[..k + 1][..k] == rounds[..k];
        k := k + 1;
      }
      assert rounds[..k] == rounds;
      RoundsProperties(devices, w0, rounds);
      forall i | 0 <= i < |devices|
        ensures devices[i].deviceId == old(devices[i].deviceId) && SameKind(devices[i].extra, old(devices[i].extra))
        ensures numIterations > 0 ==> Settled(devices[i].State())
      {
        assert World()[devices[i]] == devices[i].State();
        assert w0[devices[i]] == old(devices[i].State());
      }
    }

    /** The report of every discovered device's current state, keyed by
        device id; nothing is changed. */
    method LogDeviceData() returns (data: map<string, Snapshot>)
      ensures data == Log(StatesOf(devices))
      ensures data.Keys == Ids(StatesOf(devices))
    {
      data := map[];
      var i := 0;
      while i < |devices|
        invariant 0 <= i <= |devices|
        invariant data == Log(StatesOf(devices[..i]))
      {
        var device := devices[i];
        data := data[device.deviceId := Snapshot(device.status, device.extra)];
        assert StatesOf(devices[..i + 1])[..i] == StatesOf(devices[..i]);
        i := i + 1;
      }
      assert devices[..i] == devices;
      LogKeys(StatesOf(devices));
    }
  }
}
