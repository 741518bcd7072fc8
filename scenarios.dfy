/** The scenarios the repository's unit tests exercise, as clients of the
    device classes: each builds its own device, drives it, and returns what
    the test inspects. `SwitchTwice` and the camera half of
    `SettersStoreUnchecked` extend the tests to cases they do not cover.
    Every draw of `random` is again a parameter.
 */
module Scenarios {
  import opened Devices

  /** A light built off at brightness 0 and randomised once per element of
      `coins` (with `levels[k]` as the k-th `randint(0, 100)`); after every
      call the status is "on" or "off" and the brightness lies in [0, 100],
      and the final state is the one the last draws chose. */
  method LightRandomizedRepeatedly(coins: seq<real>, levels: seq<int>)
    returns (status: string, brightness: real)
    requires |coins| == |levels|
    requires forall k :: 0 <= k < |coins| ==> 0.0 <= coins[k] < 1.0
    requires forall k :: 0 <= k < |levels| ==> 0 <= levels[k] <= 100
    ensures IsOnOff(status) && 0.0 <= brightness <= 100.0
    ensures |coins| == 0 ==> status == OFF && brightness == 0.0
    ensures |coins| > 0 ==> status == CoinStatus(coins[|coins| - 1]) && brightness == levels[|levels| - 1] as real
  {
    var light := new IoTDevice.SmartLight("Living Room Light", OFF, 0.0);
    var k := 0;
    while k < |coins|
      invariant 0 <= k <= |coins|
      invariant light.extra.Brightness?
      invariant IsOnOff(light.status) && 0.0 <= light.extra.brightness <= 100.0
      invariant k == 0 ==> light.status == OFF && light.extra.brightness == 0.0
      invariant k > 0 ==> light.status == CoinStatus(coins[k - 1]) && light.extra.brightness == levels[k - 1] as real
    {
      light.RandomizeLightState(coins[k], levels[k]);
      k := k + 1;
    }
    status, brightness := light.status, light.extra.brightness;
  }

  /** A thermostat built off at 22.0 and randomised once lands in [10, 30]
      with the sampled temperature. */
  method ThermostatRandomizedOnce(coin: real, sample: real) returns (status: string, temperature: real)
    requires 0.0 <= coin < 1.0 && 10.0 <= sample <= 30.0
    ensures IsOnOff(status) && 10.0 <= temperature <= 30.0
    ensures status == ON <==> coin < 0.5
    ensures temperature == sample
  {
    var thermostat := new IoTDevice.Thermostat("Living Room Thermostat", OFF, 22.0);
    thermostat.RandomizeThermostatState(coin, sample);
    status, temperature := thermostat.status, thermostat.extra.temperature;
  }

  /** The setters store their argument unchecked: a light switched on at
      brightness 0 keeps whatever brightness it is given, 50 in the test and
      150 just as well, and so with any temperature or security status. */
  method SettersStoreUnchecked(brightness: real, temperature: real, securityStatus: string)
    returns (storedBrightness: real, storedTemperature: real, storedSecurity: string)
    ensures storedBrightness == brightness
    ensures storedTemperature == temperature && storedSecurity == securityStatus
  {
    var light := new IoTDevice.SmartLight("Living Room Light", ON, 0.0);
    light.SetBrightness(brightness);
    var thermostat := new IoTDevice.Thermostat("Living Room Thermostat", ON, 22.0);
    thermostat.SetTemperature(temperature);
    var camera := new IoTDevice.SecurityCamera("Front Door Camera");
    camera.SetSecurityStatus(securityStatus);
    storedBrightness, storedTemperature, storedSecurity := light.extra.brightness, thermostat.extra.temperature, camera.extra.securityStatus;
  }

  /** Switching a device on or off twice leaves it as switching it once
      does, and neither changes its id or its kind-specific attribute. */
  method SwitchTwice(on: bool, securityStatus: string) returns (once: DeviceState, twice: DeviceState)
    ensures once == twice
    ensures once == DeviceState("Front Door Camera", if on then ON else OFF, Security(securityStatus))
  {
    var a := new IoTDevice.SecurityCamera("Front Door Camera", ON, securityStatus);
    var b := new IoTDevice.SecurityCamera("Front Door Camera", ON, securityStatus);
    if on {
      a.TurnOn();
      b.TurnOn();
      b.TurnOn();
    } else {
      a.TurnOff();
      b.TurnOff();
      b.TurnOff();
    }
    once, twice := a.State(), b.State();
  }
}
