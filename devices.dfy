/** The device hierarchy: a base IoT device with an identifier and an on/off
    status, and three kinds that each add one attribute (smart light,
    thermostat, security camera).

    The source's subclasses become one class whose `extra` field both names
    the kind and carries the kind's attribute. The kind is fixed by the
    constructor and no method changes it.
 */
module Devices {

  const ON: string := "on"
  const OFF: string := "off"

  const DEFAULT_BRIGHTNESS: real := 0.0
  const DEFAULT_TEMPERATURE: real := 22.0
  const DEFAULT_SECURITY_STATUS: string := "Secure"

  /** The kind of a device together with its kind-specific attribute. */
  datatype Extra =
    | Plain
    | Brightness(brightness: real)
    | Temperature(temperature: real)
    | Security(securityStatus: string)

  predicate SameKind(a: Extra, b: Extra) {
    (a.Plain? && b.Plain?) || (a.Brightness? && b.Brightness?) ||
    (a.Temperature? && b.Temperature?) || (a.Security? && b.Security?)
  }

  /** The observable state of one device object, as a value. */
  datatype DeviceState = DeviceState(id: string, status: string, extra: Extra)

  predicate IsOnOff(status: string) {
    status == ON || status == OFF
  }

  /** The status a randomisation sets from a draw of `random()`. */
  function CoinStatus(coin: real): (status: string)
    ensures IsOnOff(status)
    ensures status == ON <==> coin < 0.5
  {
    if coin < 0.5 then ON else OFF
  }

  class IoTDevice {
    var deviceId: string
    var status: string
    var extra: Extra

    function State(): DeviceState
      reads this
    {
      DeviceState(deviceId, status, extra)
    }

    /** A plain device; the status defaults to "off". */
    constructor (deviceId: string, status: string := OFF)
      ensures this.deviceId == deviceId && this.status == status && extra == Plain
    {
      this.deviceId := deviceId;
      this.status := status;
      extra := Plain;
    }

    constructor SmartLight(deviceId: string, status: string := OFF, brightness: real := DEFAULT_BRIGHTNESS)
      ensures this.deviceId == deviceId && this.status == status
      ensures extra == Brightness(brightness)
    {
      this.deviceId := deviceId;
      this.status := status;
      extra := Brightness(brightness);
    }

    constructor Thermostat(deviceId: string, status: string := OFF, temperature: real := DEFAULT_TEMPERATURE)
      ensures this.deviceId == deviceId && this.status == status
      ensures extra == Temperature(temperature)
    {
      this.deviceId := deviceId;
      this.status := status;
      extra := Temperature(temperature);
    }

    constructor SecurityCamera(deviceId: string, status: string := OFF,
                               securityStatus: string := DEFAULT_SECURITY_STATUS)
      ensures this.deviceId == deviceId && this.status == status
      ensures extra == Security(securityStatus)
    {
      this.deviceId := deviceId;
      this.status := status;
      extra := Security(securityStatus);
    }

    /** Sets the status to "on" whatever it was; nothing else changes. */
    method TurnOn()
      modifies this`status
      ensures status == ON
      ensures deviceId == old(deviceId) && extra == old(extra)
    {
      status := ON;
    }

    /** Sets the status to "off" whatever it was; nothing else changes. */
    method TurnOff()
      modifies this`status
      ensures status == OFF
      ensures deviceId == old(deviceId) && extra == old(extra)
    {
      status := OFF;
    }

    /** Stores the given brightness as it is: no range check, no clamping. */
    method SetBrightness(brightness: real)
      requires extra.Brightness?
      modifies this`extra
      ensures extra == Brightness(brightness)
      ensures deviceId == old(deviceId) && status == old(status)
    {
      extra := Brightness(brightness);
    }

    /** The smart light's own randomisation: a coin draw `coin` of `random()`
        switches it on or off, then `level`, a draw of `randint(0, 100)`,
        replaces the brightness whatever it was. */
    method RandomizeLightState(coin: real, level: int)
      requires extra.Brightness?
      requires 0.0 <= coin < 1.0 && 0 <= level <= 100
      modifies this`status, this`extra
      ensures status == CoinStatus(coin)
      ensures extra == Brightness(level as real)
      ensures IsOnOff(status) && 0.0 <= extra.brightness <= 100.0
      ensures deviceId == old(deviceId)
    {
      if coin < 0.5 {
        TurnOn();
      } else {
        TurnOff();
      }
      SetBrightness(level as real);
    }

    /** Stores the given temperature as it is: the documented range from 10
        to 30 is not enforced. */
    method SetTemperature(temperature: real)
      requires extra.Temperature?
      modifies this`extra
      ensures extra == Temperature(temperature)
      ensures deviceId == old(deviceId) && status == old(status)
    {
      extra := Temperature(temperature);
    }

    /** The thermostat's own randomisation: a coin draw switches it on or
        off, then `sample`, a draw of `uniform(10, 30)`, replaces the
        temperature whatever it was. */
    method RandomizeThermostatState(coin: real, sample: real)
      requires extra.Temperature?
      requires 0.0 <= coin < 1.0 && 10.0 <= sample <= 30.0
      modifies this`status, this`extra
      ensures status == CoinStatus(coin)
      ensures extra == Temperature(sample)
      ensures IsOnOff(status) && 10.0 <= extra.temperature <= 30.0
      ensures deviceId == old(deviceId)
    {
      if coin < 0.5 {
        TurnOn();
      } else {
        TurnOff();
      }
      SetTemperature(sample);
    }

    /** Stores the given security status as it is, whether or not it is one
        of the documented "Secure" and "Insecure". */
    method SetSecurityStatus(securityStatus: string)
      requires extra.Security?
      modifies this`extra
      ensures extra == Security(securityStatus)
      ensures deviceId == old(deviceId) && status == old(status)
    {
      extra := Security(securityStatus);
    }
  }
}
